/**
 * What the two sysctl helpers compute, stated on values: the lists the
 * driver renders, the two rounds of a voltage override, and the row a
 * target write broadcasts.
 */
module Override {
  import opened Wrappers
  import opened Codec
  import opened Catalog
  import opened Scanner
  import opened Resolver
  import opened Selector
  import opened Hardware

  /** The voltage steps of a table, row by row. */
  function Vids(t: seq<Identifier>): (vs: seq<nat>)
    ensures |vs| == |t| && forall i :: 0 <= i < |t| ==> vs[i] == VoltInc(t[i])
  {
    seq(|t|, i requires 0 <= i < |t| => VoltInc(t[i]))
  }

  /** The frequency steps of a table, row by row. */
  function Fids(t: seq<Identifier>): (fs: seq<nat>)
    ensures |fs| == |t| && forall i :: 0 <= i < |t| ==> fs[i] == FreqInc(t[i])
  {
    seq(|t|, i requires 0 <= i < |t| => FreqInc(t[i]))
  }

  /** The frequencies of a table in MHz, row by row. */
  function MHzList(t: seq<Identifier>, bus: nat): (ms: seq<nat>)
    ensures |ms| == |t| && forall i :: 0 <= i < |t| ==> ms[i] == MsrToMHz(t[i], bus)
  {
    seq(|t|, i requires 0 <= i < |t| => MsrToMHz(t[i], bus))
  }

  /** The first n characters of a string, or all of it when it is shorter. */
  function Prefix(s: string, n: nat): (p: string)
    ensures |p| <= n && p <= s
    ensures |s| <= n ==> p == s
  {
    if |s| <= n then s else s[..n]
  }

  /** strncmp(a, b, PHC_MAXLEN) == 0 on two C strings: they agree on their first PHC_MAXLEN characters. */
  predicate SameText(a: string, b: string): (r: bool)
    ensures r <==>
      && (|a| < PhcMaxLen || |b| < PhcMaxLen ==> |a| == |b|)
      && (forall i :: 0 <= i < PhcMaxLen && i < |a| && i < |b| ==> a[i] == b[i])
  {
    Prefix(a, PhcMaxLen) == Prefix(b, PhcMaxLen)
  }

  /** A text shorter than PHC_MAXLEN is the same text as another exactly when the two are equal. */
  lemma SameTextShort(a: string, b: string)
    requires |a| < PhcMaxLen
    ensures SameText(a, b) <==> a == b
  {
  }

  /** strlcpy(dst, src, size): the text it leaves in dst, at most size - 1 characters of src. */
  function Strlcpy(src: string, size: nat): (d: string)
    ensures size > 0 ==> |d| < size && d <= src
    ensures |src| < size ==> d == src
  {
    if size == 0 then "" else Prefix(src, size - 1)
  }

  /** The bytes strlcpy(dst, src, size) writes into dst: the text and its NUL, or none when size is 0. */
  function StrlcpyBytes(src: string, size: nat): nat
  {
    if size == 0 then 0 else |Strlcpy(src, size)| + 1
  }

  /**
   * The copy of the original voltage list into the PHC_MAXLEN-byte session
   * buffer, as written, with vids_len = n * 3 + 1 as its size: for a table
   * of 11 or more rows with two-digit voltage steps the capped list is at
   * least PHC_MAXLEN characters long and strlcpy writes more than
   * PHC_MAXLEN bytes.
   */
  lemma InitialCopyOverflows(t: seq<Identifier>)
    requires |t| >= 11 && forall i :: 0 <= i < |t| ==> 10 <= VoltInc(t[i]) < 100
    ensures |CappedFrom(Vids(t), 0)| >= PhcMaxLen
    ensures StrlcpyBytes(CappedFrom(Vids(t), 0), |t| * 3 + 1) > PhcMaxLen
  {
    TwoDigitJoinLength(Vids(t));
    CappedIsPrefix(Vids(t), 0);
  }

  /**
   * The copy with the buffer's own size, strlcpy(phc_string_vids,
   * phc_original_vids, PHC_MAXLEN): it never writes more than PHC_MAXLEN
   * bytes, copies a list shorter than PHC_MAXLEN whole, and keeps all of a
   * longer list that the helper ever shows of the session.
   */
  lemma InitialCopyFits(src: string)
    ensures StrlcpyBytes(src, PhcMaxLen) <= PhcMaxLen
    ensures |src| < PhcMaxLen ==> Strlcpy(src, PhcMaxLen) == src
    ensures Strlcpy(Strlcpy(src, PhcMaxLen), PhcMaxLen) == Strlcpy(src, PhcMaxLen)
  {
  }

  /** The outcome of the override's first round: the voltage steps read and where reading stopped, or a refusal. */
  datatype Verdict = Rejected | Accepted(vids: seq<nat>, end: nat)

  /**
   * The first round of phc_est_sysctl_helper: read one number per row and
   * accept them only if there are enough and none exceeds the row's voltage
   * step in `bounds` (phc_origin_table).
   */
  function Validate(s: string, bounds: seq<Identifier>): (v: Verdict)
    ensures v.Accepted? ==> |v.vids| == |bounds| && v.end <= |s|
    ensures v.Accepted? ==> forall i :: 0 <= i < |bounds| ==> v.vids[i] <= VoltInc(bounds[i])
  {
    match Numbers(s, |bounds|)
    case RanOut => Rejected
    case Read(vs, e) =>
      if forall i :: 0 <= i < |vs| ==> vs[i] <= VoltInc(bounds[i]) then Accepted(vs, e) else Rejected
  }

  /** The second round: each row keeps its frequency step and takes the new voltage step. */
  function Rewrite(t: seq<Identifier>, vs: seq<nat>): (r: seq<Identifier>)
    requires |vs| == |t| && forall i :: 0 <= i < |vs| ==> vs[i] < 0x100
    ensures |r| == |t|
    ensures forall i :: 0 <= i < |t| ==> FreqInc(r[i]) == FreqInc(t[i]) && VoltInc(r[i]) == vs[i]
  {
    seq(|t|, i requires 0 <= i < |t| => PhcId16(FreqInc(t[i]), vs[i]))
  }

  /** Running out of numbers at row i refuses the whole list. */
  lemma ValidateRanOut(s: string, bounds: seq<Identifier>, i: nat, vs: seq<nat>, pos: nat)
    requires i < |bounds| && Numbers(s, i) == Read(vs, pos) && NextNumber(s, pos).None?
    ensures Validate(s, bounds) == Rejected
  {
    assert Numbers(s, i + 1).RanOut?;
    NumbersRunOut(s, i + 1, |bounds|);
  }

  /** A number above its row's bound at row i refuses the whole list, however the rest reads. */
  lemma ValidateExceeds(s: string, bounds: seq<Identifier>, i: nat, vs: seq<nat>, pos: nat, t: Token)
    requires i < |bounds| && Numbers(s, i) == Read(vs, pos) && NextNumber(s, pos) == Some(t)
    requires t.value > VoltInc(bounds[i])
    ensures Validate(s, bounds) == Rejected
  {
    NumbersStep(s, i, vs, pos, t);
    match Numbers(s, |bounds|)
    case RanOut =>
    case Read(all, e) =>
      NumbersExtend(s, i + 1, |bounds|);
      assert all[i] == (all[..i + 1])[i] == (vs + [t.value])[i];
      assert all[i] > VoltInc(bounds[i]);
  }

  /** All numbers read and all within bounds: the list is accepted as read. */
  lemma ValidateAll(s: string, bounds: seq<Identifier>, vs: seq<nat>, pos: nat)
    requires Numbers(s, |bounds|) == Read(vs, pos)
    requires forall i :: 0 <= i < |bounds| ==> vs[i] <= VoltInc(bounds[i])
    ensures Validate(s, bounds) == Accepted(vs, pos)
  {
  }

  /** An accepted override keeps every frequency step and never raises a voltage step. */
  lemma OverrideLowersVoltages(s: string, t: seq<Identifier>)
    requires Validate(s, t).Accepted?
    ensures var r := Rewrite(t, Validate(s, t).vids);
      forall i :: 0 <= i < |t| ==> FreqInc(r[i]) == FreqInc(t[i]) && VoltInc(r[i]) <= VoltInc(t[i])
  {
  }

  /**
   * The text kept as the session (cut where reading stopped) reads back as
   * the accepted voltage steps, and is itself accepted with the same steps.
   */
  lemma AcceptedTextReadsBack(s: string, t: seq<Identifier>)
    requires Validate(s, t).Accepted?
    ensures var v := Validate(s, t);
      Numbers(s[..v.end], |t|) == Read(v.vids, v.end) && Validate(s[..v.end], t) == v && |s[..v.end]| == v.end
  {
    var v := Validate(s, t);
    NumbersOfPrefix(s, |t|, v.end);
  }

  /** Writing back a table's own voltage list is accepted and leaves the table as it was. */
  lemma OwnVidsAccepted(t: seq<Identifier>)
    ensures Validate(JoinDecimal(Vids(t)), t) == Accepted(Vids(t), |JoinDecimal(Vids(t))|)
    ensures Rewrite(t, Vids(t)) == t
  {
    JoinDecimalRoundTrip(Vids(t));
    ValidateAll(JoinDecimal(Vids(t)), t, Vids(t), |JoinDecimal(Vids(t))|);
    var r := Rewrite(t, Vids(t));
    forall i | 0 <= i < |t|
      ensures r[i] == t[i]
    {
      PackUnpack(t[i]);
    }
  }

  /**
   * phc_origin_table is the table in force, not a copy of it: once an
   * override lowers some row, writing back the voltage list the table had
   * before is refused.
   */
  lemma RestoreRefused(s: string, t: seq<Identifier>, k: nat)
    requires Validate(s, t).Accepted? && k < |t|
    requires Validate(s, t).vids[k] < VoltInc(t[k])
    ensures Validate(JoinDecimal(Vids(t)), Rewrite(t, Validate(s, t).vids)) == Rejected
  {
    var r := Rewrite(t, Validate(s, t).vids);
    JoinDecimalRoundTrip(Vids(t));
    assert |r| == |Vids(t)|;
    assert Vids(t)[k] > VoltInc(r[k]);
  }

  /**
   * With bounds taken from a copy of the factory table, as the comment at
   * phc_origin_table intends, a lowering can be undone: after any override
   * that lowers row k, the factory voltage list is still accepted and
   * rewrites the table back to the factory table.
   */
  lemma RestoreAccepted(s: string, factory: seq<Identifier>, k: nat)
    requires Validate(s, factory).Accepted? && k < |factory|
    requires Validate(s, factory).vids[k] < VoltInc(factory[k])
    ensures Rewrite(factory, Validate(s, factory).vids) != factory
    ensures Validate(JoinDecimal(Vids(factory)), factory) == Accepted(Vids(factory), |JoinDecimal(Vids(factory))|)
    ensures Rewrite(factory, Vids(factory)) == factory
  {
    var r := Rewrite(factory, Validate(s, factory).vids);
    assert VoltInc(r[k]) != VoltInc(factory[k]);
    OwnVidsAccepted(factory);
  }

  /**
   * What a write of `fq` MHz to machdep.est.frequency.target broadcasts,
   * given the register's value: nothing when the request equals the
   * frequency the register already asks for, else the selected row.
   */
  function TargetWrite(t: seq<Identifier>, bus: nat, ctl: Msr64, fq: int): (w: Option<Identifier>)
    requires |t| > 0
    ensures w.None? <==> fq == MsrToMHz(ctl, bus)
    ensures w.Some? ==> w.value == t[SelectIndex(t, bus, fq)]
    ensures w.Some? ==> exists i ::
      && 0 <= i < |t| && w.value == t[i]
      && (i == 0 || MsrToMHz(t[i], bus) >= fq)
      && (forall j :: i < j < |t| ==> MsrToMHz(t[j], bus) < fq)
  {
    if fq == MsrToMHz(ctl, bus) then None else Some(t[SelectIndex(t, bus, fq)])
  }

  /**
   * After a target write has broadcast its row, repeating the request
   * broadcasts nothing or the same row again, and requesting the frequency
   * now in force broadcasts nothing.
   */
  lemma TargetWriteSettles(t: seq<Identifier>, bus: nat, ctl: Msr64, fq: int)
    requires |t| > 0 && NonIncreasingMHz(t, bus)
    requires TargetWrite(t, bus, ctl, fq).Some?
    ensures var v := TargetWrite(t, bus, ctl, fq).value;
      && TargetWrite(t, bus, AfterBroadcast(ctl, v), fq) in {None, Some(v)}
      && TargetWrite(t, bus, AfterBroadcast(ctl, v), MsrToMHz(v, bus)) == None
  {
    var v := TargetWrite(t, bus, ctl, fq).value;
    BroadcastSetsPoint(ctl, v, bus);
  }

  /**
   * A request between two table frequencies is broadcast again every time
   * it is repeated: the register then asks for the rounded-up frequency,
   * which differs from the request.
   */
  lemma RepeatedTargetRebroadcasts(t: seq<Identifier>, ctl: Msr64)
    requires t == [PhcId16(16, 40), PhcId16(6, 10)] && ctl == 0
    ensures TargetWrite(t, Bus100, ctl, 1000) == Some(t[0])
    ensures TargetWrite(t, Bus100, AfterBroadcast(ctl, t[0]), 1000) == Some(t[0])
  {
    assert FreqInc(t[0]) == 16 && FreqInc(t[1]) == 6;
    assert MsrToMHz(t[1], Bus100) == 600;
    assert SelectIndex(t, Bus100, 1000) == 0;
    BroadcastSetsPoint(ctl, t[0], Bus100);
  }

  /**
   * The repeated row of the interpolated table for idhi 12/40 and idlo 6/34
   * is where a request for the top frequency lands: the selection walks up
   * from the last row and stops at row 1, which runs 1200 MHz one voltage
   * step below idhi.
   */
  lemma TopRequestRunsRepeatedRow(hi: Identifier, lo: Identifier)
    requires hi == PhcId16(12, 40) && lo == PhcId16(6, 34)
    ensures FreqInc(lo) < FreqInc(hi) && VoltInc(lo) <= VoltInc(hi)
    ensures var t := InterpolatedTable(hi, lo);
      && MsrToMHz(hi, Bus100) == 1200
      && SelectIndex(t, Bus100, 1200) == 1
      && t[1] == PhcId16(12, 39) && VoltInc(t[1]) < VoltInc(hi)
  {
    RepeatedFrequencyRow(hi, lo);
    RepeatedTableThirdRow(hi, lo);
    var t := InterpolatedTable(hi, lo);
    InterpolatedNonIncreasing(hi, lo);
    SelectsRepeatedRow(t);
  }

  /** On the 100 MHz bus, with a 12 at row 1 and an 11 at row 2 in a table that never rises, 1200 MHz selects row 1. */
  lemma SelectsRepeatedRow(t: seq<Identifier>)
    requires |t| > 2 && FreqInc(t[1]) == 12 && FreqInc(t[2]) == 11
    requires forall j :: 0 < j < |t| ==> FreqInc(t[j]) <= FreqInc(t[j - 1])
    ensures SelectIndex(t, Bus100, 1200) == 1
  {
    FidsGiveMHz(t, Bus100);
    MHzOnBus100(t[1]);
    MHzOnBus100(t[2]);
    var i := SelectIndex(t, Bus100, 1200);
    if i > 1 {
      MHzBelow(t, Bus100, 2, i);
    }
  }

  /**
   * In a table whose frequency steps strictly decrease, as the strict
   * interpolation's do, a request for the top frequency on the 100 MHz bus
   * selects row 0 itself.
   */
  lemma StrictTopRequestRunsTop(t: seq<Identifier>)
    requires |t| > 0 && StrictlyDecreasingFids(t)
    ensures SelectIndex(t, Bus100, MsrToMHz(t[0], Bus100)) == 0
  {
    var i := SelectIndex(t, Bus100, MsrToMHz(t[0], Bus100));
    if i > 0 {
      MHzOnBus100(t[0]);
      MHzOnBus100(t[i]);
      FidsBelow(t, 1, i);
    }
  }

  /** A capped rendering that stayed below PHC_MAXLEN holds the whole list and reads back as it. */
  lemma SessionReadsBack(vs: seq<nat>)
    ensures |CappedFrom(vs, 0)| < PhcMaxLen ==> Numbers(CappedFrom(vs, 0), |vs|) == Read(vs, |CappedFrom(vs, 0)|)
  {
    if |CappedFrom(vs, 0)| < PhcMaxLen {
      CappedShortIsWhole(vs, 0);
      JoinDecimalRoundTrip(vs);
    }
  }

  /**
   * The driver's state on values: every row of the table in force keeps the
   * factory frequency step at no more than the factory voltage step; a
   * working driver's factory table has 1 to 256 rows whose frequency steps
   * never rise; and a session text shorter than PHC_MAXLEN reads back as the
   * voltage steps in force.
   */
  ghost predicate Consistent(factory: seq<Identifier>, t: seq<Identifier>, functional: bool, session: string)
  {
    && (functional ==> 1 <= |factory| <= 256)
    && (forall j :: 0 < j < |factory| ==> FreqInc(factory[j]) <= FreqInc(factory[j - 1]))
    && WithinFactory(factory, t)
    && (functional && |session| < PhcMaxLen ==> Numbers(session, |t|) == Read(Vids(t), |session|))
  }

  /** Row by row, `t` has the factory frequency step at no more than the factory voltage step. */
  ghost predicate WithinFactory(factory: seq<Identifier>, t: seq<Identifier>)
  {
    && |t| == |factory|
    && forall i :: 0 <= i < |t| ==> FreqInc(t[i]) == FreqInc(factory[i]) && VoltInc(t[i]) <= VoltInc(factory[i])
  }

  /**
   * An accepted override checked against bounds `b` and rewritten from them,
   * with the session cut where reading stopped, keeps the state consistent,
   * whether `b` is the table in force or the factory table itself.
   */
  lemma OverrideKeepsConsistent(factory: seq<Identifier>, t: seq<Identifier>, b: seq<Identifier>, session: string, s: string)
    requires Consistent(factory, t, true, session) && WithinFactory(factory, b)
    requires Validate(s, b).Accepted?
    ensures var v := Validate(s, b);
      Consistent(factory, Rewrite(b, v.vids), true, s[..v.end])
  {
    var v := Validate(s, b);
    var r := Rewrite(b, v.vids);
    assert Vids(r) == v.vids;
    AcceptedTextReadsBack(s, b);
  }

  /** The state est_init_main leaves: the table in force is the factory table and the session its rendered voltage list. */
  lemma InitialConsistent(t: seq<Identifier>, functional: bool)
    requires functional ==> 1 <= |t| <= 256
    requires forall j :: 0 < j < |t| ==> FreqInc(t[j]) <= FreqInc(t[j - 1])
    ensures Consistent(t, t, functional, CappedFrom(Vids(t), 0))
  {
    SessionReadsBack(Vids(t));
  }
}
