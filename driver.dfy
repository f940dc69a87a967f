/**
 * The driver state that est_init_main sets up and the two sysctl helpers
 * use: the table in force (fake_table), its alias phc_origin_table, the bus
 * clock, the rendered lists offered under machdep.est, and the session text
 * phc_string_vids that machdep.est.phc.vids shows and compares against.
 */
module SpeedStep {
  import opened Wrappers
  import opened Codec
  import opened Catalog
  import opened Scanner
  import opened Resolver
  import opened Selector
  import opened Hardware
  import opened Override
  import opened Render

  /** What a sysctl helper returns: 0, EINVAL or EOPNOTSUPP. */
  datatype Status = Done | InvalidInput | Unsupported

  /** The node est_sysctl_helper is called for. */
  datatype FrequencyNode = Target | Current | OtherNode

  /**
   * The table-finding part of est_init_main: the bus-clock and status
   * checks, the catalog search, and either a copy of the catalog table or a
   * freshly interpolated one; an empty array when there is none.
   */
  method LoadTable(cat: seq<Entry>, vendor: Vendor, bus: nat, msr: Msr64) returns (a: array<Identifier>, ok: bool)
    ensures fresh(a)
    ensures ok == Resolve(cat, vendor, bus, msr).Some?
    ensures ok ==> a[..] == Resolve(cat, vendor, bus, msr).value
    ensures !ok ==> a.Length == 0
  {
    a := new Identifier[0];
    ok := false;
    if bus == 0 {
      return;
    }
    var hi, lo, cur := HighId(msr), LowId(msr), CurrentId(msr);
    if hi == 0 || lo == 0 || cur == 0 || FreqInc(cur) < FreqInc(lo) || FreqInc(cur) > FreqInc(hi) {
      return;
    }
    var found := FindEntry(cat, vendor, bus, hi, lo);
    if found.None? {
      if hi == lo {
        return;
      }
      var minFreq, maxFreq, minVolt, maxVolt := FreqInc(lo), FreqInc(hi), VoltInc(lo), VoltInc(hi);
      if maxFreq - minFreq == 0 || maxVolt < minVolt {
        return;
      }
      a := Interpolate(hi, lo);
    } else {
      var t := cat[found.value].table;
      a := new Identifier[|t|](j requires 0 <= j < |t| => t[j]);
      assert a[..] == t;
    }
    ok := true;
  }

  /**
   * The first round of phc_est_sysctl_helper: one phc_atoi per row of
   * `bounds`, refusing at the first missing number or the first number
   * above its row's voltage step; on success the numbers read and the
   * position after the last one.
   */
  method ReadOverride(s: string, bounds: array<Identifier>) returns (vids: array<nat>, ok: bool, remain: nat)
    requires CString(s)
    ensures fresh(vids)
    ensures ok <==> Validate(s, bounds[..]).Accepted?
    ensures ok ==> vids[..] == Validate(s, bounds[..]).vids && remain == Validate(s, bounds[..]).end
  {
    var n := bounds.Length;
    vids := new nat[n];
    var pos: nat := 0;
    remain := 0;
    var i := 0;
    ok := false;
    while i < n
      invariant 0 <= i <= n && pos <= |s| && remain == pos
      invariant Numbers(s, i) == Read(vids[..i], pos)
      invariant forall k :: 0 <= k < i ==> vids[k] <= VoltInc(bounds[k])
    {
      var refVid := VoltInc(bounds[i]);
      var vid;
      NextNumberSpec(s, pos);
      vid, remain := Atoi(s, pos, remain);
      if vid == -1 {
        ValidateRanOut(s, bounds[..], i, vids[..i], pos);
        return;
      }
      var t := NextNumber(s, pos).value;
      if vid < 0 || vid > refVid {
        ValidateExceeds(s, bounds[..], i, vids[..i], pos, t);
        return;
      }
      NumbersStep(s, i, vids[..i], pos, t);
      vids[i] := vid;
      assert vids[..i + 1] == vids[..i] + [t.value];
      pos := remain;
      i := i + 1;
    }
    assert vids[..i] == vids[..];
    ValidateAll(s, bounds[..], vids[..], pos);
    ok := true;
  }

  /**
   * The second round: row i of `table` becomes the frequency step of row i
   * of `origin` with the new voltage step. Row i of `origin` is read before
   * row i of `table` is written, so the result is the same whether or not the
   * two arrays are one.
   */
  method RewriteRows(table: array<Identifier>, origin: array<Identifier>, vids: array<nat>)
    requires table.Length == origin.Length == vids.Length
    requires forall i :: 0 <= i < vids.Length ==> vids[i] < 0x100
    modifies table
    ensures table[..] == Rewrite(old(origin[..]), vids[..])
  {
    var n := table.Length;
    var i := 0;
    while i < n
      invariant 0 <= i <= n
      invariant forall k :: 0 <= k < i ==> table[k] == PhcId16(FreqInc(old(origin[k])), vids[k])
      invariant forall k :: i <= k < n ==> origin[k] == old(origin[k])
    {
      var refFid := FreqInc(origin[i]);
      table[i] := PhcId16(refFid, vids[i]);
      i := i + 1;
    }
  }

  /** memcpy of a whole table into a new array. */
  method CopyRows(a: array<Identifier>) returns (b: array<Identifier>)
    ensures fresh(b) && b[..] == a[..]
  {
    b := new Identifier[a.Length];
    var i := 0;
    while i < a.Length
      invariant 0 <= i <= a.Length
      invariant b[..i] == a[..i]
    {
      b[i] := a[i];
      assert b[..i + 1] == b[..i] + [a[i]];
      i := i + 1;
    }
  }

  /**
   * The three rendering loops of est_init_main: the frequencies in MHz in
   * full, the frequency steps and the voltage steps capped at PHC_MAXLEN.
   */
  method RenderTables(t: seq<Identifier>, bus: nat) returns (freqNames: string, fids: string, vids: string)
    ensures freqNames == JoinDecimal(MHzList(t, bus))
    ensures fids == CappedFrom(Fids(t), 0) && vids == CappedFrom(Vids(t), 0)
  {
    freqNames := RenderList(MHzList(t, bus), false);
    fids := RenderList(Fids(t), true);
    vids := RenderList(Vids(t), true);
  }

  /** The driver's state once est_init_main has run. */
  class Driver {
    /** est_fqlist != NULL: a table was found and the sysctl nodes exist. */
    var functional: bool
    /** bus_clock, in units of 10 kHz. */
    var busClock: nat
    /** fake_table: the table in force, highest frequency first. */
    var table: array<Identifier>
    /**
     * phc_origin_table: the same array as fake_table, as est_init_main sets
     * it; or, when `snapshot` is set, a copy of the factory table of its own.
     */
    var origin: array<Identifier>
    /** Whether phc_origin_table is a copy of the factory table rather than fake_table itself. */
    var snapshot: bool
    /** machdep.est.frequency.available. */
    var available: string
    /** machdep.est.phc.fids. */
    var fidsText: string
    /** machdep.est.phc.vids_original. */
    var originalVids: string
    /** phc_string_vids: the last accepted voltage list, shown by machdep.est.phc.vids. */
    var session: string
    /** The table est_init_main settled on, before any override. */
    ghost var factory: seq<Identifier>

    /**
     * The driver's invariant: the origin is the table itself, or a separate
     * copy of the factory table; and the state is consistent.
     */
    ghost predicate Valid()
      reads this, table, origin
    {
      && (if snapshot then origin != table && origin[..] == factory else origin == table)
      && Consistent(factory, table[..], functional, session)
    }

    /**
     * est_init_main over the catalog `cat`: find or interpolate the table,
     * copy it into fake_table, alias phc_origin_table to it, and render the
     * lists; the session starts as the rendered voltage list. With
     * `keepCopy`, phc_origin_table is instead a copy of fake_table.
     */
    constructor (cat: seq<Entry>, vendor: Vendor, bus: nat, perfStatus: Msr64, keepCopy: bool)
      ensures Valid() && fresh(table) && fresh(origin)
      ensures snapshot == keepCopy
      ensures busClock == bus
      ensures functional == Resolve(cat, vendor, bus, perfStatus).Some?
      ensures functional ==> factory == Resolve(cat, vendor, bus, perfStatus).value && table[..] == factory
      ensures functional ==> available == JoinDecimal(MHzList(factory, bus))
      ensures functional ==> fidsText == CappedFrom(Fids(factory), 0) && originalVids == CappedFrom(Vids(factory), 0)
      ensures functional ==> session == originalVids
    {
      var a, ok := LoadTable(cat, vendor, bus, perfStatus);
      var o := a;
      if keepCopy {
        o := CopyRows(a);
      }
      var t := a[..];
      var freqNames, fids, vids := "", "", "";
      if ok {
        ResolveShape(cat, vendor, bus, perfStatus);
        freqNames, fids, vids := RenderTables(t, bus);
        InitialConsistent(t, true);
      } else {
        InitialConsistent(t, false);
      }
      functional := ok;
      busClock := bus;
      table := a;
      origin := o;
      snapshot := keepCopy;
      factory := t;
      available := freqNames;
      fidsText := fids;
      originalVids := vids;
      session := vids;
    }

    /**
     * est_sysctl_helper for machdep.est.frequency.target and .current: shows
     * the frequency the register asks for (target) or runs at (current); a
     * new target different from the one shown is rounded up to a table row,
     * which is broadcast.
     */
    method FrequencySysctl(cpu: Cpu, node: FrequencyNode, newValue: Option<int>) returns (status: Status, shown: int)
      requires Valid()
      modifies cpu
      ensures cpu.perfStatus == old(cpu.perfStatus)
      ensures !functional || node == OtherNode ==> status == Unsupported && unchanged(cpu)
      ensures functional && node == Current ==> status == Done && shown == MsrToMHz(cpu.perfStatus, busClock) && unchanged(cpu)
      ensures functional && node == Target ==> status == Done && shown == MsrToMHz(old(cpu.perfCtl), busClock)
      ensures functional && node == Target && newValue.None? ==> unchanged(cpu)
      ensures functional && node == Target && newValue.Some? ==>
        match TargetWrite(table[..], busClock, old(cpu.perfCtl), newValue.value)
        case None => unchanged(cpu)
        case Some(v) => cpu.perfCtl == AfterBroadcast(old(cpu.perfCtl), v) && cpu.broadcasts == old(cpu.broadcasts) + [v]
    {
      shown := 0;
      if !functional {
        return Unsupported, shown;
      }
      var oldfq := 0;
      if node == Target {
        shown := MsrToMHz(cpu.perfCtl, busClock);
        oldfq := shown;
      } else if node == Current {
        shown := MsrToMHz(cpu.perfStatus, busClock);
      } else {
        return Unsupported, shown;
      }
      status := Done;
      if newValue.None? {
        return;
      }
      var fq := newValue.value;
      if node == Target && fq != oldfq {
        var i := SelectRow(table, busClock, fq);
        cpu.Broadcast(table[i]);
      }
    }

    /**
     * The part of phc_est_sysctl_helper after an accepted first round: the
     * second round, the cut and copy of the text into the session, and the
     * re-clamp of the current frequency to a row, which is broadcast.
     */
    method ApplyOverride(cpu: Cpu, s: string, vids: array<nat>, remain: nat)
      requires Valid() && functional
      requires Validate(s, origin[..]) == Accepted(vids[..], remain)
      modifies this, table, cpu
      ensures Valid() && factory == old(factory)
      ensures table[..] == Rewrite(old(origin[..]), vids[..]) && session == s[..remain]
      ensures functional && busClock == old(busClock) && table == old(table) && origin == old(origin) && snapshot == old(snapshot)
      ensures available == old(available) && fidsText == old(fidsText) && originalVids == old(originalVids)
      ensures cpu.perfStatus == old(cpu.perfStatus)
      ensures cpu.perfCtl == AfterBroadcast(old(cpu.perfCtl), table[SelectIndex(table[..], busClock, MsrToMHz(cpu.perfStatus, busClock))])
      ensures cpu.broadcasts == old(cpu.broadcasts) + [table[SelectIndex(table[..], busClock, MsrToMHz(cpu.perfStatus, busClock))]]
    {
      ghost var bounds := origin[..];
      OverrideKeepsConsistent(factory, table[..], bounds, session, s);
      // *remain = '\0': the text is cut after the last number read
      var kept := s[..remain];
      RewriteRows(table, origin, vids);
      assert snapshot ==> origin[..] == bounds;
      session := kept;
      assert Valid();
      var fq := MsrToMHz(cpu.perfStatus, busClock);
      var row := SelectRow(table, busClock, fq);
      cpu.Broadcast(table[row]);
    }

    /**
     * phc_est_sysctl_helper for machdep.est.phc.vids: shows the session text
     * (as much of it as fits the 30-byte buffer); a new text that differs
     * from the session in its first PHC_MAXLEN characters must hold one
     * voltage step per row, none above the row's voltage step in
     * phc_origin_table: the table in force itself, or the factory table when
     * it is a copy. Then every row takes its new voltage step, the text up to the last number read
     * becomes the session, and the row selected for the current frequency is
     * broadcast. Any refusal leaves everything as it was.
     */
    method VidsSysctl(cpu: Cpu, input: Option<string>) returns (status: Status, shown: string)
      requires Valid()
      requires input.Some? ==> |input.value| < PhcMaxLen && CString(input.value)
      modifies this, table, cpu
      ensures Valid()
      ensures !old(functional) ==> status == Unsupported
      ensures old(functional) ==> shown == Strlcpy(old(session), PhcMaxLen)
      ensures old(functional) && (input.None? || SameText(input.value, old(session))) ==> status == Done
      ensures status != Done || input.None? || SameText(input.value, old(session)) ==> unchanged(this) && unchanged(table) && unchanged(cpu)
      ensures old(functional) && input.Some? && !SameText(input.value, old(session)) ==>
        match Validate(input.value, old(origin[..]))
        case Rejected => status == InvalidInput
        case Accepted(vs, e) =>
          && status == Done
          && factory == old(factory)
          && table[..] == Rewrite(old(origin[..]), vs)
          && session == input.value[..e]
          && functional && busClock == old(busClock) && table == old(table) && origin == old(origin) && snapshot == old(snapshot)
          && available == old(available) && fidsText == old(fidsText) && originalVids == old(originalVids)
          && cpu.perfStatus == old(cpu.perfStatus)
          && cpu.perfCtl == AfterBroadcast(old(cpu.perfCtl), table[SelectIndex(table[..], busClock, MsrToMHz(cpu.perfStatus, busClock))])
          && cpu.broadcasts == old(cpu.broadcasts) + [table[SelectIndex(table[..], busClock, MsrToMHz(cpu.perfStatus, busClock))]]
    {
      shown := "";
      if !functional {
        return Unsupported, shown;
      }
      shown := Strlcpy(session, PhcMaxLen);
      if input.None? || SameText(input.value, session) {
        return Done, shown;
      }
      var s := input.value;
      var vids, ok, remain := ReadOverride(s, origin);
      if !ok {
        return InvalidInput, shown;
      }
      ApplyOverride(cpu, s, vids, remain);
      status := Done;
    }
  }

  /** est_init_main as the kernel runs it: over the driver's own catalog, with phc_origin_table aliasing fake_table. */
  method EstInit(vendor: Vendor, bus: nat, perfStatus: Msr64) returns (d: Driver)
    ensures d.Valid() && fresh(d) && fresh(d.table)
    ensures d.origin == d.table
    ensures d.functional == Resolve(EstCpus, vendor, bus, perfStatus).Some?
    ensures d.functional ==> d.table[..] == Resolve(EstCpus, vendor, bus, perfStatus).value
  {
    d := new Driver(EstCpus, vendor, bus, perfStatus, false);
  }

  /** est_init_main with phc_origin_table a copy of the factory table, as its comment intends. */
  method EstInitKeepingOriginal(vendor: Vendor, bus: nat, perfStatus: Msr64) returns (d: Driver)
    ensures d.Valid() && fresh(d) && fresh(d.table) && fresh(d.origin)
    ensures d.origin != d.table && d.snapshot
    ensures d.functional == Resolve(EstCpus, vendor, bus, perfStatus).Some?
    ensures d.functional ==> d.table[..] == Resolve(EstCpus, vendor, bus, perfStatus).value
  {
    d := new Driver(EstCpus, vendor, bus, perfStatus, true);
  }
}
