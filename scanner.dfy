/**
 * The decimal scanner of the PHC voltage override: phc_atoi, the list of
 * numbers the override reads with it one after another, and the
 * space-joined decimal rendering the driver offers as its voltage list.
 *
 * A C string is modelled by its characters before the terminating NUL, and
 * position |s| stands for the NUL itself. Numbers are unbounded: a digit run
 * too long for a C int is not modelled.
 */
module Scanner {

  import opened Wrappers

  /** isdigit in the C locale. */
  predicate IsDigit(c: char)
  {
    '0' <= c <= '9'
  }

  /** A C string holds no NUL before its end. */
  predicate CString(s: string)
  {
    forall k :: 0 <= k < |s| ==> s[k] != '\0'
  }

  predicate AllDigits(ds: string)
  {
    forall k :: 0 <= k < |ds| ==> IsDigit(ds[k])
  }

  function DigitValue(c: char): nat
    requires IsDigit(c)
  {
    c as int - '0' as int
  }

  function DigitChar(d: nat): (c: char)
    requires d < 10
    ensures IsDigit(c) && DigitValue(c) == d
  {
    ('0' as int + d) as char
  }

  /** The value of a run of digits read left to right, as `result = digit + 10 * result`. */
  function DecimalValue(ds: string): nat
    requires AllDigits(ds)
  {
    if ds == [] then 0 else 10 * DecimalValue(ds[..|ds| - 1]) + DigitValue(ds[|ds| - 1])
  }

  /** A number found in a string: where its digits start and end, and its value. */
  datatype Token = Token(start: nat, end: nat, value: nat)

  /**
   * phc_atoi's second loop: the rest of the digit run that began at `start`,
   * continued from `pos` with `acc` read so far, as `acc = digit + 10 * acc`.
   */
  function DigitRun(s: string, start: nat, pos: nat, acc: nat): (t: Token)
    requires start <= pos <= |s|
    ensures t.start == start && pos <= t.end <= |s|
    decreases |s| - pos
  {
    if pos < |s| && IsDigit(s[pos]) then DigitRun(s, start, pos + 1, DigitValue(s[pos]) + 10 * acc)
    else Token(start, pos, acc)
  }

  /**
   * phc_atoi's scan from `from`: skip non-digits, then read one run of digits;
   * None when the string ends before a digit.
   */
  function NextNumber(s: string, from: nat): (r: Option<Token>)
    requires from <= |s|
    ensures r.Some? ==> from <= r.value.start < r.value.end <= |s|
    decreases |s| - from
  {
    if from == |s| then None
    else if IsDigit(s[from]) then Some(DigitRun(s, from, from, 0))
    else NextNumber(s, from + 1)
  }

  /**
   * `t` is what a scan from `from` should find: only non-digits before
   * `t.start`, then a maximal non-empty run of digits up to `t.end`, whose
   * decimal value is `t.value`.
   */
  predicate IsTokenAt(s: string, from: nat, t: Token)
  {
    && from <= t.start < t.end <= |s|
    && (forall j :: from <= j < t.start ==> !IsDigit(s[j]))
    && (forall j :: t.start <= j < t.end ==> IsDigit(s[j]))
    && (t.end < |s| ==> !IsDigit(s[t.end]))
    && t.value == DecimalValue(s[t.start..t.end])
  }

  /** Reading a digit run to its end accumulates its decimal value. */
  lemma {:induction false} DigitRunValue(s: string, start: nat, pos: nat, acc: nat)
    requires start <= pos <= |s|
    requires forall j :: start <= j < pos ==> IsDigit(s[j])
    requires acc == DecimalValue(s[start..pos])
    ensures forall j :: start <= j < DigitRun(s, start, pos, acc).end ==> IsDigit(s[j])
    ensures DigitRun(s, start, pos, acc).end < |s| ==> !IsDigit(s[DigitRun(s, start, pos, acc).end])
    ensures DigitRun(s, start, pos, acc).value == DecimalValue(s[start..DigitRun(s, start, pos, acc).end])
    decreases |s| - pos
  {
    if pos < |s| && IsDigit(s[pos]) {
      assert s[start..pos + 1][..pos - start] == s[start..pos];
      DigitRunValue(s, start, pos + 1, DigitValue(s[pos]) + 10 * acc);
    }
  }

  /**
   * The scan finds nothing exactly when no digit is left, and otherwise finds
   * the first maximal digit run with its decimal value.
   */
  lemma {:induction false} NextNumberSpec(s: string, from: nat)
    requires from <= |s|
    ensures NextNumber(s, from).None? <==> forall j :: from <= j < |s| ==> !IsDigit(s[j])
    ensures NextNumber(s, from).Some? ==> IsTokenAt(s, from, NextNumber(s, from).value)
    decreases |s| - from
  {
    if from < |s| {
      if IsDigit(s[from]) {
        assert s[from..from] == [];
        DigitRunValue(s, from, from, 0);
      } else {
        NextNumberSpec(s, from + 1);
      }
    }
  }

  /** Two tokens found from the same position are the same token. */
  lemma TokenUnique(s: string, from: nat, t1: Token, t2: Token)
    requires IsTokenAt(s, from, t1) && IsTokenAt(s, from, t2)
    ensures t1 == t2
  {
    assert IsDigit(s[t1.start]) && IsDigit(s[t2.start]);
    assert t1.start == t2.start;
    assert t1.end == t2.end;
  }

  /** A scan finds the token that the scan is described to find. */
  lemma NextNumberIs(s: string, from: nat, t: Token)
    requires from <= |s| && IsTokenAt(s, from, t)
    ensures NextNumber(s, from) == Some(t)
  {
    NextNumberSpec(s, from);
    assert IsDigit(s[t.start]);
    TokenUnique(s, from, NextNumber(s, from).value, t);
  }

  /**
   * phc_atoi(string, remain): the scan starts at position `pc0`; `remain` is
   * the value *remain had before the call and `remain'` the value after.
   * Returns -1, leaving *remain alone, when the string ends before a digit.
   */
  method Atoi(s: string, pc0: nat, remain: nat) returns (result: int, remain': nat)
    requires CString(s) && pc0 <= |s|
    ensures result == -1 <==> forall j :: pc0 <= j < |s| ==> !IsDigit(s[j])
    ensures match NextNumber(s, pc0)
              case None => result == -1 && remain' == remain
              case Some(t) => result == t.value && remain' == t.end
  {
    NextNumberSpec(s, pc0);
    var pc := pc0;
    while pc < |s| && !IsDigit(s[pc])
      invariant pc0 <= pc <= |s|
      invariant NextNumber(s, pc) == NextNumber(s, pc0)
    {
      pc := pc + 1;
    }
    if pc == |s| {
      return -1, remain;
    }
    var start := pc;
    var acc: nat := 0;
    while pc < |s| && IsDigit(s[pc])
      invariant start <= pc <= |s|
      invariant DigitRun(s, start, pc, acc) == DigitRun(s, start, start, 0)
    {
      acc := DigitValue(s[pc]) + 10 * acc;
      pc := pc + 1;
    }
    result := acc;
    remain' := pc;
  }

  /** What reading numbers gives: the numbers and the position after the last, or that the string ran out. */
  datatype Reading = RanOut | Read(values: seq<nat>, end: nat)

  /**
   * The first k numbers of s read one after another from its start, as the
   * override's validation loop reads them, with the position just after the
   * last of them; None when the string holds fewer than k numbers.
   */
  function Numbers(s: string, k: nat): (r: Reading)
    ensures r.Read? ==> |r.values| == k && r.end <= |s|
  {
    if k == 0 then Read([], 0)
    else
      var prev := Numbers(s, k - 1);
      if prev.RanOut? then RanOut
      else
        var next := NextNumber(s, prev.end);
        if next.None? then RanOut
        else Read(prev.values + [next.value.value], next.value.end)
  }

  /** Once the numbers run out, asking for more finds none either. */
  lemma {:induction false} NumbersRunOut(s: string, k: nat, m: nat)
    requires Numbers(s, k).RanOut? && k <= m
    ensures Numbers(s, m).RanOut?
    decreases m
  {
    if k < m {
      NumbersRunOut(s, k, m - 1);
    }
  }

  /** Reading more numbers extends the list read so far. */
  lemma {:induction false} NumbersExtend(s: string, k: nat, m: nat)
    requires Numbers(s, k).Read? && Numbers(s, m).Read? && k <= m
    ensures Numbers(s, m).values[..k] == Numbers(s, k).values
    decreases m
  {
    if k < m {
      var prev := Numbers(s, m - 1);
      var next := NextNumber(s, prev.end).value;
      assert Numbers(s, m).values == prev.values + [next.value];
      NumbersExtend(s, k, m - 1);
      assert (prev.values + [next.value])[..k] == prev.values[..k];
    }
  }

  /** Cutting the string right after the k-th number leaves the first k numbers as they were. */
  lemma {:induction false} NumbersOfPrefix(s: string, k: nat, cut: nat)
    requires Numbers(s, k).Read? && Numbers(s, k).end <= cut <= |s|
    ensures Numbers(s[..cut], k) == Numbers(s, k)
    decreases k
  {
    if k > 0 {
      var e := Numbers(s, k - 1).end;
      NextNumberOfPrefix(s, e, cut);
      NumbersOfPrefix(s, k - 1, cut);
    }
  }

  /** Cutting the string at or after the end of the next number leaves that number as it was. */
  lemma NextNumberOfPrefix(s: string, from: nat, cut: nat)
    requires from <= |s| && NextNumber(s, from).Some? && NextNumber(s, from).value.end <= cut <= |s|
    ensures NextNumber(s[..cut], from) == NextNumber(s, from)
  {
    var t := NextNumber(s, from).value;
    NextNumberSpec(s, from);
    assert IsTokenAt(s[..cut], from, t) by {
      assert s[..cut][t.start..t.end] == s[t.start..t.end];
    }
    NextNumberIs(s[..cut], from, t);
  }

  /** snprintf("%d") of a non-negative number. */
  function Decimal(n: nat): (ds: string)
    ensures 1 <= |ds| && AllDigits(ds)
    ensures DecimalValue(ds) == n
  {
    if n < 10 then [DigitChar(n)]
    else
      var ds := Decimal(n / 10) + [DigitChar(n % 10)];
      assert ds[..|ds| - 1] == Decimal(n / 10);
      ds
  }

  /** `%d` writes no leading zero: a rendering of more than one digit starts with a non-zero digit. */
  lemma {:induction false} DecimalNoLeadingZero(n: nat)
    ensures |Decimal(n)| == 1 || Decimal(n)[0] != '0'
  {
    if n >= 10 {
      DecimalNoLeadingZero(n / 10);
      assert Decimal(n) == Decimal(n / 10) + [DigitChar(n % 10)];
    }
  }

  /** A number from 10 to 99 is rendered as two digits. */
  lemma TwoDigitDecimal(n: nat)
    requires 10 <= n < 100
    ensures |Decimal(n)| == 2
  {
    assert Decimal(n) == Decimal(n / 10) + [DigitChar(n % 10)];
  }

  /** A list of numbers from 10 to 99 renders as three characters per number, less the last space. */
  lemma {:induction false} TwoDigitJoinLength(vs: seq<nat>)
    requires |vs| > 0 && forall i :: 0 <= i < |vs| ==> 10 <= vs[i] < 100
    ensures |JoinDecimal(vs)| == 3 * |vs| - 1
  {
    TwoDigitDecimal(vs[|vs| - 1]);
    if |vs| > 1 {
      TwoDigitJoinLength(vs[..|vs| - 1]);
    }
  }

  /** The numbers in decimal, separated by single spaces, as the driver renders a voltage list. */
  function JoinDecimal(vs: seq<nat>): string
  {
    if |vs| == 0 then ""
    else (if |vs| == 1 then "" else JoinDecimal(vs[..|vs| - 1]) + " ") + Decimal(vs[|vs| - 1])
  }

  /** A decimal rendering preceded by non-digits and followed by the end or a non-digit is scanned as its number. */
  lemma ScanOfDecimal(s: string, from: nat, start: nat, n: nat)
    requires from <= start && start + |Decimal(n)| <= |s|
    requires forall j :: from <= j < start ==> !IsDigit(s[j])
    requires s[start..start + |Decimal(n)|] == Decimal(n)
    requires start + |Decimal(n)| < |s| ==> !IsDigit(s[start + |Decimal(n)|])
    ensures NextNumber(s, from) == Some(Token(start, start + |Decimal(n)|, n))
  {
    var d := Decimal(n);
    assert forall j :: start <= j < start + |d| ==> s[j] == d[j - start];
    NextNumberIs(s, from, Token(start, start + |d|, n));
  }

  /** One more number read after the first k. */
  lemma NumbersStep(s: string, k: nat, vs: seq<nat>, e: nat, t: Token)
    requires Numbers(s, k) == Read(vs, e) && NextNumber(s, e) == Some(t)
    ensures Numbers(s, k + 1) == Read(vs + [t.value], t.end)
  {
  }

  /** Whether `s` begins with `j`, followed by the end of `s` or by a non-digit. */
  predicate StartsWithNumberText(s: string, j: string)
  {
    |j| <= |s| && s[..|j|] == j && (|j| < |s| ==> !IsDigit(s[|j|]))
  }

  /** The rendering of a list of two or more numbers is the rendering of all but the last, a space, and the last. */
  lemma JoinedSplit(vs: seq<nat>)
    requires |vs| > 1
    ensures JoinDecimal(vs) == JoinDecimal(vs[..|vs| - 1]) + " " + Decimal(vs[|vs| - 1])
  {
  }

  /** Text that begins with a space and then a rendered number scans as that number from the space on. */
  lemma ScanAfterSpace(s: string, at: nat, n: nat)
    requires at + 1 + |Decimal(n)| <= |s| && s[at] == ' '
    requires s[at + 1..at + 1 + |Decimal(n)|] == Decimal(n)
    requires at + 1 + |Decimal(n)| < |s| ==> !IsDigit(s[at + 1 + |Decimal(n)|])
    ensures NextNumber(s, at) == Some(Token(at + 1, at + 1 + |Decimal(n)|, n))
  {
    ScanOfDecimal(s, at, at + 1, n);
  }

  /** The last number of a rendering is scanned from the end of the rendering of the others. */
  lemma LastOfJoined(vs: seq<nat>, s: string)
    requires |vs| > 1 && StartsWithNumberText(s, JoinDecimal(vs))
    ensures StartsWithNumberText(s, JoinDecimal(vs[..|vs| - 1]))
    ensures NextNumber(s, |JoinDecimal(vs[..|vs| - 1])|)
      == Some(Token(|JoinDecimal(vs[..|vs| - 1])| + 1, |JoinDecimal(vs)|, vs[|vs| - 1]))
  {
    var pj := JoinDecimal(vs[..|vs| - 1]);
    var d := Decimal(vs[|vs| - 1]);
    var j := JoinDecimal(vs);
    JoinedSplit(vs);
    assert j == pj + " " + d;
    assert s[..|pj|] == pj by {
      assert s[..|pj|] == j[..|pj|];
    }
    assert s[|pj|] == ' ' by {
      assert s[|pj|] == j[|pj|];
    }
    assert s[|pj| + 1..|j|] == d by {
      assert s[|pj| + 1..|j|] == j[|pj| + 1..];
    }
    ScanAfterSpace(s, |pj|, vs[|vs| - 1]);
  }

  /** The only number of a one-element rendering is scanned from the start. */
  lemma FirstOfJoined(vs: seq<nat>, s: string)
    requires |vs| == 1 && StartsWithNumberText(s, JoinDecimal(vs))
    ensures NextNumber(s, 0) == Some(Token(0, |JoinDecimal(vs)|, vs[0]))
  {
    var d := Decimal(vs[0]);
    assert JoinDecimal(vs) == d;
    assert s[0..|d|] == d;
    ScanOfDecimal(s, 0, 0, vs[0]);
  }

  /**
   * A string that starts with the rendering of `vs`, followed by the end or a
   * non-digit, reads back as exactly `vs`, ending where the rendering ends.
   */
  lemma {:induction false} NumbersOfJoined(vs: seq<nat>, s: string)
    requires StartsWithNumberText(s, JoinDecimal(vs))
    ensures Numbers(s, |vs|) == Read(vs, |JoinDecimal(vs)|)
    decreases |vs|
  {
    if |vs| == 1 {
      FirstOfJoined(vs, s);
      assert vs[..0] == [];
      NumbersLastRound(s, vs, 0, Token(0, |JoinDecimal(vs)|, vs[0]));
    } else if |vs| > 1 {
      LastOfJoined(vs, s);
      NumbersOfJoined(vs[..|vs| - 1], s);
      NumbersLastRound(s, vs, |JoinDecimal(vs[..|vs| - 1])|, NextNumber(s, |JoinDecimal(vs[..|vs| - 1])|).value);
    }
  }

  /** Once all but the last number of a list are read back, ending at `pe`, the last one follows. */
  lemma NumbersLastRound(s: string, vs: seq<nat>, pe: nat, t: Token)
    requires |vs| > 0 && Numbers(s, |vs| - 1) == Read(vs[..|vs| - 1], pe)
    requires NextNumber(s, pe) == Some(t) && t.value == vs[|vs| - 1]
    ensures Numbers(s, |vs|) == Read(vs, t.end)
  {
    var m := |vs| - 1;
    NumbersStep(s, m, vs[..m], pe, t);
    assert vs[..m] + [vs[m]] == vs;
  }

  /** The rendering of a list of numbers reads back as that list. */
  lemma JoinDecimalRoundTrip(vs: seq<nat>)
    ensures Numbers(JoinDecimal(vs), |vs|) == Read(vs, |JoinDecimal(vs)|)
  {
    var j := JoinDecimal(vs);
    assert j[..|j|] == j;
    NumbersOfJoined(vs, j);
  }

  /** PHC_MAXLEN: the size of the voltage-list buffers, and where the rendering loops stop. */
  const PhcMaxLen: nat := 30

  /**
   * The text after k rounds of a rendering loop: the first k numbers, each
   * but the last of the whole list followed by a space.
   */
  function Rendered(vs: seq<nat>, k: nat): string
    requires k <= |vs|
  {
    if k == 0 then "" else JoinDecimal(vs[..k]) + (if k < |vs| then " " else "")
  }

  /** One more round appends the next number and, unless it is the last, a space. */
  lemma RenderedStep(vs: seq<nat>, k: nat)
    requires k < |vs|
    ensures Rendered(vs, k + 1) == Rendered(vs, k) + Decimal(vs[k]) + (if k < |vs| - 1 then " " else "")
  {
    assert vs[..k + 1][..k] == vs[..k];
    if k > 0 {
      JoinedSplit(vs[..k + 1]);
    }
  }

  /** The text a rendering loop capped at PHC_MAXLEN characters ends with when it resumes after k rounds. */
  function CappedFrom(vs: seq<nat>, k: nat): string
    requires k <= |vs|
    decreases |vs| - k
  {
    if k == |vs| || |Rendered(vs, k)| >= PhcMaxLen then Rendered(vs, k) else CappedFrom(vs, k + 1)
  }

  /**
   * A round a rendering loop takes (always when uncapped, below PHC_MAXLEN
   * characters when capped) appends the next number and, unless it is the
   * last, a space, and leaves the text the capped loop ends with unchanged.
   */
  lemma RenderRound(vs: seq<nat>, k: nat, capped: bool, goal: string, text: string)
    requires k < |vs| && text == Rendered(vs, k) && (!capped || |text| < PhcMaxLen)
    requires capped ==> CappedFrom(vs, k) == goal
    ensures text + (Decimal(vs[k]) + (if k < |vs| - 1 then " " else "")) == Rendered(vs, k + 1)
    ensures capped ==> CappedFrom(vs, k + 1) == goal
  {
    RenderedStep(vs, k);
  }

  /** A capped rendering shorter than the cap is the whole list. */
  lemma CappedShortIsWhole(vs: seq<nat>, k: nat)
    requires k <= |vs| && |CappedFrom(vs, k)| < PhcMaxLen
    ensures CappedFrom(vs, k) == JoinDecimal(vs)
  {
    CappedIsPrefix(vs, k);
  }

  /** Resumed at the end, the capped rendering is the whole list. */
  lemma CappedAtEnd(vs: seq<nat>)
    ensures CappedFrom(vs, |vs|) == JoinDecimal(vs)
  {
    RenderedEnd(vs, |vs|, true);
  }

  /** What starts a string starts every string that string starts. */
  lemma PrefixOfPrefix(a: string, b: string, c: string)
    requires a + b <= c
    ensures a <= c
  {
    assert c[..|a|] == (a + b)[..|a|];
  }

  /** The text after any number of rounds is the start of the whole rendering, followed by a space. */
  lemma {:induction false} RenderedPrefix(vs: seq<nat>, k: nat)
    requires k <= |vs|
    ensures Rendered(vs, k) <= JoinDecimal(vs) + " "
    decreases |vs| - k
  {
    if k == |vs| {
      RenderedEnd(vs, k, false);
      PrefixOfPrefix(JoinDecimal(vs), " ", JoinDecimal(vs) + " ");
    } else {
      RenderedPrefix(vs, k + 1);
      RenderedStepPrefix(vs, k, JoinDecimal(vs) + " ");
    }
  }

  /** What starts a text after k + 1 rounds starts it after k rounds too. */
  lemma RenderedStepPrefix(vs: seq<nat>, k: nat, whole: string)
    requires k < |vs| && Rendered(vs, k + 1) <= whole
    ensures Rendered(vs, k) <= whole
  {
    RenderedStep(vs, k);
    PrefixOfPrefix(Rendered(vs, k), Decimal(vs[k]) + (if k < |vs| - 1 then " " else ""), whole);
  }

  /**
   * A capped rendering is the start of the whole rendering (the last round
   * taken may leave a trailing space), and it is either the whole list or
   * at least PHC_MAXLEN characters long.
   */
  lemma {:induction false} CappedIsPrefix(vs: seq<nat>, k: nat)
    requires k <= |vs|
    ensures CappedFrom(vs, k) <= JoinDecimal(vs) + " "
    ensures |CappedFrom(vs, k)| >= PhcMaxLen || CappedFrom(vs, k) == JoinDecimal(vs)
    decreases |vs| - k
  {
    if k == |vs| {
      CappedAtEnd(vs);
      PrefixOfPrefix(JoinDecimal(vs), " ", JoinDecimal(vs) + " ");
    } else if CappedFrom(vs, k) == CappedFrom(vs, k + 1) {
      CappedIsPrefix(vs, k + 1);
    } else {
      CappedStops(vs, k);
    }
  }

  /** A capped rendering that stops after k rounds is the start of the whole rendering, at least PHC_MAXLEN characters long. */
  lemma CappedStops(vs: seq<nat>, k: nat)
    requires k < |vs| && CappedFrom(vs, k) != CappedFrom(vs, k + 1)
    ensures CappedFrom(vs, k) <= JoinDecimal(vs) + " " && |CappedFrom(vs, k)| >= PhcMaxLen
  {
    RenderedPrefix(vs, k);
  }

  /** Where a rendering loop stops, its text is what the capped rendering resumed there gives, and the whole list when it ran to the end. */
  lemma RenderedEnd(vs: seq<nat>, i: nat, capped: bool)
    requires i <= |vs| && (i == |vs| || (capped && |Rendered(vs, i)| >= PhcMaxLen))
    ensures capped ==> CappedFrom(vs, i) == Rendered(vs, i)
    ensures i == |vs| ==> Rendered(vs, i) == JoinDecimal(vs)
  {
    if i == |vs| {
      assert vs[..i] == vs;
    }
  }
}
