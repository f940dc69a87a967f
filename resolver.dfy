/**
 * How est_init_main settles on an operating-point table (i386 configuration):
 * it reads MSR_PERF_STATUS, rejects a strange status, looks the processor up
 * in the catalog by (vendor, bus clock, highest point, lowest point) and, when
 * the processor is not listed, interpolates a table between the highest and
 * the lowest point the status reports.
 */
module Resolver {
  import opened Wrappers
  import opened Codec
  import opened Catalog

  /** A 64-bit model-specific register value. */
  type Msr64 = x: int | 0 <= x < 0x1_0000_0000_0000_0000

  /** idhi: bits 32..47 of MSR_PERF_STATUS, the highest operating point. */
  function HighId(msr: Msr64): Identifier
  {
    (msr / 0x1_0000_0000) % 0x1_0000
  }

  /** idlo: bits 48..63 of MSR_PERF_STATUS, the lowest operating point. */
  function LowId(msr: Msr64): Identifier
  {
    (msr / 0x1_0000_0000_0000) % 0x1_0000
  }

  /** cur: bits 0..15 of MSR_PERF_STATUS, the current operating point. */
  function CurrentId(msr: Msr64): Identifier
  {
    msr % 0x1_0000
  }

  /** A status register value with the given highest, lowest and current points and zero elsewhere. */
  function StatusOf(hi: Identifier, lo: Identifier, cur: Identifier): Msr64
  {
    lo * 0x1_0000_0000_0000 + hi * 0x1_0000_0000 + cur
  }

  /** Multiplying both sides of an inequality by the same natural number. */
  lemma MulLeft(a: nat, b: nat, c: nat)
    requires a <= b
    ensures a * c <= b * c
  {
    assert (b - a) * c >= 0;
  }

  /** Euclidean division undoes a multiplication plus a smaller remainder. */
  lemma DivOfMulAdd(a: nat, b: nat, k: nat)
    requires 0 <= b < k
    ensures (a * k + b) / k == a && (a * k + b) % k == b
  {
    var n := a * k + b;
    var q, r := n / k, n % k;
    assert n == q * k + r && 0 <= r < k;
    if q > a {
      MulLeft(a + 1, q, k);
      assert false;
    }
    if q < a {
      MulLeft(q + 1, a, k);
      assert false;
    }
  }

  /** The three fields read back from a status built of them. */
  lemma StatusFields(hi: Identifier, lo: Identifier, cur: Identifier)
    ensures HighId(StatusOf(hi, lo, cur)) == hi
    ensures LowId(StatusOf(hi, lo, cur)) == lo
    ensures CurrentId(StatusOf(hi, lo, cur)) == cur
  {
    var m := StatusOf(hi, lo, cur);
    var upper := lo * 0x1_0000 + hi;
    assert m == upper * 0x1_0000_0000 + cur;
    DivOfMulAdd(upper, cur, 0x1_0000_0000);
    DivOfMulAdd(lo, hi, 0x1_0000);
    assert m == lo * 0x1_0000_0000_0000 + (hi * 0x1_0000_0000 + cur);
    DivOfMulAdd(lo, hi * 0x1_0000_0000 + cur, 0x1_0000_0000_0000);
    DivOfMulAdd(0, lo, 0x1_0000);
    DivOfMulAdd(upper * 0x1_0000, cur, 0x1_0000);
  }

  /** The i386 sanity test: all three points present and the current frequency step between the lowest and the highest. */
  predicate SaneStatus(msr: Msr64): (b: bool)
    ensures b ==> FreqInc(LowId(msr)) <= FreqInc(HighId(msr))
  {
    && HighId(msr) != 0 && LowId(msr) != 0 && CurrentId(msr) != 0
    && FreqInc(LowId(msr)) <= FreqInc(CurrentId(msr)) <= FreqInc(HighId(msr))
  }

  /** The catalog test: same vendor, same bus clock, and the table's first and last rows are the highest and lowest points. */
  predicate Matches(e: Entry, vendor: Vendor, bus: nat, hi: Identifier, lo: Identifier)
  {
    vendor == e.vendor && bus == BusClk(e) && hi == e.table[0] && lo == e.table[|e.table| - 1]
  }

  /** The first catalog index at or after `from` whose entry matches, or None. */
  function FirstMatchFrom(cat: seq<Entry>, from: nat, vendor: Vendor, bus: nat, hi: Identifier, lo: Identifier): (r: Option<nat>)
    requires from <= |cat|
    ensures r.Some? ==> from <= r.value < |cat| && Matches(cat[r.value], vendor, bus, hi, lo)
    ensures forall k :: from <= k < |cat| && (r.None? || k < r.value) ==> !Matches(cat[k], vendor, bus, hi, lo)
    decreases |cat| - from
  {
    if from == |cat| then None
    else if Matches(cat[from], vendor, bus, hi, lo) then Some(from)
    else FirstMatchFrom(cat, from + 1, vendor, bus, hi, lo)
  }

  /** The first matching catalog index, or None. */
  function FirstMatch(cat: seq<Entry>, vendor: Vendor, bus: nat, hi: Identifier, lo: Identifier): Option<nat>
  {
    FirstMatchFrom(cat, 0, vendor, bus, hi, lo)
  }

  /** The catalog search loop of est_init_main: the index of the first matching entry, or None for a NULL est_fqlist. */
  method FindEntry(cat: seq<Entry>, vendor: Vendor, bus: nat, hi: Identifier, lo: Identifier) returns (found: Option<nat>)
    ensures found.Some? ==> found.value < |cat| && Matches(cat[found.value], vendor, bus, hi, lo)
    ensures forall k :: 0 <= k < |cat| && (found.None? || k < found.value) ==> !Matches(cat[k], vendor, bus, hi, lo)
    ensures found == FirstMatch(cat, vendor, bus, hi, lo)
  {
    found := None;
    var i := 0;
    while i < |cat|
      invariant 0 <= i <= |cat|
      invariant FirstMatchFrom(cat, i, vendor, bus, hi, lo) == FirstMatch(cat, vendor, bus, hi, lo)
    {
      if vendor == cat[i].vendor && bus == BusClk(cat[i]) && hi == cat[i].table[0] && lo == cat[i].table[|cat[i].table| - 1] {
        found := Some(i);
        return;
      }
      i := i + 1;
    }
  }

  /**
   * The interpolation plan: how many rows the fake table gets and by how many
   * hundredths of a step the frequency and the voltage go down from one row
   * to the next (the variables tablesize, freqinc and voltinc once the branch
   * on the two spans has run).
   */
  datatype Plan = Plan(size: nat, freqStep: nat, voltStep: nat)

  /** Whether the plan steps the frequency one whole step per row: its span is narrower than the voltage span, or the voltage does not change. */
  predicate StepsByFrequency(hi: Identifier, lo: Identifier)
  {
    FreqInc(hi) - FreqInc(lo) < VoltInc(hi) - VoltInc(lo) || VoltInc(hi) == VoltInc(lo)
  }

  /** The interpolation branches of est_init_main, for a low point below the high point in both frequency and voltage. */
  function InterpolationPlan(hi: Identifier, lo: Identifier): (p: Plan)
    requires FreqInc(lo) < FreqInc(hi) && VoltInc(lo) <= VoltInc(hi)
    ensures 2 <= p.size <= 256
    ensures StepsByFrequency(hi, lo) ==> p.size == FreqInc(hi) - FreqInc(lo) + 1 && p.freqStep == 100
    ensures !StepsByFrequency(hi, lo) ==> p.size == VoltInc(hi) - VoltInc(lo) + 1 && p.voltStep == 100
  {
    var df := FreqInc(hi) - FreqInc(lo);
    var dv := VoltInc(hi) - VoltInc(lo);
    if dv == 0 then Plan(df + 1, 100, 0)
    else if df < dv then ScaledStepBound(dv, df, 0); Plan(df + 1, 100, dv * 100 / df - 1)
    else ScaledStepBound(df, dv, 0); Plan(dv + 1, df * 100 / dv - 1, 100)
  }

  /** (x + 99) / 100: hundredths of a step rounded up to whole steps. */
  function CeilCenti(x: nat): nat
  {
    (x + 99) / 100
  }

  /**
   * An interpolated step: the wide span spread over the narrow one in
   * hundredths, less one, is at least 99, and j such steps (j at most the
   * narrow span) stay at least j hundredths short of the whole wide span.
   */
  lemma ScaledStepBound(wide: nat, narrow: nat, j: nat)
    requires 0 < narrow <= wide && j <= narrow
    ensures wide * 100 / narrow >= 100
    ensures 0 <= j * (wide * 100 / narrow - 1) <= 100 * wide - j
  {
    var q := wide * 100 / narrow;
    assert q * narrow <= wide * 100;
    if q < 100 {
      MulLeft(q, 99, narrow);
      assert false;
    }
    MulLeft(j, narrow, q);
    assert j * (q - 1) == j * q - j;
    MulLeft(1, q - 1, j);
  }

  /** Every row of a plan is at most the whole span below the high point, in both frequency and voltage. */
  lemma PlanStepBounds(hi: Identifier, lo: Identifier, j: nat)
    requires FreqInc(lo) < FreqInc(hi) && VoltInc(lo) <= VoltInc(hi)
    requires j < InterpolationPlan(hi, lo).size
    ensures 0 <= j * InterpolationPlan(hi, lo).freqStep <= 100 * (FreqInc(hi) - FreqInc(lo))
    ensures 0 <= j * InterpolationPlan(hi, lo).voltStep <= 100 * (VoltInc(hi) - VoltInc(lo))
  {
    var df := FreqInc(hi) - FreqInc(lo);
    var dv := VoltInc(hi) - VoltInc(lo);
    if df < dv {
      ScaledStepBound(dv, df, j);
    } else if dv != 0 {
      ScaledStepBound(df, dv, j);
    }
  }

  /** Rounding up anything from `low` whole steps to `high` whole steps, in hundredths, lands between them. */
  lemma CeilCentiBetween(low: nat, high: nat, x: nat)
    requires low * 100 <= x <= high * 100
    ensures low <= CeilCenti(x) <= high
  {
  }

  /**
   * Row j of the interpolated table: the accumulators freq and volt,
   * started at the high point in hundredths and lowered j times by the
   * plan's steps, each rounded up to a whole step.
   */
  function Row(hi: Identifier, lo: Identifier, j: nat): (r: Identifier)
    requires FreqInc(lo) < FreqInc(hi) && VoltInc(lo) <= VoltInc(hi)
    requires j < InterpolationPlan(hi, lo).size
    ensures FreqInc(lo) <= FreqInc(r) <= FreqInc(hi)
    ensures VoltInc(lo) <= VoltInc(r) <= VoltInc(hi)
  {
    var p := InterpolationPlan(hi, lo);
    PlanStepBounds(hi, lo, j);
    var freq := FreqInc(hi) * 100 - j * p.freqStep;
    var volt := VoltInc(hi) * 100 - j * p.voltStep;
    CeilCentiBetween(FreqInc(lo), FreqInc(hi), freq);
    CeilCentiBetween(VoltInc(lo), VoltInc(hi), volt);
    PhcId16(CeilCenti(freq), CeilCenti(volt))
  }

  /** The fake table est_init_main interpolates: highest frequency first, starting at the high point. */
  function InterpolatedTable(hi: Identifier, lo: Identifier): (t: seq<Identifier>)
    requires FreqInc(lo) < FreqInc(hi) && VoltInc(lo) <= VoltInc(hi)
    ensures |t| == InterpolationPlan(hi, lo).size
    ensures t[0] == hi
    ensures forall j :: 0 <= j < |t| ==> FreqInc(lo) <= FreqInc(t[j]) <= FreqInc(hi) && VoltInc(lo) <= VoltInc(t[j]) <= VoltInc(hi)
  {
    var p := InterpolationPlan(hi, lo);
    PackUnpack(hi);
    seq(p.size, j requires 0 <= j < p.size => Row(hi, lo, j))
  }

  /** Row j of the interpolated table is the j-th rounding of the accumulators. */
  lemma InterpolatedRow(hi: Identifier, lo: Identifier, j: nat)
    requires FreqInc(lo) < FreqInc(hi) && VoltInc(lo) <= VoltInc(hi)
    requires j < InterpolationPlan(hi, lo).size
    ensures InterpolatedTable(hi, lo)[j] == Row(hi, lo, j)
  {
  }

  /** One more step lowers neither accumulator's rounded value. */
  lemma RowsNonIncreasing(hi: Identifier, lo: Identifier, j: nat)
    requires FreqInc(lo) < FreqInc(hi) && VoltInc(lo) <= VoltInc(hi)
    requires 0 < j < InterpolationPlan(hi, lo).size
    ensures FreqInc(Row(hi, lo, j)) <= FreqInc(Row(hi, lo, j - 1))
    ensures VoltInc(Row(hi, lo, j)) <= VoltInc(Row(hi, lo, j - 1))
  {
    var p := InterpolationPlan(hi, lo);
    assert j * p.freqStep == (j - 1) * p.freqStep + p.freqStep;
    assert j * p.voltStep == (j - 1) * p.voltStep + p.voltStep;
    PlanStepBounds(hi, lo, j);
    PlanStepBounds(hi, lo, j - 1);
  }

  /** Down the interpolated table neither the frequency step nor the voltage step ever rises. */
  lemma InterpolatedNonIncreasing(hi: Identifier, lo: Identifier)
    requires FreqInc(lo) < FreqInc(hi) && VoltInc(lo) <= VoltInc(hi)
    ensures forall j :: 0 < j < |InterpolatedTable(hi, lo)| ==>
      FreqInc(InterpolatedTable(hi, lo)[j]) <= FreqInc(InterpolatedTable(hi, lo)[j - 1])
      && VoltInc(InterpolatedTable(hi, lo)[j]) <= VoltInc(InterpolatedTable(hi, lo)[j - 1])
  {
    var t := InterpolatedTable(hi, lo);
    forall j | 0 < j < |t|
      ensures FreqInc(t[j]) <= FreqInc(t[j - 1]) && VoltInc(t[j]) <= VoltInc(t[j - 1])
    {
      RowsNonIncreasing(hi, lo, j);
    }
  }

  /**
   * When the frequency span is the narrower one (or the voltage is flat),
   * row j runs exactly j frequency steps below the high point, down to the
   * low point's step, and its voltage step never falls below the straight
   * line from the low point to the high point: the voltages are rounded up.
   */
  lemma FrequencyStepsWithVoltageAboveLine(hi: Identifier, lo: Identifier)
    requires FreqInc(lo) < FreqInc(hi) && VoltInc(lo) <= VoltInc(hi)
    requires StepsByFrequency(hi, lo)
    ensures |InterpolatedTable(hi, lo)| == FreqInc(hi) - FreqInc(lo) + 1
    ensures forall j :: 0 <= j < |InterpolatedTable(hi, lo)| ==>
      && FreqInc(InterpolatedTable(hi, lo)[j]) == FreqInc(hi) - j
      && VoltInc(InterpolatedTable(hi, lo)[j]) * (FreqInc(hi) - FreqInc(lo))
         >= VoltInc(hi) * (FreqInc(hi) - FreqInc(lo)) - j * (VoltInc(hi) - VoltInc(lo))
  {
    var t := InterpolatedTable(hi, lo);
    forall j | 0 <= j < |t|
      ensures FreqInc(t[j]) == FreqInc(hi) - j
      ensures VoltInc(t[j]) * (FreqInc(hi) - FreqInc(lo)) >= VoltInc(hi) * (FreqInc(hi) - FreqInc(lo)) - j * (VoltInc(hi) - VoltInc(lo))
    {
      RowAboveLine(hi, lo, j);
    }
  }

  /**
   * The rounding-up bound in plain numbers: a value at or above the high
   * voltage less j interpolated steps (in hundredths) lies on or above the
   * line that falls `dv` voltage steps over `df` rows.
   */
  lemma AboveLine(maxV: nat, dv: nat, df: nat, j: nat, v: nat)
    requires 0 < df < dv && j <= df
    requires v * 100 + j * (dv * 100 / df - 1) >= maxV * 100
    ensures v * df >= maxV * df - j * dv
  {
    var q := dv * 100 / df;
    assert q * df <= dv * 100;
    ScaledStepBound(dv, df, j);
    // v * 100 >= maxV * 100 - j * q + j >= maxV * 100 - j * q
    assert v * 100 + j * q >= maxV * 100;
    MulLeft(maxV * 100, v * 100 + j * q, df);
    assert (v * 100 + j * q) * df == v * 100 * df + j * (q * df);
    MulLeft(q * df, dv * 100, j);
    assert v * 100 * df + j * (dv * 100) >= maxV * 100 * df;
  }

  /** Row j of a plan that steps by frequency. */
  lemma RowAboveLine(hi: Identifier, lo: Identifier, j: nat)
    requires FreqInc(lo) < FreqInc(hi) && VoltInc(lo) <= VoltInc(hi)
    requires StepsByFrequency(hi, lo) && j < InterpolationPlan(hi, lo).size
    ensures FreqInc(Row(hi, lo, j)) == FreqInc(hi) - j
    ensures VoltInc(Row(hi, lo, j)) * (FreqInc(hi) - FreqInc(lo)) >= VoltInc(hi) * (FreqInc(hi) - FreqInc(lo)) - j * (VoltInc(hi) - VoltInc(lo))
  {
    var df := FreqInc(hi) - FreqInc(lo);
    var dv := VoltInc(hi) - VoltInc(lo);
    var p := InterpolationPlan(hi, lo);
    var v := VoltInc(Row(hi, lo, j));
    PlanStepBounds(hi, lo, j);
    assert v == CeilCenti(VoltInc(hi) * 100 - j * p.voltStep);
    if dv != 0 {
      assert p.voltStep == dv * 100 / df - 1;
      AboveLine(VoltInc(hi), dv, df, j, v);
    }
  }

  /**
   * When the voltage span is the narrower one, row j runs exactly j voltage
   * steps below the high point, down to the low point's step.
   */
  lemma VoltageStepsRowByRow(hi: Identifier, lo: Identifier)
    requires FreqInc(lo) < FreqInc(hi) && VoltInc(lo) <= VoltInc(hi)
    requires !StepsByFrequency(hi, lo)
    ensures |InterpolatedTable(hi, lo)| == VoltInc(hi) - VoltInc(lo) + 1
    ensures forall j :: 0 <= j < |InterpolatedTable(hi, lo)| ==> VoltInc(InterpolatedTable(hi, lo)[j]) == VoltInc(hi) - j
  {
  }

  /**
   * With equal spans the frequency is lowered by 99 hundredths per row and
   * rounded up, so the second row repeats the top frequency step at a lower
   * voltage step: the table's frequencies are not strictly decreasing.
   */
  lemma RepeatedFrequencyRow(hi: Identifier, lo: Identifier)
    requires hi == PhcId16(12, 40) && lo == PhcId16(6, 34)
    ensures FreqInc(lo) < FreqInc(hi) && VoltInc(lo) <= VoltInc(hi) && !StepsByFrequency(hi, lo)
    ensures var t := InterpolatedTable(hi, lo);
      |t| == 7 && t[1] == PhcId16(12, 39) && FreqInc(t[0]) == FreqInc(t[1])
  {
    assert FreqInc(hi) == 12 && VoltInc(hi) == 40 && FreqInc(lo) == 6 && VoltInc(lo) == 34;
    assert 6 * 100 / 6 - 1 == 99;
    var p := InterpolationPlan(hi, lo);
    assert p == Plan(7, 99, 100);
    assert 1101 == FreqInc(hi) * 100 - 1 * p.freqStep;
    assert 3900 == VoltInc(hi) * 100 - 1 * p.voltStep;
    RowOfAccumulators(hi, lo, 1, 1101, 3900);
    InterpolatedRow(hi, lo, 1);
  }

  /** In the same table the third row is the first below the top frequency step. */
  lemma RepeatedTableThirdRow(hi: Identifier, lo: Identifier)
    requires hi == PhcId16(12, 40) && lo == PhcId16(6, 34)
    ensures FreqInc(lo) < FreqInc(hi) && VoltInc(lo) <= VoltInc(hi)
    ensures var t := InterpolatedTable(hi, lo);
      |t| == 7 && t[2] == PhcId16(11, 38)
  {
    assert FreqInc(hi) == 12 && VoltInc(hi) == 40 && FreqInc(lo) == 6 && VoltInc(lo) == 34;
    assert 6 * 100 / 6 - 1 == 99;
    var p := InterpolationPlan(hi, lo);
    assert p == Plan(7, 99, 100);
    assert 1002 == FreqInc(hi) * 100 - 2 * p.freqStep;
    assert 3800 == VoltInc(hi) * 100 - 2 * p.voltStep;
    RowOfAccumulators(hi, lo, 2, 1002, 3800);
    InterpolatedRow(hi, lo, 2);
  }

  /**
   * Rounding the voltage up can leave the low point itself out of the
   * table: here the last row runs at the low frequency step one voltage
   * step above the low point.
   */
  lemma LastRowAboveLowPoint(hi: Identifier, lo: Identifier)
    requires hi == PhcId16(13, 40) && lo == PhcId16(10, 30)
    ensures FreqInc(lo) < FreqInc(hi) && VoltInc(lo) <= VoltInc(hi) && StepsByFrequency(hi, lo)
    ensures var t := InterpolatedTable(hi, lo);
      |t| == 4 && t[3] == PhcId16(10, 31) && t[3] != lo
  {
    assert FreqInc(hi) == 13 && VoltInc(hi) == 40 && FreqInc(lo) == 10 && VoltInc(lo) == 30;
    var p := InterpolationPlan(hi, lo);
    assert p == Plan(4, 100, 332);
    assert 1000 == FreqInc(hi) * 100 - 3 * p.freqStep;
    assert 3004 == VoltInc(hi) * 100 - 3 * p.voltStep;
    RowOfAccumulators(hi, lo, 3, 1000, 3004);
    InterpolatedRow(hi, lo, 3);
  }

  /**
   * Whenever the voltage changes between the two points, the low point
   * itself is never a row of the interpolated table: in the frequency branch
   * the last row has the low frequency step at a higher voltage step, and in
   * the voltage branch the last row has the low voltage step at a higher
   * frequency step.
   */
  lemma LowPointLeftOut(hi: Identifier, lo: Identifier)
    requires FreqInc(lo) < FreqInc(hi) && VoltInc(lo) < VoltInc(hi)
    ensures var t := InterpolatedTable(hi, lo);
      && (StepsByFrequency(hi, lo) ==> FreqInc(t[|t| - 1]) == FreqInc(lo) && VoltInc(t[|t| - 1]) > VoltInc(lo))
      && (!StepsByFrequency(hi, lo) ==> VoltInc(t[|t| - 1]) == VoltInc(lo) && FreqInc(t[|t| - 1]) > FreqInc(lo))
      && lo !in t
  {
    if StepsByFrequency(hi, lo) {
      LastFrequencyRowAboveLow(hi, lo);
    } else {
      LastVoltageRowFasterThanLow(hi, lo);
    }
  }

  /** The frequency branch of LowPointLeftOut. */
  lemma LastFrequencyRowAboveLow(hi: Identifier, lo: Identifier)
    requires FreqInc(lo) < FreqInc(hi) && VoltInc(lo) < VoltInc(hi) && StepsByFrequency(hi, lo)
    ensures var t := InterpolatedTable(hi, lo);
      FreqInc(t[|t| - 1]) == FreqInc(lo) && VoltInc(t[|t| - 1]) > VoltInc(lo) && lo !in t
  {
    var t := InterpolatedTable(hi, lo);
    var df := FreqInc(hi) - FreqInc(lo);
    var dv := VoltInc(hi) - VoltInc(lo);
    var p := InterpolationPlan(hi, lo);
    var last := |t| - 1;
    assert last == df && p.voltStep == dv * 100 / df - 1;
    ScaledStepBound(dv, df, df);
    assert VoltInc(t[last]) == CeilCenti(VoltInc(hi) * 100 - last * p.voltStep);
    FrequencyStepsWithVoltageAboveLine(hi, lo);
    forall j | 0 <= j < |t|
      ensures t[j] != lo
    {
      if j < last {
        assert FreqInc(t[j]) != FreqInc(lo);
      } else {
        assert VoltInc(t[j]) != VoltInc(lo);
      }
    }
  }

  /** The voltage branch of LowPointLeftOut. */
  lemma LastVoltageRowFasterThanLow(hi: Identifier, lo: Identifier)
    requires FreqInc(lo) < FreqInc(hi) && VoltInc(lo) < VoltInc(hi) && !StepsByFrequency(hi, lo)
    ensures var t := InterpolatedTable(hi, lo);
      VoltInc(t[|t| - 1]) == VoltInc(lo) && FreqInc(t[|t| - 1]) > FreqInc(lo) && lo !in t
  {
    var t := InterpolatedTable(hi, lo);
    var df := FreqInc(hi) - FreqInc(lo);
    var dv := VoltInc(hi) - VoltInc(lo);
    var p := InterpolationPlan(hi, lo);
    var last := |t| - 1;
    assert last == dv && p.freqStep == df * 100 / dv - 1;
    ScaledStepBound(df, dv, dv);
    assert FreqInc(t[last]) == CeilCenti(FreqInc(hi) * 100 - last * p.freqStep);
    VoltageStepsRowByRow(hi, lo);
    forall j | 0 <= j < |t|
      ensures t[j] != lo
    {
      if j < last {
        assert VoltInc(t[j]) != VoltInc(lo);
      } else {
        assert FreqInc(t[j]) != FreqInc(lo);
      }
    }
  }

  /**
   * The table size the C code computes from the signed spans, with no
   * regard for which is negative: maxfreq - minfreq + 1 or maxvolt - minvolt + 1.
   */
  function TableSizeAsWritten(hi: Identifier, lo: Identifier): (size: int)
    ensures StepsByFrequency(hi, lo) ==> size == FreqInc(hi) - FreqInc(lo) + 1
    ensures !StepsByFrequency(hi, lo) ==> size == VoltInc(hi) - VoltInc(lo) + 1
    ensures FreqInc(lo) < FreqInc(hi) && VoltInc(lo) > VoltInc(hi) ==> size <= 0
  {
    var df := FreqInc(hi) - FreqInc(lo);
    var dv := VoltInc(hi) - VoltInc(lo);
    if df < dv || dv == 0 then df + 1 else dv + 1
  }

  /**
   * A sane status whose low point has the higher voltage step: the C code
   * takes the voltage branch with a negative span and computes a table of
   * -9 rows, which it then allocates and indexes.
   */
  lemma NegativeVoltageSpanTableSize()
    ensures var msr := StatusOf(PhcId16(12, 10), PhcId16(6, 20), PhcId16(12, 10));
      SaneStatus(msr) && HighId(msr) != LowId(msr)
      && TableSizeAsWritten(HighId(msr), LowId(msr)) == -9
  {
    var hi, lo := PhcId16(12, 10), PhcId16(6, 20);
    StatusFields(hi, lo, hi);
    assert FreqInc(hi) == 12 && VoltInc(hi) == 10 && FreqInc(lo) == 6 && VoltInc(lo) == 20;
  }

  /**
   * The table est_init_main settles on, or None when it leaves est_fqlist
   * NULL: unknown bus clock, a strange status, no catalog entry and the
   * highest and lowest points the same or at the same frequency step. A low
   * point with a higher voltage step than the high point (which the driver
   * turns into a table of non-positive size) is treated as no table.
   */
  function Resolve(cat: seq<Entry>, vendor: Vendor, bus: nat, msr: Msr64): (r: Option<seq<Identifier>>)
    ensures r.Some? ==> bus != 0 && SaneStatus(msr)
    ensures r.Some? ==> 1 <= |r.value| <= 256 && r.value[0] == HighId(msr)
  {
    var hi, lo := HighId(msr), LowId(msr);
    if bus == 0 || !SaneStatus(msr) then None
    else match FirstMatch(cat, vendor, bus, hi, lo)
      case Some(k) => Some(cat[k].table)
      case None =>
        if hi == lo || FreqInc(hi) == FreqInc(lo) || VoltInc(lo) > VoltInc(hi) then None
        else Some(InterpolatedTable(hi, lo))
  }

  /**
   * Whatever the catalog, a resolved table has 1 to 256 rows, starts at the
   * highest point, never rises in frequency step from one row to the next,
   * and stays between the lowest and highest frequency steps.
   */
  lemma ResolveShape(cat: seq<Entry>, vendor: Vendor, bus: nat, msr: Msr64)
    requires Resolve(cat, vendor, bus, msr).Some?
    ensures var t := Resolve(cat, vendor, bus, msr).value;
      && 1 <= |t| <= 256
      && t[0] == HighId(msr)
      && (forall j :: 0 < j < |t| ==> FreqInc(t[j]) <= FreqInc(t[j - 1]))
      && (forall j :: 0 <= j < |t| ==> FreqInc(LowId(msr)) <= FreqInc(t[j]) <= FreqInc(HighId(msr)))
  {
    var hi, lo := HighId(msr), LowId(msr);
    var t := Resolve(cat, vendor, bus, msr).value;
    match FirstMatch(cat, vendor, bus, hi, lo)
    case Some(k) =>
      var e := cat[k];
      assert StrictlyDecreasingFids(e.table);
      CatalogFidsBetween(e.table, hi, lo);
    case None =>
      InterpolatedNonIncreasing(hi, lo);
  }

  /** In a table with strictly decreasing frequency steps every row lies between the first and the last. */
  lemma CatalogFidsBetween(t: seq<Identifier>, hi: Identifier, lo: Identifier)
    requires |t| >= 1 && StrictlyDecreasingFids(t) && t[0] == hi && t[|t| - 1] == lo
    ensures forall j :: 0 <= j < |t| ==> FreqInc(lo) <= FreqInc(t[j]) <= FreqInc(hi)
  {
    forall j | 0 <= j < |t|
      ensures FreqInc(lo) <= FreqInc(t[j]) <= FreqInc(hi)
    {
      FidsBelow(t, 0, j);
      FidsBelow(t, j, |t| - 1);
    }
  }

  /** Strictly decreasing adjacent pairs make the whole table decreasing. */
  lemma {:induction false} FidsBelow(t: seq<Identifier>, i: nat, j: nat)
    requires i <= j < |t| && StrictlyDecreasingFids(t)
    ensures FreqInc(t[j]) <= FreqInc(t[i])
    decreases j - i
  {
    if i < j {
      FidsBelow(t, i, j - 1);
    }
  }

  /**
   * The cases in which est_init_main leaves the driver without a table:
   * exactly an unknown bus clock, a strange status, or an unlisted
   * processor reporting no usable span between its highest and lowest points.
   */
  lemma ResolveNone(cat: seq<Entry>, vendor: Vendor, bus: nat, msr: Msr64)
    ensures Resolve(cat, vendor, bus, msr).None? <==>
      || bus == 0 || !SaneStatus(msr)
      || (&& (forall k :: 0 <= k < |cat| ==> !Matches(cat[k], vendor, bus, HighId(msr), LowId(msr)))
          && (FreqInc(HighId(msr)) == FreqInc(LowId(msr)) || VoltInc(LowId(msr)) > VoltInc(HighId(msr))))
  {
    var hi, lo := HighId(msr), LowId(msr);
    if hi == lo {
      assert FreqInc(hi) == FreqInc(lo);
    }
    if FirstMatch(cat, vendor, bus, hi, lo).Some? {
      var k := FirstMatch(cat, vendor, bus, hi, lo).value;
      assert Matches(cat[k], vendor, bus, hi, lo);
    }
  }

  /** A listed processor gets its catalog table, row for row. */
  lemma ResolveListed(cat: seq<Entry>, vendor: Vendor, bus: nat, msr: Msr64, k: nat)
    requires bus != 0 && SaneStatus(msr) && k < |cat|
    requires Matches(cat[k], vendor, bus, HighId(msr), LowId(msr))
    ensures Resolve(cat, vendor, bus, msr).Some?
    ensures Resolve(cat, vendor, bus, msr).value[|Resolve(cat, vendor, bus, msr).value| - 1] == LowId(msr)
    ensures exists i :: 0 <= i <= k && Matches(cat[i], vendor, bus, HighId(msr), LowId(msr)) && Resolve(cat, vendor, bus, msr).value == cat[i].table
  {
    var m := FirstMatch(cat, vendor, bus, HighId(msr), LowId(msr));
    assert m.Some? && m.value <= k;
  }

  /** The accumulators after j rows round to row j, each to a whole step. */
  lemma RowOfAccumulators(hi: Identifier, lo: Identifier, j: nat, freq: int, volt: int)
    requires FreqInc(lo) < FreqInc(hi) && VoltInc(lo) <= VoltInc(hi)
    requires j < InterpolationPlan(hi, lo).size
    requires freq == FreqInc(hi) * 100 - j * InterpolationPlan(hi, lo).freqStep
    requires volt == VoltInc(hi) * 100 - j * InterpolationPlan(hi, lo).voltStep
    ensures 0 <= (freq + 99) / 100 < 0x100 && 0 <= (volt + 99) / 100 < 0x100
    ensures PhcId16((freq + 99) / 100, (volt + 99) / 100) == Row(hi, lo, j)
  {
    PlanStepBounds(hi, lo, j);
    CeilCentiBetween(FreqInc(lo), FreqInc(hi), freq);
    CeilCentiBetween(VoltInc(lo), VoltInc(hi), volt);
    RowUnfolds(hi, lo, j, freq, volt);
  }

  /** Row j spelled out as the identifier of its two rounded accumulators. */
  lemma RowUnfolds(hi: Identifier, lo: Identifier, j: nat, freq: nat, volt: nat)
    requires FreqInc(lo) < FreqInc(hi) && VoltInc(lo) <= VoltInc(hi)
    requires j < InterpolationPlan(hi, lo).size
    requires freq == FreqInc(hi) * 100 - j * InterpolationPlan(hi, lo).freqStep
    requires volt == VoltInc(hi) * 100 - j * InterpolationPlan(hi, lo).voltStep
    ensures Row(hi, lo, j) == (CeilCenti(freq) * 256 + CeilCenti(volt))
  {
  }

  /**
   * The interpolation loop of est_init_main: fills a new table row by row
   * from the accumulators freq and volt, each lowered by the plan's step
   * after every row.
   */
  method Interpolate(hi: Identifier, lo: Identifier) returns (a: array<Identifier>)
    requires FreqInc(lo) < FreqInc(hi) && VoltInc(lo) <= VoltInc(hi)
    ensures fresh(a)
    ensures a[..] == InterpolatedTable(hi, lo)
  {
    var p := InterpolationPlan(hi, lo);
    a := new Identifier[p.size];
    var freq: int := FreqInc(hi) * 100;
    var volt: int := VoltInc(hi) * 100;
    var j := 0;
    while j < p.size
      invariant 0 <= j <= p.size
      invariant freq == FreqInc(hi) * 100 - j * p.freqStep
      invariant volt == VoltInc(hi) * 100 - j * p.voltStep
      invariant forall k :: 0 <= k < j ==> a[k] == Row(hi, lo, k)
      modifies a
    {
      RowOfAccumulators(hi, lo, j, freq, volt);
      a[j] := PhcId16((freq + 99) / 100, (volt + 99) / 100);
      freq := freq - p.freqStep;
      volt := volt - p.voltStep;
      assert (j + 1) * p.freqStep == j * p.freqStep + p.freqStep;
      assert (j + 1) * p.voltStep == j * p.voltStep + p.voltStep;
      j := j + 1;
    }
    assert a[..] == InterpolatedTable(hi, lo);
  }

  /**
   * An interpolation whose frequency steps strictly decrease, as every
   * catalog table's do (StrictlyDecreasingFids): as InterpolationPlan, except that the voltage branch
   * lowers the frequency by the whole quotient df * 100 / dv hundredths per
   * row, without the `- 1`.
   */
  function StrictPlan(hi: Identifier, lo: Identifier): (p: Plan)
    requires FreqInc(lo) < FreqInc(hi) && VoltInc(lo) <= VoltInc(hi)
    ensures p.size == InterpolationPlan(hi, lo).size && p.voltStep == InterpolationPlan(hi, lo).voltStep
    ensures StepsByFrequency(hi, lo) ==> p == InterpolationPlan(hi, lo)
    ensures p.freqStep >= 100
  {
    var df := FreqInc(hi) - FreqInc(lo);
    var dv := VoltInc(hi) - VoltInc(lo);
    if StepsByFrequency(hi, lo) then InterpolationPlan(hi, lo)
    else ScaledStepBound(df, dv, 0); Plan(dv + 1, df * 100 / dv, 100)
  }

  /** j whole quotients of the wide span by the narrow one, j at most the narrow span, stay within the wide span. */
  lemma QuotientStepBound(wide: nat, narrow: nat, j: nat)
    requires 0 < narrow <= wide && j <= narrow
    ensures j * (wide * 100 / narrow) <= 100 * wide
  {
    var q := wide * 100 / narrow;
    assert q * narrow <= wide * 100;
    MulLeft(j, narrow, q);
  }

  /** Every row of the strict plan is at most the whole span below the high point, in both steps. */
  lemma StrictStepBounds(hi: Identifier, lo: Identifier, j: nat)
    requires FreqInc(lo) < FreqInc(hi) && VoltInc(lo) <= VoltInc(hi)
    requires j < StrictPlan(hi, lo).size
    ensures 0 <= j * StrictPlan(hi, lo).freqStep <= 100 * (FreqInc(hi) - FreqInc(lo))
    ensures 0 <= j * StrictPlan(hi, lo).voltStep <= 100 * (VoltInc(hi) - VoltInc(lo))
  {
    PlanStepBounds(hi, lo, j);
    if !StepsByFrequency(hi, lo) {
      QuotientStepBound(FreqInc(hi) - FreqInc(lo), VoltInc(hi) - VoltInc(lo), j);
    }
  }

  /** The frequency accumulator after j rows of the strict plan, in hundredths of a step. */
  function StrictFreq(hi: Identifier, lo: Identifier, j: nat): (f: nat)
    requires FreqInc(lo) < FreqInc(hi) && VoltInc(lo) <= VoltInc(hi)
    requires j < StrictPlan(hi, lo).size
    ensures FreqInc(lo) * 100 <= f <= FreqInc(hi) * 100
  {
    StrictStepBounds(hi, lo, j);
    FreqInc(hi) * 100 - j * StrictPlan(hi, lo).freqStep
  }

  /** The voltage accumulator after j rows of the strict plan, in hundredths of a step. */
  function StrictVolt(hi: Identifier, lo: Identifier, j: nat): (v: nat)
    requires FreqInc(lo) < FreqInc(hi) && VoltInc(lo) <= VoltInc(hi)
    requires j < StrictPlan(hi, lo).size
    ensures VoltInc(lo) * 100 <= v <= VoltInc(hi) * 100
  {
    StrictStepBounds(hi, lo, j);
    VoltInc(hi) * 100 - j * StrictPlan(hi, lo).voltStep
  }

  /** Row j of the strict interpolation: both accumulators rounded up, as est_init_main rounds its rows. */
  function StrictRow(hi: Identifier, lo: Identifier, j: nat): (r: Identifier)
    requires FreqInc(lo) < FreqInc(hi) && VoltInc(lo) <= VoltInc(hi)
    requires j < StrictPlan(hi, lo).size
    ensures FreqInc(lo) <= FreqInc(r) <= FreqInc(hi)
    ensures VoltInc(lo) <= VoltInc(r) <= VoltInc(hi)
  {
    var freq, volt := StrictFreq(hi, lo, j), StrictVolt(hi, lo, j);
    CeilCentiBetween(FreqInc(lo), FreqInc(hi), freq);
    CeilCentiBetween(VoltInc(lo), VoltInc(hi), volt);
    PhcId16(CeilCenti(freq), CeilCenti(volt))
  }

  /** The strict table: the strict plan's rows, highest frequency first. */
  function StrictInterpolatedTable(hi: Identifier, lo: Identifier): (t: seq<Identifier>)
    requires FreqInc(lo) < FreqInc(hi) && VoltInc(lo) <= VoltInc(hi)
    ensures |t| == StrictPlan(hi, lo).size
    ensures forall j :: 0 <= j < |t| ==> t[j] == StrictRow(hi, lo, j)
  {
    var p := StrictPlan(hi, lo);
    seq(p.size, j requires 0 <= j < p.size => StrictRow(hi, lo, j))
  }

  /** Lowering an accumulator by at least a whole step lowers its rounded value by at least one step. */
  lemma CeilCentiDrops(x: nat, y: nat)
    requires y + 100 <= x
    ensures CeilCenti(y) < CeilCenti(x)
  {
  }

  /** One more row of the strict plan lowers the frequency step by at least one. */
  lemma StrictRowsDecreasing(hi: Identifier, lo: Identifier, j: nat)
    requires FreqInc(lo) < FreqInc(hi) && VoltInc(lo) <= VoltInc(hi)
    requires 0 < j < StrictPlan(hi, lo).size
    ensures FreqInc(StrictRow(hi, lo, j)) < FreqInc(StrictRow(hi, lo, j - 1))
  {
    var step := StrictPlan(hi, lo).freqStep;
    assert j * step == (j - 1) * step + step;
    assert StrictFreq(hi, lo, j) + step == StrictFreq(hi, lo, j - 1);
    CeilCentiDrops(StrictFreq(hi, lo, j - 1), StrictFreq(hi, lo, j));
  }

  /**
   * The strict interpolation starts at the high point, its frequency steps
   * strictly decrease, every row lies between the two points, it has as many
   * rows as est_init_main's table, and in the frequency branch it is
   * est_init_main's table itself.
   */
  lemma StrictInterpolationDecreasing(hi: Identifier, lo: Identifier)
    requires FreqInc(lo) < FreqInc(hi) && VoltInc(lo) <= VoltInc(hi)
    ensures var t := StrictInterpolatedTable(hi, lo);
      && |t| == |InterpolatedTable(hi, lo)|
      && t[0] == hi
      && StrictlyDecreasingFids(t)
      && (forall j :: 0 <= j < |t| ==> FreqInc(lo) <= FreqInc(t[j]) <= FreqInc(hi) && VoltInc(lo) <= VoltInc(t[j]) <= VoltInc(hi))
      && (StepsByFrequency(hi, lo) ==> t == InterpolatedTable(hi, lo))
  {
    var t := StrictInterpolatedTable(hi, lo);
    assert StrictFreq(hi, lo, 0) == FreqInc(hi) * 100 && StrictVolt(hi, lo, 0) == VoltInc(hi) * 100;
    PackUnpack(hi);
    forall j | 0 < j < |t|
      ensures FreqInc(t[j - 1]) > FreqInc(t[j])
    {
      StrictRowsDecreasing(hi, lo, j);
    }
    if StepsByFrequency(hi, lo) {
      var u := InterpolatedTable(hi, lo);
      forall j | 0 <= j < |t|
        ensures t[j] == u[j]
      {
        StrictRowAsWritten(hi, lo, j);
      }
    }
  }

  /** In the frequency branch a strict row is est_init_main's row. */
  lemma StrictRowAsWritten(hi: Identifier, lo: Identifier, j: nat)
    requires FreqInc(lo) < FreqInc(hi) && VoltInc(lo) <= VoltInc(hi) && StepsByFrequency(hi, lo)
    requires j < StrictPlan(hi, lo).size
    ensures StrictRow(hi, lo, j) == Row(hi, lo, j)
  {
    RowUnfolds(hi, lo, j, StrictFreq(hi, lo, j), StrictVolt(hi, lo, j));
  }
}
