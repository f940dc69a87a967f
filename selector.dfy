/**
 * The row selection shared by a write to machdep.est.frequency.target and the
 * re-clamp after a voltage override: scanning up from the slowest row, the
 * first row whose frequency reaches the request, or the fastest row when
 * none does.
 */
module Selector {
  import opened Codec

  /** The row the selection loop stops at when it starts at row `i` and walks towards row 0. */
  function SelectFrom(t: seq<Identifier>, bus: nat, fq: int, i: nat): (r: nat)
    requires i < |t|
    ensures r <= i
    ensures r > 0 ==> MsrToMHz(t[r], bus) >= fq
    ensures forall j :: r < j <= i ==> MsrToMHz(t[j], bus) < fq
    decreases i
  {
    if i == 0 then 0
    else if MsrToMHz(t[i], bus) >= fq then i
    else SelectFrom(t, bus, fq, i - 1)
  }

  /** The row selected for a requested frequency `fq` in MHz. */
  function SelectIndex(t: seq<Identifier>, bus: nat, fq: int): nat
    requires |t| > 0
  {
    SelectFrom(t, bus, fq, |t| - 1)
  }

  /** The selection loop `for (i = n - 1; i > 0; i--) if (MSR2MHZ(table[i]) >= fq) break;`. */
  method SelectRow(table: array<Identifier>, bus: nat, fq: int) returns (i: nat)
    requires table.Length > 0
    ensures i < table.Length
    ensures i > 0 ==> MsrToMHz(table[i], bus) >= fq
    ensures forall j :: i < j < table.Length ==> MsrToMHz(table[j], bus) < fq
    ensures i == SelectIndex(table[..], bus, fq)
  {
    i := table.Length - 1;
    while i > 0
      invariant 0 <= i < table.Length
      invariant SelectFrom(table[..], bus, fq, i) == SelectIndex(table[..], bus, fq)
    {
      if MsrToMHz(table[i], bus) >= fq {
        break;
      }
      i := i - 1;
    }
  }

  /** Frequencies never rise down the table. */
  predicate NonIncreasingMHz(t: seq<Identifier>, bus: nat)
  {
    forall j :: 0 < j < |t| ==> MsrToMHz(t[j], bus) <= MsrToMHz(t[j - 1], bus)
  }

  /** Frequency steps that never rise give frequencies that never rise, on any bus. */
  lemma FidsGiveMHz(t: seq<Identifier>, bus: nat)
    requires forall j :: 0 < j < |t| ==> FreqInc(t[j]) <= FreqInc(t[j - 1])
    ensures NonIncreasingMHz(t, bus)
  {
    forall j | 0 < j < |t|
      ensures MsrToMHz(t[j], bus) <= MsrToMHz(t[j - 1], bus)
    {
      MHzMonotone(t[j - 1], t[j], bus);
    }
  }

  /** In a table whose frequencies never rise, no later row is faster than an earlier one. */
  lemma {:induction false} MHzBelow(t: seq<Identifier>, bus: nat, i: nat, j: nat)
    requires NonIncreasingMHz(t, bus) && i <= j < |t|
    ensures MsrToMHz(t[j], bus) <= MsrToMHz(t[i], bus)
    decreases j - i
  {
    if i < j {
      MHzBelow(t, bus, i, j - 1);
    }
  }

  /**
   * In a table whose frequencies never rise, the selection rounds the
   * request up: it picks the slowest row at least as fast as `fq`, and the
   * fastest row when no row is that fast.
   */
  lemma SelectRoundsUp(t: seq<Identifier>, bus: nat, fq: int)
    requires |t| > 0 && NonIncreasingMHz(t, bus)
    ensures var i := SelectIndex(t, bus, fq);
      && (fq <= MsrToMHz(t[0], bus) ==> MsrToMHz(t[i], bus) >= fq)
      && (fq > MsrToMHz(t[0], bus) ==> i == 0)
      && (forall j :: 0 <= j < |t| && MsrToMHz(t[j], bus) >= fq ==> MsrToMHz(t[i], bus) <= MsrToMHz(t[j], bus))
  {
    var i := SelectIndex(t, bus, fq);
    if fq > MsrToMHz(t[0], bus) && i > 0 {
      MHzBelow(t, bus, 0, i);
      assert false;
    }
    forall j | 0 <= j < |t| && MsrToMHz(t[j], bus) >= fq
      ensures MsrToMHz(t[i], bus) <= MsrToMHz(t[j], bus)
    {
      if j <= i {
        MHzBelow(t, bus, j, i);
      }
    }
  }

  /** A request for exactly the frequency of some row selects a row of exactly that frequency. */
  lemma SelectExact(t: seq<Identifier>, bus: nat, k: nat)
    requires k < |t| && NonIncreasingMHz(t, bus)
    ensures MsrToMHz(t[SelectIndex(t, bus, MsrToMHz(t[k], bus))], bus) == MsrToMHz(t[k], bus)
  {
    var fq := MsrToMHz(t[k], bus);
    SelectRoundsUp(t, bus, fq);
    MHzBelow(t, bus, 0, k);
  }

  /**
   * Selecting again for the frequency just selected lands on the same
   * frequency: the selection is idempotent on the frequencies it produces.
   */
  lemma SelectSettles(t: seq<Identifier>, bus: nat, fq: int)
    requires |t| > 0 && NonIncreasingMHz(t, bus)
    ensures var f := MsrToMHz(t[SelectIndex(t, bus, fq)], bus);
      MsrToMHz(t[SelectIndex(t, bus, f)], bus) == f
  {
    SelectExact(t, bus, SelectIndex(t, bus, fq));
  }
}
