/**
 * The operating-point identifier of Enhanced SpeedStep: a 16-bit value whose
 * high byte is the frequency step (the bus-clock multiplier) and whose low
 * byte is the voltage step (16 mV units above 700 mV). The driver writes these
 * values straight into MSR_PERF_CTL, so packing and unpacking must be exact.
 *
 * The C macros use shifts and masks; on non-negative integers they are written
 * here as the equivalent arithmetic: `x >> 8 & 0xff` is `(x / 256) % 256`,
 * `x & 0xff` is `x % 256`, and `(f << 8) | v` is `f * 256 + v` when `v < 256`.
 */
module Codec {

  /** A uint16_t operating-point identifier. */
  type Identifier = x: int | 0 <= x < 0x1_0000

  /** One byte: a frequency step or a voltage step. */
  type Byte = x: int | 0 <= x < 0x100

  /** The nominal bus clocks, in units of 10 kHz (MHz multiplied by 100 for rounding). */
  const Bus100: nat := 10000
  const Bus133: nat := 13333
  const Bus166: nat := 16666
  const Bus200: nat := 20000

  /** MSR2FREQINC: bits 8..15 of a register value or identifier. */
  function FreqInc(msr: nat): Byte
  {
    (msr / 256) % 256
  }

  /** MSR2VOLTINC: bits 0..7 of a register value or identifier. */
  function VoltInc(msr: nat): Byte
  {
    msr % 256
  }

  /** MSR2MHZ: the frequency step times the bus clock, rounded to whole MHz. */
  function MsrToMHz(msr: nat, bus: nat): nat
  {
    (FreqInc(msr) * bus + 50) / 100
  }

  /** MSR2MV: the voltage step in millivolts. */
  function MsrToMV(msr: nat): nat
  {
    VoltInc(msr) * 16 + 700
  }

  /** PHC_ID16: packs a raw frequency step and voltage step. */
  function PhcId16(fid: Byte, vid: Byte): (r: Identifier)
    ensures FreqInc(r) == fid && VoltInc(r) == vid
  {
    fid * 256 + vid
  }

  /**
   * ID16: the identifier of a catalog operating point given in MHz and mV.
   * The frequency step is the largest multiplier whose frequency does not
   * exceed the given one by more than half a MHz; the voltage step is the
   * largest whose voltage does not exceed the given one (0 mV encodes as 0).
   */
  function Id16(mhz: nat, mv: nat, bus: nat): (r: Identifier)
    requires bus > 0
    requires (mhz * 100 + 50) / bus < 256
    requires mv == 0 || 700 <= mv < 700 + 256 * 16
    ensures FreqInc(r) * bus <= mhz * 100 + 50 < (FreqInc(r) + 1) * bus
    ensures mv == 0 ==> VoltInc(r) == 0
    ensures mv != 0 ==> MsrToMV(r) <= mv < MsrToMV(r) + 16
  {
    var fid := (mhz * 100 + 50) / bus;
    var vid := if mv != 0 then (mv - 700) / 16 else 0;
    PhcId16(fid, vid)
  }

  /** Unpacking after packing gives back the two bytes. */
  lemma UnpackPack(fid: Byte, vid: Byte)
    ensures FreqInc(PhcId16(fid, vid)) == fid
    ensures VoltInc(PhcId16(fid, vid)) == vid
  {
  }

  /** Packing after unpacking gives back the identifier. */
  lemma PackUnpack(id: Identifier)
    ensures PhcId16(FreqInc(id), VoltInc(id)) == id
  {
    var q := id / 256;
    assert id == q * 256 + id % 256;
    assert q < 256;
    assert FreqInc(id) == q;
  }

  /** On the 100 MHz bus a frequency step is exactly 100 MHz. */
  lemma MHzOnBus100(id: Identifier)
    ensures MsrToMHz(id, Bus100) == FreqInc(id) * 100
  {
  }

  /** The millivolt decoding is `vid * 16 + 700` for every packed pair. */
  lemma MilliVoltsOfPacked(fid: Byte, vid: Byte)
    ensures MsrToMV(PhcId16(fid, vid)) == vid * 16 + 700
  {
  }

  /** A catalog point given in whole hundreds of MHz on the 100 MHz bus decodes to exactly that frequency. */
  lemma Id16ExactOnBus100(mhz: nat, mv: nat)
    requires mhz % 100 == 0 && mhz < 25600
    requires mv == 0 || 700 <= mv < 700 + 256 * 16
    ensures MsrToMHz(Id16(mhz, mv, Bus100), Bus100) == mhz
  {
    var r := Id16(mhz, mv, Bus100);
    assert FreqInc(r) == mhz / 100;
  }

  /** A larger frequency step never decodes to a lower frequency. */
  lemma MHzMonotone(a: nat, b: nat, bus: nat)
    requires FreqInc(a) >= FreqInc(b)
    ensures MsrToMHz(a, bus) >= MsrToMHz(b, bus)
  {
    assert FreqInc(a) * bus >= FreqInc(b) * bus by {
      assert (FreqInc(a) - FreqInc(b)) * bus >= 0;
    }
  }
}
