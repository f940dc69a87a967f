/**
 * The registers the driver reads and writes, seen from one processor:
 * MSR_PERF_STATUS, which the driver only reads, and MSR_PERF_CTL, which
 * msr_cpu_broadcast rewrites on every processor. Every broadcast the driver
 * makes is a read-modify-write of MSR_PERF_CTL with mask 0xffff, so it is
 * recorded by the value alone.
 */
module Hardware {
  import opened Codec
  import opened Resolver

  /** The register after a masked broadcast: its low 16 bits replaced by the value, the rest kept. */
  function AfterBroadcast(ctl: Msr64, value: Identifier): Msr64
  {
    (ctl / 0x1_0000) * 0x1_0000 + value
  }

  /** After a broadcast the register requests exactly the operating point written, whatever it held before. */
  lemma BroadcastSetsPoint(ctl: Msr64, value: Identifier, bus: nat)
    ensures FreqInc(AfterBroadcast(ctl, value)) == FreqInc(value)
    ensures VoltInc(AfterBroadcast(ctl, value)) == VoltInc(value)
    ensures MsrToMHz(AfterBroadcast(ctl, value), bus) == MsrToMHz(value, bus)
    ensures AfterBroadcast(ctl, value) / 0x1_0000 == ctl / 0x1_0000
  {
    var c := ctl / 0x1_0000;
    var r := AfterBroadcast(ctl, value);
    DivOfMulAdd(c, value, 0x1_0000);
    assert r == (c * 256 + value / 256) * 256 + value % 256;
    DivOfMulAdd(c * 256 + value / 256, value % 256, 256);
    DivOfMulAdd(c, value / 256, 256);
    DivOfMulAdd(c * 256, value % 256, 256);
  }

  /** The processors, as far as the driver sees them. */
  class Cpu {
    var perfCtl: Msr64
    var perfStatus: Msr64
    /** Every value broadcast to MSR_PERF_CTL, oldest first. */
    var broadcasts: seq<Identifier>

    constructor (ctl: Msr64, status: Msr64)
      ensures perfCtl == ctl && perfStatus == status && broadcasts == []
    {
      perfCtl := ctl;
      perfStatus := status;
      broadcasts := [];
    }

    /** msr_cpu_broadcast of MSR_PERF_CTL with mask 0xffff and msr_read set. */
    method Broadcast(value: Identifier)
      modifies this
      ensures perfCtl == AfterBroadcast(old(perfCtl), value)
      ensures perfStatus == old(perfStatus)
      ensures broadcasts == old(broadcasts) + [value]
    {
      perfCtl := AfterBroadcast(perfCtl, value);
      broadcasts := broadcasts + [value];
    }
  }
}
