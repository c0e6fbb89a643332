/** The debugger's view of the CPU registers while the core is stopped. */
module DebugPort {
  import opened Bytes
  import opened RegisterFile
  import opened Isa
  import opened CpuCore
  import opened CpuSteps

  /** Selectors above 6 read as nothing in particular; zero here. */
  function DebugRead(q: Core, sel: nat): Byte {
    match sel
    case 0 => q.pcl
    case 1 => q.pch
    case 2 => q.r.ac
    case 3 => q.r.x
    case 4 => q.r.y
    case 5 => Status(q)
    case 6 => q.r.s
    case _ => 0
  }

  /** Writing a half of PC is a partial reset to T0; the stack pointer cannot be written. */
  function DebugWrite(q: Core, sel: nat, v: Byte): Core {
    match sel
    case 0 => q.(pcl := v, pcls := v, abl := v, t := 0)
    case 1 => q.(pch := v, pchs := v, abh := v, t := 0)
    case 2 => q.(r := q.r.(ac := v))
    case 3 => q.(r := q.r.(x := v))
    case 4 => q.(r := q.r.(y := v))
    case 5 => q.(r := SetStatus(q.r, v))
    case _ => q
  }

  /** After both halves of PC have been written, in whatever state the core was stopped, it is about to fetch
      the opcode there. */
  lemma PcWritten(q: Core, lo: Byte, hi: Byte)
    ensures AtFetch(DebugWrite(DebugWrite(q, 0, lo), 1, hi), Arch(q.r, ToWord(hi, lo), q.mem))
  {
  }

  /** What is written can be read back: in full except for the status, where bit 5 reads as one and bit 4 as
      the kind of interrupt last taken, and the stack pointer, which keeps its value. */
  lemma WriteThenRead(q: Core, sel: nat, v: Byte)
    requires sel <= 6
    ensures var r := DebugRead(DebugWrite(q, sel, v), sel);
      if sel == 6 then r == q.r.s
      else if sel == 5 then forall k :: k in {0, 1, 2, 3, 6, 7} ==> Bit(r, k) == Bit(v, k)
      else r == v
  {
    if sel == 5 {
      hide StatusByte, Bit;
      TopBit(v);
      forall k | k in {0, 1, 2, 3, 6, 7}
        ensures Bit(Status(DebugWrite(q, 5, v)), k) == Bit(v, k)
      {
        StatusBit(SetStatus(q.r, v), q.service.SOFT?, k);
      }
    }
  }

  lemma TopBit(v: Byte)
    ensures Bit(v, 7) == (v >= 0x80)
  {
    hide Bit, Pow2;
    Pow2Values();
    BitMod(v, 7);
  }
}
