/** When a block of CPU memory written by the debug unit reads back. */
module BlockMemory {
  import opened Bytes
  import opened Hci
  import opened HciFraming

  predicate Registers(a: Word) { 0x2000 <= a < 0x4000 }

  /** The block does not touch the PPU registers. */
  predicate Plain(addr: Word, n: nat) { forall i :: 0 <= i < n ==> !Registers(Add16(addr, i)) }

  /** Bytes for unmapped addresses are zero, and where two addresses share a cell the bytes agree. */
  predicate Consistent(cfg: Config, addr: Word, data: seq<Byte>) {
    (forall i :: 0 <= i < |data| && Unmapped(Add16(addr, i)) ==> data[i] == 0) &&
    forall i, j :: 0 <= i < j < |data| && Shared(cfg, Add16(addr, i), Add16(addr, j)) ==> data[i] == data[j]
  }

  /** Two mapped addresses of one cell. */
  predicate Shared(cfg: Config, a: Word, b: Word) { !Unmapped(a) && !Unmapped(b) && CpuCell(cfg, a) == CpuCell(cfg, b) }

  lemma AddNothing(a: Word)
    ensures Add16(a, 0) == a
  {
  }

  lemma ShiftBlock(addr: Word)
    ensures forall i: nat :: Add16(Add16(addr, 1), i) == Add16(addr, 1 + i)
  {
    hide Add16;
    forall i: nat
      ensures Add16(Add16(addr, 1), i) == Add16(addr, 1 + i)
    {
      Add16Adds(addr, 1, i);
    }
  }

  /** Cell c is not behind any of n addresses. */
  predicate Untouched(cfg: Config, addr: Word, n: nat, c: Word) {
    forall i :: 0 <= i < n && !Unmapped(Add16(addr, i)) ==> CpuCell(cfg, Add16(addr, i)) != c
  }

  /** A block write leaves alone the address map and all cells that are not among its own. */
  lemma {:induction false} WriteLeaves(w: World, addr: Word, data: seq<Byte>, c: Word)
    ensures WriteCpu(w, addr, data).cfg == w.cfg
    ensures Untouched(w.cfg, addr, |data|, c) ==> WriteCpu(w, addr, data).cpu[c] == w.cpu[c]
    decreases |data|
  {
    hide CpuCell, Add16, Unmapped;
    if data == [] {
    } else {
      AddNothing(addr);
      ShiftBlock(addr);
      WriteLeaves(CpuWrite(w, addr, data[0]), Add16(addr, 1), data[1..], c);
      if Untouched(w.cfg, addr, |data|, c) {
        assert !Unmapped(Add16(addr, 0)) ==> CpuCell(w.cfg, Add16(addr, 0)) != c;
        forall i | 0 <= i < |data[1..]| && !Unmapped(Add16(Add16(addr, 1), i))
          ensures CpuCell(w.cfg, Add16(Add16(addr, 1), i)) != c
        {
          assert Add16(Add16(addr, 1), i) == Add16(addr, 1 + i);
        }
      }
    }
  }

  lemma ConsistentRest(cfg: Config, addr: Word, data: seq<Byte>)
    requires data != [] && Consistent(cfg, addr, data)
    ensures Consistent(cfg, Add16(addr, 1), data[1..])
    ensures forall i :: 0 <= i < |data| - 1 && Shared(cfg, addr, Add16(Add16(addr, 1), i)) ==> data[1..][i] == data[0]
  {
    hide Shared, Unmapped, Add16;
    AddNothing(addr);
    ShiftBlock(addr);
    forall i | 0 <= i < |data| - 1 && Shared(cfg, addr, Add16(Add16(addr, 1), i))
      ensures data[1..][i] == data[0]
    {
      assert Shared(cfg, Add16(addr, 0), Add16(addr, 1 + i));
    }
    forall i | 0 <= i < |data[1..]| && Unmapped(Add16(Add16(addr, 1), i))
      ensures data[1..][i] == 0
    {
      assert Unmapped(Add16(addr, 1 + i));
    }
    forall i, j | 0 <= i < j < |data[1..]| && Shared(cfg, Add16(Add16(addr, 1), i), Add16(Add16(addr, 1), j))
      ensures data[1..][i] == data[1..][j]
    {
      assert Shared(cfg, Add16(addr, 1 + i), Add16(addr, 1 + j));
    }
  }

  /** Every mapped address of a consistent block holds its byte afterwards. */
  lemma {:induction false} CellsHold(w: World, addr: Word, data: seq<Byte>, i: nat)
    requires Consistent(w.cfg, addr, data) && i < |data| && !Unmapped(Add16(addr, i))
    ensures var r := WriteCpu(w, addr, data); r.cfg == w.cfg && r.cpu[CpuCell(w.cfg, Add16(addr, i))] == data[i]
    decreases |data|
  {
    hide CpuCell, Add16, Consistent, Unmapped;
    var v, next := CpuWrite(w, addr, data[0]), Add16(addr, 1);
    AddNothing(addr);
    ShiftBlock(addr);
    ConsistentRest(w.cfg, addr, data);
    WriteLeaves(w, addr, data, 0);
    if i > 0 {
      CellsHold(v, next, data[1..], i - 1);
      assert Add16(next, i - 1) == Add16(addr, i);
    } else {
      WriteLeaves(v, next, data[1..], CpuCell(w.cfg, addr));
      if j :| 0 <= j < |data[1..]| && !Unmapped(Add16(next, j)) && CpuCell(v.cfg, Add16(next, j)) == CpuCell(w.cfg, addr) {
        CellsHold(v, next, data[1..], j);
        assert Shared(w.cfg, addr, Add16(next, j));
      }
    }
  }

  lemma {:induction false} ReadIs(w: World, addr: Word, n: nat, i: nat)
    requires i < n
    ensures ReadCpu(w, addr, n)[i] == CpuRead(w, Add16(addr, i))
    decreases n
  {
    hide CpuRead, Add16;
    AddNothing(addr);
    ShiftBlock(addr);
    if i > 0 {
      ReadIs(w, Add16(addr, 1), n - 1, i - 1);
      assert Add16(Add16(addr, 1), i - 1) == Add16(addr, 1 + (i - 1));
    }
  }

  /** A block that does not touch the PPU registers reads back exactly if it is consistent. */
  lemma ReadsBackIf(w: World, addr: Word, data: seq<Byte>)
    requires Plain(addr, |data|)
    ensures ReadCpu(WriteCpu(w, addr, data), addr, |data|) == data <==> Consistent(w.cfg, addr, data)
  {
    hide WriteCpu, ReadCpu, CpuCell, Add16, Consistent, Unmapped;
    var r := WriteCpu(w, addr, data);
    var s := ReadCpu(r, addr, |data|);
    WriteLeaves(w, addr, data, 0);
    forall i | 0 <= i < |data|
      ensures s[i] == if Unmapped(Add16(addr, i)) then 0 else r.cpu[CpuCell(w.cfg, Add16(addr, i))]
    {
      ReadIs(r, addr, |data|, i);
    }
    if Consistent(w.cfg, addr, data) {
      forall i | 0 <= i < |data|
        ensures s[i] == data[i]
      {
        if Unmapped(Add16(addr, i)) {
          ZeroThere(w.cfg, addr, data, i);
        } else {
          CellsHold(w, addr, data, i);
        }
      }
    }
    if s == data {
      ConsistentIf(w.cfg, addr, data, r.cpu);
    }
  }

  lemma ZeroThere(cfg: Config, addr: Word, data: seq<Byte>, i: nat)
    requires Consistent(cfg, addr, data) && i < |data| && Unmapped(Add16(addr, i))
    ensures data[i] == 0
  {
  }

  lemma ConsistentIf(cfg: Config, addr: Word, data: seq<Byte>, cells: CpuCells)
    requires forall i :: 0 <= i < |data| ==>
      data[i] == if Unmapped(Add16(addr, i)) then 0 else cells[CpuCell(cfg, Add16(addr, i))]
    ensures Consistent(cfg, addr, data)
  {
    hide CpuCell, Add16, Unmapped;
  }

  /** Nothing answers at 0x5000. */
  lemma UnmappedIsLost(w: World)
    ensures Plain(0x5000, 1) && ReadCpu(WriteCpu(w, 0x5000, [0xFF]), 0x5000, 1) == [0]
  {
    hide CpuCell;
    assert WriteCpu(CpuWrite(w, 0x5000, 0xFF), 0x5001, []) == w;
  }
}
