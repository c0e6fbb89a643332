/** The host's ROM loader: it checks the header and sends one packet after the other. */
module RomSender {
  import opened Bytes
  import opened Packets
  import opened HciFraming
  import opened RomLoad

  lemma EncodeFirst(p: Packet, ps: seq<Packet>)
    requires p.Valid() && Session([p] + ps) && Session(ps)
    ensures EncodeAll([p] + ps) == Encode(p) + EncodeAll(ps)
  {
    hide Encode;
    assert ([p] + ps)[1..] == ps;
  }

  lemma EncodeThree(a: Packet, b: Packet, c: Packet)
    requires a.Valid() && b.Valid() && c.Valid() && !a.DbgRun? && !b.DbgRun?
    ensures Session([a, b, c]) && EncodeAll([a, b, c]) == Encode(a) + Encode(b) + Encode(c)
  {
    hide Encode;
    assert [a, b, c] == [a] + [b, c] && [b, c] == [b] + [c] && [c] == [c] + [];
    assert [b, c][0] == [a, b, c][1] && [b, c][1] == [a, b, c][2];
    EncodeFirst(a, [b, c]);
    EncodeFirst(b, [c]);
    EncodeFirst(c, []);
  }

  /** What SendRom puts on the wire: nothing for a file it does not accept. */
  method SendRom(file: array<Byte>) returns (ok: bool, sent: seq<Byte>)
    requires file.Length == 0x10_0000
    ensures ok == Accepted(file[..])
    ensures sent == if ok then EncodeAll(LoadPackets(file[..])) else []
  {
    hide EncodeAll, Encode, PrgPackets, ChrPackets, Bit, LoadPackets;
    ghost var f: File := file[..];
    ok := file[0] == 0x4E && file[1] == 0x45 && file[2] == 0x53 && file[3] == 0x1A && file[4] <= 2 && file[5] <= 1 &&
      !Bit(file[6], 3) && file[6] / 16 == 0 && file[7] / 16 == 0;
    sent := [];
    if ok {
      var prgBanks: int, chrBanks: int := file[4], file[5];
      var prgSize, chrSize := prgBanks * 0x4000, chrBanks * 0x2000;
      sent := Encode(DbgHlt) + Encode(PpuDisable) + Encode(CartSetCfg(file[4..9]));
      EncodeThree(DbgHlt, PpuDisable, CartSetCfg(f[4..9]));
      var prg := SendPrg(file, prgSize / BLOCK);
      var chr := SendChr(file, 16 + prgSize, chrSize / BLOCK);
      var lo, hi := file[16 + prgSize - 4], file[16 + prgSize - 3];
      sent := sent + prg + chr + Encode(CpuRegWr(0, lo)) + Encode(CpuRegWr(1, hi)) + Encode(DbgRun);
      EncodeThree(CpuRegWr(0, lo), CpuRegWr(1, hi), DbgRun);
      EncodeParts(f);
    }
  }

  lemma EncodeParts(f: File)
    requires Accepted(f)
    ensures EncodeAll(LoadPackets(f)) == EncodeAll(Setup(f)) + EncodeAll(PrgPackets(f, 0, PrgSize(f) / BLOCK)) +
      EncodeAll(ChrPackets(f, 16 + PrgSize(f), 0, ChrSize(f) / BLOCK)) + EncodeAll(Finish(f))
  {
    hide EncodeAll, Encode, PrgPackets, ChrPackets, Bit;
    var ps, cs := PrgPackets(f, 0, PrgSize(f) / BLOCK), ChrPackets(f, 16 + PrgSize(f), 0, ChrSize(f) / BLOCK);
    BlocksFill(f);
    EncodeAdds(cs, Finish(f));
    EncodeAdds(ps, cs + Finish(f));
    EncodeAdds(Setup(f), ps + (cs + Finish(f)));
  }

  /** The loop over program blocks. */
  method SendPrg(file: array<Byte>, total: nat) returns (sent: seq<Byte>)
    requires file.Length == 0x10_0000 && total <= 32
    ensures sent == EncodeAll(PrgPackets(file[..], 0, total))
  {
    hide EncodeAll, Encode, PrgPackets, Pair;
    ghost var f: File := file[..];
    sent := [];
    for i := 0 to total
      invariant sent + EncodeAll(PrgPackets(f, i, total)) == EncodeAll(PrgPackets(f, 0, total))
    {
      var packet := BuildMemWr(0x02, 0x8000 + BLOCK * i, file, 16 + BLOCK * i, BLOCK);
      PrgBlock(f, i, total);
      sent := sent + packet[..];
    }
    PrgDone(f, total);
  }

  lemma PrgBlock(f: File, i: nat, total: nat)
    requires i < total <= 32
    ensures EncodeAll(PrgPackets(f, i, total)) ==
      [0x02] + Pair(0x8000 + BLOCK * i) + Pair(BLOCK) + f[16 + BLOCK * i..16 + BLOCK * i + BLOCK] +
      EncodeAll(PrgPackets(f, i + 1, total))
  {
    hide EncodeAll, Encode;
    var p := CpuMemWr(0x8000 + BLOCK * i, f[16 + BLOCK * i..16 + BLOCK * i + BLOCK]);
    EncodeMemWr(p);
    EncodeFirst(p, PrgPackets(f, i + 1, total));
  }

  lemma PrgDone(f: File, total: nat)
    requires total <= 32
    ensures EncodeAll(PrgPackets(f, total, total)) == []
  {
  }

  /** The loop over character blocks. */
  method SendChr(file: array<Byte>, start: nat, total: nat) returns (sent: seq<Byte>)
    requires file.Length == 0x10_0000 && total <= 8 && start <= 0x10000
    ensures sent == EncodeAll(ChrPackets(file[..], start, 0, total))
  {
    hide EncodeAll, Encode, ChrPackets, Pair;
    ghost var f: File := file[..];
    sent := [];
    for i := 0 to total
      invariant sent + EncodeAll(ChrPackets(f, start, i, total)) == EncodeAll(ChrPackets(f, start, 0, total))
    {
      var packet := BuildMemWr(0x0A, BLOCK * i, file, start + BLOCK * i, BLOCK);
      ChrBlock(f, start, i, total);
      sent := sent + packet[..];
    }
    ChrDone(f, start, total);
  }

  lemma ChrBlock(f: File, start: nat, i: nat, total: nat)
    requires i < total <= 8 && start <= 0x10000
    ensures EncodeAll(ChrPackets(f, start, i, total)) ==
      [0x0A] + Pair(BLOCK * i) + Pair(BLOCK) + f[start + BLOCK * i..start + BLOCK * i + BLOCK] +
      EncodeAll(ChrPackets(f, start, i + 1, total))
  {
    hide EncodeAll, Encode;
    var p := PpuMemWr(BLOCK * i, f[start + BLOCK * i..start + BLOCK * i + BLOCK]);
    EncodeMemWr(p);
    EncodeFirst(p, ChrPackets(f, start, i + 1, total));
  }

  lemma ChrDone(f: File, start: nat, total: nat)
    requires total <= 8 && start <= 0x10000
    ensures EncodeAll(ChrPackets(f, start, total, total)) == []
  {
  }

  lemma EncodeMemWr(p: Packet)
    requires p.Valid()
    ensures p.CpuMemWr? ==> Encode(p) == [0x02] + Pair(p.addr) + Pair(|p.data|) + p.data
    ensures p.PpuMemWr? ==> Encode(p) == [0x0A] + Pair(p.addr) + Pair(|p.data|) + p.data
  {
  }
}
