/** The Bitcom analyzer (mod/bitcom/bitcom.go): a scan over an output script that, after
    an OP_RETURN and after every '|' separator that follows one, reads a protocol
    prefix and hands the rest of the section to the MAP, B or SIGMA decoder. */
module BitcomScan {
  import opened Base
  import opened Prims
  import opened Parser
  import opened Outpoints
  import opened Records
  import opened Txos
  import opened BitcomSection
  import BitcomMap
  import BitcomB
  import BitcomSigma

  /** The protocol prefixes: the MAP and B addresses, and the SIGMA keyword. */
  const MapPrefix: string := "1PuQa7K62MiKCtssSLKy1kh56WWU7MtUR5"
  const BPrefix: string := "19HxigV4QyBv3tHpQVcUEQyq1pzZVdoAut"
  const SigmaPrefix: string := "SIGMA"

  const EmptyBitcom := Bitcom(None, None, [])

  /** The scan as the source writes it, or with its two guards as evidently intended:
      a B section is decoded when none was yet (the source tests `bitcom.B != nil`),
      and an OP_RETURN at offset 0 counts as seen (the source keeps its offset and
      takes 0 for "none seen"). */
  datatype Variant = AsWritten | Intended

  /** The initial value of the OP_RETURN offset: 0 as written, -1 so that offset 0 is
      told apart as intended. */
  function NoOpReturn(g: Variant): int {
    if g == AsWritten then 0 else -1
  }

  /** Whether an OP_RETURN was seen, by the offset kept. */
  predicate SeenOpReturn(g: Variant, opReturn: int) {
    if g == AsWritten then opReturn > 0 else opReturn >= 0
  }

  /** Whether the B section is decoded, by the record so far. */
  predicate DecodesB(g: Variant, bc: Bitcom) {
    if g == AsWritten then bc.b.Some? else bc.b.None?
  }

  /** What `ParseBitcom(ctx, vout, &idx, bitcom)` leaves: the record and the cursor
      after the section read at `idx`, which follows an OP_RETURN or a '|'. A failed
      read leaves the record alone. An unknown prefix moves the cursor back one byte
      from where the prefix read left it, so the scan goes on from inside that push. */
  function SectionSpec(p: Prims, s: Bytes, inputs: seq<Outpoint>, idx: nat, bc: Bitcom,
                       g: Variant): (r: (Bitcom, nat))
    requires 1 <= idx
    ensures idx <= r.1
    ensures bc.sigmas <= r.0.sigmas && |r.0.sigmas| <= |bc.sigmas| + 1
    ensures bc.mapData.Some? ==> r.0.mapData == bc.mapData
    ensures g == AsWritten && bc.b.None? ==> r.0.b.None?
    ensures g == Intended && bc.b.Some? ==> r.0.b == bc.b
  {
    var rd := Decode(s, idx);
    if rd.outcome.Failed? then (bc, rd.idx)
    else
      var proto := Str(rd.outcome.op.data);
      if proto == MapPrefix then
        if bc.mapData.None? then
          var m := BitcomMap.ParseMAPSpec(p, s, rd.idx);
          (bc.(mapData := m.0), m.1)
        else (bc, rd.idx)
      else if proto == BPrefix then
        if DecodesB(g, bc) then
          var f := BitcomB.ParseBSpec(p, s, rd.idx);
          (bc.(b := Some(f.0)), f.1)
        else (bc, rd.idx)
      else if proto == SigmaPrefix then
        var sg := BitcomSigma.ParseSigmaSpec(p, s, inputs, idx, rd.idx);
        (if sg.0.Some? then bc.(sigmas := bc.sigmas + [sg.0.value]) else bc, sg.1)
      else (bc, rd.idx - 1)
  }

  /** What the loop of `Bitcom.Parse` computes from cursor `i`, with the OP_RETURN
      offset kept so far and the record so far. */
  function Scan(p: Prims, s: Bytes, inputs: seq<Outpoint>, i: nat, opReturn: int,
                bc: Bitcom, g: Variant): (r: Bitcom)
    decreases |s| - i
  {
    if i >= |s| then bc
    else
      var rd := Decode(s, i);
      if rd.outcome.Failed? then bc
      else if rd.outcome.op.opCode == OP_RETURN then
        var o := if opReturn == NoOpReturn(g) then i else opReturn;
        var sec := SectionSpec(p, s, inputs, rd.idx, bc, g);
        Scan(p, s, inputs, sec.1, o, sec.0, g)
      else if rd.outcome.op.opCode == OP_DATA1 && rd.outcome.op.data[0] == PipeByte
              && SeenOpReturn(g, opReturn) then
        var sec := SectionSpec(p, s, inputs, rd.idx, bc, g);
        Scan(p, s, inputs, sec.1, opReturn, sec.0, g)
      else Scan(p, s, inputs, rd.idx, opReturn, bc, g)
  }

  /** The Bitcom record of a whole script. */
  function ScriptBitcom(p: Prims, s: Bytes, inputs: seq<Outpoint>, g: Variant): Bitcom {
    Scan(p, s, inputs, 0, NoOpReturn(g), EmptyBitcom, g)
  }

  method ParseBitcom(p: Prims, s: Bytes, inputs: seq<Outpoint>, idx: nat, bc: Bitcom,
                     g: Variant) returns (r: Bitcom, next: nat)
    requires 1 <= idx
    ensures (r, next) == SectionSpec(p, s, inputs, idx, bc, g)
  {
    r := bc;
    var startIdx := idx;
    var op: Outcome;
    op, next := ReadOp(s, idx);
    if op.Failed? {
      return;
    }
    var proto := Str(op.op.data);
    if proto == MapPrefix {
      if r.mapData.None? {
        var m;
        m, next := BitcomMap.ParseMAP(p, s, next);
        r := r.(mapData := m);
      }
    } else if proto == BPrefix {
      if (g == AsWritten && r.b.Some?) || (g == Intended && r.b.None?) {
        var f;
        f, next := BitcomB.ParseB(p, s, next);
        r := r.(b := Some(f));
      }
    } else if proto == SigmaPrefix {
      var sigma;
      sigma, next := BitcomSigma.ParseSigma(p, s, inputs, startIdx, next);
      if sigma.Some? {
        r := r.(sigmas := r.sigmas + [sigma.value]);
      }
    } else {
      next := next - 1;
    }
  }

  /** The loop of `Bitcom.Parse` over the script. */
  method ParseScript(p: Prims, s: Bytes, inputs: seq<Outpoint>, g: Variant) returns (bc: Bitcom)
    ensures bc == ScriptBitcom(p, s, inputs, g)
  {
    var opReturn := NoOpReturn(g);
    bc := EmptyBitcom;
    var i := 0;
    while i < |s|
      invariant Scan(p, s, inputs, i, opReturn, bc, g) == ScriptBitcom(p, s, inputs, g)
      decreases |s| - i
    {
      var startI := i;
      var op: Outcome;
      op, i := ReadOp(s, i);
      if op.Failed? {
        break;
      }
      if op.op.opCode == OP_RETURN {
        if opReturn == NoOpReturn(g) {
          opReturn := startI;
        }
        bc, i := ParseBitcom(p, s, inputs, i, bc, g);
      } else if op.op.opCode == OP_DATA1 {
        if op.op.data[0] == PipeByte && SeenOpReturn(g, opReturn) {
          bc, i := ParseBitcom(p, s, inputs, i, bc, g);
        }
      }
    }
  }

  /** `Bitcom.Parse`: the Bitcom record of the output's script under the guards of
      variant `g` (the source runs `AsWritten`), always present; the source panics for
      an output index out of range, which the model reports as no entry. */
  function Parse(p: Prims, ctx: IndexContext, vout: nat, g: Variant): (r: ParseResult)
    ensures r.ctx == ctx
    ensures r.data.Some? <==> vout < |ctx.txos|
    ensures r.data.Some? ==>
      r.data.value == Entry(BitcomItem(ScriptBitcom(p, ctx.txos[vout].script, ctx.inputs, g)), [])
  {
    if vout < |ctx.txos| then
      var bc := ScriptBitcom(p, ctx.txos[vout].script, ctx.inputs, g);
      ParseResult(Some(Entry(BitcomItem(bc), [])), ctx)
    else ParseResult(None, ctx)
  }

  // ---------------------------------------------------------------------------
  // Properties

  /** Once a MAP section was decoded into the record, no later section replaces it. */
  lemma {:induction false} MapSetOnce(p: Prims, s: Bytes, inputs: seq<Outpoint>, i: nat,
                                      opReturn: int, bc: Bitcom, g: Variant)
    requires bc.mapData.Some?
    ensures Scan(p, s, inputs, i, opReturn, bc, g).mapData == bc.mapData
    decreases |s| - i
  {
    if i < |s| {
      var rd := Decode(s, i);
      if rd.outcome.Parsed? {
        var o := if rd.outcome.op.opCode == OP_RETURN && opReturn == NoOpReturn(g) then i else opReturn;
        if rd.outcome.op.opCode == OP_RETURN
           || (rd.outcome.op.opCode == OP_DATA1 && rd.outcome.op.data[0] == PipeByte
               && SeenOpReturn(g, opReturn)) {
          var sec := SectionSpec(p, s, inputs, rd.idx, bc, g);
          MapSetOnce(p, s, inputs, sec.1, o, sec.0, g);
        } else {
          MapSetOnce(p, s, inputs, rd.idx, opReturn, bc, g);
        }
      }
    }
  }

  /** Signatures are only ever appended: the record's signatures so far stay a prefix. */
  lemma {:induction false} SigmasAppended(p: Prims, s: Bytes, inputs: seq<Outpoint>, i: nat,
                                          opReturn: int, bc: Bitcom, g: Variant)
    ensures bc.sigmas <= Scan(p, s, inputs, i, opReturn, bc, g).sigmas
    decreases |s| - i
  {
    if i < |s| {
      var rd := Decode(s, i);
      if rd.outcome.Parsed? {
        var o := if rd.outcome.op.opCode == OP_RETURN && opReturn == NoOpReturn(g) then i else opReturn;
        if rd.outcome.op.opCode == OP_RETURN
           || (rd.outcome.op.opCode == OP_DATA1 && rd.outcome.op.data[0] == PipeByte
               && SeenOpReturn(g, opReturn)) {
          var sec := SectionSpec(p, s, inputs, rd.idx, bc, g);
          SigmasAppended(p, s, inputs, sec.1, o, sec.0, g);
        } else {
          SigmasAppended(p, s, inputs, rd.idx, opReturn, bc, g);
        }
      }
    }
  }

  /** As written, the B guard never lets a B section through: a record without a file
      never gets one, whatever the script. */
  lemma {:induction false} NeverB(p: Prims, s: Bytes, inputs: seq<Outpoint>, i: nat,
                                  opReturn: int, bc: Bitcom)
    requires bc.b.None?
    ensures Scan(p, s, inputs, i, opReturn, bc, AsWritten).b.None?
    decreases |s| - i
  {
    var g := AsWritten;
    if i < |s| {
      var rd := Decode(s, i);
      if rd.outcome.Parsed? {
        var o := if rd.outcome.op.opCode == OP_RETURN && opReturn == NoOpReturn(g) then i else opReturn;
        if rd.outcome.op.opCode == OP_RETURN
           || (rd.outcome.op.opCode == OP_DATA1 && rd.outcome.op.data[0] == PipeByte
               && SeenOpReturn(g, opReturn)) {
          var sec := SectionSpec(p, s, inputs, rd.idx, bc, g);
          NeverB(p, s, inputs, sec.1, o, sec.0);
        } else {
          NeverB(p, s, inputs, rd.idx, opReturn, bc);
        }
      }
    }
  }

  /** As intended, the first B section after a separator is decoded into the record. */
  lemma BSectionRead(p: Prims, s: Bytes, inputs: seq<Outpoint>, idx: nat, bc: Bitcom)
    requires 1 <= idx && bc.b.None?
    requires ReadsPush(s, idx, Ascii(BPrefix))
    ensures var pos := Decode(s, idx).idx;
      SectionSpec(p, s, inputs, idx, bc, Intended)
        == (bc.(b := Some(BitcomB.ParseBSpec(p, s, pos).0)), BitcomB.ParseBSpec(p, s, pos).1)
  {
    PrefixesDistinct();
    StrAscii(BPrefix);
  }

  lemma PrefixesDistinct()
    ensures IsByteText(MapPrefix) && IsByteText(BPrefix) && IsByteText(SigmaPrefix)
    ensures BPrefix != MapPrefix && BPrefix != SigmaPrefix && MapPrefix != SigmaPrefix
  {
    assert BPrefix[1] == '9' && MapPrefix[1] == 'P';
  }

  /** As intended, a '|' after an OP_RETURN starts a section wherever the OP_RETURN was,
      offset 0 included. */
  lemma PipeAfterOpReturn(p: Prims, s: Bytes, inputs: seq<Outpoint>, i: nat, opReturn: int,
                          bc: Bitcom)
    requires opReturn >= 0 && i + 1 < |s| && s[i] == OP_DATA1 && s[i + 1] == PipeByte
    ensures var sec := SectionSpec(p, s, inputs, i + 2, bc, Intended);
      Scan(p, s, inputs, i, opReturn, bc, Intended)
        == Scan(p, s, inputs, sec.1, opReturn, sec.0, Intended)
  {
    assert Decode(s, i).outcome.op.data == s[i + 1..i + 2];
  }

  // ---------------------------------------------------------------------------
  // Two scripts on which the source's guards and their evident intent part ways

  /** OP_RETURN, a push of the B address, and a one-byte file "A". */
  function BExample(): (s: Bytes)
    ensures |s| == 38
  {
    PrefixesDistinct();
    [OP_RETURN, 0x22] + Ascii(BPrefix) + [0x01, 0x41]
  }

  /** The ops of `BExample()`. */
  lemma BExampleOps()
    ensures IsByteText(BPrefix)
    ensures Decode(BExample(), 0) == Read(Parsed(OpPart(OP_RETURN, [], 0)), 1)
    ensures ReadsPush(BExample(), 1, Ascii(BPrefix)) && Decode(BExample(), 1).idx == 36
    ensures Decode(BExample(), 36) == Read(Parsed(OpPart(0x01, [0x41], 1)), 38)
    ensures Decode(BExample(), 38).outcome.Failed?
  {
    var s := BExample();
    PrefixesDistinct();
    var addr := Ascii(BPrefix);
    assert s[0] == OP_RETURN && s[1] == 0x22 && s[2..36] == addr;
    assert s[36] == 0x01 && s[37..38] == [0x41];
  }

  /** The B section of `BExample()`: the one push is the content. */
  lemma BExampleFile(p: Prims)
    ensures BitcomB.ParseBSpec(p, BExample(), 36) == (File(p.sha256([0x41]), 1, "", [0x41], "", ""), 38)
  {
    var s := BExample();
    BExampleOps();
    PushesAtEnd(s, 38, 3);
    PushesUnfold(s, 36, 4);
    assert [[0x41]] + [] == [[0x41]];
    assert Pushes(s, 36, 4) == ([[0x41]], 38);
  }

  /** The B file of `BExample()`: never recorded as written, recorded as intended. */
  lemma BGuardExample(p: Prims, inputs: seq<Outpoint>)
    ensures ScriptBitcom(p, BExample(), inputs, AsWritten).b == None
    ensures ScriptBitcom(p, BExample(), inputs, Intended).b
            == Some(File(p.sha256([0x41]), 1, "", [0x41], "", ""))
  {
    var s := BExample();
    NeverB(p, s, inputs, 0, NoOpReturn(AsWritten), EmptyBitcom);
    BExampleOps();
    BSectionRead(p, s, inputs, 1, EmptyBitcom);
    BExampleFile(p);
  }

  /** The analyzer as the source runs it never records a B file. */
  lemma ParseNeverB(p: Prims, ctx: IndexContext, vout: nat)
    requires vout < |ctx.txos|
    ensures Parse(p, ctx, vout, AsWritten).data.value.item.bitcom.b.None?
  {
    NeverB(p, ctx.txos[vout].script, ctx.inputs, 0, NoOpReturn(AsWritten), EmptyBitcom);
  }

  /** OP_RETURN at offset 0, OP_1, a '|' separator, a push of the MAP address and the
      "SET" command with no pairs after it. */
  function PipeExample(): (s: Bytes)
    ensures |s| == 43
  {
    PrefixesDistinct();
    [OP_RETURN, 0x51, OP_DATA1, PipeByte, 0x22] + Ascii(MapPrefix) + [0x03] + BitcomMap.SetCommand
  }

  /** The ops of `PipeExample()`. */
  lemma PipeExampleOps()
    ensures IsByteText(MapPrefix)
    ensures Decode(PipeExample(), 0) == Read(Parsed(OpPart(OP_RETURN, [], 0)), 1)
    ensures Decode(PipeExample(), 1) == Read(Parsed(OpPart(0x51, [], 0)), 2)
    ensures Decode(PipeExample(), 2) == Read(Parsed(OpPart(OP_DATA1, [PipeByte], 1)), 4)
    ensures Decode(PipeExample(), 4) == Read(Parsed(OpPart(0x22, Ascii(MapPrefix), 0x22)), 39)
    ensures Decode(PipeExample(), 39) == Read(Parsed(OpPart(0x03, BitcomMap.SetCommand, 3)), 43)
    ensures Decode(PipeExample(), 43).outcome.Failed?
  {
    var s := PipeExample();
    PrefixesDistinct();
    assert s[..5] == [OP_RETURN, 0x51, OP_DATA1, PipeByte, 0x22];
    assert s[3..4] == [PipeByte];
    assert s[5..39] == Ascii(MapPrefix) && s[39] == 0x03 && s[40..43] == BitcomMap.SetCommand;
  }

  /** The prefix read after the OP_RETURN of `PipeExample()` is OP_1, which names no
      protocol: the cursor goes back to it. */
  lemma PipeExampleFirstSection(p: Prims, inputs: seq<Outpoint>, g: Variant)
    ensures SectionSpec(p, PipeExample(), inputs, 1, EmptyBitcom, g) == (EmptyBitcom, 1)
  {
    PipeExampleOps();
    assert Str([]) == "";
  }

  /** The section after the '|' of `PipeExample()`, when it is read: an empty map. */
  lemma PipeExampleMapSection(p: Prims, inputs: seq<Outpoint>)
    ensures SectionSpec(p, PipeExample(), inputs, 4, EmptyBitcom, Intended)
            == (EmptyBitcom.(mapData := Some(map[])), 43)
  {
    var s := PipeExample();
    PipeExampleOps();
    StrAscii(MapPrefix);
    assert BitcomMap.Pairs(s, 43) == ([], 43);
    assert BitcomMap.ParseMAPSpec(p, s, 39) == (Some(map[]), 43);
  }

  /** The MAP data of `PipeExample()`: missed as written, because the OP_RETURN sits at
      offset 0; an empty map as intended. */
  lemma PipeExampleMap(p: Prims, inputs: seq<Outpoint>)
    ensures ScriptBitcom(p, PipeExample(), inputs, AsWritten).mapData == None
    ensures ScriptBitcom(p, PipeExample(), inputs, Intended).mapData == Some(map[])
  {
    var s := PipeExample();
    PipeExampleOps();
    PipeExampleFirstSection(p, inputs, AsWritten);
    PipeExampleFirstSection(p, inputs, Intended);
    PipeExampleMapSection(p, inputs);
    assert Scan(p, s, inputs, 39, 0, EmptyBitcom, AsWritten) == EmptyBitcom;
    assert Scan(p, s, inputs, 2, 0, EmptyBitcom, AsWritten) == EmptyBitcom;
    assert Scan(p, s, inputs, 2, 0, EmptyBitcom, Intended) == EmptyBitcom.(mapData := Some(map[]));
  }
}
