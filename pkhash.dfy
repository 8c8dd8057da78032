/** Owner extraction from a pay-to-public-key-hash locking script (types/pkhash.go). */
module PKHash {
  import opened Base
  import opened Parser

  /** The outcome of `NewPKHashFromScript`: an error from op parsing, or a possibly
      absent 20-byte hash. */
  datatype HashResult = ParseError | Found(hash: Option<Bytes>)

  /** The byte-level P2PKH template: OP_DUP OP_HASH160 <20-byte push> OP_EQUALVERIFY
      OP_CHECKSIG, exactly 25 bytes (go-sdk's `Script.IsP2PKH`). */
  predicate IsP2PKH(t: Bytes) {
    |t| == 25 && t[0] == OP_DUP && t[1] == OP_HASH160 && t[2] == OP_DATA20
    && t[23] == OP_EQUALVERIFY && t[24] == OP_CHECKSIG
  }

  /** The five-op pattern the source checks on the parsed operations. */
  predicate IsP2PKHOps(parts: seq<OpPart>) {
    |parts| >= 5 && parts[0].opCode == OP_DUP && parts[1].opCode == OP_HASH160
    && |parts[2].data| == 20 && parts[3].opCode == OP_EQUALVERIFY && parts[4].opCode == OP_CHECKSIG
  }

  /** `NewPKHashFromScript`: scripts shorter than 25 bytes give no hash and no error;
      otherwise only the first 25 bytes are parsed, a parse error is reported, and the
      hash is the data of the third op when the five ops form the P2PKH pattern. */
  function NewPKHashFromScript(s: Bytes): (r: HashResult)
    ensures |s| < 25 ==> r == Found(None)
    ensures r == ParseError <==> |s| >= 25 && ParseOps(s[..25]).None?
    ensures r.Found? && r.hash.Some? ==> |r.hash.value| == 20
  {
    if |s| < 25 then Found(None)
    else match ParseOps(s[..25])
      case None => ParseError
      case Some(parts) =>
        if IsP2PKHOps(parts) then Found(Some(parts[2].data)) else Found(None)
  }

  /** One step of `ParseOps`: a successful parse from a cursor before the end starts with
      the op decoded there and continues from the cursor that op leaves. */
  lemma ParseOpsStep(b: Bytes, idx: nat, parts: seq<OpPart>)
    requires idx < |b| && ParseOps(b, idx) == Some(parts)
    ensures Decode(b, idx).outcome.Parsed?
    ensures |parts| >= 1 && parts[0] == Decode(b, idx).outcome.op
    ensures ParseOps(b, Decode(b, idx).idx) == Some(parts[1..])
  {
  }

  /** A hash is found exactly when the first 25 bytes are the byte-level P2PKH template,
      and it is then bytes 3..23 of the script. */
  lemma {:induction false} FoundIffTemplate(s: Bytes)
    requires |s| >= 25
    ensures NewPKHashFromScript(s).Found? && NewPKHashFromScript(s).hash.Some?
            <==> IsP2PKH(s[..25])
    ensures IsP2PKH(s[..25]) ==> NewPKHashFromScript(s) == Found(Some(s[3..23]))
  {
    var t := s[..25];
    if IsP2PKH(t) {
      TemplateParses(t);
      assert t[3..23] == s[3..23];
    }
    var r := NewPKHashFromScript(s);
    if r.Found? && r.hash.Some? {
      var parts :| ParseOps(t) == Some(parts);
      PatternIsTemplate(t, parts);
    }
  }

  /** The template parses to exactly the five expected operations. */
  lemma TemplateParses(t: Bytes)
    requires IsP2PKH(t)
    ensures ParseOps(t) == Some([OpPart(OP_DUP, [], 0), OpPart(OP_HASH160, [], 0),
                                 OpPart(OP_DATA20, t[3..23], 20),
                                 OpPart(OP_EQUALVERIFY, [], 0), OpPart(OP_CHECKSIG, [], 0)])
  {
    var p0, p1, p2 := OpPart(OP_DUP, [], 0), OpPart(OP_HASH160, [], 0), OpPart(OP_DATA20, t[3..23], 20);
    var p3, p4 := OpPart(OP_EQUALVERIFY, [], 0), OpPart(OP_CHECKSIG, [], 0);
    assert ParseOps(t, 25) == Some([]);
    assert Decode(t, 24) == Read(Parsed(p4), 25);
    assert ParseOps(t, 24) == Some([p4] + []);
    assert [p4] + [] == [p4];
    assert Decode(t, 23) == Read(Parsed(p3), 24);
    assert ParseOps(t, 23) == Some([p3] + [p4]);
    assert [p3] + [p4] == [p3, p4];
    assert Decode(t, 2) == Read(Parsed(p2), 23);
    assert ParseOps(t, 2) == Some([p2] + [p3, p4]);
    assert [p2] + [p3, p4] == [p2, p3, p4];
    assert Decode(t, 1) == Read(Parsed(p1), 2);
    assert ParseOps(t, 1) == Some([p1] + [p2, p3, p4]);
    assert [p1] + [p2, p3, p4] == [p1, p2, p3, p4];
    assert Decode(t, 0) == Read(Parsed(p0), 1);
    assert ParseOps(t, 0) == Some([p0] + [p1, p2, p3, p4]);
    assert [p0] + [p1, p2, p3, p4] == [p0, p1, p2, p3, p4];
  }

  /** Conversely, 25 bytes whose parse shows the five-op pattern are the template: the
      20-byte push cannot use a PUSHDATA header, for the last two ops would not fit. */
  lemma {:induction false} PatternIsTemplate(t: Bytes, parts: seq<OpPart>)
    requires |t| == 25 && ParseOps(t) == Some(parts) && IsP2PKHOps(parts)
    ensures IsP2PKH(t) && parts[2].data == t[3..23]
  {
    ParseOpsStep(t, 0, parts);
    var i1 := Decode(t, 0).idx;
    assert t[0] == OP_DUP && i1 == 1;
    ParseOpsStep(t, 1, parts[1..]);
    var i2 := Decode(t, 1).idx;
    assert t[1] == OP_HASH160 && i2 == 2;
    ParseOpsStep(t, 2, parts[2..]);
    var i3 := Decode(t, 2).idx;
    assert i3 >= 23;
    assert i3 != 25 by {
      assert ParseOps(t, i3) == Some(parts[3..]);
    }
    assert !IsPushData(t[2]);
    assert t[2] == OP_DATA20 && i3 == 23;
    ParseOpsStep(t, 23, parts[3..]);
    assert t[23] == OP_EQUALVERIFY;
    ParseOpsStep(t, 24, parts[4..]);
    assert t[24] == OP_CHECKSIG;
  }
}
