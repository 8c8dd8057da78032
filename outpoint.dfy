/** Transaction output references (types/outpoint.go): a transaction id and an output
    index, their text form "<hex txid>_<decimal vout>" and the 32-to-36-byte binary form
    that on-chain protocols embed. */
module Outpoints {
  import opened Base

  datatype Outpoint = Outpoint(txid: Bytes, vout: uint32)

  /** The distinct ways construction fails. `ShortPointer` stands for the out-of-range
      panic of reading a 4-byte vout from fewer than 4 remaining bytes. */
  datatype OutpointError = InvalidString | InvalidHex | InvalidVout | InvalidPointer | ShortPointer

  datatype Result<T> = Ok(value: T) | Err(error: OutpointError)

  /** `Outpoint.String`: the txid in lower-case hex, an underscore, the vout in decimal. */
  function ToString(o: Outpoint): (s: string)
    ensures |s| == 2 * |o.txid| + 1 + |FormatDecimal(o.vout)|
    ensures s[2 * |o.txid|] == '_'
    ensures forall i :: 0 <= i < 2 * |o.txid| ==> s[i] != '_'
    ensures IsByteText(s)
  {
    var h := HexEncode(o.txid);
    var s := h + "_" + FormatDecimal(o.vout);
    assert forall i :: 0 <= i < |h| ==> HexValue(h[i]).Some? && s[i] == h[i];
    s
  }

  /** `NewOutpointFromString`: at least 66 characters, the first 64 hex, and everything
      from index 65 on a decimal below 2^32. The character at index 64 is not examined. */
  function FromString(s: string): (r: Result<Outpoint>)
    ensures r == Err(InvalidString) <==> |s| < 66
    ensures r.Ok? ==> |s| >= 66 && Some(r.value.txid) == HexDecode(s[..64]) && |r.value.txid| == 32
    ensures r.Ok? ==> ParseUint(s[65..], 32) == Some(r.value.vout as nat)
    ensures r == Err(InvalidHex) <==> |s| >= 66 && HexDecode(s[..64]).None?
  {
    if |s| < 66 then Err(InvalidString)
    else match HexDecode(s[..64])
      case None => Err(InvalidHex)
      case Some(txid) =>
        match ParseUint(s[65..], 32)
        case None => Err(InvalidVout)
        case Some(v) => Pow2Of32(); Ok(Outpoint(txid, v))
  }

  /** `NewOutpointFromTxOutpoint`: 32 to 36 bytes, the first 32 the txid in reversed
      (wire) order and the rest its vout, little-endian. */
  function FromTxOutpoint(p: Bytes): (r: Result<Outpoint>)
    ensures r == Err(InvalidPointer) <==> |p| < 32 || |p| > 36
    ensures r.Ok? <==> |p| == 36
    ensures r.Ok? ==> r.value.txid == Reverse(p[..32]) && r.value.vout == LittleEndian(p[32..])
  {
    if |p| < 32 || |p| > 36 then Err(InvalidPointer)
    else if |p| < 36 then Err(ShortPointer)
    else
      assert Pow256(2) == 65536;
      assert Pow256(4) == 0x1_0000_0000;
      Ok(Outpoint(Reverse(p[..32]), LittleEndian(p[32..])))
  }

  /** The 36-byte form `NewOutpointFromTxOutpoint` reads: the txid byte-reversed, then
      the vout little-endian. It is the inverse of `FromTxOutpoint` (`TxOutpointRoundTrip`). */
  function ToTxOutpoint(o: Outpoint): (p: Bytes)
    ensures |p| == |o.txid| + 4
    ensures p[..|o.txid|] == Reverse(o.txid)
  {
    Reverse(o.txid) + LE32(o.vout)
  }

  // ---------------------------------------------------------------------------
  // Properties

  /** The text form of a 32-byte outpoint parses back to it. */
  lemma StringRoundTrip(o: Outpoint)
    requires |o.txid| == 32
    ensures FromString(ToString(o)) == Ok(o)
  {
    var s := ToString(o);
    var h := HexEncode(o.txid);
    assert s[..64] == h;
    assert s[65..] == FormatDecimal(o.vout);
    HexRoundTrip(o.txid);
    Pow2Of32();
    FormatDecimalRoundTrip(o.vout, 32);
  }

  /** The separator is never checked: any character in its place parses the same. */
  lemma SeparatorUnchecked(s: string, c: char)
    requires |s| >= 66
    ensures FromString(s[64 := c]) == FromString(s)
  {
    assert s[64 := c][..64] == s[..64];
    assert s[64 := c][65..] == s[65..];
  }

  /** Distinct outpoints have distinct text forms, whatever the txid lengths, so the text
      form is a sound storage key. */
  lemma ToStringInjective(a: Outpoint, b: Outpoint)
    requires ToString(a) == ToString(b)
    ensures a == b
  {
    var s := ToString(a);
    assert |a.txid| == |b.txid|;
    var n := 2 * |a.txid|;
    assert s[..n] == HexEncode(a.txid) && s[..n] == HexEncode(b.txid);
    HexEncodeInjective(a.txid, b.txid);
    assert s[n + 1..] == FormatDecimal(a.vout) && s[n + 1..] == FormatDecimal(b.vout);
    DigitsOfFormat(a.vout);
    DigitsOfFormat(b.vout);
  }

  /** The binary form of a 32-byte outpoint reads back to it. */
  lemma TxOutpointRoundTrip(o: Outpoint)
    requires |o.txid| == 32
    ensures FromTxOutpoint(ToTxOutpoint(o)) == Ok(o)
  {
    var p := ToTxOutpoint(o);
    assert p[..32] == Reverse(o.txid);
    assert p[32..] == LE32(o.vout);
    ReverseReverse(o.txid);
  }
}
