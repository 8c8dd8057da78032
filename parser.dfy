/** The Bitcoin Script opcode reader every protocol decoder is built on (lib/parser.go):
    one operation is decoded at a cursor, and the cursor is moved past it. */
module Parser {
  import opened Base

  const OP_0: byte := 0x00
  const OP_DATA1: byte := 0x01
  const OP_DATA3: byte := 0x03
  const OP_DATA20: byte := 0x14
  const OP_PUSHDATA1: byte := 0x4c
  const OP_PUSHDATA2: byte := 0x4d
  const OP_PUSHDATA4: byte := 0x4e
  const OP_16: byte := 0x60
  const OP_IF: byte := 0x63
  const OP_ENDIF: byte := 0x68
  const OP_RETURN: byte := 0x6a
  const OP_DUP: byte := 0x76
  const OP_EQUALVERIFY: byte := 0x88
  const OP_HASH160: byte := 0xa9
  const OP_CODESEPARATOR: byte := 0xab
  const OP_CHECKSIG: byte := 0xac

  /** One decoded operation: its opcode, its pushed bytes and their count (`OpPart`). */
  datatype OpPart = OpPart(opCode: byte, data: Bytes, len: nat)

  /** The two error conditions: the cursor is already at the end (the formatted
      "ReadOp" error) and a declared length exceeds what is left (`ErrDataTooSmall`). */
  datatype ReadError = EndOfScript | DataTooSmall

  datatype Outcome = Parsed(op: OpPart) | Failed(error: ReadError)

  /** What one call of `ReadOp` produces: the operation or the error, and the cursor the
      caller sees afterwards. */
  datatype Read = Read(outcome: Outcome, idx: nat)

  /** Width of the length header that follows a PUSHDATA opcode, in bytes. */
  function HeaderWidth(c: byte): nat
    requires c == OP_PUSHDATA1 || c == OP_PUSHDATA2 || c == OP_PUSHDATA4
  {
    if c == OP_PUSHDATA1 then 1 else if c == OP_PUSHDATA2 then 2 else 4
  }

  predicate IsPushData(c: byte) {
    c == OP_PUSHDATA1 || c == OP_PUSHDATA2 || c == OP_PUSHDATA4
  }

  predicate IsDirectPush(c: byte) {
    OP_DATA1 <= c < OP_PUSHDATA1
  }

  /** The decoding `ReadOp` performs at cursor `idx`. A successful read moves the cursor
      strictly forward, within the buffer, and the data is the slice just before the new
      cursor; a failed read never moves it backwards nor past the end. */
  function Decode(b: Bytes, idx: nat): (r: Read)
    ensures r.outcome.Parsed? ==>
      && idx < r.idx <= |b|
      && r.outcome.op.len == |r.outcome.op.data| < r.idx - idx
      && r.outcome.op.data == b[r.idx - |r.outcome.op.data| .. r.idx]
      && r.outcome.op.opCode == b[idx]
    ensures r.outcome.Parsed? && IsDirectPush(r.outcome.op.opCode) ==>
      r.outcome.op.len == r.outcome.op.opCode as nat
    ensures r.outcome.Failed? ==> r.idx == idx || (idx < r.idx <= |b|)
  {
    if |b| <= idx then Read(Failed(EndOfScript), idx)
    else
      var c := b[idx];
      if IsPushData(c) then
        var w := HeaderWidth(c);
        if |b| < idx + 1 + w then Read(Failed(DataTooSmall), idx)
        else
          var l := LittleEndian(b[idx + 1 .. idx + 1 + w]);
          var start := idx + 1 + w;
          if |b| < start + l then Read(Failed(DataTooSmall), start)
          else Read(Parsed(OpPart(c, b[start .. start + l], l)), start + l)
      else if IsDirectPush(c) then
        if |b| < idx + 1 + c then Read(Failed(DataTooSmall), idx)
        else Read(Parsed(OpPart(c, b[idx + 1 .. idx + 1 + c], c)), idx + 1 + c)
      else Read(Parsed(OpPart(c, [], 0)), idx + 1)
  }

  /** `ReadOp(b, &idx)`: the cursor is passed in and the moved cursor handed back. */
  method ReadOp(b: Bytes, idx: nat) returns (outcome: Outcome, next: nat)
    ensures Read(outcome, next) == Decode(b, idx)
  {
    next := idx;
    if |b| <= next {
      outcome := Failed(EndOfScript);
      return;
    }
    var c := b[next];
    if c == OP_PUSHDATA1 || c == OP_PUSHDATA2 || c == OP_PUSHDATA4 {
      var w := if c == OP_PUSHDATA1 then 1 else if c == OP_PUSHDATA2 then 2 else 4;
      if |b| < next + 1 + w {
        outcome := Failed(DataTooSmall);
        return;
      }
      var l := LittleEndian(b[next + 1 .. next + 1 + w]);
      next := next + 1 + w;
      if |b| < next + l {
        outcome := Failed(DataTooSmall);
        return;
      }
      outcome := Parsed(OpPart(c, b[next .. next + l], l));
      next := next + l;
    } else if OP_DATA1 <= c < OP_PUSHDATA1 {
      if |b| < next + 1 + c {
        outcome := Failed(DataTooSmall);
        return;
      }
      outcome := Parsed(OpPart(c, b[next + 1 .. next + 1 + c], c));
      next := next + 1 + c;
    } else {
      outcome := Parsed(OpPart(c, [], 0));
      next := next + 1;
    }
  }

  // ---------------------------------------------------------------------------
  // Properties of the reader

  lemma AtEndFails(b: Bytes, idx: nat)
    requires |b| <= idx
    ensures Decode(b, idx) == Read(Failed(EndOfScript), idx)
  {
  }

  /** A direct push 0x01..0x4B returns exactly the next n bytes and advances by 1 + n, or
      fails in place when fewer than n bytes remain. */
  lemma DirectPushReads(b: Bytes, idx: nat)
    requires idx < |b| && IsDirectPush(b[idx])
    ensures var n := b[idx] as nat;
      if idx + 1 + n <= |b|
      then Decode(b, idx) == Read(Parsed(OpPart(b[idx], b[idx + 1 .. idx + 1 + n], n)), idx + 1 + n)
      else Decode(b, idx) == Read(Failed(DataTooSmall), idx)
  {
  }

  /** OP_PUSHDATA1/2/4 read a 1/2/4-byte little-endian length and then that many bytes,
      advancing by the opcode, the header and the payload. */
  lemma PushDataReads(b: Bytes, idx: nat)
    requires idx < |b| && IsPushData(b[idx])
    requires idx + 1 + HeaderWidth(b[idx]) <= |b|
    ensures var w := HeaderWidth(b[idx]);
      var l := LittleEndian(b[idx + 1 .. idx + 1 + w]);
      idx + 1 + w + l <= |b| ==>
        Decode(b, idx) == Read(Parsed(OpPart(b[idx], b[idx + 1 + w .. idx + 1 + w + l], l)), idx + 1 + w + l)
  {
  }

  /** A truncated length header fails with the cursor unchanged. */
  lemma TruncatedHeaderFailsInPlace(b: Bytes, idx: nat)
    requires idx < |b| && IsPushData(b[idx])
    requires |b| < idx + 1 + HeaderWidth(b[idx])
    ensures Decode(b, idx) == Read(Failed(DataTooSmall), idx)
  {
  }

  /** A truncated PUSHDATA payload fails AFTER the cursor has moved past the 2-, 3- or
      5-byte opcode-and-header: the partial advance every caller then observes. */
  lemma TruncatedPayloadAdvancesPastHeader(b: Bytes, idx: nat)
    requires idx < |b| && IsPushData(b[idx])
    requires idx + 1 + HeaderWidth(b[idx]) <= |b|
    requires |b| < idx + 1 + HeaderWidth(b[idx]) + LittleEndian(b[idx + 1 .. idx + 1 + HeaderWidth(b[idx])])
    ensures Decode(b, idx) == Read(Failed(DataTooSmall), idx + 1 + HeaderWidth(b[idx]))
  {
  }

  /** Every other opcode, OP_0 and everything from 0x4F up included, carries no data and
      advances by exactly one byte. */
  lemma OtherOpcodesStep(b: Bytes, idx: nat)
    requires idx < |b| && !IsPushData(b[idx]) && !IsDirectPush(b[idx])
    ensures Decode(b, idx) == Read(Parsed(OpPart(b[idx], [], 0)), idx + 1)
  {
  }

  /** Decoding depends only on the bytes from the cursor up to the end of the operation:
      appending bytes after a successfully read operation does not change it. */
  lemma {:induction false} DecodeExtends(b: Bytes, extra: Bytes, idx: nat)
    requires Decode(b, idx).outcome.Parsed?
    ensures Decode(b + extra, idx) == Decode(b, idx)
  {
    var c := b[idx];
    assert (b + extra)[idx] == c;
    if IsPushData(c) {
      var w := HeaderWidth(c);
      assert (b + extra)[idx + 1 .. idx + 1 + w] == b[idx + 1 .. idx + 1 + w];
      var l := LittleEndian(b[idx + 1 .. idx + 1 + w]);
      assert (b + extra)[idx + 1 + w .. idx + 1 + w + l] == b[idx + 1 + w .. idx + 1 + w + l];
    } else if IsDirectPush(c) {
      assert (b + extra)[idx + 1 .. idx + 1 + c] == b[idx + 1 .. idx + 1 + c];
    }
  }

  // ---------------------------------------------------------------------------
  // Whole-script decoding (go-sdk's Script.ParseOps, approximated by repeated ReadOp)

  /** The operations of `b` from `idx` to the end, or None when one is truncated. */
  function ParseOps(b: Bytes, idx: nat := 0): (r: Option<seq<OpPart>>)
    requires idx <= |b|
    decreases |b| - idx
  {
    if idx == |b| then Some([])
    else
      var rd := Decode(b, idx);
      match rd.outcome
      case Failed(_) => None
      case Parsed(op) =>
        match ParseOps(b, rd.idx)
        case None => None
        case Some(rest) => Some([op] + rest)
  }

  // ---------------------------------------------------------------------------
  // Push encoding (go-sdk's script builder), the inverse the decoders are read against

  /** A push of `d`: OP_0 for nothing, a direct push up to 75 bytes, then PUSHDATA1,
      PUSHDATA2 or PUSHDATA4 with the length in 1, 2 or 4 little-endian bytes. */
  function Push(d: Bytes): (p: Bytes)
    requires |d| < U32
    ensures |p| > |d|
  {
    if |d| == 0 then [OP_0]
    else if |d| < OP_PUSHDATA1 as nat then [|d|] + d
    else if |d| < 0x100 then [OP_PUSHDATA1] + LEBytes(|d|, 1) + d
    else if |d| < 0x1_0000 then [OP_PUSHDATA2] + LEBytes(|d|, 2) + d
    else [OP_PUSHDATA4] + LEBytes(|d|, 4) + d
  }

  /** `Push(d)` found anywhere in a script decodes back to `d` and moves the cursor
      just past it; its opcode is never OP_RETURN. */
  lemma DecodePush(b: Bytes, at: nat, d: Bytes)
    requires |d| < U32
    requires at + |Push(d)| <= |b| && b[at..at + |Push(d)|] == Push(d)
    ensures var rd := Decode(b, at);
      && rd.outcome.Parsed? && rd.outcome.op.data == d
      && rd.outcome.op.opCode == Push(d)[0] != OP_RETURN
      && rd.idx == at + |Push(d)|
  {
    if |d| >= OP_PUSHDATA1 as nat {
      DecodeLongPush(b, at, d);
    } else if |d| > 0 {
      var p := Push(d);
      var window := b[at..at + |p|];
      assert b[at] == window[0] == p[0];
      assert forall k :: 0 <= k < |d| ==> b[at + 1 + k] == window[1 + k] == d[k];
      assert b[at + 1 .. at + 1 + |d|] == d;
    } else {
      assert b[at] == b[at..at + 1][0] == OP_0;
    }
  }

  lemma DecodeLongPush(b: Bytes, at: nat, d: Bytes)
    requires OP_PUSHDATA1 as nat <= |d| < U32
    requires at + |Push(d)| <= |b| && b[at..at + |Push(d)|] == Push(d)
    ensures var rd := Decode(b, at);
      && rd.outcome.Parsed? && rd.outcome.op.data == d
      && rd.outcome.op.opCode == Push(d)[0] != OP_RETURN
      && rd.idx == at + |Push(d)|
  {
    var p := Push(d);
    var c := p[0];
    var w := HeaderWidth(c);
    assert Pow256(1) == 0x100 && Pow256(2) == 0x1_0000 && Pow256(4) == U32;
    var hdr := LEBytes(|d|, w);
    assert p == [c] + hdr + d;
    SliceSplit(b, at, [c] + hdr, d);
    SliceSplit(b, at, [c], hdr);
    assert b[at] == b[at..at + 1][0] == c;
    assert LittleEndian(b[at + 1..at + 1 + w]) == |d| by {
      assert b[at + 1..at + 1 + w] == hdr;
    }
    DecodePushData(b, at, c, d);
  }

  /** A PUSHDATA opcode whose length header reads `|d|`, and then `d`. */
  lemma DecodePushData(b: Bytes, at: nat, c: byte, d: Bytes)
    requires IsPushData(c) && at + 1 + HeaderWidth(c) + |d| <= |b| && b[at] == c
    requires LittleEndian(b[at + 1..at + 1 + HeaderWidth(c)]) == |d|
    requires b[at + 1 + HeaderWidth(c)..at + 1 + HeaderWidth(c) + |d|] == d
    ensures Decode(b, at) == Read(Parsed(OpPart(c, d, |d|)), at + 1 + HeaderWidth(c) + |d|)
  {
    PushDataReads(b, at);
  }
}
