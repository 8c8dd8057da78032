/** What the Bitcom decoders of mod/bitcom share: a protocol section is a run of pushes
    that ends at a read error, at OP_RETURN, or at the one-byte push of '|' that
    separates protocols; the op that ends it is left unread. */
module BitcomSection {
  import opened Base
  import opened Parser
  import opened Records
  import opened Txos

  const PipeByte: byte := 0x7c

  /** The key the Bitcom analyzer stores its entry under. */
  const BitcomTag: string := "bitcom"

  /** `txo.Data["bitcom"].(*Bitcom)`: the Bitcom record stored on an output, if any. */
  function BitcomOf(txo: Txo): (r: Option<Bitcom>)
    ensures r.Some? <==> BitcomTag in txo.data && txo.data[BitcomTag].item.BitcomItem?
    ensures r.Some? ==> r.value == txo.data[BitcomTag].item.bitcom
  {
    if BitcomTag in txo.data && txo.data[BitcomTag].item.BitcomItem?
    then Some(txo.data[BitcomTag].item.bitcom) else None
  }

  /** The end-of-section test written out in mod/bitcom/map.go, b.go and sigma.go. */
  predicate EndsSection(rd: Read) {
    rd.outcome.Failed? || rd.outcome.op.opCode == OP_RETURN
    || (rd.outcome.op.opCode == OP_DATA1 && |rd.outcome.op.data| > 0
        && rd.outcome.op.data[0] == PipeByte)
  }

  /** `ReadOp` together with the end-of-section test. */
  method ReadSectionOp(s: Bytes, idx: nat) returns (op: Outcome, next: nat, ends: bool)
    ensures Read(op, next) == Decode(s, idx)
    ensures ends == EndsSection(Decode(s, idx))
  {
    op, next := ReadOp(s, idx);
    ends := op.Failed? || op.op.opCode == OP_RETURN
      || (op.op.opCode == OP_DATA1 && op.op.data[0] == PipeByte);
  }

  /** At most `n` pushes read from `idx` until the section ends, and the cursor: past the
      last push read, which is the start of the ending op when fewer than `n` were read. */
  function Pushes(s: Bytes, idx: nat, n: nat): (r: (seq<Bytes>, nat))
    ensures |r.0| <= n && idx <= r.1
    decreases n
  {
    if n == 0 then ([], idx)
    else
      var rd := Decode(s, idx);
      if EndsSection(rd) then ([], idx)
      else
        var rest := Pushes(s, rd.idx, n - 1);
        ([rd.outcome.op.data] + rest.0, rest.1)
  }

  /** Fewer than `n` pushes are read only when the section ended: the cursor is then at
      the op that ended it. */
  lemma {:induction false} PushesStopAtEnd(s: Bytes, idx: nat, n: nat)
    ensures |Pushes(s, idx, n).0| < n ==> EndsSection(Decode(s, Pushes(s, idx, n).1))
    decreases n
  {
    if n > 0 {
      var rd := Decode(s, idx);
      PushesUnfold(s, idx, n);
      if !EndsSection(rd) {
        PushesStopAtEnd(s, rd.idx, n - 1);
      }
    }
  }

  lemma PushesUnfold(s: Bytes, idx: nat, n: nat)
    requires n > 0
    ensures var rd := Decode(s, idx);
      Pushes(s, idx, n) ==
        if EndsSection(rd) then ([], idx)
        else ([rd.outcome.op.data] + Pushes(s, rd.idx, n - 1).0, Pushes(s, rd.idx, n - 1).1)
  {
  }

  /** The push with index `i` of a section, or nothing when fewer were read. */
  function Nth(ds: seq<Bytes>, i: nat): Bytes {
    if i < |ds| then ds[i] else []
  }

  /** A push that a decoder reads back as itself without ending the section: any data
      shorter than 2^32 bytes other than the single byte '|'. */
  predicate Encodable(d: Bytes) {
    |d| < U32 && d != [PipeByte]
  }

  /** A decoded push ends the section only when it is the single byte '|'. */
  lemma PushDoesNotEnd(b: Bytes, at: nat, d: Bytes)
    requires Encodable(d)
    requires at + |Push(d)| <= |b| && b[at..at + |Push(d)|] == Push(d)
    ensures !EndsSection(Decode(b, at))
  {
    DecodePush(b, at, d);
    var rd := Decode(b, at);
    if rd.outcome.op.opCode == OP_DATA1 {
      assert |d| == 1;
    }
  }

  /** Nothing is read where the section ends. */
  lemma PushesAtEnd(s: Bytes, idx: nat, n: nat)
    requires EndsSection(Decode(s, idx))
    ensures Pushes(s, idx, n) == ([], idx)
  {
    if n > 0 {
      PushesUnfold(s, idx, n);
    }
  }

  /** Part way through reading at most `total` pushes from `idx`: `got` were read, the
      cursor is at `next`, and at most `left` remain. */
  ghost predicate Reading(s: Bytes, idx: nat, total: nat, got: seq<Bytes>, next: nat, left: nat) {
    Pushes(s, idx, total) == (got + Pushes(s, next, left).0, Pushes(s, next, left).1)
  }

  lemma ReadingStart(s: Bytes, idx: nat, n: nat)
    ensures Reading(s, idx, n, [], idx, n)
  {
    assert [] + Pushes(s, idx, n).0 == Pushes(s, idx, n).0;
  }

  lemma ReadingDone(s: Bytes, idx: nat, total: nat, got: seq<Bytes>, next: nat)
    requires Reading(s, idx, total, got, next, 0)
    ensures Pushes(s, idx, total) == (got, next)
  {
    assert got + [] == got;
  }

  /** The head of each decoder loop: read an op, and stop with the cursor put back when
      it ends the section. */
  method NextPush(s: Bytes, next: nat, ghost idx: nat, ghost total: nat,
                  ghost got: seq<Bytes>, ghost left: nat)
    returns (d: Bytes, after: nat, ends: bool)
    requires left > 0 && Reading(s, idx, total, got, next, left)
    ensures ends ==> Pushes(s, idx, total) == (got, next)
    ensures !ends ==> Reading(s, idx, total, got + [d], after, left - 1)
  {
    var op: Outcome;
    op, after, ends := ReadSectionOp(s, next);
    if ends {
      PushesAtEnd(s, next, left);
      assert got + [] == got;
      return [], next, true;
    }
    d := op.op.data;
    PushesUnfold(s, next, left);
    ghost var tail := Pushes(s, after, left - 1);
    assert got + ([d] + tail.0) == (got + [d]) + tail.0;
  }

  /** The op at `at` is a push of `d` that does not end the section. */
  predicate ReadsPush(b: Bytes, at: nat, d: Bytes) {
    var rd := Decode(b, at);
    !EndsSection(rd) && rd.outcome.op.data == d
  }

  /** `ds` are read one after another from `at` on, the last one ending at `end`. */
  predicate PushedAt(b: Bytes, at: nat, ds: seq<Bytes>, end: nat)
    decreases |ds|
  {
    if ds == [] then at == end
    else ReadsPush(b, at, ds[0]) && PushedAt(b, Decode(b, at).idx, ds[1..], end)
  }

  /** An encodable push found in a script is read back as itself. */
  lemma PushReads(b: Bytes, at: nat, d: Bytes)
    requires Encodable(d)
    requires at + |Push(d)| <= |b| && b[at..at + |Push(d)|] == Push(d)
    ensures ReadsPush(b, at, d) && Decode(b, at).idx == at + |Push(d)|
  {
    DecodePush(b, at, d);
    PushDoesNotEnd(b, at, d);
  }

  /** Each push of `ds` found one after another from `at` on, the last one ending at `end`. */
  predicate EncodedAt(b: Bytes, at: nat, ds: seq<Bytes>, end: nat)
    decreases |ds|
  {
    if ds == [] then at == end
    else
      Encodable(ds[0]) && at + |Push(ds[0])| <= |b| && b[at..at + |Push(ds[0])|] == Push(ds[0])
      && EncodedAt(b, at + |Push(ds[0])|, ds[1..], end)
  }

  lemma EncodedUncons(b: Bytes, at: nat, ds: seq<Bytes>, end: nat)
    requires ds != [] && EncodedAt(b, at, ds, end)
    ensures Encodable(ds[0]) && at + |Push(ds[0])| <= |b| && b[at..at + |Push(ds[0])|] == Push(ds[0])
    ensures EncodedAt(b, at + |Push(ds[0])|, ds[1..], end)
  {
  }

  lemma PushedAtCons(b: Bytes, at: nat, ds: seq<Bytes>, at': nat, end: nat)
    requires ds != [] && ReadsPush(b, at, ds[0]) && Decode(b, at).idx == at'
    requires PushedAt(b, at', ds[1..], end)
    ensures PushedAt(b, at, ds, end)
  {
  }

  /** Pushes found one after another are read back one after another. */
  lemma {:induction false} EncodedPushedAt(b: Bytes, at: nat, ds: seq<Bytes>, end: nat)
    requires EncodedAt(b, at, ds, end)
    ensures PushedAt(b, at, ds, end)
    decreases |ds|
  {
    if ds != [] {
      EncodedUncons(b, at, ds, end);
      PushReads(b, at, ds[0]);
      EncodedPushedAt(b, at + |Push(ds[0])|, ds[1..], end);
      PushedAtCons(b, at, ds, at + |Push(ds[0])|, end);
    }
  }

  /** Round trip: pushes read one after another, followed by a point where nothing more
      is read (the end of the section, or the limit of `n` pushes), are read back
      exactly, and the cursor is left after them. */
  lemma {:induction false} PushesRoundTrip(b: Bytes, at: nat, ds: seq<Bytes>, n: nat, end: nat)
    requires PushedAt(b, at, ds, end)
    requires |ds| <= n
    requires Pushes(b, end, n - |ds|) == ([], end)
    ensures Pushes(b, at, n) == (ds, end)
    decreases |ds|
  {
    if ds != [] {
      var at' := Decode(b, at).idx;
      PushesRoundTrip(b, at', ds[1..], n - 1, end);
      PushesUnfold(b, at, n);
      assert [ds[0]] + ds[1..] == ds;
    }
  }
}
