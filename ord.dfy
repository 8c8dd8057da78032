/** The ordinals inscription envelope (mod/ord/inscription.go `ParseInscription`): after
    `OP_FALSE OP_IF "ord"`, pairs of tag and value pushes up to the content field, then
    OP_ENDIF; the content is hashed, classified, and its owner taken from the P2PKH
    template that follows. The field loop is shared with the older revision of the same
    parser (ordinals/ordinals.go), which differs in three fields; `Revision` selects. */
module Ord {
  import opened Base
  import opened Prims
  import opened Parser
  import opened Outpoints
  import opened Records
  import opened Txos
  import opened PKHash
  import BitcomMap
  import BitcomScan

  const TypeEvent: string := "type"
  const ParentEvent: string := "parent"
  const WordEvent: string := "word"
  const OriginKey: string := "origin"
  const MapKey: string := "map"

  /** The present parser (mod/ord/inscription.go) or its older revision
      (ordinals/ordinals.go). */
  datatype Revision = Current | Legacy

  const NoInscription: Inscription :=
    Inscription(None, None, EmptyFile, None, None, None, None, map[], [], [])

  /** What the field loop has gathered: the inscription so far and the last MAP section
      decoded from a MAP-named field (each one is stored over the previous one). */
  datatype Envelope = Envelope(ins: Inscription, mapData: Option<MapData>)

  const Start: Envelope := Envelope(NoInscription, None)

  /** A tag push names a numbered field or, when longer than one byte, a named one. */
  datatype Tag = Numbered(n: int) | Named(name: Bytes)

  /** The field a tag op selects: OP_1NEGATE .. OP_16 give their opcode minus 80, a
      one-byte push gives that byte, an empty push (OP_0 among them) gives field 0. */
  function TagOf(op: OpPart): (t: Tag)
    requires op.len == |op.data|
    ensures t.Named? <==> !(OP_PUSHDATA4 < op.opCode <= OP_16) && |op.data| > 1
    ensures t.Named? ==> t.name == op.data
    ensures OP_PUSHDATA4 < op.opCode <= OP_16 ==> t == Numbered(op.opCode as int - 80)
    ensures !(OP_PUSHDATA4 < op.opCode <= OP_16) && |op.data| == 1 ==> t == Numbered(op.data[0] as int)
    ensures !(OP_PUSHDATA4 < op.opCode <= OP_16) && op.data == [] ==> t == Numbered(0)
  {
    if OP_PUSHDATA4 < op.opCode <= OP_16 then Numbered(op.opCode as int - 80)
    else if op.len == 1 then Numbered(op.data[0] as int)
    else if op.len > 1 then Named(op.data)
    else Numbered(0)
  }

  /** A named field: kept in `fields` when at most 64 bytes of NUL-free UTF-8; a tag equal
      to the MAP prefix also has its value decoded as a MAP section from its start. */
  function NamedField(p: Prims, e: Envelope, name: Bytes, v: Bytes): (r: Envelope)
    ensures |name| <= 64 && p.utf8Valid(name) && FreeOfNul(name) ==>
      r.ins == e.ins.(fields := e.ins.fields[Str(name) := v])
    ensures !(|name| <= 64 && p.utf8Valid(name) && FreeOfNul(name)) ==> r.ins == e.ins
    ensures r.mapData.None? ==> e.mapData.None?
    ensures Str(name) != BitcomScan.MapPrefix ==> r.mapData == e.mapData
  {
    var ins := if |name| <= 64 && p.utf8Valid(name) && FreeOfNul(name)
               then e.ins.(fields := e.ins.fields[Str(name) := v]) else e.ins;
    var md := if Str(name) == BitcomScan.MapPrefix then BitcomMap.ParseMAPSpec(p, v, 0).0 else None;
    Envelope(ins, if md.Some? then md else e.mapData)
  }

  /** Some spent output is `parent` and carries origin data. */
  predicate HasOriginSpend(spends: seq<Txo>, parent: Outpoint) {
    exists i :: 0 <= i < |spends| && OriginKey in spends[i].data && spends[i].outpoint == parent
  }

  /** The pointer field: the little-endian value of its first eight bytes. */
  function Pointer(v: Bytes): (n: uint64)
    requires |v| >= 8
    ensures n == LittleEndian(v[..8])
  {
    assert Pow256(8) == 0x1_0000_0000_0000_0000;
    LittleEndian(v[..8])
  }

  /** A numbered field other than the content: 1 the content type (under 256 bytes of
      UTF-8), 2 the pointer, 3 the parent, 5 CBOR metadata, 7 the metaproto, 9 the
      encoding; any other number is ignored. A pointer shorter than eight bytes, and a
      parent of 32 to 35 bytes (whose vout read runs past the end), make the source panic,
      and give nothing here; a parent of any other length not 36 is skipped. The present revision logs the type and a
      parent, and accepts a parent only when a spent output carrying origin data has it. */
  function NumberedField(p: Prims, rev: Revision, spends: seq<Txo>, e: Envelope, n: int, v: Bytes)
    : (r: Option<Envelope>)
    ensures r.None? <==> (n == 2 && |v| < 8) || (n == 3 && 32 <= |v| < 36)
    ensures r.Some? ==> r.value.mapData == e.mapData && r.value.ins.fields == e.ins.fields
    ensures r.Some? ==> r.value.ins.json == e.ins.json
    ensures r.Some? ==> r.value.ins.file.content == e.ins.file.content
    ensures r.Some? ==> e.ins.events <= r.value.ins.events
    ensures r.Some? && n !in {1, 2, 3, 5, 7, 9} ==> r.value == e
  {
    var ins := e.ins;
    if n == 1 then
      if |v| < 256 && p.utf8Valid(v) then
        var typed := ins.(file := ins.file.(mimeType := Str(v)));
        var logged := if rev == Current then typed.(events := ins.events + [EventLog(TypeEvent, Str(v))])
                      else typed;
        Some(e.(ins := logged))
      else Some(e)
    else if n == 2 then
      if |v| < 8 then None else Some(e.(ins := ins.(pointer := Some(Pointer(v)))))
    else if n == 3 then
      match FromTxOutpoint(v)
      case Err(ShortPointer) => None
      case Err(_) => Some(e)
      case Ok(parent) =>
        if rev == Legacy then Some(e.(ins := ins.(parent := Some(parent))))
        else if HasOriginSpend(spends, parent) then
          Some(e.(ins := ins.(parent := Some(parent),
                              events := ins.events + [EventLog(ParentEvent, ToString(parent))])))
        else Some(e)
    else if n == 5 then
      if p.cborValid(v) then Some(e.(ins := ins.(metadata := Some(v)))) else Some(e)
    else if n == 7 then Some(e.(ins := ins.(metaproto := Some(v))))
    else if n == 9 then Some(e.(ins := ins.(file := ins.file.(encoding := Str(v)))))
    else Some(e)
  }

  /** How the field loop ends: aborted (keeping the MAP data already stored on the
      output), or closed by the content field with the cursor after it. */
  datatype LoopEnd = Aborted(mapData: Option<MapData>) | Closed(e: Envelope, pos: nat)

  /** One tag push and one value push at `pos`: nothing when either fails to read or is an
      opcode above OP_16. */
  predicate PairReads(s: Bytes, pos: nat) {
    var r1 := Decode(s, pos);
    r1.outcome.Parsed? && r1.outcome.op.opCode <= OP_16 &&
    var r2 := Decode(s, r1.idx);
    r2.outcome.Parsed? && r2.outcome.op.opCode <= OP_16
  }

  /** The field loop from `pos`: pairs are applied in order until field 0 sets the
      content and closes the loop. */
  function FieldLoop(p: Prims, rev: Revision, spends: seq<Txo>, s: Bytes, pos: nat, e: Envelope)
    : (r: LoopEnd)
    ensures r.Closed? ==> pos < r.pos <= |s|
    ensures r.Closed? ==> e.ins.events <= r.e.ins.events
    ensures r.Aborted? && e.mapData.Some? ==> r.mapData.Some?
    ensures r.Closed? && e.ins.json.None? ==> r.e.ins.json.None?
    decreases |s| - pos
  {
    if !PairReads(s, pos) then Aborted(e.mapData)
    else
      var r1 := Decode(s, pos);
      var r2 := Decode(s, r1.idx);
      var v := r2.outcome.op.data;
      match TagOf(r1.outcome.op)
      case Named(name) => FieldLoop(p, rev, spends, s, r2.idx, NamedField(p, e, name, v))
      case Numbered(n) =>
        if n == 0 then Closed(e.(ins := e.ins.(file := e.ins.file.(content := v))), r2.idx)
        else match NumberedField(p, rev, spends, e, n, v)
          case None => Aborted(e.mapData)
          case Some(e') => FieldLoop(p, rev, spends, s, r2.idx, e')
  }

  /** The whole envelope from `from`: the field loop, then an OP_ENDIF, after which the
      cursor stands. */
  function ParseEnvelope(p: Prims, rev: Revision, spends: seq<Txo>, s: Bytes, from: nat)
    : (r: LoopEnd)
    ensures r.Closed? ==> from < r.pos <= |s| && s[r.pos - 1] == OP_ENDIF
    ensures r.Closed? ==> FieldLoop(p, rev, spends, s, from, Start).Closed?
    ensures r.Closed? ==> r.e.ins.json.None?
    ensures !PairReads(s, from) ==> r == Aborted(None)
  {
    match FieldLoop(p, rev, spends, s, from, Start)
    case Aborted(md) => Aborted(md)
    case Closed(e, pos) =>
      var rd := Decode(s, pos);
      if rd.outcome.Failed? || rd.outcome.op.opCode != OP_ENDIF then Aborted(e.mapData)
      else Closed(e, rd.idx)
  }

  /** `ReadEnvelope`: the labelled field loop and the OP_ENDIF check. */
  method ReadEnvelope(p: Prims, rev: Revision, spends: seq<Txo>, s: Bytes, from: nat)
    returns (r: LoopEnd)
    ensures r == ParseEnvelope(p, rev, spends, s, from)
  {
    var pos := from;
    var e := Start;
    while true
      invariant FieldLoop(p, rev, spends, s, pos, e) == FieldLoop(p, rev, spends, s, from, Start)
      decreases |s| - pos
    {
      var op, next := ReadOp(s, pos);
      if op.Failed? || op.op.opCode > OP_16 {
        return Aborted(e.mapData);
      }
      var op2, next2 := ReadOp(s, next);
      if op2.Failed? || op2.op.opCode > OP_16 {
        return Aborted(e.mapData);
      }
      assert PairReads(s, pos);
      var v := op2.op.data;
      var tag := TagOf(op.op);
      if tag.Named? {
        e := NamedField(p, e, tag.name, v);
        pos := next2;
      } else if tag.n == 0 {
        e := e.(ins := e.ins.(file := e.ins.file.(content := v)));
        pos := next2;
        break;
      } else {
        var stepped := NumberedField(p, rev, spends, e, tag.n, v);
        if stepped.None? {
          return Aborted(e.mapData);
        }
        e := stepped.value;
        pos := next2;
      }
    }
    assert FieldLoop(p, rev, spends, s, from, Start) == Closed(e, pos);
    var op, next := ReadOp(s, pos);
    if op.Failed? || op.op.opCode != OP_ENDIF {
      return Aborted(e.mapData);
    }
    r := Closed(e, next);
  }

  // ---------------------------------------------------------------------------
  // Classification of the content

  /** The three outcomes of `insType`. */
  datatype Kind = FileKind | JsonKind | TextKind

  function KindName(k: Kind): string {
    match k
    case FileKind => "file"
    case JsonKind => "json"
    case TextKind => "text"
  }

  /** At most 1024 bytes of NUL-free UTF-8 under a type whose Unicode lower-casing starts
      "application" or "text". */
  predicate Textual(p: Prims, f: File) {
    && Wrap32(|f.content|) <= 1024 && p.utf8Valid(f.content) && FreeOfNul(f.content)
    && (HasPrefix(p.toLower(f.mimeType), "application") || HasPrefix(p.toLower(f.mimeType), "text"))
  }

  /** `^[[:ascii:]]*$` */
  predicate AllAscii(b: Bytes) {
    forall i :: 0 <= i < |b| ==> b[i] < 0x80
  }

  function KindOf(p: Prims, f: File): (k: Kind)
    ensures k != FileKind ==> Textual(p, f)
    ensures k == JsonKind <==> Textual(p, f) && p.jsonValid(f.content)
    ensures k == TextKind <==> Textual(p, f) && !p.jsonValid(f.content) && AllAscii(f.content)
  {
    if !Textual(p, f) then FileKind
    else if p.jsonValid(f.content) then JsonKind
    else if AllAscii(f.content) then TextKind
    else FileKind
  }

  /** `\w`: an ASCII letter, digit or underscore. */
  predicate IsWordByte(b: byte) {
    ('0' as byte <= b <= '9' as byte) || ('A' as byte <= b <= 'Z' as byte)
    || ('a' as byte <= b <= 'z' as byte) || b == '_' as byte
  }

  function WordBytes(b: Bytes): (r: Bytes)
    ensures forall i :: 0 <= i < |r| ==> IsWordByte(r[i])
  {
    if b == [] then []
    else if IsWordByte(b[|b| - 1]) then WordBytes(b[..|b| - 1]) + [b[|b| - 1]]
    else WordBytes(b[..|b| - 1])
  }

  function Concat(ws: seq<Bytes>): Bytes {
    if ws == [] then [] else ws[0] + Concat(ws[1..])
  }

  /** The non-empty pieces of `regexp.Split(text, -1)` on `\W`: the maximal runs of word
      bytes, left to right; `run` is the run already begun. */
  function Words(b: Bytes, run: Bytes := []): (ws: seq<Bytes>)
    ensures forall i :: 0 <= i < |ws| ==> ws[i] != []
    decreases |b|
  {
    if b == [] then (if run == [] then [] else [run])
    else if IsWordByte(b[0]) then Words(b[1..], run + [b[0]])
    else (if run == [] then [] else [run]) + Words(b[1..], [])
  }

  lemma WordBytesCons(c: byte, b: Bytes)
    ensures WordBytes([c] + b) == (if IsWordByte(c) then [c] else []) + WordBytes(b)
    decreases |b|
  {
    if b != [] {
      var b' := b[..|b| - 1];
      assert ([c] + b)[..|[c] + b| - 1] == [c] + b';
      WordBytesCons(c, b');
    } else {
      assert WordBytes([c]) == WordBytes([]) + (if IsWordByte(c) then [c] else []);
    }
  }

  lemma ConcatAppend(a: seq<Bytes>, b: seq<Bytes>)
    ensures Concat(a + b) == Concat(a) + Concat(b)
    decreases |a|
  {
    if a != [] {
      assert (a + b)[1..] == a[1..] + b;
      ConcatAppend(a[1..], b);
    } else {
      assert a + b == b;
    }
  }

  /** The words together are exactly the text's word bytes, in order: nothing is lost
      and no separator enters a word. */
  lemma {:induction false} WordsCover(b: Bytes, run: Bytes)
    requires forall i :: 0 <= i < |run| ==> IsWordByte(run[i])
    ensures Concat(Words(b, run)) == run + WordBytes(b)
    decreases |b|
  {
    if b == [] {
      if run != [] { assert Concat([run]) == run + Concat([]); }
    } else {
      WordBytesCons(b[0], b[1..]);
      assert [b[0]] + b[1..] == b;
      if IsWordByte(b[0]) {
        WordsCover(b[1..], run + [b[0]]);
      } else {
        WordsCover(b[1..], []);
        var head := if run == [] then [] else [run];
        ConcatAppend(head, Words(b[1..], []));
        if run != [] { assert Concat([run]) == run + Concat([]); }
      }
    }
  }

  /** `strings.ToLower` of a word: words are runs of `\w` bytes, all ASCII. */
  function Lower(w: Bytes): string {
    ToLower(Str(w))
  }

  /** The distinct lower-cased words not in `seen`, in order of first occurrence (the
      source visits a Go map here, in no fixed order). */
  function DistinctLower(ws: seq<Bytes>, seen: set<string>): (r: seq<string>)
    decreases |ws|
  {
    if ws == [] then []
    else if Lower(ws[0]) in seen then DistinctLower(ws[1..], seen)
    else [Lower(ws[0])] + DistinctLower(ws[1..], seen + {Lower(ws[0])})
  }

  /** The lower-cased forms of the words. */
  function LowerOf(ws: seq<Bytes>): set<string> {
    set i | 0 <= i < |ws| :: Lower(ws[i])
  }

  lemma LowerOfCons(ws: seq<Bytes>)
    requires ws != []
    ensures LowerOf(ws) == {Lower(ws[0])} + LowerOf(ws[1..])
  {
    forall x | x in LowerOf(ws) ensures x in {Lower(ws[0])} + LowerOf(ws[1..]) {
      var i :| 0 <= i < |ws| && Lower(ws[i]) == x;
      if i > 0 { assert Lower(ws[1..][i - 1]) == x; }
    }
    forall x | x in LowerOf(ws[1..]) ensures x in LowerOf(ws) {
      var i :| 0 <= i < |ws[1..]| && Lower(ws[1..][i]) == x;
      assert Lower(ws[i + 1]) == x;
    }
  }

  /** Every lower-cased word not already seen is listed, and nothing else. */
  lemma {:induction false} DistinctLowerMembers(ws: seq<Bytes>, seen: set<string>)
    ensures forall x :: x in DistinctLower(ws, seen) <==> x in LowerOf(ws) - seen
    decreases |ws|
  {
    if ws != [] {
      var w := Lower(ws[0]);
      LowerOfCons(ws);
      if w in seen {
        DistinctLowerMembers(ws[1..], seen);
      } else {
        DistinctLowerMembers(ws[1..], seen + {w});
      }
    }
  }

  /** No word is listed twice. */
  lemma {:induction false} DistinctLowerUnique(ws: seq<Bytes>, seen: set<string>)
    ensures forall i, j :: 0 <= i < j < |DistinctLower(ws, seen)| ==>
      DistinctLower(ws, seen)[i] != DistinctLower(ws, seen)[j]
    decreases |ws|
  {
    if ws != [] {
      var w := Lower(ws[0]);
      if w in seen {
        DistinctLowerUnique(ws[1..], seen);
      } else {
        var rest := DistinctLower(ws[1..], seen + {w});
        DistinctLowerUnique(ws[1..], seen + {w});
        DistinctLowerMembers(ws[1..], seen + {w});
        assert DistinctLower(ws, seen) == [w] + rest;
        forall j | 0 <= j < |rest| ensures rest[j] != w {
          assert rest[j] in rest;
        }
      }
    }
  }

  function WordEventsOf(words: seq<string>): (evs: seq<EventLog>)
    ensures |evs| == |words|
    ensures forall i :: 0 <= i < |words| ==> evs[i] == EventLog(WordEvent, words[i])
  {
    if words == [] then [] else [EventLog(WordEvent, words[0])] + WordEventsOf(words[1..])
  }

  /** The distinct lower-cased words of a text. */
  function TextWords(text: Bytes): seq<string> {
    DistinctLower(Words(text), {})
  }

  /** The word-collecting loops: the set of words met, then one entry per word. */
  method CollectWords(text: Bytes) returns (words: seq<string>)
    ensures words == TextWords(text)
  {
    var ws := Words(text);
    var seen: set<string> := {};
    words := [];
    var i := 0;
    while i < |ws|
      invariant 0 <= i <= |ws|
      invariant words + DistinctLower(ws[i..], seen) == TextWords(text)
    {
      var w := Lower(ws[i]);
      assert ws[i..][0] == ws[i] && ws[i..][1..] == ws[i + 1..];
      assert DistinctLower(ws[i..], seen) == if w in seen then DistinctLower(ws[i + 1..], seen)
        else [w] + DistinctLower(ws[i + 1..], seen + {w});
      if w !in seen {
        seen := seen + {w};
        words := words + [w];
      }
      i := i + 1;
    }
  }

  /** Size, hash and classification of a closed envelope: JSON content is kept as JSON
      without the whitespace around its value,
      ASCII text as text with its distinct lower-cased words (logged as "word" events by
      the present revision, listed by the older). */
  function Finish(p: Prims, rev: Revision, ins: Inscription): (r: Inscription)
    requires ins.json.None?
    ensures r.file == ins.file.(size := Wrap32(|ins.file.content|), hash := p.sha256(ins.file.content))
    ensures r.json.Some? <==> KindOf(p, r.file) == JsonKind
    ensures r.json.Some? ==> r.json.value == TrimJsonSpace(ins.file.content)
    ensures KindOf(p, r.file) == TextKind ==> r.text == Some(Str(ins.file.content))
    ensures KindOf(p, r.file) != TextKind ==> r.text == ins.text && r.events == ins.events
    ensures ins.events <= r.events
  {
    var f := ins.file.(size := Wrap32(|ins.file.content|), hash := p.sha256(ins.file.content));
    var sized := ins.(file := f);
    match KindOf(p, f)
    case FileKind => sized
    case JsonKind => sized.(json := Some(TrimJsonSpace(f.content)))
    case TextKind =>
      var words := TextWords(f.content);
      var text := sized.(text := Some(Str(f.content)));
      if rev == Current then text.(events := ins.events + WordEventsOf(words))
      else text.(words := words)
  }

  /** JSON content with whitespace around its value, such as `{"a":1}` and a line feed,
      is kept as the value alone. */
  lemma FinishTrimsJson(p: Prims, rev: Revision, ins: Inscription, lead: Bytes, v: Bytes, trail: Bytes)
    requires ins.json.None? && ins.file.content == lead + v + trail
    requires AllJsonSpace(lead) && AllJsonSpace(trail)
    requires v != [] && !IsJsonSpace(v[0]) && !IsJsonSpace(v[|v| - 1])
    requires KindOf(p, Finish(p, rev, ins).file) == JsonKind
    ensures Finish(p, rev, ins).json == Some(v)
  {
    TrimSurrounded(lead, v, trail);
  }

  method Classify(p: Prims, rev: Revision, ins: Inscription) returns (r: Inscription)
    requires ins.json.None?
    ensures r == Finish(p, rev, ins)
  {
    var f := ins.file.(size := Wrap32(|ins.file.content|), hash := p.sha256(ins.file.content));
    r := ins.(file := f);
    var kind := KindOf(p, f);
    if kind == JsonKind {
      r := r.(json := Some(TrimJsonSpace(f.content)));
    } else if kind == TextKind {
      var words := CollectWords(f.content);
      r := r.(text := Some(Str(f.content)));
      if rev == Current {
        r := r.(events := ins.events + WordEventsOf(words));
      } else {
        r := r.(words := words);
      }
    }
  }

  /** The owner fallback: a P2PKH template right at `pos`, or after an OP_CODESEPARATOR. */
  function OwnerAfter(s: Bytes, pos: nat): (r: Option<Bytes>)
    ensures r.Some? ==> |r.value| == 20
    ensures pos + 25 <= |s| && IsP2PKH(s[pos..pos + 25]) ==> r == Some(s[pos + 3..pos + 23])
    ensures r.Some? && !(pos + 25 <= |s| && IsP2PKH(s[pos..pos + 25])) ==>
      pos + 26 <= |s| && s[pos] == OP_CODESEPARATOR && IsP2PKH(s[pos + 1..pos + 26])
      && r.value == s[pos + 4..pos + 24]
  {
    if pos + 25 <= |s| && IsP2PKH(s[pos..pos + 25]) then Some(s[pos + 3..pos + 23])
    else if pos + 26 <= |s| && s[pos] == OP_CODESEPARATOR && IsP2PKH(s[pos + 1..pos + 26]) then
      Some(s[pos + 4..pos + 24])
    else None
  }

  // ---------------------------------------------------------------------------
  // ParseInscription (present revision)

  /** The inscription, the cursor handed back through `fromPos`, and the context. */
  datatype InscriptionRead = InscriptionRead(insc: Option<Inscription>, fromPos: nat, ctx: IndexContext)

  /** The output with the last decoded MAP section stored under "map". */
  function WithMap(txo: Txo, md: Option<MapData>): (t: Txo)
    ensures md.None? ==> t == txo
    ensures md.Some? ==> t == AddData(txo, MapKey, Entry(MapItem(md.value), []))
  {
    match md
    case None => txo
    case Some(m) => AddData(txo, MapKey, Entry(MapItem(m), []))
  }

  /** The output after the envelope: its MAP section stored and, when it had no owner,
      the fallback owner taken. */
  function Recorded(txo: Txo, md: Option<MapData>, fallback: Option<Bytes>): (t: Txo)
    ensures t.outpoint == txo.outpoint && t.script == txo.script
    ensures txo.owner.Some? || fallback.None? ==> t.owner == txo.owner
    ensures txo.owner.None? ==> t.owner == fallback
    ensures t.data == WithMap(txo, md).data
  {
    var stored := WithMap(txo, md);
    if txo.owner.None? then stored.(owner := fallback) else stored
  }

  /** `ParseInscription(ctx, vout, s, &fromPos)`: the envelope read from `from`. Its MAP
      section is stored on output `vout` even when the envelope fails; only a closed
      envelope moves the cursor, and, when the output has no owner yet, takes one from
      the template after it. An output index out of range panics in the source. */
  function ParseInscriptionSpec(p: Prims, ctx: IndexContext, vout: nat, s: Bytes, from: nat)
    : (r: InscriptionRead)
    ensures r.insc.None? ==> r.fromPos == from
    ensures r.insc.Some? ==> from < r.fromPos <= |s| && s[r.fromPos - 1] == OP_ENDIF
    ensures r.insc.Some? ==> var f := r.insc.value.file;
      f.size == Wrap32(|f.content|) && f.hash == p.sha256(f.content)
    ensures r.ctx.spends == ctx.spends && |r.ctx.txos| == |ctx.txos|
    ensures forall i :: 0 <= i < |ctx.txos| && i != vout ==> r.ctx.txos[i] == ctx.txos[i]
    ensures vout < |ctx.txos| ==> var t := r.ctx.txos[vout];
      && t.outpoint == ctx.txos[vout].outpoint && t.script == ctx.txos[vout].script
      && (ctx.txos[vout].owner.Some? || r.insc.None? ==> t.owner == ctx.txos[vout].owner)
  {
    if vout >= |ctx.txos| then InscriptionRead(None, from, ctx)
    else
      var txo := ctx.txos[vout];
      match ParseEnvelope(p, Current, ctx.spends, s, from)
      case Aborted(md) => InscriptionRead(None, from, ctx.(txos := ctx.txos[vout := Recorded(txo, md, None)]))
      case Closed(e, pos) =>
        var owned := Recorded(txo, e.mapData, OwnerAfter(s, pos));
        InscriptionRead(Some(Finish(p, Current, e.ins)), pos, ctx.(txos := ctx.txos[vout := owned]))
  }

  method ParseInscription(p: Prims, ctx: IndexContext, vout: nat, s: Bytes, from: nat)
    returns (r: InscriptionRead)
    ensures r == ParseInscriptionSpec(p, ctx, vout, s, from)
  {
    if vout >= |ctx.txos| {
      return InscriptionRead(None, from, ctx);
    }
    var txo := ctx.txos[vout];
    var env := ReadEnvelope(p, Current, ctx.spends, s, from);
    if env.Aborted? {
      return InscriptionRead(None, from, ctx.(txos := ctx.txos[vout := Recorded(txo, env.mapData, None)]));
    }
    var ins := Classify(p, Current, env.e.ins);
    txo := WithMap(txo, env.e.mapData);
    if ctx.txos[vout].owner.None? {
      txo := txo.(owner := OwnerAfter(s, env.pos));
    }
    r := InscriptionRead(Some(ins), env.pos, ctx.(txos := ctx.txos[vout := txo]));
  }

  // ---------------------------------------------------------------------------
  // Properties

  /** The smallest envelope: OP_0 as the tag, a push of the content, then OP_ENDIF,
      closes with just that content and the cursor after the OP_ENDIF. */
  lemma ContentOnly(p: Prims, rev: Revision, spends: seq<Txo>, s: Bytes, from: nat, v: Bytes)
    requires |v| < U32
    requires from < |s| && s[from] == OP_0 && OccursAt(s, Push(v), from + 1)
    requires from + 1 + |Push(v)| < |s| && s[from + 1 + |Push(v)|] == OP_ENDIF
    ensures ParseEnvelope(p, rev, spends, s, from)
      == Closed(Envelope(NoInscription.(file := EmptyFile.(content := v)), None), from + 2 + |Push(v)|)
  {
    var end := from + 1 + |Push(v)|;
    ContentOnlyLoop(p, rev, spends, s, from, v);
    assert Decode(s, end).outcome.op.opCode == OP_ENDIF;
  }

  /** The field loop behind `ContentOnly`: the tag 0 pair closes it at once. */
  lemma ContentOnlyLoop(p: Prims, rev: Revision, spends: seq<Txo>, s: Bytes, from: nat, v: Bytes)
    requires |v| < U32
    requires from < |s| && s[from] == OP_0 && OccursAt(s, Push(v), from + 1)
    ensures FieldLoop(p, rev, spends, s, from, Start)
      == Closed(Envelope(NoInscription.(file := EmptyFile.(content := v)), None), from + 1 + |Push(v)|)
  {
    DecodePush(s, from + 1, v);
    var r1 := Decode(s, from);
    assert r1.outcome.op == OpPart(OP_0, [], 0) && r1.idx == from + 1;
    assert TagOf(r1.outcome.op) == Numbered(0);
  }

  /** The fallback owner is the key hash of the P2PKH template that follows, directly or
      after an OP_CODESEPARATOR. */
  lemma OwnerFromTemplate(s: Bytes, pos: nat, pkh: Bytes, sep: bool)
    requires |pkh| == 20
    requires var t := (if sep then [OP_CODESEPARATOR] else [])
      + [OP_DUP, OP_HASH160, OP_DATA20] + pkh + [OP_EQUALVERIFY, OP_CHECKSIG];
      OccursAt(s, t, pos)
    ensures OwnerAfter(s, pos) == Some(pkh)
  {
    var tpl := [OP_DUP, OP_HASH160, OP_DATA20] + pkh + [OP_EQUALVERIFY, OP_CHECKSIG];
    assert tpl[3..23] == pkh;
    assert IsP2PKH(tpl) by {
      assert tpl[0] == OP_DUP && tpl[1] == OP_HASH160 && tpl[2] == OP_DATA20;
      assert tpl[23] == OP_EQUALVERIFY && tpl[24] == OP_CHECKSIG;
    }
    if sep {
      var t := [OP_CODESEPARATOR] + tpl;
      assert s[pos..pos + 26] == t;
      assert s[pos] == t[0] == OP_CODESEPARATOR;
      assert s[pos + 1..pos + 26] == t[1..] == tpl;
      assert s[pos + 4..pos + 24] == tpl[3..23];
      assert !IsP2PKH(s[pos..pos + 25]) by { assert s[pos..pos + 25][0] == s[pos]; }
    } else {
      assert s[pos..pos + 25] == tpl;
      assert s[pos + 3..pos + 23] == tpl[3..23];
    }
  }

  /** On a text inscription the present revision logs one "word" event per distinct
      lower-cased word of the content, and no word twice. */
  lemma WordEvents(p: Prims, ins: Inscription)
    requires ins.json.None?
    requires KindOf(p, Finish(p, Current, ins).file) == TextKind
    ensures var r := Finish(p, Current, ins);
      && r.events[..|ins.events|] == ins.events
      && var added := r.events[|ins.events|..];
      && (forall i :: 0 <= i < |added| ==> added[i].name == WordEvent)
      && (forall w :: w in LowerOf(Words(ins.file.content)) <==>
            exists i :: 0 <= i < |added| && added[i].value == w)
      && (forall i, j :: 0 <= i < j < |added| ==> added[i] != added[j])
  {
    var ws := Words(ins.file.content);
    DistinctLowerMembers(ws, {});
    DistinctLowerUnique(ws, {});
    var words := TextWords(ins.file.content);
    var r := Finish(p, Current, ins);
    assert r.events == ins.events + WordEventsOf(words);
    var added := r.events[|ins.events|..];
    assert added == WordEventsOf(words);
    forall w ensures w in LowerOf(ws) <==> exists i :: 0 <= i < |added| && added[i].value == w {
      if w in LowerOf(ws) {
        assert w in words;
        var i :| 0 <= i < |words| && words[i] == w;
        assert added[i].value == w;
      }
      if exists i :: 0 <= i < |added| && added[i].value == w {
        var i :| 0 <= i < |added| && added[i].value == w;
        assert words[i] in words;
      }
    }
  }
}
