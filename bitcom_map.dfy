/** The MAP protocol section of a Bitcom script (mod/bitcom/map.go): after the "SET"
    command, key and value pushes alternate until the section ends, and every admissible
    pair is stored, a later pair overwriting an earlier one with the same key. */
module BitcomMap {
  import opened Base
  import opened Prims
  import opened Parser
  import opened Records
  import opened BitcomSection

  const SetCommand: Bytes := [0x53, 0x45, 0x54]
  const SubTypeDataKey: string := "subTypeData"
  const MaxKeyLength: nat := 256
  const MaxValueLength: nat := 1024

  /** One key push and the value push after it, as read. */
  datatype Pair = Pair(key: Bytes, value: Bytes)

  /** The pairs read from `idx` until the section ends, and where the cursor is left:
      at the op that ended the section, even when that op came in place of a value,
      so a dangling key stays consumed. */
  function Pairs(s: Bytes, idx: nat): (r: (seq<Pair>, nat))
    ensures idx <= r.1
    ensures EndsSection(Decode(s, r.1))
    decreases |s| - idx
  {
    var k := Decode(s, idx);
    if EndsSection(k) then ([], idx)
    else
      var v := Decode(s, k.idx);
      if EndsSection(v) then ([], k.idx)
      else
        var rest := Pairs(s, v.idx);
        ([Pair(k.outcome.op.data, v.outcome.op.data)] + rest.0, rest.1)
  }

  /** One step of `Pairs`, stated for the loop that computes it. */
  lemma PairsUnfold(s: Bytes, idx: nat)
    ensures var k := Decode(s, idx); var v := Decode(s, k.idx);
      Pairs(s, idx) ==
        if EndsSection(k) then ([], idx)
        else if EndsSection(v) then ([], k.idx)
        else ([Pair(k.outcome.op.data, v.outcome.op.data)] + Pairs(s, v.idx).0, Pairs(s, v.idx).1)
  {
  }

  /** A pair is stored only when the key is at most 256 bytes, the value at most 1024,
      and both are valid UTF-8. */
  predicate Admissible(p: Prims, pr: Pair) {
    |pr.key| <= MaxKeyLength && |pr.value| <= MaxValueLength
    && p.utf8Valid(pr.key) && p.utf8Valid(pr.value)
  }

  /** A push of the single byte 0x00 stands for the empty string. */
  function Unzero(b: Bytes): (r: Bytes)
    ensures r == [] <==> b == [] || b == [0]
    ensures b != [0] ==> r == b
  {
    if b == [0] then [] else b
  }

  function KeyOf(pr: Pair): string {
    Str(Unzero(pr.key))
  }

  /** The map after one more pair: stored under its normalised key when admissible. */
  function Store(p: Prims, mp: MapData, pr: Pair): (r: MapData)
    ensures Admissible(p, pr) ==> r == mp[KeyOf(pr) := Text(Unzero(pr.value))]
    ensures !Admissible(p, pr) ==> r == mp
  {
    if Admissible(p, pr) then mp[KeyOf(pr) := Text(Unzero(pr.value))] else mp
  }

  /** The map the loop builds from the pairs in reading order. */
  function Collect(p: Prims, ps: seq<Pair>): MapData {
    if ps == [] then map[] else Store(p, Collect(p, ps[..|ps| - 1]), ps[|ps| - 1])
  }

  /** Whether the pair at position `i` writes key `k`. */
  predicate Writes(p: Prims, ps: seq<Pair>, i: int, k: string) {
    0 <= i < |ps| && Admissible(p, ps[i]) && KeyOf(ps[i]) == k
  }

  /** The final treatment of "subTypeData": a text value containing a NUL byte or an
      escaped NUL is dropped; otherwise a value that is valid JSON is kept as raw JSON,
      without the whitespace around it;
      every other key is untouched. */
  function FinishSubType(p: Prims, mp: MapData): (r: MapData)
    ensures forall k :: k != SubTypeDataKey ==> (k in r <==> k in mp)
    ensures forall k :: k != SubTypeDataKey && k in mp ==> r[k] == mp[k]
    ensures SubTypeDataKey in mp && mp[SubTypeDataKey].Text? ==>
      var v := mp[SubTypeDataKey].text;
      if !FreeOfNul(v) then SubTypeDataKey !in r
      else if p.jsonValid(v) then SubTypeDataKey in r && r[SubTypeDataKey] == RawJson(TrimJsonSpace(v))
      else SubTypeDataKey in r && r[SubTypeDataKey] == mp[SubTypeDataKey]
  {
    if SubTypeDataKey in mp && mp[SubTypeDataKey].Text? then
      var v := mp[SubTypeDataKey].text;
      if !FreeOfNul(v) then mp - {SubTypeDataKey}
      else if p.jsonValid(v) then mp[SubTypeDataKey := RawJson(TrimJsonSpace(v))]
      else mp
    else mp
  }

  /** What `ParseMAP(script, &idx)` computes: nothing when the first read fails or does
      not push "SET" (the cursor then stays where that read left it), otherwise the
      collected map, and the cursor at the op that ended the section. */
  function ParseMAPSpec(p: Prims, s: Bytes, idx: nat): (r: (Option<MapData>, nat))
    ensures idx <= r.1
  {
    var first := Decode(s, idx);
    if first.outcome.Failed? || first.outcome.op.data != SetCommand then (None, first.idx)
    else
      var ps := Pairs(s, first.idx);
      (Some(FinishSubType(p, Collect(p, ps.0))), ps.1)
  }

  method ParseMAP(p: Prims, script: Bytes, idx: nat) returns (m: Option<MapData>, next: nat)
    ensures (m, next) == ParseMAPSpec(p, script, idx)
  {
    var op: Outcome;
    op, next := ReadOp(script, idx);
    if op.Failed? || op.op.data != SetCommand {
      return None, next;
    }
    var mp: MapData := map[];
    ghost var start := next;
    ghost var seen: seq<Pair> := [];
    assert seen + Pairs(script, next).0 == Pairs(script, next).0;
    while true
      invariant next <= |script|
      invariant Pairs(script, start) == (seen + Pairs(script, next).0, Pairs(script, next).1)
      invariant mp == Collect(p, seen)
      decreases |script| - next
    {
      var pr, after := NextPair(script, next);
      if pr.None? {
        next := after;
        assert seen + [] == seen;
        break;
      }
      assert seen + ([pr.value] + Pairs(script, after).0) == (seen + [pr.value]) + Pairs(script, after).0;
      CollectSnoc(p, seen, pr.value);
      seen := seen + [pr.value];
      mp := StorePair(p, mp, pr.value.key, pr.value.value);
      next := after;
    }
    assert Pairs(script, start) == (seen, next);
    mp := CheckSubType(p, mp);
    m := Some(mp);
  }

  /** The head of the `ParseMAP` loop: a key push and a value push, or nothing when either
      read ends the section, leaving the cursor before the key, or before the value
      after a dangling key. */
  method NextPair(s: Bytes, idx: nat) returns (pr: Option<Pair>, next: nat)
    ensures pr.None? ==> Pairs(s, idx) == ([], next)
    ensures pr.Some? ==> idx < next <= |s| && Pairs(s, idx) == ([pr.value] + Pairs(s, next).0, Pairs(s, next).1)
  {
    PairsUnfold(s, idx);
    var keyOp: Outcome, keyNext: nat, keyEnds := ReadSectionOp(s, idx);
    if keyEnds {
      return None, idx;
    }
    var valueOp: Outcome, valueNext: nat, valueEnds := ReadSectionOp(s, keyNext);
    if valueEnds {
      return None, keyNext;
    }
    return Some(Pair(keyOp.op.data, valueOp.op.data)), valueNext;
  }

  /** The body of the `ParseMAP` loop after both pushes were read: skip an oversized
      or non-UTF-8 pair, normalise 0x00 to the empty string, store. */
  method StorePair(p: Prims, mp: MapData, key: Bytes, value: Bytes) returns (r: MapData)
    ensures r == Store(p, mp, Pair(key, value))
  {
    r := mp;
    if |key| > 256 || |value| > 1024 {
      return;
    }
    if !p.utf8Valid(key) || !p.utf8Valid(value) {
      return;
    }
    var k, v := key, value;
    if |k| == 1 && k[0] == 0 {
      k := [];
    }
    if |v| == 1 && v[0] == 0 {
      v := [];
    }
    r := r[Str(k) := Text(v)];
  }

  /** The "subTypeData" step at the end of `ParseMAP`. */
  method CheckSubType(p: Prims, mp: MapData) returns (r: MapData)
    ensures r == FinishSubType(p, mp)
  {
    r := mp;
    if SubTypeDataKey in r && r[SubTypeDataKey].Text? {
      var v := r[SubTypeDataKey].text;
      if Contains(v, NulMarker) || Contains(v, EscapedNulMarker) {
        r := r - {SubTypeDataKey};
      } else if p.jsonValid(v) {
        r := r[SubTypeDataKey := RawJson(TrimJsonSpace(v))];
      }
    }
  }

  // ---------------------------------------------------------------------------
  // Properties

  /** A map is produced exactly when the first op read pushes "SET". */
  lemma SetCommandRequired(p: Prims, s: Bytes, idx: nat)
    ensures ParseMAPSpec(p, s, idx).0.Some? <==>
      Decode(s, idx).outcome.Parsed? && Decode(s, idx).outcome.op.data == SetCommand
  {
  }

  lemma CollectSnoc(p: Prims, ps: seq<Pair>, pr: Pair)
    ensures Collect(p, ps + [pr]) == Store(p, Collect(p, ps), pr)
  {
    assert (ps + [pr])[..|ps|] == ps;
  }

  /** A pair before the last writes in the pairs exactly when it writes in their prefix. */
  lemma WritesInit(p: Prims, ps: seq<Pair>, i: int, k: string)
    requires ps != [] && i != |ps| - 1
    ensures Writes(p, ps, i, k) <==> Writes(p, ps[..|ps| - 1], i, k)
  {
  }

  /** A key is in the collected map exactly when some admissible pair writes it. */
  lemma {:induction false} CollectKeys(p: Prims, ps: seq<Pair>, k: string)
    ensures k in Collect(p, ps) <==> exists i :: Writes(p, ps, i, k)
  {
    if ps != [] {
      var init := ps[..|ps| - 1];
      CollectKeys(p, init, k);
      if !Writes(p, ps, |ps| - 1, k) {
        assert k in Collect(p, ps) <==> k in Collect(p, init);
        forall i ensures Writes(p, ps, i, k) <==> Writes(p, init, i, k) {
          if i != |ps| - 1 { WritesInit(p, ps, i, k); }
        }
      }
    }
  }

  /** Last write wins: the value stored under a key is that of the last admissible pair
      writing it. */
  lemma {:induction false} CollectLastWins(p: Prims, ps: seq<Pair>, k: string, j: nat)
    requires Writes(p, ps, j, k)
    requires forall i :: j < i < |ps| ==> !Writes(p, ps, i, k)
    ensures k in Collect(p, ps) && Collect(p, ps)[k] == Text(Unzero(ps[j].value))
  {
    var init := ps[..|ps| - 1];
    if j < |ps| - 1 {
      assert !Writes(p, ps, |ps| - 1, k);
      assert Writes(p, init, j, k);
      assert forall i :: j < i < |init| ==> !Writes(p, init, i, k) by {
        forall i | j < i < |init| ensures !Writes(p, init, i, k) {
          assert !Writes(p, ps, i, k);
        }
      }
      CollectLastWins(p, init, k, j);
    }
  }

  /** Collected values are always text: only "subTypeData" can become raw JSON, and only
      after collection. */
  lemma {:induction false} CollectHoldsText(p: Prims, ps: seq<Pair>)
    ensures forall k :: k in Collect(p, ps) ==> Collect(p, ps)[k].Text?
  {
    if ps != [] {
      CollectHoldsText(p, ps[..|ps| - 1]);
    }
  }

  /** Every stored key and value respects the length bounds (the bounds apply to the
      pushed bytes, before the 0x00 normalisation). */
  lemma {:induction false} CollectBounded(p: Prims, ps: seq<Pair>)
    ensures forall k :: k in Collect(p, ps) ==> |k| <= MaxKeyLength
    ensures forall k :: k in Collect(p, ps) && Collect(p, ps)[k].Text? ==>
              |Collect(p, ps)[k].text| <= MaxValueLength
  {
    if ps != [] {
      CollectBounded(p, ps[..|ps| - 1]);
    }
  }

  /** A key push followed directly by the end of the section is consumed: the cursor is
      left after the key, not before it. */
  lemma DanglingKeyConsumed(s: Bytes, idx: nat)
    requires !EndsSection(Decode(s, idx))
    requires EndsSection(Decode(s, Decode(s, idx).idx))
    ensures Pairs(s, idx) == ([], Decode(s, idx).idx)
    ensures Pairs(s, idx).1 > idx
  {
  }

  /** An empty section (the "SET" immediately followed by its end) gives an empty map
      and leaves the cursor just after "SET". */
  lemma EmptySection(p: Prims, s: Bytes, idx: nat)
    requires Decode(s, idx).outcome.Parsed? && Decode(s, idx).outcome.op.data == SetCommand
    requires EndsSection(Decode(s, Decode(s, idx).idx))
    ensures ParseMAPSpec(p, s, idx) == (Some(map[]), Decode(s, idx).idx)
  {
  }
}
