/** The lineage resolver of one-satoshi outputs (mod/origin/origin.go). An output's
    origin is found by walking back through the inputs: the input whose first satoshi
    sits at the same offset as the output's, when it holds exactly one satoshi, is its
    predecessor, and the predecessor's origin, cached or resolved one level deeper, is
    inherited with its nonce counting the hops. */
module OriginIndexer {
  import opened Base
  import opened Outpoints
  import opened Records
  import opened Txos

  const Tag: string := "origin"
  const MapKey: string := "map"

  /** `MAX_DEPTH`: how many levels back the resolver may go. */
  const MaxDepth: nat := 1024

  /** Fetching a transaction by id and parsing it with the inscription, Bitcom, MAP and
      origin analyzers; nothing where either step fails and the source panics. */
  type Loader = Bytes -> Option<IndexContext>

  // ---------------------------------------------------------------------------
  // Satoshi offsets

  function SatoshiSum(txos: seq<Txo>): nat {
    if txos == [] then 0 else SatoshiSum(txos[..|txos| - 1]) + txos[|txos| - 1].satoshis
  }

  /** `OutAcc`: the satoshis of the outputs before `vout`, as a `uint64`. */
  function OutAcc(txos: seq<Txo>, vout: nat): uint64
    requires vout <= |txos|
  {
    Wrap64(SatoshiSum(txos[..vout]))
  }

  /** `Spend.InAcc`: the satoshis of the inputs before `vin`, as a `uint64`. */
  function InAcc(spends: seq<Txo>, vin: nat): uint64
    requires vin <= |spends|
  {
    Wrap64(SatoshiSum(spends[..vin]))
  }

  lemma InAccNext(spends: seq<Txo>, vin: nat)
    requires vin < |spends|
    ensures InAcc(spends, vin + 1) == Wrap64(InAcc(spends, vin) + spends[vin].satoshis)
  {
    assert spends[..vin + 1][..vin] == spends[..vin];
    Wrap64Add(SatoshiSum(spends[..vin]), spends[vin].satoshis);
  }

  /** Input `vin` holds one satoshi starting at offset `outAcc`. */
  predicate Matches(spends: seq<Txo>, vin: nat, outAcc: uint64)
    requires vin < |spends|
  {
    spends[vin].satoshis == 1 && InAcc(spends, vin) == outAcc
  }

  /** The predecessor scan from input `vin` on: the first matching input, giving up at
      the first input that starts past `outAcc`. */
  function Predecessor(spends: seq<Txo>, outAcc: uint64, vin: nat := 0): (r: Option<nat>)
    requires vin <= |spends|
    decreases |spends| - vin
    ensures r.Some? ==> vin <= r.value < |spends| && Matches(spends, r.value, outAcc)
    ensures r.Some? ==> forall k :: vin <= k < r.value ==>
      !Matches(spends, k, outAcc) && InAcc(spends, k) <= outAcc
    ensures r.None? ==> forall k :: vin <= k < |spends| && Matches(spends, k, outAcc) ==>
      exists m :: vin <= m < k && InAcc(spends, m) > outAcc
  {
    if vin == |spends| then None
    else if Matches(spends, vin, outAcc) then Some(vin)
    else if InAcc(spends, vin) > outAcc then None
    else Predecessor(spends, outAcc, vin + 1)
  }

  /** The scan over the inputs, with the running offset. */
  method FindPredecessor(spends: seq<Txo>, outAcc: uint64) returns (r: Option<nat>)
    ensures r == Predecessor(spends, outAcc)
  {
    var inAcc: uint64 := 0;
    var vin := 0;
    assert spends[..0] == [];
    while vin < |spends|
      invariant vin <= |spends| && inAcc == InAcc(spends, vin)
      invariant Predecessor(spends, outAcc, vin) == Predecessor(spends, outAcc)
    {
      if spends[vin].satoshis == 1 && inAcc == outAcc {
        return Some(vin);
      } else if inAcc > outAcc {
        return None;
      }
      InAccNext(spends, vin);
      inAcc := Wrap64(inAcc + spends[vin].satoshis);
      vin := vin + 1;
    }
    return None;
  }

  /** The first matching input of all, with no early stop. */
  function FirstMatch(spends: seq<Txo>, outAcc: uint64, vin: nat := 0): (r: Option<nat>)
    requires vin <= |spends|
    decreases |spends| - vin
  {
    if vin == |spends| then None
    else if Matches(spends, vin, outAcc) then Some(vin)
    else FirstMatch(spends, outAcc, vin + 1)
  }

  /** While the inputs' satoshis fit in 64 bits the offsets only grow. */
  lemma {:induction false} InAccGrows(spends: seq<Txo>, k: nat, m: nat)
    requires k <= m <= |spends| && SatoshiSum(spends) < U64
    ensures InAcc(spends, k) <= InAcc(spends, m)
    decreases m - k
  {
    if k < m {
      InAccGrows(spends, k, m - 1);
      SumPrefix(spends, m);
      assert spends[..m][..m - 1] == spends[..m - 1];
    }
  }

  lemma {:induction false} SumPrefix(spends: seq<Txo>, m: nat)
    requires m <= |spends|
    ensures SatoshiSum(spends[..m]) <= SatoshiSum(spends)
    decreases |spends| - m
  {
    if m < |spends| {
      SumPrefix(spends, m + 1);
      assert spends[..m + 1][..m] == spends[..m];
    } else {
      assert spends[..m] == spends;
    }
  }

  /** The early stop loses nothing while the offsets fit in 64 bits: once an input
      starts past `outAcc`, so does every later one. */
  lemma {:induction false} StopLosesNothing(spends: seq<Txo>, outAcc: uint64, vin: nat)
    requires vin <= |spends| && SatoshiSum(spends) < U64
    ensures Predecessor(spends, outAcc, vin) == FirstMatch(spends, outAcc, vin)
    decreases |spends| - vin
  {
    if vin < |spends| && !Matches(spends, vin, outAcc) {
      if InAcc(spends, vin) > outAcc {
        NoLaterMatch(spends, outAcc, vin + 1, vin);
      } else {
        StopLosesNothing(spends, outAcc, vin + 1);
      }
    }
  }

  lemma {:induction false} NoLaterMatch(spends: seq<Txo>, outAcc: uint64, vin: nat, past: nat)
    requires past < vin <= |spends| && SatoshiSum(spends) < U64
    requires InAcc(spends, past) > outAcc
    ensures FirstMatch(spends, outAcc, vin).None?
    decreases |spends| - vin
  {
    if vin < |spends| {
      InAccGrows(spends, past, vin);
      NoLaterMatch(spends, outAcc, vin + 1, past);
    }
  }

  // ---------------------------------------------------------------------------
  // Resolution

  /** The MAP data recorded on an output, or none. */
  function MapOf(txo: Txo): MapData {
    if MapKey in txo.data && txo.data[MapKey].item.MapItem? then txo.data[MapKey].item.mapData
    else map[]
  }

  /** A cached origin stored on a spent output, in its persisted form. */
  function CacheOf(spend: Txo): Option<CachedOrigin> {
    if Tag in spend.data && spend.data[Tag].item.OriginCacheItem? then Some(spend.data[Tag].item.cached)
    else None
  }

  /** The cached form read back: a malformed outpoint reads as none, a missing nonce as 0. */
  function FromCache(c: CachedOrigin): (o: Origin)
    ensures o.nonce == (if c.nonce.Some? then c.nonce.value else 0) && o.data == c.data && o.deps == []
    ensures o.outpoint.Some? <==> c.outpoint.Some? && FromString(c.outpoint.value).Ok?
    ensures o.outpoint.Some? ==> Ok(o.outpoint.value) == FromString(c.outpoint.value)
  {
    var op := match c.outpoint
      case None => None
      case Some(s) => (match FromString(s) case Ok(p) => Some(p) case Err(_) => None);
    Origin(op, if c.nonce.Some? then c.nonce.value else 0, c.data, [])
  }

  /** The ids of the transactions some inputs spend. */
  function TxidsOf(spends: seq<Txo>): (r: seq<Bytes>)
    ensures |r| == |spends| && forall k :: 0 <= k < |spends| ==> r[k] == spends[k].outpoint.txid
  {
    if spends == [] then [] else TxidsOf(spends[..|spends| - 1]) + [spends[|spends| - 1].outpoint.txid]
  }

  datatype Lineage = Found(origin: Origin) | NoLineage | Crashed

  /** An origin written back to the store on the spent output it was resolved for. */
  datatype Saved = Saved(spend: Outpoint, origin: Origin)

  datatype Resolution = Resolution(lineage: Lineage, saved: seq<Saved>)

  /** The output's own origin: itself, no hops, a copy of its MAP data. */
  function SelfOrigin(txo: Txo): Origin {
    Origin(Some(txo.outpoint), 0, Some(MapOf(txo)), [])
  }

  /** An inherited origin one hop further on: the nonce grows by one (as a `uint32`)
      and the output's MAP keys overwrite the inherited ones. Writing a key into an
      absent map panics. */
  function Advance(o: Origin, m: MapData): (r: Lineage)
    ensures r.Crashed? <==> o.data.None? && m != map[]
    ensures r.Found? ==>
      r.origin.nonce == Wrap32(o.nonce + 1) && r.origin.outpoint == o.outpoint && r.origin.deps == o.deps
    ensures r.Found? && o.data.Some? ==> r.origin.data == Some(o.data.value + m)
  {
    if o.data.None? then (if m == map[] then Found(o.(nonce := Wrap32(o.nonce + 1))) else Crashed)
    else Found(o.(nonce := Wrap32(o.nonce + 1), data := Some(o.data.value + m)))
  }

  /** `calcOrigin`. Past the depth bound there is no lineage. Without a predecessor the
      output is its own origin. A cached predecessor origin is advanced directly; an
      uncached one is resolved one level deeper in the predecessor's transaction, given
      dependencies on the txids of the earlier inputs, saved on the input, and then
      advanced; when it does not resolve, neither does this one. */
  function CalcOrigin(load: Loader, ctx: IndexContext, vout: nat, depth: nat): (r: Resolution)
    decreases MaxDepth + 1 - depth
    ensures depth > MaxDepth ==> r == Resolution(NoLineage, [])
    ensures (depth <= MaxDepth && vout < |ctx.txos| &&
             Predecessor(ctx.spends, OutAcc(ctx.txos, vout)).None?) ==>
      r.saved == [] && r.lineage.Found? &&
      r.lineage.origin.outpoint == Some(ctx.txos[vout].outpoint) &&
      r.lineage.origin.nonce == 0 && r.lineage.origin.data == Some(MapOf(ctx.txos[vout]))
    ensures (depth <= MaxDepth && vout < |ctx.txos| &&
             Predecessor(ctx.spends, OutAcc(ctx.txos, vout)).Some?) ==>
      var spend := ctx.spends[Predecessor(ctx.spends, OutAcc(ctx.txos, vout)).value];
      CacheOf(spend).Some? ==>
      r == Resolution(Advance(FromCache(CacheOf(spend).value), MapOf(ctx.txos[vout])), [])
  {
    if depth > MaxDepth then Resolution(NoLineage, [])
    else if vout >= |ctx.txos| then Resolution(Crashed, [])
    else
      var txo := ctx.txos[vout];
      match Predecessor(ctx.spends, OutAcc(ctx.txos, vout))
      case None => Resolution(Found(SelfOrigin(txo)), [])
      case Some(vin) =>
        var spend := ctx.spends[vin];
        match CacheOf(spend)
        case Some(c) => Resolution(Advance(FromCache(c), MapOf(txo)), [])
        case None =>
          match load(spend.outpoint.txid)
          case None => Resolution(Crashed, [])
          case Some(sctx) =>
            var sub := CalcOrigin(load, sctx, spend.outpoint.vout, depth + 1);
            match sub.lineage
            case Found(o) =>
              var o2 := o.(deps := o.deps + TxidsOf(ctx.spends[..vin]));
              Resolution(Advance(o2, MapOf(txo)), sub.saved + [Saved(spend.outpoint, o2)])
            case _ => sub
  }

  /** An uncached predecessor: it is resolved in the fetched transaction, saved with
      the dependencies before the hop is counted, and a predecessor that does not
      resolve leaves this output without lineage, never falling back to itself. */
  lemma Recomputed(load: Loader, ctx: IndexContext, vout: nat, depth: nat)
    requires depth <= MaxDepth && vout < |ctx.txos|
    requires Predecessor(ctx.spends, OutAcc(ctx.txos, vout)).Some?
    requires CacheOf(ctx.spends[Predecessor(ctx.spends, OutAcc(ctx.txos, vout)).value]).None?
    ensures var vin := Predecessor(ctx.spends, OutAcc(ctx.txos, vout)).value;
      var spend := ctx.spends[vin];
      var r := CalcOrigin(load, ctx, vout, depth);
      (load(spend.outpoint.txid).None? ==> r.lineage.Crashed?) &&
      (load(spend.outpoint.txid).Some? ==>
        var sub := CalcOrigin(load, load(spend.outpoint.txid).value, spend.outpoint.vout, depth + 1);
        (sub.lineage.NoLineage? ==> r.lineage.NoLineage?) &&
        (sub.lineage.Found? ==>
          var o2 := sub.lineage.origin.(deps := sub.lineage.origin.deps + TxidsOf(ctx.spends[..vin]));
          r.saved == sub.saved + [Saved(spend.outpoint, o2)] &&
          r.lineage == Advance(o2, MapOf(ctx.txos[vout]))))
  {
  }

  /** `Origin.Parse`: only one-satoshi outputs have an origin. */
  function Parse(load: Loader, ctx: IndexContext, vout: nat): (r: Resolution)
    ensures vout < |ctx.txos| && ctx.txos[vout].satoshis != 1 ==> r == Resolution(NoLineage, [])
    ensures vout < |ctx.txos| && ctx.txos[vout].satoshis == 1 ==> r == CalcOrigin(load, ctx, vout, 0)
  {
    if vout >= |ctx.txos| then Resolution(Crashed, [])
    else if ctx.txos[vout].satoshis != 1 then Resolution(NoLineage, [])
    else CalcOrigin(load, ctx, vout, 0)
  }

  /** The MAP merge loop: every key of `m` is written into `data`. */
  method MergeMap(data: MapData, m: MapData) returns (r: MapData)
    ensures r == data + m
  {
    r := data;
    var keys := m.Keys;
    while keys != {}
      invariant keys <= m.Keys
      invariant r == data + (m - keys)
      decreases |keys|
    {
      var k :| k in keys;
      assert data + (m - (keys - {k})) == (data + (m - keys))[k := m[k]];
      r := r[k := m[k]];
      keys := keys - {k};
    }
    assert m - keys == m;
  }

  method AdvanceOrigin(o: Origin, m: MapData) returns (r: Lineage)
    ensures r == Advance(o, m)
  {
    var next := o.(nonce := Wrap32(o.nonce + 1));
    if o.data.None? {
      if m != map[] {
        return Crashed;
      }
      return Found(next);
    }
    var merged := MergeMap(o.data.value, m);
    return Found(next.(data := Some(merged)));
  }

  /** The dependency loop: one txid per input before `vin`. */
  method AddDependencies(o: Origin, spends: seq<Txo>, vin: nat) returns (r: Origin)
    requires vin <= |spends|
    ensures r == o.(deps := o.deps + TxidsOf(spends[..vin]))
  {
    r := o;
    var i := 0;
    assert spends[..0] == [];
    while i < vin
      invariant i <= vin && r == o.(deps := o.deps + TxidsOf(spends[..i]))
    {
      assert spends[..i + 1][..i] == spends[..i];
      r := r.(deps := r.deps + [spends[i].outpoint.txid]);
      i := i + 1;
    }
  }

  /** `calcOrigin` as the source runs it: the scan, the cache test or the recursive
      call, the dependency loop and the in-place advance. */
  method Resolve(load: Loader, ctx: IndexContext, vout: nat, depth: nat) returns (r: Resolution)
    decreases MaxDepth + 1 - depth
    ensures r == CalcOrigin(load, ctx, vout, depth)
  {
    if depth > MaxDepth {
      return Resolution(NoLineage, []);
    }
    if vout >= |ctx.txos| {
      return Resolution(Crashed, []);
    }
    var txo := ctx.txos[vout];
    var found := FindPredecessor(ctx.spends, OutAcc(ctx.txos, vout));
    if found.None? {
      var data := MergeMap(map[], MapOf(txo));
      assert map[] + MapOf(txo) == MapOf(txo);
      return Resolution(Found(Origin(Some(txo.outpoint), 0, Some(data), [])), []);
    }
    var vin := found.value;
    var spend := ctx.spends[vin];
    var cached := CacheOf(spend);
    if cached.Some? {
      var l := AdvanceOrigin(FromCache(cached.value), MapOf(txo));
      return Resolution(l, []);
    }
    var sctx := load(spend.outpoint.txid);
    if sctx.None? {
      return Resolution(Crashed, []);
    }
    var sub := Resolve(load, sctx.value, spend.outpoint.vout, depth + 1);
    if !sub.lineage.Found? {
      return sub;
    }
    var o := AddDependencies(sub.lineage.origin, ctx.spends, vin);
    var l := AdvanceOrigin(o, MapOf(txo));
    r := Resolution(l, sub.saved + [Saved(spend.outpoint, o)]);
  }

  // ---------------------------------------------------------------------------
  // Determinism

  datatype Hop = Hop(root: Outpoint, hops: nat)

  /** The chain walked back without any cache: the first output with no predecessor,
      and how many one-satoshi hops lead to it. */
  function Walk(load: Loader, ctx: IndexContext, vout: nat, depth: nat): (r: Option<Hop>)
    decreases MaxDepth + 1 - depth
    ensures r.Some? ==> depth + r.value.hops <= MaxDepth
  {
    if depth > MaxDepth || vout >= |ctx.txos| then None
    else
      match Predecessor(ctx.spends, OutAcc(ctx.txos, vout))
      case None => Some(Hop(ctx.txos[vout].outpoint, 0))
      case Some(vin) =>
        var spend := ctx.spends[vin];
        match load(spend.outpoint.txid)
        case None => None
        case Some(sctx) =>
          match Walk(load, sctx, spend.outpoint.vout, depth + 1)
          case None => None
          case Some(h) => Some(Hop(h.root, h.hops + 1))
  }

  /** Every cache met on the way back agrees with the uncached walk from there, and
      holds MAP data. */
  predicate CacheSound(load: Loader, ctx: IndexContext, vout: nat, depth: nat)
    decreases MaxDepth + 1 - depth
  {
    depth > MaxDepth || vout >= |ctx.txos| ||
    match Predecessor(ctx.spends, OutAcc(ctx.txos, vout))
    case None => true
    case Some(vin) =>
      var spend := ctx.spends[vin];
      match load(spend.outpoint.txid)
      case None => true
      case Some(sctx) =>
        match CacheOf(spend)
        case Some(c) =>
          var h := Walk(load, sctx, spend.outpoint.vout, depth + 1);
          h.Some? && FromCache(c).outpoint == Some(h.value.root) &&
          FromCache(c).nonce == h.value.hops && c.data.Some?
        case None => CacheSound(load, sctx, spend.outpoint.vout, depth + 1)
  }

  /** Lineage determinism: wherever the walk back succeeds and the caches on the way
      agree with it, the resolved origin is the walk's root and its nonce is the number
      of hops, whichever links were cached. */
  lemma {:induction false} Determinism(load: Loader, ctx: IndexContext, vout: nat, depth: nat)
    requires CacheSound(load, ctx, vout, depth) && Walk(load, ctx, vout, depth).Some?
    ensures var r := CalcOrigin(load, ctx, vout, depth);
      r.lineage.Found? && r.lineage.origin.outpoint == Some(Walk(load, ctx, vout, depth).value.root) &&
      r.lineage.origin.nonce == Walk(load, ctx, vout, depth).value.hops &&
      r.lineage.origin.data.Some?
    decreases MaxDepth + 1 - depth
  {
    var p := Predecessor(ctx.spends, OutAcc(ctx.txos, vout));
    if p.Some? {
      var spend := ctx.spends[p.value];
      if CacheOf(spend).None? {
        var sctx := load(spend.outpoint.txid).value;
        Determinism(load, sctx, spend.outpoint.vout, depth + 1);
        UncachedHop(load, ctx, vout, depth);
      } else {
        CachedHop(load, ctx, vout, depth);
      }
    }
  }

  /** One cached link of `Determinism`. */
  lemma CachedHop(load: Loader, ctx: IndexContext, vout: nat, depth: nat)
    requires CacheSound(load, ctx, vout, depth) && Walk(load, ctx, vout, depth).Some?
    requires Predecessor(ctx.spends, OutAcc(ctx.txos, vout)).Some?
    requires CacheOf(ctx.spends[Predecessor(ctx.spends, OutAcc(ctx.txos, vout)).value]).Some?
    ensures var r := CalcOrigin(load, ctx, vout, depth);
      r.lineage.Found? && r.lineage.origin.outpoint == Some(Walk(load, ctx, vout, depth).value.root) &&
      r.lineage.origin.nonce == Walk(load, ctx, vout, depth).value.hops &&
      r.lineage.origin.data.Some?
  {
    var vin := Predecessor(ctx.spends, OutAcc(ctx.txos, vout)).value;
    var spend := ctx.spends[vin];
    var c := CacheOf(spend).value;
    var sctx := load(spend.outpoint.txid).value;
    var h := Walk(load, sctx, spend.outpoint.vout, depth + 1).value;
    assert Walk(load, ctx, vout, depth).value == Hop(h.root, h.hops + 1);
    assert FromCache(c).nonce as nat == h.hops && h.hops + 1 < U32;
  }

  /** One recomputed link of `Determinism`, given the claim one level deeper. */
  lemma UncachedHop(load: Loader, ctx: IndexContext, vout: nat, depth: nat)
    requires depth <= MaxDepth && vout < |ctx.txos| && Walk(load, ctx, vout, depth).Some?
    requires Predecessor(ctx.spends, OutAcc(ctx.txos, vout)).Some?
    requires var spend := ctx.spends[Predecessor(ctx.spends, OutAcc(ctx.txos, vout)).value];
      CacheOf(spend).None? && load(spend.outpoint.txid).Some? &&
      var sctx := load(spend.outpoint.txid).value;
      var r := CalcOrigin(load, sctx, spend.outpoint.vout, depth + 1);
      Walk(load, sctx, spend.outpoint.vout, depth + 1).Some? &&
      r.lineage.Found? && r.lineage.origin.outpoint == Some(Walk(load, sctx, spend.outpoint.vout, depth + 1).value.root) &&
      r.lineage.origin.nonce == Walk(load, sctx, spend.outpoint.vout, depth + 1).value.hops &&
      r.lineage.origin.data.Some?
    ensures var r := CalcOrigin(load, ctx, vout, depth);
      r.lineage.Found? && r.lineage.origin.outpoint == Some(Walk(load, ctx, vout, depth).value.root) &&
      r.lineage.origin.nonce == Walk(load, ctx, vout, depth).value.hops &&
      r.lineage.origin.data.Some?
  {
    var vin := Predecessor(ctx.spends, OutAcc(ctx.txos, vout)).value;
    var spend := ctx.spends[vin];
    var sctx := load(spend.outpoint.txid).value;
    var h := Walk(load, sctx, spend.outpoint.vout, depth + 1).value;
    assert Walk(load, ctx, vout, depth).value == Hop(h.root, h.hops + 1);
    assert h.hops + 1 < U32;
  }

  /** No input on the way back carries a cached origin. */
  predicate NoCaches(load: Loader, ctx: IndexContext, vout: nat, depth: nat)
    decreases MaxDepth + 1 - depth
  {
    depth > MaxDepth || vout >= |ctx.txos| ||
    match Predecessor(ctx.spends, OutAcc(ctx.txos, vout))
    case None => true
    case Some(vin) =>
      var spend := ctx.spends[vin];
      CacheOf(spend).None? &&
      match load(spend.outpoint.txid)
      case None => true
      case Some(sctx) => NoCaches(load, sctx, spend.outpoint.vout, depth + 1)
  }

  lemma {:induction false} NoCachesSound(load: Loader, ctx: IndexContext, vout: nat, depth: nat)
    requires NoCaches(load, ctx, vout, depth)
    ensures CacheSound(load, ctx, vout, depth)
    decreases MaxDepth + 1 - depth
  {
    if depth <= MaxDepth && vout < |ctx.txos| {
      var p := Predecessor(ctx.spends, OutAcc(ctx.txos, vout));
      if p.Some? {
        var spend := ctx.spends[p.value];
        if load(spend.outpoint.txid).Some? {
          NoCachesSound(load, load(spend.outpoint.txid).value, spend.outpoint.vout, depth + 1);
        }
      }
    }
  }

  /** An uncached chain of k one-satoshi hops resolves to its first output with nonce k. */
  lemma UncachedChain(load: Loader, ctx: IndexContext, vout: nat, k: nat, root: Outpoint)
    requires NoCaches(load, ctx, vout, 0) && Walk(load, ctx, vout, 0) == Some(Hop(root, k))
    ensures CalcOrigin(load, ctx, vout, 0).lineage.Found?
    ensures CalcOrigin(load, ctx, vout, 0).lineage.origin.outpoint == Some(root)
    ensures CalcOrigin(load, ctx, vout, 0).lineage.origin.nonce == k
  {
    NoCachesSound(load, ctx, vout, 0);
    Determinism(load, ctx, vout, 0);
  }
}
