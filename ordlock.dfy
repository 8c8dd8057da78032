/** OrdLock listing detection (mod/ordlock/ordlock.go): an output whose script holds
    the fixed OrdLock contract prefix and suffix is a listing; the pushes between them
    name the seller's public-key hash and the serialized payment output. */
module OrdLock {
  import opened Base
  import opened Prims
  import opened Parser
  import opened Outpoints
  import opened Records
  import opened Txos
  import opened BitcomSection

  /** The contract bytes before the seller's data, as hexadecimal text. */
  const PrefixHex: string :=
    "2097dfd76851bf465e8f715593b217714858bbe9570ff3bd5e33840a34e20ff0262102ba79df5f8a"
    + "e7604a9830f03c7933028186aede0675a16f025dc4f8be8eec0382201008ce7480da41702918d1ec"
    + "8e6849ba32b4d65b1e40dc669c31a1e6306b266c0000"

  /** The contract bytes after the seller's data, as hexadecimal text. */
  const SuffixHex: string :=
    "615179547a75537a537a537a0079537a75527a527a7575615579008763567901c161517957795779"
    + "210ac407f0e4bd44bfc207355a778b046225a7068fc59ee7eda43ad905aadbffc800206c266b30e6"
    + "a1319c66dc401e5bd6b432ba49688eecd118297041da8074ce081059795679615679aa0079610079"
    + "517f517f517f517f517f517f517f517f517f517f517f517f517f517f517f517f517f517f517f517f"
    + "517f517f517f517f517f517f517f517f517f517f517f7c7e7c7e7c7e7c7e7c7e7c7e7c7e7c7e7c7e"
    + "7c7e7c7e7c7e7c7e7c7e7c7e7c7e7c7e7c7e7c7e7c7e7c7e7c7e7c7e7c7e7c7e7c7e7c7e7c7e7c7e"
    + "7c7e7c7e01007e81517a75615779567956795679567961537956795479577995939521414136d08c"
    + "5ed2bf3ba048afe6dcaebafeffffffffffffffffffffffffffffff00517951796151795179970079"
    + "009f63007952799367007968517a75517a75517a7561527a75517a517951795296a0630079527994"
    + "527a75517a6853798277527982775379012080517f517f517f517f517f517f517f517f517f517f51"
    + "7f517f517f517f517f517f517f517f517f517f517f517f517f517f517f517f517f517f517f517f51"
    + "7f7c7e7c7e7c7e7c7e7c7e7c7e7c7e7c7e7c7e7c7e7c7e7c7e7c7e7c7e7c7e7c7e7c7e7c7e7c7e7c"
    + "7e7c7e7c7e7c7e7c7e7c7e7c7e7c7e7c7e7c7e7c7e7c7e01205279947f7754537993527993013051"
    + "797e527e54797e58797e527e53797e52797e57797e0079517a75517a75517a75517a75517a75517a"
    + "75517a75517a75517a75517a75517a75517a75517a756100795779ac517a75517a75517a75517a75"
    + "517a75517a75517a75517a75517a7561517a75517a756169587951797e58797eaa57796100798277"
    + "5179517958947f7551790128947f77517a75517a7561877777777777777777776755795187635179"
    + "5779a9876957795779ac777777777777777767006868"

  const Prefix: Bytes := HexBytes(PrefixHex)
  const Suffix: Bytes := HexBytes(SuffixHex)

  const ListingEvent: string := "listing"

  /** `hex.DecodeString` with its error dropped: the bytes decoded, nothing when the
      text is not hexadecimal. */
  function HexBytes(h: string): Bytes {
    match HexDecode(h)
    case Some(b) => b
    case None => []
  }

  /** The bytes of `s` from the end of the first occurrence of `prefix` to the start of
      the first occurrence of `suffix`. Either marker missing gives nothing; a suffix
      that starts before the prefix ends makes the source's slice panic, and gives
      nothing here. */
  function Payload(s: Bytes, prefix: Bytes, suffix: Bytes): (r: Option<Bytes>)
  {
    match IndexOf(s, prefix)
    case None => None
    case Some(i) =>
      match IndexOf(s, suffix)
      case None => None
      case Some(j) => if i + |prefix| <= j then Some(s[i + |prefix|..j]) else None
  }

  /** The listing's price and payout are read from a zero-valued output before the
      payout push is decoded, so they are the empty output's. */
  function EmptyListing(p: Prims): Listing {
    Listing(0, p.emptyOutputBytes)
  }

  /** An entry stored under "bsv21" whose object is not a token makes the source's type
      assertion panic. */
  predicate BadTokenEntry(txo: Txo) {
    "bsv21" in txo.data && !txo.data["bsv21"].item.Bsv21Item?
  }

  /** `ordlock.Parse` for given markers: the listing found in output `vout` of the
      transaction. On a listing, the seller's public-key hash (the first push after the
      prefix) becomes the output's owner and nothing else in the context changes;
      without one the context is left as it was. A single push after the prefix makes the
      source index past the parsed operations and panic; the model reports no listing. */
  function ParseWith(p: Prims, ctx: IndexContext, vout: nat, prefix: Bytes, suffix: Bytes)
    : (r: ParseResult)
    ensures r.data.None? ==> r.ctx == ctx
    ensures r.data.Some? <==>
      && vout < |ctx.txos|
      && Payload(ctx.txos[vout].script, prefix, suffix).Some?
      && var parts := ParseOps(Payload(ctx.txos[vout].script, prefix, suffix).value);
      && parts.Some? && |parts.value| >= 2
      && !BadTokenEntry(ctx.txos[vout])
      && p.readOutput(parts.value[1].data)
    ensures r.data.Some? ==>
      && var parts := ParseOps(Payload(ctx.txos[vout].script, prefix, suffix).value).value;
      && r.data.value == Entry(ListingItem(EmptyListing(p)),
                               [EventLog(ListingEvent, ToString(ctx.txos[vout].outpoint))])
      && r.ctx == ctx.(txos := ctx.txos[vout := ctx.txos[vout].(owner := Some(parts[0].data))])
  {
    if vout >= |ctx.txos| then ParseResult(None, ctx)
    else
      var txo := ctx.txos[vout];
      match Payload(txo.script, prefix, suffix)
      case None => ParseResult(None, ctx)
      case Some(payload) =>
        match ParseOps(payload)
        case None => ParseResult(None, ctx)
        case Some(parts) =>
          if |parts| < 2 || BadTokenEntry(txo) || !p.readOutput(parts[1].data) then
            ParseResult(None, ctx)
          else
            var events := [EventLog(ListingEvent, ToString(txo.outpoint))];
            var owned := txo.(owner := Some(parts[0].data));
            ParseResult(Some(Entry(ListingItem(EmptyListing(p)), events)),
                        ctx.(txos := ctx.txos[vout := owned]))
  }

  /** `ordlock.Parse`: `ParseWith` for the OrdLock contract's markers. Everything the
      model states about it is stated of `ParseWith`, for any markers. */
  function Parse(p: Prims, ctx: IndexContext, vout: nat): ParseResult
  {
    ParseWith(p, ctx, vout, Prefix, Suffix)
  }

  // ---------------------------------------------------------------------------
  // Properties

  /** The payload is exactly what lies between the first prefix and the first suffix. */
  lemma PayloadBetween(s: Bytes, prefix: Bytes, suffix: Bytes)
    requires Payload(s, prefix, suffix).Some?
    ensures var d := Payload(s, prefix, suffix).value;
      exists i: nat :: && OccursAt(s, prefix, i)
                  && (forall j :: 0 <= j < i ==> !OccursAt(s, prefix, j))
                  && OccursAt(s, suffix, i + |prefix| + |d|)
                  && (forall j :: 0 <= j < i + |prefix| + |d| ==> !OccursAt(s, suffix, j))
                  && s[i + |prefix|..i + |prefix| + |d|] == d
  {
    var i := IndexOf(s, prefix).value;
    var j := IndexOf(s, suffix).value;
    assert i + |prefix| + |Payload(s, prefix, suffix).value| == j;
  }

  /** A script laid out as `lead + prefix + payload + suffix + tail`, with no earlier
      occurrence of either marker, yields `payload`. */
  lemma PayloadFound(lead: Bytes, prefix: Bytes, payload: Bytes, suffix: Bytes, tail: Bytes)
    requires forall j :: 0 <= j < |lead| ==> !OccursAt(lead + prefix + payload + suffix + tail, prefix, j)
    requires forall j :: 0 <= j < |lead| + |prefix| + |payload| ==>
      !OccursAt(lead + prefix + payload + suffix + tail, suffix, j)
    ensures Payload(lead + prefix + payload + suffix + tail, prefix, suffix) == Some(payload)
  {
    var s := lead + prefix + payload + suffix + tail;
    var i := |lead|;
    var j := |lead| + |prefix| + |payload|;
    assert s[i..i + |prefix|] == prefix;
    assert s[j..j + |suffix|] == suffix;
    assert s[i + |prefix|..j] == payload;
    assert OccursAt(s, prefix, i) && OccursAt(s, suffix, j);
    assert IndexOf(s, prefix) == Some(i);
    assert IndexOf(s, suffix) == Some(j);
  }

  /** The pushed bytes of each operation, in order. */
  function DataOf(parts: seq<OpPart>): (ds: seq<Bytes>)
    ensures |ds| == |parts| && forall k :: 0 <= k < |parts| ==> ds[k] == parts[k].data
  {
    if parts == [] then [] else [parts[0].data] + DataOf(parts[1..])
  }

  /** Pushes of `ds` filling `b` from `at` to its end parse as operations carrying them. */
  lemma {:induction false} ParseOpsPushed(b: Bytes, at: nat, ds: seq<Bytes>)
    requires at <= |b| && PushedAt(b, at, ds, |b|)
    ensures ParseOps(b, at).Some? && DataOf(ParseOps(b, at).value) == ds
    decreases |ds|
  {
    if ds != [] {
      var rd := Decode(b, at);
      ParseOpsPushed(b, rd.idx, ds[1..]);
      assert DataOf(ParseOps(b, at).value) == [ds[0]] + ds[1..];
    }
  }

  /** A listing script whose payload pushes the seller's key hash and a payout that
      decodes is recognised, and the output's owner becomes that key hash. */
  lemma ListingRecognised(p: Prims, ctx: IndexContext, vout: nat, prefix: Bytes, suffix: Bytes,
                          pkh: Bytes, payOut: Bytes)
    requires vout < |ctx.txos| && !BadTokenEntry(ctx.txos[vout])
    requires Payload(ctx.txos[vout].script, prefix, suffix).Some?
    requires var payload := Payload(ctx.txos[vout].script, prefix, suffix).value;
      PushedAt(payload, 0, [pkh, payOut], |payload|)
    requires p.readOutput(payOut)
    ensures var r := ParseWith(p, ctx, vout, prefix, suffix);
      r.data.Some? && r.ctx.txos[vout].owner == Some(pkh)
  {
    var payload := Payload(ctx.txos[vout].script, prefix, suffix).value;
    ParseOpsPushed(payload, 0, [pkh, payOut]);
    var parts := ParseOps(payload).value;
    assert parts[0].data == pkh && parts[1].data == payOut;
  }

  /** A payload holding a single push records nothing (the source panics there). */
  lemma SinglePushRejected(p: Prims, ctx: IndexContext, vout: nat, prefix: Bytes, suffix: Bytes,
                           pkh: Bytes)
    requires vout < |ctx.txos|
    requires Payload(ctx.txos[vout].script, prefix, suffix).Some?
    requires var payload := Payload(ctx.txos[vout].script, prefix, suffix).value;
      PushedAt(payload, 0, [pkh], |payload|)
    ensures ParseWith(p, ctx, vout, prefix, suffix) == ParseResult(None, ctx)
  {
    var payload := Payload(ctx.txos[vout].script, prefix, suffix).value;
    ParseOpsPushed(payload, 0, [pkh]);
  }
}
