/** The older revision of transaction ingestion (txo-store/store.go), over a store of JSON
    documents. `Parse` resolves each input right after its spent transaction is loaded or
    ingested, and takes every record from a document lookup; `Ingest` then writes record
    after record and member after member, stopping at the first refused write with what
    was written before it kept, and writes no spend records at all. */
module TxoStoreOld {
  import opened Base
  import opened Outpoints
  import opened Records
  import opened Txos
  import opened TxoStore
  import PKHash
  import BitcomScan

  /** The JSON documents by key, and the "events" sorted set. */
  datatype Docs = Docs(json: map<string, Txo>, events: map<string, Score>)

  /** `Txo.ID` (lib/txo.go:20-22): the key `Ingest` writes an output's record under. */
  function IdKey(o: Outpoint): string {
    "txo:" + ToString(o)
  }

  /** The key `Parse` looks a record up by. As written it is the bare outpoint string; the
      intended reading looks where `Ingest` writes. */
  function ReadKey(g: BitcomScan.Variant, o: Outpoint): string {
    if g == BitcomScan.AsWritten then ToString(o) else IdKey(o)
  }

  const EventsKey := "events"

  // ---------------------------------------------------------------------------
  // Inputs

  /** The spend for input `vin` once its transaction `prev` is known: a stub from the
      spent output (an index past `prev`'s outputs panics), overwritten by the stored
      record when there is one, then marked spent by this input. As written a missing
      record is still decoded, from an empty document, which fails. */
  function StubSpend(g: BitcomScan.Variant, docs: Docs, txid: Bytes, block: Block, input: Input,
                     prev: Transaction, vin: nat): (r: Status<Txo>)
    ensures r.Done? ==> r.value.spend == Some(Spend(txid, Wrap32(vin), block))
    ensures r.Panic? <==> (input.sourceVout as nat) >= |prev.outputs|
    ensures r.Failure? <==> ((input.sourceVout as nat) < |prev.outputs| &&
                             ReadKey(g, SourceOf(input)) !in docs.json && g == BitcomScan.AsWritten)
    ensures r.Done? && ReadKey(g, SourceOf(input)) in docs.json ==>
      r.value == docs.json[ReadKey(g, SourceOf(input))].(spend := r.value.spend)
    ensures r.Done? && ReadKey(g, SourceOf(input)) !in docs.json ==>
      var out := prev.outputs[input.sourceVout];
      r.value == Txo(SourceOf(input), out.satoshis, out.script, NoBlock, None, r.value.spend, map[])
  {
    if (input.sourceVout as nat) >= |prev.outputs| then Panic
    else
      var out := prev.outputs[input.sourceVout];
      var key := ReadKey(g, SourceOf(input));
      var spend := Some(Spend(txid, Wrap32(vin), block));
      if key in docs.json then Done(docs.json[key].(spend := spend))
      else if g == BitcomScan.AsWritten then Failure
      else Done(Txo(SourceOf(input), out.satoshis, out.script, NoBlock, None, spend, map[]))
  }

  /** The inputs from `vin` on, in order: the spent transaction is looked up when it is
      not attached and ingested when it is, and the input's spend is resolved before the
      next input is looked at. Any failure ends the pass, keeping the writes before it. */
  function SpendsFrom(env: Env, refuse: string -> bool, docs: Docs, tx: Transaction, block: Block,
                      vin: nat, acc: seq<Txo>): (r: (Status<seq<Txo>>, Docs))
    requires vin <= |tx.inputs|
    decreases tx, 0, |tx.inputs| - vin
  {
    if vin == |tx.inputs| then (Done(acc), docs)
    else
      var (f, docs1) := Fetched(env, refuse, docs, tx, vin);
      match f
      case Done(prev) => SpendThen(env, refuse, docs1, tx, block, vin, acc, prev)
      case Failure => (Failure, docs1)
      case Panic => (Panic, docs1)
  }

  /** The transaction input `vin` spends: looked up when it is not attached, ingested
      first when it is. */
  function Fetched(env: Env, refuse: string -> bool, docs: Docs, tx: Transaction, vin: nat): (r: (Status<Transaction>, Docs))
    requires vin < |tx.inputs|
    decreases tx, 0, |tx.inputs| - vin, 1
  {
    match tx.inputs[vin].source
    case None =>
      (match env.loadTx(tx.inputs[vin].sourceTxid)
       case None => (Failure, docs)
       case Some(prev) => (Done(prev), docs))
    case Some(prev) =>
      var (st, docs1) := IngestJson(env, refuse, docs, prev);
      match st
      case Done(_) => (Done(prev), docs1)
      case Failure => (Failure, docs1)
      case Panic => (Panic, docs1)
  }

  /** Input `vin`'s spend, then the inputs after it. */
  function SpendThen(env: Env, refuse: string -> bool, docs: Docs, tx: Transaction, block: Block,
                     vin: nat, acc: seq<Txo>, prev: Transaction): (r: (Status<seq<Txo>>, Docs))
    requires vin < |tx.inputs|
    decreases tx, 0, |tx.inputs| - vin, 0
  {
    match StubSpend(env.g, docs, tx.txid, block, tx.inputs[vin], prev, vin)
    case Done(t) => SpendsFrom(env, refuse, docs, tx, block, vin + 1, acc + [t])
    case Failure => (Failure, docs)
    case Panic => (Panic, docs)
  }

  // ---------------------------------------------------------------------------
  // Outputs

  /** The owner after re-derivation, which happens only when the record has one; nothing
      where the source panics. The derived hash is assigned whatever it is. As written the
      library check is used, which panics on P2PKH scripts; the intended reading uses the
      five-op check. */
  function OwnerOf(g: BitcomScan.Variant, txo: Txo): (r: Option<Option<Bytes>>)
    ensures txo.owner.None? ==> r == Some(None)
    ensures g == BitcomScan.Intended ==> r.Some?
    ensures g == BitcomScan.AsWritten && txo.owner.Some? ==> (r.None? <==> LibPKHashFromScript(txo.script) == LibPanic)
  {
    if txo.owner.None? then Some(None)
    else if g == BitcomScan.AsWritten then
      match LibPKHashFromScript(txo.script)
      case LibPanic => None
      case LibError => Some(None)
      case LibFound(h) => Some(h)
    else
      match PKHash.NewPKHashFromScript(txo.script)
      case ParseError => Some(None)
      case Found(h) => Some(h)
  }

  /** The record for output `vout`: the stored document when there is one, a fresh record
      from the output otherwise, always moved into `block`. */
  function OutputRecord(g: BitcomScan.Variant, docs: Docs, txid: Bytes, block: Block, output: Output, vout: nat): (r: Option<Txo>)
    ensures r.Some? ==> r.value.block == block
    ensures var op := Outpoint(txid, Wrap32(vout));
      ReadKey(g, op) !in docs.json ==> r == Some(Txo(op, output.satoshis, output.script, block, None, None, map[]))
    ensures var key := ReadKey(g, Outpoint(txid, Wrap32(vout)));
      key in docs.json && r.Some? ==>
      var stored := docs.json[key];
      r.value.outpoint == stored.outpoint && r.value.satoshis == stored.satoshis && r.value.script == stored.script &&
      r.value.spend == stored.spend && r.value.data == stored.data && (stored.owner.None? ==> r.value.owner.None?)
  {
    var op := Outpoint(txid, Wrap32(vout));
    var key := ReadKey(g, op);
    var base := if key in docs.json then docs.json[key] else Txo(op, output.satoshis, output.script, NoBlock, None, None, map[]);
    match OwnerOf(g, base)
    case None => None
    case Some(o) => Some(base.(owner := o, block := block))
  }

  /** One output: its record is appended to the context before the analyzers see it. */
  function OutputPass(env: Env, docs: Docs, tx: Transaction, block: Block, p: Pass, vout: nat): (r: Status<Pass>)
    requires vout < |tx.outputs|
  {
    match OutputRecord(env.g, docs, tx.txid, block, tx.outputs[vout], vout)
    case None => Panic
    case Some(txo) => Analyze(env.g, env.analyzers, Pass(p.ctx.(txos := p.ctx.txos + [txo]), p.calls), vout, 0)
  }

  /** The outputs from `vout` on, in order. */
  function OutputsFrom(env: Env, docs: Docs, tx: Transaction, block: Block, p: Pass, vout: nat): (r: Status<Pass>)
    requires vout <= |tx.outputs|
    decreases |tx.outputs| - vout
  {
    if vout == |tx.outputs| then Done(p)
    else match OutputPass(env, docs, tx, block, p, vout)
      case Done(q) => OutputsFrom(env, docs, tx, block, q, vout + 1)
      case Failure => Failure
      case Panic => Panic
  }

  /** The outputs and then every `Save`, once the spends are known. */
  function Finish(env: Env, docs: Docs, tx: Transaction, block: Block, spends: seq<Txo>): (r: Status<Pass>) {
    match OutputsFrom(env, docs, tx, block, Pass(IndexContext(tx.txid, block, spends, [], InputOutpoints(tx.inputs)), []), 0)
    case Done(p) => SaveAll(env.analyzers, p, 0)
    case Failure => Failure
    case Panic => Panic
  }

  // ---------------------------------------------------------------------------
  // Parse and Ingest

  /** `Parse`: the block, the inputs of a transaction that is not a coinbase, then the
      outputs and the saves. The store changes only through the nested ingests. */
  function ParseJson(env: Env, refuse: string -> bool, docs: Docs, tx: Transaction): (r: (Status<Pass>, Docs))
    decreases tx, 1
  {
    match BlockOf(tx, env.now)
    case None => (Panic, docs)
    case Some(block) =>
      var (st, docs1) := if tx.coinbase then (Done([]), docs) else SpendsFrom(env, refuse, docs, tx, block, 0, []);
      match st
      case Failure => (Failure, docs1)
      case Panic => (Panic, docs1)
      case Done(spends) => (Finish(env, docs1, tx, block, spends), docs1)
  }

  /** `Ingest`: parse, then write every output's record and members. */
  function IngestJson(env: Env, refuse: string -> bool, docs: Docs, tx: Transaction): (r: (Status<IndexContext>, Docs))
    decreases tx, 2
    ensures !ParseJson(env, refuse, docs, tx).0.Done? ==> r.1 == ParseJson(env, refuse, docs, tx).1
  {
    var (st, docs1) := ParseJson(env, refuse, docs, tx);
    match st
    case Failure => (Failure, docs1)
    case Panic => (Panic, docs1)
    case Done(p) =>
      var (w, docs2) := RecordWrites(env.g, env.analyzers, refuse, docs1, p.ctx.txid, p.ctx.txos, 0);
      match w
      case Done(_) => (Done(p.ctx), docs2)
      case Failure => (Failure, docs2)
      case Panic => (Panic, docs2)
  }

  // ---------------------------------------------------------------------------
  // The writes

  /** The members of one entry's events, in order. */
  function EntryMembers(tag: string, events: seq<EventLog>, txid: Bytes, vout: nat): (r: seq<string>)
    ensures |r| == |events| && forall i :: 0 <= i < |events| ==> r[i] == Member(tag, events[i], txid, vout)
  {
    seq(|events|, i requires 0 <= i < |events| => Member(tag, events[i], txid, vout))
  }

  /** The members one output adds, from the `k`-th analyzer on in registration order, each
      built from the analyzer's own tag and the entry stored under it; `missing` when an
      analyzer without an entry is reached, where as written reading its events panics. */
  function Pending(g: BitcomScan.Variant, analyzers: seq<Analyzer>, t: Txo, txid: Bytes, vout: nat, k: nat): (r: (seq<string>, bool))
    requires k <= |analyzers|
    decreases |analyzers| - k
  {
    if k == |analyzers| then ([], false)
    else
      var tag := analyzers[k].tag;
      if tag !in t.data then
        if g == BitcomScan.AsWritten then ([], true) else Pending(g, analyzers, t, txid, vout, k + 1)
      else
        var rest := Pending(g, analyzers, t, txid, vout, k + 1);
        (EntryMembers(tag, t.data[tag].events, txid, vout) + rest.0, rest.1)
  }

  /** The members pending for an output are exactly those of the entries of the analyzers
      from the `k`-th on, unless an analyzer without an entry stops the list, which as
      written happens exactly when there is one. */
  lemma {:induction false} PendingMembers(g: BitcomScan.Variant, analyzers: seq<Analyzer>, t: Txo, txid: Bytes, vout: nat, k: nat)
    requires k <= |analyzers|
    ensures var r := Pending(g, analyzers, t, txid, vout, k);
      r.1 <==> g == BitcomScan.AsWritten && exists j :: k <= j < |analyzers| && analyzers[j].tag !in t.data
    ensures forall m :: m in Pending(g, analyzers, t, txid, vout, k).0 ==> exists j, i ::
      (k <= j < |analyzers| && analyzers[j].tag in t.data && 0 <= i < |t.data[analyzers[j].tag].events| &&
       m == Member(analyzers[j].tag, t.data[analyzers[j].tag].events[i], txid, vout))
    ensures var r := Pending(g, analyzers, t, txid, vout, k);
      !r.1 ==> forall j, i ::
      (k <= j < |analyzers| && analyzers[j].tag in t.data && 0 <= i < |t.data[analyzers[j].tag].events|) ==>
      Member(analyzers[j].tag, t.data[analyzers[j].tag].events[i], txid, vout) in r.0
    decreases |analyzers| - k
  {
    if k < |analyzers| {
      PendingMembers(g, analyzers, t, txid, vout, k + 1);
      var tag := analyzers[k].tag;
      if tag in t.data {
        var here := EntryMembers(tag, t.data[tag].events, txid, vout);
        assert forall m :: m in here ==> exists i :: 0 <= i < |t.data[tag].events| && m == here[i];
      }
    }
  }

  /** The sorted set after adding members `ms` one by one, all with score `sc`. */
  function AddAll(events: map<string, Score>, ms: seq<string>, sc: Score): (r: map<string, Score>)
    ensures forall m :: m in r <==> m in events || m in ms
    ensures forall m :: m in ms ==> r[m] == sc
    ensures forall m :: m in events && m !in ms ==> r[m] == events[m]
  {
    if ms == [] then events else AddAll(events, ms[..|ms| - 1], sc)[ms[|ms| - 1] := sc]
  }

  /** Output `vout`'s writes, one command after another: its record, then its members. A
      refused write returns an error; as written the score of an unspent output and the
      events of an analyzer without an entry panic. Either way what was written stays. */
  function OutputWrites(g: BitcomScan.Variant, analyzers: seq<Analyzer>, refuse: string -> bool, docs: Docs,
                        txid: Bytes, t: Txo, vout: nat): (r: (Status<()>, Docs))
    ensures refuse(IdKey(t.outpoint)) ==> r == (Failure, docs)
    ensures !refuse(IdKey(t.outpoint)) ==> r.1.json == docs.json[IdKey(t.outpoint) := t]
    ensures r.0.Done? <==> (!refuse(IdKey(t.outpoint)) && ScoreOf(g, t).Some? && !Pending(g, analyzers, t, txid, vout, 0).1 &&
                            (Pending(g, analyzers, t, txid, vout, 0).0 == [] || !refuse(EventsKey)))
    ensures r.0.Done? ==> r.1.events == AddAll(docs.events, Pending(g, analyzers, t, txid, vout, 0).0, ScoreOf(g, t).value)
  {
    var key := IdKey(t.outpoint);
    if refuse(key) then (Failure, docs)
    else
      var json := docs.json[key := t];
      match ScoreOf(g, t)
      case None => (Panic, Docs(json, docs.events))
      case Some(sc) =>
        var (st, events) := MemberWrites(g, analyzers, refuse, docs.events, t, txid, vout, sc);
        (st, Docs(json, events))
  }

  /** One output's members, all with score `sc`: the first refused write returns an
      error, and as written reaching an analyzer without an entry panics. */
  function MemberWrites(g: BitcomScan.Variant, analyzers: seq<Analyzer>, refuse: string -> bool,
                        events: map<string, Score>, t: Txo, txid: Bytes, vout: nat, sc: Score): (r: (Status<()>, map<string, Score>))
  {
    var (ms, missing) := Pending(g, analyzers, t, txid, vout, 0);
    if ms != [] && refuse(EventsKey) then (Failure, events)
    else if missing then (Panic, AddAll(events, ms, sc))
    else (Done(()), AddAll(events, ms, sc))
  }

  lemma MemberWritesOf(g: BitcomScan.Variant, analyzers: seq<Analyzer>, refuse: string -> bool,
                       events: map<string, Score>, t: Txo, txid: Bytes, vout: nat, sc: Score, ms: seq<string>, missing: bool)
    requires Pending(g, analyzers, t, txid, vout, 0) == (ms, missing)
    ensures MemberWrites(g, analyzers, refuse, events, t, txid, vout, sc) ==
      if ms != [] && refuse(EventsKey) then (Failure, events)
      else if missing then (Panic, AddAll(events, ms, sc))
      else (Done(()), AddAll(events, ms, sc))
  {
  }

  lemma {:induction false} AddAllConcat(events: map<string, Score>, a: seq<string>, b: seq<string>, sc: Score)
    ensures AddAll(AddAll(events, a, sc), b, sc) == AddAll(events, a + b, sc)
  {
    if b != [] {
      var n := |b| - 1;
      AddAllConcat(events, a, b[..n], sc);
      assert (a + b)[..|a + b| - 1] == a + b[..n];
    }
  }

  /** The outputs' writes from `vout` on, stopping at the first output whose writes do
      not all go through. */
  function RecordWrites(g: BitcomScan.Variant, analyzers: seq<Analyzer>, refuse: string -> bool, docs: Docs,
                        txid: Bytes, txos: seq<Txo>, vout: nat): (r: (Status<()>, Docs))
    requires vout <= |txos|
    decreases |txos| - vout
  {
    if vout == |txos| then (Done(()), docs)
    else
      var (st, d) := OutputWrites(g, analyzers, refuse, docs, txid, txos[vout], vout);
      if st.Done? then RecordWrites(g, analyzers, refuse, d, txid, txos, vout + 1) else (st, d)
  }

  // ---------------------------------------------------------------------------
  // Keys

  lemma IdKeyInjective(a: Outpoint, b: Outpoint)
    requires IdKey(a) == IdKey(b)
    ensures a == b
  {
    assert IdKey(a)[4..] == ToString(a) && IdKey(b)[4..] == ToString(b);
    ToStringInjective(a, b);
  }

  /** As written, the key a record is looked up by is never a key a record is written
      under: an outpoint string starts with a hex digit or the separator, never 't'. */
  lemma ReadNeverWritten(a: Outpoint, b: Outpoint)
    ensures ReadKey(BitcomScan.AsWritten, a) != IdKey(b)
  {
    var s := ToString(a);
    assert s[0] != 't' by {
      if |a.txid| == 0 {
        assert s[0] == '_';
      } else {
        assert s[0] == HexEncode(a.txid)[0];
        assert HexValue(s[0]).Some?;
      }
    }
    assert IdKey(b)[0] == 't';
  }

  /** The store holds records only under the keys `Ingest` writes. */
  ghost predicate WrittenByIngest(docs: Docs) {
    forall k :: k in docs.json ==> exists o :: k == IdKey(o)
  }

  /** As written, once every record was written by `Ingest`, resolving a spend fails: the
      lookup misses the record, and the empty document does not decode. */
  lemma SpendLookupFails(docs: Docs, txid: Bytes, block: Block, input: Input, prev: Transaction, vin: nat)
    requires WrittenByIngest(docs) && (input.sourceVout as nat) < |prev.outputs|
    ensures StubSpend(BitcomScan.AsWritten, docs, txid, block, input, prev, vin) == Failure
  {
    var key := ReadKey(BitcomScan.AsWritten, SourceOf(input));
    if key in docs.json {
      var o :| key == IdKey(o);
      ReadNeverWritten(SourceOf(input), o);
    }
  }

  /** Intended: the spend of an output `Ingest` recorded is that record, marked spent. */
  lemma SpendLookupFinds(docs: Docs, txid: Bytes, block: Block, input: Input, prev: Transaction, vin: nat)
    requires IdKey(SourceOf(input)) in docs.json && (input.sourceVout as nat) < |prev.outputs|
    ensures StubSpend(BitcomScan.Intended, docs, txid, block, input, prev, vin) ==
      Done(docs.json[IdKey(SourceOf(input))].(spend := Some(Spend(txid, Wrap32(vin), block))))
  {
  }

  /** `Ingest`'s own writes keep the store holding records only under record keys. */
  lemma {:induction false} RecordWritesKeepKeys(g: BitcomScan.Variant, analyzers: seq<Analyzer>, refuse: string -> bool,
                                                docs: Docs, txid: Bytes, txos: seq<Txo>, vout: nat)
    requires vout <= |txos| && WrittenByIngest(docs)
    ensures WrittenByIngest(RecordWrites(g, analyzers, refuse, docs, txid, txos, vout).1)
    decreases |txos| - vout
  {
    if vout < |txos| {
      var (st, d) := OutputWrites(g, analyzers, refuse, docs, txid, txos[vout], vout);
      assert WrittenByIngest(d) by {
        forall k | k in d.json ensures exists o :: k == IdKey(o) {
          if k == IdKey(txos[vout].outpoint) {
            assert k == IdKey(txos[vout].outpoint);
          } else {
            assert k in docs.json;
          }
        }
      }
      if st.Done? {
        RecordWritesKeepKeys(g, analyzers, refuse, d, txid, txos, vout + 1);
      }
    }
  }

  // ---------------------------------------------------------------------------
  // Write properties

  /** Whether output `t`'s writes all go through; this does not depend on the store. */
  predicate Completes(g: BitcomScan.Variant, analyzers: seq<Analyzer>, refuse: string -> bool, txid: Bytes, t: Txo, vout: nat) {
    OutputWrites(g, analyzers, refuse, Docs(map[], map[]), txid, t, vout).0.Done?
  }

  lemma StatusOnly(g: BitcomScan.Variant, analyzers: seq<Analyzer>, refuse: string -> bool, docs: Docs, txid: Bytes, t: Txo, vout: nat)
    ensures OutputWrites(g, analyzers, refuse, docs, txid, t, vout).0 ==
      OutputWrites(g, analyzers, refuse, Docs(map[], map[]), txid, t, vout).0
  {
  }

  lemma WritesContinue(g: BitcomScan.Variant, analyzers: seq<Analyzer>, refuse: string -> bool,
                       docs: Docs, txid: Bytes, txos: seq<Txo>, vout: nat)
    requires vout < |txos| && OutputWrites(g, analyzers, refuse, docs, txid, txos[vout], vout).0.Done?
    ensures RecordWrites(g, analyzers, refuse, docs, txid, txos, vout) ==
      RecordWrites(g, analyzers, refuse, OutputWrites(g, analyzers, refuse, docs, txid, txos[vout], vout).1, txid, txos, vout + 1)
  {
  }

  lemma WritesStop(g: BitcomScan.Variant, analyzers: seq<Analyzer>, refuse: string -> bool,
                   docs: Docs, txid: Bytes, txos: seq<Txo>, vout: nat)
    requires vout < |txos| && !OutputWrites(g, analyzers, refuse, docs, txid, txos[vout], vout).0.Done?
    ensures RecordWrites(g, analyzers, refuse, docs, txid, txos, vout) == OutputWrites(g, analyzers, refuse, docs, txid, txos[vout], vout)
  {
  }

  lemma IntendedStep(analyzers: seq<Analyzer>, refuse: string -> bool, docs: Docs, txid: Bytes, t: Txo, vout: nat)
    requires forall k :: !refuse(k)
    ensures OutputWrites(BitcomScan.Intended, analyzers, refuse, docs, txid, t, vout).0.Done?
  {
    PendingMembers(BitcomScan.Intended, analyzers, t, txid, vout, 0);
  }

  /** The writes stop at the first output `j` whose writes do not all go through, with
      that output's outcome. The records of the outputs before `j` are written, and no
      record is written but those of the outputs up to `j`. */
  lemma {:induction false} StopsAt(g: BitcomScan.Variant, analyzers: seq<Analyzer>, refuse: string -> bool,
                                   docs: Docs, txid: Bytes, txos: seq<Txo>, vout: nat, j: nat)
    requires vout <= j < |txos| && DistinctOutpoints(txos)
    requires forall i :: vout <= i < j ==> Completes(g, analyzers, refuse, txid, txos[i], i)
    requires !Completes(g, analyzers, refuse, txid, txos[j], j)
    ensures var (st, d) := RecordWrites(g, analyzers, refuse, docs, txid, txos, vout);
      st == OutputWrites(g, analyzers, refuse, docs, txid, txos[j], j).0 && !st.Done? &&
      (forall i :: vout <= i < j ==> IdKey(txos[i].outpoint) in d.json && d.json[IdKey(txos[i].outpoint)] == txos[i]) &&
      (forall k :: (forall i :: vout <= i <= j ==> k != IdKey(txos[i].outpoint)) ==>
        (k in d.json <==> k in docs.json) && (k in docs.json ==> d.json[k] == docs.json[k]))
    decreases j - vout
  {
    var t := txos[vout];
    var w := OutputWrites(g, analyzers, refuse, docs, txid, t, vout);
    StatusOnly(g, analyzers, refuse, docs, txid, t, vout);
    var kv := IdKey(t.outpoint);
    if vout == j {
      WritesStop(g, analyzers, refuse, docs, txid, txos, vout);
    } else {
      WritesContinue(g, analyzers, refuse, docs, txid, txos, vout);
      StopsAt(g, analyzers, refuse, w.1, txid, txos, vout + 1, j);
      forall i | vout + 1 <= i <= j ensures kv != IdKey(txos[i].outpoint) {
        if kv == IdKey(txos[i].outpoint) {
          IdKeyInjective(t.outpoint, txos[i].outpoint);
        }
      }
      StatusOnly(g, analyzers, refuse, docs, txid, txos[j], j);
      StatusOnly(g, analyzers, refuse, w.1, txid, txos[j], j);
    }
  }

  /** Under the intended reading, with no write refused, `Ingest`'s writes go through,
      store every output's record and leave every other record as it was. */
  lemma {:induction false} IntendedRecords(analyzers: seq<Analyzer>, refuse: string -> bool, docs: Docs,
                                           txid: Bytes, txos: seq<Txo>, vout: nat)
    requires vout <= |txos| && DistinctOutpoints(txos) && forall k :: !refuse(k)
    ensures RecordWrites(BitcomScan.Intended, analyzers, refuse, docs, txid, txos, vout).0.Done?
    ensures var d := RecordWrites(BitcomScan.Intended, analyzers, refuse, docs, txid, txos, vout).1;
      (forall i :: vout <= i < |txos| ==> IdKey(txos[i].outpoint) in d.json && d.json[IdKey(txos[i].outpoint)] == txos[i]) &&
      (forall k :: k in docs.json && (forall i :: vout <= i < |txos| ==> k != IdKey(txos[i].outpoint)) ==>
        k in d.json && d.json[k] == docs.json[k])
    decreases |txos| - vout
  {
    if vout < |txos| {
      var t := txos[vout];
      var kv := IdKey(t.outpoint);
      IntendedStep(analyzers, refuse, docs, txid, t, vout);
      WritesContinue(BitcomScan.Intended, analyzers, refuse, docs, txid, txos, vout);
      IntendedRecords(analyzers, refuse, OutputWrites(BitcomScan.Intended, analyzers, refuse, docs, txid, t, vout).1, txid, txos, vout + 1);
      forall i | vout + 1 <= i < |txos| ensures kv != IdKey(txos[i].outpoint) {
        if kv == IdKey(txos[i].outpoint) {
          IdKeyInjective(t.outpoint, txos[i].outpoint);
        }
      }
    }
  }

  /** Under the intended reading, with no write refused, `Ingest`'s writes keep every
      member already there and add every member of every entry an analyzer has on an
      output, built from the analyzer's tag. */
  lemma {:induction false} IntendedEvents(analyzers: seq<Analyzer>, refuse: string -> bool, docs: Docs,
                                          txid: Bytes, txos: seq<Txo>, vout: nat)
    requires vout <= |txos| && forall k :: !refuse(k)
    ensures var d := RecordWrites(BitcomScan.Intended, analyzers, refuse, docs, txid, txos, vout).1;
      forall m :: m in docs.events ==> m in d.events
    ensures var d := RecordWrites(BitcomScan.Intended, analyzers, refuse, docs, txid, txos, vout).1;
      forall i, a, e ::
        (vout <= i < |txos| && 0 <= a < |analyzers| && analyzers[a].tag in txos[i].data &&
         0 <= e < |txos[i].data[analyzers[a].tag].events|) ==>
        Member(analyzers[a].tag, txos[i].data[analyzers[a].tag].events[e], txid, i) in d.events
    decreases |txos| - vout
  {
    if vout < |txos| {
      var t := txos[vout];
      var (st, d1) := OutputWrites(BitcomScan.Intended, analyzers, refuse, docs, txid, t, vout);
      MissingEntrySkipped(analyzers, refuse, docs, txid, t, vout);
      WritesContinue(BitcomScan.Intended, analyzers, refuse, docs, txid, txos, vout);
      IntendedEvents(analyzers, refuse, d1, txid, txos, vout + 1);
    }
  }

  /** As written, an unspent output's record is written and then its score panics. */
  lemma UnspentRecordedThenPanics(analyzers: seq<Analyzer>, refuse: string -> bool, docs: Docs, txid: Bytes, t: Txo, vout: nat)
    requires t.spend.None? && !refuse(IdKey(t.outpoint))
    ensures OutputWrites(BitcomScan.AsWritten, analyzers, refuse, docs, txid, t, vout) ==
      (Panic, docs.(json := docs.json[IdKey(t.outpoint) := t]))
  {
  }

  /** As written, a spent output on which some registered analyzer left no entry panics
      its writes, once the members of the analyzers before that one are written. */
  lemma MissingEntryPanics(analyzers: seq<Analyzer>, refuse: string -> bool, docs: Docs, txid: Bytes, t: Txo, vout: nat, j: nat)
    requires t.spend.Some? && (forall k :: !refuse(k)) && j < |analyzers| && analyzers[j].tag !in t.data
    ensures OutputWrites(BitcomScan.AsWritten, analyzers, refuse, docs, txid, t, vout).0 == Panic
  {
    PendingMembers(BitcomScan.AsWritten, analyzers, t, txid, vout, 0);
  }

  /** Intended: the same output's writes go through, skipping an analyzer without an
      entry, keeping every member already there and writing every member of the others. */
  lemma MissingEntrySkipped(analyzers: seq<Analyzer>, refuse: string -> bool, docs: Docs, txid: Bytes, t: Txo, vout: nat)
    requires forall k :: !refuse(k)
    ensures var (st, d) := OutputWrites(BitcomScan.Intended, analyzers, refuse, docs, txid, t, vout);
      st.Done? && (forall m :: m in docs.events ==> m in d.events) &&
      forall a, e ::
        (0 <= a < |analyzers| && analyzers[a].tag in t.data && 0 <= e < |t.data[analyzers[a].tag].events|) ==>
        Member(analyzers[a].tag, t.data[analyzers[a].tag].events[e], txid, vout) in d.events
  {
    PendingMembers(BitcomScan.Intended, analyzers, t, txid, vout, 0);
    var ms := Pending(BitcomScan.Intended, analyzers, t, txid, vout, 0).0;
    var d := OutputWrites(BitcomScan.Intended, analyzers, refuse, docs, txid, t, vout).1;
    assert d.events == AddAll(docs.events, ms, ScoreOf(BitcomScan.Intended, t).value);
    forall a, e | 0 <= a < |analyzers| && analyzers[a].tag in t.data && 0 <= e < |t.data[analyzers[a].tag].events|
      ensures Member(analyzers[a].tag, t.data[analyzers[a].tag].events[e], txid, vout) in d.events
    {
      assert Member(analyzers[a].tag, t.data[analyzers[a].tag].events[e], txid, vout) in ms;
    }
  }

  /** `Ingest` writes no spend record: every record it adds or changes is the record of
      one of the outputs, under that output's key, and no record disappears. */
  lemma {:induction false} OnlyOutputRecords(g: BitcomScan.Variant, analyzers: seq<Analyzer>, refuse: string -> bool,
                                             docs: Docs, txid: Bytes, txos: seq<Txo>, vout: nat)
    requires vout <= |txos|
    ensures var d := RecordWrites(g, analyzers, refuse, docs, txid, txos, vout).1;
      forall k :: k in d.json && !(k in docs.json && d.json[k] == docs.json[k]) ==>
        exists i :: vout <= i < |txos| && k == IdKey(txos[i].outpoint) && d.json[k] == txos[i]
    ensures var d := RecordWrites(g, analyzers, refuse, docs, txid, txos, vout).1;
      forall k :: k in docs.json ==> k in d.json
    decreases |txos| - vout
  {
    if vout < |txos| {
      var t := txos[vout];
      var (st, d1) := OutputWrites(g, analyzers, refuse, docs, txid, t, vout);
      var kv := IdKey(t.outpoint);
      assert d1.json == docs.json || d1.json == docs.json[kv := t];
      if st.Done? {
        assert RecordWrites(g, analyzers, refuse, docs, txid, txos, vout) == RecordWrites(g, analyzers, refuse, d1, txid, txos, vout + 1);
        OnlyOutputRecords(g, analyzers, refuse, d1, txid, txos, vout + 1);
        var d := RecordWrites(g, analyzers, refuse, d1, txid, txos, vout + 1).1;
        forall k | k in d.json && !(k in docs.json && d.json[k] == docs.json[k])
          ensures exists i :: vout <= i < |txos| && k == IdKey(txos[i].outpoint) && d.json[k] == txos[i]
        {
          if k in d1.json && d.json[k] == d1.json[k] {
            assert k == kv && d.json[k] == txos[vout];
          }
        }
      } else {
        assert RecordWrites(g, analyzers, refuse, docs, txid, txos, vout) == (st, d1);
        forall k | k in d1.json && !(k in docs.json && d1.json[k] == docs.json[k])
          ensures exists i :: vout <= i < |txos| && k == IdKey(txos[i].outpoint) && d1.json[k] == txos[i]
        {
          assert k == kv && d1.json[k] == txos[vout];
        }
      }
    }
  }

  // ---------------------------------------------------------------------------
  // Parse properties

  /** A completed inputs pass holds one spend per input, in input order, each marked
      spent by this transaction's input with that index in this block. */
  lemma SpendsStep(env: Env, refuse: string -> bool, docs: Docs, tx: Transaction, block: Block,
                   vin: nat, acc: seq<Txo>)
    requires vin < |tx.inputs| && Fetched(env, refuse, docs, tx, vin).0.Done?
    requires StubSpend(env.g, Fetched(env, refuse, docs, tx, vin).1, tx.txid, block, tx.inputs[vin],
                       Fetched(env, refuse, docs, tx, vin).0.value, vin).Done?
    ensures SpendsFrom(env, refuse, docs, tx, block, vin, acc) ==
      SpendsFrom(env, refuse, Fetched(env, refuse, docs, tx, vin).1, tx, block, vin + 1,
                 acc + [StubSpend(env.g, Fetched(env, refuse, docs, tx, vin).1, tx.txid, block, tx.inputs[vin],
                                  Fetched(env, refuse, docs, tx, vin).0.value, vin).value])
  {
  }

  lemma SpendsNotDone(env: Env, refuse: string -> bool, docs: Docs, tx: Transaction, block: Block,
                      vin: nat, acc: seq<Txo>)
    requires vin < |tx.inputs|
    requires !Fetched(env, refuse, docs, tx, vin).0.Done? ||
      !StubSpend(env.g, Fetched(env, refuse, docs, tx, vin).1, tx.txid, block, tx.inputs[vin],
                 Fetched(env, refuse, docs, tx, vin).0.value, vin).Done?
    ensures !SpendsFrom(env, refuse, docs, tx, block, vin, acc).0.Done?
  {
  }

  lemma SpendsFetchStop(env: Env, refuse: string -> bool, docs: Docs, tx: Transaction, block: Block,
                        vin: nat, acc: seq<Txo>)
    requires vin < |tx.inputs| && !Fetched(env, refuse, docs, tx, vin).0.Done?
    ensures SpendsFrom(env, refuse, docs, tx, block, vin, acc).1 == Fetched(env, refuse, docs, tx, vin).1
    ensures SpendsFrom(env, refuse, docs, tx, block, vin, acc).0.Failure? == Fetched(env, refuse, docs, tx, vin).0.Failure?
    ensures !SpendsFrom(env, refuse, docs, tx, block, vin, acc).0.Done?
  {
  }

  lemma SpendsStubStop(env: Env, refuse: string -> bool, docs: Docs, tx: Transaction, block: Block,
                       vin: nat, acc: seq<Txo>)
    requires vin < |tx.inputs| && Fetched(env, refuse, docs, tx, vin).0.Done?
    requires !StubSpend(env.g, Fetched(env, refuse, docs, tx, vin).1, tx.txid, block, tx.inputs[vin],
                        Fetched(env, refuse, docs, tx, vin).0.value, vin).Done?
    ensures SpendsFrom(env, refuse, docs, tx, block, vin, acc).1 == Fetched(env, refuse, docs, tx, vin).1
    ensures SpendsFrom(env, refuse, docs, tx, block, vin, acc).0.Failure? ==
      StubSpend(env.g, Fetched(env, refuse, docs, tx, vin).1, tx.txid, block, tx.inputs[vin],
                Fetched(env, refuse, docs, tx, vin).0.value, vin).Failure?
    ensures !SpendsFrom(env, refuse, docs, tx, block, vin, acc).0.Done?
  {
  }

  lemma SpentExtend(tx: Transaction, block: Block, vin: nat, acc: seq<Txo>, t: Txo, r: Status<seq<Txo>>)
    requires vin < |tx.inputs| && t.spend == Some(Spend(tx.txid, Wrap32(vin), block))
    requires r.Done? ==>
      |r.value| == |tx.inputs| && r.value[..vin + 1] == acc + [t] &&
      forall i :: vin + 1 <= i < |tx.inputs| ==> r.value[i].spend == Some(Spend(tx.txid, Wrap32(i), block))
    ensures r.Done? ==>
      r.value[..vin] == acc && forall i :: vin <= i < |tx.inputs| ==> r.value[i].spend == Some(Spend(tx.txid, Wrap32(i), block))
  {
    if r.Done? {
      assert r.value[..vin] == (r.value[..vin + 1])[..vin];
      assert r.value[vin] == (r.value[..vin + 1])[vin];
    }
  }

  /** When the inputs pass completes it holds one record per input, in input order, each
      marked spent by this transaction at its own input index. */
  lemma {:induction false} InputsPass(env: Env, refuse: string -> bool, docs: Docs, tx: Transaction, block: Block,
                                      vin: nat, acc: seq<Txo>)
    requires vin <= |tx.inputs| && |acc| == vin
    ensures var st := SpendsFrom(env, refuse, docs, tx, block, vin, acc).0;
      st.Done? ==>
        |st.value| == |tx.inputs| && st.value[..vin] == acc &&
        forall i :: vin <= i < |tx.inputs| ==> st.value[i].spend == Some(Spend(tx.txid, Wrap32(i), block))
    decreases |tx.inputs| - vin, 1
  {
    if vin < |tx.inputs| {
      var fd := Fetched(env, refuse, docs, tx, vin);
      if fd.0.Done? && StubSpend(env.g, fd.1, tx.txid, block, tx.inputs[vin], fd.0.value, vin).Done? {
        InputsPassStep(env, refuse, docs, tx, block, vin, acc);
      } else {
        SpendsNotDone(env, refuse, docs, tx, block, vin, acc);
      }
    }
  }

  lemma {:induction false} InputsPassStep(env: Env, refuse: string -> bool, docs: Docs, tx: Transaction, block: Block,
                                          vin: nat, acc: seq<Txo>)
    requires vin < |tx.inputs| && |acc| == vin && Fetched(env, refuse, docs, tx, vin).0.Done?
    requires StubSpend(env.g, Fetched(env, refuse, docs, tx, vin).1, tx.txid, block, tx.inputs[vin],
                       Fetched(env, refuse, docs, tx, vin).0.value, vin).Done?
    ensures var st := SpendsFrom(env, refuse, docs, tx, block, vin, acc).0;
      st.Done? ==>
        |st.value| == |tx.inputs| && st.value[..vin] == acc &&
        forall i :: vin <= i < |tx.inputs| ==> st.value[i].spend == Some(Spend(tx.txid, Wrap32(i), block))
    decreases |tx.inputs| - vin, 0
  {
    var fd := Fetched(env, refuse, docs, tx, vin);
    var t := StubSpend(env.g, fd.1, tx.txid, block, tx.inputs[vin], fd.0.value, vin).value;
    SpendsStep(env, refuse, docs, tx, block, vin, acc);
    InputsPass(env, refuse, fd.1, tx, block, vin + 1, acc + [t]);
    SpentExtend(tx, block, vin, acc, t, SpendsFrom(env, refuse, fd.1, tx, block, vin + 1, acc + [t]).0);
  }

  predicate AllLoadable(env: Env, tx: Transaction) {
    forall i :: 0 <= i < |tx.inputs| ==>
      tx.inputs[i].source.None? && env.loadTx(tx.inputs[i].sourceTxid).Some? &&
      (tx.inputs[i].sourceVout as nat) < |env.loadTx(tx.inputs[i].sourceTxid).value.outputs|
  }

  lemma MissingFrom(docs: Docs, tx: Transaction, vin: nat)
    requires vin < |tx.inputs|
    ensures (exists i :: vin <= i < |tx.inputs| && ToString(SourceOf(tx.inputs[i])) !in docs.json) <==>
      ToString(SourceOf(tx.inputs[vin])) !in docs.json ||
      exists i :: vin + 1 <= i < |tx.inputs| && ToString(SourceOf(tx.inputs[i])) !in docs.json
  {
  }

  lemma {:induction false} SpendsLoadable(env: Env, refuse: string -> bool, docs: Docs, tx: Transaction, block: Block,
                                          vin: nat, acc: seq<Txo>)
    requires vin <= |tx.inputs| && AllLoadable(env, tx)
    ensures SpendsFrom(env, refuse, docs, tx, block, vin, acc).1 == docs
    ensures !SpendsFrom(env, refuse, docs, tx, block, vin, acc).0.Panic?
    ensures SpendsFrom(env, refuse, docs, tx, block, vin, acc).0.Failure? <==>
      env.g == BitcomScan.AsWritten && exists i :: vin <= i < |tx.inputs| && ToString(SourceOf(tx.inputs[i])) !in docs.json
    decreases |tx.inputs| - vin, 1
  {
    if vin < |tx.inputs| {
      var prev := env.loadTx(tx.inputs[vin].sourceTxid).value;
      FetchedLoaded(env, refuse, docs, tx, vin);
      if StubSpend(env.g, docs, tx.txid, block, tx.inputs[vin], prev, vin).Done? {
        SpendsLoadableStep(env, refuse, docs, tx, block, vin, acc);
      } else {
        MissingFrom(docs, tx, vin);
        SpendsStubStop(env, refuse, docs, tx, block, vin, acc);
      }
    }
  }

  lemma {:induction false} SpendsLoadableStep(env: Env, refuse: string -> bool, docs: Docs, tx: Transaction, block: Block,
                                              vin: nat, acc: seq<Txo>)
    requires vin < |tx.inputs| && AllLoadable(env, tx)
    requires StubSpend(env.g, docs, tx.txid, block, tx.inputs[vin], env.loadTx(tx.inputs[vin].sourceTxid).value, vin).Done?
    ensures SpendsFrom(env, refuse, docs, tx, block, vin, acc).1 == docs
    ensures !SpendsFrom(env, refuse, docs, tx, block, vin, acc).0.Panic?
    ensures SpendsFrom(env, refuse, docs, tx, block, vin, acc).0.Failure? <==>
      env.g == BitcomScan.AsWritten && exists i :: vin <= i < |tx.inputs| && ToString(SourceOf(tx.inputs[i])) !in docs.json
    decreases |tx.inputs| - vin, 0
  {
    var prev := env.loadTx(tx.inputs[vin].sourceTxid).value;
    var t := StubSpend(env.g, docs, tx.txid, block, tx.inputs[vin], prev, vin).value;
    FetchedLoaded(env, refuse, docs, tx, vin);
    SpendsStep(env, refuse, docs, tx, block, vin, acc);
    SpendsLoadable(env, refuse, docs, tx, block, vin + 1, acc + [t]);
    MissingFrom(docs, tx, vin);
  }

  lemma FetchedLoaded(env: Env, refuse: string -> bool, docs: Docs, tx: Transaction, vin: nat)
    requires vin < |tx.inputs| && tx.inputs[vin].source.None? && env.loadTx(tx.inputs[vin].sourceTxid).Some?
    ensures Fetched(env, refuse, docs, tx, vin) == (Done(env.loadTx(tx.inputs[vin].sourceTxid).value), docs)
  {
  }

  /** A transaction whose spent transactions can all be looked up: parsing writes
      nothing, and it fails exactly when, as written, some spent output has no record
      under its bare outpoint string. The intended reading stubs a missing record. */
  lemma ParseLoadable(env: Env, refuse: string -> bool, docs: Docs, tx: Transaction)
    requires !tx.coinbase && AllLoadable(env, tx) && BlockOf(tx, env.now).Some?
    ensures ParseJson(env, refuse, docs, tx).1 == docs
    ensures ParseJson(env, refuse, docs, tx).0.Failure? <==>
      env.g == BitcomScan.AsWritten && exists i :: 0 <= i < |tx.inputs| && ToString(SourceOf(tx.inputs[i])) !in docs.json
  {
    var block := BlockOf(tx, env.now).value;
    SpendsLoadable(env, refuse, docs, tx, block, 0, []);
    var st := SpendsFrom(env, refuse, docs, tx, block, 0, []).0;
    if st.Done? {
      FinishCalls(env, docs, tx, block, st.value);
    }
  }

  /** As written, a spent output with no record fails its input. */
  lemma MissingSpendFails(docs: Docs, txid: Bytes, block: Block, input: Input, prev: Transaction, vin: nat)
    requires ToString(SourceOf(input)) !in docs.json && (input.sourceVout as nat) < |prev.outputs|
    ensures StubSpend(BitcomScan.AsWritten, docs, txid, block, input, prev, vin) == Failure
  {
  }

  /** Intended: it gets the stub built from the spent output. */
  lemma MissingSpendStubbed(docs: Docs, txid: Bytes, block: Block, input: Input, prev: Transaction, vin: nat)
    requires IdKey(SourceOf(input)) !in docs.json && (input.sourceVout as nat) < |prev.outputs|
    ensures var out := prev.outputs[input.sourceVout];
      StubSpend(BitcomScan.Intended, docs, txid, block, input, prev, vin) ==
      Done(Txo(SourceOf(input), out.satoshis, out.script, NoBlock, None, Some(Spend(txid, Wrap32(vin), block)), map[]))
  {
  }

  // ---------------------------------------------------------------------------
  // Call order and owners

  lemma OutputPassCalls(env: Env, docs: Docs, tx: Transaction, block: Block, p: Pass, vout: nat)
    requires vout < |tx.outputs|
    ensures OutputPass(env, docs, tx, block, p, vout).Done? ==>
      OutputPass(env, docs, tx, block, p, vout).value.calls == p.calls + OutputCalls(env.analyzers, vout)
    ensures !OutputPass(env, docs, tx, block, p, vout).Failure?
  {
    match OutputRecord(env.g, docs, tx.txid, block, tx.outputs[vout], vout)
    case None =>
    case Some(txo) =>
      AnalyzeCalls(env.g, env.analyzers, Pass(p.ctx.(txos := p.ctx.txos + [txo]), p.calls), vout, 0);
      assert OutputCalls(env.analyzers, vout)[0..] == OutputCalls(env.analyzers, vout);
  }

  lemma OutputsStep(env: Env, docs: Docs, tx: Transaction, block: Block, p: Pass, vout: nat)
    requires vout < |tx.outputs| && OutputPass(env, docs, tx, block, p, vout).Done?
    ensures OutputsFrom(env, docs, tx, block, p, vout) ==
      OutputsFrom(env, docs, tx, block, OutputPass(env, docs, tx, block, p, vout).value, vout + 1)
  {
  }

  lemma OutputsStop(env: Env, docs: Docs, tx: Transaction, block: Block, p: Pass, vout: nat)
    requires vout < |tx.outputs| && !OutputPass(env, docs, tx, block, p, vout).Done?
    ensures OutputsFrom(env, docs, tx, block, p, vout) == OutputPass(env, docs, tx, block, p, vout)
  {
  }

  lemma {:induction false} OutputsFromCalls(env: Env, docs: Docs, tx: Transaction, block: Block, p: Pass, vout: nat)
    requires vout <= |tx.outputs|
    ensures OutputsFrom(env, docs, tx, block, p, vout).Done? ==>
      OutputsFrom(env, docs, tx, block, p, vout).value.calls == p.calls + ParseCalls(env.analyzers, vout, |tx.outputs|)
    ensures !OutputsFrom(env, docs, tx, block, p, vout).Failure?
    decreases |tx.outputs| - vout
  {
    if vout < |tx.outputs| {
      OutputPassCalls(env, docs, tx, block, p, vout);
      var q := OutputPass(env, docs, tx, block, p, vout);
      if q.Done? {
        OutputsStep(env, docs, tx, block, p, vout);
        OutputsFromCalls(env, docs, tx, block, q.value, vout + 1);
        assert ParseCalls(env.analyzers, vout, |tx.outputs|) ==
          OutputCalls(env.analyzers, vout) + ParseCalls(env.analyzers, vout + 1, |tx.outputs|);
        ConcatAssoc(p.calls, OutputCalls(env.analyzers, vout), ParseCalls(env.analyzers, vout + 1, |tx.outputs|));
      } else {
        OutputsStop(env, docs, tx, block, p, vout);
      }
    }
  }

  lemma FinishCalls(env: Env, docs: Docs, tx: Transaction, block: Block, spends: seq<Txo>)
    ensures Finish(env, docs, tx, block, spends).Done? ==>
      Finish(env, docs, tx, block, spends).value.calls == ParseCalls(env.analyzers, 0, |tx.outputs|) + SaveCalls(env.analyzers)
    ensures !Finish(env, docs, tx, block, spends).Failure?
  {
    var p := Pass(IndexContext(tx.txid, block, spends, [], InputOutpoints(tx.inputs)), []);
    OutputsFromCalls(env, docs, tx, block, p, 0);
    var o := OutputsFrom(env, docs, tx, block, p, 0);
    if o.Done? {
      SaveAllCalls(env.analyzers, o.value, 0);
      var pc, sc := ParseCalls(env.analyzers, 0, |tx.outputs|), SaveCalls(env.analyzers);
      assert o.value.calls == pc by {
        assert [] + pc == pc;
      }
      assert sc[0..] == sc;
      assert Finish(env, docs, tx, block, spends) == SaveAll(env.analyzers, o.value, 0);
    } else {
      assert Finish(env, docs, tx, block, spends) == o;
    }
  }

  /** A parse that completes calls every analyzer on every output, output by output and
      in registration order, and then `Save` once per analyzer in the same order. */
  lemma CallOrder(env: Env, refuse: string -> bool, docs: Docs, tx: Transaction)
    ensures ParseJson(env, refuse, docs, tx).0.Done? ==>
      ParseJson(env, refuse, docs, tx).0.value.calls == ParseCalls(env.analyzers, 0, |tx.outputs|) + SaveCalls(env.analyzers)
  {
    if BlockOf(tx, env.now).Some? {
      var block := BlockOf(tx, env.now).value;
      var (st, docs1) := if tx.coinbase then (Done([]), docs) else SpendsFrom(env, refuse, docs, tx, block, 0, []);
      if st.Done? {
        FinishCalls(env, docs1, tx, block, st.value);
      }
    }
  }

  /** As written, re-deriving the owner of a stored P2PKH record panics. */
  lemma OwnerPanics(txo: Txo)
    requires txo.owner.Some? && PKHash.IsP2PKH(txo.script)
    ensures OwnerOf(BitcomScan.AsWritten, txo) == None
  {
    PKHash.TemplateParses(txo.script);
    assert txo.script[..25] == txo.script;
  }

  /** Intended: it gives the script's public-key hash. */
  lemma OwnerDerived(txo: Txo)
    requires txo.owner.Some? && PKHash.IsP2PKH(txo.script)
    ensures OwnerOf(BitcomScan.Intended, txo) == Some(Some(txo.script[3..23]))
  {
    PKHash.TemplateParses(txo.script);
    assert txo.script[..25] == txo.script;
  }

  // ---------------------------------------------------------------------------
  // The store as the source runs it

  /** The JSON store, written command by command. */
  class JsonStore {
    var json: map<string, Txo>
    var events: map<string, Score>

    constructor (docs: Docs)
      ensures State() == docs
    {
      json, events := docs.json, docs.events;
    }

    function State(): Docs
      reads this
    {
      Docs(json, events)
    }

    /** The inputs pass. */
    method ResolveInputs(env: Env, refuse: string -> bool, tx: Transaction, block: Block) returns (st: Status<seq<Txo>>)
      modifies this
      decreases tx, 0
      ensures (st, State()) == SpendsFrom(env, refuse, old(State()), tx, block, 0, [])
    {
      var spends: seq<Txo> := [];
      var vin := 0;
      while vin < |tx.inputs|
        invariant vin <= |tx.inputs|
        invariant SpendsFrom(env, refuse, State(), tx, block, vin, spends) == SpendsFrom(env, refuse, old(State()), tx, block, 0, [])
      {
        ghost var before := State();
        var prev := FetchSource(env, refuse, tx, vin);
        if !prev.Done? {
          SpendsFetchStop(env, refuse, before, tx, block, vin, spends);
          if prev.Failure? {
            return Failure;
          }
          return Panic;
        }
        var spend := MarkSpend(env.g, tx.txid, block, tx.inputs[vin], prev.value, vin);
        if !spend.Done? {
          SpendsStubStop(env, refuse, before, tx, block, vin, spends);
          if spend.Failure? {
            return Failure;
          }
          return Panic;
        }
        SpendsStep(env, refuse, before, tx, block, vin, spends);
        spends := spends + [spend.value];
        vin := vin + 1;
      }
      return Done(spends);
    }

    /** The transaction input `vin` spends. */
    method FetchSource(env: Env, refuse: string -> bool, tx: Transaction, vin: nat) returns (r: Status<Transaction>)
      requires vin < |tx.inputs|
      modifies this
      decreases tx, 0, |tx.inputs| - vin, 1
      ensures (r, State()) == Fetched(env, refuse, old(State()), tx, vin)
    {
      var input := tx.inputs[vin];
      if input.source.None? {
        var src := env.loadTx(input.sourceTxid);
        if src.None? {
          return Failure;
        }
        return Done(src.value);
      }
      var st := Ingest(env, refuse, input.source.value);
      if st.Failure? {
        return Failure;
      } else if st.Panic? {
        return Panic;
      }
      return Done(input.source.value);
    }

    /** The stub for input `vin`, replaced by its stored record, marked spent. */
    method MarkSpend(g: BitcomScan.Variant, txid: Bytes, block: Block, input: Input, prev: Transaction, vin: nat)
      returns (r: Status<Txo>)
      ensures r == StubSpend(g, State(), txid, block, input, prev, vin)
    {
      if (input.sourceVout as nat) >= |prev.outputs| {
        return Panic;
      }
      var out := prev.outputs[input.sourceVout];
      var op := Outpoint(input.sourceTxid, input.sourceVout);
      var spend := Txo(op, out.satoshis, out.script, NoBlock, None, None, map[]);
      var key := ReadKey(g, op);
      if key in json {
        spend := json[key];
      } else if g == BitcomScan.AsWritten {
        return Failure;
      }
      return Done(spend.(spend := Some(Spend(txid, Wrap32(vin), block))));
    }

    /** The record for one output, before the analyzers. */
    method BuildRecord(g: BitcomScan.Variant, txid: Bytes, block: Block, output: Output, vout: nat) returns (r: Option<Txo>)
      ensures r == OutputRecord(g, State(), txid, block, output, vout)
    {
      var op := Outpoint(txid, Wrap32(vout));
      var key := ReadKey(g, op);
      var txo := Txo(op, 0, [], NoBlock, None, None, map[]);
      if key in json {
        txo := json[key];
      } else {
        txo := txo.(satoshis := output.satoshis, script := output.script);
      }
      if txo.owner.Some? {
        var owner := OwnerOf(g, txo);
        if owner.None? {
          return None;
        }
        txo := txo.(owner := owner.value);
      }
      return Some(txo.(block := block));
    }

    /** The outputs pass. */
    method RunOutputs(env: Env, tx: Transaction, block: Block, p0: Pass) returns (r: Status<Pass>)
      ensures r == OutputsFrom(env, State(), tx, block, p0, 0)
    {
      var p := p0;
      var vout := 0;
      while vout < |tx.outputs|
        invariant vout <= |tx.outputs|
        invariant OutputsFrom(env, State(), tx, block, p, vout) == OutputsFrom(env, State(), tx, block, p0, 0)
      {
        var txo := BuildRecord(env.g, tx.txid, block, tx.outputs[vout], vout);
        if txo.None? {
          assert OutputPass(env, State(), tx, block, p, vout) == Panic;
          OutputsStop(env, State(), tx, block, p, vout);
          return Panic;
        }
        var q := Store.RunAnalyzers(env.g, env.analyzers, Pass(p.ctx.(txos := p.ctx.txos + [txo.value]), p.calls), vout);
        assert OutputPass(env, State(), tx, block, p, vout) == q;
        if !q.Done? {
          OutputsStop(env, State(), tx, block, p, vout);
          return q;
        }
        OutputsStep(env, State(), tx, block, p, vout);
        p := q.value;
        vout := vout + 1;
      }
      return Done(p);
    }

    /** `Parse`. */
    method Parse(env: Env, refuse: string -> bool, tx: Transaction) returns (st: Status<Pass>)
      modifies this
      decreases tx, 1
      ensures (st, State()) == ParseJson(env, refuse, old(State()), tx)
    {
      var block := BlockOf(tx, env.now);
      if block.None? {
        return Panic;
      }
      var spends: seq<Txo> := [];
      if !tx.coinbase {
        var s := ResolveInputs(env, refuse, tx, block.value);
        if s.Failure? {
          return Failure;
        } else if s.Panic? {
          return Panic;
        }
        spends := s.value;
      }
      var ctx := IndexContext(tx.txid, block.value, spends, [], InputOutpoints(tx.inputs));
      var o := RunOutputs(env, tx, block.value, Pass(ctx, []));
      if !o.Done? {
        return o;
      }
      st := Store.RunSaves(env.analyzers, o.value);
    }

    /** One output's record, then its members. */
    method WriteOutput(g: BitcomScan.Variant, analyzers: seq<Analyzer>, refuse: string -> bool,
                       txid: Bytes, t: Txo, vout: nat) returns (st: Status<()>)
      modifies this
      ensures (st, State()) == OutputWrites(g, analyzers, refuse, old(State()), txid, t, vout)
    {
      var key := IdKey(t.outpoint);
      if refuse(key) {
        return Failure;
      }
      json := json[key := t];
      var score: Score;
      if t.spend.Some? {
        score := Score(true, t.spend.value.block.height);
      } else if g == BitcomScan.AsWritten {
        return Panic;
      } else {
        score := Score(false, t.block.height);
      }
      st := WriteMembers(g, analyzers, refuse, t, txid, vout, score);
    }

    /** One output's members, analyzer by analyzer in registration order. */
    method WriteMembers(g: BitcomScan.Variant, analyzers: seq<Analyzer>, refuse: string -> bool,
                        t: Txo, txid: Bytes, vout: nat, sc: Score) returns (st: Status<()>)
      modifies this
      ensures json == old(json)
      ensures (st, events) == MemberWrites(g, analyzers, refuse, old(events), t, txid, vout, sc)
    {
      ghost var all := Pending(g, analyzers, t, txid, vout, 0);
      ghost var done: seq<string> := [];
      assert all.0 == done + all.0;
      var k := 0;
      while k < |analyzers|
        invariant k <= |analyzers| && json == old(json)
        invariant all.0 == done + Pending(g, analyzers, t, txid, vout, k).0 && all.1 == Pending(g, analyzers, t, txid, vout, k).1
        invariant events == AddAll(old(events), done, sc)
        invariant refuse(EventsKey) ==> done == []
      {
        var tag := analyzers[k].tag;
        if tag !in t.data {
          if g == BitcomScan.AsWritten {
            assert Pending(g, analyzers, t, txid, vout, k) == ([], true);
            assert done + [] == done;
            MemberWritesOf(g, analyzers, refuse, old(events), t, txid, vout, sc, all.0, all.1);
            return Panic;
          }
        } else {
          var es := t.data[tag].events;
          var ok := WriteEntry(tag, es, txid, vout, sc, refuse);
          if !ok {
            ghost var rest := Pending(g, analyzers, t, txid, vout, k + 1);
            assert Pending(g, analyzers, t, txid, vout, k) == (EntryMembers(tag, es, txid, vout) + rest.0, rest.1);
            assert all.0 != [];
            MemberWritesOf(g, analyzers, refuse, old(events), t, txid, vout, sc, all.0, all.1);
            return Failure;
          }
          var em := EntryMembers(tag, es, txid, vout);
          AddAllConcat(old(events), done, em, sc);
          ghost var rest := Pending(g, analyzers, t, txid, vout, k + 1);
          assert Pending(g, analyzers, t, txid, vout, k) == (em + rest.0, rest.1);
          ConcatAssoc(done, em, rest.0);
          done := done + em;
        }
        k := k + 1;
      }
      assert Pending(g, analyzers, t, txid, vout, k) == ([], false);
      assert done + [] == done;
      MemberWritesOf(g, analyzers, refuse, old(events), t, txid, vout, sc, all.0, all.1);
      return Done(());
    }

    /** The members of one entry, event by event; the first refused write stops it. */
    method WriteEntry(tag: string, es: seq<EventLog>, txid: Bytes, vout: nat, sc: Score, refuse: string -> bool)
      returns (ok: bool)
      modifies this
      ensures json == old(json)
      ensures ok <==> es == [] || !refuse(EventsKey)
      ensures ok ==> events == AddAll(old(events), EntryMembers(tag, es, txid, vout), sc)
      ensures !ok ==> events == old(events)
    {
      ghost var em := EntryMembers(tag, es, txid, vout);
      var i := 0;
      while i < |es|
        invariant i <= |es| && json == old(json)
        invariant events == AddAll(old(events), em[..i], sc)
        invariant refuse(EventsKey) ==> i == 0
      {
        if refuse(EventsKey) {
          return false;
        }
        var m := Member(tag, es[i], txid, vout);
        assert em[..i + 1] == em[..i] + [m] && (em[..i] + [m])[..i] == em[..i];
        events := events[m := sc];
        i := i + 1;
      }
      assert em[..i] == em;
      return true;
    }

    /** The outputs' writes, in output order. */
    method WriteRecords(g: BitcomScan.Variant, analyzers: seq<Analyzer>, refuse: string -> bool,
                        txid: Bytes, txos: seq<Txo>) returns (st: Status<()>)
      modifies this
      ensures (st, State()) == RecordWrites(g, analyzers, refuse, old(State()), txid, txos, 0)
    {
      var vout := 0;
      while vout < |txos|
        invariant vout <= |txos|
        invariant RecordWrites(g, analyzers, refuse, State(), txid, txos, vout) == RecordWrites(g, analyzers, refuse, old(State()), txid, txos, 0)
      {
        var s := WriteOutput(g, analyzers, refuse, txid, txos[vout], vout);
        if !s.Done? {
          return s;
        }
        vout := vout + 1;
      }
      return Done(());
    }

    /** `Ingest`. */
    method Ingest(env: Env, refuse: string -> bool, tx: Transaction) returns (st: Status<IndexContext>)
      modifies this
      decreases tx, 2
      ensures (st, State()) == IngestJson(env, refuse, old(State()), tx)
    {
      var p := Parse(env, refuse, tx);
      if p.Failure? {
        return Failure;
      } else if p.Panic? {
        return Panic;
      }
      var w := WriteRecords(env.g, env.analyzers, refuse, p.value.ctx.txid, p.value.ctx.txos);
      if w.Failure? {
        return Failure;
      } else if w.Panic? {
        return Panic;
      }
      return Done(p.value.ctx);
    }
  }
}
