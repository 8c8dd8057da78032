/** Transaction ingestion into the output store (txostore/store.go): `Parse` derives the
    block, makes sure every spent transaction has been seen, builds one spend per input
    and one record per output, runs every analyzer on each output and then saves; `Ingest`
    persists what `Parse` built as one batch of "spend", "txo" and "events" writes. */
module TxoStore {
  import opened Base
  import opened Parser
  import opened Outpoints
  import opened Records
  import opened Txos
  import PKHash
  import BitcomScan

  // ---------------------------------------------------------------------------
  // Transactions as the store receives them

  /** One level-0 entry of a merkle path. */
  datatype PathElement = PathElement(hash: Bytes, offset: uint64)

  datatype MerklePath = MerklePath(blockHeight: uint32, path: seq<seq<PathElement>>)

  datatype Output = Output(satoshis: uint64, script: Bytes)

  /** An input: the outpoint it spends, and the spent transaction when one is attached. */
  datatype Input = Input(sourceTxid: Bytes, sourceVout: uint32, source: Option<Transaction>)

  /** A transaction with its id, optional merkle proof, and whether it is a coinbase
      (both the id and the coinbase test are the transaction library's). */
  datatype Transaction = Transaction(txid: Bytes, inputs: seq<Input>, outputs: seq<Output>,
                                     proof: Option<MerklePath>, coinbase: bool)

  /** What the store runs with: which reading of the source, the registered analyzers in
      order, the raw-transaction lookup (`db.LoadTx`) and the wall clock in seconds. */
  datatype Env = Env(g: BitcomScan.Variant, analyzers: seq<Analyzer>,
                     loadTx: Bytes -> Option<Transaction>, now: int)

  /** The score of an "events" member: whether its output is spent, and the height it
      is ranked by. */
  datatype Score = Score(spent: bool, height: uint32)

  /** The backing store: the "txo" and "spend" fields of each outpoint's hash, and the
      "events" sorted set. */
  datatype Db = Db(txos: map<Outpoint, Txo>, spends: map<Outpoint, Spend>, events: map<string, Score>)

  /** An outcome: a value, an error returned to the caller, or a panic. */
  datatype Status<T> = Done(value: T) | Failure | Panic

  /** One call into an analyzer. */
  datatype Call = ParseCall(tag: string, vout: nat) | SaveCall(tag: string)

  /** The context under construction and the analyzer calls made so far. */
  datatype Pass = Pass(ctx: IndexContext, calls: seq<Call>)

  const NoBlock := Block(0, 0, [])

  // ---------------------------------------------------------------------------
  // Block

  /** `slices.IndexFunc` over the level-0 path: the first element with hash `h`. */
  function FindHash(level: seq<PathElement>, h: Bytes): (r: Option<nat>)
    ensures r.Some? ==> r.value < |level| && level[r.value].hash == h
    ensures r.Some? ==> forall j :: 0 <= j < r.value ==> level[j].hash != h
    ensures r.None? ==> forall j :: 0 <= j < |level| ==> level[j].hash != h
  {
    if level == [] then None
    else if level[0].hash == h then Some(0)
    else match FindHash(level[1..], h)
      case None => None
      case Some(i) => Some(i + 1)
  }

  /** The block a transaction is recorded in: from its merkle proof when it has one, the
      height truncated from the clock otherwise. `Idx` is the offset of the level-0
      element holding the reversed txid, 0 when there is none. A proof with no levels
      panics. */
  function BlockOf(tx: Transaction, now: int): (r: Option<Block>)
    ensures tx.proof.None? ==> r == Some(Block(Wrap32(now), 0, []))
    ensures tx.proof.Some? ==> (r.Some? <==> tx.proof.value.path != [])
    ensures r.Some? && tx.proof.Some? ==>
      r.value.height == tx.proof.value.blockHeight && r.value.hash == []
    ensures r.Some? && tx.proof.Some? ==>
      var level := tx.proof.value.path[0];
      forall i :: (0 <= i < |level| && level[i].hash == Reverse(tx.txid) &&
                   (forall j :: 0 <= j < i ==> level[j].hash != Reverse(tx.txid))) ==>
        r.value.idx == level[i].offset
    ensures r.Some? && tx.proof.Some? ==>
      var level := tx.proof.value.path[0];
      (forall i :: 0 <= i < |level| ==> level[i].hash != Reverse(tx.txid)) ==> r.value.idx == 0
  {
    match tx.proof
    case None => Some(Block(Wrap32(now), 0, []))
    case Some(p) =>
      if p.path == [] then None
      else
        var idx := match FindHash(p.path[0], Reverse(tx.txid)) case None => 0 case Some(i) => p.path[0][i].offset;
        Some(Block(p.blockHeight, idx, []))
  }

  // ---------------------------------------------------------------------------
  // Spends

  function SourceOf(input: Input): Outpoint {
    Outpoint(input.sourceTxid, input.sourceVout)
  }

  /** The spend for input `vin`: the stored record of the outpoint it spends, or a stub
      from the spent output's satoshis and script, marked spent by this input. A stub
      whose output index is past the spent transaction's outputs panics. */
  function SpendOf(db: Db, txid: Bytes, block: Block, input: Input, prev: Transaction, vin: nat): (r: Option<Txo>)
    ensures r.Some? ==> r.value.spend == Some(Spend(txid, Wrap32(vin), block))
    ensures SourceOf(input) in db.txos ==>
      r == Some(db.txos[SourceOf(input)].(spend := Some(Spend(txid, Wrap32(vin), block))))
    ensures SourceOf(input) !in db.txos ==> (r.Some? <==> (input.sourceVout as nat) < |prev.outputs|)
    ensures SourceOf(input) !in db.txos && r.Some? ==>
      var out := prev.outputs[input.sourceVout];
      r.value == Txo(SourceOf(input), out.satoshis, out.script, NoBlock, None, r.value.spend, map[])
  {
    var op := SourceOf(input);
    var spend := Some(Spend(txid, Wrap32(vin), block));
    if op in db.txos then Some(db.txos[op].(spend := spend))
    else if (input.sourceVout as nat) < |prev.outputs| then
      var out := prev.outputs[input.sourceVout];
      Some(Txo(op, out.satoshis, out.script, NoBlock, None, spend, map[]))
    else None
  }

  /** The spends of the first `n` inputs, in input order. */
  function SpendsUpTo(db: Db, tx: Transaction, prevs: seq<Transaction>, block: Block, n: nat): (r: Option<seq<Txo>>)
    requires n <= |tx.inputs| == |prevs|
    ensures r.Some? ==> |r.value| == n && forall i :: 0 <= i < n ==>
      SpendOf(db, tx.txid, block, tx.inputs[i], prevs[i], i) == Some(r.value[i])
    ensures r.None? <==> exists i :: 0 <= i < n && SpendOf(db, tx.txid, block, tx.inputs[i], prevs[i], i).None?
  {
    if n == 0 then Some([])
    else match SpendsUpTo(db, tx, prevs, block, n - 1)
      case None => None
      case Some(s) =>
        match SpendOf(db, tx.txid, block, tx.inputs[n - 1], prevs[n - 1], n - 1)
        case None => None
        case Some(t) => Some(s + [t])
  }

  /** A coinbase has no spends; any other transaction one per input. */
  function Spends(db: Db, tx: Transaction, prevs: seq<Transaction>, block: Block): (r: Option<seq<Txo>>)
    requires |tx.inputs| == |prevs|
    ensures tx.coinbase ==> r == Some([])
    ensures !tx.coinbase ==> r == SpendsUpTo(db, tx, prevs, block, |tx.inputs|)
  {
    if tx.coinbase then Some([]) else SpendsUpTo(db, tx, prevs, block, |tx.inputs|)
  }

  // ---------------------------------------------------------------------------
  // Outputs

  /** `lib.NewPKHashFromScript`, whose closing test reads operations 23 and 24 where the
      template has five: past the parsed operations the index panics. */
  datatype LibHash = LibPanic | LibError | LibFound(hash: Option<Bytes>)

  function LibPKHashFromScript(s: Bytes): (r: LibHash)
    ensures |s| < 25 ==> r == LibFound(None)
    ensures r == LibError <==> |s| >= 25 && ParseOps(s[..25]).None?
  {
    if |s| < 25 then LibFound(None)
    else match ParseOps(s[..25])
      case None => LibError
      case Some(parts) =>
        if |parts| >= 5 && parts[0].opCode == OP_DUP && parts[1].opCode == OP_HASH160 && |parts[2].data| == 20 then
          if |parts| <= 23 then LibPanic
          else if parts[23].opCode != OP_EQUALVERIFY then LibFound(None)
          else if |parts| <= 24 then LibPanic
          else if parts[24].opCode == OP_CHECKSIG then LibFound(Some(parts[2].data))
          else LibFound(None)
        else LibFound(None)
  }

  /** The owner after re-derivation, which happens only when one is already set; nothing
      where the source panics. As written the derived pointer is dereferenced whatever
      came back; the intended reading uses the five-op check and keeps the owner when no
      hash is found. */
  function Owner(g: BitcomScan.Variant, txo: Txo): (r: Option<Option<Bytes>>)
    ensures txo.owner.None? ==> r == Some(None)
    ensures g == BitcomScan.Intended ==> r.Some?
    ensures g == BitcomScan.Intended && txo.owner.Some? ==>
      (r.value.Some? && (PKHash.NewPKHashFromScript(txo.script) == PKHash.Found(None) ==> r.value == txo.owner))
  {
    if txo.owner.None? then Some(None)
    else if g == BitcomScan.AsWritten then
      match LibPKHashFromScript(txo.script)
      case LibFound(Some(h)) => Some(Some(h))
      case _ => None
    else
      match PKHash.NewPKHashFromScript(txo.script)
      case Found(Some(h)) => Some(Some(h))
      case _ => Some(txo.owner)
  }

  /** The record for output `vout`: the stored one when there is one (keeping its spend
      and data), a fresh one otherwise, always moved into `block`. */
  function OutputTxo(g: BitcomScan.Variant, db: Db, txid: Bytes, block: Block, output: Output, vout: nat): (r: Option<Txo>)
    ensures r.Some? ==> r.value.block == block
    ensures var op := Outpoint(txid, Wrap32(vout));
      op !in db.txos ==> r == Some(Txo(op, output.satoshis, output.script, block, None, None, map[]))
    ensures var op := Outpoint(txid, Wrap32(vout));
      op in db.txos && r.Some? ==>
      var old_ := db.txos[op];
      r.value.outpoint == old_.outpoint && r.value.satoshis == old_.satoshis && r.value.script == old_.script &&
      r.value.spend == old_.spend && r.value.data == old_.data && (old_.owner.None? ==> r.value.owner.None?)
  {
    var op := Outpoint(txid, Wrap32(vout));
    var base := if op in db.txos then db.txos[op] else Txo(op, output.satoshis, output.script, NoBlock, None, None, map[]);
    match Owner(g, base)
    case None => None
    case Some(o) => Some(base.(owner := o, block := block))
  }

  /** One analyzer on output `vout`: a result is stored under the analyzer's tag in the
      context the analyzer hands back. As written a result written onto an output that
      has no data yet panics, the output's data map being nil there. */
  function AnalyzeOne(g: BitcomScan.Variant, a: Analyzer, ctx: IndexContext, vout: nat): (r: Status<IndexContext>)
    ensures a.parse(ctx, vout).data.None? ==> r == Done(a.parse(ctx, vout).ctx)
    ensures r.Done? && a.parse(ctx, vout).data.Some? ==>
      var c := a.parse(ctx, vout).ctx;
      vout < |c.txos| && r.value == c.(txos := c.txos[vout := AddData(c.txos[vout], a.tag, a.parse(ctx, vout).data.value)])
    ensures g == BitcomScan.Intended ==> (r.Panic? <==> a.parse(ctx, vout).data.Some? && vout >= |a.parse(ctx, vout).ctx.txos|)
    ensures g == BitcomScan.AsWritten && a.parse(ctx, vout).data.Some? && vout < |a.parse(ctx, vout).ctx.txos| ==>
      (r.Panic? <==> a.parse(ctx, vout).ctx.txos[vout].data == map[])
  {
    var pr := a.parse(ctx, vout);
    match pr.data
    case None => Done(pr.ctx)
    case Some(d) =>
      if vout >= |pr.ctx.txos| then Panic
      else if g == BitcomScan.AsWritten && pr.ctx.txos[vout].data == map[] then Panic
      else Done(pr.ctx.(txos := pr.ctx.txos[vout := AddData(pr.ctx.txos[vout], a.tag, d)]))
  }

  /** The analyzers from the `k`-th on, in registration order, on output `vout`. */
  function Analyze(g: BitcomScan.Variant, analyzers: seq<Analyzer>, p: Pass, vout: nat, k: nat): (r: Status<Pass>)
    requires k <= |analyzers|
    decreases |analyzers| - k
  {
    if k == |analyzers| then Done(p)
    else match AnalyzeOne(g, analyzers[k], p.ctx, vout)
      case Done(c) => Analyze(g, analyzers, Pass(c, p.calls + [ParseCall(analyzers[k].tag, vout)]), vout, k + 1)
      case Failure => Failure
      case Panic => Panic
  }

  /** One output: its record is appended to the context before the analyzers see it. */
  function OutputStep(env: Env, db: Db, tx: Transaction, block: Block, p: Pass, vout: nat): (r: Status<Pass>)
    requires vout < |tx.outputs|
  {
    match OutputTxo(env.g, db, tx.txid, block, tx.outputs[vout], vout)
    case None => Panic
    case Some(txo) => Analyze(env.g, env.analyzers, Pass(p.ctx.(txos := p.ctx.txos + [txo]), p.calls), vout, 0)
  }

  /** The outputs from `vout` on, in order. */
  function Outputs(env: Env, db: Db, tx: Transaction, block: Block, p: Pass, vout: nat): (r: Status<Pass>)
    requires vout <= |tx.outputs|
    decreases |tx.outputs| - vout
  {
    if vout == |tx.outputs| then Done(p)
    else match OutputStep(env, db, tx, block, p, vout)
      case Done(q) => Outputs(env, db, tx, block, q, vout + 1)
      case Failure => Failure
      case Panic => Panic
  }

  /** Every analyzer's `Save`, in registration order. */
  function SaveAll(analyzers: seq<Analyzer>, p: Pass, k: nat): (r: Status<Pass>)
    requires k <= |analyzers|
    decreases |analyzers| - k
  {
    if k == |analyzers| then Done(p)
    else match analyzers[k].save(p.ctx)
      case None => Panic
      case Some(c) => SaveAll(analyzers, Pass(c, p.calls + [SaveCall(analyzers[k].tag)]), k + 1)
  }

  // ---------------------------------------------------------------------------
  // Parse and Ingest

  function InputOutpoints(inputs: seq<Input>): (r: seq<Outpoint>)
    ensures |r| == |inputs| && forall i :: 0 <= i < |inputs| ==> r[i] == SourceOf(inputs[i])
  {
    if inputs == [] then [] else [SourceOf(inputs[0])] + InputOutpoints(inputs[1..])
  }

  /** The first pass over the inputs, from `vin` on: a spent transaction that is not
      attached is looked up, one that is attached is ingested first. Any failure ends
      the pass, with the writes of the ingests before it kept. */
  function Sources(env: Env, db: Db, tx: Transaction, vin: nat, prevs: seq<Transaction>): (r: (Status<seq<Transaction>>, Db))
    requires vin <= |tx.inputs|
    decreases tx, 0, |tx.inputs| - vin
  {
    if vin == |tx.inputs| then (Done(prevs), db)
    else
      var input := tx.inputs[vin];
      match input.source
      case None =>
        (match env.loadTx(input.sourceTxid)
         case None => (Failure, db)
         case Some(src) => Sources(env, db, tx, vin + 1, prevs + [src]))
      case Some(src) =>
        var (st, db2) := IngestSpec(env, db, src);
        match st
        case Done(_) => Sources(env, db2, tx, vin + 1, prevs + [src])
        case Failure => (Failure, db2)
        case Panic => (Panic, db2)
  }

  /** What `Parse` builds once the spent transactions are known: the spends, the
      outputs with their analyzers, then every `Save`. */
  function Assemble(env: Env, db: Db, tx: Transaction, block: Block, prevs: seq<Transaction>): (r: Status<Pass>)
    requires |prevs| == |tx.inputs|
  {
    match Spends(db, tx, prevs, block)
    case None => Panic
    case Some(spends) =>
      match Outputs(env, db, tx, block, Pass(IndexContext(tx.txid, block, spends, [], InputOutpoints(tx.inputs)), []), 0)
      case Done(p) => SaveAll(env.analyzers, p, 0)
      case Failure => Failure
      case Panic => Panic
  }

  /** `Parse`: the block, the inputs pass, then the assembly. The store itself changes
      only through the nested ingests. */
  function ParseSpec(env: Env, db: Db, tx: Transaction): (r: (Status<Pass>, Db))
    decreases tx, 1
  {
    match BlockOf(tx, env.now)
    case None => (Panic, db)
    case Some(block) =>
      var (st, db1) := Sources(env, db, tx, 0, []);
      match st
      case Failure => (Failure, db1)
      case Panic => (Panic, db1)
      case Done(prevs) => if |prevs| != |tx.inputs| then (Panic, db1) else (Assemble(env, db1, tx, block, prevs), db1)
  }

  /** `Ingest`: parse, then write the batch; nothing is written by `Ingest` itself when
      either fails. */
  function IngestSpec(env: Env, db: Db, tx: Transaction): (r: (Status<IndexContext>, Db))
    decreases tx, 2
    ensures !r.0.Done? ==> r.1 == ParseSpec(env, db, tx).1
  {
    var (st, db1) := ParseSpec(env, db, tx);
    match st
    case Failure => (Failure, db1)
    case Panic => (Panic, db1)
    case Done(p) =>
      match Commit(env.g, db1, p.ctx)
      case None => (Panic, db1)
      case Some(db2) => (Done(p.ctx), db2)
  }

  // ---------------------------------------------------------------------------
  // The batch

  /** The spend record written for a spend (an absent one marshals as empty). */
  function SpendRecord(t: Txo): Spend {
    match t.spend case Some(s) => s case None => Spend([], 0, NoBlock)
  }

  function WriteSpends(spends: map<Outpoint, Spend>, ss: seq<Txo>): (r: map<Outpoint, Spend>)
    ensures forall op :: op in r <==> op in spends || exists i :: 0 <= i < |ss| && ss[i].outpoint == op
  {
    if ss == [] then spends
    else WriteSpends(spends, ss[..|ss| - 1])[ss[|ss| - 1].outpoint := SpendRecord(ss[|ss| - 1])]
  }

  /** The "events" member for one event of an entry of output `vout`. */
  function Member(tag: string, e: EventLog, txid: Bytes, vout: nat): string {
    tag + ":" + e.name + ":" + e.value + ":" + HexEncode(txid) + ":" + FormatDecimal(vout)
  }

  predicate HasMember(txo: Txo, txid: Bytes, vout: nat, m: string) {
    exists k, i :: k in txo.data && 0 <= i < |txo.data[k].events| &&
      m == Member(txo.data[k].tag, txo.data[k].events[i], txid, vout)
  }

  function Members(txo: Txo, txid: Bytes, vout: nat): (r: set<string>)
    ensures forall m :: m in r <==> HasMember(txo, txid, vout, m)
  {
    set k, i | k in txo.data && 0 <= i < |txo.data[k].events| :: Member(txo.data[k].tag, txo.data[k].events[i], txid, vout)
  }

  /** The score an output's events are ranked by. As written the unspent branch reads
      the block of the absent spend and panics; the intended reading ranks an unspent
      output by its own block. */
  function ScoreOf(g: BitcomScan.Variant, txo: Txo): (r: Option<Score>)
    ensures txo.spend.Some? ==> r == Some(Score(true, txo.spend.value.block.height))
    ensures txo.spend.None? ==> (r.None? <==> g == BitcomScan.AsWritten)
    ensures txo.spend.None? && r.Some? ==> r.value == Score(false, txo.block.height)
  {
    match txo.spend
    case Some(s) => Some(Score(true, s.block.height))
    case None => if g == BitcomScan.AsWritten then None else Some(Score(false, txo.block.height))
  }

  /** The output writes from `vout` on: each output's members with its score, and its
      record. */
  function WriteTxos(g: BitcomScan.Variant, db: Db, txid: Bytes, txos: seq<Txo>, vout: nat): (r: Option<Db>)
    requires vout <= |txos|
    decreases |txos| - vout
  {
    if vout == |txos| then Some(db)
    else match ScoreOf(g, txos[vout])
      case None => None
      case Some(sc) => WriteTxos(g, Stamp(db, txid, txos[vout], vout, sc), txid, txos, vout + 1)
  }

  /** One output's batch entries: its members at score `sc`, and its record. */
  function Stamp(db: Db, txid: Bytes, t: Txo, vout: nat, sc: Score): Db {
    db.(events := db.events + map m | m in Members(t, txid, vout) :: sc, txos := db.txos[t.outpoint := t])
  }

  lemma WriteTxosScored(g: BitcomScan.Variant, db: Db, txid: Bytes, txos: seq<Txo>, vout: nat, sc: Score)
    requires vout < |txos| && ScoreOf(g, txos[vout]) == Some(sc)
    ensures WriteTxos(g, db, txid, txos, vout) == WriteTxos(g, Stamp(db, txid, txos[vout], vout, sc), txid, txos, vout + 1)
  {
  }

  /** The pipelined batch: every spend record, then every output's events and record; a
      panic while the batch is queued leaves the store as it was. */
  function Commit(g: BitcomScan.Variant, db: Db, ctx: IndexContext): Option<Db> {
    WriteTxos(g, db.(spends := WriteSpends(db.spends, ctx.spends)), ctx.txid, ctx.txos, 0)
  }

  // ---------------------------------------------------------------------------
  // Call order

  /** One output's analyzer calls, in registration order. */
  function OutputCalls(analyzers: seq<Analyzer>, vout: nat): (r: seq<Call>)
    ensures |r| == |analyzers| && forall k :: 0 <= k < |r| ==> r[k] == ParseCall(analyzers[k].tag, vout)
  {
    seq(|analyzers|, k requires 0 <= k < |analyzers| => ParseCall(analyzers[k].tag, vout))
  }

  /** The analyzer calls of outputs `from` to `to`, output after output. */
  function ParseCalls(analyzers: seq<Analyzer>, from: nat, to: nat): seq<Call>
    decreases to - from
  {
    if from >= to then [] else OutputCalls(analyzers, from) + ParseCalls(analyzers, from + 1, to)
  }

  function SaveCalls(analyzers: seq<Analyzer>): (r: seq<Call>)
    ensures |r| == |analyzers| && forall k :: 0 <= k < |r| ==> r[k] == SaveCall(analyzers[k].tag)
  {
    seq(|analyzers|, k requires 0 <= k < |analyzers| => SaveCall(analyzers[k].tag))
  }

  lemma {:induction false} AnalyzeCalls(g: BitcomScan.Variant, analyzers: seq<Analyzer>, p: Pass, vout: nat, k: nat)
    requires k <= |analyzers|
    ensures Analyze(g, analyzers, p, vout, k).Done? ==>
      Analyze(g, analyzers, p, vout, k).value.calls == p.calls + OutputCalls(analyzers, vout)[k..]
    ensures !Analyze(g, analyzers, p, vout, k).Failure?
    decreases |analyzers| - k
  {
    if k < |analyzers| {
      var oc := OutputCalls(analyzers, vout);
      match AnalyzeOne(g, analyzers[k], p.ctx, vout)
      case Done(c) =>
        var q := Pass(c, p.calls + [ParseCall(analyzers[k].tag, vout)]);
        AnalyzeCalls(g, analyzers, q, vout, k + 1);
        assert oc[k..] == [oc[k]] + oc[k + 1..];
      case Failure =>
      case Panic =>
    }
  }

  lemma OutputStepCalls(env: Env, db: Db, tx: Transaction, block: Block, p: Pass, vout: nat)
    requires vout < |tx.outputs|
    ensures OutputStep(env, db, tx, block, p, vout).Done? ==>
      OutputStep(env, db, tx, block, p, vout).value.calls == p.calls + OutputCalls(env.analyzers, vout)
    ensures !OutputStep(env, db, tx, block, p, vout).Failure?
  {
    match OutputTxo(env.g, db, tx.txid, block, tx.outputs[vout], vout)
    case None =>
    case Some(txo) =>
      AnalyzeCalls(env.g, env.analyzers, Pass(p.ctx.(txos := p.ctx.txos + [txo]), p.calls), vout, 0);
      assert OutputCalls(env.analyzers, vout)[0..] == OutputCalls(env.analyzers, vout);
  }

  lemma {:induction false} OutputsCalls(env: Env, db: Db, tx: Transaction, block: Block, p: Pass, vout: nat)
    requires vout <= |tx.outputs|
    ensures Outputs(env, db, tx, block, p, vout).Done? ==>
      Outputs(env, db, tx, block, p, vout).value.calls == p.calls + ParseCalls(env.analyzers, vout, |tx.outputs|)
    ensures !Outputs(env, db, tx, block, p, vout).Failure?
    decreases |tx.outputs| - vout
  {
    if vout < |tx.outputs| {
      OutputStepCalls(env, db, tx, block, p, vout);
      var q := OutputStep(env, db, tx, block, p, vout);
      if q.Done? {
        OutputsCalls(env, db, tx, block, q.value, vout + 1);
      }
    }
  }

  lemma {:induction false} SaveAllCalls(analyzers: seq<Analyzer>, p: Pass, k: nat)
    requires k <= |analyzers|
    ensures SaveAll(analyzers, p, k).Done? ==> SaveAll(analyzers, p, k).value.calls == p.calls + SaveCalls(analyzers)[k..]
    ensures !SaveAll(analyzers, p, k).Failure?
    decreases |analyzers| - k
  {
    if k < |analyzers| && analyzers[k].save(p.ctx).Some? {
      SaveAllCalls(analyzers, Pass(analyzers[k].save(p.ctx).value, p.calls + [SaveCall(analyzers[k].tag)]), k + 1);
      assert SaveCalls(analyzers)[k..] == [SaveCall(analyzers[k].tag)] + SaveCalls(analyzers)[k + 1..];
    }
  }

  lemma AssembleCalls(env: Env, db: Db, tx: Transaction, block: Block, prevs: seq<Transaction>)
    requires |prevs| == |tx.inputs|
    ensures Assemble(env, db, tx, block, prevs).Done? ==>
      Assemble(env, db, tx, block, prevs).value.calls == ParseCalls(env.analyzers, 0, |tx.outputs|) + SaveCalls(env.analyzers)
    ensures !Assemble(env, db, tx, block, prevs).Failure?
  {
    match Spends(db, tx, prevs, block)
    case None =>
    case Some(spends) =>
      var p := Pass(IndexContext(tx.txid, block, spends, [], InputOutpoints(tx.inputs)), []);
      OutputsCalls(env, db, tx, block, p, 0);
      var o := Outputs(env, db, tx, block, p, 0);
      if o.Done? {
        assert o.value.calls == ParseCalls(env.analyzers, 0, |tx.outputs|) by {
          assert [] + ParseCalls(env.analyzers, 0, |tx.outputs|) == ParseCalls(env.analyzers, 0, |tx.outputs|);
        }
        assert Assemble(env, db, tx, block, prevs) == SaveAll(env.analyzers, o.value, 0);
        SaveAllCalls(env.analyzers, o.value, 0);
        assert SaveCalls(env.analyzers)[0..] == SaveCalls(env.analyzers);
      } else {
        assert o.Panic? && Assemble(env, db, tx, block, prevs) == Panic;
      }
  }

  /** A parse that completes calls every analyzer on every output, output by output and
      in registration order, and then `Save` once per analyzer in the same order. */
  lemma CallOrder(env: Env, db: Db, tx: Transaction)
    ensures ParseSpec(env, db, tx).0.Done? ==>
      ParseSpec(env, db, tx).0.value.calls == ParseCalls(env.analyzers, 0, |tx.outputs|) + SaveCalls(env.analyzers)
  {
    if BlockOf(tx, env.now).Some? {
      var (st, db1) := Sources(env, db, tx, 0, []);
      if st.Done? && |st.value| == |tx.inputs| {
        AssembleCalls(env, db1, tx, BlockOf(tx, env.now).value, st.value);
      }
    }
  }

  // ---------------------------------------------------------------------------
  // Inputs pass

  predicate Unattached(tx: Transaction) {
    forall i :: 0 <= i < |tx.inputs| ==> tx.inputs[i].source.None?
  }

  lemma {:induction false} SourcesUnattached(env: Env, db: Db, tx: Transaction, vin: nat, prevs: seq<Transaction>)
    requires vin <= |tx.inputs| && Unattached(tx)
    ensures Sources(env, db, tx, vin, prevs).1 == db
    ensures Sources(env, db, tx, vin, prevs).0.Failure? <==>
      exists i :: vin <= i < |tx.inputs| && env.loadTx(tx.inputs[i].sourceTxid).None?
    ensures Sources(env, db, tx, vin, prevs).0.Done? ==>
      |Sources(env, db, tx, vin, prevs).0.value| == |prevs| + |tx.inputs| - vin
    decreases |tx.inputs| - vin
  {
    if vin < |tx.inputs| {
      var src := env.loadTx(tx.inputs[vin].sourceTxid);
      if src.Some? {
        SourcesUnattached(env, db, tx, vin + 1, prevs + [src.value]);
      }
    }
  }

  /** With no spent transaction attached, parsing writes nothing, and it fails exactly
      when one of the spent transactions cannot be looked up (a proof without levels
      aside, which panics first). */
  lemma ParseUnattached(env: Env, db: Db, tx: Transaction)
    requires Unattached(tx) && BlockOf(tx, env.now).Some?
    ensures ParseSpec(env, db, tx).1 == db
    ensures ParseSpec(env, db, tx).0.Failure? <==>
      exists i :: 0 <= i < |tx.inputs| && env.loadTx(tx.inputs[i].sourceTxid).None?
  {
    SourcesUnattached(env, db, tx, 0, []);
    var (st, db1) := Sources(env, db, tx, 0, []);
    if st.Done? && |st.value| == |tx.inputs| {
      AssembleCalls(env, db1, tx, BlockOf(tx, env.now).value, st.value);
    }
  }

  // ---------------------------------------------------------------------------
  // Batch properties

  predicate DistinctOutpoints(txos: seq<Txo>) {
    forall i, j :: 0 <= i < j < |txos| ==> txos[i].outpoint != txos[j].outpoint
  }

  lemma {:induction false} WriteSpendsAt(spends: map<Outpoint, Spend>, ss: seq<Txo>)
    requires DistinctOutpoints(ss)
    ensures forall i :: 0 <= i < |ss| ==>
      ss[i].outpoint in WriteSpends(spends, ss) && WriteSpends(spends, ss)[ss[i].outpoint] == SpendRecord(ss[i])
    ensures forall op :: op in spends && (forall i :: 0 <= i < |ss| ==> ss[i].outpoint != op) ==>
      WriteSpends(spends, ss)[op] == spends[op]
  {
    if ss != [] {
      var init, last := ss[..|ss| - 1], ss[|ss| - 1];
      assert DistinctOutpoints(init);
      WriteSpendsAt(spends, init);
      var w := WriteSpends(spends, ss);
      assert w == WriteSpends(spends, init)[last.outpoint := SpendRecord(last)];
      forall i | 0 <= i < |ss| ensures ss[i].outpoint in w && w[ss[i].outpoint] == SpendRecord(ss[i]) {
        if i < |ss| - 1 {
          assert ss[i] == init[i] && ss[i].outpoint != last.outpoint;
        }
      }
      forall op | op in spends && (forall i :: 0 <= i < |ss| ==> ss[i].outpoint != op) ensures w[op] == spends[op] {
        assert forall i :: 0 <= i < |init| ==> init[i].outpoint != op by {
          forall i | 0 <= i < |init| ensures init[i].outpoint != op { assert init[i] == ss[i]; }
        }
        assert last.outpoint != op;
      }
    }
  }

  /** A batch step under the intended reading: the output's record and members. */
  function WriteOne(db: Db, txid: Bytes, t: Txo, vout: nat): Db {
    Stamp(db, txid, t, vout, ScoreOf(BitcomScan.Intended, t).value)
  }

  lemma WriteTxosStep(db: Db, txid: Bytes, txos: seq<Txo>, vout: nat)
    requires vout < |txos|
    ensures WriteTxos(BitcomScan.Intended, db, txid, txos, vout) ==
      WriteTxos(BitcomScan.Intended, WriteOne(db, txid, txos[vout], vout), txid, txos, vout + 1)
  {
  }

  /** Under the intended reading the output writes store every output's record (the
      outpoints being distinct) and keep every other record. */
  lemma {:induction false} WriteTxosRecords(db: Db, txid: Bytes, txos: seq<Txo>, vout: nat)
    requires vout <= |txos| && DistinctOutpoints(txos)
    ensures WriteTxos(BitcomScan.Intended, db, txid, txos, vout).Some?
    ensures var d := WriteTxos(BitcomScan.Intended, db, txid, txos, vout).value;
      d.spends == db.spends &&
      (forall j :: vout <= j < |txos| ==> txos[j].outpoint in d.txos && d.txos[txos[j].outpoint] == txos[j]) &&
      (forall op :: op in d.txos ==> op in db.txos || exists j :: vout <= j < |txos| && txos[j].outpoint == op) &&
      (forall op :: op in db.txos && (forall j :: vout <= j < |txos| ==> txos[j].outpoint != op) ==>
        op in d.txos && d.txos[op] == db.txos[op])
    decreases |txos| - vout
  {
    if vout < |txos| {
      WriteTxosStep(db, txid, txos, vout);
      WriteTxosRecords(WriteOne(db, txid, txos[vout], vout), txid, txos, vout + 1);
    }
  }

  /** Under the intended reading the output writes keep every earlier member and add
      exactly the outputs' members, each with the score of an output that names it. */
  lemma {:induction false} WriteTxosEvents(db: Db, txid: Bytes, txos: seq<Txo>, vout: nat)
    requires vout <= |txos|
    ensures WriteTxos(BitcomScan.Intended, db, txid, txos, vout).Some?
    ensures var d := WriteTxos(BitcomScan.Intended, db, txid, txos, vout).value;
      (forall m :: m in db.events ==> m in d.events) &&
      (forall j, m :: vout <= j < |txos| && m in Members(txos[j], txid, j) ==> m in d.events)
    ensures var d := WriteTxos(BitcomScan.Intended, db, txid, txos, vout).value;
      forall m :: m in d.events ==>
        (m in db.events && d.events[m] == db.events[m]) ||
        exists j :: vout <= j < |txos| && m in Members(txos[j], txid, j) &&
          ScoreOf(BitcomScan.Intended, txos[j]) == Some(d.events[m])
    decreases |txos| - vout
  {
    if vout < |txos| {
      WriteTxosStep(db, txid, txos, vout);
      WriteTxosEvents(WriteOne(db, txid, txos[vout], vout), txid, txos, vout + 1);
    }
  }

  /** Under the intended reading the batch always goes through. It writes:
      - the spend record of every spend;
      - the record of every output;
      - and every output's "events" members. */
  lemma IngestWrites(db: Db, ctx: IndexContext)
    requires DistinctOutpoints(ctx.spends) && DistinctOutpoints(ctx.txos)
    ensures Commit(BitcomScan.Intended, db, ctx).Some?
    ensures var d := Commit(BitcomScan.Intended, db, ctx).value;
      (forall i :: 0 <= i < |ctx.spends| ==>
        ctx.spends[i].outpoint in d.spends && d.spends[ctx.spends[i].outpoint] == SpendRecord(ctx.spends[i])) &&
      (forall j :: 0 <= j < |ctx.txos| ==> ctx.txos[j].outpoint in d.txos && d.txos[ctx.txos[j].outpoint] == ctx.txos[j]) &&
      (forall j, m :: 0 <= j < |ctx.txos| && m in Members(ctx.txos[j], ctx.txid, j) ==> m in d.events)
  {
    WriteSpendsAt(db.spends, ctx.spends);
    WriteTxosRecords(db.(spends := WriteSpends(db.spends, ctx.spends)), ctx.txid, ctx.txos, 0);
    WriteTxosEvents(db.(spends := WriteSpends(db.spends, ctx.spends)), ctx.txid, ctx.txos, 0);
  }

  /** As written, a batch with an unspent output panics before anything is sent. */
  lemma {:induction false} UnspentBatchPanics(db: Db, txid: Bytes, txos: seq<Txo>, vout: nat, j: nat)
    requires vout <= j < |txos| && txos[j].spend.None?
    ensures WriteTxos(BitcomScan.AsWritten, db, txid, txos, vout).None?
    decreases |txos| - vout
  {
    if vout < j {
      var t := txos[vout];
      if t.spend.Some? {
        var sc := ScoreOf(BitcomScan.AsWritten, t).value;
        UnspentBatchPanics(Stamp(db, txid, t, vout, sc), txid, txos, vout + 1, j);
      }
    }
  }

  // ---------------------------------------------------------------------------
  // Owner re-derivation

  /** As written, re-deriving the owner of a P2PKH output panics: the library check
      reads operation 23 of a five-op script. */
  lemma OwnerRederivePanics(txo: Txo)
    requires txo.owner.Some? && PKHash.IsP2PKH(txo.script)
    ensures Owner(BitcomScan.AsWritten, txo) == None
  {
    PKHash.TemplateParses(txo.script);
    assert txo.script[..25] == txo.script;
  }

  /** Intended: the owner of a P2PKH output is its public-key hash. */
  lemma OwnerRederived(txo: Txo)
    requires txo.owner.Some? && PKHash.IsP2PKH(txo.script)
    ensures Owner(BitcomScan.Intended, txo) == Some(Some(txo.script[3..23]))
  {
    PKHash.TemplateParses(txo.script);
    assert txo.script[..25] == txo.script;
  }

  // ---------------------------------------------------------------------------
  // A one-output transaction

  /** A transaction with no inputs and one fresh output, and an analyzer that records an
      empty entry for every output. */
  function Fresh(): Transaction {
    Transaction([1], [], [Output(1, [])], None, false)
  }

  function Tagger(): Analyzer {
    Analyzer("t", (c: IndexContext, v: nat) => ParseResult(Some(Entry(NoItem, [])), c), (c: IndexContext) => Some(c))
  }

  const EmptyDb := Db(map[], map[], map[])

  lemma FreshPrefix(env: Env)
    ensures BlockOf(Fresh(), env.now) == Some(Block(Wrap32(env.now), 0, []))
    ensures Sources(env, EmptyDb, Fresh(), 0, []) == (Done([]), EmptyDb)
    ensures ParseSpec(env, EmptyDb, Fresh()) == (Assemble(env, EmptyDb, Fresh(), Block(Wrap32(env.now), 0, []), []), EmptyDb)
    ensures Spends(EmptyDb, Fresh(), [], Block(Wrap32(env.now), 0, [])) == Some([])
    ensures InputOutpoints([]) == []
  {
  }

  /** The context `Fresh` is assembled into, and its one output record. */
  function FreshCtx(now: int): IndexContext {
    IndexContext([1], Block(Wrap32(now), 0, []), [], [], [])
  }

  function FreshTxo(now: int): Txo {
    Txo(Outpoint([1], 0), 1, [], Block(Wrap32(now), 0, []), None, None, map[])
  }

  lemma FreshOutput(env: Env)
    ensures OutputTxo(env.g, EmptyDb, [1], Block(Wrap32(env.now), 0, []), Output(1, []), 0) == Some(FreshTxo(env.now))
    ensures Assemble(env, EmptyDb, Fresh(), Block(Wrap32(env.now), 0, []), []) ==
      match Outputs(env, EmptyDb, Fresh(), Block(Wrap32(env.now), 0, []), Pass(FreshCtx(env.now), []), 0)
      case Done(p) => SaveAll(env.analyzers, p, 0)
      case Failure => Failure
      case Panic => Panic
    ensures Outputs(env, EmptyDb, Fresh(), Block(Wrap32(env.now), 0, []), Pass(FreshCtx(env.now), []), 0) ==
      match OutputStep(env, EmptyDb, Fresh(), Block(Wrap32(env.now), 0, []), Pass(FreshCtx(env.now), []), 0)
      case Done(q) => Done(q)
      case Failure => Failure
      case Panic => Panic
    ensures OutputStep(env, EmptyDb, Fresh(), Block(Wrap32(env.now), 0, []), Pass(FreshCtx(env.now), []), 0) ==
      Analyze(env.g, env.analyzers, Pass(FreshCtx(env.now).(txos := [FreshTxo(env.now)]), []), 0, 0)
  {
    FreshPrefix(env);
    assert FreshCtx(env.now).txos + [FreshTxo(env.now)] == [FreshTxo(env.now)];
  }

  /** As written, the fresh output of `Fresh` panics its parse: the analyzer's entry is
      written into the output's nil data map. */
  lemma FreshOutputPanics(loadTx: Bytes -> Option<Transaction>, now: int)
    ensures ParseSpec(Env(BitcomScan.AsWritten, [Tagger()], loadTx, now), EmptyDb, Fresh()).0 == Panic
  {
    var env := Env(BitcomScan.AsWritten, [Tagger()], loadTx, now);
    FreshPrefix(env);
    FreshOutput(env);
    var c := FreshCtx(now).(txos := [FreshTxo(now)]);
    assert Tagger().parse(c, 0) == ParseResult(Some(Entry(NoItem, [])), c);
    assert AnalyzeOne(env.g, Tagger(), c, 0) == Panic;
  }

  /** Intended: the same parse completes with the entry stored under the analyzer's tag. */
  lemma FreshOutputTagged(loadTx: Bytes -> Option<Transaction>, now: int)
    ensures var r := ParseSpec(Env(BitcomScan.Intended, [Tagger()], loadTx, now), EmptyDb, Fresh()).0;
      r.Done? && |r.value.ctx.txos| == 1 && r.value.ctx.txos[0].data == map["t" := Entry(NoItem, [])]
  {
    var env := Env(BitcomScan.Intended, [Tagger()], loadTx, now);
    FreshPrefix(env);
    FreshOutput(env);
    var c := FreshCtx(now).(txos := [FreshTxo(now)]);
    var tagged := FreshTxo(now).(data := map["t" := Entry(NoItem, [])]);
    assert Tagger().parse(c, 0) == ParseResult(Some(Entry(NoItem, [])), c);
    assert [FreshTxo(now)][0 := tagged] == [tagged];
    assert AnalyzeOne(env.g, Tagger(), c, 0) == Done(c.(txos := [tagged]));
    var q := Pass(c.(txos := [tagged]), [ParseCall("t", 0)]);
    assert [] + [ParseCall("t", 0)] == [ParseCall("t", 0)];
    assert Analyze(env.g, env.analyzers, q, 0, 1) == Done(q);
    assert Analyze(env.g, env.analyzers, Pass(c, []), 0, 0) == Done(q);
    assert SaveAll(env.analyzers, q, 0) == Done(Pass(q.ctx, q.calls + [SaveCall("t")]));
  }

  /** As written, ingesting `Fresh` with no analyzers panics on its unspent output and
      writes nothing. */
  lemma UnspentIngestPanics(loadTx: Bytes -> Option<Transaction>, now: int)
    ensures IngestSpec(Env(BitcomScan.AsWritten, [], loadTx, now), EmptyDb, Fresh()) == (Panic, EmptyDb)
  {
    var env := Env(BitcomScan.AsWritten, [], loadTx, now);
    FreshPrefix(env);
    FreshOutput(env);
    var c := FreshCtx(now).(txos := [FreshTxo(now)]);
    assert ParseSpec(env, EmptyDb, Fresh()) == (Done(Pass(c, [])), EmptyDb);
    UnspentBatchPanics(EmptyDb, [1], [FreshTxo(now)], 0, 0);
  }

  /** Intended: the same ingest stores the output's record. */
  lemma UnspentIngestWrites(loadTx: Bytes -> Option<Transaction>, now: int)
    ensures var r := IngestSpec(Env(BitcomScan.Intended, [], loadTx, now), EmptyDb, Fresh());
      r.0.Done? && r.1.txos == map[Outpoint([1], 0) := FreshTxo(now)]
  {
    var env := Env(BitcomScan.Intended, [], loadTx, now);
    FreshPrefix(env);
    FreshOutput(env);
    var c := FreshCtx(now).(txos := [FreshTxo(now)]);
    assert ParseSpec(env, EmptyDb, Fresh()) == (Done(Pass(c, [])), EmptyDb);
    assert WriteSpends(map[], []) == map[];
    WriteTxosStep(EmptyDb, [1], [FreshTxo(now)], 0);
  }

  // ---------------------------------------------------------------------------
  // The store as the source runs it

  /** The backing store, updated in place by `Ingest`. */
  class Store {
    var txos: map<Outpoint, Txo>
    var spends: map<Outpoint, Spend>
    var events: map<string, Score>

    constructor (db: Db)
      ensures State() == db
    {
      txos, spends, events := db.txos, db.spends, db.events;
    }

    function State(): Db
      reads this
    {
      Db(txos, spends, events)
    }

    /** The first pass over the inputs. */
    method LoadSources(env: Env, tx: Transaction) returns (st: Status<seq<Transaction>>)
      modifies this
      decreases tx, 0
      ensures (st, State()) == Sources(env, old(State()), tx, 0, [])
    {
      var prevs: seq<Transaction> := [];
      var vin := 0;
      while vin < |tx.inputs|
        invariant vin <= |tx.inputs|
        invariant Sources(env, State(), tx, vin, prevs) == Sources(env, old(State()), tx, 0, [])
      {
        var input := tx.inputs[vin];
        if input.source.None? {
          var src := env.loadTx(input.sourceTxid);
          if src.None? {
            return Failure;
          }
          prevs := prevs + [src.value];
        } else {
          var r := Ingest(env, input.source.value);
          if r.Failure? {
            return Failure;
          } else if r.Panic? {
            return Panic;
          }
          prevs := prevs + [input.source.value];
        }
        vin := vin + 1;
      }
      return Done(prevs);
    }

    /** One spend per input, from the stored record or a stub. */
    method CollectSpends(tx: Transaction, prevs: seq<Transaction>, block: Block) returns (r: Option<seq<Txo>>)
      requires |tx.inputs| == |prevs|
      ensures r == Spends(State(), tx, prevs, block)
    {
      if tx.coinbase {
        return Some([]);
      }
      var acc: seq<Txo> := [];
      var vin := 0;
      while vin < |tx.inputs|
        invariant vin <= |tx.inputs| && SpendsUpTo(State(), tx, prevs, block, vin) == Some(acc)
      {
        var input := tx.inputs[vin];
        var op := Outpoint(input.sourceTxid, input.sourceVout);
        var spend: Txo;
        if op in txos {
          spend := txos[op];
        } else if (input.sourceVout as nat) < |prevs[vin].outputs| {
          var out := prevs[vin].outputs[input.sourceVout];
          spend := Txo(op, out.satoshis, out.script, NoBlock, None, None, map[]);
        } else {
          return None;
        }
        spend := spend.(spend := Some(Spend(tx.txid, Wrap32(vin), block)));
        acc := acc + [spend];
        vin := vin + 1;
      }
      return Some(acc);
    }

    /** The record for one output, before the analyzers. */
    method BuildTxo(g: BitcomScan.Variant, txid: Bytes, block: Block, output: Output, vout: nat) returns (r: Option<Txo>)
      ensures r == OutputTxo(g, State(), txid, block, output, vout)
    {
      var op := Outpoint(txid, Wrap32(vout));
      var txo: Txo;
      if op in txos {
        txo := txos[op];
      } else {
        txo := Txo(op, output.satoshis, output.script, NoBlock, None, None, map[]);
      }
      if txo.owner.Some? {
        var owner := Owner(g, txo);
        if owner.None? {
          return None;
        }
        txo := txo.(owner := owner.value);
      }
      return Some(txo.(block := block));
    }

    /** The analyzers on one output, in registration order. */
    static method RunAnalyzers(g: BitcomScan.Variant, analyzers: seq<Analyzer>, p0: Pass, vout: nat) returns (r: Status<Pass>)
      ensures r == Analyze(g, analyzers, p0, vout, 0)
    {
      var p := p0;
      var k := 0;
      while k < |analyzers|
        invariant k <= |analyzers| && Analyze(g, analyzers, p, vout, k) == Analyze(g, analyzers, p0, vout, 0)
      {
        var a := analyzers[k];
        var pr := a.parse(p.ctx, vout);
        var ctx := pr.ctx;
        if pr.data.Some? {
          if vout >= |ctx.txos| {
            return Panic;
          }
          if g == BitcomScan.AsWritten && ctx.txos[vout].data == map[] {
            return Panic;
          }
          ctx := ctx.(txos := ctx.txos[vout := AddData(ctx.txos[vout], a.tag, pr.data.value)]);
        }
        p := Pass(ctx, p.calls + [ParseCall(a.tag, vout)]);
        k := k + 1;
      }
      return Done(p);
    }

    /** The outputs pass. */
    method RunOutputs(env: Env, tx: Transaction, block: Block, p0: Pass) returns (r: Status<Pass>)
      ensures r == Outputs(env, State(), tx, block, p0, 0)
    {
      var p := p0;
      var vout := 0;
      while vout < |tx.outputs|
        invariant vout <= |tx.outputs|
        invariant Outputs(env, State(), tx, block, p, vout) == Outputs(env, State(), tx, block, p0, 0)
      {
        var txo := BuildTxo(env.g, tx.txid, block, tx.outputs[vout], vout);
        if txo.None? {
          return Panic;
        }
        var q := RunAnalyzers(env.g, env.analyzers, Pass(p.ctx.(txos := p.ctx.txos + [txo.value]), p.calls), vout);
        if !q.Done? {
          return q;
        }
        p := q.value;
        vout := vout + 1;
      }
      return Done(p);
    }

    /** Every analyzer's `Save`, in order. */
    static method RunSaves(analyzers: seq<Analyzer>, p0: Pass) returns (r: Status<Pass>)
      ensures r == SaveAll(analyzers, p0, 0)
    {
      var p := p0;
      var k := 0;
      while k < |analyzers|
        invariant k <= |analyzers| && SaveAll(analyzers, p, k) == SaveAll(analyzers, p0, 0)
      {
        var c := analyzers[k].save(p.ctx);
        if c.None? {
          return Panic;
        }
        p := Pass(c.value, p.calls + [SaveCall(analyzers[k].tag)]);
        k := k + 1;
      }
      return Done(p);
    }

    /** `Parse`. */
    method Parse(env: Env, tx: Transaction) returns (st: Status<Pass>)
      modifies this
      decreases tx, 1
      ensures (st, State()) == ParseSpec(env, old(State()), tx)
    {
      var block := BlockOf(tx, env.now);
      if block.None? {
        return Panic;
      }
      var prevs := LoadSources(env, tx);
      if prevs.Failure? {
        return Failure;
      } else if prevs.Panic? {
        return Panic;
      } else if |prevs.value| != |tx.inputs| {
        return Panic;
      }
      var spends := CollectSpends(tx, prevs.value, block.value);
      if spends.None? {
        return Panic;
      }
      var ctx := IndexContext(tx.txid, block.value, spends.value, [], InputOutpoints(tx.inputs));
      var o := RunOutputs(env, tx, block.value, Pass(ctx, []));
      if !o.Done? {
        return o;
      }
      st := RunSaves(env.analyzers, o.value);
    }

    /** The pipelined batch: queued first, then applied at once; a panic while queueing
        leaves the store untouched. */
    method WriteBatch(g: BitcomScan.Variant, ctx: IndexContext) returns (ok: bool)
      modifies this
      ensures ok == Commit(g, old(State()), ctx).Some?
      ensures ok ==> State() == Commit(g, old(State()), ctx).value
      ensures !ok ==> State() == old(State())
    {
      var sp := spends;
      var i := 0;
      while i < |ctx.spends|
        invariant i <= |ctx.spends| && sp == WriteSpends(spends, ctx.spends[..i])
        invariant unchanged(this)
      {
        assert ctx.spends[..i + 1][..i] == ctx.spends[..i];
        sp := sp[ctx.spends[i].outpoint := SpendRecord(ctx.spends[i])];
        i := i + 1;
      }
      assert ctx.spends[..i] == ctx.spends;
      var db := Db(txos, sp, events);
      ghost var commit := Commit(g, State(), ctx);
      assert WriteTxos(g, db, ctx.txid, ctx.txos, 0) == commit;
      var vout := 0;
      while vout < |ctx.txos|
        invariant vout <= |ctx.txos|
        invariant WriteTxos(g, db, ctx.txid, ctx.txos, vout) == commit
        invariant unchanged(this)
      {
        var t := ctx.txos[vout];
        var score: Score;
        if t.spend.Some? {
          score := Score(true, t.spend.value.block.height);
        } else if g == BitcomScan.AsWritten {
          assert WriteTxos(g, db, ctx.txid, ctx.txos, vout) == None;
          return false;
        } else {
          score := Score(false, t.block.height);
        }
        WriteTxosScored(g, db, ctx.txid, ctx.txos, vout, score);
        db := db.(events := db.events + map m | m in Members(t, ctx.txid, vout) :: score,
                  txos := db.txos[t.outpoint := t]);
        vout := vout + 1;
      }
      txos, spends, events := db.txos, db.spends, db.events;
      return true;
    }

    /** `Ingest`. */
    method Ingest(env: Env, tx: Transaction) returns (st: Status<IndexContext>)
      modifies this
      decreases tx, 2
      ensures (st, State()) == IngestSpec(env, old(State()), tx)
    {
      var p := Parse(env, tx);
      if p.Failure? {
        return Failure;
      } else if p.Panic? {
        return Panic;
      }
      var ok := WriteBatch(env.g, p.value.ctx);
      if !ok {
        return Panic;
      }
      return Done(p.value.ctx);
    }
  }
}
