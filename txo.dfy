/** Outputs and the per-transaction context the analyzers work on (types/types.go,
    types/indexer.go), the analyzer interface, and the tag lookup of types/txo.go. */
module Txos {
  import opened Base
  import opened Outpoints
  import opened Records

  /** `Block`: height, position of the transaction in the block, block hash. */
  datatype Block = Block(height: uint32, idx: uint64, hash: Bytes)

  /** `Spend`: the transaction and input that spend an output, and its block. */
  datatype Spend = Spend(txid: Bytes, vin: uint32, block: Block)

  /** `Txo`: one transaction output and everything indexed about it, keyed by map key. */
  datatype Txo = Txo(outpoint: Outpoint, satoshis: uint64, script: Bytes, block: Block,
                     owner: Option<Bytes>, spend: Option<Spend>, data: map<string, IndexData>)

  /** `IndexContext`: the transaction being indexed, the outputs it spends (in input
      order), its own outputs, and the source outpoint each input names. */
  datatype IndexContext = IndexContext(txid: Bytes, block: Block, spends: seq<Txo>,
                                       txos: seq<Txo>, inputs: seq<Outpoint>)

  /** What an analyzer's `Parse` yields: its entry, or nothing, and the context as it
      leaves it (an analyzer may write to the output it inspects). */
  datatype ParseResult = ParseResult(data: Option<IndexData>, ctx: IndexContext)

  /** The `Indexer` interface: a tag, a per-output `Parse` and a per-transaction `Save`.
      `save` yields nothing where the analyzer's own code would panic. */
  datatype Analyzer = Analyzer(tag: string,
                               parse: (IndexContext, nat) -> ParseResult,
                               save: IndexContext -> Option<IndexContext>)

  /** The output with one more entry stored under `key`. */
  function AddData(txo: Txo, key: string, d: IndexData): (t: Txo)
    ensures t.data == txo.data[key := d]
    ensures t.outpoint == txo.outpoint && t.script == txo.script && t.owner == txo.owner
  {
    txo.(data := txo.data[key := d])
  }

  // ---------------------------------------------------------------------------
  // Tag lookup (types/txo.go)

  /** `order` enumerates exactly the keys of `data`: Go visits a map in an unspecified
      order, so the lookup is stated for every enumeration. */
  predicate Enumerates(data: map<string, IndexData>, order: seq<string>) {
    (forall k :: k in order ==> k in data) && (forall k :: k in data ==> k in order)
  }

  function FirstTagged(data: map<string, IndexData>, order: seq<string>, tag: string): (r: Option<IndexData>)
    requires forall k :: k in order ==> k in data
    ensures r.Some? ==> r.value.tag == tag && exists k :: k in order && data[k] == r.value
    ensures r.None? ==> forall i :: 0 <= i < |order| ==> data[order[i]].tag != tag
  {
    if order == [] then None
    else if data[order[0]].tag == tag then Some(data[order[0]])
    else FirstTagged(data, order[1..], tag)
  }

  /** `Txo.IndexData(tag)`: the first entry met whose own `Tag` field equals `tag`,
      whatever key it is stored under, or nothing when no entry carries that tag. */
  function IndexDataOf(txo: Txo, tag: string, order: seq<string>): (r: Option<IndexData>)
    requires Enumerates(txo.data, order)
    ensures r.Some? ==> r.value.tag == tag && exists k :: k in txo.data && txo.data[k] == r.value
    ensures r.None? <==> forall k :: k in txo.data ==> txo.data[k].tag != tag
  {
    var r := FirstTagged(txo.data, order, tag);
    assert r.None? ==> forall k :: k in txo.data ==> txo.data[k].tag != tag by {
      if r.None? {
        forall k | k in txo.data ensures txo.data[k].tag != tag {
          var i :| 0 <= i < |order| && order[i] == k;
        }
      }
    }
    r
  }

  /** When at most one entry carries the tag, the map's visiting order does not matter. */
  lemma IndexDataOfUnique(txo: Txo, tag: string, o1: seq<string>, o2: seq<string>)
    requires Enumerates(txo.data, o1) && Enumerates(txo.data, o2)
    requires forall a, b ::
      a in txo.data && b in txo.data && txo.data[a].tag == tag && txo.data[b].tag == tag ==> a == b
    ensures IndexDataOf(txo, tag, o1) == IndexDataOf(txo, tag, o2)
  {
  }

  /** An entry stored under the key `tag` is not found when its `Tag` field was left
      empty, as the analyzers of this repository leave it. */
  lemma KeyIsNotTag(txo: Txo, order: seq<string>, key: string, d: IndexData)
    requires key != "" && d.tag == ""
    requires txo.data == map[key := d] && Enumerates(txo.data, order)
    ensures IndexDataOf(txo, key, order) == None
  {
  }
}
