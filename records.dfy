/** The records the analyzers produce and store on an output (types/indexer.go and the
    record structs under mod/): events, the per-analyzer entry `IndexData`, and every
    analyzer's own record, joined in `Item` where the source holds an untyped object. */
module Records {
  import opened Base
  import opened Outpoints

  /** `EventLog`: one searchable pair an analyzer emits; `name` is the source's `Label`. */
  datatype EventLog = EventLog(name: string, value: string)

  /** A MAP value: the pushed bytes held as a Go string, or, for "subTypeData", the
      same bytes kept as raw JSON (`json.RawMessage`). */
  datatype MapValue = Text(text: Bytes) | RawJson(json: Bytes)

  type MapData = map<string, MapValue>

  /** `lib.File`: content with its type, encoding, name, size and SHA-256 hash. */
  datatype File = File(hash: Bytes, size: nat, mimeType: string, content: Bytes,
                       encoding: string, name: string)

  const EmptyFile := File([], 0, "", [], "", "")

  /** One verified SIGMA signature (mod/bitcom/sigma.go). */
  datatype Sigma = Sigma(algorithm: string, address: string, signature: Bytes, vin: uint32)

  /** The Bitcom sections found in one script (mod/bitcom/bitcom.go). */
  datatype Bitcom = Bitcom(mapData: Option<MapData>, b: Option<File>, sigmas: seq<Sigma>)

  /** An ordinals inscription envelope (mod/ord/inscription.go, ordinals/ordinals.go).
      `metadata` holds the CBOR bytes that decoded; `events` are the events the present
      revision logs, `words` the word list the older revision keeps instead. */
  datatype Inscription = Inscription(
    json: Option<Bytes>, text: Option<string>, file: File, pointer: Option<uint64>,
    parent: Option<Outpoint>, metadata: Option<Bytes>, metaproto: Option<Bytes>,
    fields: map<string, Bytes>, events: seq<EventLog>, words: seq<string>)

  /** The lineage root of a one-satoshi output (mod/origin/origin.go): its first
      outpoint, how many hops away it is, the merged MAP data and the dependency txids. */
  datatype Origin = Origin(outpoint: Option<Outpoint>, nonce: uint32, data: Option<MapData>,
                           deps: seq<Bytes>)

  /** An origin as it comes back from the persisted JSON: each of its three keys may be
      missing, and a malformed outpoint string decodes to nothing. */
  datatype CachedOrigin = CachedOrigin(outpoint: Option<string>, nonce: Option<uint32>,
                                       data: Option<MapData>)

  /** A BSV-21 token output (mod/bsv21/bsv21.go). */
  datatype Bsv21 = Bsv21(id: Outpoint, op: string, amt: uint64, dec: uint32, sym: string,
                         icon: Option<Outpoint>, contract: string, status: int, reason: string)

  /** An OrdLock listing (mod/ordlock/ordlock.go). */
  datatype Listing = Listing(price: uint64, payOut: Bytes)

  /** The typed object an `IndexData` carries, or one of the raw values the source
      stores directly in a data map. */
  datatype Item =
    | NoItem
    | InscriptionItem(insc: Inscription)
    | BitcomItem(bitcom: Bitcom)
    | MapItem(mapData: MapData)
    | FileItem(file: File)
    | SigmasItem(sigmas: seq<Sigma>)
    | OriginItem(origin: Origin)
    | OriginCacheItem(cached: CachedOrigin)
    | Bsv21Item(bsv21: Bsv21)
    | ListingItem(listing: Listing)
    | TypesItem(types: seq<string>)

  /** `IndexData`: what one analyzer recorded for one output. */
  datatype IndexData = IndexData(tag: string, data: Bytes, events: seq<EventLog>,
                                 deps: seq<Outpoint>, item: Item)

  /** A freshly built entry holding only an object and its events. */
  function Entry(item: Item, events: seq<EventLog>): IndexData {
    IndexData("", [], events, [], item)
  }
}
