# casemod-indexer, modelled in Dafny

casemod-indexer indexes Bitcoin SV transactions. Each transaction is split into its
spends (the outputs its inputs consume) and its outputs. A chain of analyzers then runs
over each output's locking script. Each analyzer recognises one protocol and attaches
an entry under its tag. An entry holds the decoded data and a list of events. The events
become members of a sorted "events" set in a redis-backed output store.

This project models the core of that pipeline:

- **Script reader.** `lib/parser.go` reads one script operation at a time: opcodes,
  direct pushes and OP_PUSHDATA1/2/4. Module `Parser`.
- **Value types.** Outpoints with their text form, output records and their data
  entries, and P2PKH key-hash extraction. Modules `Outpoints`, `Records`, `Txos` and
  `PKHash`.
- **Redis keys.** The key and member builders of `db/keys.go`. Module `Keys`.
- **Bitcom protocols.** These live in the OP_RETURN data of a script:
  - MAP key/value sets;
  - B files;
  - SIGMA signatures, with their input-bound preimage;
  - the scan that splits a script into sections at OP_RETURN and '|'.

  Modules `BitcomSection`, `BitcomMap`, `BitcomB`, `BitcomSigma` and `BitcomScan`.
- **Ordinals.** Inscription envelopes (`OP_FALSE OP_IF "ord" … OP_ENDIF`) with their
  numbered and named fields, and the older output scanner in `ordinals/ordinals.go`.
  Modules `Ord` and `Ordinals`.
- **OrdLock.** OrdLock listings. Module `OrdLock`.
- **BSV-21 tokens.** Decoding, and the settlement pass that checks the inputs' balances
  against the outputs. Module `Bsv21Indexer`.
- **Origins.** The origin of a one-satoshi output, traced back through its predecessors.
  Module `OriginIndexer`.
- **Output stores.** The two stores' `Parse` and `Ingest`:
  - `txostore/store.go`, with protobuf records. Module `TxoStore`, class `Store`.
  - `txo-store/store.go`, with JSON documents. Module `TxoStoreOld`, class `JsonStore`.

How the source's forms are modelled:

- Pure decoding is modelled as functions.
- The loops of the store and analyzer code are methods. Each is proved equal to a specification function. The one exception is the read-only search of types/txo.go:3-10, which is the function `Txos.FirstTagged`.
- The stores are classes whose fields are the backing maps. Their methods are proved
  to leave exactly the state their specification function gives.

Several places in the source do something other than what the surrounding code evidently
intends; they are listed under "## Findings". At each of them the model is parameterised
by `BitcomScan.Variant`:

- `AsWritten` follows the code;
- `Intended` follows the evident intent.

Lemmas exhibit the discrepancy under the first and prove the intended property under the
second.

Foreign primitives are not modelled; they are the fields of the record `Prims.Prims`:

- SHA-256;
- signature verification;
- UTF-8 validation;
- the JSON and CBOR codecs;
- transaction-output decoding;
- base58 address encoding;
- Unicode lower-casing (`strings.ToLower`), applied to media types.

Every operation takes that record as a parameter, so every property holds whatever those
primitives compute.

## Model

| member | source | states |
|---|---|---|
| Parser.Decode | lib/parser.go:16-90 | a successful read moves the cursor forward within the script and returns the bytes just before the new cursor with `Len` equal to their count and the opcode at the old cursor; a direct push carries exactly its opcode's count of bytes; a failed read never moves the cursor backwards or past the end |
| Parser.ReadOp | lib/parser.go:16-90 | the method's operation (or error) and moved cursor are the ones `Decode` describes |
| Parser.AtEndFails | lib/parser.go:17-20 | a cursor at or past the end fails without moving |
| Parser.DirectPushReads | lib/parser.go:74-81 | an opcode 0x01..0x4B returns exactly the next n bytes and advances by 1 + n, and fails in place when fewer remain |
| Parser.PushDataReads | lib/parser.go:22-71 | OP_PUSHDATA1/2/4 read a 1-, 2- or 4-byte little-endian length and then that many bytes, and the cursor stands after them |
| Parser.TruncatedHeaderFailsInPlace | lib/parser.go:23-26 | a PUSHDATA opcode whose length header is cut short fails with the cursor unchanged |
| Parser.TruncatedPayloadAdvancesPastHeader | lib/parser.go:28-34 | a PUSHDATA whose payload is cut short fails with the cursor already moved past the opcode and its header |
| Parser.OtherOpcodesStep | lib/parser.go:82-85 | OP_0 and every opcode from 0x4F up carry no data and advance the cursor by one |
| Parser.DecodeExtends | lib/parser.go:16-90 | a successful read depends only on the bytes it consumed: appending bytes to the script does not change it |
| Parser.DecodePush | lib/parser.go:16-90 | the minimal push encoding of `d`, found anywhere in a script, decodes back to `d`, is not OP_RETURN, and leaves the cursor just after it |
| Parser.DecodeLongPush | lib/parser.go:22-71 | the same round trip for payloads of 76 bytes and more, written with PUSHDATA1/2/4 |
| Parser.DecodePushData | lib/parser.go:22-71 | a PUSHDATA opcode whose header reads `|d|`, followed by `d`, decodes to exactly `d` |
| Outpoints.ToString | types/outpoint.go:47-49 | the text form is the txid in hex (no underscore in it), one underscore at index 2·|txid|, then the decimal vout; every character is a byte |
| Outpoints.FromString | types/outpoint.go:14-32 | fails with "invalid-string" exactly when shorter than 66 characters, with a hex error exactly when the first 64 characters are not hex; on success the txid is the 32 decoded bytes and the vout the decimal read from index 65 on, below 2^32 |
| Outpoints.FromTxOutpoint | types/outpoint.go:34-45 | "invalid pointer" exactly outside 32..36 bytes; only a 36-byte pointer succeeds (33 to 35 bytes make the 4-byte read run out); the txid is the first 32 bytes reversed and the vout the remaining bytes little-endian |
| Outpoints.ToTxOutpoint | types/outpoint.go:34-45 | the binary form `NewOutpointFromTxOutpoint` reads: |txid| + 4 bytes starting with the reversed txid; `TxOutpointRoundTrip` proves it the inverse of `FromTxOutpoint` |
| Outpoints.StringRoundTrip | types/outpoint.go:14-49 | parsing the text form of an outpoint with a 32-byte txid gives the outpoint back |
| Outpoints.SeparatorUnchecked | types/outpoint.go:18-22 | the character at index 64 is never examined: replacing it does not change the parse |
| Outpoints.ToStringInjective | types/outpoint.go:47-49 | distinct outpoints have distinct text forms |
| Outpoints.TxOutpointRoundTrip | types/outpoint.go:34-45 | reading back the binary form of an outpoint with a 32-byte txid gives the outpoint back |
| Txos.FirstTagged | types/txo.go:3-10 | a result carries the tag and is one of the visited entries; no result means no visited entry carries the tag |
| Txos.IndexDataOf | types/txo.go:3-10 | the lookup returns an entry whose own tag field equals the tag, and returns nothing exactly when no entry of the output carries it, for every visiting order of the map |
| Txos.IndexDataOfUnique | types/txo.go:4 | when at most one entry carries the tag, the map's visiting order does not change the result |
| Txos.KeyIsNotTag | types/txo.go:5 | an entry stored under a key but with an empty tag field is not found by that key |
| PKHash.NewPKHashFromScript | types/pkhash.go:35-53 | scripts shorter than 25 bytes give no hash and no error; a parse error is reported exactly when the first 25 bytes do not parse; a found hash is 20 bytes |
| PKHash.ParseOpsStep | types/pkhash.go:39-40 | the parsed operations of a script begin with the operation read at the cursor, followed by the operations from the next cursor |
| PKHash.FoundIffTemplate | types/pkhash.go:35-53 | a hash is found exactly when the first 25 bytes are the P2PKH template, and the hash is then bytes 3..23 |
| PKHash.TemplateParses | types/pkhash.go:39-47 | the P2PKH template parses into exactly its five operations, the third pushing the 20-byte hash |
| PKHash.PatternIsTemplate | types/pkhash.go:42-47 | 25 bytes whose operations match the five-op pattern are the P2PKH template, and the pushed data is bytes 3..23 |
| Keys.QueueKey | db/keys.go:9-11 | the key lies in the "que:" namespace and its remainder is the indexer name followed by ':' |
| Keys.LogKey | db/keys.go:29-31 | the key lies in the "log:" namespace and its remainder is the indexer name |
| Keys.OwnerKey | db/keys.go:13-15 | the key lies in the "own:" namespace and its remainder is the owner's address |
| Keys.EventKey | db/keys.go:17-19 | the key lies in the "evt:" namespace and its remainder is tag, label and value joined by ':' |
| Keys.OwnerEventKey | db/keys.go:21-23 | the key lies in the "oev:" namespace and its remainder is the owner, then the event path |
| Keys.TxoEventKey | db/keys.go:106-108 | the key lies in the "evt:" namespace with the event path as its remainder |
| Keys.TxoOwnerKey | db/keys.go:110-112 | the key lies in the "oev:" namespace with the owner's address and the event path as its remainder |
| Keys.BlockHeightKey | db/keys.go:33-35 | the key is all digits, at least 7 of them, and exactly 7 for heights below 10^7 |
| Keys.TxoKey | db/keys.go:70-74 | the key is "txo:" followed by the outpoint's text form |
| Keys.TxoTxidKey | db/keys.go:76-78 | the pattern is "txo:", the txid, then a trailing '*' |
| Keys.DepMember | db/keys.go:94-96 | the member is the tag followed by ":dep" |
| Keys.EventMember | db/keys.go:98-100 | the member is the tag followed by ":evt" |
| Keys.DataMember | db/keys.go:102-104 | the member is the tag followed by ":dat" |
| Keys.TxoKeyMatchesTxidKey | db/keys.go:72-78 | the pattern built from a txid matches an output's key exactly when the output belongs to that transaction |
| Keys.NamespacesDistinct | db/keys.go:9-74 | keys built by different key functions never coincide |
| Keys.JoinInjective | db/keys.go:17-23 | joining with ':' is unambiguous when the components before the last carry no ':' |
| Keys.FirstColon | db/keys.go:17-23 | the first ':' of a join stands right after a colon-free first component |
| Keys.EventKeyInjective | db/keys.go:17-19 | event keys of colon-free tags and labels determine the tag and the event |
| Keys.EventKeyAmbiguous | db/keys.go:17-19 | with a ':' inside a tag or label, two different events share one key |
| Keys.TxoEventKeyIsEventKey | db/keys.go:17-108 | the two event-key functions build the same key |
| Keys.TxoOwnerKeyIsOwnerEventKey | db/keys.go:21-112 | the owner-event key built from an owner hash is the one built from its address |
| Keys.MembersDistinct | db/keys.go:88-104 | the dep, event and data members of any tags differ, and each is injective in its tag |
| Keys.DigitsValueBound | db/keys.go:34 | a digit string of length n denotes a number below 10^n |
| Keys.DigitsValueFront | db/keys.go:34 | a digit string's value is its first digit times 10^(n-1) plus the value of the rest |
| Keys.FormatDecimalLength | db/keys.go:34 | numbers below 10^7 print in at most 7 digits |
| Keys.FormatDecimalShorter | db/keys.go:34 | a number below 10^k prints in at most k digits |
| Keys.LeadingZeros | db/keys.go:34 | zero padding does not change the value of a digit string |
| Keys.BlockHeightKeyValue | db/keys.go:33-35 | the padded key denotes the height |
| Keys.DigitsOrder | db/keys.go:33-35 | of two digit strings of equal length, the smaller value comes first lexicographically |
| Keys.LexLessAsymmetric | db/keys.go:33-35 | lexicographic order is asymmetric |
| Keys.BlockHeightKeyOrder | db/keys.go:33-35 | for heights below 10^7 the keys sort exactly as the heights do |
| BitcomSection.BitcomOf | mod/bitcom/b.go:21 | a Bitcom record is found exactly when the output holds a Bitcom entry under the key "bitcom", and it is that entry's record |
| BitcomSection.ReadSectionOp | mod/bitcom/b.go:30-35 | the op read is the one `Decode` gives, and `ends` says whether it is a failure, OP_RETURN or the one-byte push '|' |
| BitcomSection.PushesStopAtEnd | mod/bitcom/b.go:29-35 | a section read stops short of its limit only at an op that ends the section, where the cursor is put back |
| BitcomSection.PushesUnfold | mod/bitcom/b.go:29-35 | one step of the section reader: nothing at an ending op, otherwise the pushed data and the pushes that follow |
| BitcomSection.PushDoesNotEnd | mod/bitcom/b.go:32 | a push of any data shorter than 2^32 bytes other than the single byte '|' does not end the section |
| BitcomSection.PushesAtEnd | mod/bitcom/b.go:32-34 | nothing is read where the section ends, and the cursor stays put |
| BitcomSection.ReadingStart | mod/bitcom/b.go:29 | a section read begins with nothing read |
| BitcomSection.ReadingDone | mod/bitcom/b.go:29-47 | a section read that used up its limit has read exactly the pushes `Pushes` describes |
| BitcomSection.NextPush | mod/bitcom/b.go:30-35 | the loop head: at an ending op the pushes read so far are the whole section and the cursor is put back; otherwise the push read extends them |
| BitcomSection.PushReads | mod/bitcom/b.go:31-32 | an encodable push found in a script is read back as itself and leaves the cursor after it |
| BitcomSection.EncodedUncons | mod/bitcom/b.go:29-31 | pushes written one after another are a first push followed by the rest written after it |
| BitcomSection.PushedAtCons | mod/bitcom/b.go:29-31 | a push read back followed by pushes read back are read back together |
| BitcomSection.EncodedPushedAt | mod/bitcom/b.go:29-35 | pushes written one after another are read back one after another |
| BitcomSection.PushesRoundTrip | mod/bitcom/b.go:29-35 | pushes read back in turn and followed by the end of the section, or by the read limit, are exactly what the section reader returns, with the cursor after them |
| BitcomSection.Pushes | mod/bitcom/b.go:32-47 | reading up to `n` pushes of a section yields at most `n` of them and never moves the cursor back; `PushesRoundTrip` states what it reads |
| BitcomMap.Pairs | mod/bitcom/map.go:58-90 | the pair loop never moves the cursor backwards and stops at an op that ends the section |
| BitcomMap.PairsUnfold | mod/bitcom/map.go:58-72 | one round of the pair loop: stop at an ending key (cursor before it) or an ending value (cursor after the key), otherwise a pair and the rounds that follow |
| BitcomMap.Unzero | mod/bitcom/map.go:81-86 | the result is empty exactly for an empty push or the single byte 0x00, and any other push is kept |
| BitcomMap.Store | mod/bitcom/map.go:73-88 | an admissible pair (key up to 256 bytes, value up to 1024, both UTF-8) is stored as text under its normalised key; any other pair leaves the map unchanged |
| Base.TrimJsonSpace | mod/bitcom/map.go:95-97 | the `json.RawMessage` a valid JSON text decodes to: no whitespace at either end, empty exactly for all-whitespace text |
| Base.TrimSurrounded | mod/bitcom/map.go:95-97 | whitespace around a value that does not itself start or end with whitespace is exactly what is removed |
| BitcomMap.FinishSubType | mod/bitcom/map.go:91-100 | every key other than "subTypeData" is untouched; a text "subTypeData" containing a NUL byte or an escaped NUL is removed, one holding valid JSON becomes raw JSON without the whitespace around the value, and any other is kept |
| BitcomMap.ParseMAP | mod/bitcom/map.go:49-103 | the map returned and the cursor left are those of `ParseMAPSpec`: nothing unless the first op reads "SET", then the collected pairs with "subTypeData" finished |
| BitcomMap.NextPair | mod/bitcom/map.go:59-71 | the loop's two reads give the next pair of `Pairs`, or end it with the cursor before the key, or before the value after a dangling key |
| BitcomMap.StorePair | mod/bitcom/map.go:73-88 | one loop body stores the pair as `Store` says |
| BitcomMap.CheckSubType | mod/bitcom/map.go:91-100 | the final step is `FinishSubType` |
| BitcomMap.SetCommandRequired | mod/bitcom/map.go:50-56 | a map is returned exactly when the first op reads and its data is "SET" |
| BitcomMap.CollectSnoc | mod/bitcom/map.go:58-90 | collecting one more pair stores it into the map collected so far |
| BitcomMap.CollectKeys | mod/bitcom/map.go:73-88 | a key is in the map exactly when some admissible pair writes it |
| BitcomMap.CollectLastWins | mod/bitcom/map.go:88 | a key holds the value of the last admissible pair that writes it |
| BitcomMap.CollectHoldsText | mod/bitcom/map.go:88 | before "subTypeData" is finished, every value is text |
| BitcomMap.CollectBounded | mod/bitcom/map.go:73-75 | every stored key is at most 256 bytes and every text value at most 1024 |
| BitcomMap.DanglingKeyConsumed | mod/bitcom/map.go:65-71 | a key with no value after it yields no pair but stays consumed: the cursor is left after it |
| BitcomMap.EmptySection | mod/bitcom/map.go:49-103 | "SET" followed by the end of the section gives the empty map, the cursor after "SET" |
| BitcomMap.ParseMAPSpec | mod/bitcom/map.go:49-103 | the MAP decoder never moves the cursor back; what it reads is stated by the `Collect` lemmas and `SetCommandRequired` |
| BitcomB.ParseB | mod/bitcom/b.go:27-52 | the file built and the cursor left are those of `ParseBSpec`: up to four pushes read as content, type, encoding and name, the size the content length truncated to 32 bits and the hash the content's SHA-256 |
| BitcomB.SetField | mod/bitcom/b.go:37-46 | the push with index i is stored into its field: content, type, encoding, then name |
| BitcomB.Parse | mod/bitcom/b.go:19-25 | the analyzer leaves the context alone, and yields the B file exactly when the output carries a Bitcom record with one, and then that file |
| BitcomB.RoundTrip | mod/bitcom/b.go:27-52 | a file whose four fields are written as pushes, its hash and size consistent with its content, is read back as exactly that file, with the cursor after the pushes |
| BitcomB.FourPushes | mod/bitcom/b.go:27-52 | four pushes read back give the file of those four fields, hashed and sized |
| BitcomB.ShortSection | mod/bitcom/b.go:27-52 | an immediately ending section gives an empty file with the hash of no content, and the cursor unmoved |
| BitcomB.ParseBSpec | mod/bitcom/b.go:27-52 | the B decoder never moves the cursor back; what it reads is stated by `RoundTrip`, `FourPushes` and `ShortSection` |
| BitcomSigma.VinOf | mod/bitcom/sigma.go:71-75 | a fourth push that is not a decimal within 32 signed bits leaves the input index at 0 |
| BitcomSigma.InputPreimage | mod/bitcom/sigma.go:79-80 | an input's preimage exists exactly when the index names an input, and is its source txid followed by its source output index, little-endian |
| BitcomSigma.SignedPrefix | mod/bitcom/sigma.go:82-89 | the signed part of the script is a proper prefix before the section: everything before an OP_RETURN, or everything before the byte preceding a '|' separator, and nothing otherwise |
| BitcomSigma.CheckSigma | mod/bitcom/sigma.go:79-98 | the signature is kept unchanged exactly when its input exists, the section follows a separator, and the address verifies it over SHA-256(SHA-256(preimage) + SHA-256(prefix)) |
| BitcomSigma.ParseSigma | mod/bitcom/sigma.go:53-99 | the signature and the cursor are those of `ParseSigmaSpec`: the four pushes read, then the check |
| BitcomSigma.ReadFields | mod/bitcom/sigma.go:55-77 | the fields are the up to four pushes of the section, as algorithm, address, signature and input index, with the cursor after them |
| BitcomSigma.SetField | mod/bitcom/sigma.go:64-76 | the push with index i is stored into its field |
| BitcomSigma.Verify | mod/bitcom/sigma.go:79-98 | the method's check is `CheckSigma` |
| BitcomSigma.DistinctAddresses | mod/bitcom/sigma.go:28-31 | the addresses of the signatures, each exactly once |
| BitcomSigma.AddressEvents | mod/bitcom/sigma.go:32-34 | one "address" event per address, in order |
| BitcomSigma.Parse | mod/bitcom/sigma.go:23-39 | the analyzer leaves the context alone, yields an entry exactly when the output's Bitcom record has signatures, holding those signatures and one "address" event per distinct signing address, no two alike |
| BitcomSigma.FourPushes | mod/bitcom/sigma.go:55-77 | four pushes read back give the signature of those four fields |
| BitcomSigma.VinRoundTrip | mod/bitcom/sigma.go:72-75 | an index below 2^31 written in decimal is read back as itself |
| BitcomSigma.RoundTrip | mod/bitcom/sigma.go:53-99 | a signature whose four fields are written as pushes is read back as itself, then checked, with the cursor after the pushes |
| BitcomSigma.ParseSigmaSpec | mod/bitcom/sigma.go:53-99 | the SIGMA decoder never moves the cursor back; what it reads is stated by `RoundTrip` |
| BitcomScan.SectionSpec | mod/bitcom/bitcom.go:47-72 | one section never moves the cursor back (an unknown prefix steps back one byte only from past it), appends at most one signature, never replaces a map already read, and treats the B file by the guard of the reading chosen (as written: set only when already set) |
| BitcomScan.ParseBitcom | mod/bitcom/bitcom.go:47-72 | the record and the cursor the method leaves are those of `SectionSpec` |
| BitcomScan.ParseScript | mod/bitcom/bitcom.go:22-45 | the scan loop's record is that of `ScriptBitcom`: every section after an OP_RETURN, and after a '|' once an OP_RETURN was seen, read in turn until the script ends or an op fails |
| BitcomScan.Parse | mod/bitcom/bitcom.go:22-45 | the analyzer leaves the context alone and yields, for every existing output, the Bitcom record of its script under the guards of the given variant (the source runs `AsWritten`) |
| BitcomScan.ParseNeverB | mod/bitcom/bitcom.go:22-45 | the analyzer as the source runs it never records a B file |
| BitcomScan.MapSetOnce | mod/bitcom/bitcom.go:57-59 | once a MAP section was read, the rest of the scan never replaces it |
| BitcomScan.SigmasAppended | mod/bitcom/bitcom.go:64-68 | the scan only appends signatures, keeping the earlier ones in order |
| BitcomScan.NeverB | mod/bitcom/bitcom.go:60-63 | as written, a record whose B file is unset never gets one, whatever the script |
| BitcomScan.BSectionRead | mod/bitcom/bitcom.go:60-63 | under the intended guard, a B prefix followed by pushes reads the B file from the pushes after the prefix |
| BitcomScan.PrefixesDistinct | mod/bitcom/bitcom.go:8-65 | the three prefixes are byte text and pairwise distinct, so the switch picks at most one decoder |
| BitcomScan.PipeAfterOpReturn | mod/bitcom/bitcom.go:38-41 | under the intended sentinel, a '|' push after an OP_RETURN at any offset, the first byte included, starts a new section |
| BitcomScan.BExample | mod/bitcom/bitcom.go:60-63 | a 38-byte script: OP_RETURN, the B prefix and one content push |
| BitcomScan.BExampleOps | mod/bitcom/bitcom.go:26-43 | the example decodes as OP_RETURN, the B prefix push ending at 36, the content push ending at 38, then the end |
| BitcomScan.BExampleFile | mod/bitcom/b.go:27-52 | the B section of the example is the one-byte file "A" |
| BitcomScan.BGuardExample | mod/bitcom/bitcom.go:60-63 | as written the example gets no B file; the intended guard gives it the one-byte file |
| BitcomScan.PipeExample | mod/bitcom/bitcom.go:34-41 | a 43-byte script: OP_RETURN at offset 0, OP_1, then a '|' and a MAP "SET" section |
| BitcomScan.PipeExampleOps | mod/bitcom/bitcom.go:26-43 | the example decodes op by op as described, ending at 43 |
| BitcomScan.PipeExampleFirstSection | mod/bitcom/bitcom.go:47-72 | the section after the OP_RETURN reads nothing and leaves the cursor at 1 |
| BitcomScan.PipeExampleMapSection | mod/bitcom/bitcom.go:55-59 | the section after the '|' reads the empty map and ends at 43 |
| BitcomScan.PipeExampleMap | mod/bitcom/bitcom.go:34-41 | as written the OP_RETURN at offset 0 is indistinguishable from none and the MAP after the '|' is lost; the intended sentinel reads it |
| OrdLock.ParseWith | mod/ordlock/ordlock.go:26-65 | a listing is reported exactly when the output exists, both contract markers are found in order, the payload between them parses into at least two operations, no non-token entry sits under "bsv21", and the second push reads as an output; the listing then has the empty output's price and payout, one "listing" event naming the outpoint, and the first push becomes the output's owner with the rest of the context unchanged; without a listing the context is left as it was |
| OrdLock.PayloadBetween | mod/ordlock/ordlock.go:29-37 | the payload is exactly what lies between the first occurrence of the prefix and the first occurrence of the suffix |
| OrdLock.PayloadFound | mod/ordlock/ordlock.go:29-37 | a script laid out as lead, prefix, payload, suffix, tail (no earlier marker) yields exactly that payload |
| OrdLock.DataOf | mod/ordlock/ordlock.go:38-41 | the data of each parsed operation, in order |
| OrdLock.ParseOpsPushed | mod/ordlock/ordlock.go:38 | pushes read back one after another up to the end parse into operations carrying exactly those data |
| OrdLock.ListingRecognised | mod/ordlock/ordlock.go:37-54 | a payload made of a key-hash push and a readable payout push is a listing, and the output's owner becomes that key hash |
| OrdLock.SinglePushRejected | mod/ordlock/ordlock.go:38-51 | a payload of a single push yields no listing and leaves the context alone (the source indexes the missing second part and panics) |
| Ord.TagOf | mod/ord/inscription.go:76-98 | OP_1NEGATE..OP_16 select field opcode − 80, a one-byte push selects that byte, an empty push selects field 0, and a longer push is a named field with that name |
| Ord.NamedField | mod/ord/inscription.go:81-97 | a name of at most 64 bytes of NUL-free UTF-8 stores the value under it, any other leaves the fields alone; a MAP section is decoded only from a field named by the MAP prefix, and a decoded map never disappears |
| Ord.Pointer | mod/ord/inscription.go:109-111 | the pointer is the little-endian value of the first eight bytes |
| Ord.NumberedField | mod/ord/inscription.go:100-136 | a numbered field fails exactly for a pointer shorter than eight bytes or a parent of 32 to 35 bytes (both where the source panics); it never touches the map, the named fields, the JSON or the content, only adds events, and fields other than 1, 2, 3, 5, 7 and 9 change nothing |
| Ord.FieldLoop | mod/ord/inscription.go:64-137 | a closed loop ends strictly after its start, within the script, and keeps every event logged before; a map once decoded survives an abort |
| Ord.ParseEnvelope | mod/ord/inscription.go:64-142 | a closed envelope ends right after an OP_ENDIF, within the script, with its field loop closed and no JSON yet; no readable tag and value at the start means nothing is found |
| Ord.ReadEnvelope | mod/ord/inscription.go:64-142 | the labelled loop and the OP_ENDIF check compute `ParseEnvelope` |
| Ord.KindOf | mod/ord/inscription.go:147-179 | a NUL-free UTF-8 content of at most 1024 bytes under a type whose `strings.ToLower` (the primitive `Prims.toLower`) starts "application" or "text" is JSON exactly when it is valid JSON, text exactly when it is not JSON but all ASCII, and anything else is a file |
| Ord.WordBytes | mod/ord/inscription.go:164-166 | only word bytes (`\w`) are kept |
| Ord.Words | mod/ord/inscription.go:164-171 | the split yields no empty word |
| Ord.WordBytesCons | mod/ord/inscription.go:164-166 | the word bytes of a byte followed by more bytes are its own, if it is one, followed by the rest's |
| Ord.ConcatAppend | mod/ord/inscription.go:166 | concatenating two lists of words is concatenating their joins |
| Ord.WordsCover | mod/ord/inscription.go:164-171 | the words of a text joined together are exactly its word bytes: nothing is lost or invented by the split |
| Ord.LowerOfCons | mod/ord/inscription.go:168-169 | the lower-cased words of a list are those of its head and of its tail |
| Ord.DistinctLowerMembers | mod/ord/inscription.go:165-170 | the word set holds exactly the lower-cased words not already seen |
| Ord.DistinctLowerUnique | mod/ord/inscription.go:165-170 | no word is in the word set twice |
| Ord.WordEventsOf | mod/ord/inscription.go:172-176 | one "word" event per word, in order |
| Ord.CollectWords | mod/ord/inscription.go:164-171 | the splitting and collecting loops compute `TextWords`: the distinct lower-cased words |
| Ord.Finish | mod/ord/inscription.go:144-179 | the size is the content length truncated to 32 bits and the hash its SHA-256; JSON is kept exactly for JSON content, without the whitespace around the value, the kind being decided on the Unicode lower-casing of the type; text content is kept as text, and only then are events added, the earlier ones kept first |
| Ord.FinishTrimsJson | mod/ord/inscription.go:153-157 | JSON content with whitespace around its value is stored as the value alone |
| Ord.Classify | mod/ord/inscription.go:144-179 | the hashing and classifying steps compute `Finish` |
| Ord.OwnerAfter | mod/ord/inscription.go:181-191 | a fallback owner is 20 bytes: bytes 3..23 after the envelope when a P2PKH template follows directly, bytes 4..24 when it follows an OP_CODESEPARATOR, and nothing else |
| Ord.WithMap | mod/ord/inscription.go:92-95 | a decoded map is added to the output under "map"; none leaves the output unchanged |
| Ord.Recorded | mod/ord/inscription.go:92-95 | the output keeps its outpoint and script, gains the map entry, and takes the fallback owner only when it had none |
| Ord.ParseInscriptionSpec | mod/ord/inscription.go:57-194 | no inscription leaves the cursor where it was; an inscription moves it just past the OP_ENDIF and has consistent size and hash; only the output being parsed changes, keeping its outpoint, script and an owner it already had |
| Ord.ParseInscription | mod/ord/inscription.go:57-194 | the method computes `ParseInscriptionSpec` |
| Ord.ContentOnly | mod/ord/inscription.go:64-142 | the smallest envelope, OP_0, a push of the content, OP_ENDIF, gives an inscription with only that content and the cursor after the OP_ENDIF |
| Ord.ContentOnlyLoop | mod/ord/inscription.go:100-103 | the tag-0 pair closes the field loop at once with the content set |
| Ord.OwnerFromTemplate | mod/ord/inscription.go:181-191 | a P2PKH template right after the envelope, directly or after an OP_CODESEPARATOR, gives its key hash as the owner |
| Ord.WordEvents | mod/ord/inscription.go:159-176 | on a text inscription the events logged before are kept first, and one "word" event is added for each distinct lower-cased word of the content, none twice |
| Ordinals.AddBitcom | ordinals/ordinals.go:267-284 | no section changes nothing; a signature is appended to the list under "sigma", a MAP section stored under "map", a B file under "b"; outpoint, script and key hash are untouched |
| Ordinals.SigmasAccumulate | ordinals/ordinals.go:272-278 | each signature added keeps every earlier one, in order |
| Ordinals.Store | ordinals/ordinals.go:240-264 | after a closed envelope the inscription is under "insc" and its kind appended under "types"; a JSON inscription for which the BSV-20 decoder returns an object has it under "bsv20", and otherwise "bsv20" is as it was; every other key keeps its value; the key hash changes only when it was present but empty, and then to the owner found after the envelope |
| Ordinals.StoreMap | ordinals/ordinals.go:154-161 | a decoded MAP section is stored under "map"; none leaves the output unchanged |
| Ordinals.LegacyInscription | ordinals/ordinals.go:124-265 | the cursor is left where it was or moved just past an OP_ENDIF; outpoint, script and value are kept; the key hash stays absent when absent, and is untouched on an output that is skipped |
| Ordinals.ParseLegacyInscription | ordinals/ordinals.go:124-265 | the method computes `LegacyInscription`, including the "bsv20" entry `Store` writes |
| Ordinals.LegacyKeepsKeys | ordinals/ordinals.go:124-265 | the older envelope changes no data key other than "map", "insc", "types" and "bsv20" |
| Ordinals.StepAt | ordinals/ordinals.go:96-120 | a step moves the cursor forward, keeps whether the key hash is present, and panics only where the "ord" test reads before the script; OP_RETURN records its own offset when it is the first, then reads a Bitcom section and adds it; an OP_DATA1 push of '|' does the same only once an OP_RETURN was seen, any other OP_DATA1 changes nothing; an OP_DATA3 push of "ord" right after OP_0 OP_IF hands the script to the envelope reader and continues where it stopped, any other OP_DATA3 changes nothing; every other op changes nothing |
| Ordinals.Scan | ordinals/ordinals.go:91-121 | a completed scan keeps the outpoint, whether the key hash is present, and the key hash of a skipped output |
| Ordinals.ScriptSpec | ordinals/ordinals.go:79-122 | a script opening with a P2PKH template gets its key hash and is scanned from offset 25, any other script from offset 0, with no OP_RETURN seen; the outpoint is kept |
| Ordinals.Step | ordinals/ordinals.go:96-120 | the switch body computes `StepAt` |
| Ordinals.ParseScript | ordinals/ordinals.go:79-122 | the scan loop computes `ScriptSpec` |
| Ordinals.ParseAll | ordinals/ordinals.go:70-77 | when no scan panics, outputs before `k` and skipped outputs are unchanged and every other output is its scanned form; a panic means some unskipped output's scan panics |
| Ordinals.ParseAllPanics | ordinals/ordinals.go:70-77 | a panic in any scanned output is a panic of the whole pass |
| Ordinals.ParseInscriptions | ordinals/ordinals.go:70-77 | the loop over the outputs computes `ParseAll` |
| Ordinals.CalculateOrigins | ordinals/ordinals.go:61-68 | every one-satoshi output has its origin loaded from its outpoint and accumulated value; every other output is unchanged |
| Ordinals.IntendedScanTotal | ordinals/ordinals.go:117 | with the "ord" test guarded on the start of the push, the scan never panics |
| Ordinals.OrdAtStartExample | ordinals/ordinals.go:117 | as written, a script opening with the "ord" push reads before the script and panics; as intended it is scanned and left as it is |
| Ordinals.ScanPlainOp | ordinals/ordinals.go:91-97 | an op that is neither OP_RETURN nor a push is stepped over |
| Ordinals.OrdPushDecodes | ordinals/ordinals.go:93 | the push of "ord" reads as one op of three data bytes |
| Ordinals.StepOrdPush | ordinals/ordinals.go:116-119 | an "ord" push after OP_0 OP_IF continues with the output and cursor the envelope reader leaves |
| Ordinals.ScanNext | ordinals/ordinals.go:91-121 | a scan whose step at the cursor goes on is the scan from where that step leaves it |
| Ordinals.LegacyClosed | ordinals/ordinals.go:124-265 | an envelope that closes hands back the cursor where the envelope parser closed it, with the finished inscription under "insc", and does not touch the key hash of a skipped output |
| Ordinals.ScanMarkedOrd | ordinals/ordinals.go:91-121 | OP_0 OP_IF "ord" at offset 25 with an envelope running to the end of the script: the scan ends with the envelope reader's output |
| Ordinals.ScanOrdToEnd | ordinals/ordinals.go:91-121 | the same from the "ord" push on |
| Ordinals.TemplateThenEnvelope | ordinals/ordinals.go:79-122 | a P2PKH template followed by an "ord" envelope that closes at the end of the script: the scan completes with the inscription under "insc" and the template's key hash as owner, under either variant |
| Bsv21Indexer.Amount | mod/bsv21/bsv21.go:69-76 | an absent "amt" counts as 0; a present one must be a decimal that fits 64 bits, and is then its value |
| Bsv21Indexer.Decimals | mod/bsv21/bsv21.go:80-89 | an absent "dec" counts as 0; a present one must be a decimal of at most 8 bits and at most 18, and is then its value |
| Bsv21Indexer.TokenEvents | mod/bsv21/bsv21.go:109-123 | an "id" event naming the token id first, then a "contract" event exactly when the contract is not empty |
| Bsv21Indexer.Decode | mod/bsv21/bsv21.go:60-107 | a token is decoded exactly when the amount reads and either the op is "deploy+mint" with readable decimals or it is "transfer"/"burn" with an "id" that parses as an outpoint; a deploy takes the output's own outpoint as id and is valid, the others are pending with 0 decimals; op, symbol, contract and amount are the JSON's |
| Bsv21Indexer.FromEntry | mod/bsv21/bsv21.go:50-63 | a token comes only from an inscription of type "application/bsv-20" whose content is a JSON object of strings; every such inscription gives exactly that object decoded (a token or none, as `Decode` says); any other type gives none |
| Bsv21Indexer.Parse | mod/bsv21/bsv21.go:42-125 | outside the outputs nothing happens; the context is the one the inscription step leaves; an entry is yielded exactly when the inscription decodes to a token, holding it and its events |
| Bsv21Indexer.TransferRoundTrip | mod/bsv21/bsv21.go:60-101 | a transfer written as JSON decodes back to the same id and amount, pending |
| Bsv21Indexer.TooManyDecimals | mod/bsv21/bsv21.go:84-85 | a deploy with more than 18 decimals is refused |
| Bsv21Indexer.Deposit | mod/bsv21/bsv21.go:131-149 | an input that is not a valid token contributes nothing |
| Bsv21Indexer.DepositAt | mod/bsv21/bsv21.go:138-148 | a valid input of an id adds its amount (wrapping at 2^64) to that id's balance and is remembered last among its inputs; no other id changes |
| Bsv21Indexer.CollectFunding | mod/bsv21/bsv21.go:128-149 | an id has a balance and an input list exactly when some valid input carries it; the list is those inputs in order and the balance the wrapped sum of their amounts |
| Bsv21Indexer.Debit | mod/bsv21/bsv21.go:190 | as written a checked output takes its satoshis off the running balance; as intended, its token amount |
| Bsv21Indexer.CheckOne | mod/bsv21/bsv21.go:153-191 | reasons only grow, an unchecked output changes nothing, and a checked one can only add its own id's reason |
| Bsv21Indexer.CheckOneAt | mod/bsv21/bsv21.go:162-190 | a checked output of an id gets the reason "insufficient-inputs" exactly when the id has no balance or a balance below its amount, and its debit is taken off (wrapping); other ids are untouched |
| Bsv21Indexer.HasCheckedAt | mod/bsv21/bsv21.go:163 | any checked output of an id is witnessed by `HasChecked` |
| Bsv21Indexer.NothingClaimed | mod/bsv21/bsv21.go:190 | with no checked output of an id, nothing of it is claimed |
| Bsv21Indexer.CheckConserves | mod/bsv21/bsv21.go:153-191 | with the intended debit, an id is refused exactly when it has checked outputs and no balance or a claimed total above the balance; otherwise what is left is the balance minus the total claimed |
| Bsv21Indexer.ReasonsChecked | mod/bsv21/bsv21.go:165-167 | only an id with a checked output can be refused |
| Bsv21Indexer.OutpointsOf | mod/bsv21/bsv21.go:172-173 | the outpoints of the inputs, in order |
| Bsv21Indexer.Enrich | mod/bsv21/bsv21.go:169-185 | an unchecked output is unchanged, and no output changes its outpoint, value, script, owner, spend or block |
| Bsv21Indexer.EnrichAt | mod/bsv21/bsv21.go:169-185 | a checked output gains the outpoints of every input of its id as dependencies and takes symbol, icon and contract from the last of them, its id and events unchanged |
| Bsv21Indexer.Settle | mod/bsv21/bsv21.go:193-219 | an unchecked output is unchanged, and no output changes its outpoint, value, script, owner, spend or block |
| Bsv21Indexer.SettleAt | mod/bsv21/bsv21.go:195-217 | a refused id's output becomes invalid with reason "insufficient-inputs" and a "reason" event; any other becomes valid with its id and contract events; dependencies unchanged |
| Bsv21Indexer.SettleAll | mod/bsv21/bsv21.go:193-219 | every output is settled in place and unchecked ones are unchanged |
| Bsv21Indexer.Settlement | mod/bsv21/bsv21.go:127-220 | the pass panics exactly when a spent output holds a non-token under "bsv21"; otherwise only the outputs change, unchecked ones not at all |
| Bsv21Indexer.DepositStep | mod/bsv21/bsv21.go:132-148 | the first loop's body computes `Deposit` |
| Bsv21Indexer.GatherInputs | mod/bsv21/bsv21.go:128-149 | the first loop computes `Collect` and panics exactly when `Panics` says |
| Bsv21Indexer.CheckStep | mod/bsv21/bsv21.go:162-190 | the second loop's balance and reason updates compute `CheckOne` |
| Bsv21Indexer.CheckOutputs | mod/bsv21/bsv21.go:151-191 | the second loop computes the ledger `Check` and every output enriched |
| Bsv21Indexer.SettleOutputs | mod/bsv21/bsv21.go:193-219 | the third loop settles every output |
| Bsv21Indexer.Save | mod/bsv21/bsv21.go:127-220 | the three loops compute `Settlement` |
| Bsv21Indexer.Fate | mod/bsv21/bsv21.go:127-220 | a checked output ends with every funding input as a dependency, its earlier events kept, invalid with a reason event exactly when its id was refused and valid with its id events otherwise, keeping id, amount and op and inheriting symbol, icon and contract |
| Bsv21Indexer.SharedFate | mod/bsv21/bsv21.go:193-217 | all checked outputs of one id end with the same status |
| Bsv21Indexer.Conservation | mod/bsv21/bsv21.go:153-191 | with the intended debit, a checked output ends valid exactly when its id is funded and the amounts claimed do not exceed the funds |
| Bsv21Indexer.SingleFunding | mod/bsv21/bsv21.go:131-149 | one valid input of 1000 tokens funds its id with 1000 |
| Bsv21Indexer.TwoTransfers | mod/bsv21/bsv21.go:153-191 | two one-satoshi transfers of 400 and 700 tokens claim 1100 |
| Bsv21Indexer.OverspendAccepted | mod/bsv21/bsv21.go:165-190 | as written, 1100 tokens claimed against 1000 funded are accepted because only a satoshi per output is debited |
| Bsv21Indexer.OverspendRefused | mod/bsv21/bsv21.go:165-190 | with the intended debit, the same transaction is refused |
| OriginIndexer.InAccNext | mod/origin/origin.go:39 | an input's `InAcc` is the one before it plus that input's satoshis, wrapping at 2^64 |
| OriginIndexer.Predecessor | mod/origin/origin.go:38-84 | the scan stops at an input that is a one-satoshi input at the output's `OutAcc`; everything it passed neither matched nor lay beyond; when it finds none, every matching input lies past an input whose `InAcc` already exceeds the target |
| OriginIndexer.FindPredecessor | mod/origin/origin.go:38-84 | the loop with its early break computes `Predecessor` |
| OriginIndexer.InAccGrows | mod/origin/origin.go:81-82 | without wrap-around the inputs' `InAcc` never decreases |
| OriginIndexer.SumPrefix | mod/origin/origin.go:81-82 | a prefix of the inputs carries no more satoshis than all of them |
| OriginIndexer.StopLosesNothing | mod/origin/origin.go:81-82 | without wrap-around the early break finds the same input as a full scan for the first match |
| OriginIndexer.NoLaterMatch | mod/origin/origin.go:81-82 | once an input's `InAcc` exceeds the target no later input matches |
| OriginIndexer.FromCache | mod/origin/origin.go:58-69 | a cached origin reads back with its nonce (0 when absent) and its map; its outpoint is kept exactly when it parses, and then is the parsed value |
| OriginIndexer.TxidsOf | mod/origin/origin.go:52-54 | the txids of the given inputs, in order |
| OriginIndexer.Advance | mod/origin/origin.go:71-78 | an inherited origin panics exactly when it has no map and the output carries MAP keys; otherwise its nonce grows by one as a `uint32`, outpoint and dependencies are kept, and the output's keys overwrite the inherited ones |
| OriginIndexer.CalcOrigin | mod/origin/origin.go:33-95 | past the depth limit there is no origin; an output with no predecessor is its own origin with nonce 0 and its own MAP data; one whose predecessor carries a cached origin inherits it one hop further, saving nothing |
| OriginIndexer.Recomputed | mod/origin/origin.go:41-57 | without a cache, a predecessor whose transaction cannot be loaded panics, one whose own resolution finds no origin gives none, and otherwise the predecessor's origin, with the earlier inputs' txids added as dependencies, is saved on the spend and advanced one hop |
| OriginIndexer.Parse | mod/origin/origin.go:24-31 | only a one-satoshi output has an origin, and it is the one resolved from depth 0 |
| OriginIndexer.MergeMap | mod/origin/origin.go:74-76 | the loop copying MAP keys gives the inherited map overwritten by the output's |
| OriginIndexer.AdvanceOrigin | mod/origin/origin.go:71-78 | the imperative advance computes `Advance` |
| OriginIndexer.AddDependencies | mod/origin/origin.go:52-54 | the loop adds the earlier inputs' txids as dependencies, in order |
| OriginIndexer.Resolve | mod/origin/origin.go:33-95 | the recursive imperative resolution computes `CalcOrigin` |
| OriginIndexer.Walk | mod/origin/origin.go:33-95 | the walk back to the first output of a chain never runs past the depth limit |
| OriginIndexer.Determinism | mod/origin/origin.go:33-95 | when every cache on the chain holds what resolution would compute, the resolved origin is the chain's first output and its nonce the number of hops |
| OriginIndexer.CachedHop | mod/origin/origin.go:58-78 | the same holds for one hop through a sound cache |
| OriginIndexer.UncachedHop | mod/origin/origin.go:41-78 | the same holds for one hop that recomputes the predecessor's origin |
| OriginIndexer.NoCachesSound | mod/origin/origin.go:41-57 | a chain with no cached origins trivially has sound caches |
| OriginIndexer.UncachedChain | mod/origin/origin.go:33-95 | on a chain without caches, the origin is the first output and the nonce the number of hops |
| TxoStore.FindHash | txostore/store.go:32-34 | the index of the first level-0 element with the given hash, or none exactly when no element has it |
| TxoStore.BlockOf | txostore/store.go:26-38 | without a proof the height is the clock truncated to 32 bits at index 0; with one the height is the proof's and the index the offset of the first level-0 element whose hash is the reversed txid, 0 when there is none; an empty path panics |
| TxoStore.SpendOf | txostore/store.go:60-83 | a stored record of the spent outpoint is reused, otherwise a stub is built from the spent output's satoshis and script, and panics when the output index is past the spent transaction's outputs; either way it is marked spent by this input at this block |
| TxoStore.SpendsUpTo | txostore/store.go:60-83 | the spends are exactly the per-input spends in order, and there are none exactly when one of them panics |
| TxoStore.Spends | txostore/store.go:59-84 | a coinbase has no spends; any other transaction has one per input |
| TxoStore.LibPKHashFromScript | lib/pkhash.go:39-57 | the lib owner derivation finds nothing on a script shorter than 25 bytes and errors exactly when its first 25 bytes do not parse |
| TxoStore.Owner | txostore/store.go:104-107 | an output without an owner keeps none; as intended the owner is re-derived from the script and never panics, and a script without a P2PKH hash keeps the stored owner |
| TxoStore.OutputTxo | txostore/store.go:86-109 | a new outpoint gets a fresh record of its satoshis and script; a stored one keeps outpoint, satoshis, script, spend and data, and gains no owner; either way it is stamped with the block |
| TxoStore.AnalyzeOne | txostore/store.go:110-115 | an analyzer that yields nothing leaves its context; one that yields data stores it under its tag on the current output; as intended that panics only when the output is missing, as written also when the output's data map is still empty |
| TxoStore.InputOutpoints | txostore/store.go:61-64 | the outpoints the inputs spend, in order |
| TxoStore.IngestSpec | txostore/store.go:124-128 | when the parse does not complete the store is as the parse left it |
| TxoStore.WriteSpends | txostore/store.go:130-136 | the batch writes a "spend" field for exactly the outpoints of the spends, keeping every existing one |
| TxoStore.Members | txostore/store.go:150-158 | an output's "events" members are exactly "tag:id:value:txid:vout" for each event of each of its data entries |
| TxoStore.ScoreOf | txostore/store.go:139-145 | a spent output is ranked spent at its spend's height; an unspent one, as intended, unspent at its own height, and as written it panics |
| TxoStore.WriteTxosScored | txostore/store.go:138-164 | writing the outputs from `vout` is writing that output's members and record, then the rest |
| TxoStore.OutputCalls | txostore/store.go:110-115 | each output calls every analyzer's parse in registration order |
| TxoStore.SaveCalls | txostore/store.go:117-119 | every analyzer's save is called in registration order |
| TxoStore.AnalyzeCalls | txostore/store.go:110-115 | the analyzer loop of one output makes its parse calls in order and never fails |
| TxoStore.OutputStepCalls | txostore/store.go:86-115 | one output's step makes exactly its parse calls and never fails |
| TxoStore.OutputsCalls | txostore/store.go:86-116 | the output loop makes every output's parse calls in output order and never fails |
| TxoStore.SaveAllCalls | txostore/store.go:117-119 | the save loop calls every save in order and never fails |
| TxoStore.AssembleCalls | txostore/store.go:59-121 | once the spent transactions are known, a completed parse made all parse calls, output by output, then all save calls, and the assembly never fails |
| TxoStore.CallOrder | txostore/store.go:22-122 | a completed `Parse` called every analyzer's parse on every output in order, then every save |
| TxoStore.SourcesUnattached | txostore/store.go:48-57 | with no attached inputs the inputs pass writes nothing, fails exactly when a spent transaction cannot be loaded and otherwise yields one per input |
| TxoStore.ParseUnattached | txostore/store.go:22-122 | with no attached inputs `Parse` writes nothing and fails exactly when a spent transaction cannot be loaded |
| TxoStore.WriteSpendsAt | txostore/store.go:130-136 | every spend's outpoint gets its spend record and every other outpoint keeps its own |
| TxoStore.WriteTxosStep | txostore/store.go:138-164 | as intended, writing the outputs is one output's writes followed by the rest |
| TxoStore.WriteTxosRecords | txostore/store.go:159-163 | as intended the output writes never fail, store every output's record, leave the spends alone and keep every other record |
| TxoStore.WriteTxosEvents | txostore/store.go:147-158 | as intended the output writes keep earlier members and add every event member of every output, each scored by its own output |
| TxoStore.IngestWrites | txostore/store.go:129-168 | as intended the batch always commits, giving every spent outpoint its spend record, every output its record and every event its member |
| TxoStore.UnspentBatchPanics | txostore/store.go:143-145 | as written a batch holding an unspent output panics |
| TxoStore.OwnerRederivePanics | txostore/store.go:104-106 | as written re-deriving the owner of a P2PKH output panics |
| TxoStore.OwnerRederived | txostore/store.go:104-106 | as intended a P2PKH output's owner is its script's 20-byte hash |
| TxoStore.FreshPrefix | txostore/store.go:22-58 | a fresh coinbase-free transaction with no inputs gets the clock's block and no spends, and writes nothing |
| TxoStore.FreshOutput | txostore/store.go:86-116 | its one output becomes a fresh record and the pass goes straight to the analyzers |
| TxoStore.FreshOutputPanics | txostore/store.go:113 | as written an analyzer yielding data for a fresh output panics on its nil data map |
| TxoStore.FreshOutputTagged | txostore/store.go:110-115 | as intended the fresh output carries the analyzer's entry under its tag |
| TxoStore.UnspentIngestPanics | txostore/store.go:143-145 | as written ingesting a transaction with an unspent output panics and writes nothing |
| TxoStore.UnspentIngestWrites | txostore/store.go:124-170 | as intended the same ingest completes and stores the output's record |
| TxoStore.Store.LoadSources | txostore/store.go:48-57 | the imperative inputs pass computes `Sources` and its writes |
| TxoStore.Store.CollectSpends | txostore/store.go:59-84 | the imperative spends loop computes `Spends` |
| TxoStore.Store.BuildTxo | txostore/store.go:86-109 | the imperative record lookup computes `OutputTxo` |
| TxoStore.Store.RunOutputs | txostore/store.go:86-116 | the imperative output loop computes `Outputs` |
| TxoStore.Store.Parse | txostore/store.go:22-122 | the imperative `Parse` computes `ParseSpec` and its writes |
| TxoStore.Store.WriteBatch | txostore/store.go:129-168 | the pipeline commits exactly when `Commit` succeeds and then leaves the store as `Commit` says; otherwise the store is unchanged |
| TxoStore.Store.Ingest | txostore/store.go:124-170 | the imperative `Ingest` computes `IngestSpec` and its writes |
| TxoStoreOld.StubSpend | txo-store/store.go:55-71 | a spend panics exactly when the output index is past the spent transaction's outputs; it fails exactly when, as written, no document sits at the key looked up; a stored document overrides the stub, and otherwise the stub holds the spent output's satoshis and script; either way it is marked spent by this input at this block |
| TxoStoreOld.OwnerOf | txo-store/store.go:88-90 | an output without an owner keeps none; as intended re-derivation never panics; as written it panics exactly when the lib derivation does |
| TxoStoreOld.OutputRecord | txo-store/store.go:75-92 | a missing document gives a fresh record of the output's satoshis and script; a stored one keeps outpoint, satoshis, script, spend and data and gains no owner; either way it is stamped with the block |
| TxoStoreOld.IngestJson | txo-store/store.go:107-111 | when the parse does not complete the documents are as the parse left them |
| TxoStoreOld.EntryMembers | txo-store/store.go:128-137 | one entry's members are "tag:id:value:txid:vout" for each of its events, in order |
| TxoStoreOld.PendingMembers | txo-store/store.go:125-138 | the member loop over the registered analyzers dereferences a missing entry, as written, exactly when some analyzer has none on the output; every member it writes comes from an entry's event, and without the panic every such event's member is written |
| TxoStoreOld.AddAll | txo-store/store.go:130-133 | adding members at one score keeps every other member and gives each added one that score |
| TxoStoreOld.OutputWrites | txo-store/store.go:114-138 | a refused record write fails and writes nothing; otherwise the record is written under its "txo:" key, and the output completes exactly when its score exists, no entry is missing and any members are accepted, the members then added at its score |
| TxoStoreOld.MemberWritesOf | txo-store/store.go:125-138 | the member writes fail when the events write is refused, panic after writing when an entry is missing, and otherwise complete |
| TxoStoreOld.AddAllConcat | txo-store/store.go:125-138 | adding two lists of members one after the other is adding their concatenation |
| TxoStoreOld.IdKeyInjective | lib/txo.go:20-22 | distinct outpoints have distinct record keys |
| TxoStoreOld.ReadNeverWritten | txo-store/store.go:61-115 | the key `Parse` reads is never a key `Ingest` writes |
| TxoStoreOld.SpendLookupFails | txo-store/store.go:61-65 | as written, once every document was written by `Ingest`, resolving any spend fails |
| TxoStoreOld.SpendLookupFinds | txo-store/store.go:61-71 | as intended, a stored record is found and marked spent by this input |
| TxoStoreOld.RecordWritesKeepKeys | txo-store/store.go:114-117 | the output writes only ever write "txo:" keys |
| TxoStoreOld.StatusOnly | txo-store/store.go:114-138 | whether an output's writes complete does not depend on the documents |
| TxoStoreOld.WritesContinue | txo-store/store.go:114-139 | after a completed output the loop goes on with the next one |
| TxoStoreOld.WritesStop | txo-store/store.go:114-139 | an output that does not complete ends the loop with its outcome |
| TxoStoreOld.IntendedStep | txo-store/store.go:114-138 | as intended, with no refused write, every output completes |
| TxoStoreOld.StopsAt | txo-store/store.go:114-139 | when the first output that does not complete is the j-th, the loop ends with its outcome, every earlier record written and every key not among those outputs left as it was |
| TxoStoreOld.IntendedRecords | txo-store/store.go:114-117 | as intended, with no refused write, the loop completes, every output's record is written and every other document kept |
| TxoStoreOld.IntendedEvents | txo-store/store.go:125-138 | as intended, with no refused write, earlier members are kept and every event of every registered entry of every output gets its member |
| TxoStoreOld.UnspentRecordedThenPanics | txo-store/store.go:115-123 | as written an unspent output's record is written and then its score panics |
| TxoStoreOld.MissingEntryPanics | txo-store/store.go:125-128 | as written a spent output lacking some registered analyzer's entry panics |
| TxoStoreOld.MissingEntrySkipped | txo-store/store.go:125-138 | as intended, with no refused write, the output completes and every event of its entries gets its member |
| TxoStoreOld.OnlyOutputRecords | txo-store/store.go:114-117 | the loop keeps every document, and any document it changes is an output's record holding that output |
| TxoStoreOld.SpendsStep | txo-store/store.go:47-72 | an input whose transaction is known and whose spend resolves appends that spend and goes on |
| TxoStoreOld.SpendsNotDone | txo-store/store.go:47-72 | an input whose transaction or spend cannot be resolved ends the inputs pass without a result |
| TxoStoreOld.SpendsFetchStop | txo-store/store.go:48-54 | a failed fetch or nested ingest ends the pass with its outcome and writes |
| TxoStoreOld.SpendsStubStop | txo-store/store.go:55-65 | a spend that does not resolve ends the pass with its outcome |
| TxoStoreOld.SpentExtend | txo-store/store.go:66-71 | appending a spend marked by its input keeps every spend marked by its own input |
| TxoStoreOld.InputsPass | txo-store/store.go:46-73 | a completed inputs pass yields one spend per input, each marked spent by its own input |
| TxoStoreOld.InputsPassStep | txo-store/store.go:47-72 | the same holds from an input whose spend resolves |
| TxoStoreOld.MissingFrom | txo-store/store.go:61 | some input from `vin` lacks a document exactly when this one or a later one does |
| TxoStoreOld.SpendsLoadable | txo-store/store.go:46-73 | when every spent transaction loads and every index is in range, the inputs pass writes nothing, never panics and fails exactly when, as written, some spent outpoint has no document |
| TxoStoreOld.SpendsLoadableStep | txo-store/store.go:47-72 | the same holds from an input whose spend resolves |
| TxoStoreOld.FetchedLoaded | txo-store/store.go:48-51 | an unattached input's transaction is the one loaded, with no writes |
| TxoStoreOld.ParseLoadable | txo-store/store.go:20-105 | when every spent transaction loads, `Parse` writes nothing and fails exactly when, as written, some spent outpoint has no document |
| TxoStoreOld.MissingSpendFails | txo-store/store.go:61-65 | as written a spent outpoint without a document fails to decode |
| TxoStoreOld.MissingSpendStubbed | txo-store/store.go:55-71 | as intended a spent outpoint without a record gives the stub, marked spent by this input |
| TxoStoreOld.OutputPassCalls | txo-store/store.go:75-98 | one output's step makes exactly its parse calls and never fails |
| TxoStoreOld.OutputsStep | txo-store/store.go:75-99 | after a completed output the output loop goes on with the next one |
| TxoStoreOld.OutputsStop | txo-store/store.go:75-99 | an output that does not complete ends the output loop with its outcome |
| TxoStoreOld.OutputsFromCalls | txo-store/store.go:75-99 | the output loop makes every output's parse calls in output order and never fails |
| TxoStoreOld.FinishCalls | txo-store/store.go:75-104 | once the spends are known, a completed parse made all parse calls, output by output, then all save calls |
| TxoStoreOld.CallOrder | txo-store/store.go:20-105 | a completed `Parse` called every analyzer's parse on every output in order, then every save |
| TxoStoreOld.OwnerPanics | txo-store/store.go:88-90 | as written re-deriving the owner of a P2PKH output panics |
| TxoStoreOld.OwnerDerived | txo-store/store.go:88-90 | as intended a P2PKH output's owner is its script's 20-byte hash |
| TxoStoreOld.JsonStore.ResolveInputs | txo-store/store.go:46-73 | the imperative inputs pass computes `SpendsFrom` and its writes |
| TxoStoreOld.JsonStore.FetchSource | txo-store/store.go:48-54 | the imperative fetch computes `Fetched` and its writes |
| TxoStoreOld.JsonStore.MarkSpend | txo-store/store.go:55-71 | the imperative spend lookup computes `StubSpend` |
| TxoStoreOld.JsonStore.BuildRecord | txo-store/store.go:75-92 | the imperative record lookup computes `OutputRecord` |
| TxoStoreOld.JsonStore.RunOutputs | txo-store/store.go:75-99 | the imperative output loop computes `OutputsFrom` |
| TxoStoreOld.JsonStore.Parse | txo-store/store.go:20-105 | the imperative `Parse` computes `ParseJson` and its writes |
| TxoStoreOld.JsonStore.WriteOutput | txo-store/store.go:114-138 | the imperative per-output writes compute `OutputWrites` |
| TxoStoreOld.JsonStore.WriteMembers | txo-store/store.go:125-138 | the member loop leaves the documents alone and computes `MemberWrites` |
| TxoStoreOld.JsonStore.WriteEntry | txo-store/store.go:128-137 | one entry's members are accepted exactly when there are none or the events write is not refused, and are then added at the score; otherwise nothing changes |
| TxoStoreOld.JsonStore.WriteRecords | txo-store/store.go:114-139 | the imperative output loop computes `RecordWrites` |
| TxoStoreOld.JsonStore.Ingest | txo-store/store.go:107-141 | the imperative `Ingest` computes `IngestJson` and its writes |

## Left out

- Redis, the remote transaction fetch and the wall clock are parameters.
  - The stores' contents are maps in the classes `TxoStore.Store` and `TxoStoreOld.JsonStore`.
  - The fetch is `Env.loadTx`; in the origin resolver it is `OriginIndexer.Loader`.
  - The clock is `Env.now`, read once per top-level call and shared by nested ingests.
- Connection and protocol errors are not modelled:
  - redis read errors, and protobuf or JSON decoding errors of stored records, in both stores;
  - the shape of a RedisJSON `JSON.GET key $` reply in txo-store/store.go:61 and 80: it is a JSON array holding the document, which `json.Unmarshal` into one `lib.Txo` would refuse. The model reads the reply as the document itself. This also qualifies the intended readings `TxoStoreOld.SpendLookupFinds` and `TxoStoreOld.OutputRecord`, which are not executed;
  - the per-write errors of `txo-store/store.go`, which are modelled by a predicate `refuse` naming the keys whose writes fail.
- Floating-point scores of the "events" set (txostore/store.go:139-145 and txo-store/store.go:118-124) become `Score(spent, height)`. This keeps the order they encode and drops the arithmetic.
- The ordlock price-per-satoshi computation (floating point) is not modelled.
- Foreign code is abstracted as the fields of `Prims.Prims`, and nothing is assumed about what they compute. This covers SHA-256, UTF-8 validity, JSON and CBOR decoding, signed-message verification, transaction-output decoding, base58 addresses and the Unicode lower-casing of media types. Words split from text are lower-cased by `Base.ToLower` on ASCII letters, which agrees with `strings.ToLower` because `\w` words are ASCII. One effect of `json.Unmarshal` is modelled rather than left to a primitive: a `json.RawMessage` keeps the value's bytes without the whitespace around them (`Base.TrimJsonSpace`).
- The msgpack `MarshalData`/`UnmarshalData` of BSV-21 records are not modelled.
- The go-sdk `ParseOps` is modelled as repeated `Parser.Decode` until the end of the script, failing on the first failed read.
- Go map iteration order is not modelled where the source depends on it:
  - the BSV-21 settling pass visits outputs in output order;
  - SIGMA address events are in first-signer order;
  - inscription words, which Go collects in a `map[string]struct{}` and ranges over (mod/ord/inscription.go:173-175, ordinals/ordinals.go:233-235), are in order of first occurrence (`Ord.DistinctLower`); as a set they are exactly the distinct lower-cased words;
  - `Txo.IndexData` is proved for every visiting order.
- Values, not pointers, are modelled: outputs, entries and contexts are copied, so aliasing through shared `*Txo` pointers is not modelled. The one place where it shows is modelled explicitly: an analyzer's write to the output it inspects is carried in `ParseResult.ctx`.
- Panics inside a decoder give "no result" rather than aborting the process. These are:
  - a pointer field shorter than 8 bytes in an inscription;
  - a SIGMA input index out of range, or a '|' at the first byte;
  - an OrdLock payload of a single push, or a suffix before the prefix's end;
  - a binary outpoint with fewer than 4 vout bytes, which gives `ShortPointer`; as an inscription's parent field (mod/ord/inscription.go:113, ordinals/ordinals.go:177) it gives no inscription (`Ord.NumberedField`);
  - the `data.Item.(*bsv21.Bsv21)` assertion of mod/ordlock/ordlock.go:48 on a "bsv21" entry holding something else (`OrdLock.BadTokenEntry`), which gives no listing;
  - the `i.Item.(*ord.Inscription)` assertion of mod/bsv21/bsv21.go:53 on an "insc" entry holding something else, which gives no token (`Bsv21Indexer.FromEntry`);
  - `Txos[vout]` or `Outputs[vout]` out of range in an analyzer's `Parse`, which gives no entry (each `Parse` tests `vout < |ctx.txos|`).

  Panics in the stores, the BSV-21 settlement, the origin resolver and the legacy scanner are modelled as outcomes (`Panic`, `Crashed`, `Panicked`).
- After a panic in a store, the writes made before it are kept. Nothing models recovery.
- A nil Go map and an empty one are not distinguished, except for an output's data map. That map is taken to be nil exactly when it is empty, and the source's tag write then panics. Each store reaches this in its own way:
  - txostore/store.go: a fresh output has no map, and a stored protobuf record whose map was empty reads back as nil, since protobuf does not tell the two apart;
  - txo-store/store.go: JSON decodes an empty map `{}` as an empty map and `null` as nil, but the store never writes `{}`: no line of it creates a data map, so a record it writes carries `null` (the tag write into that nil map panics before anything else could be stored), and an empty map read back is again one that was never filled.
- `Inscription.Parse` in mod/ord/inscription.go:37-55 does not compile as shown and always yields nothing; only `ParseInscription` is modelled.
- Code that does not compile as shown is modelled by its evident intent:
  - the `script` parameter that shadows its package in mod/bitcom/map.go;
  - `txo.Events` and `e.Id` in txostore/store.go, modelled by an entry's events and their label;
  - `OutAcc`, used by mod/origin/origin.go but declared on no type; `InAcc` is declared on `lib.Spend` (lib/txo.go:6), but only commented-out code assigns it (lib/txn.go:74), so the model gives both the values that code evidently meant;
  - the lib-package `ParseBitcom` called from ordinals/ordinals.go, given there as a parameter `BitcomParser`. The model takes it never to move the cursor back (`Ordinals.Forward`); the present `ParseBitcom` of mod/bitcom/bitcom.go meets this, since its `*idx--` only steps back into the op it has just read;
  - `ParseBsv20Inscription` called from ordinals/ordinals.go:217, whose code is not part of this model, given as a parameter `Bsv20Parser`. It is taken to read its arguments only, and its object is stored as an untyped `Records.Item`;
  - `md.Data` in mod/ord/inscription.go:123-125, a field the map type `bitcom.Map` does not have; the CBOR metadata is modelled as decoding into that map (`Prims.cborValid`);
  - `ins.LogEvent` in mod/ord/inscription.go:107, 119 and 174, a method the inscription type does not have, modelled as appending to the inscription's events;
  - the `.(map[string]interface{})` assertion on a `lib.IndexData` value in mod/origin/origin.go:41, modelled as reading a cached origin entry (`OriginCacheItem`);
  - `mp.Data` in mod/origin/origin.go:73-74, modelled as the decoded MAP of the output;
  - the mix of `types.Block`/`types.IndexContext` with `lib.Txo`/`lib.Block`/`lib.Indexer` in txo-store/store.go:20-96, modelled as one set of record types;
  - the field `Item` of an entry, read and written in mod/bsv21/bsv21.go:53, 110, 136, 159 and 197 and in mod/ordlock/ordlock.go:48 and 62, where `types.IndexData` declares `Obj`; modelled as `Records.IndexData.item`;
  - `[]*types.Event{{…}}` literals and appends (mod/bsv21/bsv21.go:111-123 and 201-214, mod/ordlock/ordlock.go:56-60) stored in an `Events []*EventLog` field; modelled as `Records.EventLog(name, value)`.
- Neither store sets `IndexContext.Tx`, yet three analyzers read it: `Bitcom.Parse` takes the script of output `vout` from it (mod/bitcom/bitcom.go:23), OrdLock does the same (mod/ordlock/ordlock.go:28), and SIGMA reads the spent outpoints of its inputs (mod/bitcom/sigma.go:79-80). As written each would dereference a nil transaction. The model gives them the transaction being ingested, as the field evidently means: `BitcomScan.Parse` and `OrdLock.Parse` read `ctx.txos[vout].script`, and SIGMA reads `ctx.inputs`, the spent outpoints in input order (`TxoStore.InputOutpoints`, placed in the context by both stores). The legacy scanner reads `txo.Tx` of a `lib.Txo` instead (ordinals/ordinals.go:81, 102 and 110); the model reads that output's own `script`.
- `InAcc` and `OutAcc` are the running 64-bit sums of the earlier inputs' and outputs' satoshis. That is what the commented-out code of lib/txn.go computes; that file is not otherwise part of this model.
- A nil `*Origin` returned through the `lib.IndexData` interface is non-nil in Go. The model treats it as no origin.
- BitcomB.Parse: mod/bitcom/b.go:21-22 returns `bitcom.B` for every Bitcom record, so a record without a B file yields a non-nil `lib.IndexData` holding a nil `*BFile`, which the stores' `data != nil` test writes under "b". The model yields no entry then, as for a nil `*Origin`.
- The in-memory `spend.AddData("origin", …)` of a recomputed origin is not modelled. Only the saved cache is: the cache test reads a different type, so it is never read back.
- The `ZRem` of `txo.Events` in txostore/store.go:147-149 is not modelled. The core never sets that field.
- `lib/pkhash.go`'s `NewPKHashFromScript` is modelled only as the stores call it (`TxoStore.LibPKHashFromScript`). `lib.Outpoint.String` is modelled by `Outpoints.ToString`; lib/outpoint.go is not part of this model.
- Network listeners, the HTTP server, the worker commands and SQL code are outside the core and are not modelled.
- BitcomB.ParseBSpec: its own contract states only that the cursor never moves back. What it reads is stated by `BitcomB.RoundTrip`, `BitcomB.FourPushes` and `BitcomB.ShortSection`.
- BitcomMap.ParseMAPSpec: its own contract states only that the cursor never moves back. What it reads is stated by the `BitcomMap.Collect…` lemmas, `BitcomMap.SetCommandRequired` and `BitcomMap.EmptySection`.
- BitcomSigma.ParseSigmaSpec: its own contract states only that the cursor never moves back. What it reads is stated by `BitcomSigma.RoundTrip`.
- BitcomSection.Pushes: its own contract states only a bound and the cursor's direction. What it reads is stated by `BitcomSection.PushesRoundTrip` and `BitcomSection.PushesStopAtEnd`.
- OriginIndexer.Walk: its own contract states only the depth bound. `OriginIndexer.Determinism` relates it to the resolver.

## Findings

| source | as written | input that shows it | evidently intended | confidence | as-written member | corrected member |
|---|---|---|---|---|---|---|
| mod/bitcom/bitcom.go:60-63 | the B branch assigns only when a B file is already set | OP_RETURN, the B prefix push, a one-byte content push "A" | assign when no B file is set yet | not executed | BitcomScan.BGuardExample | BitcomScan.BSectionRead |
| mod/bitcom/bitcom.go:33-41 | the first OP_RETURN's offset doubles as "none seen" (0) | OP_RETURN at offset 0, OP_1, then a pipe push and a MAP "SET" section | a pipe push after any OP_RETURN starts a section | not executed | BitcomScan.PipeExampleMap | BitcomScan.PipeAfterOpReturn |
| ordinals/ordinals.go:117 | the guard tests the cursor after the push (`i > 2`) before reading the two bytes before the push | a script opening with the push "ord" | read the two bytes only when the push starts at offset 2 or later | not executed | Ordinals.OrdAtStartExample | Ordinals.IntendedScanTotal |
| mod/bsv21/bsv21.go:190 | a checked output debits its satoshis from the token balance | one valid input of 1000 tokens; two 1-satoshi transfers of 400 and 700 | debit the output's token amount | not executed | Bsv21Indexer.OverspendAccepted | Bsv21Indexer.Conservation |
| txostore/store.go:110-115 | an analyzer's data is written into the data map of a freshly created output, which is nil | a fresh transaction with one output and an analyzer that yields an entry | create the map before writing | not executed | TxoStore.FreshOutputPanics | TxoStore.FreshOutputTagged |
| txostore/store.go:104-106 | the owner is re-derived with the lib decoder, which reads operation 23 of a five-operation template | a stored output with an owner and a P2PKH script | re-derive with the P2PKH decoder of the types package | not executed | TxoStore.OwnerRederivePanics | TxoStore.OwnerRederived |
| txostore/store.go:139-145 | an unspent output's score reads the height of its nil spend | a fresh transaction with one unspent output | rank an unspent output by its own block height | not executed | TxoStore.UnspentIngestPanics | TxoStore.UnspentIngestWrites |
| txo-store/store.go:88-90 | the owner is re-derived with the lib decoder, which reads operation 23 of a five-operation template | a stored output with an owner and a P2PKH script | re-derive with the P2PKH decoder of the types package | not executed | TxoStoreOld.OwnerPanics | TxoStoreOld.OwnerDerived |
| txo-store/store.go:118-124 | an unspent output's score reads the height of its nil spend, after its record is written | an unspent output with its record write accepted | rank an unspent output by its own block height | not executed | TxoStoreOld.UnspentRecordedThenPanics | TxoStoreOld.IntendedStep |
| txo-store/store.go:61-115 | records are read under the bare outpoint string but written under "txo:" and the outpoint string | any spend of an output that `Ingest` stored | read under the key `Txo.ID` writes | not executed | TxoStoreOld.SpendLookupFails | TxoStoreOld.SpendLookupFinds |
| txo-store/store.go:61-65 | a missing spend record is still decoded, from an empty document | an input whose spent output has no stored document | keep the stub built from the spent output | not executed | TxoStoreOld.MissingSpendFails | TxoStoreOld.MissingSpendStubbed |
| txo-store/store.go:125-128 | the events of every registered analyzer are read, including those with no entry on the output | a spent output lacking one registered analyzer's entry | skip analyzers with no entry | not executed | TxoStoreOld.MissingEntryPanics | TxoStoreOld.MissingEntrySkipped |
