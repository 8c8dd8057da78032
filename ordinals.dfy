/** The older ordinals indexer (ordinals/ordinals.go): each output's script is scanned
    once for Bitcom sections after OP_RETURN or '|' and for "ord" envelopes, whose
    results are stored in the output's untyped data map; one-satoshi outputs have their
    origin loaded. That revision's own library (transaction outputs, `ParseBitcom`,
    `LoadOrigin`) and its `ParseBsv20Inscription` are not part of this model: its Bitcom
    decoder, BSV-20 decoder and origin loader are parameters, its MAP decoder and outpoint
    codec are taken to be the present ones. */
module Ordinals {
  import opened Base
  import opened Prims
  import opened Parser
  import opened Outpoints
  import opened Records
  import opened PKHash
  import opened Ord
  import BitcomScan
  import BitcomSection

  /** The older `lib.Txo`: its outpoint, value, script, the satoshis of the outputs
      before it, its key hash (absent, empty, or found), its origin and its data. */
  datatype LegacyTxo = LegacyTxo(outpoint: Outpoint, satoshis: uint64, script: Bytes,
                                 outAcc: uint64, pkhash: Option<Bytes>, origin: Option<Outpoint>,
                                 data: map<string, Item>)

  /** One Bitcom section as the older `ParseBitcom` returns it. */
  datatype Section = SigmaSection(sigma: Sigma) | MapSection(mapData: MapData) | FileSection(file: File)

  /** What the older `ParseBitcom(tx, vout, &i)` yields: a section, or nothing on an error
      or an unknown protocol, and the cursor it leaves. */
  datatype BitcomRead = BitcomRead(section: Option<Section>, next: nat)

  /** The older decoder, given the script and the cursor after the OP_RETURN or '|'. */
  type BitcomParser = (Bytes, nat) -> BitcomRead

  /** `ParseBsv20Inscription(ins.File, txo)`, given the finished file and the output as it
      stands: the object it returns, or nothing for nil (its error is discarded). */
  type Bsv20Parser = (File, LegacyTxo) -> Option<Item>

  /** The older revision's own decoders the scan calls into. */
  datatype Library = Library(bitcomAt: BitcomParser, bsv20At: Bsv20Parser)

  /** The Bitcom decoder never moves the cursor back (the scan would not end otherwise). */
  ghost predicate Forward(lib: Library) {
    forall s: Bytes, i: nat :: i <= lib.bitcomAt(s, i).next
  }

  const InscKey: string := "insc"
  const TypesKey: string := "types"
  const SigmaKey: string := "sigma"
  const BKey: string := "b"
  const Bsv20Key: string := "bsv20"
  const OrdTag: Bytes := [0x6f, 0x72, 0x64]

  // ---------------------------------------------------------------------------
  // addBitcom

  /** The sigmas stored so far, or none when "sigma" holds something else. */
  function SigmasOf(data: map<string, Item>): seq<Sigma> {
    if SigmaKey in data && data[SigmaKey].SigmasItem? then data[SigmaKey].sigmas else []
  }

  /** `addBitcom`: nothing for no section; a signature is appended to the list under
      "sigma", a MAP section stored under "map", a B file under "b". */
  function AddBitcom(txo: LegacyTxo, section: Option<Section>): (t: LegacyTxo)
    ensures t.outpoint == txo.outpoint && t.script == txo.script && t.pkhash == txo.pkhash
    ensures section.None? ==> t == txo
    ensures section.Some? && section.value.SigmaSection? ==>
      t.data == txo.data[SigmaKey := SigmasItem(SigmasOf(txo.data) + [section.value.sigma])]
    ensures section.Some? && section.value.MapSection? ==>
      t.data == txo.data[MapKey := MapItem(section.value.mapData)]
    ensures section.Some? && section.value.FileSection? ==>
      t.data == txo.data[BKey := FileItem(section.value.file)]
  {
    match section
    case None => txo
    case Some(SigmaSection(sg)) => txo.(data := txo.data[SigmaKey := SigmasItem(SigmasOf(txo.data) + [sg])])
    case Some(MapSection(m)) => txo.(data := txo.data[MapKey := MapItem(m)])
    case Some(FileSection(f)) => txo.(data := txo.data[BKey := FileItem(f)])
  }

  /** Signatures accumulate: each one added keeps every earlier one, in order. */
  lemma SigmasAccumulate(txo: LegacyTxo, sg: Sigma)
    ensures SigmasOf(AddBitcom(txo, Some(SigmaSection(sg))).data) == SigmasOf(txo.data) + [sg]
  {
  }

  // ---------------------------------------------------------------------------
  // ParseInscription (older revision)

  function TypesOf(data: map<string, Item>): seq<string> {
    if TypesKey in data && data[TypesKey].TypesItem? then data[TypesKey].types else []
  }

  /** Every key outside `written` is present after exactly when before, with its value. */
  ghost predicate KeptExcept(before: map<string, Item>, after: map<string, Item>, written: set<string>) {
    forall k :: k !in written ==> (k in after <==> k in before) && (k in before ==> after[k] == before[k])
  }

  /** What `ParseBsv20Inscription` yields for a JSON inscription; it is not called for
      any other kind. */
  function Bsv20Of(p: Prims, bsv20At: Bsv20Parser, txo: LegacyTxo, ins: Inscription): Option<Item> {
    if KindOf(p, ins.file) == JsonKind then bsv20At(ins.file, txo) else None
  }

  /** The output after a closed envelope: the inscription under "insc", its type word
      appended under "types", the BSV-20 object of a JSON inscription under "bsv20" when
      there is one, every other key kept, and, when its key hash is present but empty,
      the key hash of the template after the envelope. */
  function Store(p: Prims, bsv20At: Bsv20Parser, txo: LegacyTxo, ins: Inscription, s: Bytes, pos: nat)
    : (t: LegacyTxo)
    ensures InscKey in t.data && t.data[InscKey] == InscriptionItem(ins)
    ensures TypesKey in t.data && t.data[TypesKey] ==
      TypesItem(TypesOf(txo.data) + [KindName(KindOf(p, ins.file))])
    ensures KindOf(p, ins.file) == JsonKind && bsv20At(ins.file, txo).Some? ==>
      Bsv20Key in t.data && t.data[Bsv20Key] == bsv20At(ins.file, txo).value
    ensures KindOf(p, ins.file) != JsonKind || bsv20At(ins.file, txo).None? ==>
      KeptExcept(txo.data, t.data, {InscKey, TypesKey})
    ensures KeptExcept(txo.data, t.data, {InscKey, TypesKey, Bsv20Key})
    ensures t.pkhash != txo.pkhash ==> txo.pkhash == Some([]) && t.pkhash == OwnerAfter(s, pos)
    ensures t.outpoint == txo.outpoint && t.script == txo.script && t.satoshis == txo.satoshis
  {
    var kind := KindName(KindOf(p, ins.file));
    var bsv20 := Bsv20Of(p, bsv20At, txo, ins);
    var data := txo.data[InscKey := InscriptionItem(ins)][TypesKey := TypesItem(TypesOf(txo.data) + [kind])];
    var data' := if bsv20.Some? then data[Bsv20Key := bsv20.value] else data;
    var found := OwnerAfter(s, pos);
    var pkhash := if txo.pkhash == Some([]) && found.Some? then found else txo.pkhash;
    txo.(data := data', pkhash := pkhash)
  }

  /** The output with the envelope's MAP section stored under "map". */
  function StoreMap(txo: LegacyTxo, md: Option<MapData>): (t: LegacyTxo)
    ensures md.None? ==> t == txo
    ensures md.Some? ==> t == txo.(data := txo.data[MapKey := MapItem(md.value)])
  {
    if md.Some? then txo.(data := txo.data[MapKey := MapItem(md.value)]) else txo
  }

  /** `ParseInscription(txo, script, &fromPos)`: the older envelope, whose result goes
      into the output's data map; the second component is the cursor handed back. */
  function LegacyInscription(p: Prims, lib: Library, txo: LegacyTxo, s: Bytes, from: nat): (r: (LegacyTxo, nat))
    ensures r.1 == from || (from < r.1 <= |s| && s[r.1 - 1] == OP_ENDIF)
    ensures r.0.outpoint == txo.outpoint && r.0.script == txo.script && r.0.satoshis == txo.satoshis
    ensures r.0.pkhash.None? == txo.pkhash.None?
    ensures Skipped(txo) ==> r.0.pkhash == txo.pkhash
  {
    match ParseEnvelope(p, Legacy, [], s, from)
    case Aborted(md) => (StoreMap(txo, md), from)
    case Closed(e, pos) => (Store(p, lib.bsv20At, StoreMap(txo, e.mapData), Finish(p, Legacy, e.ins), s, pos), pos)
  }

  /** The older envelope changes no data key but "map", "insc", "types" and "bsv20". */
  lemma LegacyKeepsKeys(p: Prims, lib: Library, txo: LegacyTxo, s: Bytes, from: nat)
    ensures KeptExcept(txo.data, LegacyInscription(p, lib, txo, s, from).0.data,
                       {MapKey, InscKey, TypesKey, Bsv20Key})
  {
    match ParseEnvelope(p, Legacy, [], s, from)
    case Aborted(md) =>
    case Closed(e, pos) =>
      var m := StoreMap(txo, e.mapData);
      var t := Store(p, lib.bsv20At, m, Finish(p, Legacy, e.ins), s, pos);
      assert KeptExcept(m.data, t.data, {InscKey, TypesKey, Bsv20Key});
      assert KeptExcept(txo.data, m.data, {MapKey});
  }

  method ParseLegacyInscription(p: Prims, lib: Library, txo: LegacyTxo, s: Bytes, from: nat)
    returns (t: LegacyTxo, pos: nat)
    ensures (t, pos) == LegacyInscription(p, lib, txo, s, from)
  {
    var env := ReadEnvelope(p, Legacy, [], s, from);
    if env.Aborted? {
      return StoreMap(txo, env.mapData), from;
    }
    var ins := Classify(p, Legacy, env.e.ins);
    t := Store(p, lib.bsv20At, StoreMap(txo, env.e.mapData), ins, s, env.pos);
    pos := env.pos;
  }

  // ---------------------------------------------------------------------------
  // ParseScript

  /** A leading 25-byte P2PKH template. */
  predicate LeadingP2PKH(s: Bytes) {
    |s| >= 25 && IsP2PKH(s[..25])
  }

  /** What one scan step leaves: the source panicking, or the next cursor, OP_RETURN
      offset and output. */
  datatype ScanStep = Panicked | Next(i: nat, opReturn: int, txo: LegacyTxo)

  /** The "ord" test reads the two bytes before the push, which do not exist when it
      starts at offset 0 or 1 (as written the source then panics; as intended the push
      is not an envelope). */
  predicate OrdPanics(g: BitcomScan.Variant, at: nat) {
    g == BitcomScan.AsWritten && at < 2
  }

  predicate OrdMarked(s: Bytes, at: nat)
    requires at >= 2 && at <= |s|
  {
    s[at - 2] == OP_0 && s[at - 1] == OP_IF
  }

  /** One pass of the switch on the op read at `i`, which ended at `rd.idx`. */
  function StepAt(p: Prims, g: BitcomScan.Variant, lib: Library, s: Bytes, i: nat,
                  opReturn: int, txo: LegacyTxo, op: OpPart, next: nat): (r: ScanStep)
    requires Forward(lib)
    requires i < next <= |s|
    requires op.opCode == OP_DATA1 || op.opCode == OP_DATA3 ==> |op.data| == op.opCode as nat
    ensures r.Next? ==> next <= r.i
    ensures r.Next? ==> r.txo.pkhash.None? == txo.pkhash.None?
    ensures r.Next? && Skipped(txo) ==> r.txo.pkhash == txo.pkhash
    ensures r.Panicked? ==> OrdPanics(g, i)
    ensures r.Next? && op.opCode != OP_RETURN && op.opCode != OP_DATA1 && op.opCode != OP_DATA3 ==>
      r == Next(next, opReturn, txo)
    // OP_RETURN: the first one's offset is recorded, and a Bitcom section is read after each
    ensures op.opCode == OP_RETURN ==>
      var br := lib.bitcomAt(s, next);
      r == Next(br.next, if opReturn == BitcomScan.NoOpReturn(g) then i else opReturn, AddBitcom(txo, br.section))
    // '|': a Bitcom section is read only once an OP_RETURN has been seen
    ensures op.opCode == OP_DATA1 && op.data[0] == BitcomSection.PipeByte && BitcomScan.SeenOpReturn(g, opReturn) ==>
      var br := lib.bitcomAt(s, next);
      r == Next(br.next, opReturn, AddBitcom(txo, br.section))
    ensures op.opCode == OP_DATA1 && !(op.data[0] == BitcomSection.PipeByte && BitcomScan.SeenOpReturn(g, opReturn)) ==>
      r == Next(next, opReturn, txo)
    // "ord": an envelope is read exactly when the push follows OP_0 OP_IF
    ensures op.opCode == OP_DATA3 && op.data == OrdTag && i >= 2 && OrdMarked(s, i) ==>
      var e := LegacyInscription(p, lib, txo, s, next);
      r == Next(e.1, opReturn, e.0)
    ensures op.opCode == OP_DATA3 && !(op.data == OrdTag && i >= 2 && OrdMarked(s, i)) && !OrdPanics(g, i) ==>
      r == Next(next, opReturn, txo)
    ensures op.opCode == OP_DATA3 && op.data == OrdTag && next > 2 && OrdPanics(g, i) ==> r.Panicked?
  {
    if op.opCode == OP_RETURN then
      var seen := if opReturn == BitcomScan.NoOpReturn(g) then i else opReturn;
      var br := lib.bitcomAt(s, next);
      Next(br.next, seen, AddBitcom(txo, br.section))
    else if op.opCode == OP_DATA1 then
      if op.data[0] == BitcomSection.PipeByte && BitcomScan.SeenOpReturn(g, opReturn) then
        var br := lib.bitcomAt(s, next);
        Next(br.next, opReturn, AddBitcom(txo, br.section))
      else Next(next, opReturn, txo)
    else if op.opCode == OP_DATA3 then
      if next > 2 && op.data == OrdTag then
        if OrdPanics(g, i) then Panicked
        else if i >= 2 && OrdMarked(s, i) then
          var r := LegacyInscription(p, lib, txo, s, next);
          Next(r.1, opReturn, r.0)
        else Next(next, opReturn, txo)
      else Next(next, opReturn, txo)
    else Next(next, opReturn, txo)
  }

  /** The scan loop from cursor `i`: it stops at the end or at the first op that does not
      read; nothing when the source panics. */
  function Scan(p: Prims, g: BitcomScan.Variant, lib: Library, s: Bytes, i: nat,
                opReturn: int, txo: LegacyTxo): (r: Option<LegacyTxo>)
    requires Forward(lib)
    ensures r.Some? ==> r.value.outpoint == txo.outpoint && r.value.pkhash.None? == txo.pkhash.None?
    ensures r.Some? && Skipped(txo) ==> r.value.pkhash == txo.pkhash
    decreases |s| - i
  {
    if i >= |s| then Some(txo)
    else
      var rd := Decode(s, i);
      if rd.outcome.Failed? then Some(txo)
      else match StepAt(p, g, lib, s, i, opReturn, txo, rd.outcome.op, rd.idx)
        case Panicked => None
        case Next(i', o', t') => Scan(p, g, lib, s, i', o', t')
  }

  /** `ParseScript(txo)`: a leading P2PKH template gives the key hash and the scan
      starts after it. */
  function ScriptSpec(p: Prims, g: BitcomScan.Variant, lib: Library, txo: LegacyTxo)
    : (r: Option<LegacyTxo>)
    requires Forward(lib)
    ensures r.Some? && LeadingP2PKH(txo.script) ==> r.value.pkhash == Some(txo.script[3..23])
    ensures r.Some? ==> r.value.outpoint == txo.outpoint
    // the scan starts after a leading template, which supplies the key hash, else at 0
    ensures LeadingP2PKH(txo.script) ==>
      r == Scan(p, g, lib, txo.script, 25, BitcomScan.NoOpReturn(g), txo.(pkhash := Some(txo.script[3..23])))
    ensures !LeadingP2PKH(txo.script) ==> r == Scan(p, g, lib, txo.script, 0, BitcomScan.NoOpReturn(g), txo)
  {
    var s := txo.script;
    if LeadingP2PKH(s) then
      Scan(p, g, lib, s, 25, BitcomScan.NoOpReturn(g), txo.(pkhash := Some(s[3..23])))
    else Scan(p, g, lib, s, 0, BitcomScan.NoOpReturn(g), txo)
  }

  method Step(p: Prims, g: BitcomScan.Variant, lib: Library, s: Bytes, i: nat,
              opReturn: int, txo: LegacyTxo, op: OpPart, next: nat) returns (r: ScanStep)
    requires Forward(lib)
    requires i < next <= |s|
    requires op.opCode == OP_DATA1 || op.opCode == OP_DATA3 ==> |op.data| == op.opCode as nat
    ensures r == StepAt(p, g, lib, s, i, opReturn, txo, op, next)
  {
    r := Next(next, opReturn, txo);
    if op.opCode == OP_RETURN {
      var seen := if opReturn == BitcomScan.NoOpReturn(g) then i else opReturn;
      var br := lib.bitcomAt(s, next);
      r := Next(br.next, seen, AddBitcom(txo, br.section));
    } else if op.opCode == OP_DATA1 {
      if op.data[0] == BitcomSection.PipeByte && BitcomScan.SeenOpReturn(g, opReturn) {
        var br := lib.bitcomAt(s, next);
        r := Next(br.next, opReturn, AddBitcom(txo, br.section));
      }
    } else if op.opCode == OP_DATA3 && next > 2 && op.data == OrdTag {
      if OrdPanics(g, i) {
        r := Panicked;
      } else if i >= 2 && OrdMarked(s, i) {
        var t, pos := ParseLegacyInscription(p, lib, txo, s, next);
        r := Next(pos, opReturn, t);
      }
    }
  }

  method ParseScript(p: Prims, g: BitcomScan.Variant, lib: Library, txo: LegacyTxo)
    returns (r: Option<LegacyTxo>)
    requires Forward(lib)
    ensures r == ScriptSpec(p, g, lib, txo)
  {
    var s := txo.script;
    var t := txo;
    var start := 0;
    if |s| >= 25 && IsP2PKH(s[..25]) {
      t := t.(pkhash := Some(s[3..23]));
      start := 25;
    }
    var opReturn := BitcomScan.NoOpReturn(g);
    var i := start;
    while i < |s|
      invariant Scan(p, g, lib, s, i, opReturn, t) == ScriptSpec(p, g, lib, txo)
      decreases |s| - i
    {
      var op, next := ReadOp(s, i);
      if op.Failed? {
        break;
      }
      var step := Step(p, g, lib, s, i, opReturn, t, op.op, next);
      if step.Panicked? {
        return None;
      }
      i, opReturn, t := step.i, step.opReturn, step.txo;
    }
    r := Some(t);
  }

  // ---------------------------------------------------------------------------
  // ParseInscriptions and CalculateOrigins

  /** Outputs whose key hash was already found are not scanned again. */
  predicate Skipped(txo: LegacyTxo) {
    txo.pkhash.Some? && |txo.pkhash.value| != 0
  }

  /** `ParseInscriptions(ctx)` from output `k` on: each output not skipped is scanned;
      nothing when a scan panics. */
  function ParseAll(p: Prims, g: BitcomScan.Variant, lib: Library, txos: seq<LegacyTxo>, k: nat)
    : (r: Option<seq<LegacyTxo>>)
    requires Forward(lib)
    requires k <= |txos|
    ensures r.Some? ==> |r.value| == |txos| && forall j :: 0 <= j < k ==> r.value[j] == txos[j]
    ensures r.Some? ==> forall j :: k <= j < |txos| ==>
      (Skipped(txos[j]) ==> r.value[j] == txos[j]) &&
      (!Skipped(txos[j]) ==> ScriptSpec(p, g, lib, txos[j]) == Some(r.value[j]))
    ensures r.None? ==> exists j :: k <= j < |txos| && !Skipped(txos[j]) && ScriptSpec(p, g, lib, txos[j]).None?
    decreases |txos| - k
  {
    if k == |txos| then Some(txos)
    else if Skipped(txos[k]) then ParseAll(p, g, lib, txos, k + 1)
    else match ScriptSpec(p, g, lib, txos[k])
      case None => None
      case Some(t) => ParseAll(p, g, lib, txos[k := t], k + 1)
  }

  /** A panic in any scanned output is a panic of the whole pass. */
  lemma {:induction false} ParseAllPanics(p: Prims, g: BitcomScan.Variant, lib: Library,
                                          txos: seq<LegacyTxo>, k: nat, j: nat)
    requires Forward(lib)
    requires k <= j < |txos| && !Skipped(txos[j]) && ScriptSpec(p, g, lib, txos[j]).None?
    ensures ParseAll(p, g, lib, txos, k).None?
    decreases |txos| - k
  {
    if k < j {
      if !Skipped(txos[k]) && ScriptSpec(p, g, lib, txos[k]).Some? {
        var t := ScriptSpec(p, g, lib, txos[k]).value;
        ParseAllPanics(p, g, lib, txos[k := t], k + 1, j);
      } else if Skipped(txos[k]) {
        ParseAllPanics(p, g, lib, txos, k + 1, j);
      }
    }
  }

  method ParseInscriptions(p: Prims, g: BitcomScan.Variant, lib: Library, txos: seq<LegacyTxo>)
    returns (r: Option<seq<LegacyTxo>>)
    requires Forward(lib)
    ensures r == ParseAll(p, g, lib, txos, 0)
  {
    var ts := txos;
    var k := 0;
    while k < |ts|
      invariant k <= |ts| == |txos|
      invariant ParseAll(p, g, lib, ts, k) == ParseAll(p, g, lib, txos, 0)
    {
      if !(ts[k].pkhash.Some? && |ts[k].pkhash.value| != 0) {
        var t := ParseScript(p, g, lib, ts[k]);
        if t.None? {
          return None;
        }
        ts := ts[k := t.value];
      }
      k := k + 1;
    }
    r := Some(ts);
  }

  /** The older `LoadOrigin(outpoint, outAcc)`, which reads the database. */
  type OriginLoader = (Outpoint, uint64) -> Option<Outpoint>

  /** `CalculateOrigins(ctx)`: every one-satoshi output has its origin loaded; the others
      are left as they are. */
  method CalculateOrigins(load: OriginLoader, txos: seq<LegacyTxo>) returns (r: seq<LegacyTxo>)
    ensures |r| == |txos|
    ensures forall j :: 0 <= j < |txos| ==>
      r[j] == if txos[j].satoshis == 1 then txos[j].(origin := load(txos[j].outpoint, txos[j].outAcc)) else txos[j]
  {
    r := txos;
    var k := 0;
    while k < |r|
      invariant k <= |r| == |txos|
      invariant forall j :: 0 <= j < k ==>
        r[j] == if txos[j].satoshis == 1 then txos[j].(origin := load(txos[j].outpoint, txos[j].outAcc)) else txos[j]
      invariant forall j :: k <= j < |txos| ==> r[j] == txos[j]
    {
      if r[k].satoshis != 1 {
        k := k + 1;
        continue;
      }
      r := r[k := r[k].(origin := load(r[k].outpoint, r[k].outAcc))];
      k := k + 1;
    }
  }

  // ---------------------------------------------------------------------------
  // Properties

  /** With the guard as intended, a scan never panics. */
  lemma {:induction false} IntendedScanTotal(p: Prims, lib: Library, s: Bytes, i: nat,
                                             opReturn: int, txo: LegacyTxo)
    requires Forward(lib)
    ensures Scan(p, BitcomScan.Intended, lib, s, i, opReturn, txo).Some?
    decreases |s| - i
  {
    if i < |s| {
      var rd := Decode(s, i);
      if rd.outcome.Parsed? {
        var st := StepAt(p, BitcomScan.Intended, lib, s, i, opReturn, txo, rd.outcome.op, rd.idx);
        IntendedScanTotal(p, lib, s, st.i, st.opReturn, st.txo);
      }
    }
  }

  /** An op that is neither OP_RETURN nor a push is stepped over. */
  lemma ScanPlainOp(p: Prims, g: BitcomScan.Variant, lib: Library, s: Bytes, i: nat,
                    opReturn: int, txo: LegacyTxo)
    requires Forward(lib)
    requires i < |s| && !IsPushData(s[i]) && !IsDirectPush(s[i]) && s[i] != OP_RETURN
    ensures Scan(p, g, lib, s, i, opReturn, txo) == Scan(p, g, lib, s, i + 1, opReturn, txo)
  {
    OtherOpcodesStep(s, i);
  }

  /** The push of "ord" reads as one op of three data bytes. */
  lemma OrdPushDecodes(s: Bytes, i: nat)
    requires i + 4 <= |s| && s[i] == OP_DATA3 && s[i + 1..i + 4] == OrdTag
    ensures Decode(s, i) == Read(Parsed(OpPart(OP_DATA3, OrdTag, 3)), i + 4)
  {
    DirectPushReads(s, i);
  }

  /** An "ord" push after OP_0 OP_IF hands the script to the envelope reader. */
  lemma StepOrdPush(p: Prims, g: BitcomScan.Variant, lib: Library, s: Bytes, i: nat,
                    opReturn: int, txo: LegacyTxo, t: LegacyTxo, n: nat)
    requires Forward(lib)
    requires 2 <= i && i + 4 <= |s| && OrdMarked(s, i)
    requires LegacyInscription(p, lib, txo, s, i + 4) == (t, n)
    ensures StepAt(p, g, lib, s, i, opReturn, txo, OpPart(OP_DATA3, OrdTag, 3), i + 4) == Next(n, opReturn, t)
  {
  }

  /** A scan that reads `op` at `i` and whose step goes on continues from there. */
  lemma ScanNext(p: Prims, g: BitcomScan.Variant, lib: Library, s: Bytes, i: nat,
                 opReturn: int, txo: LegacyTxo, op: OpPart, next: nat,
                 i': nat, o': int, t': LegacyTxo)
    requires Forward(lib)
    requires i < next <= |s|
    requires op.opCode == OP_DATA1 || op.opCode == OP_DATA3 ==> |op.data| == op.opCode as nat
    requires Decode(s, i) == Read(Parsed(op), next)
    requires StepAt(p, g, lib, s, i, opReturn, txo, op, next) == Next(i', o', t')
    ensures Scan(p, g, lib, s, i, opReturn, txo) == Scan(p, g, lib, s, i', o', t')
  {
  }

  /** A P2PKH template followed by an "ord" envelope that closes at the end of the script:
      the scan stores the inscription under "insc" and keeps the template's key hash as
      the owner, under either variant. */
  lemma TemplateThenEnvelope(p: Prims, g: BitcomScan.Variant, lib: Library, txo: LegacyTxo,
                             e: Envelope)
    requires Forward(lib)
    requires var s := txo.script;
      LeadingP2PKH(s) && |s| >= 31 && s[25] == OP_0 && s[26] == OP_IF
      && s[27] == OP_DATA3 && s[28..31] == OrdTag
      && ParseEnvelope(p, Legacy, [], s, 31) == Closed(e, |s|)
    ensures var r := ScriptSpec(p, g, lib, txo);
      r.Some? && InscKey in r.value.data
      && r.value.data[InscKey] == InscriptionItem(Finish(p, Legacy, e.ins))
      && r.value.pkhash == Some(txo.script[3..23])
  {
    var s := txo.script;
    var t := txo.(pkhash := Some(s[3..23]));
    var ins := LegacyClosed(p, lib, t, s, 31, e, |s|);
    ScanMarkedOrd(p, g, lib, s, t, ins);
  }

  /** OP_0 OP_IF "ord" at offset 25, with an envelope that runs to the end of the script. */
  lemma ScanMarkedOrd(p: Prims, g: BitcomScan.Variant, lib: Library, s: Bytes, t: LegacyTxo, ins: LegacyTxo)
    requires Forward(lib)
    requires |s| >= 31 && s[25] == OP_0 && s[26] == OP_IF && s[27] == OP_DATA3 && s[28..31] == OrdTag
    requires LegacyInscription(p, lib, t, s, 31) == (ins, |s|)
    ensures Scan(p, g, lib, s, 25, BitcomScan.NoOpReturn(g), t) == Some(ins)
  {
    var o := BitcomScan.NoOpReturn(g);
    ScanPlainOp(p, g, lib, s, 25, o, t);
    ScanPlainOp(p, g, lib, s, 26, o, t);
    ScanOrdToEnd(p, g, lib, s, o, t, ins);
  }

  /** The same from the "ord" push on. */
  lemma ScanOrdToEnd(p: Prims, g: BitcomScan.Variant, lib: Library, s: Bytes, o: int, t: LegacyTxo, ins: LegacyTxo)
    requires Forward(lib)
    requires |s| >= 31 && s[25] == OP_0 && s[26] == OP_IF && s[27] == OP_DATA3 && s[28..31] == OrdTag
    requires LegacyInscription(p, lib, t, s, 31) == (ins, |s|)
    ensures Scan(p, g, lib, s, 27, o, t) == Some(ins)
  {
    OrdPushDecodes(s, 27);
    StepOrdPush(p, g, lib, s, 27, o, t, ins, |s|);
    ScanNext(p, g, lib, s, 27, o, t, OpPart(OP_DATA3, OrdTag, 3), 31, |s|, o, ins);
    assert Scan(p, g, lib, s, |s|, o, ins) == Some(ins);
  }

  /** A closed envelope's output is `Store` applied after its MAP. */
  lemma LegacyClosed(p: Prims, lib: Library, txo: LegacyTxo, s: Bytes, from: nat, e: Envelope, pos: nat)
    returns (t: LegacyTxo)
    requires ParseEnvelope(p, Legacy, [], s, from) == Closed(e, pos)
    ensures LegacyInscription(p, lib, txo, s, from) == (t, pos)
    ensures InscKey in t.data && t.data[InscKey] == InscriptionItem(Finish(p, Legacy, e.ins))
    ensures Skipped(txo) ==> t.pkhash == txo.pkhash
  {
    t := Store(p, lib.bsv20At, StoreMap(txo, e.mapData), Finish(p, Legacy, e.ins), s, pos);
  }

  /** An "ord" push at the very start of a script. */
  function OrdAtStart(): Bytes {
    [OP_DATA3] + OrdTag
  }

  /** As written, a script opening with the "ord" push makes the scan read before the
      script and panic; as intended, it is scanned and left as it is. */
  lemma OrdAtStartExample(p: Prims, lib: Library, txo: LegacyTxo)
    requires Forward(lib) && txo.script == OrdAtStart()
    ensures ScriptSpec(p, BitcomScan.AsWritten, lib, txo) == None
    ensures ScriptSpec(p, BitcomScan.Intended, lib, txo) == Some(txo)
  {
    var s := OrdAtStart();
    assert Decode(s, 0) == Read(Parsed(OpPart(OP_DATA3, OrdTag, 3)), 4) by {
      assert s[1..4] == OrdTag;
    }
  }
}
