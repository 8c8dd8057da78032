/** BSV-21 fungible tokens (mod/bsv21/bsv21.go): decoding one token inscription
    (`Parse`) and the per-transaction settlement (`Save`) that checks every transfer and
    burn against the valid token inputs of the same id and gives all outputs of an id
    one shared fate. */
module Bsv21Indexer {
  import opened Base
  import opened Prims
  import opened Outpoints
  import opened Records
  import opened Txos
  import BitcomScan

  /** The analyzer's tag, also the key its entry is stored under. */
  const Tag: string := "bsv21"
  const InscKey: string := "insc"
  const TokenType: string := "application/bsv-20"

  const DeployMint: string := "deploy+mint"
  const Transfer: string := "transfer"
  const Burn: string := "burn"

  /** `Bsv21Status` */
  const Invalid: int := -1
  const Pending: int := 0
  const Valid: int := 1

  const IdEvent: string := "id"
  const ContractEvent: string := "contract"
  const ReasonEvent: string := "reason"
  const InsufficientInputs: string := "insufficient-inputs"

  // ---------------------------------------------------------------------------
  // Decoding one token inscription (bsv21.go:42-125)

  /** A JSON string field, or Go's zero value "" when the key is missing. */
  function Field(m: map<string, string>, key: string): string {
    if key in m then m[key] else ""
  }

  /** `amt`: absent is 0; present, it must be a decimal that fits 64 bits. */
  function Amount(m: map<string, string>): (r: Option<uint64>)
    ensures "amt" !in m ==> r == Some(0)
    ensures "amt" in m ==> (r.Some? <==> ParseUint(m["amt"], 64).Some?)
    ensures "amt" in m && r.Some? ==> ParseUint(m["amt"], 64) == Some(r.value as nat)
  {
    if "amt" !in m then Some(0)
    else match ParseUint(m["amt"], 64)
      case None => None
      case Some(v) => Pow2Of64(); Some(v)
  }

  /** `dec` of a deploy+mint: absent is 0; present, an 8-bit decimal no larger than 18. */
  function Decimals(m: map<string, string>): (r: Option<uint32>)
    ensures r.Some? ==> r.value <= 18
    ensures "dec" !in m ==> r == Some(0)
    ensures "dec" in m ==> (r.Some? <==> ParseUint(m["dec"], 8).Some? && ParseUint(m["dec"], 8).value <= 18)
    ensures "dec" in m && r.Some? ==> ParseUint(m["dec"], 8) == Some(r.value as nat)
  {
    if "dec" !in m then Some(0)
    else match ParseUint(m["dec"], 8)
      case None => None
      case Some(v) => if v > 18 then None else Some(v)
  }

  /** The events every decoded token carries: its id, and its contract when it has one. */
  function TokenEvents(t: Bsv21): (evs: seq<EventLog>)
    ensures |evs| == (if t.contract == "" then 1 else 2)
    ensures evs[0] == EventLog(IdEvent, ToString(t.id))
    ensures t.contract != "" ==> evs[1] == EventLog(ContractEvent, t.contract)
  {
    [EventLog(IdEvent, ToString(t.id))]
      + (if t.contract != "" then [EventLog(ContractEvent, t.contract)] else [])
  }

  /** The token a JSON object describes, for an output at `own`; `None` where `Parse`
      gives up. A deploy+mint is its own id and born valid; a transfer or burn names
      its id and waits for `Save`. */
  function Decode(m: map<string, string>, own: Outpoint): (r: Option<Bsv21>)
    ensures r.Some? <==>
      Amount(m).Some? &&
      ((Field(m, "op") == DeployMint && Decimals(m).Some?) ||
       ((Field(m, "op") == Transfer || Field(m, "op") == Burn) && "id" in m && FromString(m["id"]).Ok?))
    ensures r.Some? ==>
      r.value.op == Field(m, "op") && r.value.sym == Field(m, "sym") &&
      r.value.contract == Field(m, "contract") && Some(r.value.amt) == Amount(m) &&
      r.value.icon.None? && r.value.reason == ""
    ensures r.Some? && r.value.op == DeployMint ==>
      r.value.id == own && r.value.status == Valid && Some(r.value.dec) == Decimals(m)
    ensures r.Some? && r.value.op != DeployMint ==>
      Ok(r.value.id) == FromString(m["id"]) && r.value.status == Pending && r.value.dec == 0
  {
    var op := Field(m, "op");
    match Amount(m)
    case None => None
    case Some(amt) =>
      var t := Bsv21(own, op, amt, 0, Field(m, "sym"), None, Field(m, "contract"), Pending, "");
      if op == DeployMint then
        match Decimals(m)
        case None => None
        case Some(dec) => Some(t.(dec := dec, status := Valid))
      else if op == Transfer || op == Burn then
        if "id" !in m then None
        else match FromString(m["id"])
          case Err(_) => None
          case Ok(id) => Some(t.(id := id))
      else None
  }

  /** The token an inscription entry describes. An entry whose object is not an
      inscription is a failed type assertion (a panic) in the source; it gives nothing
      here, like a missing entry. */
  function FromEntry(p: Prims, entry: Option<IndexData>, own: Outpoint): (r: Option<Bsv21>)
    ensures r.Some? ==>
      entry.Some? && entry.value.item.InscriptionItem? &&
      entry.value.item.insc.file.mimeType == TokenType &&
      p.jsonStringMap(entry.value.item.insc.file.content).Some? &&
      r == Decode(p.jsonStringMap(entry.value.item.insc.file.content).value, own)
    ensures entry.Some? && entry.value.item.InscriptionItem? && entry.value.item.insc.file.mimeType != TokenType ==>
      r.None?
    ensures (entry.Some? && entry.value.item.InscriptionItem? &&
             entry.value.item.insc.file.mimeType == TokenType &&
             p.jsonStringMap(entry.value.item.insc.file.content).Some?) ==>
      r == Decode(p.jsonStringMap(entry.value.item.insc.file.content).value, own)
  {
    if entry.None? || !entry.value.item.InscriptionItem? then None
    else
      var f := entry.value.item.insc.file;
      if f.mimeType != TokenType then None
      else match p.jsonStringMap(f.content)
        case None => None
        case Some(m) => Decode(m, own)
  }

  /** The inscription entry of output `vout`: parsed afresh by the inscription analyzer
      when one is attached, otherwise the one already stored under "insc". */
  function InscriptionEntry(inscriptions: Option<(IndexContext, nat) -> ParseResult>,
                            ctx: IndexContext, vout: nat): ParseResult
    requires vout < |ctx.txos|
  {
    match inscriptions
    case Some(parse) => parse(ctx, vout)
    case None =>
      var data := ctx.txos[vout].data;
      ParseResult(if InscKey in data then Some(data[InscKey]) else None, ctx)
  }

  /** `Bsv21Indexer.Parse`: the token entry of output `vout`, holding the decoded token
      and its events. An index past the outputs (an out-of-range panic) gives nothing. */
  function Parse(p: Prims, inscriptions: Option<(IndexContext, nat) -> ParseResult>,
                 ctx: IndexContext, vout: nat): (r: ParseResult)
    ensures vout >= |ctx.txos| ==> r == ParseResult(None, ctx)
    ensures vout < |ctx.txos| ==> r.ctx == InscriptionEntry(inscriptions, ctx, vout).ctx
    ensures r.data.Some? ==>
      vout < |ctx.txos| &&
      var t := FromEntry(p, InscriptionEntry(inscriptions, ctx, vout).data, ctx.txos[vout].outpoint);
      t.Some? && r.data.value == Entry(Bsv21Item(t.value), TokenEvents(t.value))
    ensures vout < |ctx.txos| && r.data.None? ==>
      FromEntry(p, InscriptionEntry(inscriptions, ctx, vout).data, ctx.txos[vout].outpoint).None?
  {
    if vout >= |ctx.txos| then ParseResult(None, ctx)
    else
      var ir := InscriptionEntry(inscriptions, ctx, vout);
      match FromEntry(p, ir.data, ctx.txos[vout].outpoint)
      case None => ParseResult(None, ir.ctx)
      case Some(t) => ParseResult(Some(Entry(Bsv21Item(t), TokenEvents(t))), ir.ctx)
  }

  /** The JSON a token transfer is written as: op, id and amount. */
  function TransferJson(id: Outpoint, amt: uint64): map<string, string> {
    map["op" := Transfer, "id" := ToString(id), "amt" := FormatDecimal(amt)]
  }

  /** A transfer written out as JSON decodes back to the same id and amount, pending. */
  lemma TransferRoundTrip(id: Outpoint, amt: uint64, own: Outpoint)
    requires |id.txid| == 32
    ensures Decode(TransferJson(id, amt), own) ==
      Some(Bsv21(id, Transfer, amt, 0, "", None, "", Pending, ""))
  {
    var m := TransferJson(id, amt);
    StringRoundTrip(id);
    Pow2Of64();
    FormatDecimalRoundTrip(amt, 64);
    assert Amount(m) == Some(amt);
  }

  /** A deploy+mint with a decimal count above 18 is refused, whatever else it says. */
  lemma TooManyDecimals(m: map<string, string>, own: Outpoint, dec: nat)
    requires Field(m, "op") == DeployMint && 18 < dec < 256
    requires "dec" in m && m["dec"] == FormatDecimal(dec)
    ensures Decode(m, own).None?
  {
    assert Pow2(8) == 256;
    FormatDecimalRoundTrip(dec, 8);
  }

  // ---------------------------------------------------------------------------
  // Settlement (bsv21.go:127-220)

  /** The token recorded on an output, when its "bsv21" entry holds one. */
  function TokenOf(txo: Txo): Option<Bsv21> {
    if Tag in txo.data && txo.data[Tag].item.Bsv21Item? then Some(txo.data[Tag].item.bsv21)
    else None
  }

  /** A spent output whose "bsv21" entry holds something else: the unchecked type
      assertion on inputs panics there. */
  predicate Malformed(txo: Txo) {
    Tag in txo.data && !txo.data[Tag].item.Bsv21Item?
  }

  /** Token ids are compared by their text form. */
  function IdKey(t: Bsv21): string {
    ToString(t.id)
  }

  /** A spent output as the source keeps it: the output and its token, side by side. */
  datatype Input = Input(spend: Txo, token: Bsv21)

  /** A spent output funds token `id` when it carries a valid token of that id. */
  predicate Funds(txo: Txo, id: string) {
    TokenOf(txo).Some? && TokenOf(txo).value.status == Valid && IdKey(TokenOf(txo).value) == id
  }

  /** The spent outputs funding `id`, in input order. */
  function Funding(spends: seq<Txo>, id: string): seq<Input> {
    if spends == [] then []
    else
      var last := spends[|spends| - 1];
      Funding(spends[..|spends| - 1], id)
        + (if Funds(last, id) then [Input(last, TokenOf(last).value)] else [])
  }

  /** The token amounts of some inputs, added up without bound. */
  function AmountSum(ins: seq<Input>): nat {
    if ins == [] then 0 else AmountSum(ins[..|ins| - 1]) + ins[|ins| - 1].token.amt
  }

  /** What the pass over the inputs gathers per token id: the running `uint64` balance
      and the inputs themselves. */
  datatype Pool = Pool(balance: map<string, uint64>, inputs: map<string, seq<Input>>)

  const EmptyPool: Pool := Pool(map[], map[])

  /** A balance, or Go's zero value for an id without one. */
  function BalanceOf(balance: map<string, uint64>, id: string): uint64 {
    if id in balance then balance[id] else 0
  }

  function InputsOf(pool: Pool, id: string): seq<Input> {
    if id in pool.inputs then pool.inputs[id] else []
  }

  /** One input's contribution: a valid token adds its amount to its id's balance. */
  function Deposit(pool: Pool, spend: Txo): (r: Pool)
    ensures !(TokenOf(spend).Some? && TokenOf(spend).value.status == Valid) ==> r == pool
  {
    if TokenOf(spend).Some? && TokenOf(spend).value.status == Valid then
      var t := TokenOf(spend).value;
      var id := IdKey(t);
      Pool(pool.balance[id := Wrap64(BalanceOf(pool.balance, id) + t.amt)],
           pool.inputs[id := InputsOf(pool, id) + [Input(spend, t)]])
    else pool
  }

  /** How one input changes the pool at one id. */
  lemma DepositAt(pool: Pool, spend: Txo, id: string)
    ensures var r := Deposit(pool, spend);
      if Funds(spend, id) then
        id in r.balance && r.balance[id] == Wrap64(BalanceOf(pool.balance, id) + TokenOf(spend).value.amt) &&
        id in r.inputs && r.inputs[id] == InputsOf(pool, id) + [Input(spend, TokenOf(spend).value)]
      else
        (id in r.balance <==> id in pool.balance) && (id in r.inputs <==> id in pool.inputs) &&
        BalanceOf(r.balance, id) == BalanceOf(pool.balance, id) && InputsOf(r, id) == InputsOf(pool, id)
  {
  }

  /** The pool after the inputs, taken in order. */
  function Collect(spends: seq<Txo>): Pool {
    if spends == [] then EmptyPool else Deposit(Collect(spends[..|spends| - 1]), spends[|spends| - 1])
  }

  /** The available balance of an id is the wrapped sum of the amounts of the valid
      inputs of that id, and those inputs are remembered in input order; an id no valid
      input carries has no entry at all. */
  lemma {:induction false} CollectFunding(spends: seq<Txo>, id: string)
    ensures id in Collect(spends).balance <==> Funding(spends, id) != []
    ensures id in Collect(spends).inputs <==> Funding(spends, id) != []
    ensures InputsOf(Collect(spends), id) == Funding(spends, id)
    ensures BalanceOf(Collect(spends).balance, id) == Wrap64(AmountSum(Funding(spends, id)))
  {
    if spends != [] {
      var init := spends[..|spends| - 1];
      var last := spends[|spends| - 1];
      CollectFunding(init, id);
      DepositAt(Collect(init), last, id);
      var f := Funding(init, id);
      if Funds(last, id) {
        var t := TokenOf(last).value;
        assert Funding(spends, id) == f + [Input(last, t)];
        assert AmountSum(f + [Input(last, t)]) == AmountSum(f) + t.amt by {
          assert (f + [Input(last, t)])[..|f|] == f;
        }
        Wrap64Add(AmountSum(f), t.amt);
      } else {
        assert Funding(spends, id) == f;
      }
    }
  }

  /** Only transfers and burns are checked against the inputs. */
  predicate Checked(txo: Txo) {
    TokenOf(txo).Some? && (TokenOf(txo).value.op == Transfer || TokenOf(txo).value.op == Burn)
  }

  /** A checked output of token `id`. */
  predicate CheckedOf(txo: Txo, id: string) {
    Checked(txo) && IdKey(TokenOf(txo).value) == id
  }

  /** What a checked output takes off its id's running balance. As written the source
      takes the output's satoshis; the intended debit is the token amount. */
  function Debit(g: BitcomScan.Variant, txo: Txo): (d: nat)
    requires Checked(txo)
    ensures g == BitcomScan.AsWritten ==> d == txo.satoshis
    ensures g == BitcomScan.Intended ==> d == TokenOf(txo).value.amt
  {
    if g == BitcomScan.AsWritten then txo.satoshis else TokenOf(txo).value.amt
  }

  /** The pass over the outputs: running balances and the ids found short of funds. */
  datatype Ledger = Ledger(balance: map<string, uint64>, reasons: set<string>)

  /** One checked output: its id is short when it has no balance entry or less than the
      output's amount, and the balance then falls by the debit, wrapping at 2^64. */
  function CheckOne(g: BitcomScan.Variant, l: Ledger, txo: Txo): (r: Ledger)
    ensures l.reasons <= r.reasons
    ensures !Checked(txo) ==> r == l
    ensures Checked(txo) ==> r.reasons - l.reasons <= {IdKey(TokenOf(txo).value)}
  {
    if !Checked(txo) then l
    else
      var t := TokenOf(txo).value;
      var id := IdKey(t);
      var short := id !in l.balance || l.balance[id] < t.amt;
      Ledger(l.balance[id := Wrap64(BalanceOf(l.balance, id) - Debit(g, txo))],
             if short then l.reasons + {id} else l.reasons)
  }

  /** How one output changes the ledger at one id. */
  lemma CheckOneAt(g: BitcomScan.Variant, l: Ledger, txo: Txo, id: string)
    ensures var r := CheckOne(g, l, txo);
      if CheckedOf(txo, id) then
        id in r.balance && r.balance[id] == Wrap64(BalanceOf(l.balance, id) - Debit(g, txo)) &&
        (id in r.reasons <==> id in l.reasons || id !in l.balance || l.balance[id] < TokenOf(txo).value.amt)
      else
        (id in r.balance <==> id in l.balance) && BalanceOf(r.balance, id) == BalanceOf(l.balance, id) &&
        (id in r.reasons <==> id in l.reasons)
  {
  }

  /** The ledger after the outputs, taken in order, from the balances of the inputs. */
  function Check(g: BitcomScan.Variant, balance: map<string, uint64>, txos: seq<Txo>): Ledger {
    if txos == [] then Ledger(balance, {})
    else CheckOne(g, Check(g, balance, txos[..|txos| - 1]), txos[|txos| - 1])
  }

  /** Some output of `txos` is a checked output of `id`. */
  predicate HasChecked(txos: seq<Txo>, id: string) {
    txos != [] && (HasChecked(txos[..|txos| - 1], id) || CheckedOf(txos[|txos| - 1], id))
  }

  lemma {:induction false} HasCheckedAt(txos: seq<Txo>, j: nat, id: string)
    requires j < |txos| && CheckedOf(txos[j], id)
    ensures HasChecked(txos, id)
  {
    if j < |txos| - 1 {
      HasCheckedAt(txos[..|txos| - 1], j, id);
    }
  }

  /** The token amounts the checked outputs of `id` claim, added up without bound. */
  function CheckedAmount(txos: seq<Txo>, id: string): nat {
    if txos == [] then 0
    else
      var last := txos[|txos| - 1];
      CheckedAmount(txos[..|txos| - 1], id) + (if CheckedOf(last, id) then TokenOf(last).value.amt else 0)
  }

  lemma {:induction false} NothingClaimed(txos: seq<Txo>, id: string)
    requires !HasChecked(txos, id)
    ensures CheckedAmount(txos, id) == 0
  {
    if txos != [] {
      NothingClaimed(txos[..|txos| - 1], id);
    }
  }

  /** With the intended debit the ledger conserves tokens: an id is short exactly when it
      has checked outputs and either no funding or outputs claiming more than its
      balance; while the claims fit, the running balance is the exact remainder. */
  lemma {:induction false} CheckConserves(balance: map<string, uint64>, txos: seq<Txo>, id: string)
    ensures id in Check(BitcomScan.Intended, balance, txos).reasons <==>
      HasChecked(txos, id) && (id !in balance || CheckedAmount(txos, id) > balance[id])
    ensures id in balance && CheckedAmount(txos, id) <= balance[id] ==>
      id in Check(BitcomScan.Intended, balance, txos).balance &&
      Check(BitcomScan.Intended, balance, txos).balance[id] == balance[id] - CheckedAmount(txos, id)
    ensures id !in balance && !HasChecked(txos, id) ==> id !in Check(BitcomScan.Intended, balance, txos).balance
  {
    if txos != [] {
      var init := txos[..|txos| - 1];
      var last := txos[|txos| - 1];
      CheckConserves(balance, init, id);
      if !HasChecked(init, id) {
        NothingClaimed(init, id);
      }
      CheckOneAt(BitcomScan.Intended, Check(BitcomScan.Intended, balance, init), last, id);
    }
  }

  /** No id is found short unless one of its outputs was checked. */
  lemma {:induction false} ReasonsChecked(g: BitcomScan.Variant, balance: map<string, uint64>,
                                         txos: seq<Txo>, id: string)
    requires id in Check(g, balance, txos).reasons
    ensures HasChecked(txos, id)
  {
    var init := txos[..|txos| - 1];
    CheckOneAt(g, Check(g, balance, init), txos[|txos| - 1], id);
    if id in Check(g, balance, init).reasons {
      ReasonsChecked(g, balance, init, id);
    }
  }

  function OutpointsOf(ins: seq<Input>): (r: seq<Outpoint>)
    ensures |r| == |ins|
    ensures forall k :: 0 <= k < |ins| ==> r[k] == ins[k].spend.outpoint
  {
    if ins == [] then [] else OutpointsOf(ins[..|ins| - 1]) + [ins[|ins| - 1].spend.outpoint]
  }

  /** The token with symbol, icon and contract taken from the last of some inputs. */
  function Inherit(t: Bsv21, ins: seq<Input>): Bsv21 {
    if ins == [] then t
    else
      var last := ins[|ins| - 1].token;
      t.(sym := last.sym, icon := last.icon, contract := last.contract)
  }

  /** A checked output after the pass over the outputs: its dependencies gain every
      input of its id, and it takes symbol, icon and contract from the last of them. */
  function Enrich(txo: Txo, pool: Pool): (r: Txo)
    ensures !Checked(txo) ==> r == txo
    ensures r.outpoint == txo.outpoint && r.satoshis == txo.satoshis && r.script == txo.script &&
      r.owner == txo.owner && r.spend == txo.spend && r.block == txo.block
  {
    if !Checked(txo) then txo
    else
      var t := TokenOf(txo).value;
      var ins := InputsOf(pool, IdKey(t));
      var e := txo.data[Tag];
      txo.(data := txo.data[Tag := e.(deps := e.deps + OutpointsOf(ins), item := Bsv21Item(Inherit(t, ins)))])
  }

  lemma EnrichAt(txo: Txo, pool: Pool)
    requires Checked(txo)
    ensures var r := Enrich(txo, pool);
      var t := TokenOf(txo).value;
      var ins := InputsOf(pool, IdKey(t));
      Checked(r) && TokenOf(r) == Some(Inherit(t, ins)) && IdKey(TokenOf(r).value) == IdKey(t) &&
      r.data[Tag].deps == txo.data[Tag].deps + OutpointsOf(ins) &&
      r.data[Tag].events == txo.data[Tag].events
  {
  }

  /** A checked output's fate, shared by all outputs of its id: short ids make it
      invalid with the reason, an event for it; otherwise it becomes valid and logs the
      token's events again. */
  function Settle(txo: Txo, reasons: set<string>): (r: Txo)
    ensures !Checked(txo) ==> r == txo
    ensures r.outpoint == txo.outpoint && r.satoshis == txo.satoshis && r.script == txo.script &&
      r.owner == txo.owner && r.spend == txo.spend && r.block == txo.block
  {
    if !Checked(txo) then txo
    else
      var t := TokenOf(txo).value;
      var e := txo.data[Tag];
      if IdKey(t) in reasons then
        txo.(data := txo.data[Tag := e.(events := e.events + [EventLog(ReasonEvent, InsufficientInputs)],
                                        item := Bsv21Item(t.(status := Invalid, reason := InsufficientInputs)))])
      else
        txo.(data := txo.data[Tag := e.(events := e.events + TokenEvents(t),
                                        item := Bsv21Item(t.(status := Valid)))])
  }

  lemma SettleAt(txo: Txo, reasons: set<string>)
    requires Checked(txo)
    ensures var r := Settle(txo, reasons);
      var t := TokenOf(txo).value;
      r.data[Tag].deps == txo.data[Tag].deps &&
      (IdKey(t) in reasons ==>
        TokenOf(r) == Some(t.(status := Invalid, reason := InsufficientInputs)) &&
        r.data[Tag].events == txo.data[Tag].events + [EventLog(ReasonEvent, InsufficientInputs)]) &&
      (IdKey(t) !in reasons ==>
        TokenOf(r) == Some(t.(status := Valid)) &&
        r.data[Tag].events == txo.data[Tag].events + TokenEvents(t))
  {
  }

  /** Some input carries a "bsv21" entry that is not a token. */
  predicate Panics(spends: seq<Txo>) {
    exists i :: 0 <= i < |spends| && Malformed(spends[i])
  }

  /** Every output settled against a ledger of the whole transaction. */
  function SettleAll(txos: seq<Txo>, pool: Pool, reasons: set<string>): (r: seq<Txo>)
    ensures |r| == |txos|
    ensures forall j :: 0 <= j < |txos| && !Checked(txos[j]) ==> r[j] == txos[j]
  {
    seq(|txos|, j requires 0 <= j < |txos| => Settle(Enrich(txos[j], pool), reasons))
  }

  /** What `Save` leaves behind: every checked output enriched and settled against the
      ledger of the whole transaction, everything else as it was; nothing when an input
      entry is malformed. */
  function Settlement(g: BitcomScan.Variant, ctx: IndexContext): (r: Option<IndexContext>)
    ensures r.None? <==> Panics(ctx.spends)
    ensures r.Some? ==>
      r.value.txid == ctx.txid && r.value.block == ctx.block && r.value.spends == ctx.spends &&
      r.value.inputs == ctx.inputs && |r.value.txos| == |ctx.txos|
    ensures r.Some? ==> forall j :: 0 <= j < |ctx.txos| && !Checked(ctx.txos[j]) ==>
      r.value.txos[j] == ctx.txos[j]
  {
    if Panics(ctx.spends) then None
    else
      var pool := Collect(ctx.spends);
      Some(ctx.(txos := SettleAll(ctx.txos, pool, Check(g, pool.balance, ctx.txos).reasons)))
  }

  /** One input of the pass over the inputs: a valid token is added to its id. */
  method DepositStep(pool: Pool, spend: Txo) returns (r: Pool)
    requires Tag in spend.data && spend.data[Tag].item.Bsv21Item?
    ensures r == Deposit(pool, spend)
  {
    var t := spend.data[Tag].item.bsv21;
    r := pool;
    if t.status == Valid {
      var id := ToString(t.id);
      if id !in r.inputs {
        r := r.(inputs := r.inputs[id := []]);
      }
      var bal := if id in r.balance then r.balance[id] else 0;
      r := Pool(r.balance[id := Wrap64(bal + t.amt)], r.inputs[id := r.inputs[id] + [Input(spend, t)]]);
    }
  }

  /** The pass over the inputs: a malformed token entry panics. */
  method GatherInputs(spends: seq<Txo>) returns (r: Option<Pool>)
    ensures r.None? <==> Panics(spends)
    ensures r.Some? ==> r.value == Collect(spends)
  {
    var pool := EmptyPool;
    var i := 0;
    while i < |spends|
      invariant 0 <= i <= |spends|
      invariant pool == Collect(spends[..i])
      invariant forall k :: 0 <= k < i ==> !Malformed(spends[k])
    {
      var spend := spends[i];
      assert spends[..i + 1][..i] == spends[..i];
      if Tag in spend.data {
        if !spend.data[Tag].item.Bsv21Item? {
          assert Malformed(spends[i]);
          return None;
        }
        pool := DepositStep(pool, spend);
      }
      i := i + 1;
    }
    assert spends[..i] == spends;
    r := Some(pool);
  }

  /** The test and debit of one checked output. */
  method CheckStep(g: BitcomScan.Variant, balance: map<string, uint64>, reasons: set<string>, txo: Txo)
    returns (balance': map<string, uint64>, reasons': set<string>)
    requires Checked(txo)
    ensures Ledger(balance', reasons') == CheckOne(g, Ledger(balance, reasons), txo)
  {
    var t := TokenOf(txo).value;
    var id := ToString(t.id);
    reasons' := reasons;
    if id !in balance || balance[id] < t.amt {
      reasons' := reasons + {id};
    }
    var d := if g == BitcomScan.AsWritten then txo.satoshis else t.amt;
    balance' := balance[id := Wrap64(BalanceOf(balance, id) - d)];
  }

  /** The pass over the outputs: each checked output is tested against, and debited
      from, its id's running balance, and gains its id's inputs. */
  method CheckOutputs(g: BitcomScan.Variant, pool: Pool, txos: seq<Txo>)
    returns (l: Ledger, out: seq<Txo>)
    ensures l == Check(g, pool.balance, txos)
    ensures |out| == |txos| && forall k :: 0 <= k < |txos| ==> out[k] == Enrich(txos[k], pool)
  {
    var balance: map<string, uint64> := pool.balance;
    var reasons: set<string> := {};
    out := txos;
    var j := 0;
    while j < |txos|
      invariant 0 <= j <= |txos| == |out|
      invariant Ledger(balance, reasons) == Check(g, pool.balance, txos[..j])
      invariant forall k :: 0 <= k < j ==> out[k] == Enrich(txos[k], pool)
      invariant forall k :: j <= k < |txos| ==> out[k] == txos[k]
    {
      var txo := txos[j];
      assert txos[..j + 1][..j] == txos[..j];
      if Checked(txo) {
        balance, reasons := CheckStep(g, balance, reasons, txo);
        out := out[j := Enrich(txo, pool)];
      }
      j := j + 1;
    }
    assert txos[..j] == txos;
    l := Ledger(balance, reasons);
  }

  /** The settling pass. The source walks the outputs grouped by token id, in map
      order; each output is visited once and reads only its own id's reason, so the
      walk in output order leaves the same outputs. */
  method SettleOutputs(txos: seq<Txo>, reasons: set<string>) returns (out: seq<Txo>)
    ensures |out| == |txos| && forall k :: 0 <= k < |txos| ==> out[k] == Settle(txos[k], reasons)
  {
    out := txos;
    var k := 0;
    while k < |out|
      invariant 0 <= k <= |out| == |txos|
      invariant forall m :: 0 <= m < k ==> out[m] == Settle(txos[m], reasons)
      invariant forall m :: k <= m < |out| ==> out[m] == txos[m]
    {
      out := out[k := Settle(out[k], reasons)];
      k := k + 1;
    }
  }

  /** `Bsv21Indexer.Save`: the three passes over the transaction. */
  method Save(g: BitcomScan.Variant, ctx: IndexContext) returns (r: Option<IndexContext>)
    ensures r == Settlement(g, ctx)
  {
    var pool := GatherInputs(ctx.spends);
    if pool.None? {
      return None;
    }
    var l, enriched := CheckOutputs(g, pool.value, ctx.txos);
    var settled := SettleOutputs(enriched, l.reasons);
    assert settled == SettleAll(ctx.txos, pool.value, l.reasons);
    r := Some(ctx.(txos := settled));
  }

  /** The fate of one checked output: its dependencies gain the inputs of its id in
      input order, it inherits symbol, icon and contract from the last of them, and it
      is invalid with the reason exactly when its id was found short, valid otherwise;
      its events only grow. */
  lemma Fate(g: BitcomScan.Variant, ctx: IndexContext, j: nat)
    requires !Panics(ctx.spends) && j < |ctx.txos| && Checked(ctx.txos[j])
    ensures var txo := ctx.txos[j];
      var t := TokenOf(txo).value;
      var funding := Funding(ctx.spends, IdKey(t));
      var short := IdKey(t) in Check(g, Collect(ctx.spends).balance, ctx.txos).reasons;
      var out := Settlement(g, ctx).value.txos[j];
      Checked(out) &&
      out.data[Tag].deps == txo.data[Tag].deps + OutpointsOf(funding) &&
      txo.data[Tag].events <= out.data[Tag].events &&
      TokenOf(out).value.status == (if short then Invalid else Valid) &&
      TokenOf(out).value.id == t.id && TokenOf(out).value.amt == t.amt &&
      TokenOf(out).value.op == t.op &&
      (short ==> TokenOf(out).value.reason == InsufficientInputs &&
                 out.data[Tag].events == txo.data[Tag].events + [EventLog(ReasonEvent, InsufficientInputs)]) &&
      (!short ==> out.data[Tag].events == txo.data[Tag].events + TokenEvents(TokenOf(out).value.(status := t.status))) &&
      TokenOf(out).value.(status := t.status, reason := t.reason) == Inherit(t, funding)
  {
    var txo := ctx.txos[j];
    var t := TokenOf(txo).value;
    var pool := Collect(ctx.spends);
    CollectFunding(ctx.spends, IdKey(t));
    EnrichAt(txo, pool);
    SettleAt(Enrich(txo, pool), Check(g, pool.balance, ctx.txos).reasons);
  }

  /** The status of an output's token; an output without one counts as pending. */
  function StatusOf(txo: Txo): int {
    if TokenOf(txo).Some? then TokenOf(txo).value.status else Pending
  }

  /** All checked outputs of one id share a fate. */
  lemma SharedFate(g: BitcomScan.Variant, ctx: IndexContext, j1: nat, j2: nat)
    requires !Panics(ctx.spends) && j1 < |ctx.txos| && j2 < |ctx.txos|
    requires Checked(ctx.txos[j2]) && CheckedOf(ctx.txos[j1], IdKey(TokenOf(ctx.txos[j2]).value))
    ensures StatusOf(Settlement(g, ctx).value.txos[j1]) == StatusOf(Settlement(g, ctx).value.txos[j2])
  {
    Fate(g, ctx, j1);
    Fate(g, ctx, j2);
  }

  /** With the intended debit, an output of an id ends valid exactly when the id has
      valid inputs and the token amounts its outputs claim fit within what they hold. */
  lemma Conservation(ctx: IndexContext, j: nat)
    requires !Panics(ctx.spends) && j < |ctx.txos| && Checked(ctx.txos[j])
    ensures var id := IdKey(TokenOf(ctx.txos[j]).value);
      StatusOf(Settlement(BitcomScan.Intended, ctx).value.txos[j]) == Valid <==>
      Funding(ctx.spends, id) != [] &&
      CheckedAmount(ctx.txos, id) <= Wrap64(AmountSum(Funding(ctx.spends, id)))
  {
    var id := IdKey(TokenOf(ctx.txos[j]).value);
    Fate(BitcomScan.Intended, ctx, j);
    CollectFunding(ctx.spends, id);
    CheckConserves(Collect(ctx.spends).balance, ctx.txos, id);
    HasCheckedAt(ctx.txos, j, id);
  }

  /** A spent output holding a valid token of `id` with amount `amt`. */
  function FundingInput(op: Outpoint, id: Outpoint, amt: uint64): Txo {
    Txo(op, 1, [], Block(0, 0, []), None, None,
        map[Tag := Entry(Bsv21Item(Bsv21(id, Transfer, amt, 0, "", None, "", Valid, "")), [])])
  }

  /** A one-satoshi output transferring `amt` of `id`, pending. */
  function TransferOutput(op: Outpoint, id: Outpoint, amt: uint64): Txo {
    Txo(op, 1, [], Block(0, 0, []), None, None,
        map[Tag := Entry(Bsv21Item(Bsv21(id, Transfer, amt, 0, "", None, "", Pending, "")), [])])
  }

  /** The pool of a single 1000-token input. */
  lemma SingleFunding(a: Outpoint, id: Outpoint)
    ensures var bal := Collect([FundingInput(a, id, 1000)]).balance;
      ToString(id) in bal && bal[ToString(id)] == 1000
  {
    var s0 := FundingInput(a, id, 1000);
    assert TokenOf(s0).value.amt == 1000 && Funds(s0, ToString(id));
    assert [s0][..0] == [];
    assert Collect([s0]) == Deposit(EmptyPool, s0);
    DepositAt(EmptyPool, s0, ToString(id));
    assert BalanceOf(EmptyPool.balance, ToString(id)) == 0;
  }

  lemma TwoTransfers(b: Outpoint, c: Outpoint, id: Outpoint)
    ensures var t1 := TransferOutput(b, id, 400);
      var t2 := TransferOutput(c, id, 700);
      CheckedOf(t1, ToString(id)) && TokenOf(t1).value.amt == 400 && t1.satoshis == 1 &&
      CheckedOf(t2, ToString(id)) && TokenOf(t2).value.amt == 700 && t2.satoshis == 1 &&
      CheckedAmount([t1, t2], ToString(id)) == 1100
  {
    var t1 := TransferOutput(b, id, 400);
    var t2 := TransferOutput(c, id, 700);
    assert CheckedOf(t1, ToString(id)) && TokenOf(t1).value.amt == 400;
    assert CheckedOf(t2, ToString(id)) && TokenOf(t2).value.amt == 700;
    assert [t1, t2][..1] == [t1] && [t1][..0] == [];
    assert CheckedAmount([t1], ToString(id)) == 400;
  }

  /** One input holding 1000 tokens funds two one-satoshi transfers of 400 and 700, so
      1100 tokens are claimed. Debited by satoshis, as written, the balance only falls
      1000, 999, 998, and neither transfer is found short. */
  lemma OverspendAccepted(a: Outpoint, b: Outpoint, c: Outpoint, id: Outpoint)
    ensures var txos := [TransferOutput(b, id, 400), TransferOutput(c, id, 700)];
      var bal := Collect([FundingInput(a, id, 1000)]).balance;
      CheckedAmount(txos, ToString(id)) == 1100 &&
      Check(BitcomScan.AsWritten, bal, txos).reasons == {}
  {
    var key := ToString(id);
    var t1 := TransferOutput(b, id, 400);
    var t2 := TransferOutput(c, id, 700);
    SingleFunding(a, id);
    TwoTransfers(b, c, id);
    var bal := Collect([FundingInput(a, id, 1000)]).balance;
    var l0 := Ledger(bal, {});
    assert [t1, t2][..1] == [t1] && [t1][..0] == [];
    CheckOneAt(BitcomScan.AsWritten, l0, t1, key);
    var l1 := CheckOne(BitcomScan.AsWritten, l0, t1);
    assert l1.balance[key] == 999 && l1.reasons == {};
    assert Check(BitcomScan.AsWritten, bal, [t1]) == l1;
    CheckOneAt(BitcomScan.AsWritten, l1, t2, key);
  }

  /** The same transaction debited by token amount: the second transfer finds 600 left
      and the id is short. */
  lemma OverspendRefused(a: Outpoint, b: Outpoint, c: Outpoint, id: Outpoint)
    ensures var txos := [TransferOutput(b, id, 400), TransferOutput(c, id, 700)];
      var bal := Collect([FundingInput(a, id, 1000)]).balance;
      Check(BitcomScan.Intended, bal, txos).reasons == {ToString(id)}
  {
    var key := ToString(id);
    var t1 := TransferOutput(b, id, 400);
    var t2 := TransferOutput(c, id, 700);
    SingleFunding(a, id);
    TwoTransfers(b, c, id);
    var bal := Collect([FundingInput(a, id, 1000)]).balance;
    var l0 := Ledger(bal, {});
    assert [t1, t2][..1] == [t1] && [t1][..0] == [];
    CheckOneAt(BitcomScan.Intended, l0, t1, key);
    var l1 := CheckOne(BitcomScan.Intended, l0, t1);
    assert l1.balance[key] == 600 && l1.reasons == {};
    assert Check(BitcomScan.Intended, bal, [t1]) == l1;
    CheckOneAt(BitcomScan.Intended, l1, t2, key);
  }
}
