/** The SIGMA protocol section of a Bitcom script (mod/bitcom/sigma.go): algorithm,
    signing address, signature and input index, and a check that the signature covers
    the chosen input and every byte of the script before the section's separator. */
module BitcomSigma {
  import opened Base
  import opened Prims
  import opened Parser
  import opened Outpoints
  import opened Records
  import opened Txos
  import opened BitcomSection

  /** The key the SIGMA analyzer stores its entry under. */
  const SigmaTag: string := "sigma"
  const AddressEvent: string := "address"

  /** The input index pushed as decimal text (`strconv.ParseInt(.., 10, 32)` converted
      to `uint32`, so a negative value wraps around); 0 when it does not parse. */
  function VinOf(d: Bytes): (v: uint32)
    ensures ParseInt(Str(d), 32).None? ==> v == 0
  {
    match ParseInt(Str(d), 32)
    case Some(n) => Wrap32(n)
    case None => 0
  }

  /** The signature fields from the pushes read, a missing push leaving its field empty. */
  function SigmaOf(ds: seq<Bytes>): Sigma {
    Sigma(Str(Nth(ds, 0)), Str(Nth(ds, 1)), Nth(ds, 2), if |ds| > 3 then VinOf(ds[3]) else 0)
  }

  /** The bytes that name the signed input: its source txid followed by its source
      output index, little-endian; nothing when the index is out of range. */
  function InputPreimage(inputs: seq<Outpoint>, vin: uint32): (r: Option<Bytes>)
    ensures r.Some? <==> vin < |inputs|
    ensures r.Some? ==> r.value == inputs[vin].txid + LE32(inputs[vin].vout)
  {
    if vin < |inputs| then Some(inputs[vin].txid + LE32(inputs[vin].vout)) else None
  }

  /** The part of the script the signature covers: everything before the OP_RETURN, or
      before the one-byte '|' push, that precedes the section's "SIGMA" push at
      `startIdx`; nothing when neither precedes it. */
  function SignedPrefix(s: Bytes, startIdx: nat): (r: Option<Bytes>)
    requires 1 <= startIdx <= |s|
    ensures r.Some? ==> HasPrefix(s, r.value) && |r.value| < startIdx
    ensures s[startIdx - 1] == OP_RETURN ==> r == Some(s[..startIdx - 1])
    ensures r.Some? && s[startIdx - 1] != OP_RETURN ==>
      s[startIdx - 1] == PipeByte && |r.value| == startIdx - 2
  {
    if s[startIdx - 1] == OP_RETURN then Some(s[..startIdx - 1])
    else if s[startIdx - 1] == PipeByte && startIdx >= 2 then Some(s[..startIdx - 2])
    else None
  }

  /** The message signed: SHA-256 of the input's hash followed by the prefix's hash. */
  function MessageHash(p: Prims, preimage: Bytes, prefix: Bytes): Bytes {
    p.sha256(p.sha256(preimage) + p.sha256(prefix))
  }

  /** The check after the pushes: the signature is kept when its input exists, the
      section follows a separator, and the address verifies it over the message. An
      input index out of range, or a '|' at the very start of the script, makes the
      source panic; the model keeps no signature for them. */
  function CheckSigma(p: Prims, s: Bytes, inputs: seq<Outpoint>, startIdx: nat, sig: Sigma)
    : (r: Option<Sigma>)
    requires 1 <= startIdx <= |s|
    ensures r.Some? ==> r.value == sig
    ensures r.Some? <==>
      && sig.vin < |inputs| && SignedPrefix(s, startIdx).Some?
      && p.verifyMessage(sig.address, sig.signature,
           MessageHash(p, InputPreimage(inputs, sig.vin).value, SignedPrefix(s, startIdx).value))
  {
    match InputPreimage(inputs, sig.vin)
    case None => None
    case Some(pre) =>
      match SignedPrefix(s, startIdx)
      case None => None
      case Some(prefix) =>
        if p.verifyMessage(sig.address, sig.signature, MessageHash(p, pre, prefix))
        then Some(sig) else None
  }

  /** What `ParseSigma(ctx, vout, startIdx, &idx)` computes for the output script `s`
      and the transaction's inputs: the signature read when it verifies, and the cursor
      after the pushes read. */
  function ParseSigmaSpec(p: Prims, s: Bytes, inputs: seq<Outpoint>, startIdx: nat, idx: nat)
    : (r: (Option<Sigma>, nat))
    requires 1 <= startIdx <= |s|
    ensures idx <= r.1
  {
    var ds := Pushes(s, idx, 4);
    (CheckSigma(p, s, inputs, startIdx, SigmaOf(ds.0)), ds.1)
  }

  method ParseSigma(p: Prims, s: Bytes, inputs: seq<Outpoint>, startIdx: nat, idx: nat)
    returns (sigma: Option<Sigma>, next: nat)
    requires 1 <= startIdx <= |s|
    ensures (sigma, next) == ParseSigmaSpec(p, s, inputs, startIdx, idx)
  {
    var sig: Sigma;
    sig, next := ReadFields(s, idx);
    sigma := Verify(p, s, inputs, startIdx, sig);
  }

  /** The loop of `ParseSigma`: up to four pushes into the four fields. */
  method ReadFields(s: Bytes, idx: nat) returns (sig: Sigma, next: nat)
    ensures (sig, next) == (SigmaOf(Pushes(s, idx, 4).0), Pushes(s, idx, 4).1)
  {
    next := idx;
    sig := Sigma("", "", [], 0);
    ghost var got: seq<Bytes> := [];
    ghost var stopped := false;
    ReadingStart(s, idx, 4);
    var i := 0;
    while i < 4
      invariant 0 <= i <= 4 && |got| == i
      invariant Reading(s, idx, 4, got, next, 4 - i)
      invariant sig == SigmaOf(got)
    {
      var d, after, ends := NextPush(s, next, idx, 4, got, 4 - i);
      if ends {
        stopped := true;
        break;
      }
      sig := SetField(sig, i, d, got);
      got := got + [d];
      next := after;
      i := i + 1;
    }
    if !stopped {
      ReadingDone(s, idx, 4, got, next);
    }
  }

  /** The `i`-th push stored into its field. */
  method SetField(sig: Sigma, i: nat, d: Bytes, ghost got: seq<Bytes>) returns (r: Sigma)
    requires i == |got| < 4 && sig == SigmaOf(got)
    ensures r == SigmaOf(got + [d])
  {
    ghost var all := got + [d];
    assert all[i] == d;
    if i == 0 {
      r := sig.(algorithm := Str(d));
    } else if i == 1 {
      r := sig.(address := Str(d));
    } else if i == 2 {
      r := sig.(signature := d);
    } else {
      r := sig.(vin := VinOf(d));
    }
    assert forall k :: 0 <= k < i ==> all[k] == got[k];
  }

  /** The check after the loop of `ParseSigma`. */
  method Verify(p: Prims, s: Bytes, inputs: seq<Outpoint>, startIdx: nat, sig: Sigma)
    returns (sigma: Option<Sigma>)
    requires 1 <= startIdx <= |s|
    ensures sigma == CheckSigma(p, s, inputs, startIdx, sig)
  {
    sigma := None;
    if sig.vin >= |inputs| {
      return;
    }
    var preimage := inputs[sig.vin].txid + LE32(inputs[sig.vin].vout);
    var prefix: Bytes;
    if s[startIdx - 1] == OP_RETURN {
      prefix := s[..startIdx - 1];
    } else if s[startIdx - 1] == PipeByte && startIdx >= 2 {
      prefix := s[..startIdx - 2];
    } else {
      return;
    }
    var msgHash := p.sha256(p.sha256(preimage) + p.sha256(prefix));
    if !p.verifyMessage(sig.address, sig.signature, msgHash) {
      return;
    }
    sigma := Some(sig);
  }

  /** The set of signing addresses. */
  function Addresses(sigmas: seq<Sigma>): set<string> {
    set i | 0 <= i < |sigmas| :: sigmas[i].address
  }

  /** The addresses of `sigmas`, each once, in order of first appearance. */
  function DistinctAddresses(sigmas: seq<Sigma>): (r: seq<string>)
    ensures forall a :: a in r <==> a in Addresses(sigmas)
    ensures forall i, j :: 0 <= i < j < |r| ==> r[i] != r[j]
  {
    if sigmas == [] then []
    else
      var init := DistinctAddresses(sigmas[..|sigmas| - 1]);
      var a := sigmas[|sigmas| - 1].address;
      assert Addresses(sigmas) == Addresses(sigmas[..|sigmas| - 1]) + {a} by {
        var front := sigmas[..|sigmas| - 1];
        forall b | b in Addresses(sigmas) ensures b in Addresses(front) + {a} {
          var i :| 0 <= i < |sigmas| && sigmas[i].address == b;
          if i < |front| {
            assert front[i] == sigmas[i];
          }
        }
        forall b | b in Addresses(front) ensures b in Addresses(sigmas) {
          var i :| 0 <= i < |front| && front[i].address == b;
          assert sigmas[i] == front[i];
        }
      }
      if a in init then init else init + [a]
  }

  function AddressEvents(addresses: seq<string>): (r: seq<EventLog>)
    ensures |r| == |addresses|
    ensures forall i :: 0 <= i < |r| ==> r[i] == EventLog(AddressEvent, addresses[i])
  {
    if addresses == [] then [] else [EventLog(AddressEvent, addresses[0])] + AddressEvents(addresses[1..])
  }

  /** `Sigmas.Parse`: the signatures of the output's Bitcom record when there is at least
      one, with exactly one "address" event per distinct signing address. Go visits the
      address set in an unspecified order; the model emits them in order of first
      appearance. */
  function Parse(ctx: IndexContext, vout: nat): (r: ParseResult)
    ensures r.ctx == ctx
    ensures r.data.Some? <==> vout < |ctx.txos| && BitcomOf(ctx.txos[vout]).Some?
                              && |BitcomOf(ctx.txos[vout]).value.sigmas| > 0
    ensures r.data.Some? ==>
      var sigmas := BitcomOf(ctx.txos[vout]).value.sigmas;
      var events := r.data.value.events;
      && r.data.value.item == SigmasItem(sigmas)
      && (forall i :: 0 <= i < |events| ==> events[i].name == AddressEvent)
      && (set i | 0 <= i < |events| :: events[i].value) == Addresses(sigmas)
      && (forall i, j :: 0 <= i < j < |events| ==> events[i] != events[j])
  {
    if vout < |ctx.txos| && BitcomOf(ctx.txos[vout]).Some?
       && |BitcomOf(ctx.txos[vout]).value.sigmas| > 0 then
      var sigmas := BitcomOf(ctx.txos[vout]).value.sigmas;
      var addresses := DistinctAddresses(sigmas);
      var events := AddressEvents(addresses);
      assert (set i | 0 <= i < |events| :: events[i].value) == Addresses(sigmas) by {
        forall a | a in Addresses(sigmas)
          ensures a in (set i | 0 <= i < |events| :: events[i].value)
        {
          var k :| 0 <= k < |addresses| && addresses[k] == a;
          assert events[k].value == a;
        }
      }
      ParseResult(Some(Entry(SigmasItem(sigmas), events)), ctx)
    else ParseResult(None, ctx)
  }

  // ---------------------------------------------------------------------------
  // Properties

  /** Four pushes laid out at the cursor become the four fields, in order. */
  lemma FourPushes(s: Bytes, idx: nat, ds: seq<Bytes>, end: nat)
    requires PushedAt(s, idx, ds, end) && |ds| == 4
    ensures Pushes(s, idx, 4) == (ds, end)
    ensures SigmaOf(Pushes(s, idx, 4).0) == Sigma(Str(ds[0]), Str(ds[1]), ds[2], VinOf(ds[3]))
  {
    PushesRoundTrip(s, idx, ds, 4, end);
  }

  /** An input index below 2^31 pushed as decimal text reads back as itself. */
  lemma VinRoundTrip(vin: nat)
    requires vin < 0x8000_0000
    ensures IsByteText(FormatDecimal(vin))
    ensures VinOf(Ascii(FormatDecimal(vin))) == vin
  {
    var digits := FormatDecimal(vin);
    assert forall i :: 0 <= i < |digits| ==> IsDigit(digits[i]);
    StrAscii(digits);
    Pow2Of31();
    FormatDecimalParseInt(vin, 32);
  }

  /** Round trip: a section pushing the algorithm, the address, the signature and the
      decimal input index is read back as that signature exactly when it verifies. */
  lemma RoundTrip(p: Prims, s: Bytes, inputs: seq<Outpoint>, startIdx: nat, idx: nat,
                  sig: Sigma, end: nat)
    requires 1 <= startIdx <= |s|
    requires IsByteText(sig.algorithm) && IsByteText(sig.address) && sig.vin < 0x8000_0000
    requires IsByteText(FormatDecimal(sig.vin))
    requires PushedAt(s, idx, [Ascii(sig.algorithm), Ascii(sig.address), sig.signature,
                               Ascii(FormatDecimal(sig.vin))], end)
    ensures ParseSigmaSpec(p, s, inputs, startIdx, idx) == (CheckSigma(p, s, inputs, startIdx, sig), end)
  {
    VinRoundTrip(sig.vin);
    FourPushes(s, idx, [Ascii(sig.algorithm), Ascii(sig.address), sig.signature,
                        Ascii(FormatDecimal(sig.vin))], end);
    StrAscii(sig.algorithm);
    StrAscii(sig.address);
  }
}
