/** The B protocol section of a Bitcom script (mod/bitcom/b.go): up to four pushes,
    content, media type, encoding and file name, read until the section ends. */
module BitcomB {
  import opened Base
  import opened Prims
  import opened Parser
  import opened Records
  import opened Txos
  import opened BitcomSection

  /** The key the B analyzer stores its entry under. */
  const BTag: string := "b"

  /** The fields the pushes `ds` fill in: content, media type, encoding and name, a
      missing push leaving its field empty; hash and size are not yet set. */
  function FieldsOf(ds: seq<Bytes>): File {
    File([], 0, Str(Nth(ds, 1)), Nth(ds, 0), Str(Nth(ds, 2)), Str(Nth(ds, 3)))
  }

  /** The file `ParseB(s, &idx)` builds from the pushes read at `idx`, and the cursor it
      leaves. The size is the content length truncated to 32 bits, as `uint32(len(...))`
      does. */
  function ParseBSpec(p: Prims, s: Bytes, idx: nat): (r: (File, nat))
    ensures idx <= r.1
  {
    var ds := Pushes(s, idx, 4);
    var f := FieldsOf(ds.0);
    (f.(hash := p.sha256(f.content), size := Wrap32(|f.content|)), ds.1)
  }

  method ParseB(p: Prims, s: Bytes, idx: nat) returns (b: File, next: nat)
    ensures (b, next) == ParseBSpec(p, s, idx)
  {
    next := idx;
    b := EmptyFile;
    ghost var got: seq<Bytes> := [];
    ghost var stopped := false;
    ReadingStart(s, idx, 4);
    var i := 0;
    while i < 4
      invariant 0 <= i <= 4 && |got| == i
      invariant Reading(s, idx, 4, got, next, 4 - i)
      invariant b == FieldsOf(got)
    {
      var d, after, ends := NextPush(s, next, idx, 4, got, 4 - i);
      if ends {
        stopped := true;
        break;
      }
      b := SetField(b, i, d, got);
      got := got + [d];
      next := after;
      i := i + 1;
    }
    if !stopped {
      ReadingDone(s, idx, 4, got, next);
    }
    assert (got, next) == Pushes(s, idx, 4);
    assert b == FieldsOf(Pushes(s, idx, 4).0);
    var hash := p.sha256(b.content);
    b := b.(size := Wrap32(|b.content|), hash := hash);
  }

  /** The `i`-th push stored into its field. */
  method SetField(b: File, i: nat, d: Bytes, ghost got: seq<Bytes>) returns (r: File)
    requires i == |got| < 4 && b == FieldsOf(got)
    ensures r == FieldsOf(got + [d])
  {
    ghost var all := got + [d];
    assert all[i] == d;
    if i == 0 {
      r := b.(content := d);
    } else if i == 1 {
      r := b.(mimeType := Str(d));
    } else if i == 2 {
      r := b.(encoding := Str(d));
    } else {
      r := b.(name := Str(d));
    }
    assert forall k :: 0 <= k < i ==> all[k] == got[k];
  }

  /** `BFile.Parse`: the B file of the output's Bitcom record, or nothing when the
      output has no Bitcom record or the record holds no file. */
  function Parse(ctx: IndexContext, vout: nat): (r: ParseResult)
    ensures r.ctx == ctx
    ensures r.data.Some? <==>
      vout < |ctx.txos| && BitcomOf(ctx.txos[vout]).Some? && BitcomOf(ctx.txos[vout]).value.b.Some?
    ensures r.data.Some? ==> r.data.value == Entry(FileItem(BitcomOf(ctx.txos[vout]).value.b.value), [])
  {
    if vout < |ctx.txos| then
      match BitcomOf(ctx.txos[vout])
      case Some(bc) =>
        (match bc.b
         case Some(f) => ParseResult(Some(Entry(FileItem(f), [])), ctx)
         case None => ParseResult(None, ctx))
      case None => ParseResult(None, ctx)
    else ParseResult(None, ctx)
  }

  // ---------------------------------------------------------------------------
  // Properties

  /** The pushes a B section of file `f` consists of. */
  function Section(f: File): (ds: seq<Bytes>)
    requires IsByteText(f.mimeType) && IsByteText(f.encoding) && IsByteText(f.name)
  {
    [f.content, Ascii(f.mimeType), Ascii(f.encoding), Ascii(f.name)]
  }

  /** A file whose four fields are read in order is read back exactly, with its size
      and hash recomputed, and the cursor is left after the fourth push. By
      `BitcomSection.EncodedPushedAt`, this holds wherever the four pushes are written. */
  lemma RoundTrip(p: Prims, s: Bytes, idx: nat, f: File, end: nat)
    requires IsByteText(f.mimeType) && IsByteText(f.encoding) && IsByteText(f.name)
    requires PushedAt(s, idx, Section(f), end)
    requires f.hash == p.sha256(f.content) && f.size == |f.content|
    ensures ParseBSpec(p, s, idx) == (f, end)
  {
    FourPushes(p, s, idx, Section(f), end);
    StrAscii(f.mimeType);
    StrAscii(f.encoding);
    StrAscii(f.name);
  }

  /** Four pushes laid out at the cursor are the four fields, in order. */
  lemma FourPushes(p: Prims, s: Bytes, idx: nat, ds: seq<Bytes>, end: nat)
    requires PushedAt(s, idx, ds, end) && |ds| == 4 && |ds[0]| < U32
    ensures ParseBSpec(p, s, idx) ==
      (File(p.sha256(ds[0]), |ds[0]|, Str(ds[1]), ds[0], Str(ds[2]), Str(ds[3])), end)
  {
    PushesRoundTrip(s, idx, ds, 4, end);
    assert FieldsOf(ds) == File([], 0, Str(ds[1]), ds[0], Str(ds[2]), Str(ds[3]));
  }

  /** Fields that are not pushed because the section ends early come back empty. */
  lemma ShortSection(p: Prims, s: Bytes, idx: nat)
    requires EndsSection(Decode(s, idx))
    ensures ParseBSpec(p, s, idx) == (File(p.sha256([]), 0, "", [], "", ""), idx)
  {
    PushesAtEnd(s, idx, 4);
  }
}
