/** Shared vocabulary: bytes, optional values, fixed-width integer ranges, the byte-string
    helpers of Go's `bytes` and `strings` packages that the decoders use, and the decimal
    and hexadecimal text codecs of Go's `strconv`, `fmt` and `encoding/hex`.

    A Go `string` is a sequence of bytes. Where the model needs text it uses Dafny's
    `string` with every character below 256, one character per byte (`Str`, `Ascii`). */
module Base {

  type byte = x: int | 0 <= x < 256
  type Bytes = seq<byte>

  datatype Option<+T> = None | Some(value: T)

  const U32: nat := 0x1_0000_0000
  const U64: nat := 0x1_0000_0000_0000_0000

  type uint32 = x: int | 0 <= x < 0x1_0000_0000
  type uint64 = x: int | 0 <= x < 0x1_0000_0000_0000_0000

  /** Go's conversion to `uint32`: the value modulo 2^32 (in range, the value itself). */
  function Wrap32(n: int): (r: uint32)
    ensures 0 <= n < U32 ==> r == n
  {
    if 0 <= n < U32 then n else n % U32
  }

  /** Go's `uint64` arithmetic: the value modulo 2^64. */
  function Wrap64(n: int): (r: uint64)
    ensures 0 <= n < U64 ==> r == n
  {
    if 0 <= n < U64 then n else n % U64
  }

  /** A Go byte string viewed as text, one character per byte. */
  function Str(b: Bytes): (s: string)
    ensures |s| == |b|
    ensures forall i :: 0 <= i < |b| ==> s[i] as int == b[i]
  {
    if b == [] then [] else Str(b[..|b| - 1]) + [b[|b| - 1] as char]
  }

  predicate IsByteText(s: string) {
    forall i :: 0 <= i < |s| ==> s[i] as int < 256
  }

  /** The bytes of a text whose characters are all below 256 (Go's `[]byte(s)`). */
  function Ascii(s: string): (b: Bytes)
    requires IsByteText(s)
    ensures |b| == |s|
    ensures forall i :: 0 <= i < |s| ==> b[i] == s[i] as int
  {
    if s == [] then [] else Ascii(s[..|s| - 1]) + [s[|s| - 1] as int]
  }

  lemma StrAscii(s: string)
    requires IsByteText(s)
    ensures Str(Ascii(s)) == s
  {
  }

  lemma StrInjective(a: Bytes, b: Bytes)
    requires Str(a) == Str(b)
    ensures a == b
  {
    assert |a| == |b|;
    forall i | 0 <= i < |a| ensures a[i] == b[i] {
      assert Str(a)[i] == Str(b)[i];
    }
  }

  /** Little-endian unsigned integer of all the bytes of `b` (`encoding/binary`). */
  function LittleEndian(b: Bytes): (n: nat)
    ensures n < Pow256(|b|)
  {
    if b == [] then 0 else b[0] + 256 * LittleEndian(b[1..])
  }

  /** `binary.LittleEndian.AppendUint32`: the four little-endian bytes of `v`. */
  function LE32(v: uint32): (b: Bytes)
    ensures |b| == 4 && LittleEndian(b) == v
  {
    var q1 := v / 256;
    var q2 := q1 / 256;
    var q3 := q2 / 256;
    var b := [v % 256, q1 % 256, q2 % 256, q3];
    assert LittleEndian(b[3..]) == q3 by {
      assert b[3..][1..] == [];
    }
    assert LittleEndian(b[2..]) == q2 by {
      assert b[2..][1..] == b[3..];
    }
    assert LittleEndian(b[1..]) == q1 by {
      assert b[1..][1..] == b[2..];
    }
    b
  }

  /** The `w` little-endian bytes of `v`, the inverse of `LittleEndian`. */
  function LEBytes(v: nat, w: nat): (b: Bytes)
    requires v < Pow256(w)
    ensures |b| == w && LittleEndian(b) == v
  {
    if w == 0 then []
    else
      var rest := LEBytes(v / 256, w - 1);
      var b := [v % 256] + rest;
      assert b[1..] == rest;
      b
  }

  function Reverse<T>(s: seq<T>): (r: seq<T>)
    ensures |r| == |s|
    ensures forall i :: 0 <= i < |s| ==> r[i] == s[|s| - 1 - i]
  {
    if s == [] then [] else Reverse(s[1..]) + [s[0]]
  }

  lemma ReverseReverse<T>(s: seq<T>)
    ensures Reverse(Reverse(s)) == s
  {
  }

  function Pow256(k: nat): (p: nat)
    ensures p >= 1
  {
    if k == 0 then 1 else 256 * Pow256(k - 1)
  }

  lemma ConcatAssoc<T>(a: seq<T>, b: seq<T>, c: seq<T>)
    ensures a + (b + c) == (a + b) + c
  {
  }

  /** A window of `b` holding `x + y` holds `x` and then `y`. */
  lemma SliceSplit<T>(b: seq<T>, at: nat, x: seq<T>, y: seq<T>)
    requires at + |x + y| <= |b| && b[at..at + |x + y|] == x + y
    ensures b[at..at + |x|] == x && b[at + |x|..at + |x| + |y|] == y
  {
    var w := b[at..at + |x + y|];
    assert b[at..at + |x|] == w[..|x|];
    assert b[at + |x|..at + |x| + |y|] == w[|x|..];
  }

  /** Go's `bytes.HasPrefix` / `strings.HasPrefix`. */
  predicate HasPrefix<T(==)>(s: seq<T>, p: seq<T>) {
    |p| <= |s| && s[..|p|] == p
  }

  /** `t` occurs in `s` starting at `i`. */
  predicate OccursAt<T(==)>(s: seq<T>, t: seq<T>, i: nat) {
    i + |t| <= |s| && s[i..i + |t|] == t
  }

  /** Go's `bytes.Index`: the first position where `t` occurs in `s`, or None. */
  function IndexOf<T(==)>(s: seq<T>, t: seq<T>, from: nat := 0): (r: Option<nat>)
    requires from <= |s|
    ensures r.Some? ==> from <= r.value && OccursAt(s, t, r.value)
    ensures r.Some? ==> forall j :: from <= j < r.value ==> !OccursAt(s, t, j)
    ensures r.None? ==> forall j :: from <= j <= |s| ==> !OccursAt(s, t, j)
    decreases |s| - from
  {
    if OccursAt(s, t, from) then Some(from)
    else if from + |t| >= |s| then None
    else IndexOf(s, t, from + 1)
  }

  /** Go's `bytes.Contains`. */
  predicate Contains<T(==)>(s: seq<T>, t: seq<T>) {
    exists j :: 0 <= j <= |s| && OccursAt(s, t, j)
  }

  lemma IndexOfContains<T>(s: seq<T>, t: seq<T>)
    ensures IndexOf(s, t).Some? <==> Contains(s, t)
  {
  }

  /** The two forbidden markers the decoders test: a NUL byte and the six characters
      backslash-u-0-0-0-0 (Go's literal "\\u0000"). */
  const NulMarker: Bytes := [0]
  const EscapedNulMarker: Bytes := [0x5c, 0x75, 0x30, 0x30, 0x30, 0x30]

  predicate FreeOfNul(b: Bytes) {
    !Contains(b, NulMarker) && !Contains(b, EscapedNulMarker)
  }

  // ---------------------------------------------------------------------------
  // JSON whitespace (the bytes a `json.RawMessage` leaves off around a value)

  /** Space, tab, line feed or carriage return. */
  predicate IsJsonSpace(c: byte) {
    c == 0x20 || c == 0x09 || c == 0x0a || c == 0x0d
  }

  predicate AllJsonSpace(b: Bytes) {
    forall k :: 0 <= k < |b| ==> IsJsonSpace(b[k])
  }

  /** The first index from `i` on that holds no whitespace, or the end. */
  function SkipSpace(b: Bytes, i: nat): (r: nat)
    requires i <= |b|
    ensures i <= r <= |b| && AllJsonSpace(b[i..r])
    ensures r < |b| ==> !IsJsonSpace(b[r])
    decreases |b| - i
  {
    if i < |b| && IsJsonSpace(b[i]) then SkipSpace(b, i + 1) else i
  }

  /** The least index down from `j`, but not below `lo`, after which only whitespace
      comes before `j`. */
  function SkipSpaceBack(b: Bytes, lo: nat, j: nat): (r: nat)
    requires lo <= j <= |b|
    ensures lo <= r <= j && AllJsonSpace(b[r..j])
    ensures lo < r ==> !IsJsonSpace(b[r - 1])
    decreases j
  {
    if lo < j && IsJsonSpace(b[j - 1]) then
      var r := SkipSpaceBack(b, lo, j - 1);
      assert b[r..j] == b[r..j - 1] + [b[j - 1]];
      r
    else j
  }

  /** The bytes of a JSON text without the whitespace around its value, which is what
      `json.Unmarshal` stores into a `json.RawMessage`. */
  function TrimJsonSpace(b: Bytes): (r: Bytes)
    ensures |r| <= |b|
    ensures r != [] ==> !IsJsonSpace(r[0]) && !IsJsonSpace(r[|r| - 1])
    ensures r == [] <==> AllJsonSpace(b)
  {
    var i := SkipSpace(b, 0);
    var j := SkipSpaceBack(b, i, |b|);
    assert i < |b| ==> i < j by {
      if i < |b| { assert b[i..|b|][0] == b[i]; }
    }
    assert AllJsonSpace(b) ==> i == |b|;
    assert i == j ==> AllJsonSpace(b) by {
      if i == j { assert b[0..i] == b; }
    }
    b[i..j]
  }

  /** Whitespace around a value that neither starts nor ends with whitespace is exactly
      what is trimmed. */
  lemma {:induction false} TrimSurrounded(lead: Bytes, v: Bytes, trail: Bytes)
    requires AllJsonSpace(lead) && AllJsonSpace(trail)
    requires v != [] && !IsJsonSpace(v[0]) && !IsJsonSpace(v[|v| - 1])
    ensures TrimJsonSpace(lead + v + trail) == v
  {
    var b := lead + v + trail;
    SkipSpaceAt(b, 0, |lead|);
    SkipSpaceBackAt(b, |lead|, |lead| + |v|, |b|);
    assert b[|lead|..|lead| + |v|] == v;
  }

  lemma {:induction false} SkipSpaceAt(b: Bytes, i: nat, n: nat)
    requires i <= n < |b| && AllJsonSpace(b[i..n]) && !IsJsonSpace(b[n])
    ensures SkipSpace(b, i) == n
    decreases n - i
  {
    if i < n {
      assert b[i..n][0] == b[i];
      assert b[i + 1..n] == b[i..n][1..];
      SkipSpaceAt(b, i + 1, n);
    }
  }

  lemma {:induction false} SkipSpaceBackAt(b: Bytes, lo: nat, n: nat, j: nat)
    requires lo < n <= j <= |b| && AllJsonSpace(b[n..j]) && !IsJsonSpace(b[n - 1])
    ensures SkipSpaceBack(b, lo, j) == n
    decreases j
  {
    if n < j {
      assert b[n..j][j - 1 - n] == b[j - 1];
      assert b[n..j - 1] == b[n..j][..j - 1 - n];
      SkipSpaceBackAt(b, lo, n, j - 1);
    }
  }

  function LowerAscii(c: char): char {
    if 'A' <= c <= 'Z' then (c as int + 32) as char else c
  }

  /** Go's `strings.ToLower` on ASCII text, where it lower-cases the letters A-Z only. */
  function ToLower(s: string): (r: string)
    ensures |r| == |s|
    ensures forall i :: 0 <= i < |s| ==> r[i] == LowerAscii(s[i])
  {
    if s == [] then [] else ToLower(s[..|s| - 1]) + [LowerAscii(s[|s| - 1])]
  }

  // ---------------------------------------------------------------------------
  // Decimal text (strconv.ParseUint / ParseInt with base 10, fmt's %d)

  predicate IsDigit(c: char) { '0' <= c <= '9' }

  predicate AllDigits(s: string) {
    forall i :: 0 <= i < |s| ==> IsDigit(s[i])
  }

  function DigitChar(d: nat): char
    requires d < 10
  {
    ('0' as int + d) as char
  }

  /** The value of a string of decimal digits, most significant first. */
  function DigitsValue(s: string): nat
    requires AllDigits(s)
  {
    if s == [] then 0 else 10 * DigitsValue(s[..|s| - 1]) + (s[|s| - 1] as int - '0' as int)
  }

  /** `fmt.Sprintf("%d", n)`: the shortest decimal rendering of `n`. */
  function FormatDecimal(n: nat): (s: string)
    ensures |s| >= 1 && AllDigits(s)
    ensures n >= 10 ==> s[0] != '0'
  {
    if n < 10 then [DigitChar(n)] else FormatDecimal(n / 10) + [DigitChar(n % 10)]
  }

  /** `fmt.Sprintf("%0*d", width, n)`: left-padded with zeros to at least `width` digits. */
  function FormatPadded(n: nat, width: nat): (s: string)
    ensures AllDigits(s)
    ensures |s| == if |FormatDecimal(n)| >= width then |FormatDecimal(n)| else width
  {
    var d := FormatDecimal(n);
    if |d| >= width then d else seq(width - |d|, _ => '0') + d
  }

  lemma {:induction false} DigitsOfFormat(n: nat)
    ensures DigitsValue(FormatDecimal(n)) == n
  {
    if n >= 10 {
      DigitsOfFormat(n / 10);
      var s := FormatDecimal(n);
      assert s[..|s| - 1] == FormatDecimal(n / 10);
    }
  }

  /** `strconv.ParseUint(s, 10, bits)`: non-empty, digits only, no sign, and at most
      2^bits - 1; anything else is an error (None). */
  function ParseUint(s: string, bits: nat): (r: Option<nat>)
    ensures r.Some? <==> |s| > 0 && AllDigits(s) && DigitsValue(s) < Pow2(bits)
    ensures r.Some? ==> r.value == DigitsValue(s) && r.value < Pow2(bits)
  {
    if |s| > 0 && AllDigits(s) && DigitsValue(s) < Pow2(bits) then Some(DigitsValue(s)) else None
  }

  /** `strconv.ParseInt(s, 10, bits)`: an optional '+' or '-' and then digits, within
      [-2^(bits-1), 2^(bits-1) - 1]. */
  function ParseInt(s: string, bits: nat): (r: Option<int>)
    requires bits >= 1
    ensures r.Some? ==> -(Pow2(bits - 1) as int) <= r.value < Pow2(bits - 1)
  {
    var neg := |s| > 0 && s[0] == '-';
    var body := if |s| > 0 && (s[0] == '-' || s[0] == '+') then s[1..] else s;
    if |body| == 0 || !AllDigits(body) then None
    else
      var v: int := if neg then -(DigitsValue(body) as int) else DigitsValue(body);
      if -(Pow2(bits - 1) as int) <= v < Pow2(bits - 1) then Some(v) else None
  }

  function Pow2(k: nat): (p: nat)
    ensures p >= 1
  {
    if k == 0 then 1 else 2 * Pow2(k - 1)
  }

  lemma Pow2Of32()
    ensures Pow2(32) == U32
  {
    assert Pow2(8) == 256;
    assert Pow2(16) == 65536;
    assert Pow2(24) == 16777216;
  }

  lemma Pow2Of31()
    ensures Pow2(31) == 0x8000_0000
  {
    Pow2Of32();
    assert Pow2(32) == 2 * Pow2(31);
  }

  lemma Pow2Of64()
    ensures Pow2(64) == U64
  {
    Pow2Of32();
    assert Pow2(40) == 256 * Pow2(32);
    assert Pow2(48) == 256 * Pow2(40);
    assert Pow2(56) == 256 * Pow2(48);
    assert Pow2(64) == 256 * Pow2(56);
  }

  /** Wrapping each partial sum gives the wrapped total: Go's `x += y` on `uint64`. */
  lemma Wrap64Add(a: int, b: int)
    ensures Wrap64(Wrap64(a) + b) == Wrap64(a + b)
  {
    var q := a / U64;
    assert a == q * U64 + a % U64;
    assert Wrap64(a) == a % U64;
    assert (a + b) == (a % U64 + b) + q * U64;
  }

  lemma {:induction false} FormatDecimalRoundTrip(n: nat, bits: nat)
    requires n < Pow2(bits)
    ensures ParseUint(FormatDecimal(n), bits) == Some(n)
  {
    DigitsOfFormat(n);
  }

  /** A decimal rendering parses back with `ParseInt` too, having no sign. */
  lemma FormatDecimalParseInt(n: nat, bits: nat)
    requires bits >= 1 && n < Pow2(bits - 1)
    ensures ParseInt(FormatDecimal(n), bits) == Some(n)
  {
    DigitsOfFormat(n);
    var s := FormatDecimal(n);
    assert IsDigit(s[0]);
  }

  // ---------------------------------------------------------------------------
  // Hexadecimal text (encoding/hex, fmt's %x)

  function HexDigit(d: nat): char
    requires d < 16
  {
    if d < 10 then ('0' as int + d) as char else ('a' as int + d - 10) as char
  }

  /** The value of one hex character, accepting both cases as `hex.DecodeString` does. */
  function HexValue(c: char): Option<nat> {
    if '0' <= c <= '9' then Some(c as int - '0' as int)
    else if 'a' <= c <= 'f' then Some(c as int - 'a' as int + 10)
    else if 'A' <= c <= 'F' then Some(c as int - 'A' as int + 10)
    else None
  }

  lemma HexDigitValue(d: nat)
    requires d < 16
    ensures HexValue(HexDigit(d)) == Some(d)
  {
  }

  /** `hex.EncodeToString` / `%x`: two lower-case characters per byte. */
  function HexEncode(b: Bytes): (s: string)
    ensures |s| == 2 * |b|
    ensures forall i :: 0 <= i < |s| ==> HexValue(s[i]).Some? && s[i] != '_'
  {
    if b == [] then [] else [HexDigit(b[0] / 16), HexDigit(b[0] % 16)] + HexEncode(b[1..])
  }

  /** `hex.DecodeString`: an odd length or a non-hex character is an error. */
  function HexDecode(s: string): (r: Option<Bytes>)
    ensures r.Some? ==> 2 * |r.value| == |s|
    decreases |s|
  {
    if s == [] then Some([])
    else if |s| == 1 then None
    else match (HexValue(s[0]), HexValue(s[1]), HexDecode(s[2..]))
      case (Some(hi), Some(lo), Some(rest)) => Some([16 * hi + lo] + rest)
      case _ => None
  }

  lemma {:induction false} HexRoundTrip(b: Bytes)
    ensures HexDecode(HexEncode(b)) == Some(b)
  {
    if b != [] {
      HexRoundTrip(b[1..]);
      var s := HexEncode(b);
      assert s[2..] == HexEncode(b[1..]);
      HexDigitValue(b[0] / 16);
      HexDigitValue(b[0] % 16);
      assert HexValue(s[0]) == Some(b[0] / 16) && HexValue(s[1]) == Some(b[0] % 16);
      assert HexDecode(s) == Some([16 * (b[0] / 16) + b[0] % 16] + b[1..]);
      assert [16 * (b[0] / 16) + b[0] % 16] + b[1..] == b;
    }
  }

  lemma {:induction false} HexEncodeInjective(a: Bytes, b: Bytes)
    requires HexEncode(a) == HexEncode(b)
    ensures a == b
  {
    HexRoundTrip(a);
    HexRoundTrip(b);
  }
}
