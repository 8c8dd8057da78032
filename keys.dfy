/** The Redis key and member names of db/keys.go: every key is one of a few fixed
    namespaces followed by its components joined with ':' and nothing escaped. */
module Keys {
  import opened Base
  import opened Prims
  import opened Outpoints
  import opened Records

  const BlockKey := "block"
  const BlockIdKey := "blockid"
  const ProgressKey := "progress"
  const RawtxKey := "rawtx"
  const ProofKey := "proof"
  const TxStatusKey := "txs"
  const TxoPrefix := "txo:"
  const OutputMember := "out"
  const SpendMember := "spn"
  const DepSuffix := "dep"
  const EventSuffix := "evt"
  const DataSuffix := "dat"

  /** The namespace of a key: its first four characters. */
  function Namespace(k: string): string
    requires |k| >= 4
  {
    k[..4]
  }

  function QueueKey(indexer: string): (k: string)
    ensures |k| >= 4 && Namespace(k) == "que:" && k[4..] == indexer + ":"
  {
    "que:" + indexer + ":"
  }

  function LogKey(indexer: string): (k: string)
    ensures |k| >= 4 && Namespace(k) == "log:" && k[4..] == indexer
  {
    "log:" + indexer
  }

  /** `OwnerKey`: the owner is written as its address (`PKHash.String`). */
  function OwnerKey(p: Prims, owner: Bytes): (k: string)
    ensures |k| >= 4 && Namespace(k) == "own:" && k[4..] == p.address(owner)
  {
    "own:" + p.address(owner)
  }

  /** "tag:label:value", the tail every event key shares. */
  function EventPath(tag: string, e: EventLog): string {
    tag + ":" + e.name + ":" + e.value
  }

  function EventKey(tag: string, e: EventLog): (k: string)
    ensures |k| >= 4 && Namespace(k) == "evt:" && k[4..] == EventPath(tag, e)
  {
    "evt:" + EventPath(tag, e)
  }

  function OwnerEventKey(owner: string, tag: string, e: EventLog): (k: string)
    ensures |k| >= 4 && Namespace(k) == "oev:" && k[4..] == owner + ":" + EventPath(tag, e)
  {
    "oev:" + owner + ":" + EventPath(tag, e)
  }

  function TxoEventKey(tag: string, e: EventLog): (k: string)
    ensures |k| >= 4 && Namespace(k) == "evt:" && k[4..] == EventPath(tag, e)
  {
    "evt:" + tag + ":" + e.name + ":" + e.value
  }

  function TxoOwnerKey(p: Prims, owner: Bytes, tag: string, e: EventLog): (k: string)
    ensures |k| >= 4 && Namespace(k) == "oev:"
    ensures k[4..] == p.address(owner) + ":" + EventPath(tag, e)
  {
    "oev:" + p.address(owner) + ":" + EventPath(tag, e)
  }

  /** `BlockHeightKey`: the height in decimal, zero-padded to seven digits. */
  function BlockHeightKey(height: uint32): (k: string)
    ensures AllDigits(k) && |k| >= 7
    ensures height < 10_000_000 ==> |k| == 7
  {
    FormatDecimalLength(height);
    FormatPadded(height, 7)
  }

  function TxoKey(o: Outpoint): (k: string)
    ensures HasPrefix(k, TxoPrefix) && k[|TxoPrefix|..] == ToString(o)
  {
    TxoPrefix + ToString(o)
  }

  /** `TxoTxidKey`: the glob pattern "txo:<txid>*" matching every output of a txid. */
  function TxoTxidKey(txid: string): (k: string)
    ensures HasPrefix(k, TxoPrefix) && |k| == |TxoPrefix| + |txid| + 1 && k[|k| - 1] == '*'
    ensures k[|TxoPrefix|..|k| - 1] == txid
  {
    TxoPrefix + txid + "*"
  }

  function DepMember(tag: string): (m: string)
    ensures |m| == |tag| + 4 && m[..|tag|] == tag && m[|tag|..] == ":dep"
  {
    tag + ":" + DepSuffix
  }

  function EventMember(tag: string): (m: string)
    ensures |m| == |tag| + 4 && m[..|tag|] == tag && m[|tag|..] == ":evt"
  {
    tag + ":" + EventSuffix
  }

  function DataMember(tag: string): (m: string)
    ensures |m| == |tag| + 4 && m[..|tag|] == tag && m[|tag|..] == ":dat"
  {
    tag + ":" + DataSuffix
  }

  // ---------------------------------------------------------------------------
  // Properties of the key space

  /** A trailing-star glob: the key starts with the pattern minus its star. */
  predicate GlobMatches(k: string, pattern: string)
    requires |pattern| >= 1
  {
    HasPrefix(k, pattern[..|pattern| - 1])
  }

  /** Every output key of a transaction matches that transaction's txid pattern, and
      with equal txid lengths it matches no other transaction's. */
  lemma TxoKeyMatchesTxidKey(o: Outpoint, txid: Bytes)
    requires |txid| == |o.txid|
    ensures GlobMatches(TxoKey(o), TxoTxidKey(HexEncode(txid))) <==> o.txid == txid
  {
    var k := TxoKey(o);
    var p := TxoTxidKey(HexEncode(txid));
    var n := |TxoPrefix| + 2 * |txid|;
    assert p[..|p| - 1] == TxoPrefix + HexEncode(txid);
    assert k[..n] == TxoPrefix + HexEncode(o.txid);
    if GlobMatches(k, p) {
      assert HexEncode(o.txid) == k[..n][4..];
      HexEncodeInjective(o.txid, txid);
    }
  }

  /** The six namespaces never share a key. */
  lemma NamespacesDistinct(a: string, b: string, c: string, tag: string, e: EventLog, p: Prims, owner: Bytes, o: Outpoint)
    ensures QueueKey(a) != LogKey(b) && QueueKey(a) != EventKey(tag, e)
    ensures QueueKey(a) != OwnerKey(p, owner) && QueueKey(a) != OwnerEventKey(c, tag, e)
    ensures LogKey(b) != EventKey(tag, e) && LogKey(b) != OwnerKey(p, owner)
    ensures LogKey(b) != OwnerEventKey(c, tag, e) && EventKey(tag, e) != OwnerKey(p, owner)
    ensures EventKey(tag, e) != OwnerEventKey(c, tag, e) && OwnerKey(p, owner) != OwnerEventKey(c, tag, e)
    ensures TxoKey(o) != QueueKey(a) && TxoKey(o) != LogKey(b) && TxoKey(o) != EventKey(tag, e)
    ensures TxoKey(o) != OwnerKey(p, owner) && TxoKey(o) != OwnerEventKey(c, tag, e)
  {
    assert TxoKey(o)[..4] == "txo:";
  }

  predicate NoColon(s: string) {
    forall i :: 0 <= i < |s| ==> s[i] != ':'
  }

  /** Joining with an unescaped ':' is unambiguous as long as the components before the
      last carry no ':'. */
  lemma {:induction false} JoinInjective(a1: string, b1: string, a2: string, b2: string)
    requires NoColon(a1) && NoColon(a2)
    requires a1 + ":" + b1 == a2 + ":" + b2
    ensures a1 == a2 && b1 == b2
  {
    var s := a1 + ":" + b1;
    FirstColon(a1, b1);
    FirstColon(a2, b2);
    assert |a1| == |a2|;
    assert a1 == s[..|a1|] == a2;
    assert b1 == s[|a1| + 1..] == b2;
  }

  lemma FirstColon(a: string, b: string)
    requires NoColon(a)
    ensures (a + ":" + b)[|a|] == ':'
    ensures forall i :: 0 <= i < |a| ==> (a + ":" + b)[i] != ':'
  {
  }

  /** Event keys identify the event when tags and labels have no ':' in them; the value,
      coming last, may contain anything. */
  lemma EventKeyInjective(t1: string, e1: EventLog, t2: string, e2: EventLog)
    requires NoColon(t1) && NoColon(t2) && NoColon(e1.name) && NoColon(e2.name)
    requires EventKey(t1, e1) == EventKey(t2, e2)
    ensures t1 == t2 && e1 == e2
  {
    assert EventPath(t1, e1) == EventKey(t1, e1)[4..];
    assert EventPath(t1, e1) == t1 + ":" + (e1.name + ":" + e1.value);
    assert EventPath(t2, e2) == t2 + ":" + (e2.name + ":" + e2.value);
    JoinInjective(t1, e1.name + ":" + e1.value, t2, e2.name + ":" + e2.value);
    JoinInjective(e1.name, e1.value, e2.name, e2.value);
  }

  /** With a ':' inside a component, two different events share one key. */
  lemma EventKeyAmbiguous()
    ensures EventKey("a:b", EventLog("c", "d")) == EventKey("a", EventLog("b", "c:d"))
  {
    assert EventKey("a:b", EventLog("c", "d")) == "evt:a:b:c:d";
    assert EventKey("a", EventLog("b", "c:d")) == "evt:a:b:c:d";
  }

  lemma TxoEventKeyIsEventKey(tag: string, e: EventLog)
    ensures TxoEventKey(tag, e) == EventKey(tag, e)
  {
  }

  lemma TxoOwnerKeyIsOwnerEventKey(p: Prims, owner: Bytes, tag: string, e: EventLog)
    ensures TxoOwnerKey(p, owner, tag, e) == OwnerEventKey(p.address(owner), tag, e)
  {
    assert TxoOwnerKey(p, owner, tag, e)[4..] == OwnerEventKey(p.address(owner), tag, e)[4..];
  }

  /** The three per-tag members differ from each other, and each names its tag. */
  lemma MembersDistinct(t1: string, t2: string)
    ensures DepMember(t1) != EventMember(t2) && DepMember(t1) != DataMember(t2)
    ensures EventMember(t1) != DataMember(t2)
    ensures DepMember(t1) == DepMember(t2) ==> t1 == t2
    ensures EventMember(t1) == EventMember(t2) ==> t1 == t2
    ensures DataMember(t1) == DataMember(t2) ==> t1 == t2
  {
    var d1, e2, a2 := DepMember(t1), EventMember(t2), DataMember(t2);
    assert d1[|d1| - 3..] == "dep" && e2[|e2| - 3..] == "evt" && a2[|a2| - 3..] == "dat";
    assert EventMember(t1)[|EventMember(t1)| - 3..] == "evt";
  }

  // ---------------------------------------------------------------------------
  // Block height keys sort as the heights do

  function Pow10(k: nat): (p: nat)
    ensures p >= 1
  {
    if k == 0 then 1 else 10 * Pow10(k - 1)
  }

  lemma {:induction false} DigitsValueBound(s: string)
    requires AllDigits(s)
    ensures DigitsValue(s) < Pow10(|s|)
  {
    if s != [] {
      DigitsValueBound(s[..|s| - 1]);
    }
  }

  /** The value of a digit string read from its most significant digit. */
  lemma {:induction false} DigitsValueFront(s: string)
    requires AllDigits(s) && |s| >= 1
    ensures DigitsValue(s) == (s[0] as int - '0' as int) * Pow10(|s| - 1) + DigitsValue(s[1..])
  {
    if |s| > 1 {
      var init := s[..|s| - 1];
      DigitsValueFront(init);
      assert init[1..] == s[1..][..|s| - 2];
      assert init[0] == s[0];
      var d, last := s[0] as int - '0' as int, s[|s| - 1] as int - '0' as int;
      assert DigitsValue(s) == 10 * DigitsValue(init) + last;
      assert DigitsValue(s[1..]) == 10 * DigitsValue(init[1..]) + last;
      ShiftDigit(d, Pow10(|s| - 2), DigitsValue(init[1..]), last);
    }
  }

  lemma ShiftDigit(d: int, p: int, r: int, last: int)
    ensures 10 * (d * p + r) + last == d * (10 * p) + (10 * r + last)
  {
  }

  lemma {:induction false} FormatDecimalLength(n: nat)
    ensures n < Pow10(7) ==> |FormatDecimal(n)| <= 7
    ensures |FormatDecimal(n)| <= 1 || n >= 10
  {
    if n >= 10 {
      FormatDecimalShorter(n);
    }
  }

  lemma {:induction false} FormatDecimalShorter(n: nat)
    ensures forall k: nat :: n < Pow10(k) ==> |FormatDecimal(n)| <= k || k == 0
  {
    if n >= 10 {
      FormatDecimalShorter(n / 10);
      forall k: nat | n < Pow10(k) && k > 0 ensures |FormatDecimal(n)| <= k {
        assert n / 10 < Pow10(k - 1);
      }
    }
  }

  lemma {:induction false} LeadingZeros(z: string, d: string)
    requires AllDigits(d) && forall i :: 0 <= i < |z| ==> z[i] == '0'
    ensures AllDigits(z + d) && DigitsValue(z + d) == DigitsValue(d)
  {
    if d == [] {
      assert z + d == z;
      if z != [] {
        LeadingZeros(z[..|z| - 1], []);
        assert z[..|z| - 1] + [] == z[..|z| - 1];
      }
    } else {
      LeadingZeros(z, d[..|d| - 1]);
      assert (z + d)[..|z + d| - 1] == z + d[..|d| - 1];
    }
  }

  /** The padded key still denotes the height. */
  lemma BlockHeightKeyValue(height: uint32)
    ensures DigitsValue(BlockHeightKey(height)) == height
  {
    var d := FormatDecimal(height);
    DigitsOfFormat(height);
    if |d| < 7 {
      LeadingZeros(seq(7 - |d|, _ => '0'), d);
    }
  }

  /** Lexicographic order of strings, as Redis compares keys. */
  predicate LexLess(s: string, t: string) {
    exists k :: 0 <= k < |s| && k < |t| && s[..k] == t[..k] && s[k] < t[k]
  }

  lemma {:induction false} DigitsOrder(s: string, t: string)
    requires AllDigits(s) && AllDigits(t) && |s| == |t|
    requires DigitsValue(s) < DigitsValue(t)
    ensures LexLess(s, t)
    decreases |s|
  {
    DigitsValueFront(s);
    DigitsValueFront(t);
    var p := Pow10(|s| - 1);
    var ds, dt := s[0] as int - '0' as int, t[0] as int - '0' as int;
    if ds == dt {
      assert DigitsValue(s[1..]) < DigitsValue(t[1..]);
      DigitsOrder(s[1..], t[1..]);
      LexLessCons(s, t);
    } else if ds < dt {
      assert s[..0] == t[..0];
    } else {
      DigitsValueBound(t[1..]);
      LeadingDigitDominates(ds, dt, p, DigitsValue(s[1..]), DigitsValue(t[1..]));
    }
  }

  lemma LexLessCons(s: string, t: string)
    requires |s| == |t| >= 1 && s[0] == t[0] && LexLess(s[1..], t[1..])
    ensures LexLess(s, t)
  {
    var k :| 0 <= k < |s| - 1 && s[1..][..k] == t[1..][..k] && s[1..][k] < t[1..][k];
    assert s[..k + 1] == [s[0]] + s[1..][..k];
    assert t[..k + 1] == [t[0]] + t[1..][..k];
    assert s[k + 1] == s[1..][k] && t[k + 1] == t[1..][k];
  }

  lemma LeadingDigitDominates(ds: nat, dt: nat, p: nat, rs: nat, rt: nat)
    requires dt < ds && rt < p
    ensures ds * p + rs > dt * p + rt
  {
    assert ds * p >= (dt + 1) * p;
  }

  lemma LexLessAsymmetric(s: string, t: string)
    requires LexLess(s, t)
    ensures !LexLess(t, s)
  {
    var k :| 0 <= k < |s| && k < |t| && s[..k] == t[..k] && s[k] < t[k];
    if LexLess(t, s) {
      var j :| 0 <= j < |t| && j < |s| && t[..j] == s[..j] && t[j] < s[j];
    }
  }

  /** Below ten million, comparing block height keys as strings compares the heights. */
  lemma BlockHeightKeyOrder(a: uint32, b: uint32)
    requires a < 10_000_000 && b < 10_000_000
    ensures LexLess(BlockHeightKey(a), BlockHeightKey(b)) <==> a < b
  {
    BlockHeightKeyValue(a);
    BlockHeightKeyValue(b);
    if a < b {
      DigitsOrder(BlockHeightKey(a), BlockHeightKey(b));
    } else if b < a {
      DigitsOrder(BlockHeightKey(b), BlockHeightKey(a));
      LexLessAsymmetric(BlockHeightKey(b), BlockHeightKey(a));
    }
  }
}
