/**
  Translation of the usage strings of the certificates API into the key usage mask and the
  extended key usage list of an X.509 certificate (sections 4.2.1.3 and 4.2.1.12 of RFC 5280).
*/
module KeyUsages {
  import opened Wrappers

  /** Key usage bits, one per bit of the KeyUsage extension. */
  type Mask = bv16

  const DIGITAL_SIGNATURE: Mask := 0x001
  const CONTENT_COMMITMENT: Mask := 0x002
  const KEY_ENCIPHERMENT: Mask := 0x004
  const DATA_ENCIPHERMENT: Mask := 0x008
  const KEY_AGREEMENT: Mask := 0x010
  const CERT_SIGN: Mask := 0x020
  const CRL_SIGN: Mask := 0x040
  const ENCIPHER_ONLY: Mask := 0x080
  const DECIPHER_ONLY: Mask := 0x100

  const EXT_CLIENT_AUTH: int := 2

  const USAGE_DIGITAL_SIGNATURE := "digital signature"
  const USAGE_KEY_ENCIPHERMENT := "key encipherment"
  const USAGE_CLIENT_AUTH := "client auth"

  const KEY_USAGES: map<string, Mask> := map[
    "signing" := DIGITAL_SIGNATURE,
    "digital signature" := DIGITAL_SIGNATURE,
    "content commitment" := CONTENT_COMMITMENT,
    "key encipherment" := KEY_ENCIPHERMENT,
    "key agreement" := KEY_AGREEMENT,
    "data encipherment" := DATA_ENCIPHERMENT,
    "cert sign" := CERT_SIGN,
    "crl sign" := CRL_SIGN,
    "encipher only" := ENCIPHER_ONLY,
    "decipher only" := DECIPHER_ONLY
  ]

  const EXT_KEY_USAGES: map<string, int> := map[
    "any" := 0,
    "server auth" := 1,
    "client auth" := EXT_CLIENT_AUTH,
    "code signing" := 3,
    "email protection" := 4,
    "s/mime" := 4,
    "ipsec end system" := 5,
    "ipsec tunnel" := 6,
    "ipsec user" := 7,
    "timestamping" := 8,
    "ocsp signing" := 9,
    "microsoft sgc" := 10,
    "netscape sgc" := 11
  ]

  /** One more than the largest extended usage code. */
  const EXT_CODES := 12

  datatype Usages = Usages(mask: Mask, ext: seq<int>)

  predicate Recognized(usage: string) {
    usage in KEY_USAGES || usage in EXT_KEY_USAGES
  }

  /** The key usage dictionary is consulted first. */
  predicate MapsToExt(usage: string, e: int) {
    usage !in KEY_USAGES && usage in EXT_KEY_USAGES && EXT_KEY_USAGES[usage] == e
  }

  /** Some usage of the list stands for the extended usage `e`. */
  predicate Requests(usages: seq<string>, e: int) {
    exists u | u in usages :: MapsToExt(u, e)
  }

  /** Some usage of the list stands for the key usage bit `b`. */
  predicate RequestsBit(usages: seq<string>, b: Mask) {
    exists u | u in usages :: u in KEY_USAGES && KEY_USAGES[u] == b
  }

  function BitOf(usage: string): Mask {
    if usage in KEY_USAGES then KEY_USAGES[usage] else 0
  }

  /** The union of the key usage bits of a list. */
  function MaskOf(usages: seq<string>): Mask {
    if |usages| == 0 then 0 else MaskOf(usages[..|usages| - 1]) | BitOf(usages[|usages| - 1])
  }

  /** The extended usages below `n` that a list stands for, in ascending order. */
  function ExtBelow(usages: seq<string>, n: nat): seq<int> {
    if n == 0 then []
    else ExtBelow(usages, n - 1) + (if Requests(usages, n - 1) then [n - 1] else [])
  }

  /** The usages of a list that are in neither dictionary, in their order in the list. */
  function Unrecognized(usages: seq<string>): seq<string> {
    if |usages| == 0 then []
    else
      var last := usages[|usages| - 1];
      Unrecognized(usages[..|usages| - 1]) + (if Recognized(last) then [] else [last])
  }

  /** What a usage list means; the error carries every unknown usage. */
  function Translate(usages: seq<string>): Result<Usages, seq<string>> {
    if |Unrecognized(usages)| > 0 then Failure(Unrecognized(usages))
    else Success(Usages(MaskOf(usages), ExtBelow(usages, EXT_CODES)))
  }

  predicate StrictlyAscending(s: seq<int>) {
    forall i, j | 0 <= i < j < |s| :: s[i] < s[j]
  }

  // ---------------------------------------------------------------- the dictionaries

  predicate KeyUsageBit(b: Mask) {
    b in {
      DIGITAL_SIGNATURE, CONTENT_COMMITMENT, KEY_ENCIPHERMENT, DATA_ENCIPHERMENT, KEY_AGREEMENT,
      CERT_SIGN, CRL_SIGN, ENCIPHER_ONLY, DECIPHER_ONLY }
  }

  lemma KeyUsageValues(usage: string)
    requires usage in KEY_USAGES
    ensures KeyUsageBit(KEY_USAGES[usage])
  {}

  lemma ExtUsageValues(usage: string)
    requires usage in EXT_KEY_USAGES
    ensures 0 <= EXT_KEY_USAGES[usage] < EXT_CODES
  {}

  lemma ClientDictionary()
    ensures USAGE_DIGITAL_SIGNATURE in KEY_USAGES && KEY_USAGES[USAGE_DIGITAL_SIGNATURE] == DIGITAL_SIGNATURE
    ensures USAGE_KEY_ENCIPHERMENT in KEY_USAGES && KEY_USAGES[USAGE_KEY_ENCIPHERMENT] == KEY_ENCIPHERMENT
    ensures USAGE_CLIENT_AUTH !in KEY_USAGES
    ensures USAGE_CLIENT_AUTH in EXT_KEY_USAGES && EXT_KEY_USAGES[USAGE_CLIENT_AUTH] == EXT_CLIENT_AUTH
  {}

  /** The bits are those of section 4.2.1.3 of RFC 5280, in its order; "signing" is another name of the first. */
  lemma KeyUsageRows()
    ensures KEY_USAGES == map[
      "digital signature" := 0x001, "content commitment" := 0x002, "key encipherment" := 0x004,
      "data encipherment" := 0x008, "key agreement" := 0x010, "cert sign" := 0x020, "crl sign" := 0x040,
      "encipher only" := 0x080, "decipher only" := 0x100, "signing" := 0x001]
  {}

  /** The codes by which the X.509 library knows the extended usages. */
  lemma ExtUsageRows()
    ensures EXT_KEY_USAGES.Keys == {
      "any", "server auth", "client auth", "code signing", "email protection", "s/mime", "ipsec end system",
      "ipsec tunnel", "ipsec user", "timestamping", "ocsp signing", "microsoft sgc", "netscape sgc" }
    ensures forall i | 0 <= i < 12 :: var names := [
      "any", "server auth", "client auth", "code signing", "email protection", "ipsec end system",
      "ipsec tunnel", "ipsec user", "timestamping", "ocsp signing", "microsoft sgc", "netscape sgc" ];
      names[i] in EXT_KEY_USAGES && EXT_KEY_USAGES[names[i]] == i
    ensures EXT_KEY_USAGES["s/mime"] == EXT_KEY_USAGES["email protection"]
  {}

  // ---------------------------------------------------------------- what the mask means

  lemma OrOfBits(m: Mask, v: Mask, b: Mask)
    requires KeyUsageBit(b) && (KeyUsageBit(v) || v == 0)
    ensures (m | v) & b != 0 <==> m & b != 0 || v == b
    ensures m & 0xFE00 == 0 ==> (m | v) & 0xFE00 == 0
  {}

  /** A bit is set exactly when some usage of the list asks for it, and no other bit is ever set. */
  lemma {:induction false} MaskBits(usages: seq<string>, b: Mask)
    requires KeyUsageBit(b)
    ensures MaskOf(usages) & b != 0 <==> RequestsBit(usages, b)
    ensures MaskOf(usages) & 0xFE00 == 0
  {
    if |usages| == 0 {
      assert !RequestsBit([], b);
    } else {
      var front, last := usages[..|usages| - 1], usages[|usages| - 1];
      MaskBits(front, b);
      if last in KEY_USAGES {
        KeyUsageValues(last);
      }
      OrOfBits(MaskOf(front), BitOf(last), b);
      assert usages == front + [last];
      assert forall u :: u in usages <==> u in front || u == last;
    }
  }

  lemma MaskFromBits(m: Mask, n: Mask)
    requires m & 0xFE00 == 0 && n & 0xFE00 == 0
    requires forall b: Mask | KeyUsageBit(b) :: (m & b != 0) <==> (n & b != 0)
    ensures m == n
  {
    assert KeyUsageBit(DIGITAL_SIGNATURE) && KeyUsageBit(CONTENT_COMMITMENT) && KeyUsageBit(KEY_ENCIPHERMENT);
    assert KeyUsageBit(DATA_ENCIPHERMENT) && KeyUsageBit(KEY_AGREEMENT) && KeyUsageBit(CERT_SIGN);
    assert KeyUsageBit(CRL_SIGN) && KeyUsageBit(ENCIPHER_ONLY) && KeyUsageBit(DECIPHER_ONLY);
  }

  // ---------------------------------------------------------------- what the list means

  lemma {:induction false} ExtBelowMeaning(usages: seq<string>, n: nat)
    ensures StrictlyAscending(ExtBelow(usages, n))
    ensures forall e :: e in ExtBelow(usages, n) <==> 0 <= e < n && Requests(usages, e)
  {
    if n > 0 {
      ExtBelowMeaning(usages, n - 1);
      var low := ExtBelow(usages, n - 1);
      forall k | 0 <= k < |low| ensures low[k] < n - 1 {
        assert low[k] in low;
      }
    }
  }

  lemma RequestsBounded(usages: seq<string>, e: int)
    requires Requests(usages, e)
    ensures 0 <= e < EXT_CODES
  {
    var u :| u in usages && MapsToExt(u, e);
    ExtUsageValues(u);
  }

  lemma Inhabitant<T>(keys: set<T>) returns (x: T)
    requires |keys| > 0
    ensures x in keys
  {
    x :| x in keys;
  }

  lemma FirstElement(s: seq<int>) returns (x: int)
    requires |s| > 0
    ensures x in s
  {
    x := s[0];
  }

  lemma NoElements(s: seq<int>)
    requires forall e :: e !in s
    ensures |s| == 0
  {
    if |s| > 0 {
      var _ := FirstElement(s);
    }
  }

  /** Two strictly ascending lists with the same elements are the same list. */
  lemma {:induction false} AscendingUnique(s: seq<int>, t: seq<int>)
    requires StrictlyAscending(s) && StrictlyAscending(t)
    requires forall e :: e in s <==> e in t
    ensures s == t
  {
    if |s| == 0 {
      NoElements(t);
    } else if |t| == 0 {
      NoElements(s);
    } else {
      var a, b := s[|s| - 1], t[|t| - 1];
      assert a in s && b in t;
      assert a == b;
      var s', t' := s[..|s| - 1], t[..|t| - 1];
      forall e ensures e in s' <==> e in t' {
        assert e in s <==> e in s' || e == a;
        assert e in t <==> e in t' || e == b;
        assert a !in s' && b !in t';
      }
      AscendingUnique(s', t');
      assert s == s' + [a] && t == t' + [b];
    }
  }

  lemma {:induction false} UnrecognizedMeaning(usages: seq<string>)
    ensures forall u :: u in Unrecognized(usages) <==> u in usages && !Recognized(u)
  {
    if |usages| > 0 {
      var front, last := usages[..|usages| - 1], usages[|usages| - 1];
      UnrecognizedMeaning(front);
      assert usages == front + [last];
    }
  }

  /** The unknown usages are reported in the order of the list. */
  lemma {:induction false} UnrecognizedInOrder(us: seq<string>, vs: seq<string>)
    ensures Unrecognized(us + vs) == Unrecognized(us) + Unrecognized(vs)
    ensures |vs| == 1 ==> Unrecognized(vs) == if vs[0] in KEY_USAGES || vs[0] in EXT_KEY_USAGES then [] else vs
  {
    if |vs| == 0 {
      assert us + vs == us;
    } else {
      var front, last := vs[..|vs| - 1], vs[|vs| - 1];
      UnrecognizedInOrder(us, front);
      assert (us + vs)[..|us + vs| - 1] == us + front && (us + vs)[|us + vs| - 1] == last;
    }
  }

  /** The meaning of a translation, said without the dictionaries' order or any iteration order. */
  ghost predicate Means(usages: seq<string>, t: Usages) {
    && t.mask & 0xFE00 == 0
    && (forall b: Mask | KeyUsageBit(b) :: (t.mask & b != 0) <==> RequestsBit(usages, b))
    && StrictlyAscending(t.ext)
    && (forall e :: e in t.ext <==> Requests(usages, e))
  }

  lemma ComputedMeaning(usages: seq<string>)
    ensures Means(usages, Usages(MaskOf(usages), ExtBelow(usages, EXT_CODES)))
  {
    forall b: Mask | KeyUsageBit(b) ensures (MaskOf(usages) & b != 0) <==> RequestsBit(usages, b) {
      MaskBits(usages, b);
    }
    MaskBits(usages, DIGITAL_SIGNATURE);
    ExtBelowMeaning(usages, EXT_CODES);
    forall e | Requests(usages, e) ensures 0 <= e < EXT_CODES {
      RequestsBounded(usages, e);
    }
  }

  lemma MeaningUnique(usages: seq<string>, s: Usages, t: Usages)
    requires Means(usages, s) && Means(usages, t)
    ensures s == t
  {
    MaskFromBits(s.mask, t.mask);
    AscendingUnique(s.ext, t.ext);
  }

  /** The translation fails exactly on a list with an unknown usage; otherwise it is the one value with the list's meaning. */
  lemma TranslateMeaning(usages: seq<string>)
    ensures Translate(usages).Failure? <==> exists u :: u in usages && !Recognized(u)
    ensures Translate(usages).Success? ==> Means(usages, Translate(usages).value)
    ensures forall t | Translate(usages).Success? && Means(usages, t) :: t == Translate(usages).value
  {
    UnrecognizedMeaning(usages);
    if |Unrecognized(usages)| > 0 {
      assert Unrecognized(usages)[0] in Unrecognized(usages);
    } else {
      ComputedMeaning(usages);
      forall t | Means(usages, t) ensures t == Translate(usages).value {
        MeaningUnique(usages, t, Translate(usages).value);
      }
    }
  }

  /** Order and repetition in the request are irrelevant: only the set of usages counts. */
  lemma TranslateCanonical(us: seq<string>, vs: seq<string>)
    requires forall u :: u in us <==> u in vs
    ensures Translate(us).Success? <==> Translate(vs).Success?
    ensures Translate(us).Success? ==> Translate(us) == Translate(vs)
  {
    TranslateMeaning(us);
    TranslateMeaning(vs);
    if Translate(us).Success? {
      assert Means(us, Translate(vs).value);
    }
  }

  // ---------------------------------------------------------------- the algorithm

  method Swap(s: array<int>, i: nat, j: nat)
    requires i < s.Length && j < s.Length
    modifies s
    ensures s[..] == old(s[..])[i := old(s[j])][j := old(s[i])]
    ensures multiset(s[..]) == old(multiset(s[..]))
  {
    s[i], s[j] := s[j], s[i];
  }

  predicate Sorted(s: seq<int>) {
    forall i, j | 0 <= i < j < |s| :: s[i] <= s[j]
  }

  /** Sorts in place by exchanging neighbours. */
  method SortExtUsages(s: array<int>)
    modifies s
    ensures Sorted(s[..])
    ensures multiset(s[..]) == old(multiset(s[..]))
  {
    for i := 0 to s.Length
      invariant Sorted(s[..i])
      invariant multiset(s[..]) == old(multiset(s[..]))
    {
      var j := i;
      while j > 0 && s[j] < s[j - 1]
        invariant 0 <= j <= i
        invariant forall a, b | 0 <= a < b <= i && b != j :: s[a] <= s[b]
        invariant multiset(s[..]) == old(multiset(s[..]))
      {
        Swap(s, j, j - 1);
        j := j - 1;
      }
    }
    assert s[..] == s[..s.Length];
  }

  /** The elements of a set as a slice, in whatever order the map iteration yields them. */
  method InIterationOrder(keys: set<int>) returns (s: array<int>)
    ensures fresh(s)
    ensures multiset(s[..]) == multiset(keys)
  {
    s := new int[|keys|];
    var rest := keys;
    var n := 0;
    while |rest| > 0
      invariant rest <= keys
      invariant n + |rest| == s.Length
      invariant multiset(s[..n]) + multiset(rest) == multiset(keys)
      decreases |rest|
    {
      ghost var some := Inhabitant(rest);
      var e :| e in rest;
      s[n] := e;
      assert s[..n + 1] == s[..n] + [e];
      rest, n := rest - {e}, n + 1;
    }
    assert s[..n] == s[..];
  }

  lemma RepeatedElement(s: seq<int>, i: nat, j: nat)
    requires i < j < |s| && s[i] == s[j]
    ensures multiset(s)[s[i]] >= 2
  {
    var e := s[i];
    assert s == s[..i] + [e] + s[i + 1..j] + [e] + s[j + 1..];
  }

  lemma SortedSetAscends(s: seq<int>, keys: set<int>)
    requires Sorted(s) && multiset(s) == multiset(keys)
    ensures StrictlyAscending(s)
    ensures forall e :: e in s <==> e in keys
  {
    forall e ensures e in s <==> e in keys {
      assert e in s <==> e in multiset(s);
    }
    forall i, j | 0 <= i < j < |s| ensures s[i] < s[j] {
      if s[i] == s[j] {
        RepeatedElement(s, i, j);
      }
    }
  }

  /** Sorting the collected codes gives the list a translation promises. */
  lemma SortedCodes(usages: seq<string>, keys: set<int>, s: seq<int>)
    requires forall e :: e in keys <==> Requests(usages, e)
    requires Sorted(s) && multiset(s) == multiset(keys)
    ensures s == ExtBelow(usages, EXT_CODES)
  {
    SortedSetAscends(s, keys);
    ExtBelowMeaning(usages, EXT_CODES);
    forall e | Requests(usages, e) ensures 0 <= e < EXT_CODES {
      RequestsBounded(usages, e);
    }
    AscendingUnique(s, ExtBelow(usages, EXT_CODES));
  }

  lemma OneMoreUsage(usages: seq<string>, i: nat)
    requires i < |usages|
    ensures MaskOf(usages[..i + 1]) == MaskOf(usages[..i]) | BitOf(usages[i])
    ensures Unrecognized(usages[..i + 1])
         == Unrecognized(usages[..i]) + (if Recognized(usages[i]) then [] else [usages[i]])
    ensures forall e :: Requests(usages[..i + 1], e) <==> Requests(usages[..i], e) || MapsToExt(usages[i], e)
  {
    var front, next := usages[..i], usages[..i + 1];
    assert next == front + [usages[i]] && next[..i] == front;
    assert forall u :: u in next <==> u in front || u == usages[i];
  }

  ghost predicate CodesOf(usages: seq<string>, keys: set<int>) {
    forall e :: e in keys <==> Requests(usages, e)
  }

  function OwnCodes(usage: string): set<int> {
    if usage !in KEY_USAGES && usage in EXT_KEY_USAGES then {EXT_KEY_USAGES[usage]} else {}
  }

  lemma OneMoreCode(usages: seq<string>, i: nat, keys: set<int>)
    requires i < |usages| && CodesOf(usages[..i], keys)
    ensures CodesOf(usages[..i + 1], keys + OwnCodes(usages[i]))
  {
    OneMoreUsage(usages, i);
  }

  /** What has been collected from the first `n` usages. */
  ghost predicate Collected(usages: seq<string>, n: nat, keyUsage: Mask, extKeyUsages: set<int>, unrecognized: seq<string>)
    requires n <= |usages|
  {
    && keyUsage == MaskOf(usages[..n]) && unrecognized == Unrecognized(usages[..n])
    && CodesOf(usages[..n], extKeyUsages)
  }

  lemma OneMoreCollected(usages: seq<string>, n: nat, keyUsage: Mask, extKeyUsages: set<int>, unrecognized: seq<string>)
    requires n < |usages| && Collected(usages, n, keyUsage, extKeyUsages, unrecognized)
    ensures Collected(usages, n + 1, keyUsage | BitOf(usages[n]), extKeyUsages + OwnCodes(usages[n]),
                      unrecognized + (if Recognized(usages[n]) then [] else [usages[n]]))
  {
    OneMoreUsage(usages, n);
    OneMoreCode(usages, n, extKeyUsages);
  }

  lemma OrNothing(m: Mask)
    ensures m | 0 == m
  {}

  /** One pass over the list, collecting bits, extended codes and unknown usages. */
  method CollectUsages(usages: seq<string>)
    returns (keyUsage: Mask, extKeyUsages: set<int>, unrecognized: seq<string>)
    ensures keyUsage == MaskOf(usages)
    ensures unrecognized == Unrecognized(usages)
    ensures CodesOf(usages, extKeyUsages)
  {
    keyUsage, extKeyUsages, unrecognized := 0, {}, [];
    for i := 0 to |usages|
      invariant Collected(usages, i, keyUsage, extKeyUsages, unrecognized)
    {
      OneMoreCollected(usages, i, keyUsage, extKeyUsages, unrecognized);
      OrNothing(keyUsage);
      var usage := usages[i];
      if usage in KEY_USAGES {
        keyUsage := keyUsage | KEY_USAGES[usage];
      } else if usage in EXT_KEY_USAGES {
        extKeyUsages := extKeyUsages + {EXT_KEY_USAGES[usage]};
      } else {
        unrecognized := unrecognized + [usage];
      }
    }
    assert usages[..|usages|] == usages;
  }

  /** Collects, then sorts the extended codes, whatever order the collection yields them in. */
  method KeyUsagesFromStrings(usages: seq<string>) returns (r: Result<Usages, seq<string>>)
    ensures r == Translate(usages)
  {
    var keyUsage, extKeyUsages, unrecognized := CollectUsages(usages);
    var sorted := InIterationOrder(extKeyUsages);
    SortExtUsages(sorted);
    if |unrecognized| > 0 {
      return Failure(unrecognized);
    }
    SortedCodes(usages, extKeyUsages, sorted[..]);
    return Success(Usages(keyUsage, sorted[..]));
  }
}
