/** The platform `Headers` object the fetch-based adapter builds, and the
    `HeadersInit` union its options accept. A `Headers` stores each header
    under its lower-cased name; `append` joins a repeated name's values with
    ", " and `set` replaces them. */
module WebHeaders {
  import opened Js

  function LowerChar(c: char): (r: char) {
    if 'A' <= c <= 'Z' then (c as int + 32) as char else c
  }

  /** ASCII lower-casing, as header names are normalised: no upper-case
      letter is left, each one becomes its lower-case partner, and every
      other character is kept. */
  function ToLower(s: string): (r: string)
    ensures |r| == |s|
    ensures forall i :: 0 <= i < |r| ==> !('A' <= r[i] <= 'Z')
    ensures forall i :: 0 <= i < |s| && 'A' <= s[i] <= 'Z' ==> 'a' <= r[i] <= 'z' && r[i] as int - 'a' as int == s[i] as int - 'A' as int
    ensures forall i :: 0 <= i < |s| && !('A' <= s[i] <= 'Z') ==> r[i] == s[i]
  {
    seq(|s|, i requires 0 <= i < |s| => LowerChar(s[i]))
  }

  const ContentTypeKey := "content-type"
  const AuthorizationKey := "authorization"

  lemma HeaderNamesLowered()
    ensures ToLower("Content-Type") == ContentTypeKey
    ensures ToLower("Authorization") == AuthorizationKey
    ensures ToLower(ContentTypeKey) == ContentTypeKey
  {
    var c := ToLower("Content-Type");
    assert |c| == |ContentTypeKey|;
    forall i | 0 <= i < |c| ensures c[i] == ContentTypeKey[i] {
      assert c[i] == LowerChar("Content-Type"[i]);
    }
    var a := ToLower("Authorization");
    assert |a| == |AuthorizationKey|;
    forall i | 0 <= i < |a| ensures a[i] == AuthorizationKey[i] {
      assert a[i] == LowerChar("Authorization"[i]);
    }
    var l := ToLower(ContentTypeKey);
    forall i | 0 <= i < |l| ensures l[i] == ContentTypeKey[i] {
      assert l[i] == LowerChar(ContentTypeKey[i]);
    }
  }

  /** Header values by lower-cased name. */
  type HeaderMap = map<string, string>

  /** `headers.append(name, value)`. */
  function AppendHeader(m: HeaderMap, name: string, value: string): (r: HeaderMap)
    ensures r.Keys == m.Keys + {ToLower(name)}
    ensures ToLower(name) in m ==> r[ToLower(name)] == m[ToLower(name)] + ", " + value
    ensures ToLower(name) !in m ==> r[ToLower(name)] == value
    ensures forall n :: n in m && n != ToLower(name) ==> r[n] == m[n]
  {
    var n := ToLower(name);
    if n in m then m[n := m[n] + ", " + value] else m[n := value]
  }

  /** Appending every entry of a record, in order, to `m`: how
      `new Headers(record)` fills itself. */
  function FillHeaders(m: HeaderMap, init: Record): (r: HeaderMap)
    ensures m.Keys <= r.Keys
    ensures |r.Keys| <= |m.Keys| + |init|
    decreases |init|
  {
    if init == [] then m
    else AppendHeader(FillHeaders(m, init[..|init| - 1]), init[|init| - 1].0, init[|init| - 1].1)
  }

  /** A lower-cased name that no entry of `init` spells is left as `m` has it. */
  lemma {:induction false} FillHeadersUntouched(m: HeaderMap, init: Record, n: string)
    requires forall i :: 0 <= i < |init| ==> ToLower(init[i].0) != n
    ensures n in FillHeaders(m, init) <==> n in m
    ensures n in m ==> FillHeaders(m, init)[n] == m[n]
    decreases |init|
  {
    if init != [] {
      FillHeadersUntouched(m, init[..|init| - 1], n);
    }
  }

  /** A name is present after filling iff `m` had it or some entry spells it. */
  lemma {:induction false} FillHeadersKeys(m: HeaderMap, init: Record, n: string)
    ensures n in FillHeaders(m, init) <==> n in m || exists i :: 0 <= i < |init| && ToLower(init[i].0) == n
    decreases |init|
  {
    if init != [] {
      var prefix := init[..|init| - 1];
      var last := init[|init| - 1];
      FillHeadersKeys(m, prefix, n);
      assert n in FillHeaders(m, init) <==> n in FillHeaders(m, prefix) || ToLower(last.0) == n;
      SpellsLast(init, prefix, last, n);
    }
  }

  /** Some entry of a non-empty record spells `n` iff one of the entries
      before the last does or the last does. */
  lemma SpellsLast(init: Record, prefix: Record, last: (string, string), n: string)
    requires init != [] && prefix == init[..|init| - 1] && last == init[|init| - 1]
    ensures (exists i :: 0 <= i < |init| && ToLower(init[i].0) == n) <==>
            (exists i :: 0 <= i < |prefix| && ToLower(prefix[i].0) == n) || ToLower(last.0) == n
  {
    assert forall i :: 0 <= i < |prefix| ==> prefix[i] == init[i];
    assert init[|prefix|] == last;
  }

  /** When every entry spelling `n` is named exactly `k`, keys are distinct,
      and `m` lacks `n`, the filled headers hold `k`'s value under `n`. */
  lemma {:induction false} FillHeadersSingle(m: HeaderMap, init: Record, n: string, k: string)
    requires DistinctKeys(init) && HasKey(init, k) && ToLower(k) == n && n !in m
    requires forall i :: 0 <= i < |init| && ToLower(init[i].0) == n ==> init[i].0 == k
    ensures n in FillHeaders(m, init) && FillHeaders(m, init)[n] == LastValue(init, k).value
    decreases |init|
  {
    var prefix := init[..|init| - 1];
    var last := init[|init| - 1];
    assert forall i :: 0 <= i < |prefix| ==> prefix[i] == init[i];
    if last.0 == k {
      forall i | 0 <= i < |prefix| ensures ToLower(prefix[i].0) != n {
        assert prefix[i].0 != k;
      }
      FillHeadersUntouched(m, prefix, n);
    } else {
      var j :| 0 <= j < |init| && init[j].0 == k;
      assert j < |prefix| && prefix[j].0 == k;
      assert LastValue(init, k) == LastValue(prefix, k);
      FillHeadersSingle(m, prefix, n, k);
    }
  }

  /** Filling with one more entry appends that entry. */
  lemma FillHeadersStep(init: Record, i: nat)
    requires i < |init|
    ensures FillHeaders(map[], init[..i + 1]) == AppendHeader(FillHeaders(map[], init[..i]), init[i].0, init[i].1)
  {
    assert init[..i + 1][..i] == init[..i];
  }

  class Headers {
    var entries: HeaderMap

    /** `new Headers(record)`. */
    constructor (init: Record)
      ensures entries == FillHeaders(map[], init)
    {
      var m: HeaderMap := map[];
      var i := 0;
      while i < |init|
        invariant 0 <= i <= |init|
        invariant m == FillHeaders(map[], init[..i])
      {
        FillHeadersStep(init, i);
        m := AppendHeader(m, init[i].0, init[i].1);
        i := i + 1;
      }
      assert init[..|init|] == init;
      entries := m;
    }

    /** `headers.set(name, value)`. */
    method Set(name: string, value: string)
      modifies this
      ensures entries == old(entries)[ToLower(name) := value]
    {
      entries := entries[ToLower(name) := value];
    }
  }

  /** `HeadersInit`: a record, an array of name/value pairs, or a `Headers`. */
  datatype HeadersInit =
    | RecordInit(entries: Record)
    | PairsInit(pairs: seq<(string, string)>)
    | HeadersInstance(headers: Headers)

  /** The own enumerable properties `{ ...init }` copies: a record's entries;
      for an array, one property per index holding the pair joined by ","
      (as a header value converts it); none for a `Headers` object or `undefined`. */
  function SpreadEntries(init: Option<HeadersInit>): (r: Record)
    ensures init.Some? && init.value.RecordInit? ==> r == init.value.entries
    ensures init.None? || init.value.HeadersInstance? ==> r == []
    ensures init.Some? && init.value.PairsInit? ==> |r| == |init.value.pairs|
    ensures init.Some? && init.value.PairsInit? ==>
              forall i :: 0 <= i < |r| ==> r[i] == (NatToString(i), init.value.pairs[i].0 + "," + init.value.pairs[i].1)
  {
    match init
    case None => []
    case Some(RecordInit(entries)) => entries
    case Some(PairsInit(pairs)) => seq(|pairs|, i requires 0 <= i < |pairs| => (NatToString(i), pairs[i].0 + "," + pairs[i].1))
    case Some(HeadersInstance(_)) => []
  }
}
