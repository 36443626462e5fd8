/** JavaScript value-level building blocks shared by the data-access layer:
    optional and nullable properties, `Array.prototype.map`, template-literal
    rendering of non-negative integers, and plain objects whose own
    properties are listed in enumeration order. */
module Js {

  /** A value that may be missing (`undefined`). */
  datatype Option<+T> = None | Some(value: T)

  /** A property typed `T | null | undefined`: missing, explicitly `null`,
      or holding a value. */
  datatype Nullable<+T> = Undefined | Null | Value(value: T) {
    /** Truthiness of a property that holds an object: only a held value is truthy. */
    predicate IsPresent() { Value? }
  }

  /** `if (s)` on a `string | undefined`: present and not the empty string. */
  predicate IsTruthy(s: Option<string>) {
    s.Some? && s.value != ""
  }

  /** `Array.prototype.map`: one result per element, in order. */
  function Map<A, B>(f: A -> B, xs: seq<A>): (ys: seq<B>)
    ensures |ys| == |xs|
    ensures forall i :: 0 <= i < |xs| ==> ys[i] == f(xs[i])
  {
    if xs == [] then [] else [f(xs[0])] + Map(f, xs[1..])
  }

  // ---------------------------------------------------------------------
  // `${n}` for a non-negative integer

  predicate IsDigit(c: char) { '0' <= c <= '9' }

  predicate IsDigits(s: string) {
    forall i :: 0 <= i < |s| ==> IsDigit(s[i])
  }

  function DigitChar(d: nat): (c: char)
    requires d < 10
    ensures IsDigit(c) && c as int - '0' as int == d
  {
    ('0' as int + d) as char
  }

  /** The decimal numeral a template literal produces for `n`. */
  function NatToString(n: nat): (s: string)
    ensures |s| >= 1 && IsDigits(s)
    ensures (s[0] == '0') == (n == 0)
    decreases n
  {
    if n < 10 then [DigitChar(n)] else NatToString(n / 10) + [DigitChar(n % 10)]
  }

  /** The number a string of decimal digits denotes. */
  function DigitsValue(s: string): (n: nat)
    requires IsDigits(s)
  {
    if s == [] then 0 else DigitsValue(s[..|s| - 1]) * 10 + (s[|s| - 1] as int - '0' as int)
  }

  /** Reading a rendered numeral back gives the number. */
  lemma {:induction false} NatToStringValue(n: nat)
    ensures DigitsValue(NatToString(n)) == n
    decreases n
  {
    var s := NatToString(n);
    if n < 10 {
      assert s[..|s| - 1] == [];
    } else {
      NatToStringValue(n / 10);
      assert s[..|s| - 1] == NatToString(n / 10);
    }
  }

  /** Distinct numbers render as distinct numerals. */
  lemma NatToStringInjective(m: nat, n: nat)
    ensures NatToString(m) == NatToString(n) ==> m == n
  {
    NatToStringValue(m);
    NatToStringValue(n);
  }

  // ---------------------------------------------------------------------
  // Plain objects: own properties as (key, value) entries in enumeration order

  /** A `Record<string, string>`, its entries in `Object.entries` order. */
  type Record = seq<(string, string)>

  predicate HasKey<V>(entries: seq<(string, V)>, key: string) {
    exists i :: 0 <= i < |entries| && entries[i].0 == key
  }

  predicate DistinctKeys<V>(entries: seq<(string, V)>) {
    forall i, j :: 0 <= i < j < |entries| ==> entries[i].0 != entries[j].0
  }

  /** The value the last entry named `key` holds: what reading the property
      gives once the entries have been assigned in order. */
  function LastValue<V>(entries: seq<(string, V)>, key: string): (r: Option<V>)
    ensures r.None? <==> !HasKey(entries, key)
    ensures r.Some? ==> exists i :: 0 <= i < |entries| && entries[i].0 == key && entries[i].1 == r.value
                                  && forall j :: i < j < |entries| ==> entries[j].0 != key
  {
    if entries == [] then None
    else if entries[|entries| - 1].0 == key then Some(entries[|entries| - 1].1)
    else
      var r := LastValue(entries[..|entries| - 1], key);
      assert forall i :: 0 <= i < |entries| - 1 ==> entries[..|entries| - 1][i] == entries[i];
      r
  }

  /** `obj[key] = value`: an existing property keeps its place, a new one goes last. */
  function Assign(obj: Record, key: string, value: string): (r: Record)
    ensures forall k :: HasKey(r, k) <==> HasKey(obj, k) || k == key
    ensures DistinctKeys(obj) ==> DistinctKeys(r)
    ensures DistinctKeys(obj) ==> forall k :: LastValue(r, k) == if k == key then Some(value) else LastValue(obj, k)
  {
    if obj == [] then
      var r := [(key, value)];
      assert r[0].0 == key;
      r
    else if obj[0].0 == key then AssignHead(obj, value)
    else
      var rest := Assign(obj[1..], key, value);
      ConsKeys(obj[0], obj[1..]);
      ConsKeys(obj[0], rest);
      assert DistinctKeys(obj) ==> !HasKey(obj[1..], obj[0].0);
      assert DistinctKeys(obj) ==> DistinctKeys(obj[1..]);
      [obj[0]] + rest
  }

  /** `obj` with the value of its first entry replaced. */
  function AssignHead(obj: Record, value: string): (r: Record)
    requires obj != []
    ensures forall k :: HasKey(r, k) <==> HasKey(obj, k)
    ensures DistinctKeys(obj) ==> DistinctKeys(r)
    ensures DistinctKeys(obj) ==> forall k :: LastValue(r, k) == if k == obj[0].0 then Some(value) else LastValue(obj, k)
  {
    var r := [(obj[0].0, value)] + obj[1..];
    ConsKeys(obj[0], obj[1..]);
    ConsKeys(r[0], obj[1..]);
    assert r[1..] == obj[1..];
    assert DistinctKeys(obj) ==> !HasKey(obj[1..], obj[0].0);
    r
  }

  /** How the keys and last values of `[e] + rest` relate to those of `rest`. */
  lemma ConsKeys(e: (string, string), rest: Record)
    ensures forall k :: HasKey([e] + rest, k) <==> k == e.0 || HasKey(rest, k)
    ensures DistinctKeys([e] + rest) <==> !HasKey(rest, e.0) && DistinctKeys(rest)
    ensures forall k :: LastValue([e] + rest, k) == if HasKey(rest, k) then LastValue(rest, k) else if k == e.0 then Some(e.1) else None
  {
    var s := [e] + rest;
    assert s[0] == e;
    forall k ensures HasKey(s, k) <==> k == e.0 || HasKey(rest, k) {
      if k == e.0 {
        assert s[0].0 == k;
      }
      if HasKey(rest, k) {
        var i :| 0 <= i < |rest| && rest[i].0 == k;
        assert s[i + 1] == rest[i];
      }
      if HasKey(s, k) && k != e.0 {
        var i :| 0 <= i < |s| && s[i].0 == k;
        assert rest[i - 1] == s[i];
      }
    }
    if !HasKey(rest, e.0) && DistinctKeys(rest) {
      forall i, j | 0 <= i < j < |s| ensures s[i].0 != s[j].0 {
        if i == 0 {
          assert rest[j - 1] == s[j];
        } else {
          assert rest[i - 1] == s[i] && rest[j - 1] == s[j];
        }
      }
    }
    if DistinctKeys(s) {
      forall i | 0 <= i < |rest| ensures rest[i].0 != e.0 {
        assert s[i + 1] == rest[i];
      }
      forall i, j | 0 <= i < j < |rest| ensures rest[i].0 != rest[j].0 {
        assert s[i + 1] == rest[i] && s[j + 1] == rest[j];
      }
    }
    forall k ensures LastValue(s, k) == if HasKey(rest, k) then LastValue(rest, k) else if k == e.0 then Some(e.1) else None {
      LastValueCons(e, rest, k);
    }
  }

  lemma {:induction false} LastValueCons(e: (string, string), rest: Record, k: string)
    ensures LastValue([e] + rest, k) == if HasKey(rest, k) then LastValue(rest, k) else if k == e.0 then Some(e.1) else None
    decreases |rest|
  {
    var s := [e] + rest;
    if rest == [] {
      assert s == [e];
    } else {
      assert s[..|s| - 1] == [e] + rest[..|rest| - 1];
      assert s[|s| - 1] == rest[|rest| - 1];
      LastValueCons(e, rest[..|rest| - 1], k);
    }
  }

  /** `Object.assign(obj, props)`, one property after the other: the object
      `{ ...obj, ...props }` denotes. */
  function AssignAll(obj: Record, props: Record): (r: Record)
    ensures forall k :: HasKey(r, k) <==> HasKey(obj, k) || HasKey(props, k)
    ensures DistinctKeys(obj) ==> DistinctKeys(r)
    ensures DistinctKeys(obj) ==> forall k :: LastValue(r, k) == if HasKey(props, k) then LastValue(props, k) else LastValue(obj, k)
    decreases |props|
  {
    if props == [] then obj
    else
      var r := AssignAll(Assign(obj, props[0].0, props[0].1), props[1..]);
      assert props == [props[0]] + props[1..];
      ConsKeys(props[0], props[1..]);
      r
  }
}
