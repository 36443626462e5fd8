/** The platform `URL` object the fetch-based adapter builds its request URL
    with. Of the URL parser the model keeps what decides the search
    parameters: the query of the string, split into `name=value` pairs the
    way the `application/x-www-form-urlencoded` parser of the WHATWG URL
    Standard (section 5.1) splits it. Percent-decoding and the rest of URL
    parsing are not modelled. */
module WebUrl {
  import opened Js

  /** The first index of `c` in `s`, or `|s|` when `c` does not occur. */
  function IndexOf(s: string, c: char): (i: nat)
    ensures i <= |s| && c !in s[..i]
    ensures i < |s| ==> s[i] == c
    ensures c !in s <==> i == |s|
  {
    if s == [] then 0
    else if s[0] == c then 0
    else
      var i := 1 + IndexOf(s[1..], c);
      assert s[..i] == [s[0]] + s[1..][..i - 1];
      i
  }

  /** The query of a URL string: what follows the first `?` that comes
      before any `#`, up to that `#`; empty without such a `?`. */
  function QueryText(s: string): (q: string)
    ensures '?' !in s ==> q == ""
    ensures '#' !in q
  {
    var h := IndexOf(s, '#');
    var p := IndexOf(s[..h], '?');
    if p == h then ""
    else
      assert s[p + 1..h] == s[..h][p + 1..];
      s[p + 1..h]
  }

  /** The pieces put back together with `c` between neighbours. */
  function Join(parts: seq<string>, c: char): (text: string)
    ensures forall d :: d in text ==> d == c || exists k :: 0 <= k < |parts| && d in parts[k]
  {
    if parts == [] then ""
    else if |parts| == 1 then parts[0]
    else
      var rest := Join(parts[1..], c);
      assert forall k :: 0 <= k < |parts| - 1 ==> parts[1..][k] == parts[k + 1];
      parts[0] + [c] + rest
  }

  /** `text` cut at every `c`: the pieces between the separators, in order,
      which joined with `c` give back `text`. */
  function Split(text: string, c: char): (parts: seq<string>)
    ensures |parts| >= 1
    ensures forall k :: 0 <= k < |parts| ==> c !in parts[k]
    ensures Join(parts, c) == text
    ensures c !in text ==> parts == [text]
    decreases |text|
  {
    var i := IndexOf(text, c);
    if i == |text| then
      assert text[..i] == text;
      [text]
    else
      var rest := Split(text[i + 1..], c);
      SplitStep(text, c, i, rest);
      [text[..i]] + rest
  }

  /** Cutting at the first `c` and then cutting what follows it. */
  lemma SplitStep(text: string, c: char, i: nat, rest: seq<string>)
    requires i < |text| && text[i] == c && c !in text[..i]
    requires |rest| >= 1 && Join(rest, c) == text[i + 1..]
    requires forall k :: 0 <= k < |rest| ==> c !in rest[k]
    ensures var parts := [text[..i]] + rest;
            Join(parts, c) == text && forall k :: 0 <= k < |parts| ==> c !in parts[k]
  {
    var parts := [text[..i]] + rest;
    assert parts[0] == text[..i] && parts[1..] == rest;
    assert Join(parts, c) == text[..i] + [c] + Join(rest, c);
    assert text == text[..i] + [c] + text[i + 1..];
    assert forall k :: 1 <= k < |parts| ==> parts[k] == rest[k - 1];
  }

  /** A `name=value` segment: the name before the first `=`, the value after
      it, and an empty value when there is no `=`. */
  function ParamPair(segment: string): (p: (string, string))
    ensures '=' !in p.0
    ensures '=' in segment ==> segment == p.0 + "=" + p.1
    ensures '=' !in segment ==> p == (segment, "")
  {
    var i := IndexOf(segment, '=');
    if i == |segment| then (segment, "")
    else
      assert segment == segment[..i] + "=" + segment[i + 1..];
      (segment[..i], segment[i + 1..])
  }

  /** The pairs of the non-empty segments, in order; empty segments are
      skipped (`ParamPairsAppend` and `ParamPairsSkipsEmpty` carry that to
      any list of segments). */
  function ParamPairs(segments: seq<string>): (r: Record)
    ensures |r| <= |segments|
    ensures (forall k :: 0 <= k < |segments| ==> segments[k] == "") ==> r == []
    ensures (forall k :: 0 <= k < |segments| ==> segments[k] != "") ==>
              |r| == |segments| && forall k :: 0 <= k < |r| ==> r[k] == ParamPair(segments[k])
  {
    if segments == [] then []
    else
      var rest := ParamPairs(segments[1..]);
      assert forall k :: 0 <= k < |segments| - 1 ==> segments[1..][k] == segments[k + 1];
      (if segments[0] == "" then [] else [ParamPair(segments[0])]) + rest
  }

  /** The search parameters `new URL(s)` starts with: a query of one
      non-empty segment gives its one pair. */
  function ParsedQuery(s: string): (r: Record)
    ensures '?' !in s ==> r == []
    ensures QueryText(s) != "" && '&' !in QueryText(s) ==> r == [ParamPair(QueryText(s))]
  {
    ParamPairs(Split(QueryText(s), '&'))
  }

  /** `name=value`, the text of one pair. */
  function PairText(p: (string, string)): string {
    p.0 + "=" + p.1
  }

  /** `name1=value1&name2=value2…`, the query text of a list of pairs. */
  function QueryString(ps: Record): string {
    Join(Map(PairText, ps), '&')
  }

  /** Splitting the joined pieces gives them back when none holds `c`. */
  lemma {:induction false} SplitJoin(parts: seq<string>, c: char)
    requires |parts| >= 1 && forall k :: 0 <= k < |parts| ==> c !in parts[k]
    ensures Split(Join(parts, c), c) == parts
    decreases |parts|
  {
    if |parts| > 1 {
      var rest := Join(parts[1..], c);
      var text := parts[0] + [c] + rest;
      assert Join(parts, c) == text;
      assert text[..|parts[0]|] == parts[0];
      IndexOfAt(text, c, |parts[0]|);
      assert text[|parts[0]| + 1..] == rest;
      assert Split(text, c) == [parts[0]] + Split(rest, c);
      SplitJoin(parts[1..], c);
      assert parts == [parts[0]] + parts[1..];
    }
  }

  /** The pairs of two runs of segments are the pairs of each, in order. */
  lemma {:induction false} ParamPairsAppend(a: seq<string>, b: seq<string>)
    ensures ParamPairs(a + b) == ParamPairs(a) + ParamPairs(b)
    decreases |a|
  {
    if a == [] {
      assert a + b == b;
    } else {
      assert (a + b)[0] == a[0];
      assert (a + b)[1..] == a[1..] + b;
      ParamPairsAppend(a[1..], b);
    }
  }

  /** An empty segment anywhere contributes no pair. */
  lemma ParamPairsSkipsEmpty(a: seq<string>, b: seq<string>)
    ensures ParamPairs(a + [""] + b) == ParamPairs(a + b)
  {
    ParamPairsAppend(a + [""], b);
    ParamPairsAppend(a, [""]);
    ParamPairsAppend(a, b);
  }

  /** `IndexOf` finds the first occurrence. */
  lemma IndexOfAt(s: string, c: char, i: nat)
    requires i < |s| && s[i] == c && c !in s[..i]
    ensures IndexOf(s, c) == i
  {
    var j := IndexOf(s, c);
    assert forall k :: 0 <= k < i ==> s[..i][k] == s[k];
    assert forall k :: 0 <= k < j ==> s[..j][k] == s[k];
  }

  /** The query of `location?rest` is `rest`. */
  lemma QueryTextAfter(location: string, rest: string)
    requires '?' !in location && '#' !in location && '#' !in rest
    ensures QueryText(location + "?" + rest) == rest
  {
    var s := location + "?" + rest;
    assert '#' !in s by {
      assert forall k :: 0 <= k < |s| ==> s[k] == if k < |location| then location[k] else if k == |location| then '?' else rest[k - |location| - 1];
    }
    assert s[..|s|] == s;
    assert s[..|location|] == location;
    IndexOfAt(s, '?', |location|);
    assert s[|location| + 1..] == rest;
  }

  /** `name=value` splits into `name` and `value` when `name` has no `=`. */
  lemma ParamPairOf(name: string, value: string)
    requires '=' !in name
    ensures ParamPair(name + "=" + value) == (name, value)
  {
    var rest := name + "=" + value;
    assert rest[..|name|] == name;
    IndexOfAt(rest, '=', |name|);
    assert rest[|name| + 1..] == value;
  }

  /** A location without query or fragment followed by `?` and the query
      text of a list of pairs, as the example service builds
      `/example?<query>`, parses back to exactly those pairs, provided no
      name is empty or holds `=`, `&` or `#` and no value holds `&` or `#`. */
  lemma ParsedQueryOfPairs(location: string, ps: Record)
    requires '?' !in location && '#' !in location
    requires forall k :: 0 <= k < |ps| ==>
               ps[k].0 != "" && '=' !in ps[k].0 && '&' !in ps[k].0 && '#' !in ps[k].0 &&
               '&' !in ps[k].1 && '#' !in ps[k].1
    ensures ParsedQuery(location + "?" + QueryString(ps)) == ps
  {
    var texts := Map(PairText, ps);
    var q := QueryString(ps);
    PairTextsFree(ps);
    assert '#' !in q;
    QueryTextAfter(location, q);
    if ps == [] {
      assert Split(q, '&') == [""];
    } else {
      SplitJoin(texts, '&');
      ParamPairsOfTexts(ps);
    }
  }

  /** The text of a pair whose parts hold no `&` or `#` holds neither, and
      is not empty. */
  lemma PairTextsFree(ps: Record)
    requires forall k :: 0 <= k < |ps| ==> '&' !in ps[k].0 && '#' !in ps[k].0 && '&' !in ps[k].1 && '#' !in ps[k].1
    ensures forall k :: 0 <= k < |ps| ==> var t := Map(PairText, ps)[k]; t != "" && '&' !in t && '#' !in t
  {
    var texts := Map(PairText, ps);
    forall k | 0 <= k < |texts|
      ensures texts[k] != "" && '&' !in texts[k] && '#' !in texts[k]
    {
      assert texts[k] == ps[k].0 + "=" + ps[k].1;
    }
  }

  /** The texts of pairs whose names hold no `=` parse back to the pairs. */
  lemma ParamPairsOfTexts(ps: Record)
    requires forall k :: 0 <= k < |ps| ==> '=' !in ps[k].0
    ensures ParamPairs(Map(PairText, ps)) == ps
  {
    var texts := Map(PairText, ps);
    forall k | 0 <= k < |ps| ensures texts[k] != "" && ParamPair(texts[k]) == ps[k] {
      assert texts[k] == ps[k].0 + "=" + ps[k].1;
      ParamPairOf(ps[k].0, ps[k].1);
    }
    var r := ParamPairs(texts);
    assert |r| == |ps| && forall k :: 0 <= k < |r| ==> r[k] == ParamPair(texts[k]);
  }

  /** What `url.toString()` renders: the string the URL was parsed from and
      its search parameters, in order. */
  datatype UrlValue = UrlValue(location: string, query: seq<(string, string)>)

  /** `url.searchParams`. */
  class SearchParams {
    var pairs: seq<(string, string)>

    /** The parameters a parsed query starts with. */
    constructor (init: seq<(string, string)>)
      ensures pairs == init
    {
      pairs := init;
    }

    /** `searchParams.append(key, value)`. */
    method Append(key: string, value: string)
      modifies this
      ensures pairs == old(pairs) + [(key, value)]
    {
      pairs := pairs + [(key, value)];
    }

    /** `append` called for each entry of a record, as a `forEach` over its
        entries does: every entry goes after the parameters already there,
        in entry order. */
    method AppendEntries(entries: seq<(string, string)>)
      modifies this
      ensures pairs == old(pairs) + entries
    {
      ghost var before := pairs;
      for i := 0 to |entries|
        invariant pairs == before + entries[..i]
      {
        Append(entries[i].0, entries[i].1);
        assert entries[..i + 1] == entries[..i] + [entries[i]];
      }
      assert entries[..|entries|] == entries;
    }
  }

  class Url {
    const location: string
    const searchParams: SearchParams

    /** `new URL(location)`: the search parameters start as the query
        parsed out of `location`. */
    constructor (location: string)
      ensures this.location == location
      ensures fresh(searchParams) && searchParams.pairs == ParsedQuery(location)
    {
      this.location := location;
      searchParams := new SearchParams(ParsedQuery(location));
    }

    /** `url.toString()`. */
    function ToValue(): (v: UrlValue)
      reads searchParams
      ensures v.location == location && v.query == searchParams.pairs
    {
      UrlValue(location, searchParams.pairs)
    }
  }
}
