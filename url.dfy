/**
 * A simplified model of the URL parsing the API client relies on
 * (`new URL(url).searchParams`): a URL parses when it starts with a scheme;
 * its query is the text after the first `?` and before the next `#`; the
 * query is split at `&` into non-empty segments and each segment at its
 * first `=` into a name and a value. Percent-decoding is not modelled.
 */
module Url {
  import opened Wrappers

  /** The name/value pairs of a query, in order (a `URLSearchParams`). */
  type Params = seq<(string, string)>

  /** The value of the first pair named `key`, or absent (`URLSearchParams.get`). */
  function Get(ps: Params, key: string): (r: Option<string>)
    ensures r.None? <==> forall i :: 0 <= i < |ps| ==> ps[i].0 != key
    ensures r.Some? ==> exists i :: 0 <= i < |ps| && ps[i] == (key, r.value) &&
                                    forall j :: 0 <= j < i ==> ps[j].0 != key
  {
    if ps == [] then None
    else if ps[0].0 == key then Some(ps[0].1)
    else
      var r := Get(ps[1..], key);
      assert r.Some? ==> exists i :: 1 <= i < |ps| && ps[i] == (key, r.value) &&
                                     forall j :: 0 <= j < i ==> ps[j].0 != key by {
        if r.Some? {
          var i :| 0 <= i < |ps[1..]| && ps[1..][i] == (key, r.value) &&
                   forall j :: 0 <= j < i ==> ps[1..][j].0 != key;
          assert ps[i + 1] == (key, r.value);
          forall j | 0 <= j < i + 1 ensures ps[j].0 != key {
            if j > 0 { assert ps[j] == ps[1..][j - 1]; }
          }
        }
      }
      r
  }

  /** The pair at index `i` is the first named `key`, so `Get` returns its value. */
  lemma GetAt(ps: Params, i: nat, key: string)
    requires i < |ps| && ps[i].0 == key
    requires forall j :: 0 <= j < i ==> ps[j].0 != key
    ensures Get(ps, key) == Some(ps[i].1)
  {
  }

  predicate IsAlpha(c: char) { 'a' <= c <= 'z' || 'A' <= c <= 'Z' }

  /** The characters a scheme may hold after its first letter. */
  predicate IsSchemeChar(c: char) { IsAlpha(c) || '0' <= c <= '9' || c == '+' || c == '-' || c == '.' }

  /** `s` starts with a scheme: a letter, scheme characters, then `:`. */
  predicate HasScheme(s: string)
  {
    exists i :: 0 < i < |s| && s[i] == ':' && IsAlpha(s[0]) && forall j :: 0 < j < i ==> IsSchemeChar(s[j])
  }

  /** The prefix of `s` before the first `c` (all of `s` when there is none). */
  function TakeUntil(s: string, c: char): (r: string)
    ensures |r| <= |s| && r == s[..|r|] && c !in r
    ensures |r| < |s| ==> s[|r|] == c
  {
    if s == [] || s[0] == c then [] else [s[0]] + TakeUntil(s[1..], c)
  }

  /** The query of a URL: after the first `?`, up to the next `#`; empty when a `#` comes first or there is no `?`. */
  function Search(s: string): string
  {
    if s == [] || s[0] == '#' then []
    else if s[0] == '?' then TakeUntil(s[1..], '#')
    else Search(s[1..])
  }

  /** The pieces of `s` between occurrences of `c`; at least one piece. */
  function SplitOn(s: string, c: char): (r: seq<string>)
    ensures |r| >= 1
  {
    if s == [] then [[]]
    else
      var rest := SplitOn(s[1..], c);
      if s[0] == c then [[]] + rest else [[s[0]] + rest[0]] + rest[1..]
  }

  /** A query segment split at its first `=`; a segment without one has an empty value. */
  function ParseSegment(seg: string): (string, string)
  {
    var name := TakeUntil(seg, '=');
    (name, if |name| < |seg| then seg[|name| + 1..] else [])
  }

  /** The pairs of the non-empty segments, in order. */
  function ParseSegments(segs: seq<string>): Params
  {
    if segs == [] then []
    else if segs[0] == [] then ParseSegments(segs[1..])
    else [ParseSegment(segs[0])] + ParseSegments(segs[1..])
  }

  /** The pairs of a query string. */
  function ParseQuery(q: string): Params
  {
    ParseSegments(SplitOn(q, '&'))
  }

  /** The pairs of a URL's query, or absent when the URL does not parse. */
  function SearchParams(url: string): (r: Option<Params>)
    ensures r.Some? <==> HasScheme(url)
  {
    if HasScheme(url) then Some(ParseQuery(Search(url))) else None
  }

  /** A query string built from pairs, `name=value` joined by `&`, without encoding. */
  function Serialize(ps: Params): string
  {
    if ps == [] then []
    else if |ps| == 1 then ps[0].0 + "=" + ps[0].1
    else ps[0].0 + "=" + ps[0].1 + "&" + Serialize(ps[1..])
  }

  /** A pair that serializes without characters the parser treats as delimiters. */
  predicate Plain(p: (string, string))
  {
    '&' !in p.0 && '#' !in p.0 && '=' !in p.0 && '&' !in p.1 && '#' !in p.1
  }

  lemma TakeUntilAbsent(s: string, c: char)
    requires c !in s
    ensures TakeUntil(s, c) == s
  {
  }

  lemma {:induction false} TakeUntilAt(a: string, c: char, b: string)
    requires c !in a
    ensures TakeUntil(a + [c] + b, c) == a
  {
    if a != [] {
      assert (a + [c] + b)[1..] == a[1..] + [c] + b;
      TakeUntilAt(a[1..], c, b);
    }
  }

  lemma {:induction false} SplitOnAbsent(s: string, c: char)
    requires c !in s
    ensures SplitOn(s, c) == [s]
  {
    if s != [] {
      SplitOnAbsent(s[1..], c);
      assert [s[0]] + s[1..] == s;
    }
  }

  lemma {:induction false} SplitOnAt(a: string, c: char, b: string)
    requires c !in a
    ensures SplitOn(a + [c] + b, c) == [a] + SplitOn(b, c)
  {
    if a == [] {
      assert a + [c] + b == [c] + b;
    } else {
      assert (a + [c] + b)[1..] == a[1..] + [c] + b;
      SplitOnAt(a[1..], c, b);
      assert [a[0]] + a[1..] == a;
    }
  }

  /** The query of `base + "?" + q` is `q`, when `base` holds no `?` or `#` and `q` no `#`. */
  lemma {:induction false} SearchAfterBase(base: string, q: string)
    requires '?' !in base && '#' !in base && '#' !in q
    ensures Search(base + "?" + q) == q
  {
    if base == [] {
      assert (base + "?" + q)[1..] == q;
      TakeUntilAbsent(q, '#');
    } else {
      assert (base + "?" + q)[1..] == base[1..] + "?" + q;
      SearchAfterBase(base[1..], q);
    }
  }

  lemma ParseSegmentPlain(p: (string, string))
    requires Plain(p)
    ensures ParseSegment(p.0 + "=" + p.1) == p
  {
    var seg := p.0 + "=" + p.1;
    assert seg == p.0 + ['='] + p.1;
    TakeUntilAt(p.0, '=', p.1);
    assert seg[|p.0| + 1..] == p.1;
  }

  /** Parsing a serialized query gives back its pairs. */
  lemma {:induction false} ParseSerialize(ps: Params)
    requires forall i :: 0 <= i < |ps| ==> Plain(ps[i])
    ensures ParseQuery(Serialize(ps)) == ps
  {
    if ps == [] {
    } else {
      var seg := ps[0].0 + "=" + ps[0].1;
      ParseSegmentPlain(ps[0]);
      assert seg != [];
      assert '&' !in seg;
      if |ps| == 1 {
        SplitOnAbsent(seg, '&');
        assert Serialize(ps) == seg;
        assert ParseSegments([seg]) == [ParseSegment(seg)] + ParseSegments([]);
        assert ps == [ps[0]];
      } else {
        ParseSerialize(ps[1..]);
        assert Serialize(ps) == seg + ['&'] + Serialize(ps[1..]);
        SplitOnAt(seg, '&', Serialize(ps[1..]));
      }
    }
  }

  /** A URL made of a base and a serialized query parses back to the query's pairs. */
  lemma SearchParamsRoundTrip(base: string, ps: Params)
    requires HasScheme(base) && '?' !in base && '#' !in base
    requires forall i :: 0 <= i < |ps| ==> Plain(ps[i])
    ensures SearchParams(base + "?" + Serialize(ps)) == Some(ps)
  {
    var url := base + "?" + Serialize(ps);
    var i :| 0 < i < |base| && base[i] == ':' && IsAlpha(base[0]) && forall j :: 0 < j < i ==> IsSchemeChar(base[j]);
    assert url[i] == ':' && url[0] == base[0] && forall j :: 0 < j < i ==> url[j] == base[j];
    assert HasScheme(url);
    assert '#' !in Serialize(ps) by { SerializeNoHash(ps); }
    SearchAfterBase(base, Serialize(ps));
    ParseSerialize(ps);
  }

  lemma {:induction false} SerializeNoHash(ps: Params)
    requires forall i :: 0 <= i < |ps| ==> Plain(ps[i])
    ensures '#' !in Serialize(ps)
  {
    if |ps| > 1 { SerializeNoHash(ps[1..]); }
  }
}
