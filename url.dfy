/** The part of `URLSearchParams` the client uses: `append` followed by
    `toString()` when it builds a request, and `get(key)` when a page reads
    its own query string. Percent-encoding is not modelled: keys and values
    are taken to be free of the characters that would need it. */
module Url {
  import opened Text
  import opened Wrappers

  /** One `key=value` pair of a query string. */
  datatype Param = Param(key: string, value: string)

  function Pair(p: Param): string {
    p.key + "=" + p.value
  }

  function Pairs(ps: seq<Param>): (r: seq<string>)
    ensures |r| == |ps|
    ensures forall i :: 0 <= i < |ps| ==> r[i] == Pair(ps[i])
  {
    if ps == [] then [] else [Pair(ps[0])] + Pairs(ps[1..])
  }

  /** `params.toString()`: the pairs joined with '&'. */
  function Serialize(ps: seq<Param>): (r: string)
    ensures ps == [] ==> r == ""
    ensures |ps| == 1 ==> r == ps[0].key + "=" + ps[0].value
  {
    Join(Pairs(ps), '&')
  }

  /** One piece of a query string: the key runs up to the first '=', the
      value is the rest; a piece without '=' has an empty value. */
  function ParsePair(piece: string): (p: Param)
  {
    var k := IndexOf(piece, '=');
    if k == |piece| then Param(piece, "") else Param(piece[..k], piece[k + 1..])
  }

  /** `new URLSearchParams(query)`: the query split on '&', empty pieces skipped. */
  function ParseQuery(q: string): (r: seq<Param>)
    ensures q == "" ==> r == []
    ensures |r| <= |Split(q, '&')|
  {
    assert q == "" ==> Split(q, '&') == [""];
    ParsePieces(Split(q, '&'))
  }

  function ParsePieces(pieces: seq<string>): (r: seq<Param>)
    ensures |r| <= |pieces|
  {
    if pieces == [] then []
    else if pieces[0] == "" then ParsePieces(pieces[1..])
    else [ParsePair(pieces[0])] + ParsePieces(pieces[1..])
  }

  /** `params.get(key)`: the value of the first pair with that key. */
  function Get(ps: seq<Param>, key: string): (r: Option<string>)
    ensures r.None? <==> forall i :: 0 <= i < |ps| ==> ps[i].key != key
    ensures r.Some? ==>
              (exists i :: 0 <= i < |ps| && ps[i].key == key && r.value == ps[i].value &&
                 forall j :: 0 <= j < i ==> ps[j].key != key)
  {
    if ps == [] then None
    else if ps[0].key == key then Some(ps[0].value)
    else Get(ps[1..], key)
  }

  /** The query string of a relative URL: what follows the first '?'. */
  function QueryOf(url: string): (r: string)
    ensures '?' !in url ==> r == ""
    ensures '?' in url ==> |r| < |url| && url[|url| - |r| - 1] == '?' && r == url[|url| - |r|..]
    ensures '?' in url ==> forall i :: 0 <= i < |url| - |r| - 1 ==> url[i] != '?'
  {
    var k := IndexOf(url, '?');
    if k == |url| then "" else url[k + 1..]
  }

  predicate Plain(p: Param) {
    '&' !in p.key && '=' !in p.key && '&' !in p.value
  }

  /** Reading back a serialised query gives the same pairs in the same order. */
  lemma {:induction false} ParseSerialize(ps: seq<Param>)
    requires forall i :: 0 <= i < |ps| ==> Plain(ps[i])
    ensures ParseQuery(Serialize(ps)) == ps
  {
    if ps == [] {
      assert Split("", '&') == [""];
    } else {
      var xs := Pairs(ps);
      forall i | 0 <= i < |xs| ensures '&' !in xs[i] {
        assert xs[i] == ps[i].key + "=" + ps[i].value;
      }
      SplitJoin(xs, '&');
      PiecesOfPairs(ps);
    }
  }

  lemma {:induction false} PiecesOfPairs(ps: seq<Param>)
    requires forall i :: 0 <= i < |ps| ==> Plain(ps[i])
    ensures ParsePieces(Pairs(ps)) == ps
  {
    if ps != [] {
      var p := ps[0];
      assert Pairs(ps) == [Pair(p)] + Pairs(ps[1..]);
      assert Pair(p) != "";
      IndexOfAfterPrefix(p.key, p.value, '=');
      assert Pair(p) == p.key + ['='] + p.value;
      assert ParsePair(Pair(p)) == p by {
        var s := Pair(p);
        assert s[..|p.key|] == p.key;
        assert s[|p.key| + 1..] == p.value;
      }
      assert Pairs(ps)[1..] == Pairs(ps[1..]);
      PiecesOfPairs(ps[1..]);
    }
  }

  /** The query of `path + "?" + q` is `q` when the path has no '?'. */
  lemma QueryOfAppended(path: string, q: string)
    requires '?' !in path
    ensures QueryOf(path + "?" + q) == q
  {
    IndexOfAfterPrefix(path, q, '?');
    assert (path + "?" + q) == path + ['?'] + q;
    assert (path + "?" + q)[|path| + 1..] == q;
  }

  /** The same, for a head that already ends in its '?'. */
  lemma QueryAfter(head: string, q: string)
    requires head != [] && head[|head| - 1] == '?'
    requires '?' !in head[..|head| - 1]
    ensures QueryOf(head + q) == q
  {
    var path := head[..|head| - 1];
    assert head == path + "?";
    assert head + q == path + "?" + q;
    QueryOfAppended(path, q);
  }

  /** A URL made of a '?'-terminated head and serialised plain parameters
      reads back as exactly those parameters, in order. */
  lemma ReadBack(head: string, ps: seq<Param>)
    requires head != [] && head[|head| - 1] == '?'
    requires '?' !in head[..|head| - 1]
    requires forall i :: 0 <= i < |ps| ==> Plain(ps[i])
    ensures ParseQuery(QueryOf(head + Serialize(ps))) == ps
  {
    QueryAfter(head, Serialize(ps));
    ParseSerialize(ps);
  }
}
