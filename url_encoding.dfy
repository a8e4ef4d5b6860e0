/** The query-string structure of `urllib.parse.urlencode` over an ordered
    list of pairs: each pair becomes `quote(key) + "=" + quote(value)` and
    the pieces are joined with `&`, in order. The per-component encoder
    (`quote_plus`) is a parameter; `ParseQuery` is the receiving side. */
module UrlEncoding {
  import opened Text

  /** A per-component encoder or decoder. */
  type Coder = string -> string

  /** The `key=value` piece of one pair. It always holds an `=`; when the
      encoder keeps `&` and `=` out, it holds no `&`, and its first `=`
      separates the encoded key from the encoded value. */
  function Component(pair: (string, string), quote: Coder): (part: string)
    ensures '=' in part
    ensures Structural(quote) ==>
      '&' !in part && part[..FirstIndex(part, '=')] == quote(pair.0)
      && part[FirstIndex(part, '=') + 1..] == quote(pair.1)
  {
    var k, v := quote(pair.0), quote(pair.1);
    assert k + "=" + v == k + ['='] + v;
    assert Structural(quote) ==> FirstIndex(k + ['='] + v, '=') == |k| by {
      if Structural(quote) {
        assert '=' !in k;
        FirstIndexAfter(k, '=', v);
      }
    }
    k + "=" + v
  }

  /** The pieces of all pairs, in order. */
  function Components(items: seq<(string, string)>, quote: Coder): (parts: seq<string>)
    ensures |parts| == |items|
    ensures forall i :: 0 <= i < |items| ==> parts[i] == Component(items[i], quote)
  {
    seq(|items|, i requires 0 <= i < |items| => Component(items[i], quote))
  }

  /** `urlencode(items)` with `quote_via=quote`: empty exactly when there
      are no pairs, and, when the encoder keeps `&` and `=` out, split on
      `&` into the pieces of the pairs in order. */
  function UrlEncode(items: seq<(string, string)>, quote: Coder): (s: string)
    ensures s == "" <==> items == []
    ensures Structural(quote) && items != [] ==> Split(s, '&') == Components(items, quote)
  {
    var parts := Components(items, quote);
    assert items != [] ==> |Join(parts, "&")| >= |parts[0]| >= 1;
    assert Structural(quote) && items != [] ==> Split(Join(parts, "&"), '&') == parts by {
      if Structural(quote) && items != [] {
        assert forall i :: 0 <= i < |parts| ==> '&' !in parts[i];
        SplitJoin(parts, '&');
      }
    }
    Join(parts, "&")
  }

  /** The encoder never emits the two characters that structure a query. */
  ghost predicate Structural(quote: Coder)
  {
    forall x :: '&' !in quote(x) && '=' !in quote(x)
  }

  /** `unquote` undoes `quote`. */
  ghost predicate Inverts(unquote: Coder, quote: Coder)
  {
    forall x :: unquote(quote(x)) == x
  }

  /** One `key=value` piece read back: split at the first `=`. */
  function ParsePair(part: string, unquote: Coder): (string, string)
  {
    if '=' in part then
      var i := FirstIndex(part, '=');
      (unquote(part[..i]), unquote(part[i + 1..]))
    else (unquote(part), "")
  }

  /** A query string read back into its ordered pairs (the empty query has none). */
  function ParseQuery(s: string, unquote: Coder): (items: seq<(string, string)>)
    ensures s == "" <==> items == []
  {
    if s == "" then []
    else
      var parts := Split(s, '&');
      seq(|parts|, i requires 0 <= i < |parts| => ParsePair(parts[i], unquote))
  }

  /** One piece reads back as the pair it was made from. */
  lemma ParseComponent(pair: (string, string), quote: Coder, unquote: Coder)
    requires Structural(quote) && Inverts(unquote, quote)
    ensures ParsePair(Component(pair, quote), unquote) == pair
  {
    var k, v := quote(pair.0), quote(pair.1);
    assert '=' !in k;
    FirstIndexAfter(k, '=', v);
    var part := k + "=" + v;
    assert part == k + ['='] + v;
    assert part[..|k|] == k;
    assert part[|k| + 1..] == v;
  }

  /** Round trip: a query string produced by `UrlEncode` parses back into
      exactly the pairs it was made from, in the same order, whenever the
      component encoder keeps `&` and `=` out of its output and is undone
      by the decoder. */
  lemma ParseUrlEncode(items: seq<(string, string)>, quote: Coder, unquote: Coder)
    requires Structural(quote) && Inverts(unquote, quote)
    ensures ParseQuery(UrlEncode(items, quote), unquote) == items
  {
    var parts := Components(items, quote);
    if |items| > 0 {
      forall i | 0 <= i < |parts| ensures '&' !in parts[i] {
        assert parts[i] == quote(items[i].0) + "=" + quote(items[i].1);
        assert '&' !in quote(items[i].0) && '&' !in quote(items[i].1);
      }
      SplitJoin(parts, '&');
      var s := UrlEncode(items, quote);
      assert |parts[0]| >= 1;
      assert s != "";
      var got := ParseQuery(s, unquote);
      forall i | 0 <= i < |items| ensures got[i] == items[i] {
        ParseComponent(items[i], quote, unquote);
      }
    }
  }
}
