/** The Binance request signer's query-string builders and headers. The HMAC-SHA256 signature
    itself is not modelled. */
module Signatures {
  import opened Text

  /** `format!("{}={}", k, v)`. */
  function PairText(pair: (string, string)): (t: string)
    ensures |t| == |pair.0| + 1 + |pair.1|
    ensures t[..|pair.0|] == pair.0 && t[|pair.0|] == '=' && t[|pair.0| + 1..] == pair.1
  {
    pair.0 + "=" + pair.1
  }

  /** The pairs' texts, in order. */
  function PairTexts(params: seq<(string, string)>): (r: seq<string>)
    ensures |r| == |params|
    ensures forall i :: 0 <= i < |params| ==> r[i] == PairText(params[i])
  {
    if params == [] then [] else [PairText(params[0])] + PairTexts(params[1..])
  }

  /** `build_query_from_slice`: the `k=v` texts joined by `&`, in the order given. */
  function BuildQueryFromSlice(params: seq<(string, string)>): string {
    Join(PairTexts(params), "&")
  }

  /** No pairs give the empty query, one pair its own text, and each further pair is appended
      after an `&`. */
  lemma QueryShape(params: seq<(string, string)>, pair: (string, string))
    ensures BuildQueryFromSlice([]) == ""
    ensures BuildQueryFromSlice([pair]) == pair.0 + "=" + pair.1
    ensures params != [] ==> BuildQueryFromSlice([pair] + params) == PairText(pair) + "&" + BuildQueryFromSlice(params)
  {
    if params != [] {
      var ps := [pair] + params;
      assert ps[1..] == params;
      assert PairTexts(ps)[1..] == PairTexts(params);
    }
  }

  /** The query is built front to back: adding a pair at the end appends `&k=v`. */
  lemma {:induction false} QueryAppend(params: seq<(string, string)>, pair: (string, string))
    requires params != []
    ensures BuildQueryFromSlice(params + [pair]) == BuildQueryFromSlice(params) + "&" + PairText(pair)
  {
    var ps := params + [pair];
    if |params| == 1 {
      assert ps == [params[0]] + [pair];
      QueryShape([pair], params[0]);
      QueryShape([], pair);
    } else {
      assert ps == [params[0]] + (params[1..] + [pair]);
      QueryShape(params[1..] + [pair], params[0]);
      QueryAppend(params[1..], pair);
      assert params == [params[0]] + params[1..];
      QueryShape(params[1..], params[0]);
    }
  }

  /** Keys and values without `&`. */
  predicate AmpersandFree(params: seq<(string, string)>) {
    forall i :: 0 <= i < |params| ==> '&' !in params[i].0 && '&' !in params[i].1
  }

  /** When no key or value holds an `&`, the query of `n` pairs holds `n - 1` of them, so the
      pairs can be told apart again. */
  lemma {:induction false} AmpersandCount(params: seq<(string, string)>)
    requires params != [] && AmpersandFree(params)
    ensures Count(BuildQueryFromSlice(params), '&') == |params| - 1
  {
    var p := params[0];
    var t := PairText(p);
    assert '&' !in t by {
      assert t == p.0 + "=" + p.1;
    }
    CountAbsent(t, '&');
    if |params| > 1 {
      var rest := params[1..];
      assert params == [p] + rest;
      QueryShape(rest, p);
      AmpersandCount(rest);
      CountAppend(t, "&" + BuildQueryFromSlice(rest), '&');
      CountAppend("&", BuildQueryFromSlice(rest), '&');
      assert t + "&" + BuildQueryFromSlice(rest) == t + ("&" + BuildQueryFromSlice(rest));
    } else {
      assert params == [p];
      QueryShape([], p);
    }
  }

  /** The example of the signer's tests. */
  lemma QueryExample()
    ensures BuildQueryFromSlice([("symbol", "BTCUSDT"), ("side", "BUY"), ("type", "LIMIT")]) ==
            "symbol=BTCUSDT&side=BUY&type=LIMIT"
  {
    var symbol, side, ty := ("symbol", "BTCUSDT"), ("side", "BUY"), ("type", "LIMIT");
    ExampleTexts();
    QueryShape([], ty);
    QueryShape([ty], side);
    assert [side] + [ty] == [side, ty];
    QueryShape([side, ty], symbol);
    assert [symbol] + [side, ty] == [symbol, side, ty];
  }

  /** The texts the example is made of. */
  lemma ExampleTexts()
    ensures "symbol" + "=" + "BTCUSDT" == "symbol=BTCUSDT"
    ensures "side" + "=" + "BUY" == "side=BUY"
    ensures "type" + "=" + "LIMIT" == "type=LIMIT"
    ensures "side=BUY" + "&" + "type=LIMIT" == "side=BUY&type=LIMIT"
    ensures "symbol=BTCUSDT" + "&" + "side=BUY&type=LIMIT" == "symbol=BTCUSDT&side=BUY&type=LIMIT"
  {
  }

  /** The pairs of a map, in the order `order` lists its keys. */
  function MapPairs(params: map<string, string>, order: seq<string>): (ps: seq<(string, string)>)
    requires forall i :: 0 <= i < |order| ==> order[i] in params
    ensures |ps| == |order|
    ensures forall i :: 0 <= i < |order| ==> ps[i] == (order[i], params[order[i]])
  {
    if order == [] then [] else [(order[0], params[order[0]])] + MapPairs(params, order[1..])
  }

  /** `build_query` over a hash map: the same text, in the map's iteration order, which is
      given here as `order`. */
  function BuildQuery(params: map<string, string>, order: seq<string>): string
    requires forall i :: 0 <= i < |order| ==> order[i] in params
  {
    BuildQueryFromSlice(MapPairs(params, order))
  }

  /** An iteration order visits each key once. */
  predicate IterationOrder(params: map<string, string>, order: seq<string>) {
    (forall i :: 0 <= i < |order| ==> order[i] in params) &&
    (forall k :: k in params ==> k in order) &&
    (forall i, j :: 0 <= i < j < |order| ==> order[i] != order[j])
  }

  /** Whatever the iteration order, a map of `n` entries without `&` gives `n - 1` of them. */
  lemma BuildQueryCount(params: map<string, string>, order: seq<string>)
    requires IterationOrder(params, order) && |params| > 0
    requires forall k :: k in params ==> '&' !in k && '&' !in params[k]
    ensures Count(BuildQuery(params, order), '&') == |params| - 1
  {
    var keys := set i | 0 <= i < |order| :: order[i];
    assert keys == params.Keys;
    DistinctCount(order);
    AmpersandCount(MapPairs(params, order));
  }

  /** A sequence without repeats has as many distinct elements as entries. */
  lemma {:induction false} DistinctCount(order: seq<string>)
    requires forall i, j :: 0 <= i < j < |order| ==> order[i] != order[j]
    ensures |set i | 0 <= i < |order| :: order[i]| == |order|
  {
    if order != [] {
      var rest := order[1..];
      DistinctCount(rest);
      var s := set i | 0 <= i < |order| :: order[i];
      var t := set i | 0 <= i < |rest| :: rest[i];
      assert s == {order[0]} + t by {
        forall x | x in s ensures x in {order[0]} + t {
          var i :| 0 <= i < |order| && order[i] == x;
          if i > 0 {
            assert rest[i - 1] == x;
          }
        }
      }
      assert order[0] !in t;
    }
  }

  /** `headers()`: the API key header and the JSON content type. */
  function Headers(apiKey: string): (h: seq<(string, string)>)
    ensures |h| == 2 && h[0] == ("X-MBX-APIKEY", apiKey)
  {
    [("X-MBX-APIKEY", apiKey), ("Content-Type", "application/json")]
  }
}
