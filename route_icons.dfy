/** `getPageIcon`: the sidebar icon of a route path, by exact key and then by the longest key
    that is a prefix of the path. Icon components are named by strings. */
module RouteIcons {
  import opened Text
  import opened Wrappers
  import JsValues

  /** The keys of `ICON_MAP`, in `Object.keys` order. */
  function IconKeys(): seq<string> {
    ["/dashboard", "/market", "/strategy", "/strategy/editor", "/strategy/instances",
     "/backtest", "/trade", "/risk", "/settings", "/settings/exchange"]
  }

  /** `ICON_MAP`. */
  function IconMap(): map<string, string> {
    map["/dashboard" := "Odometer", "/market" := "TrendCharts", "/strategy" := "Grid",
        "/strategy/editor" := "Plus", "/strategy/instances" := "VideoPlay",
        "/backtest" := "DataAnalysis", "/trade" := "ShoppingCart", "/risk" := "Warning",
        "/settings" := "Setting", "/settings/exchange" := "Coin"]
  }

  /** `IconKeys` lists exactly the keys of `IconMap`. */
  lemma IconKeysOfMap()
    ensures forall k :: k in IconKeys() <==> k in IconMap()
  {
  }

  const HomeFilled := "HomeFilled"

  /** What `getPageIcon` returns: an icon, or the inherited `Object.prototype` member that
      `ICON_MAP[path]` finds for a name such as `constructor`. */
  datatype PageIcon = Icon(name: string) | Inherited(member: string)

  // The sort `(a, b) => b.length - a.length`, which is stable.

  /** Longest first. */
  predicate LengthDescending(keys: seq<string>) {
    forall i, j :: 0 <= i < j < |keys| ==> |keys[i]| >= |keys[j]|
  }

  /** `k` placed before the first key that is strictly shorter. */
  function InsertByLength(k: string, sorted: seq<string>): (r: seq<string>)
    ensures multiset(r) == multiset(sorted) + multiset{k}
  {
    if sorted == [] || |sorted[0]| < |k| then [k] + sorted
    else
      assert sorted == [sorted[0]] + sorted[1..];
      [sorted[0]] + InsertByLength(k, sorted[1..])
  }

  lemma {:induction false} InsertKeepsOrder(k: string, sorted: seq<string>)
    requires LengthDescending(sorted)
    ensures LengthDescending(InsertByLength(k, sorted))
  {
    if !(sorted == [] || |sorted[0]| < |k|) {
      var rest := InsertByLength(k, sorted[1..]);
      InsertKeepsOrder(k, sorted[1..]);
      forall x | x in rest ensures |x| <= |sorted[0]| {
        assert x in multiset(rest);
        if x != k {
          assert x in multiset(sorted[1..]);
        }
      }
    }
  }

  /** `keys.sort(...)`: an insertion sort on length, longest first, ties in their first order. */
  function SortByLength(keys: seq<string>): (r: seq<string>)
    ensures multiset(r) == multiset(keys)
  {
    if keys == [] then [] else
      assert keys == [keys[0]] + keys[1..];
      InsertByLength(keys[0], SortByLength(keys[1..]))
  }

  /** The sort yields the keys, longest first. */
  lemma {:induction false} SortSorts(keys: seq<string>)
    ensures LengthDescending(SortByLength(keys))
    ensures forall k :: k in SortByLength(keys) <==> k in keys
  {
    if keys != [] {
      SortSorts(keys[1..]);
      InsertKeepsOrder(keys[0], SortByLength(keys[1..]));
    }
    var r := SortByLength(keys);
    forall k ensures k in r <==> k in keys {
      assert k in r <==> k in multiset(r);
      assert k in keys <==> k in multiset(keys);
    }
  }

  /** The prefix test of the loop: `path.startsWith(key) && key !== '/'`. */
  predicate Candidate(path: string, key: string) {
    StartsWith(path, key) && key != "/"
  }

  /** Among `keys`, a longest candidate for `path`. */
  function LongestPrefix(keys: seq<string>, path: string): (r: Option<string>)
    ensures r.None? <==> forall k :: k in keys ==> !Candidate(path, k)
    ensures r.Some? ==> r.value in keys && Candidate(path, r.value) &&
                        forall k :: k in keys && Candidate(path, k) ==> |k| <= |r.value|
  {
    if keys == [] then None
    else
      var rest := LongestPrefix(keys[1..], path);
      if !Candidate(path, keys[0]) then rest
      else if rest.Some? && |rest.value| > |keys[0]| then rest
      else Some(keys[0])
  }

  /** The icon `getPageIcon` returns for `path` with the map `icons` whose keys are `keys`. */
  function PageIconIn(icons: map<string, string>, keys: seq<string>, path: string): PageIcon
    requires forall k :: k in keys ==> k in icons
  {
    if path in icons then Icon(icons[path])
    else if path in JsValues.PrototypeNames then Inherited(path)
    else FallbackIcon(icons, keys, path)
  }

  /** The icon of a longest candidate key, else `HomeFilled`. */
  function FallbackIcon(icons: map<string, string>, keys: seq<string>, path: string): PageIcon
    requires forall k :: k in keys ==> k in icons
  {
    match LongestPrefix(keys, path)
      case Some(k) => Icon(icons[k])
      case None => Icon(HomeFilled)
  }

  /** The icon `getPageIcon(path)` returns. */
  function PageIconOf(path: string): PageIcon {
    IconKeysOfMap();
    PageIconIn(IconMap(), IconKeys(), path)
  }

  /** Two prefixes of the same text with the same length are the same. */
  lemma SamePrefix(path: string, a: string, b: string)
    requires StartsWith(path, a) && StartsWith(path, b) && |a| == |b|
    ensures a == b
  {
  }

  /** The body of `getPageIcon` over `icons` and its key list `keys`: the exact entry, else the
      first key of the length-sorted list that the path starts with, else `HomeFilled`. */
  method FindPageIcon(icons: map<string, string>, keys: seq<string>, path: string) returns (icon: PageIcon)
    requires forall k :: k in keys ==> k in icons
    ensures icon == PageIconIn(icons, keys, path)
  {
    if path in icons {
      return Icon(icons[path]);
    }
    if path in JsValues.PrototypeNames {
      return Inherited(path);
    }
    icon := FindFallback(icons, keys, path);
  }

  /** The loop of `getPageIcon`: the first key of the length-sorted list that the path starts
      with, else `HomeFilled`. */
  method FindFallback(icons: map<string, string>, keys: seq<string>, path: string) returns (icon: PageIcon)
    requires forall k :: k in keys ==> k in icons
    ensures icon == FallbackIcon(icons, keys, path)
  {
    var sortedKeys := SortByLength(keys);
    var i := 0;
    while i < |sortedKeys|
      invariant 0 <= i <= |sortedKeys|
      invariant forall k :: 0 <= k < i ==> !Candidate(path, sortedKeys[k])
    {
      var key := sortedKeys[i];
      if StartsWith(path, key) && key != "/" {
        FirstCandidateWins(keys, path, i);
        return Icon(icons[key]);
      }
      i := i + 1;
    }
    NoCandidate(keys, path);
    return Icon(HomeFilled);
  }

  /** The first candidate of the length-sorted keys is a longest candidate. */
  lemma FirstCandidateWins(keys: seq<string>, path: string, i: int)
    requires 0 <= i < |SortByLength(keys)| && Candidate(path, SortByLength(keys)[i])
    requires forall k :: 0 <= k < i ==> !Candidate(path, SortByLength(keys)[k])
    ensures LongestPrefix(keys, path) == Some(SortByLength(keys)[i])
  {
    var sorted := SortByLength(keys);
    SortSorts(keys);
    var key := sorted[i];
    assert key in keys;
    var best := LongestPrefix(keys, path).value;
    assert best in sorted;
    var j :| 0 <= j < |sorted| && sorted[j] == best;
    assert i <= j;
    SamePrefix(path, key, best);
  }

  /** When no sorted key is a candidate, no key is. */
  lemma NoCandidate(keys: seq<string>, path: string)
    requires forall k :: 0 <= k < |SortByLength(keys)| ==> !Candidate(path, SortByLength(keys)[k])
    ensures LongestPrefix(keys, path).None?
  {
    var sorted := SortByLength(keys);
    SortSorts(keys);
    forall k | k in keys ensures !Candidate(path, k) {
      assert k in sorted;
      var j :| 0 <= j < |sorted| && sorted[j] == k;
    }
  }

  /** `getPageIcon(path)`. */
  method GetPageIcon(path: string) returns (icon: PageIcon)
    ensures icon == PageIconOf(path)
  {
    IconKeysOfMap();
    icon := FindPageIcon(IconMap(), IconKeys(), path);
  }

  // Properties.

  /** An exact key gives its own icon. */
  lemma ExactKeyWins(path: string)
    requires path in IconMap()
    ensures PageIconOf(path) == Icon(IconMap()[path])
  {
  }

  /** Without an exact key, the icon is that of a longest key the path starts with, and with no
      such key it is `HomeFilled`. */
  lemma PrefixFallback(icons: map<string, string>, keys: seq<string>, path: string)
    requires forall k :: k in keys <==> k in icons
    requires path !in icons && path !in JsValues.PrototypeNames
    ensures (exists k :: k in icons && Candidate(path, k)) ==>
      exists k :: k in icons && Candidate(path, k) && PageIconIn(icons, keys, path) == Icon(icons[k]) &&
        forall k2 :: k2 in icons && Candidate(path, k2) ==> |k2| <= |k|
    ensures (forall k :: k in icons ==> !Candidate(path, k)) ==> PageIconIn(icons, keys, path) == Icon(HomeFilled)
  {
    var best := LongestPrefix(keys, path);
    if best.Some? {
      var k := best.value;
      assert PageIconIn(icons, keys, path) == Icon(icons[k]);
      assert forall k2 :: k2 in icons && Candidate(path, k2) ==> |k2| <= |k|;
    }
  }

  lemma NotPrefix(path: string, key: string, i: nat)
    requires i < |path| && i < |key| && path[i] != key[i]
    ensures !Candidate(path, key)
  {
  }

  /** The prefix test has no segment boundary: `/tradeX` takes the icon of `/trade`. */
  lemma NoSegmentBoundary()
    ensures PageIconOf("/tradeX") == Icon("ShoppingCart")
  {
    TradeXPrefix();
    TradeXNotExact();
    TradeIcon();
    assert PageIconIn(IconMap(), IconKeys(), "/tradeX") == Icon(IconMap()["/trade"]);
  }

  lemma TradeIcon()
    ensures "/trade" in IconMap() && IconMap()["/trade"] == "ShoppingCart"
  {
  }

  lemma TradeXNotExact()
    ensures "/tradeX" !in IconMap() && "/tradeX" !in JsValues.PrototypeNames
  {
  }

  lemma TradeXPrefix()
    ensures LongestPrefix(IconKeys(), "/tradeX") == Some("/trade")
  {
    var p := "/tradeX";
    var keys := IconKeys();
    assert Candidate(p, keys[6]) by {
      assert p[..|"/trade"|] == "/trade";
    }
    forall k | 0 <= k < |keys| && k != 6 ensures !Candidate(p, keys[k]) {
      NotPrefix(p, keys[k], 1);
    }
    OnlyCandidate(keys, p, 6);
  }

  /** A key that is the only candidate is the longest one. */
  lemma OnlyCandidate(keys: seq<string>, path: string, i: int)
    requires 0 <= i < |keys| && Candidate(path, keys[i])
    requires forall k :: 0 <= k < |keys| && k != i ==> !Candidate(path, keys[k])
    ensures LongestPrefix(keys, path) == Some(keys[i])
  {
    var best := LongestPrefix(keys, path).value;
    var j :| 0 <= j < |keys| && keys[j] == best;
    assert j == i;
  }
}
