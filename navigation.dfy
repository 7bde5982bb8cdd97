/** The navigation store: a history of visited pages, most recent first, without repeated
    paths and at most 20 long. `Date.now()` is the parameter `now`. */
module Navigation {
  import opened Wrappers
  import opened Text

  datatype HistoryItem = HistoryItem(path: string, title: string, timestamp: int)

  const MaxHistorySize := 20

  /** `pageTitles`. */
  function PageTitles(): map<string, string> {
    map["/dashboard" := "仪表盘", "/market" := "行情", "/strategy" := "策略列表",
        "/strategy/instances" := "运行实例", "/strategy/editor" := "策略编辑器",
        "/backtest" := "回测", "/trade" := "交易控制台", "/risk" := "风险监控",
        "/risk/dashboard" := "风险概览", "/risk/rules" := "规则配置",
        "/risk/alerts" := "告警历史", "/settings" := "系统设置"]
  }

  /** `title || pageTitles[path] || '未知页面'`. */
  function PageTitle(path: string, title: Option<string>): (r: string)
    ensures title.Some? && title.value != "" ==> r == title.value
    ensures (title.None? || title.value == "") && path in PageTitles() ==> r == PageTitles()[path]
    ensures (title.None? || title.value == "") && path !in PageTitles() ==> r == "未知页面"
  {
    if title.Some? && title.value != "" then title.value
    else if path in PageTitles() then PageTitles()[path]
    else "未知页面"
  }

  /** `history.findIndex(item => item.path === path)`: the first index, or -1. */
  function FindPath(history: seq<HistoryItem>, path: string): (i: int)
    ensures -1 <= i < |history|
    ensures i == -1 <==> forall k :: 0 <= k < |history| ==> history[k].path != path
    ensures i >= 0 ==> history[i].path == path && forall k :: 0 <= k < i ==> history[k].path != path
  {
    if history == [] then -1
    else if history[0].path == path then 0
    else
      var i := FindPath(history[1..], path);
      if i == -1 then -1 else i + 1
  }

  /** The paths of the history are pairwise distinct. */
  predicate DistinctPaths(history: seq<HistoryItem>) {
    forall i, j :: 0 <= i < j < |history| ==> history[i].path != history[j].path
  }

  /** `history` with the entries for `path` filtered out, the others in order. */
  function Others(history: seq<HistoryItem>, path: string): (r: seq<HistoryItem>)
    ensures |r| <= |history|
    ensures forall k :: 0 <= k < |r| ==> r[k].path != path
  {
    if history == [] then []
    else (if history[0].path == path then [] else [history[0]]) + Others(history[1..], path)
  }

  /** `history.splice(index, 1)` at the `findIndex` result, when it is found. */
  function RemovePath(history: seq<HistoryItem>, path: string): (r: seq<HistoryItem>)
    ensures FindPath(history, path) == -1 ==> r == history
  {
    var i := FindPath(history, path);
    if i == -1 then history else history[..i] + history[i + 1..]
  }

  /** `history.filter(item => item.path !== currentPath).slice(0, limit)`; a negative `limit`
      counts from the end, as `slice` does. */
  function RecentPages(history: seq<HistoryItem>, currentPath: string, limit: int): (r: seq<HistoryItem>)
  {
    var kept := Others(history, currentPath);
    var end := if limit >= 0 then (if limit < |kept| then limit else |kept|)
               else (if |kept| + limit > 0 then |kept| + limit else 0);
    kept[..end]
  }

  // Properties of the history functions.

  /** In a history without repeated paths, removing the entry for `path` is filtering it out. */
  lemma RemoveIsOthers(history: seq<HistoryItem>, path: string)
    requires DistinctPaths(history)
    ensures RemovePath(history, path) == Others(history, path)
  {
    var i := FindPath(history, path);
    if i == -1 {
      OthersUnchanged(history, path);
    } else {
      var before, after := history[..i], history[i + 1..];
      assert forall k :: 0 <= k < |after| ==> after[k].path != path by {
        forall k | 0 <= k < |after| ensures after[k].path != path {
          assert after[k] == history[i + 1 + k];
        }
      }
      assert history == before + [history[i]] + after;
      SpliceIsOthers(before, history[i], after, path);
    }
  }

  /** Filtering out the one entry for `path` leaves the entries around it. */
  lemma SpliceIsOthers(before: seq<HistoryItem>, item: HistoryItem, after: seq<HistoryItem>, path: string)
    requires item.path == path
    requires forall k :: 0 <= k < |before| ==> before[k].path != path
    requires forall k :: 0 <= k < |after| ==> after[k].path != path
    ensures Others(before + [item] + after, path) == before + after
  {
    OthersUnchanged(before, path);
    OthersUnchanged(after, path);
    assert Others([item], path) == [] by {
      assert [item][1..] == [];
    }
    OthersConcat(before + [item], after, path);
    OthersConcat(before, [item], path);
  }

  lemma {:induction false} OthersConcat(a: seq<HistoryItem>, b: seq<HistoryItem>, path: string)
    ensures Others(a + b, path) == Others(a, path) + Others(b, path)
  {
    if a != [] {
      var head := if a[0].path == path then [] else [a[0]];
      calc {
        Others(a + b, path);
        { assert (a + b)[0] == a[0] && (a + b)[1..] == a[1..] + b; }
        head + Others(a[1..] + b, path);
        { OthersConcat(a[1..], b, path); }
        head + (Others(a[1..], path) + Others(b, path));
        (head + Others(a[1..], path)) + Others(b, path);
      }
    } else {
      assert a + b == b;
    }
  }

  /** Each entry of the filtered history comes from the history, at a later or equal index. */
  lemma {:induction false} OthersSource(history: seq<HistoryItem>, path: string, k: int) returns (m: int)
    requires 0 <= k < |Others(history, path)|
    ensures k <= m < |history| && history[m] == Others(history, path)[k]
  {
    var rest := history[1..];
    if history[0].path == path {
      m := OthersSource(rest, path, k);
      m := m + 1;
    } else if k == 0 {
      m := 0;
    } else {
      m := OthersSource(rest, path, k - 1);
      m := m + 1;
    }
  }

  /** Filtering out an absent path changes nothing. */
  lemma {:induction false} OthersUnchanged(history: seq<HistoryItem>, path: string)
    requires forall k :: 0 <= k < |history| ==> history[k].path != path
    ensures Others(history, path) == history
  {
    if history != [] {
      OthersUnchanged(history[1..], path);
    }
  }

  /** Filtering keeps paths distinct. */
  lemma {:induction false} OthersDistinct(history: seq<HistoryItem>, path: string)
    requires DistinctPaths(history)
    ensures DistinctPaths(Others(history, path))
  {
    if history != [] {
      var rest := history[1..];
      OthersDistinct(rest, path);
      var tail := Others(rest, path);
      forall k | 0 <= k < |tail| ensures tail[k].path != history[0].path {
        var m := OthersSource(rest, path, k);
        assert rest[m] == history[m + 1];
      }
    }
  }

  /** The recent pages never include the current path and are at most `limit` long, and they
      are the first entries of the other pages, in history order. */
  lemma RecentPagesShape(history: seq<HistoryItem>, currentPath: string, limit: int)
    ensures var r := RecentPages(history, currentPath, limit);
      (forall k :: 0 <= k < |r| ==> r[k].path != currentPath) &&
      (limit >= 0 ==> |r| <= limit) && r <= Others(history, currentPath)
  {
  }

  /** `useNavigationStore()`. */
  class NavigationStore {
    var history: seq<HistoryItem>

    /** Paths are distinct and the history is at most `maxHistorySize` long. */
    predicate Valid()
      reads this
    {
      DistinctPaths(history) && |history| <= MaxHistorySize
    }

    constructor ()
      ensures Valid() && history == []
    {
      history := [];
    }

    /** `addToHistory(path, title)` at time `now`: the page goes first, its earlier entry goes,
        and the list is cut to 20. */
    method AddToHistory(path: string, title: Option<string>, now: int)
      requires Valid()
      modifies this
      ensures Valid()
      ensures history != [] && history[0] == HistoryItem(path, PageTitle(path, title), now)
      ensures history[1..] <= Others(old(history), path)
      ensures |history| == if |Others(old(history), path)| < MaxHistorySize
                           then |Others(old(history), path)| + 1 else MaxHistorySize
      ensures history == Added(old(history), path, title, now)
    {
      ghost var rest := Others(history, path);
      var pageTitle := PageTitle(path, title);
      RemoveIsOthers(history, path);
      AddedFirst(history, path, title, now);
      ghost var added := Added(history, path, title, now);
      var existingIndex := FindPath(history, path);
      if existingIndex != -1 {
        history := history[..existingIndex] + history[existingIndex + 1..];
      }
      assert history == rest;
      history := [HistoryItem(path, pageTitle, now)] + history;
      if |history| > MaxHistorySize {
        history := history[..MaxHistorySize];
      }
      assert history == added;
      assert history[1..] == rest[..|history| - 1];
    }

    /** `clearHistory()`. */
    method ClearHistory()
      modifies this
      ensures Valid() && history == []
    {
      history := [];
    }

    /** `removeFromHistory(path)`: only the entry for `path` goes. */
    method RemoveFromHistory(path: string)
      requires Valid()
      modifies this
      ensures Valid()
      ensures history == Others(old(history), path)
    {
      RemoveIsOthers(history, path);
      OthersDistinct(history, path);
      var index := FindPath(history, path);
      if index != -1 {
        history := history[..index] + history[index + 1..];
      }
    }

    /** `getRecentPages(currentPath, limit = 5)`. */
    function GetRecentPages(currentPath: string, limit: Option<int>): (r: seq<HistoryItem>)
      reads this
      ensures r == RecentPages(history, currentPath, limit.GetOr(5))
    {
      RecentPages(history, currentPath, limit.GetOr(5))
    }
  }

  /** After adding `p`, `p` is the most recent page and appears nowhere else. */
  lemma AddedFirst(history: seq<HistoryItem>, p: string, title: Option<string>, now: int)
    requires DistinctPaths(history)
    ensures var added := Added(history, p, title, now);
      added[0].path == p && DistinctPaths(added) && |added| <= MaxHistorySize &&
      forall k :: 1 <= k < |added| ==> added[k].path != p
  {
    var rest := Others(history, p);
    OthersDistinct(history, p);
    var added := Added(history, p, title, now);
    assert forall k :: 1 <= k < |added| ==> added[k] == rest[k - 1];
  }

  /** The history `addToHistory` leaves, as a value. */
  function Added(history: seq<HistoryItem>, p: string, title: Option<string>, now: int): (r: seq<HistoryItem>)
    ensures 1 <= |r| <= MaxHistorySize
  {
    var all := [HistoryItem(p, PageTitle(p, title), now)] + Others(history, p);
    if |all| > MaxHistorySize then all[..MaxHistorySize] else all
  }

  /** Entries other than `p` keep their relative order: if `a` was before `b` and both survive,
      `a` is still before `b`. */
  lemma {:induction false} OthersKeepOrder(history: seq<HistoryItem>, p: string, i: int, j: int)
    requires 0 <= i < j < |Others(history, p)|
    ensures exists a, b :: 0 <= a < b < |history| && history[a] == Others(history, p)[i] &&
                           history[b] == Others(history, p)[j]
  {
    var a, b := OrderedSources(history, p, i, j);
  }

  lemma {:induction false} OrderedSources(history: seq<HistoryItem>, p: string, i: int, j: int) returns (a: int, b: int)
    requires 0 <= i < j < |Others(history, p)|
    ensures 0 <= a < b < |history| && history[a] == Others(history, p)[i] &&
            history[b] == Others(history, p)[j]
  {
    var rest := history[1..];
    if history[0].path == p {
      a, b := OrderedSources(rest, p, i, j);
      a, b := a + 1, b + 1;
    } else if i == 0 {
      a := 0;
      b := OthersSource(rest, p, j - 1);
      b := b + 1;
    } else {
      a, b := OrderedSources(rest, p, i - 1, j - 1);
      a, b := a + 1, b + 1;
    }
  }
}
