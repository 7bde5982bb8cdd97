/** The side menu: groups of items, the flattened item list, and the lookups from a route
    path to its item and to its group. Icon components are named by strings. */
module Menu {
  import opened Wrappers
  import opened Text

  datatype MenuItem = MenuItem(path: string, title: string, icon: string, showWhenCollapsed: bool)

  datatype MenuGroup = MenuGroup(id: string, heading: string, items: seq<MenuItem>)

  /** `MENU_GROUPS`. */
  function MenuGroups(): seq<MenuGroup> {
    [OverviewGroup(), StrategyGroup(), TradingGroup(), SystemGroup()]
  }

  function OverviewGroup(): MenuGroup {
    MenuGroup("overview", "概览",
      [MenuItem("/dashboard", "仪表盘", "Odometer", true),
       MenuItem("/market", "行情", "TrendCharts", true)])
  }

  function StrategyGroup(): MenuGroup {
    MenuGroup("strategy", "策略",
      [MenuItem("/strategy", "策略列表", "Grid", true),
       MenuItem("/strategy/instances", "运行实例", "VideoPlay", true),
       MenuItem("/strategy/editor", "新建策略", "Plus", true)])
  }

  function TradingGroup(): MenuGroup {
    MenuGroup("trading", "交易",
      [MenuItem("/backtest", "回测", "DataAnalysis", true),
       MenuItem("/trade", "交易控制台", "ShoppingCart", true)])
  }

  function SystemGroup(): MenuGroup {
    MenuGroup("system", "系统",
      [MenuItem("/risk", "风险监控", "Warning", true),
       MenuItem("/admin/audit-logs", "审计日志", "Document", true),
       MenuItem("/settings", "系统设置", "Setting", true),
       MenuItem("/settings/exchange", "交易所设置", "Coin", true)])
  }

  /** `groups.flatMap(group => group.items)`. */
  function Flatten(groups: seq<MenuGroup>): (r: seq<MenuItem>)
    ensures groups != [] ==> r == groups[0].items + Flatten(groups[1..])
  {
    if groups == [] then [] else groups[0].items + Flatten(groups[1..])
  }

  /** `MENU_ITEMS`. */
  function MenuItems(): seq<MenuItem> {
    Flatten(MenuGroups())
  }

  /** `item.path === path || path.startsWith(item.path + '/')`. */
  predicate Matches(item: MenuItem, path: string) {
    item.path == path || StartsWith(path, item.path + "/")
  }

  /** `items.find(...)`: the first matching item. */
  function FindItem(items: seq<MenuItem>, path: string): (r: Option<MenuItem>)
    ensures r.None? <==> forall i :: 0 <= i < |items| ==> !Matches(items[i], path)
    ensures r.Some? ==> exists i :: 0 <= i < |items| && items[i] == r.value && Matches(r.value, path) &&
                                   forall k :: 0 <= k < i ==> !Matches(items[k], path)
  {
    if items == [] then None
    else if Matches(items[0], path) then Some(items[0])
    else
      var r := FindItem(items[1..], path);
      assert r.Some? ==> exists i :: (0 <= i < |items[1..]| && items[1..][i] == r.value &&
        (forall k :: 0 <= k < i ==> !Matches(items[1..][k], path)) &&
        items[i + 1] == r.value && forall k :: 0 <= k < i + 1 ==> !Matches(items[k], path));
      r
  }

  /** `groups.find(group => group.items.some(...))`: the first group holding a matching item. */
  function FindGroup(groups: seq<MenuGroup>, path: string): (r: Option<MenuGroup>)
    ensures r.Some? ==> r.value in groups && FindItem(r.value.items, path).Some?
  {
    if groups == [] then None
    else if FindItem(groups[0].items, path).Some? then Some(groups[0])
    else FindGroup(groups[1..], path)
  }

  /** `getMenuItemByPath(path)`: the first menu item whose path is `path` or a parent of it. */
  function GetMenuItemByPath(path: string): (r: Option<MenuItem>)
    ensures r.Some? ==> r.value in MenuItems() && Matches(r.value, path)
    ensures r.None? <==> forall i :: 0 <= i < |MenuItems()| ==> !Matches(MenuItems()[i], path)
  {
    FindItem(MenuItems(), path)
  }

  /** `getMenuGroupByPath(path)`: the first group holding such an item. */
  function GetMenuGroupByPath(path: string): (r: Option<MenuGroup>)
    ensures r.Some? ==> r.value in MenuGroups() && exists i :: 0 <= i < |r.value.items| && Matches(r.value.items[i], path)
  {
    FindGroup(MenuGroups(), path)
  }

  /** Searching the concatenation is searching the first part, then the second. */
  lemma {:induction false} FindItemConcat(a: seq<MenuItem>, b: seq<MenuItem>, path: string)
    ensures FindItem(a + b, path) == if FindItem(a, path).Some? then FindItem(a, path) else FindItem(b, path)
  {
    if a == [] {
      assert a + b == b;
    } else {
      assert (a + b)[1..] == a[1..] + b;
      FindItemConcat(a[1..], b, path);
    }
  }

  /** The item found in the flattened list is the first match inside the group found, so the two
      lookups are defined together and agree. */
  lemma {:induction false} ItemLiesInGroup(groups: seq<MenuGroup>, path: string)
    ensures FindItem(Flatten(groups), path).Some? <==> FindGroup(groups, path).Some?
    ensures FindGroup(groups, path).Some? ==>
      FindItem(Flatten(groups), path) == FindItem(FindGroup(groups, path).value.items, path)
  {
    if groups != [] {
      FindItemConcat(groups[0].items, Flatten(groups[1..]), path);
      ItemLiesInGroup(groups[1..], path);
    }
  }

  /** The menu lookups for every path: defined together, and the item lies in the group. */
  lemma MenuLookupsAgree(path: string)
    ensures GetMenuItemByPath(path).Some? <==> GetMenuGroupByPath(path).Some?
    ensures GetMenuGroupByPath(path).Some? ==> GetMenuItemByPath(path).value in GetMenuGroupByPath(path).value.items
  {
    ItemLiesInGroup(MenuGroups(), path);
    var g := GetMenuGroupByPath(path);
    if g.Some? {
      var r := FindItem(g.value.items, path);
      var i :| 0 <= i < |g.value.items| && g.value.items[i] == r.value;
    }
  }

  /** An item whose path differs from `path` at a position both share does not match it. */
  lemma NoMatch(item: MenuItem, path: string, k: nat)
    requires k < |path| && k < |item.path| && path[k] != item.path[k]
    ensures !Matches(item, path)
  {
  }

  /** `find` returns the item at `i` when it matches and no earlier one does. */
  lemma FirstMatchAt(items: seq<MenuItem>, path: string, i: nat)
    requires i < |items| && Matches(items[i], path)
    requires forall k :: 0 <= k < i ==> !Matches(items[k], path)
    ensures FindItem(items, path) == Some(items[i])
  {
  }

  /** A nested page resolves to its parent's item when the parent comes first: the exchange
      settings page to `/settings`, the instances page to `/strategy`. */
  lemma ParentsComeFirst()
    ensures GetMenuItemByPath("/settings/exchange") == Some(MenuItem("/settings", "系统设置", "Setting", true))
    ensures GetMenuItemByPath("/strategy/instances") == Some(MenuItem("/strategy", "策略列表", "Grid", true))
  {
    var gs := MenuGroups();
    assert gs[1..][1..] == gs[2..] && gs[2..][1..] == gs[3..];
    InstancesLookups();
    ItemLiesInGroup(gs, "/strategy/instances");
    ExchangeLookups();
    ItemLiesInGroup(gs, "/settings/exchange");
  }

  lemma InstancesLookups()
    ensures FindItem(OverviewGroup().items, "/strategy/instances") == None
    ensures FindItem(StrategyGroup().items, "/strategy/instances") == Some(StrategyGroup().items[0])
  {
    var p := "/strategy/instances";
    var items := OverviewGroup().items;
    NoMatch(items[0], p, 1);
    NoMatch(items[1], p, 1);
    var first := StrategyGroup().items[0];
    assert StartsWith(p, first.path + "/") by {
      assert p[..|"/strategy/"|] == "/strategy/";
    }
  }

  lemma ExchangeLookups()
    ensures FindItem(OverviewGroup().items, "/settings/exchange") == None
    ensures FindItem(StrategyGroup().items, "/settings/exchange") == None
    ensures FindItem(TradingGroup().items, "/settings/exchange") == None
    ensures FindItem(SystemGroup().items, "/settings/exchange") == Some(SystemGroup().items[2])
  {
    var p := "/settings/exchange";
    NoMatch(OverviewGroup().items[0], p, 1);
    NoMatch(OverviewGroup().items[1], p, 1);
    NoMatch(StrategyGroup().items[0], p, 2);
    NoMatch(StrategyGroup().items[1], p, 2);
    NoMatch(StrategyGroup().items[2], p, 2);
    NoMatch(TradingGroup().items[0], p, 1);
    NoMatch(TradingGroup().items[1], p, 1);
    SettingsLookup();
  }

  lemma SettingsLookup()
    ensures FindItem(SystemGroup().items, "/settings/exchange") == Some(SystemGroup().items[2])
  {
    var p := "/settings/exchange";
    var items := SystemGroup().items;
    NoMatch(items[0], p, 1);
    NoMatch(items[1], p, 1);
    assert StartsWith(p, items[2].path + "/") by {
      assert p[..|"/settings/"|] == "/settings/";
    }
    FirstMatchAt(items, p, 2);
  }
}
