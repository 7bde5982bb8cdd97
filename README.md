# ai_lot core, modelled in Dafny

ai_lot is a desktop crypto-trading application built on Tauri. Its front end is Vue and
TypeScript. The front end calls a Rust back end through Tauri commands. The back end holds
the trading domain: orders, positions, exchange converters, risk rules, backtests, strategy
debugging and market-data quality. This project models the sequential core of both halves.
It proves the properties that the code, its comments and its unit tests promise.

There is one Dafny module per source file of the core. Their names are listed in the table
below. Four helper modules are shared:

- `Wrappers` holds `Option` and `Result`.
- `Text` holds string helpers: prefixes, splitting, joining, decimal rendering and ASCII
  case mapping.
- `Floats` holds the `f64` operations the code relies on: division that yields infinity
  or NaN, and `max`/`min`.
- `JsValues` holds a JSON value type with `JSON.stringify` and a parser. These are used
  for cache keys and the `{success, data, error}` envelope.

Conventions:

- **State.** State that the source updates in place is a `class`. Its collections are `seq`
  or `map` fields that the methods reassign. Each method's `ensures` gives the whole new
  state as a function of the old one. Lemmas about those functions carry the promised
  properties. Pure code is modelled as datatypes, functions and lemmas.
- **Numbers.** `f64` is modelled as `real`, without IEEE rounding. Where the code can divide
  by zero, the infinity or NaN it produces is spelled out. Fixed-width integer arithmetic is
  written out where it can wrap, as with the `i32` page offset.
- **Time and randomness.** Wall-clock time (`Date.now()`, `Utc::now()`, `Instant`) is a
  `now` parameter. Generated uuids are parameters too.
- **Transports.** The Tauri `invoke` transport and the exchange APIs are given as a sequence
  of outcomes, consumed one per attempt. A JavaScript promise is modelled by the outcome it
  settles with.
- **Code over tests.** Where a unit test contradicts the code, the model follows the code,
  and a lemma states what the code does. This happens at
  `src-tauri/src/core/validation.rs:239` and `:246`,
  `src-tauri/src/core/strategy/debug.rs:459` and
  `src-tauri/src/core/risk/consecutive_loss.rs:255`.
- **Reconstructed enums.** The `OrderState`, `OrderSide` and `OrderType` enums are not part of
  this model's sources. They are reconstructed from their uses: the state machine, the tests
  and the exchange mapping tables.

## Model

| member | source | states |
|---|---|---|
| ConfigValidation.RulesFor | src/types/config.ts:185-187 | the lookup `CONFIG_VALIDATION_RULES[section] \|\| []` fails (the `forEach` TypeError) exactly for a name inherited from `Object.prototype`; other names give their rule list or none |
| ConfigValidation.RunValidator | src/types/config.ts:81-152 | a custom validator throws only when it calls a string method on a value that is not a string; otherwise it returns its verdict |
| ConfigValidation.MinCheck | src/types/config.ts:202-204 | the `min` check adds at most one message |
| ConfigValidation.MaxCheck | src/types/config.ts:205-207 | the `max` check adds at most one message |
| ConfigValidation.PatternCheck | src/types/config.ts:210-212 | the `pattern` check adds at most one message |
| ConfigValidation.RuleErrors | src/types/config.ts:187-221 | one rule's callback adds at most four messages |
| ConfigValidation.Collect | src/types/config.ts:184-223 | a rule list adds at most four messages per rule; the first thrown error ends the walk |
| ConfigValidation.ApplyRule | src/types/config.ts:187-221 | the imperative callback pushes exactly the messages `RuleErrors` describes, or throws its error |
| ConfigValidation.ApplyRules | src/types/config.ts:187-221 | the `forEach` loop yields exactly `Collect`: messages in rule order, stopped by the first thrown error |
| ConfigValidation.ValidateConfig | src/types/config.ts:183-224 | `validateConfig` returns exactly the section's `Validation` |
| ConfigValidation.UnknownSectionAccepts | src/types/config.ts:185 | a section without rules accepts any data, even `undefined` |
| ConfigValidation.RequiredEmptyField | src/types/config.ts:191-194 | an empty required field yields exactly the "是必填项" message and no other check runs |
| ConfigValidation.OptionalEmptyField | src/types/config.ts:197-199 | an empty optional field yields no message, whatever its checks |
| ConfigValidation.ChecksInOrder | src/types/config.ts:201-220 | for a non-empty value the messages are the min, max, pattern and validator messages that apply, in that order |
| ConfigValidation.CollectPasses | src/types/config.ts:187-223 | a rule list whose every rule passes yields no message |
| ConfigValidation.AppDefaultsValidate | src/types/config.ts:157-162 | the default `app` section passes the `app` rules |
| ConfigValidation.DatabaseDefaultsValidate | src/types/config.ts:163-167 | the default `database` section passes the `database` rules |
| ConfigValidation.RiskDefaultsValidate | src/types/config.ts:168-171 | the default `risk` section passes the `risk` rules |
| ConfigValidation.NotificationDefaultsValidate | src/types/config.ts:172-179 | the default `notifications` section, all fields undefined, passes its rules |
| ConfigValidation.IsEmailMatchesPattern | src/types/config.ts:148 | the decision procedure for `/^[^\s@]+@[^\s@]+\.[^\s@]+$/` accepts exactly the texts of the form plain@plain.plain |
| ConfigValidation.EmailsAccepted | src/types/config.ts:144-151 | the e-mail validator accepts exactly the empty text or a list whose every comma-separated, trimmed part matches the pattern |
| ConfigValidation.NumberOfNumText | src/types/config.ts:202-206 | `Number` of the text of an integer is that integer, so a number and its text compare alike against `min`/`max` |
| Navigation.PageTitle | src/store/modules/navigation.ts:16-33 | the title is the given non-empty title, else the `pageTitles` entry for the path, else "未知页面" |
| Navigation.FindPath | src/store/modules/navigation.ts:36 | `findIndex` gives -1 exactly when no entry has the path, and otherwise the first index whose entry has it |
| Navigation.Others | src/store/modules/navigation.ts:69 | filtering by path keeps no entry for the path and never lengthens the history |
| Navigation.RemovePath | src/store/modules/navigation.ts:36-39 | a splice at a `findIndex` of -1 changes nothing |
| Navigation.RemoveIsOthers | src/store/modules/navigation.ts:36-39 | in a history with distinct paths, splicing out the found entry is the same as filtering the path out |
| Navigation.SpliceIsOthers | src/store/modules/navigation.ts:36-39 | filtering out the single entry for a path leaves the entries before and after it, joined |
| Navigation.OthersConcat | src/store/modules/navigation.ts:69 | filtering distributes over concatenation |
| Navigation.OthersSource | src/store/modules/navigation.ts:69 | each filtered entry is an entry of the history at the same or a later index |
| Navigation.OthersUnchanged | src/store/modules/navigation.ts:69 | filtering out a path no entry has changes nothing |
| Navigation.OthersDistinct | src/store/modules/navigation.ts:36-46 | filtering keeps paths distinct |
| Navigation.RecentPagesShape | src/store/modules/navigation.ts:68-70 | the recent pages never include the current page, number at most `limit`, and are a prefix of the other pages in history order |
| Navigation.NavigationStore.constructor | src/store/modules/navigation.ts:12-13 | the store starts with an empty history |
| Navigation.NavigationStore.AddToHistory | src/store/modules/navigation.ts:32-52 | the new page is first with its resolved title and time, followed by a prefix of the other pages; the length is one more than the others, capped at 20; paths stay distinct |
| Navigation.NavigationStore.ClearHistory | src/store/modules/navigation.ts:55-57 | the history becomes empty |
| Navigation.NavigationStore.RemoveFromHistory | src/store/modules/navigation.ts:60-65 | exactly the entry for the path goes; the others keep their order |
| Navigation.NavigationStore.GetRecentPages | src/store/modules/navigation.ts:68-70 | the recent pages with the default limit 5 when none is given |
| Navigation.Added | src/store/modules/navigation.ts:32-52 | the history after an addition holds between 1 and 20 entries |
| Navigation.AddedFirst | src/store/modules/navigation.ts:36-51 | after adding a page it is the most recent entry and appears nowhere else, paths stay distinct and the length stays within 20 |
| Navigation.OthersKeepOrder | src/store/modules/navigation.ts:36-51 | entries that survive keep their relative order |
| Menu.Flatten | src/views/layout/constants/menu.ts:92 | `flatMap` is the first group's items followed by the flattening of the rest |
| Menu.FindItem | src/views/layout/constants/menu.ts:97-99 | `find` fails exactly when no item matches, and otherwise returns the first matching item |
| Menu.FindGroup | src/views/layout/constants/menu.ts:104-108 | a found group is one of the groups and holds a matching item |
| Menu.GetMenuItemByPath | src/views/layout/constants/menu.ts:97-99 | the item found is a menu item whose path is the path or a parent of it, and nothing is found exactly when no menu item matches |
| Menu.GetMenuGroupByPath | src/views/layout/constants/menu.ts:104-108 | the group found is a menu group holding an item that matches the path |
| Menu.FindItemConcat | src/views/layout/constants/menu.ts:92-99 | searching a concatenation searches the first part, then the second |
| Menu.ItemLiesInGroup | src/views/layout/constants/menu.ts:92-108 | the item lookup over the flattened list succeeds exactly when the group lookup does, and it finds the first match inside that group |
| Menu.MenuLookupsAgree | src/views/layout/constants/menu.ts:92-108 | for every path `getMenuItemByPath` and `getMenuGroupByPath` are defined together, and the item lies in the group |
| Menu.NoMatch | src/views/layout/constants/menu.ts:98 | an item whose path differs from the path at a shared position does not match |
| Menu.FirstMatchAt | src/views/layout/constants/menu.ts:98 | `find` returns the item at an index when it matches and no earlier item does |
| Menu.ParentsComeFirst | src/views/layout/constants/menu.ts:51-99 | `/settings/exchange` resolves to the `/settings` item and `/strategy/instances` to the `/strategy` item, because the parent is listed first |
| Menu.InstancesLookups | src/views/layout/constants/menu.ts:55-67 | the overview group has no match for `/strategy/instances`; the strategy group's first item matches it |
| Menu.ExchangeLookups | src/views/layout/constants/menu.ts:55-85 | only the system group matches `/settings/exchange`, at its `/settings` item |
| RouteIcons.IconKeysOfMap | src/utils/route.ts:23-34 | the key list holds exactly the keys of `ICON_MAP` |
| RouteIcons.InsertByLength | src/utils/route.ts:47 | one insertion step of the sort keeps the same keys, with the inserted key added |
| RouteIcons.InsertKeepsOrder | src/utils/route.ts:47 | an insertion step keeps a longest-first list longest-first |
| RouteIcons.SortByLength | src/utils/route.ts:47 | the comparator sort `b.length - a.length` is a permutation of the keys |
| RouteIcons.SortSorts | src/utils/route.ts:47 | the sorted keys are longest first and are the same keys |
| RouteIcons.LongestPrefix | src/utils/route.ts:46-52 | no candidate is found exactly when no key is a prefix of the path (other than `/`); otherwise the one found is a longest such key |
| RouteIcons.FindPageIcon | src/utils/route.ts:40-55 | the method with its loop returns the exact entry, else the icon of the first sorted key the path starts with, else `HomeFilled` |
| RouteIcons.FindFallback | src/utils/route.ts:46-54 | the `for` loop returns the icon of the first sorted candidate key, else `HomeFilled` |
| RouteIcons.FirstCandidateWins | src/utils/route.ts:47-51 | the first candidate in the length-sorted list is a longest candidate |
| RouteIcons.NoCandidate | src/utils/route.ts:47-54 | when no sorted key is a candidate, no key is |
| RouteIcons.GetPageIcon | src/utils/route.ts:40-55 | `getPageIcon` returns the page icon the specification function gives for the path |
| RouteIcons.ExactKeyWins | src/utils/route.ts:42-44 | a path that is a key gets that key's icon |
| RouteIcons.PrefixFallback | src/utils/route.ts:46-54 | without an exact key the icon is that of a longest key the path starts with, and `HomeFilled` when there is none |
| RouteIcons.NoSegmentBoundary | src/utils/route.ts:49 | the prefix test ignores segment boundaries: `/tradeX` gets the `/trade` icon |
| RouteIcons.TradeXPrefix | src/utils/route.ts:47-51 | `/trade` is the longest key that `/tradeX` starts with |
| RouteIcons.OnlyCandidate | src/utils/route.ts:47-51 | a key that is the only candidate is the one found |
| Performance.InsertAscending | src/utils/performance.ts:331 | one insertion step of the numeric sort adds exactly the inserted value |
| Performance.InsertKeepsAscending | src/utils/performance.ts:331 | an insertion step keeps an ascending list ascending |
| Performance.SortAscending | src/utils/performance.ts:331 | the sorted copy `[...values].sort((a, b) => a - b)` is a permutation of the values |
| Performance.SortIsAscending | src/utils/performance.ts:331 | the sorted copy is ascending and holds the same values |
| Performance.P50Index | src/utils/performance.ts:339 | `Math.floor(n * 0.5)` is a valid index of a non-empty list |
| Performance.P95Index | src/utils/performance.ts:340 | `Math.floor(n * 0.95)` is a valid index of a non-empty list |
| Performance.P99Index | src/utils/performance.ts:341 | `Math.floor(n * 0.99)` is a valid index of a non-empty list |
| Performance.QuantilesOrdered | src/utils/performance.ts:339-341 | the p50 index is at most the p95 index, which is at most the p99 index |
| Performance.StatsOf | src/utils/performance.ts:325-343 | the summary is `null` exactly for an empty list, and its `count` is the number of durations |
| Performance.StatsOrdered | src/utils/performance.ts:331-342 | min ≤ p50 ≤ p95 ≤ p99 ≤ max; min, max and the quantiles are recorded durations; min and max bound every duration |
| Performance.StatsAverage | src/utils/performance.ts:332-338 | the average lies between `min` and `max` |
| Performance.AverageTimesCount | src/utils/performance.ts:332-338 | the average times the count is the sum of the durations |
| Performance.AverageBounds | src/utils/performance.ts:338 | durations within bounds have an average within the same bounds |
| Performance.SumOfInsert | src/utils/performance.ts:331-332 | inserting a value into a list adds it to the sum |
| Performance.SortKeepsSum | src/utils/performance.ts:331-332 | the sorted copy has the same sum as the recorded list |
| Performance.Recorded | src/utils/performance.ts:302-307 | recording appends the duration to the name's list, created if absent; every other name is unchanged |
| Performance.RecordedStats | src/utils/performance.ts:302-307 | after recording, the count grows by one, earlier durations stay in place and the new one lies within `min`..`max` |
| Performance.AppendedStats | src/utils/performance.ts:306-342 | appending a duration counts it and keeps it within `min`..`max` |
| Performance.PerformanceMonitor.constructor | src/utils/performance.ts:300 | a new monitor has no metrics |
| Performance.PerformanceMonitor.Record | src/utils/performance.ts:302-307 | `record` leaves the metrics `Recorded` describes |
| Performance.PerformanceMonitor.Measure | src/utils/performance.ts:309-315 | `measure` records the difference of the two clock readings under the name |
| Performance.PerformanceMonitor.GetStats | src/utils/performance.ts:325-343 | `getStats` is `null` exactly for a name never recorded or with no durations, and counts the name's durations otherwise |
| Performance.PerformanceMonitor.AllStats | src/utils/performance.ts:345-351 | `getAllStats` has one entry per recorded name, each that name's `getStats` |
| Performance.PerformanceMonitor.Clear | src/utils/performance.ts:353-359 | a non-empty name deletes only that list; no name or the empty (falsy) name deletes everything |
| Performance.ClearedStats | src/utils/performance.ts:353-356 | after deleting one name it has no entry and every other name keeps its list |
| Performance.Memoized.constructor | src/utils/performance.ts:379-383 | a memoized wrapper starts with an empty cache |
| Performance.Memoized.Call | src/utils/performance.ts:385-397 | a cached key returns the cached result and changes nothing; an uncached key calls `fn` once and stores the result under the key; without a key generator the result is always `fn(args)` |
| Validation.ValidateString | src-tauri/src/core/validation.rs:93-99 | `validate` fails exactly on an empty value, with the missing-parameter error naming the field |
| Validation.MinLength | src-tauri/src/core/validation.rs:34-40 | the chain continues with the same validator exactly when the byte length is at least `min`, and panics otherwise |
| Validation.MaxLength | src-tauri/src/core/validation.rs:43-49 | the chain continues exactly when the byte length is at most `max` |
| Validation.Length | src-tauri/src/core/validation.rs:52-54 | the chain continues exactly when `min` ≤ byte length ≤ `max`; a too-short value panics in the minimum check first |
| Validation.OneOf | src-tauri/src/core/validation.rs:84-90 | the chain continues exactly when the value is one of the options |
| Validation.SymbolShapeIsRegex | src-tauri/src/core/validation.rs:79-81 | the character test decides `^[A-Z]+[A-Z0-9_]+$` |
| Validation.SymbolStep | src-tauri/src/core/validation.rs:79-81 | `symbol()` continues exactly when the value matches the symbol pattern |
| Validation.UsernameStep | src-tauri/src/core/validation.rs:74-76 | `username()` continues exactly when the value is 3 to 20 ASCII letters, digits or underscores |
| Validation.ValidateNumber | src-tauri/src/core/validation.rs:155-157 | the number validator's `validate` always succeeds |
| Validation.NumberMin | src-tauri/src/core/validation.rs:120-126 | `min` continues exactly when the value is at least the bound |
| Validation.NumberMax | src-tauri/src/core/validation.rs:129-135 | `max` continues exactly when the value is at most the bound |
| Validation.NumberRange | src-tauri/src/core/validation.rs:138-140 | `range` continues exactly when the value lies in the closed range |
| Validation.Positive | src-tauri/src/core/validation.rs:143-152 | `positive` continues exactly when the value is above zero |
| Validation.ValidateSymbol | src-tauri/src/core/validation.rs:173-187 | a symbol shorter than 3 bytes or longer than 20 fails with the length message |
| Validation.SymbolAccepted | src-tauri/src/core/validation.rs:173-187 | a symbol passes exactly when it has 3 to 20 characters, a capital first and capitals, digits or underscores after it |
| Validation.ThreeLetterSymbol | src-tauri/src/core/validation.rs:173-187 | `BTC` passes and `ETH-USDT` fails |
| Validation.ValidateInterval | src-tauri/src/core/validation.rs:190-203 | an interval passes exactly when it is one of the 15 listed, and otherwise fails with the message listing them |
| Validation.TwoHourInterval | src-tauri/src/core/validation.rs:190-203 | `2h` and `1h` pass; `1H` fails |
| Validation.ValidateLimit | src-tauri/src/core/validation.rs:206-215 | a limit passes, returned unchanged, exactly when it lies in 1..1000; each side has its own message |
| Validation.ValidateId | src-tauri/src/core/validation.rs:218-228 | an id passes exactly when it is non-empty and at most 100 bytes; the empty id gets "不能为空" |
| Validation.IdBytesNotCharacters | src-tauri/src/core/validation.rs:223 | the bound counts bytes: 34 three-byte characters are refused |
| Auth.RolePermissions | src-tauri/src/core/auth/mod.rs:32-55 | the administrator's list is the wildcard alone and any name other than the four roles has no permission |
| Auth.HasPermission | src-tauri/src/core/auth/mod.rs:13-24 | the administrator holds every permission, and only the four known roles hold any |
| Auth.HasAnyPermission | src-tauri/src/core/auth/mod.rs:27-29 | `has_any_permission` holds exactly when some listed permission is held |
| Auth.WildcardOnlyForAdmin | src-tauri/src/core/auth/mod.rs:32-55 | only the administrator's list holds the wildcard |
| Auth.PermissionsByRole | src-tauri/src/core/auth/mod.rs:13-55 | the administrator holds every permission, an unknown role none, and any other role exactly the permissions on its list |
| Auth.RoleSeparation | src-tauri/src/core/auth/mod.rs:35-52 | the developer can neither trade nor write orders; the auditor can execute trades but write neither strategies nor orders; the trader writes neither strategies nor users |
| TradeTypes.IntervalText | src-tauri/src/core/trade/types.rs:92-102 | each interval's text has two or three characters |
| TradeTypes.ParseInterval | src-tauri/src/core/trade/types.rs:104-115 | a parsed interval prints back as the text parsed |
| TradeTypes.IntervalRoundTrip | src-tauri/src/core/trade/types.rs:92-115 | `from_str(as_str(i)) == Some(i)` for every interval |
| TradeTypes.ParseIntervalExact | src-tauri/src/core/trade/types.rs:104-115 | a text parses exactly when it is the text of some interval |
| TradeTypes.IntervalTextInjective | src-tauri/src/core/trade/types.rs:92-102 | different intervals have different texts |
| TradeTypes.ParseIsCaseSensitive | src-tauri/src/core/trade/types.rs:104-115 | `1H`, `1D` and `1M` do not parse |
| OrderStates.ValidateTransition | src-tauri/src/core/trade/order/state.rs:48-71 | a refused move fails with "Invalid state transition: From -> To" |
| OrderStates.AllowedMoves | src-tauri/src/core/trade/order/state.rs:48-71 | a move is accepted exactly when it is a self-loop or one of the seven listed pairs |
| OrderStates.NoWayOut | src-tauri/src/core/trade/order/state.rs:55-69 | a terminal state moves only to itself and no other state moves back to `Pending` |
| OrderStates.MovesGoForward | src-tauri/src/core/trade/order/state.rs:55-69 | every accepted move other than a self-loop goes to a later stage |
| OrderStates.RunsHaveNoCycle | src-tauri/src/core/trade/order/state.rs:55-69 | along any run of accepted moves the stage never goes back, and a run that ends where it began never left that state |
| OrderStates.OrderStateMachine.constructor | src-tauri/src/core/trade/order/state.rs:17-21 | a new machine is `Pending` |
| OrderStates.OrderStateMachine.FromState | src-tauri/src/core/trade/order/state.rs:24-26 | the machine starts in the state given |
| OrderStates.OrderStateMachine.TransitionTo | src-tauri/src/core/trade/order/state.rs:41-45 | an accepted move changes the state to the target; a refused one returns the error and leaves the state unchanged |
| OrderStates.OrderStateMachine.CanTransitionTo | src-tauri/src/core/trade/order/state.rs:89-91 | true exactly when the move from the current state is accepted |
| PositionBook.Opened | src-tauri/src/core/trade/position/manager.rs:58-71 | a first trade opens a position with its quantity, its price as entry and current price, and zero PnL |
| PositionBook.Applied | src-tauri/src/core/trade/position/manager.rs:37-57 | a buy or long adds to the quantity, a sell or short subtracts, any other side leaves quantity and entry alone; the current price becomes the trade price and the unrealized PnL is marked there by the position's own side; identity and realized PnL are kept |
| PositionBook.Updated | src-tauri/src/core/trade/position/manager.rs:33-73 | after a trade the book has an entry under `symbol_side`, and every other key is as it was |
| PositionBook.AverageEntry | src-tauri/src/core/trade/position/manager.rs:39-43 | a buy that leaves a positive quantity sets entry × quantity to the old cost plus the trade's cost |
| PositionBook.SidesIndependent | src-tauri/src/core/trade/position/manager.rs:34-73 | a trade on one side leaves the same symbol's other side as it was |
| PositionBook.KeyDeterminesSide | src-tauri/src/core/trade/position/manager.rs:34 | the two sides of one symbol have different keys |
| PositionBook.SumOverPick | src-tauri/src/core/trade/position/manager.rs:126-139 | the PnL totals do not depend on the order in which the map yields its values |
| PositionBook.OpenKeys | src-tauri/src/core/trade/position/manager.rs:93-98 | the open positions are positions of the book |
| PositionBook.PositionManager.constructor | src-tauri/src/core/trade/position/manager.rs:26-30 | a new manager holds no position |
| PositionBook.PositionManager.UpdatePosition | src-tauri/src/core/trade/position/manager.rs:33-73 | `update_position` leaves the book `Updated` describes |
| PositionBook.PositionManager.GetPosition | src-tauri/src/core/trade/position/manager.rs:76-79 | `get_position` finds the entry under `symbol_side` exactly when there is one |
| PositionBook.PositionManager.RemovePosition | src-tauri/src/core/trade/position/manager.rs:101-104 | `remove_position` returns the entry under the key, if any, and deletes that key only |
| PositionBook.PositionManager.ClosePosition | src-tauri/src/core/trade/position/manager.rs:107-123 | an absent key yields 0 and changes nothing; otherwise the PnL at the close price, by the position's side, is returned and booked as realized, and the quantity becomes 0 |
| PositionBook.PositionManager.Clear | src-tauri/src/core/trade/position/manager.rs:142-144 | `clear` empties the book |
| PositionBook.PositionManager.TotalPnl | src-tauri/src/core/trade/position/manager.rs:126-139 | the loop returns the sum of the chosen PnL field over every position |
| PositionBook.PositionManager.GetOpenPositions | src-tauri/src/core/trade/position/manager.rs:93-98 | the result has one element per open position: exactly the positions with a positive quantity |
| PositionBook.PositionManager.ActivePositionCount | src-tauri/src/core/trade/position/manager.rs:147-152 | the count is the number of positions with a positive quantity |
| PositionBook.EmptyBook | src-tauri/src/core/trade/position/manager.rs:126-152 | an empty book has no open position and zero totals |
| TradeService.ValidateOrderRequest | src-tauri/src/services/trade_service.rs:181-197 | a non-positive quantity fails first; a limit or stop-limit order without a positive price fails next; every error is one of the three validation messages |
| TradeService.ValidationIsWellFormedness | src-tauri/src/services/trade_service.rs:181-197 | a request passes exactly when it is well formed: a positive quantity, a positive price where needed and a positive stop price where needed |
| TradeService.MarketOrderAccepted | src-tauri/src/services/trade_service.rs:181-197 | a market or OCO order with a positive quantity passes, whatever its prices |
| TradeService.StopLimitMessages | src-tauri/src/services/trade_service.rs:186-194 | a stop-limit order lacking only its stop price fails on the stop price; one lacking its price fails on the price, which is checked first |
| TradeService.CancelGuard | src-tauri/src/services/trade_service.rs:64-71 | cancelling is allowed exactly when the move to `Canceled` is accepted; otherwise the error names the current state |
| Converters.ParseStr | src-tauri/src/core/trade/converter/mod.rs:138-145 | `parse_str` succeeds exactly on a JSON string, with its text; otherwise `InvalidValue` carries the field and the value's JSON text |
| Converters.ParseI64 | src-tauri/src/core/trade/converter/mod.rs:127-135 | a parsed integer lies in the `i64` range; a failure is `InvalidValue` with the field and the value's JSON text |
| Converters.ParseI64Accepts | src-tauri/src/core/trade/converter/mod.rs:127-135 | `parse_i64` accepts exactly a string holding the text of an `i64` (its value) or an integer number in range (itself); floats, booleans, null, arrays and objects fail |
| Converters.ParseF64 | src-tauri/src/core/trade/converter/mod.rs:116-124 | `parse_f64` accepts exactly a string holding decimal text or any number; a failure is `InvalidValue` |
| Converters.GetField | src-tauri/src/core/trade/converter/mod.rs:148-153 | `get_field` fails with `MissingField(field)` exactly when the value is not an object holding the field, and otherwise returns that field's value |
| Converters.NormalizeTimestamp | src-tauri/src/core/trade/converter/mod.rs:156-165 | the timestamp fails exactly when `parse_i64` does; a value at or above 946684800000 is kept, a smaller one is multiplied by 1000 |
| Converters.NormalizeTimestampSettles | src-tauri/src/core/trade/converter/mod.rs:159-164 | a seconds value from the year 2000 on, scaled without overflow, is left alone by a second normalisation |
| Converters.NormalizeSymbolRaw | src-tauri/src/core/trade/converter/mod.rs:168-173 | the normalised symbol holds no `/`, `-`, `_` and no lower-case letter |
| Converters.NormalizeSymbolRawIdempotent | src-tauri/src/core/trade/converter/mod.rs:168-173 | normalising twice is normalising once |
| Converters.SeparatorFree | src-tauri/src/core/trade/converter/mod.rs:168-173 | text with no separator and no lower-case letter is already normalised |
| Converters.JoinedSymbol | src-tauri/src/core/trade/converter/mod.rs:205-208 | a separator between two clean parts is dropped: `BTC/USDT`, `BTC-USDT`, `BTC_USDT` become `BTCUSDT` |
| Converters.LowerCaseSymbol | src-tauri/src/core/trade/converter/mod.rs:209 | without separators normalising is upper-casing: `btcusdt` becomes `BTCUSDT` |
| Converters.Create | src-tauri/src/core/trade/converter/mod.rs:94-100 | the converter created for an exchange reports that exchange |
| Converters.CreateInverts | src-tauri/src/core/trade/converter/mod.rs:94-100 | each converter is the one created for its own exchange |
| SerdeValues.Get | src-tauri/src/core/trade/converter/mod.rs:149 | `value.get(field)` finds a field exactly when the value is an object holding it |
| SerdeValues.ParseI64Text | src-tauri/src/core/trade/converter/mod.rs:129 | `str::parse::<i64>` accepts only an optional sign followed by digits, with a value in range |
| SerdeValues.ParseI64OfText | src-tauri/src/core/trade/converter/mod.rs:127-135 | the decimal text of any `i64` parses back to it |
| SerdeValues.ParseI64Rejects | src-tauri/src/core/trade/converter/mod.rs:129 | the empty text, a bare sign, `1.5` and ` 1` do not parse |
| SerdeValues.ParseF64Text | src-tauri/src/core/trade/converter/mod.rs:118 | decimal text that parses is non-empty, negative only with a leading `-`, and otherwise digits and a `.` |
| SerdeValues.ParseF64Examples | src-tauri/src/core/trade/converter/mod.rs:118 | `25` parses to 25, `-0.5` to -0.5; `.` and the empty text do not parse |
| OkxConversion.FirstQuote | src-tauri/src/core/trade/converter/okx.rs:210-216 | the loop over the common quotes stops at the first quote the symbol ends with; `None` when no quote ends it |
| OkxConversion.Denormalized | src-tauri/src/core/trade/converter/okx.rs:207-224 | the OKX form is the symbol with one dash inserted |
| OkxConversion.SplitPoint | src-tauri/src/core/trade/converter/okx.rs:210-223 | the dash goes before the first matching quote, else after 3 characters for symbols of at most 6 bytes and after 4 otherwise |
| OkxConversion.DenormalizeSymbol | src-tauri/src/core/trade/converter/okx.rs:207-224 | the loop that returns at the first matching quote computes `Denormalized` |
| OkxConversion.DenormalizeUsdt | src-tauri/src/core/trade/converter/okx.rs:208 | `BTCUSDT` becomes `BTC-USDT` |
| OkxConversion.DenormalizeRoundTrip | src-tauri/src/core/trade/converter/okx.rs:202-224 | for a symbol of at least 3 capitals and digits, normalising its OKX form gives the symbol back |
| OkxConversion.SideOf | src-tauri/src/core/trade/converter/okx.rs:91-99 | the side converts exactly for `buy` and `sell`; any other text is an invalid `side` carrying that text |
| OkxConversion.OrderTypeOf | src-tauri/src/core/trade/converter/okx.rs:101-108 | the order type is never OCO; it is market exactly for `market`, and unknown text gives a limit order |
| OkxConversion.StatusOf | src-tauri/src/core/trade/converter/okx.rs:110-116 | `live` and `partially_filled` are open, `filled` filled, `canceled` canceled, and every other text pending |
| OkxConversion.StatusRange | src-tauri/src/core/trade/converter/okx.rs:110-116 | the converter never reports a partially filled or a rejected order |
| OkxConversion.OptionalText | src-tauri/src/core/trade/converter/okx.rs:121 | an optional text field is present exactly when the field is a JSON string |
| OkxConversion.OptionalTimestamp | src-tauri/src/core/trade/converter/okx.rs:137 | an optional timestamp is present exactly when the field exists and normalises |
| OkxConversion.NumberOrZero | src-tauri/src/core/trade/converter/okx.rs:130-135 | a number field that does not parse counts as 0 |
| OkxConversion.ConvertOrder | src-tauri/src/core/trade/converter/okx.rs:88-139 | a reply without `data` fails with `MissingField("data")`; otherwise the result is the conversion of `data` |
| OkxConversion.OrderOfData | src-tauri/src/core/trade/converter/okx.rs:118-138 | a converted order's exchange id is its id, and its symbol is normalised |
| OkxConversion.ConvertOrderSide | src-tauri/src/core/trade/converter/okx.rs:91-99 | an order converts only with side `buy` or `sell`, which it keeps; any other side text fails as an invalid `side` |
| OkxConversion.ConvertOrderStatus | src-tauri/src/core/trade/converter/okx.rs:101-131 | a converted order's status and type are the mappings of `state` and `tdMode`; its quantity is `fillSz` when that parses and `sz` otherwise |
| OkxConversion.PositionEntry | src-tauri/src/core/trade/converter/okx.rs:172-195 | an entry is long exactly when `pos` ≥ 0 and short exactly when `pos` < 0; its quantity is the magnitude of `pos` and its symbol is normalised |
| OkxConversion.ConvertPositions | src-tauri/src/core/trade/converter/okx.rs:166-200 | a missing `data` fails; a non-array `data` gives no positions; an array converts exactly when every entry does, entry by entry, and otherwise fails with the first failing entry's error |
| OkxExchange.NormalizeSymbol | src-tauri/src/core/trade/exchange/okx.rs:240-242 | the normalised symbol has no dash and no lower-case letter |
| OkxExchange.ToOkxSymbol | src-tauri/src/core/trade/exchange/okx.rs:245-258 | a symbol with a dash is upper-cased; one ending in `USDT` or `USDC` gets a dash before the quote; any other is upper-cased |
| OkxExchange.ToOkxRoundTrip | src-tauri/src/core/trade/exchange/okx.rs:240-258 | for an upper-case, dash-free symbol quoted in `USDT` or `USDC`, normalising the OKX form gives the symbol back |
| OkxExchange.ToOkxKeepsBase | src-tauri/src/core/trade/exchange/okx.rs:250-251 | the base is not upper-cased when a quote is found: `btcUSDT` becomes `btc-USDT` |
| OkxExchange.IntervalToOkxBar | src-tauri/src/core/trade/exchange/okx.rs:261-271 | one hour is `1H` and one day `1D` |
| OkxExchange.OkxBarInjective | src-tauri/src/core/trade/exchange/okx.rs:261-271 | different intervals have different bars, and a bar differs from the interval's text exactly for the 1h, 4h and 1d intervals |
| OkxExchange.OrderTypeToOkx | src-tauri/src/core/trade/exchange/okx.rs:309-317 | stop-loss orders are `conditional_market` and stop-limit orders `conditional_limit` |
| OkxExchange.SideToOkx | src-tauri/src/core/trade/exchange/okx.rs:320-325 | the text is `buy` exactly for a buy |
| OkxExchange.OkxNamesInjective | src-tauri/src/core/trade/exchange/okx.rs:309-325 | both tables tell their inputs apart, and the converter reads the side names back |
| OkxExchange.ParseOrderState | src-tauri/src/core/trade/exchange/okx.rs:350-359 | each state text maps to its state, `mmp` and `failed` to rejected, and any other text to pending, each as an if-and-only-if |
| OkxExchange.ParseOrderStatesAgree | src-tauri/src/core/trade/exchange/okx.rs:677-686 | the static copy agrees with the method on every text |
| OkxExchange.AdapterAndConverterStates | src-tauri/src/core/trade/exchange/okx.rs:350-359 | the adapter reads `partially_filled` as partially filled where the converter reads it as open; the two agree on every text other than `partially_filled`, `mmp` and `failed` |
| ExchangeModels.AsStr | src-tauri/src/models/exchange.rs:13-19 | every name prints as `binance`, `okx` or `bybit` |
| ExchangeModels.FromStr | src-tauri/src/models/exchange.rs:21-28 | a parsed name prints back as the text parsed |
| ExchangeModels.NameRoundTrip | src-tauri/src/models/exchange.rs:13-28 | parsing the text of a name gives the name back |
| ExchangeModels.FromStrExact | src-tauri/src/models/exchange.rs:21-28 | exactly the three lower-case names parse |
| ExchangeModels.FromStrIsCaseSensitive | src-tauri/src/models/exchange.rs:21-28 | `Binance`, `OKX` and `BYBIT` do not parse |
| ExchangeModels.Display | src-tauri/src/models/exchange.rs:31-35 | the displayed text parses back to the name |
| ExchangeModels.FromString | src-tauri/src/models/exchange.rs:37-41 | `From<String>` gives the parsed name, and Binance for any other text |
| ExchangeModels.FromStringOfDisplay | src-tauri/src/models/exchange.rs:31-41 | converting a name's display text gives the name back, and every unknown text becomes Binance, so the conversion is not one to one |
| ExchangeModels.ActiveOnlyByStatus | src-tauri/src/models/exchange.rs:60-62 | only the exact status `active` counts as active; `Active` and `inactive` do not, and no other field plays a part |
| BybitExchange.NormalizeSymbol | src-tauri/src/core/trade/exchange/bybit.rs:202-204 | normalising keeps the length and leaves no lower-case letter |
| BybitExchange.NormalizeIdempotent | src-tauri/src/core/trade/exchange/bybit.rs:202-204 | normalising twice is normalising once, and a symbol in capitals is kept as it is |
| BybitExchange.IntervalToBybit | src-tauri/src/core/trade/exchange/bybit.rs:207-217 | the name is `D` exactly for one day |
| BybitExchange.BybitIntervalInjective | src-tauri/src/core/trade/exchange/bybit.rs:207-217 | different intervals have different names |
| BybitExchange.OrderTypeToBybit | src-tauri/src/core/trade/exchange/bybit.rs:254-262 | a stop-loss order is `CONDITIONAL_MARKET` |
| BybitExchange.SideToBybit | src-tauri/src/core/trade/exchange/bybit.rs:265-270 | the text is `Buy` exactly for a buy |
| BybitExchange.BybitNamesInjective | src-tauri/src/core/trade/exchange/bybit.rs:254-270 | both tables tell their inputs apart, and the WebSocket reader turns the side names and the market and limit names back into the same values |
| BybitExchange.ParseOrderState | src-tauri/src/core/trade/exchange/bybit.rs:295-303 | `New` and `PartiallyFilled` are open, `Filled`, `Cancelled` and `Rejected` their own states and any other text pending, each as an if-and-only-if; partially filled is never reported |
| BybitExchange.ParseOrderStatesAgree | src-tauri/src/core/trade/exchange/bybit.rs:311-319 | the static copy agrees with the method on every text |
| BybitExchange.SignMessage | src-tauri/src/core/trade/exchange/bybit.rs:72-76 | the signed pre-image is the timestamp, the API key, `5000` and the parameters, in that order and without separators |
| BybitExchange.SignMessageInjective | src-tauri/src/core/trade/exchange/bybit.rs:76 | for one timestamp and key, the pre-image determines the parameters |
| BybitExchange.FieldText | src-tauri/src/core/trade/exchange/bybit.rs:381 | `data[key].as_str()` is present exactly when the field is a string |
| BybitExchange.WsSide | src-tauri/src/core/trade/exchange/bybit.rs:389-393 | the WebSocket side is a sell exactly for `Sell`; anything else is a buy |
| BybitExchange.WsOrderType | src-tauri/src/core/trade/exchange/bybit.rs:394-398 | the WebSocket type is limit exactly for `LIMIT`; anything else is market |
| BybitExchange.TextNumberOrZero | src-tauri/src/core/trade/exchange/bybit.rs:400-401 | a quantity field that is not a string reads as 0 |
| BybitExchange.ParseWsOrder | src-tauri/src/core/trade/exchange/bybit.rs:380-408 | the order message never fails: the id and exchange id are the `orderId` text or empty, the symbol is normalised, side, type and status follow their tables, the commission is 0, there is no fill time and the creation time is `createdTime` or 0 |
| BybitExchange.WsOrderDefaults | src-tauri/src/core/trade/exchange/bybit.rs:389-398 | a message without `side` or `orderType` reads as a market buy |
| Signatures.PairText | src-tauri/src/core/trade/exchange/signature.rs:44 | `format!("{}={}", k, v)` is the key, `=`, then the value |
| Signatures.PairTexts | src-tauri/src/core/trade/exchange/signature.rs:42-45 | one text per pair, in order |
| Signatures.QueryShape | src-tauri/src/core/trade/exchange/signature.rs:41-47 | no pairs give the empty query, one pair its own text, and each further pair follows an `&` |
| Signatures.QueryAppend | src-tauri/src/core/trade/exchange/signature.rs:41-47 | adding a pair at the end appends `&k=v` |
| Signatures.AmpersandCount | src-tauri/src/core/trade/exchange/signature.rs:41-47 | when no key or value holds `&`, the query of n pairs holds n - 1 of them |
| Signatures.QueryExample | src-tauri/src/core/trade/exchange/signature.rs:91-100 | the three pairs of the test give `symbol=BTCUSDT&side=BUY&type=LIMIT` |
| Signatures.MapPairs | src-tauri/src/core/trade/exchange/signature.rs:33-35 | the map's pairs in the iteration order given |
| Signatures.BuildQueryCount | src-tauri/src/core/trade/exchange/signature.rs:32-38 | whatever order the map yields its entries in, n entries without `&` give n - 1 of them |
| Signatures.Headers | src-tauri/src/core/trade/exchange/signature.rs:55-60 | two headers, the first carrying the API key |
| RiskRules.Severity | src-tauri/src/core/risk/rule.rs:249-257 | the severity lies in 0..4 |
| RiskRules.SeverityOrder | src-tauri/src/core/risk/rule.rs:234-257 | severity tells the actions apart; an action stops trading exactly from severity 2 on and closes positions exactly from severity 3 on, so every closing action stops trading |
| RiskRules.ActionText | src-tauri/src/core/risk/rule.rs:260-270 | the displayed name is snake case: lower-case letters and underscores |
| RiskRules.ParseAction | src-tauri/src/core/risk/rule.rs:275-284 | a parsed action has the lower-cased text among its spellings; a failure is "Invalid risk action: " with the original text |
| RiskRules.ParseActionExact | src-tauri/src/core/risk/rule.rs:275-284 | a text parses to an action exactly when its lower-cased form is one of that action's spellings, and fails exactly when it is a spelling of none |
| RiskRules.ParseDisplayRoundTrip | src-tauri/src/core/risk/rule.rs:260-285 | parsing an action's displayed name gives the action back |
| RiskRules.LogOnlyConfig | src-tauri/src/core/risk/rule.rs:175-198 | `log_only`, the default, is enabled, logs only, notifies through `log`, and does not stop trading |
| RiskRules.NotifyOnlyConfig | src-tauri/src/core/risk/rule.rs:185-191 | `notify_only` is enabled, notifies through the given methods, and does not stop trading |
| RiskRules.EmptyContextIsZero | src-tauri/src/core/risk/rule.rs:98-137 | the empty context has no positions or orders and zero totals |
| RiskRules.TotalsAppend | src-tauri/src/core/risk/rule.rs:112-125 | the total value and the total unrealized PnL add up over a split of the positions |
| RiskRules.TotalValueNonNegative | src-tauri/src/core/risk/rule.rs:112-117 | with non-negative quantities and prices the total value is non-negative |
| PositionLimits.LongRatio | src-tauri/src/core/risk/position_limit.rs:73-86 | the long ratio is 0.5 when the total value is zero, and otherwise the long value divided by the total |
| PositionLimits.LongValueBounds | src-tauri/src/core/risk/position_limit.rs:79-83 | with non-negative values the long value lies between zero and the total |
| PositionLimits.AllLongValue | src-tauri/src/core/risk/position_limit.rs:79-83 | when every position is long the long value is the total value |
| PositionLimits.LongRatioBounds | src-tauri/src/core/risk/position_limit.rs:69-86 | with non-negative values the long ratio lies in [0, 1], and it is 1 when every position is long and the total is not zero |
| PositionLimits.PositionLimitRule.constructor | src-tauri/src/core/risk/position_limit.rs:29-44 | `new` is enabled, notifies through `dingtalk`, and keeps the three limits |
| PositionLimits.PositionLimitRule.WithConfig | src-tauri/src/core/risk/position_limit.rs:47-59 | `with_config` keeps the configuration and the three limits given |
| PositionLimits.PositionLimitRule.CheckSinglePositionLimit | src-tauri/src/core/risk/position_limit.rs:89-100 | the loop reports nothing exactly when no position's value exceeds the limit, and otherwise the first position over it, with its value |
| PositionLimits.PositionLimitRule.CheckTotalPositionLimit | src-tauri/src/core/risk/position_limit.rs:103-112 | a breach is reported exactly when the total value exceeds the limit |
| PositionLimits.PositionLimitRule.CheckDirectionBalance | src-tauri/src/core/risk/position_limit.rs:115-134 | a breach is reported exactly when the long ratio or one minus it exceeds the limit; the short side is reported only when the long side passes |
| PositionLimits.PositionLimitRule.Check | src-tauri/src/core/risk/position_limit.rs:147-167 | the rule fires exactly when one of the three checks reports a breach, whatever `enabled` says |
| PositionLimits.PositionLimitRule.EmptyPositions | src-tauri/src/core/risk/position_limit.rs:73-77 | with no positions the rule fires only when the total limit is negative or the ratio limit is under one half |
| PositionLimits.PositionLimitRule.AtLimitPasses | src-tauri/src/core/risk/position_limit.rs:92-119 | the limits are strict: one long position whose value equals both value limits passes when the ratio limit is at least 1 |
| PositionLimits.PositionLimitRule.UpdateConfig | src-tauri/src/core/risk/position_limit.rs:173-176 | `update_config` replaces the configuration and succeeds |
| DrawdownLimits.Drawdown | src-tauri/src/core/risk/drawdown_limit.rs:61-71 | the drawdown lies in 0..100; it is 0 without a positive peak or at or above the peak, 100 for negative equity, and otherwise the fall from the peak in percent |
| DrawdownLimits.DrawdownMonotone | src-tauri/src/core/risk/drawdown_limit.rs:61-71 | with the peak fixed, less equity never gives a smaller drawdown |
| DrawdownLimits.DrawdownThreshold | src-tauri/src/core/risk/drawdown_limit.rs:61-71 | for a positive peak, non-negative equity and a non-negative limit, the drawdown exceeds the limit exactly when equity is below peak × (1 − limit/100) |
| DrawdownLimits.DrawdownExamples | src-tauri/src/core/risk/drawdown_limit.rs:209-230 | the drawdowns the tests expect: 0, 10, 50 and 100 percent from a peak of 1000, 0 without a peak, 100 for negative equity |
| DrawdownLimits.TotalEquity | src-tauri/src/core/risk/drawdown_limit.rs:114-121 | total equity is the balance plus the total position value plus the total unrealized PnL |
| DrawdownLimits.RaisePeak | src-tauri/src/core/risk/drawdown_limit.rs:78-84 | after recording, the instance has a peak that is at least the new equity and the old peak, and equal to one of them; other instances keep theirs |
| DrawdownLimits.PeaksNeverDecrease | src-tauri/src/core/risk/drawdown_limit.rs:78-84 | recording never lowers a peak and never forgets an instance |
| DrawdownLimits.PeakOf | src-tauri/src/core/risk/drawdown_limit.rs:78-84 | the largest of a non-empty list of recorded values |
| DrawdownLimits.RecordingKeepsMaximum | src-tauri/src/core/risk/drawdown_limit.rs:78-84 | recording values one after another from no peak leaves the largest of them as the peak |
| DrawdownLimits.DrawdownLimitRule.constructor | src-tauri/src/core/risk/drawdown_limit.rs:28-38 | `new` closes positions, notifies through DingTalk and email, keeps the limit and has no peaks |
| DrawdownLimits.DrawdownLimitRule.WithConfig | src-tauri/src/core/risk/drawdown_limit.rs:45-51 | `with_config` keeps the configuration and limit and has no peaks |
| DrawdownLimits.DrawdownLimitRule.UpdatePeak | src-tauri/src/core/risk/drawdown_limit.rs:78-84 | `update_peak` leaves the peaks `RaisePeak` describes and changes nothing else |
| DrawdownLimits.DrawdownLimitRule.GetPeak | src-tauri/src/core/risk/drawdown_limit.rs:93-95 | `get_peak` returns the recorded peak exactly when there is one |
| DrawdownLimits.DrawdownLimitRule.SetMaxDrawdownPct | src-tauri/src/core/risk/drawdown_limit.rs:103-105 | the setter replaces the limit only |
| DrawdownLimits.DrawdownLimitRule.UpdateConfig | src-tauri/src/core/risk/drawdown_limit.rs:167-170 | `update_config` replaces the configuration only and succeeds |
| DrawdownLimits.DrawdownLimitRule.Check | src-tauri/src/core/risk/drawdown_limit.rs:134-161 | a firing check has a drawdown above the limit, measured from the recorded peak or else from the current equity; an instance without a peak fires only for a negative limit; a limit of 100 or more never fires; nothing is recorded |
| DrawdownLimits.DrawdownLimitRule.CheckAgainstPeak | src-tauri/src/core/risk/drawdown_limit.rs:134-161 | with a non-negative limit, equity at or above the peak never fires, and for a positive peak and non-negative equity the rule fires exactly when equity falls below peak × (1 − limit/100) |
| ConsecutiveLosses.DefaultParams | src-tauri/src/core/risk/consecutive_loss.rs:24-32 | the defaults are three losses, a threshold of 1.0 and a cooling period of 3600 s |
| ConsecutiveLosses.Recorded | src-tauri/src/core/risk/consecutive_loss.rs:79-108 | a first trade starts the count at 1 for a countable loss and 0 otherwise; a cooling instance is untouched; otherwise the trigger is cleared, the time updated, a countable loss adds one, a win resets to 0 and a small loss keeps the count; other instances are untouched |
| ConsecutiveLosses.RecordingNeverTriggers | src-tauri/src/core/risk/consecutive_loss.rs:79-108 | recording never sets a trigger time |
| ConsecutiveLosses.CountOf | src-tauri/src/core/risk/consecutive_loss.rs:111-118 | the count is 0 for an unknown instance and the stored count otherwise |
| ConsecutiveLosses.ResetData | src-tauri/src/core/risk/consecutive_loss.rs:138-144 | a reset zeroes the count and clears the trigger of a known instance and changes nothing else |
| ConsecutiveLosses.LossStreak | src-tauri/src/core/risk/consecutive_loss.rs:79-108 | n countable losses from no record give the count n, and the instance is not cooling afterwards |
| ConsecutiveLosses.WinResets | src-tauri/src/core/risk/consecutive_loss.rs:94-101 | with a non-negative threshold, a win clears the count unless the instance is cooling |
| ConsecutiveLosses.InCoolingPeriod | src-tauri/src/core/risk/consecutive_loss.rs:121-135 | cooling needs a known instance with a trigger time |
| ConsecutiveLosses.CoolingTimeRemaining | src-tauri/src/core/risk/consecutive_loss.rs:147-167 | the remaining time is positive exactly while cooling, ends at trigger time plus period, and is at most the period unless the trigger lies in the future |
| ConsecutiveLosses.CheckData | src-tauri/src/core/risk/consecutive_loss.rs:180-212 | a disabled rule changes nothing and does not fire; otherwise it fires exactly when today's PnL is a countable loss and the recorded count reaches the maximum, and then marks a trigger time; a win resets the instance; anything else changes nothing |
| ConsecutiveLosses.FiringStartsCooling | src-tauri/src/core/risk/consecutive_loss.rs:195-204 | once fired, the instance is cooling at that moment when the period is positive |
| ConsecutiveLosses.ConsecutiveLossLimitRule.constructor | src-tauri/src/core/risk/consecutive_loss.rs:56-66 | `new` is enabled with the given action, notifies through `log` and tracks nothing |
| ConsecutiveLosses.ConsecutiveLossLimitRule.DefaultWithWarning | src-tauri/src/core/risk/consecutive_loss.rs:69-71 | the default parameters with the notify action |
| ConsecutiveLosses.ConsecutiveLossLimitRule.DefaultWithStop | src-tauri/src/core/risk/consecutive_loss.rs:74-76 | the default parameters with the pause-strategy action |
| ConsecutiveLosses.ConsecutiveLossLimitRule.RecordTrade | src-tauri/src/core/risk/consecutive_loss.rs:79-108 | `record_trade` leaves the table `Recorded` describes |
| ConsecutiveLosses.ConsecutiveLossLimitRule.GetConsecutiveCount | src-tauri/src/core/risk/consecutive_loss.rs:111-118 | the count `CountOf` gives |
| ConsecutiveLosses.ConsecutiveLossLimitRule.ResetCount | src-tauri/src/core/risk/consecutive_loss.rs:138-144 | `reset_count` leaves the table `ResetData` describes |
| ConsecutiveLosses.ConsecutiveLossLimitRule.Check | src-tauri/src/core/risk/consecutive_loss.rs:180-212 | `check` returns the verdict and leaves the table `CheckData` describes |
| ConsecutiveLosses.ConsecutiveLossLimitRule.UpdateConfig | src-tauri/src/core/risk/consecutive_loss.rs:218-221 | `update_config` replaces the configuration only and succeeds |
| VolatilityLimits.DefaultParams | src-tauri/src/core/risk/volatility_limit.rs:24-32 | the defaults are a 2 % ratio, a 14-kline period and 100 klines kept |
| VolatilityLimits.Window | src-tauri/src/core/risk/volatility_limit.rs:76-84 | the window is the newest n elements: all of them when there are at most n |
| VolatilityLimits.WindowPush | src-tauri/src/core/risk/volatility_limit.rs:76-84 | windowing after one more push equals the window of the longer history |
| VolatilityLimits.TrueRange | src-tauri/src/core/risk/volatility_limit.rs:99-106 | the true range is non-negative and is the largest of the high–low span and the distances of high and low from the previous close |
| VolatilityLimits.TrueRanges | src-tauri/src/core/risk/volatility_limit.rs:96-107 | one true range per consecutive pair of klines, oldest first |
| VolatilityLimits.Atr | src-tauri/src/core/risk/volatility_limit.rs:88-112 | the ATR is defined exactly when there are at least period + 1 klines, and is the sum of the first `period` true ranges divided by the period as f64 |
| VolatilityLimits.AtrMean | src-tauri/src/core/risk/volatility_limit.rs:110-111 | a zero period gives NaN, and a positive one the finite mean of the first `period` true ranges |
| VolatilityLimits.AtrNonNegative | src-tauri/src/core/risk/volatility_limit.rs:98-111 | a defined ATR with a positive period is finite and non-negative |
| VolatilityLimits.AtrUsesOldest | src-tauri/src/core/risk/volatility_limit.rs:110 | only the oldest period + 1 klines count: klines added after them leave the ATR unchanged |
| VolatilityLimits.ConstantRangeAtr | src-tauri/src/core/risk/volatility_limit.rs:96-111 | klines whose true ranges all equal r have ATR r |
| VolatilityLimits.Volatility | src-tauri/src/core/risk/volatility_limit.rs:115-125 | the volatility is defined exactly when the ATR is |
| VolatilityLimits.PushBounded | src-tauri/src/core/risk/volatility_limit.rs:78-83 | one push followed by the popping loop leaves the window of the longer history |
| VolatilityLimits.AppendBounded | src-tauri/src/core/risk/volatility_limit.rs:76-84 | the loop over the new klines leaves the newest `history_size` of old and new klines together |
| VolatilityLimits.VolatilityLimitRule.constructor | src-tauri/src/core/risk/volatility_limit.rs:46-56 | `new` is enabled with the given action, notifies through `log` and holds no history |
| VolatilityLimits.VolatilityLimitRule.DefaultWithWarning | src-tauri/src/core/risk/volatility_limit.rs:59-61 | the default parameters with the notify action |
| VolatilityLimits.VolatilityLimitRule.DefaultWithStop | src-tauri/src/core/risk/volatility_limit.rs:64-66 | the default parameters with the pause-strategy action |
| VolatilityLimits.VolatilityLimitRule.UpdateKlines | src-tauri/src/core/risk/volatility_limit.rs:69-85 | only the symbol's history changes, to the newest `history_size` klines of the old history followed by the new klines |
| VolatilityLimits.VolatilityLimitRule.CalculateAtr | src-tauri/src/core/risk/volatility_limit.rs:88-112 | the loops give no ATR for an unknown symbol and the symbol's `Atr` otherwise |
| VolatilityLimits.VolatilityLimitRule.GetVolatility | src-tauri/src/core/risk/volatility_limit.rs:115-125 | no volatility for an unknown symbol; for a known one, a volatility exactly when it has at least period + 1 klines |
| VolatilityLimits.VolatilityLimitRule.IsVolatilityHigh | src-tauri/src/core/risk/volatility_limit.rs:128-134 | false without a volatility, and otherwise whether the volatility is at least the limit |
| VolatilityLimits.VolatilityLimitRule.ClearHistory | src-tauri/src/core/risk/volatility_limit.rs:137-140 | the symbol's history is removed and nothing else changes |
| VolatilityLimits.VolatilityLimitRule.TrackedSymbolsCount | src-tauri/src/core/risk/volatility_limit.rs:143-145 | the number of symbols with a history |
| VolatilityLimits.VolatilityLimitRule.Check | src-tauri/src/core/risk/volatility_limit.rs:158-176 | the rule fires exactly when it is enabled and some position's symbol has high volatility |
| VolatilityLimits.VolatilityLimitRule.UpdateConfig | src-tauri/src/core/risk/volatility_limit.rs:182-185 | `update_config` replaces the configuration only and succeeds |
| RiskCommands.Round | src-tauri/src/commands/risk.rs:164 | the position ratio is rounded to the nearest integer, halves away from zero, on both signs |
| RiskCommands.PositionStatus | src-tauri/src/commands/risk.rs:168-173 | position use above 80 % is danger, above 60 % up to 80 % a warning, otherwise ok (each an if-and-only-if) |
| RiskCommands.DrawdownStatus | src-tauri/src/commands/risk.rs:176-181 | a drawdown above 15 % is danger, above 10 % up to 15 % a warning, otherwise ok |
| RiskCommands.LossStatus | src-tauri/src/commands/risk.rs:184-189 | today's profit below -500 is danger, from -500 to below -200 a warning, otherwise ok |
| RiskCommands.OverviewDrawdown | src-tauri/src/commands/risk.rs:145-149 | the overview drawdown is never negative, zero without a positive peak or at/above the peak, and otherwise the fall from the peak in percent |
| RiskCommands.Overview | src-tauri/src/commands/risk.rs:74-198 | the balance is the base 10000 plus the realized profit and the position value the sum of quantity times entry price; the peak is exactly the larger of the equity and the base; the drawdown is the overview drawdown from that peak; position use is the rounded percentage of the balance (0 without a positive balance) and each of the three statuses follows its thresholds |
| RiskCommands.OverviewDrawdownFacts | src-tauri/src/commands/risk.rs:142-149 | the peak is positive and the overview drawdown is positive exactly when the equity is below the base balance |
| RiskCommands.ValidateRuleParams | src-tauri/src/commands/risk.rs:394-430 | position limits are accepted iff all three keys are present, both values positive and the ratio in (0, 1]; drawdown limits iff the percentage is in (0, 100]; any other rule is refused as an unknown rule type |
| RiskCommands.RuleParamsExamples | src-tauri/src/commands/risk.rs:769-792 | the test parameter sets: ratio 0.7 and drawdown 15 accepted, ratio 1.5 and drawdown 150 refused |
| RiskCommands.UpdateRuleCheck | src-tauri/src/commands/risk.rs:361-369 | an action outside warning/stop_strategy/emergency_close is refused first as an invalid action parameter; otherwise the update passes iff the parameters validate, a failure reported under the rule name |
| RiskCommands.NoteCheck | src-tauri/src/commands/risk.rs:681-683 | a note is refused exactly when it is blank after trimming, with the validation error for "note" |
| RiskCommands.WrapI32 | src-tauri/src/commands/risk.rs:486 | the 32-bit wrap-around of a product stays in i32 range and leaves in-range values alone |
| RiskCommands.PageOf | src-tauri/src/commands/risk.rs:484 | the page is at least 1 and a page of 1 or more is kept |
| RiskCommands.PageSizeOf | src-tauri/src/commands/risk.rs:485 | the page size lies in 1..100, is 20 when absent and is kept when already in range |
| RiskCommands.OffsetOverflows | src-tauri/src/commands/risk.rs:486 | page 21474838 with page size 100 gives the negative offset -2147483596 as written |
| RiskCommands.Offset | src-tauri/src/commands/risk.rs:486 | the intended offset, the rows of the earlier pages, is never negative |
| RiskCommands.OffsetAgrees | src-tauri/src/commands/risk.rs:486 | whenever the offset fits in 32 bits the written and intended offsets agree |
| RiskCommands.BalancedPlaceholders | src-tauri/src/commands/risk.rs:488-531 | a condition carries one bound value per ? placeholder in its text |
| RiskCommands.StartCondition | src-tauri/src/commands/risk.rs:492-495 | the start-date condition binds one value per placeholder |
| RiskCommands.EndCondition | src-tauri/src/commands/risk.rs:497-500 | the end-date condition binds one value per placeholder |
| RiskCommands.SeverityCondition | src-tauri/src/commands/risk.rs:502-507 | the severity condition binds one value per placeholder |
| RiskCommands.StatusCondition | src-tauri/src/commands/risk.rs:509-514 | the status condition binds one value per placeholder |
| RiskCommands.RuleCondition | src-tauri/src/commands/risk.rs:516-522 | the rule-name condition binds one value per placeholder |
| RiskCommands.SearchCondition | src-tauri/src/commands/risk.rs:524-531 | the search condition binds its pattern twice, once per placeholder |
| RiskCommands.ConditionTexts | src-tauri/src/commands/risk.rs:493-513 | the date, severity and status conditions have exactly the SQL texts of the query |
| RiskCommands.PatternConditionTexts | src-tauri/src/commands/risk.rs:519-526 | the rule-name and search conditions have exactly the LIKE texts of the query |
| RiskCommands.Conditions | src-tauri/src/commands/risk.rs:488-531 | the filter yields at most six conditions, each with as many bound values as placeholders |
| RiskCommands.WhereClause | src-tauri/src/commands/risk.rs:533-537 | no conditions give an empty clause and no values; otherwise the clause starts with "WHERE " |
| RiskCommands.PlaceholdersMatch | src-tauri/src/commands/risk.rs:488-537 | the clause has exactly as many ? placeholders as bound values |
| RiskCommands.EmptyTextFiltersIgnored | src-tauri/src/commands/risk.rs:502-531 | empty severity, status, rule-name and search filters give the same clause as absent ones |
| RiskCommands.HistoryPage | src-tauri/src/commands/risk.rs:484-486 | the limit is in 1..100 and the offset is non-negative and equals the earlier pages' rows |
| RiskAlerts.SeverityText | src-tauri/src/models/risk_alert.rs:66-73 | a severity's text is its lower-case name |
| RiskAlerts.ParseSeverity | src-tauri/src/models/risk_alert.rs:77-89 | a parsed severity's text is the lower-cased input; anything else fails with "Invalid severity: " and the input |
| RiskAlerts.SeverityRoundTrip | src-tauri/src/models/risk_alert.rs:64-89 | parsing a severity's text (or its upper-cased text) gives it back, and parsing ignores letter case |
| RiskAlerts.SeverityRejects | src-tauri/src/models/risk_alert.rs:258 | the text "invalid" is not a severity |
| RiskAlerts.StatusText | src-tauri/src/models/risk_alert.rs:101-108 | a status's text is its lower-case name |
| RiskAlerts.ParseStatus | src-tauri/src/models/risk_alert.rs:111-122 | a parsed status's text is the lower-cased input; anything else fails with "Invalid status: " and the input |
| RiskAlerts.StatusRoundTrip | src-tauri/src/models/risk_alert.rs:99-122 | parsing a status's text (or its upper-cased text) gives it back, and parsing ignores letter case |
| RiskAlerts.TextsInjective | src-tauri/src/models/risk_alert.rs:66-108 | different severities and different statuses have different texts |
| RiskAlerts.RiskAlert.constructor | src-tauri/src/models/risk_alert.rs:126-146 | a new alert carries the request's fields, the given id and time, status active and no handler |
| RiskAlerts.RiskAlert.MarkHandled | src-tauri/src/models/risk_alert.rs:149-153 | the alert becomes handled, by the given handler at the given time, and is no longer active |
| RiskAlerts.RiskAlert.MarkIgnored | src-tauri/src/models/risk_alert.rs:156-158 | only the status changes, to ignored; the handler fields are kept |
| RiskAlerts.RiskAlert.IsActive | src-tauri/src/models/risk_alert.rs:161-163 | true exactly when the status text is "active"; an active alert is not handled |
| RiskAlerts.RiskAlert.IsHandled | src-tauri/src/models/risk_alert.rs:166-168 | true exactly when the status text is "handled" |
| RiskAlerts.RiskAlert.IsCritical | src-tauri/src/models/risk_alert.rs:171-173 | true exactly when the severity text is "critical" |
| Response.IntoResult | src-tauri/src/core/response.rs:71-86 | a success with data yields that data; a failure yields its code, message and details, or UNKNOWN_ERROR without an error detail |
| Response.Success | src-tauri/src/core/response.rs:27-35 | a success response without error or request id, stamped now, that converts back to exactly its data |
| Response.SuccessEmpty | src-tauri/src/core/response.rs:38-46 | a success without data, which converts back to an INTERNAL_ERROR |
| Response.ErrorResponse | src-tauri/src/core/response.rs:49-62 | a failure without data that converts back to exactly the error it was made from |
| Response.WithRequestId | src-tauri/src/core/response.rs:65-68 | only the request id changes, so the converted result is the same |
| Response.FromAnyhow | src-tauri/src/core/response.rs:231-233 | an INTERNAL_ERROR whose details are the error's text |
| Response.WithDetails | src-tauri/src/core/response.rs:236-239 | replaces the details and keeps code and message |
| Response.Display | src-tauri/src/core/response.rs:242-246 | the text is "[code] " followed by the message |
| Response.ConstructorsPlaceCallerText | src-tauri/src/core/response.rs:114-228 | the internal, database and network constructors show a fixed message and keep the caller's text as details; the others put the caller's text into the message |
| AppErrors.StemShape | src-tauri/src/core/error.rs:58-72 | every variant's name before _ERROR is made of upper-case letters and underscores |
| AppErrors.Code | src-tauri/src/core/error.rs:58-72 | every code is made of [A-Z_] and ends in _ERROR |
| AppErrors.VariantOfCode | src-tauri/src/core/error.rs:58-72 | a code read back names the variant whose code it is |
| AppErrors.CodeNamesVariant | src-tauri/src/core/error.rs:58-72 | reading back an error's code gives its own variant |
| AppErrors.StemReadsBack | src-tauri/src/core/error.rs:58-72 | each of the eleven variant names reads back to its own position, so no two variants share a name |
| AppErrors.CodeReadsBack | src-tauri/src/core/error.rs:58-72 | each of the eleven codes reads back to the position of the variant it was built from |
| AppErrors.CodeIdentifiesVariant | src-tauri/src/core/error.rs:58-72 | two errors have the same code exactly when they are of the same variant |
| AppErrors.CodeOfVariant | src-tauri/src/core/error.rs:58-72 | an error has a given variant's code exactly when it is of that variant |
| AppErrors.UserMessage | src-tauri/src/core/error.rs:75-122 | Generic shows its message alone; every variant other than the wrapped database, io and serialization errors ends with its own message |
| AppErrors.UserMessageHidesCause | src-tauri/src/core/error.rs:75-122 | the wrapped database, io and serialization causes never reach the user message |
| AppErrors.ToCommandString | src-tauri/src/core/error.rs:166-171 | the command string is "[code] " followed by the user message |
| AppErrors.FromAnyhow | src-tauri/src/core/error.rs:248-252 | a foreign error becomes GENERIC_ERROR whose user message is the error's text unchanged |
| ErrorHandler.CodeRun | src/utils/error-handler.ts:104 | the longest prefix of [A-Z_] characters, stopping at the first other character |
| ErrorHandler.RestMatchesIffSplit | src/utils/error-handler.ts:104 | the tail after the bracket matches exactly when it splits into whitespace and a non-empty text without line terminators |
| ErrorHandler.TrimSkipsLeadingSpace | src/utils/error-handler.ts:104-108 | trimming the whole tail gives the same message as trimming the regular expression's second group |
| ErrorHandler.MatchBracketed | src/utils/error-handler.ts:104 | a match is an [A-Z_] code in brackets at the start followed by a tail that matches |
| ErrorHandler.ScanForCode | src/utils/error-handler.ts:117-127 | the code found is the first table entry whose code or message occurs in the lower-cased string; none is found only when no entry occurs |
| ErrorHandler.ParseStringWith | src/utils/error-handler.ts:102-134 | a bracketed string gives its code and trimmed message; otherwise the scanned code with the whole string; otherwise GENERIC_ERROR with the string, or the generic message for the empty string; details are always the string |
| ErrorHandler.ParseObject | src/utils/error-handler.ts:139-148 | parses message or String(error), takes stack, details or that text as details, and keeps the original |
| ErrorHandler.Handle | src/utils/error-handler.ts:74-97 | strings are parsed as strings, objects as objects, anything else is GENERIC_ERROR with its String() as details |
| ErrorHandler.BracketedRoundTrip | src/utils/error-handler.ts:102-114 | "[code] message" is read back as that code with the trimmed message and the whole string as details |
| ErrorHandler.AppErrorRoundTrip | src/utils/error-handler.ts:102-114 | the back end's command string for an error is read back as its code and trimmed user message |
| ErrorHandler.RecognisesCode | src/utils/error-handler.ts:217-219 | isErrorCode on a back-end error string holds exactly when the code is the error's own variant's |
| ErrorHandler.IsValidationErrorRecognises | src/utils/error-handler.ts:224-226 | isValidationError holds on a back-end error string exactly for a Validation error |
| ErrorHandler.IsAuthErrorRecognises | src/utils/error-handler.ts:231-233 | isAuthError holds on a back-end error string exactly for an Auth error |
| ErrorHandler.IsPermissionErrorRecognises | src/utils/error-handler.ts:238-240 | isPermissionError holds on a back-end error string exactly for a Permission error |
| ErrorHandler.IsNetworkErrorRecognises | src/utils/error-handler.ts:245-247 | isNetworkError holds on a back-end error string exactly for a Network error |
| ErrorHandler.IsRiskLimitErrorRecognises | src/utils/error-handler.ts:252-254 | isRiskLimitError holds on a back-end error string exactly for a RiskLimit error |
| ErrorHandler.ApiErrorRoundTrip | src/utils/error-handler.ts:102-114 | the back end's ApiError display string is read back as its code and trimmed message |
| JsValues.Field | src/utils/apiInterceptor.ts:84-90 | a property read finds the value stored under that key in an object, and is undefined exactly when the value is no object or has no such key |
| JsValues.SetField | src/utils/apiInterceptor.ts:177-180 | the spread object maps the new key to the new value and every other key to what it had |
| JsValues.EscapeChar | src/api/tauriOptimized.ts:168 | JSON.stringify writes a character as itself exactly when it is no quote, backslash or control character |
| JsValues.ParseStringify | src/api/tauriOptimized.ts:168 | reading back the JSON text of a value gives the value and leaves the following text |
| JsValues.StringifyInjective | src/utils/cache.ts:156 | two modelled JSON values (no `undefined`, only integer numbers) have the same text exactly when they are equal |
| CacheStores.Without | src/utils/cache.ts:63-65 | the key order without the deleted key holds exactly the other keys, and is unchanged when the key was absent |
| CacheStores.TracksSize | src/utils/cache.ts:129-134 | a store whose key order is tracked has as many entries as keys in that order, so the size reported is the entry count |
| CacheStores.Expire | src/utils/cache.ts:30-40 | reading a key deletes it exactly when it has expired and changes nothing else |
| CacheStores.ExpireTracks | src/utils/cache.ts:30-40 | deleting an expired entry keeps the insertion order in step with the store |
| CacheStores.Evict | src/utils/cache.ts:46-52 | at capacity the oldest key is dropped first; below capacity nothing changes |
| CacheStores.Insert | src/utils/cache.ts:54-57 | the key is mapped to its new entry; a present key keeps its place in the order |
| CacheStores.Put | src/utils/cache.ts:45-58 | after set the key holds the value with its expiry, and the pending fetches are untouched |
| CacheStores.PutTracks | src/utils/cache.ts:45-58 | set keeps the insertion order in step with the store |
| CacheStores.PutKeepsOthers | src/utils/cache.ts:45-58 | set leaves every entry other than the key set and the evicted oldest key as it was |
| CacheStores.GetOrSetStep | src/utils/cache.ts:91-113 | getOrSet first expires the key as get does; its answer is the cached value, the joined pending promise or a newly started fetch |
| CacheStores.Resolve | src/utils/cache.ts:105-109 | a resolved fetch stores its value as set does |
| CacheStores.KeepUnmatched | src/utils/cache.ts:118-124 | invalidatePattern keeps exactly the keys the pattern rejects, in order and without duplicates |
| CacheStores.LookupAtExpiry | src/utils/cache.ts:34 | an entry is still returned at exactly its expiry time and gone one millisecond later |
| CacheStores.PutKeepsBound | src/utils/cache.ts:45-58 | with a positive capacity and no empty keys, set never takes the store above capacity |
| CacheStores.PutEvictsOldest | src/utils/cache.ts:46-52 | at capacity the oldest key goes even when the key set is already stored, so the store shrinks by one |
| CacheStores.NullIsMiss | src/utils/cache.ts:93-96 | a cached null cannot be told from a miss, so getOrSet never answers it from the cache |
| CacheStores.HitFetchesNothing | src/utils/cache.ts:93-96 | a live non-null entry is returned without fetching and without any change |
| CacheStores.SecondCallerJoins | src/utils/cache.ts:99-102 | a second caller during a fetch gets the same promise, and a rejected fetch keeps its pending entry for every later miss |
| CacheStores.StartedRegisters | src/utils/cache.ts:105-112 | a started fetch registers exactly one new pending entry under a fresh promise |
| CacheStores.ResolveStores | src/utils/cache.ts:105-109 | once the fetch resolves the key is no longer pending and its value is stored; other pending keys stay |
| CacheStores.CacheStore.constructor | src/utils/cache.ts:22-25 | an empty store with capacity 100 and a one-minute lifetime unless given |
| CacheStores.CacheStore.Get | src/utils/cache.ts:30-40 | get returns the live value or null, and expires the key |
| CacheStores.CacheStore.Set | src/utils/cache.ts:45-58 | set leaves the store in the state Put describes, with the given or default lifetime |
| CacheStores.CacheStore.Delete | src/utils/cache.ts:63-65 | delete answers whether the key was present and removes exactly that key |
| CacheStores.CacheStore.Clear | src/utils/cache.ts:70-73 | clear drops both the entries and the pending fetches |
| CacheStores.CacheStore.Has | src/utils/cache.ts:78-86 | has answers whether a live entry exists, whatever its value, and expires the key |
| CacheStores.CacheStore.GetOrSet | src/utils/cache.ts:91-113 | getOrSet answers and changes the state as GetOrSetStep describes |
| CacheStores.CacheStore.FetchResolved | src/utils/cache.ts:105-109 | the fetch's handler leaves the state Resolve describes |
| CacheStores.CacheStore.InvalidatePattern | src/utils/cache.ts:118-124 | exactly the stored keys the pattern accepts are deleted, the others keep their values and order, pending fetches stay |
| CacheStores.CacheStore.Stats | src/utils/cache.ts:129-134 | the number of entries and of pending fetches |
| CacheStores.NewApiCache | src/utils/cache.ts:138-141 | the shared store is empty, holds 200 entries and keeps them 30 seconds |
| CacheStores.CachedKey | src/utils/cache.ts:154-156 | the generator's key, or the function name followed by its JSON arguments in parentheses |
| CacheStores.CallCached | src/utils/cache.ts:153-158 | the cached function calls getOrSet on the shared store with its key |
| CacheStores.CachedFetch | src/utils/cache.ts:164-170 | cachedFetch is getOrSet on the shared store |
| CacheStores.InvalidateCache | src/utils/cache.ts:175-177 | for a command name free of regular-expression metacharacters, invalidateCache drops exactly the stored keys starting with the name and a parenthesis, keeping the other entries and the pending fetches |
| CacheStores.ClearCache | src/utils/cache.ts:182-184 | clearCache empties the shared store and its pending fetches |
| CacheStores.InvalidateTargetsCachedKeys | src/utils/cache.ts:154-177 | for a command free of metacharacters and a function name without a parenthesis, invalidateCache(cmd) drops exactly the keys cached() built for the function named cmd |
| TauriOptimized.ErrorMessage | src/api/tauriOptimized.ts:52 | an undefined message becomes the empty text and a string message is kept |
| TauriOptimized.FromResponse | src/api/tauriOptimized.ts:59-69 | no error exactly when success is truthy or error is falsy; otherwise the envelope's message, code, details and request id |
| TauriOptimized.CacheKey | src/api/tauriOptimized.ts:167-170 | the key is the command and a colon, followed by the JSON text of the arguments when they are given |
| TauriOptimized.CacheKeyDeterminesArgs | src/api/tauriOptimized.ts:167-170 | for one command two modelled argument objects share a key exactly when they list the same fields with the same values in the same order |
| TauriOptimized.CacheKeyOrderSensitive | src/api/tauriOptimized.ts:167-170 | the same fields written in another order give another key |
| TauriOptimized.RequestCache.constructor | src/api/tauriOptimized.ts:96-98 | an empty cache with the configured switch and lifetime |
| TauriOptimized.RequestCache.Lookup | src/api/tauriOptimized.ts:100-118 | caching off or an absent key always misses; a non-null answer is the stored data of an entry no older than the lifetime, and such an entry is always answered |
| TauriOptimized.RequestCache.Get | src/api/tauriOptimized.ts:100-118 | get returns what Lookup says and deletes exactly an expired entry |
| TauriOptimized.RequestCache.Set | src/api/tauriOptimized.ts:120-130 | set stores the data with the current time, without a capacity bound, and does nothing when caching is off |
| TauriOptimized.RequestCache.Invalidate | src/api/tauriOptimized.ts:132-146 | no or an empty pattern clears everything; otherwise exactly the keys the expression accepts go and the others keep their data |
| TauriOptimized.RequestCache.Clear | src/api/tauriOptimized.ts:148-150 | clear empties the cache |
| TauriOptimized.TimeoutError | src/api/tauriOptimized.ts:210 | the timer rejects with an Error whose message mentions Timeout |
| TauriOptimized.MentionsTimeout | src/api/tauriOptimized.ts:239-242 | the retry test reads the message of an Error; a thrown non-Error makes reading the message fail with a TypeError |
| TauriOptimized.CoreLoopBounds | src/api/tauriOptimized.ts:199-259 | at most three calls (one without retrying), and a wait of 1000 times the attempt number between attempts |
| TauriOptimized.Decide | src/api/tauriOptimized.ts:202-254 | an attempt goes on to the next only when retrying is on, attempts remain and the caught error's message contains `Timeout`, after waiting 1000 times the attempt number; the error retried is the rejection, the timer's error or the envelope's `ApiError`; only a resolved call succeeds, and the data cached is the data returned |
| TauriOptimized.CoreLoop | src/api/tauriOptimized.ts:199-259 | the loop caches data only when it returns that data, and waits no more times than it calls |
| TauriOptimized.TimeoutRetried | src/api/tauriOptimized.ts:239-250 | a timeout on an attempt that is not the last is retried after 1000 times the attempt number milliseconds |
| TauriOptimized.FailureEnvelopeWithoutError | src/api/tauriOptimized.ts:215-229 | an envelope with success false and no error is not a failure: its data is returned |
| TauriOptimized.InvokeCore | src/api/tauriOptimized.ts:175-260 | a cache hit is answered without calling; otherwise the result is the retry loop's, and only successful data is stored |
| TauriOptimized.ToApiError | src/api/tauriOptimized.ts:276-296 | an ApiError passes through, another Error becomes NETWORK_ERROR with its message or 请求失败, anything else UNKNOWN_ERROR with its text |
| TauriOptimized.Invoke | src/api/tauriOptimized.ts:265-297 | the cached value, the data of the loop's success, or the failure converted to an ApiError |
| BacktestTypes.BacktestJob.constructor | src-tauri/src/types/backtest.rs:252-266 | a new job is pending with no progress, result or error, its id is "bt_" and the uuid, created and updated now |
| BacktestTypes.BacktestJob.Clone | src-tauri/src/types/backtest.rs:228 | the copy has the same fields as the original |
| BacktestTypes.BacktestJob.UpdateStatus | src-tauri/src/types/backtest.rs:269-272 | only the status and the update time change |
| BacktestTypes.BacktestJob.UpdateProgress | src-tauri/src/types/backtest.rs:275-278 | the progress becomes the given value capped at 100; nothing else but the update time changes |
| BacktestTypes.BacktestJob.SetResult | src-tauri/src/types/backtest.rs:281-286 | the job holds the result, is completed at full progress; an earlier error is kept |
| BacktestTypes.BacktestJob.SetError | src-tauri/src/types/backtest.rs:289-293 | the job holds the message and is failed; progress and any result are kept |
| StrategyInstances.NeverRunUnlessStopTime | src-tauri/src/models/strategy_instance.rs:97-118 | under the life cycle the four operations keep, a stopped instance without a stop time was never started and never failed |
| StrategyInstances.StartedWithoutStopIsRunning | src-tauri/src/models/strategy_instance.rs:97-118 | a started instance without a stop time is running and has no error |
| StrategyInstances.StrategyInstance.constructor | src-tauri/src/models/strategy_instance.rs:69-94 | a new instance carries the request's fields, is stopped with no history and zero statistics, created and updated now |
| StrategyInstances.StrategyInstance.MarkRunning | src-tauri/src/models/strategy_instance.rs:97-103 | running from now, forgetting the earlier stop and error; statistics kept |
| StrategyInstances.StrategyInstance.MarkStopped | src-tauri/src/models/strategy_instance.rs:106-110 | stopped now; the start time, any earlier error and the statistics are kept |
| StrategyInstances.StrategyInstance.MarkError | src-tauri/src/models/strategy_instance.rs:113-118 | failed now with the message; the start time and the statistics are kept |
| StrategyInstances.StrategyInstance.UpdateStats | src-tauri/src/models/strategy_instance.rs:121-126 | overwrites the three statistics; only the update time changes besides |
| BacktestServices.AdjustedPrice | src-tauri/src/services/backtest_service.rs:269-277 | slippage moves the fill price against the trader: up for a buy, down for anything else |
| BacktestServices.StopLoss | src-tauri/src/services/backtest_service.rs:303-307 | a new position carries a stop loss exactly when the stop-loss ratio is positive |
| BacktestServices.BuyValue | src-tauri/src/services/backtest_service.rs:288-289 | the value committed is capped by the position ratio of the balance and by the requested value |
| BacktestServices.Buy | src-tauri/src/services/backtest_service.rs:280-313 | with the position limit reached nothing changes; otherwise one buy position at the fill price is appended and a non-negative balance stays non-negative |
| BacktestServices.BuySpends | src-tauri/src/services/backtest_service.rs:288-297 | an opened buy spends exactly the committed value plus its fee, recorded in the total fees, within the position ratio |
| BacktestServices.CloseStep | src-tauri/src/services/backtest_service.rs:327-343 | one position of the sell pass gives up as much of the remaining quantity as it holds |
| BacktestServices.Close | src-tauri/src/services/backtest_service.rs:324-343 | the pass over all positions keeps one entry per position |
| BacktestServices.CloseAccounting | src-tauri/src/services/backtest_service.rs:316-343 | the pass leaves exactly the part of the amount the buy positions could not cover and reduces the buy quantity by what it closed |
| BacktestServices.SellClosesAtMostHeld | src-tauri/src/services/backtest_service.rs:316-343 | a sell closes exactly the requested quantity when the buy positions hold that much, and never more than they hold |
| BacktestServices.Retain | src-tauri/src/services/backtest_service.rs:346 | the positions kept are those above 0.001, in order |
| BacktestServices.RetainKeeps | src-tauri/src/services/backtest_service.rs:346 | a position is kept exactly when its quantity exceeds 0.001 |
| BacktestServices.CloseOne | src-tauri/src/services/backtest_service.rs:328-342 | the loop body for one position computes what CloseStep describes |
| BacktestServices.ClosePositions | src-tauri/src/services/backtest_service.rs:327-343 | the loop over the positions computes what Close describes |
| BacktestServices.DrawdownPct | src-tauri/src/services/backtest_service.rs:598-602 | the drawdown is in 0..100 for an equity between zero and a positive peak, and zero without a positive peak |
| BacktestServices.BacktestState.constructor | src-tauri/src/services/backtest_service.rs:575-586 | all capital in cash, as peak and trough, and nothing else |
| BacktestServices.BacktestState.ProcessSignal | src-tauri/src/services/backtest_service.rs:262-368 | a buy applies Buy, a sell applies the sell outcome, any other action changes nothing; the curves are untouched |
| BacktestServices.BacktestState.Sell | src-tauri/src/services/backtest_service.rs:314-362 | the sell branch closes the buy positions, drops the dust and records one trade, as SellOutcome describes |
| BacktestServices.BacktestState.UpdateEquity | src-tauri/src/services/backtest_service.rs:588-605 | equity is cash plus entry value; peak and trough move to include it and each curve gains one point |
| BacktestServices.BacktestState.CloseAllPositions | src-tauri/src/services/backtest_service.rs:388-396 | every position is cashed in at its entry value and the list is emptied |
| BacktestServices.DrawdownStats | src-tauri/src/services/backtest_service.rs:502-534 | an empty curve gives (0, 0); otherwise the average positive drawdown lies between 0 and the maximum |
| BacktestServices.ScanBounds | src-tauri/src/services/backtest_service.rs:507-531 | along the scan the running total stays within count times maximum |
| BacktestServices.DrawdownAtMostHundred | src-tauri/src/services/backtest_service.rs:512-529 | with non-negative equities no drawdown exceeds 100 percent |
| BacktestServices.CalculateDrawdown | src-tauri/src/services/backtest_service.rs:502-534 | the loop computes DrawdownStats of the curve |
| BacktestServices.Consecutive | src-tauri/src/services/backtest_service.rs:536-559 | neither streak exceeds the number of trades |
| BacktestServices.StreaksBounded | src-tauri/src/services/backtest_service.rs:536-559 | the current streaks never exceed the longest ones, which never exceed the number of trades |
| BacktestServices.NeutralTradeKeepsStreaks | src-tauri/src/services/backtest_service.rs:554 | a trade without a result, or with a zero result, neither extends nor breaks a streak |
| BacktestServices.AllWinning | src-tauri/src/services/backtest_service.rs:544-548 | n winning trades make one winning streak of n and no losing streak |
| BacktestServices.CalculateConsecutive | src-tauri/src/services/backtest_service.rs:536-559 | the loop computes Consecutive of the trades |
| BacktestServices.Winning | src-tauri/src/services/backtest_service.rs:408 | the count of winning trades is at most the number of trades |
| BacktestServices.Losing | src-tauri/src/services/backtest_service.rs:409 | the count of losing trades is at most the number of trades |
| BacktestServices.WinsAndLossesDisjoint | src-tauri/src/services/backtest_service.rs:408-410 | no trade is both a win and a loss |
| BacktestServices.TotalWins | src-tauri/src/services/backtest_service.rs:412 | the summed profit is non-negative and zero without winners |
| BacktestServices.TotalLosses | src-tauri/src/services/backtest_service.rs:413 | the summed loss is non-negative and zero without losers |
| BacktestServices.MaxSingleWin | src-tauri/src/services/backtest_service.rs:491 | at least zero and at least every trade's result |
| BacktestServices.MaxSingleLoss | src-tauri/src/services/backtest_service.rs:492 | at most zero and at most every trade's result |
| BacktestServices.EquityPoints | src-tauri/src/services/backtest_service.rs:445-450 | one equity point per curve entry, with its time and equity |
| BacktestServices.DrawdownPoints | src-tauri/src/services/backtest_service.rs:452-457 | one drawdown point per curve entry, with its time and drawdown |
| BacktestServices.ResultOf | src-tauri/src/services/backtest_service.rs:399-500 | final capital is the balance, profit and return follow, the win rate is in 0..100, average drawdown at most maximum, streaks at most the trade count |
| BacktestServices.TotalReturnForm | src-tauri/src/services/backtest_service.rs:402 | profit over initial capital times 100, and a division by zero when the initial capital is zero |
| BacktestServices.CalculateResult | src-tauri/src/services/backtest_service.rs:399-500 | the result is ResultOf the state with its two scans |
| BacktestServices.RunBacktest | src-tauri/src/services/backtest_service.rs:148-193 | no klines fail with "No historical data available"; the run succeeds exactly when every signal does, else fails with the first error; a success has one curve point per kline |
| BacktestServices.RunGate | src-tauri/src/services/backtest_service.rs:54-59 | a run may start exactly when the job exists and is not running; a missing job gives "Job not found: " and its id |
| BacktestServices.FailedRunBlocksRetries | src-tauri/src/services/backtest_service.rs:61-75 | as written, a failed load or run leaves the job running, so every later run is refused |
| BacktestServices.FailedRunCanBeRetried | src-tauri/src/services/backtest_service.rs:53-84 | with the failure recorded the job is failed and may be run again |
| BacktestServices.CopyJobs | src-tauri/src/services/backtest_service.rs:48-50 | fresh copies of the stored jobs, each once |
| BacktestServices.BacktestService.constructor | src-tauri/src/services/backtest_service.rs:24-29 | the service starts without jobs |
| BacktestServices.BacktestService.CreateJob | src-tauri/src/services/backtest_service.rs:32-40 | a new pending job is stored under its fresh id; other jobs are untouched |
| BacktestServices.BacktestService.GetJob | src-tauri/src/services/backtest_service.rs:43-45 | a copy of the stored job, or none when the id is unknown |
| BacktestServices.BacktestService.ListJobs | src-tauri/src/services/backtest_service.rs:48-50 | a copy of every stored job, each once |
| BacktestServices.BacktestService.RunJobAsWritten | src-tauri/src/services/backtest_service.rs:53-84 | refused runs change nothing; otherwise the job is left running on failure and completed with the result on success |
| BacktestServices.BacktestService.RunJob | src-tauri/src/services/backtest_service.rs:53-84 | as above, but a failed load or run marks the job failed with the error |
| BacktestServices.StatusAfterRun | src-tauri/src/services/backtest_service.rs:64-83 | once a failure is recorded a started job is never left pending or running: it is completed exactly when the run succeeded, and failed otherwise |
| BacktestServices.RunAndRecord | src-tauri/src/services/backtest_service.rs:64-83 | after the job is marked running: a failed load or run is recorded as the job's error and leaves it failed, a success completes it with the result; a run succeeds exactly when the klines load, are not empty and every signal is computed |
| BacktestServices.RunAndRecordAsWritten | src-tauri/src/services/backtest_service.rs:64-83 | as written: a failed load or run leaves the job untouched, a success completes it with the result |
| Optimizers.GenerateValues | src-tauri/src/services/optimizer.rs:62-72 | the values are the grid min, min + step, ... up to max (none when min exceeds max) |
| Optimizers.GridUnique | src-tauri/src/services/optimizer.rs:62-72 | the value list is determined by the bounds and the step |
| Optimizers.GridAscending | src-tauri/src/services/optimizer.rs:62-72 | with a positive step the values are strictly ascending |
| Optimizers.IntegerRangeExample | src-tauri/src/services/optimizer.rs:495-502 | integer("period", 5, 20, 5) gives 5, 10, 15 and 20 |
| Optimizers.Label | src-tauri/src/services/optimizer.rs:336-338 | a completed combination pairs each range's name with the chosen value, in range order |
| Optimizers.Grid | src-tauri/src/services/optimizer.rs:327-347 | the number of combinations is the product of the value counts of the remaining ranges |
| Optimizers.GridFrom | src-tauri/src/services/optimizer.rs:343-346 | the combinations starting with the given values of one range: one block per value |
| Optimizers.GenerateCombinationsRecursive | src-tauri/src/services/optimizer.rs:327-347 | appends every combination of the remaining ranges after the fixed prefix, and leaves the cells before the depth as they were |
| Optimizers.GenerateGridCombinations | src-tauri/src/services/optimizer.rs:314-325 | the combinations are exactly the enumeration of the ranges' value lists |
| Optimizers.GridShape | src-tauri/src/services/optimizer.rs:327-347 | every combination has one (name, value) pair per range, in range order, with the value from that range's list |
| Optimizers.GridIsLexicographic | src-tauri/src/services/optimizer.rs:327-347 | combination j * C + r takes the j-th value of the first range followed by the r-th combination of the others |
| Optimizers.EvolvePopulation | src-tauri/src/services/optimizer.rs:361-384 | the survivors come first and children fill the population up to the target size, or the survivors alone when they already reach it |
| Optimizers.SurvivorCount | src-tauri/src/services/optimizer.rs:300-302 | a fifth of the population, rounded down, but at least one |
| Optimizers.Fitness | src-tauri/src/services/optimizer.rs:411-426 | every objective other than the total return gives a finite fitness |
| Optimizers.SmallerDrawdownIsFitter | src-tauri/src/services/optimizer.rs:415 | under the drawdown objective the smaller drawdown is exactly the fitter |
| Optimizers.CustomScoreRange | src-tauri/src/services/optimizer.rs:418-424 | the composite score lies between 0 and a fifth of the positive Sharpe ratio, and is zero for a non-positive Sharpe ratio, a total drawdown or no wins |
| Optimizers.BestIndex | src-tauri/src/services/optimizer.rs:429-438 | max_by picks a position inside the results, or panics with the `unwrap` message, which needs two or more results |
| Optimizers.PanicsExactlyOnNaN | src-tauri/src/services/optimizer.rs:429-438 | `max_by` panics exactly when there are two or more results and some fitness is NaN |
| Optimizers.BestIndexIsLastMaximum | src-tauri/src/services/optimizer.rs:429-438 | no result is fitter than the one picked and every later one is strictly less fit: the last of equal maxima wins |
| Optimizers.DummyResult | src-tauri/src/services/optimizer.rs:448-487 | the placeholder has id "bt_" and a uuid, and no trades |
| Optimizers.FindBestResult | src-tauri/src/services/optimizer.rs:429-438 | the placeholder when there are no results, otherwise one of them; a panic exactly when two or more results include a NaN fitness |
| Optimizers.BestResultIsFittest | src-tauri/src/services/optimizer.rs:429-438 | when no panic occurs, no result is fitter than the one found |
| Optimizers.Successes | src-tauri/src/services/optimizer.rs:204-220 | the searches keep only the results of the runs that succeeded, in order |
| Optimizers.SuccessesCount | src-tauri/src/services/optimizer.rs:212-217 | every run succeeding keeps every result; every run failing keeps none |
| Optimizers.Optimize | src-tauri/src/services/optimizer.rs:161-193 | panics exactly when `find_best_result` does; otherwise the best result is one of the results (the placeholder when there are none), all results are returned and counted, and the parameters are the empty placeholder |
| Optimizers.OptimizeIsFittest | src-tauri/src/services/optimizer.rs:161-193 | the best result reported is no less fit than any result of the search |
| Optimizers.SuccessesSnoc | src-tauri/src/services/optimizer.rs:212-217 | one more run adds its result exactly when it succeeded |
| Optimizers.NotAJobId | src-tauri/src/types/backtest.rs:253 | `"optimization"` does not start with `bt_`, so it is no job id |
| Optimizers.SearchRunsAsWritten | src-tauri/src/services/optimizer.rs:204-220 | as written, every run of the job `"optimization"` fails with "Job not found: optimization", no job changes, and the search keeps no result |
| Optimizers.JobIdsDiffer | src-tauri/src/types/backtest.rs:253 | job ids made from different uuids differ |
| Optimizers.SearchStep | src-tauri/src/services/optimizer.rs:204-220 | an intended iteration creates a job and runs it by its id: the job gets past the gate and is left completed or failed, other jobs unchanged |
| Optimizers.SearchRuns | src-tauri/src/services/optimizer.rs:204-220 | the intended loop: one outcome per iteration, the successful results kept in order, every created job left completed or failed, and a run succeeds exactly when the klines load, are not empty and every signal is computed |
| StrategyDebug.ShouldDisplayOrder | src-tauri/src/core/strategy/debug.rs:23-25 | display is a total order on levels, Debug lowest and Error highest: reflexive, transitive, antisymmetric and total |
| StrategyDebug.AsStr | src-tauri/src/core/strategy/debug.rs:28-35 | a level's name is one of DEBUG, INFO, WARN and ERROR |
| StrategyDebug.FromStr | src-tauri/src/core/strategy/debug.rs:47-55 | a parsed level is the one whose name is the upper-cased text, or Warn for WARNING; anything else fails with "Invalid log level: " and the text |
| StrategyDebug.LevelRoundTrip | src-tauri/src/core/strategy/debug.rs:28-55 | a level's name parses back to it, in upper and in lower case |
| StrategyDebug.WarningAlias | src-tauri/src/core/strategy/debug.rs:51 | WARNING, in either case, is the warning level |
| StrategyDebug.FromStrIgnoresCase | src-tauri/src/core/strategy/debug.rs:48 | texts with the same upper-case form parse alike |
| StrategyDebug.FromStrExact | src-tauri/src/core/strategy/debug.rs:47-55 | exactly the five names are accepted, whatever their case |
| StrategyDebug.ByLevel | src-tauri/src/core/strategy/debug.rs:313-321 | the entries kept are exactly those shown at the minimum level |
| StrategyDebug.Since | src-tauri/src/core/strategy/debug.rs:302-310 | the entries kept are exactly those stamped at or after the time |
| StrategyDebug.ByLevelAppend | src-tauri/src/core/strategy/debug.rs:313-321 | filtering by level keeps the order of the entries |
| StrategyDebug.SinceAppend | src-tauri/src/core/strategy/debug.rs:302-310 | filtering by time keeps the order of the entries |
| StrategyDebug.FiltersKeepAll | src-tauri/src/core/strategy/debug.rs:302-321 | filtering by the lowest level, or since a stamp no entry precedes, keeps every entry |
| StrategyDebug.FilteringHappensWhenLogging | src-tauri/src/core/strategy/debug.rs:448-463 | with the warning minimum, one message per level stores two entries, not four; both survive filtering by Warn |
| StrategyDebug.PerformanceMetrics.constructor | src-tauri/src/core/strategy/debug.rs:117-128 | nothing recorded and both counters zero |
| StrategyDebug.PerformanceMetrics.RecordExecution | src-tauri/src/core/strategy/debug.rs:132-139 | one more call and its duration for the function, and the duration added to the total |
| StrategyDebug.PerformanceMetrics.AvgExecutionTime | src-tauri/src/core/strategy/debug.rs:142-148 | none for a function never recorded, zero for an empty list, otherwise the mean of its durations |
| StrategyDebug.PerformanceMetrics.TotalExecutionTime | src-tauri/src/core/strategy/debug.rs:156-158 | none for a function never recorded, otherwise the sum of its durations |
| StrategyDebug.PerformanceMetrics.MaxExecutionTime | src-tauri/src/core/strategy/debug.rs:151-153 | the largest recorded duration, present exactly when the function has one |
| StrategyDebug.AverageOfEqual | src-tauri/src/core/strategy/debug.rs:478-495 | n recordings of the same duration average to that duration |
| StrategyDebug.FinishTimer | src-tauri/src/core/strategy/debug.rs:399-408 | with a function name the state becomes exactly what recording the elapsed seconds as milliseconds gives (that name's duration list gains the value, its call count grows by one, the total grows by it, the error and warning counts stay); without one the metrics are unchanged |
| StrategyDebug.TypeName | src-tauri/src/core/strategy/debug.rs:277-284 | the kind name is one of the six JSON kinds |
| StrategyDebug.TypeNameByKind | src-tauri/src/core/strategy/debug.rs:277-284 | two values get the same kind name exactly when they are of the same kind |
| StrategyDebug.DebugContext.constructor | src-tauri/src/core/strategy/debug.rs:222-230 | no entries, no variables, fresh metrics, the Info minimum and enabled |
| StrategyDebug.DebugContext.Log | src-tauri/src/core/strategy/debug.rs:233-253 | the entry is stored when enabled and shown at the minimum; a stored error or warning bumps its counter |
| StrategyDebug.DebugContext.SetVariable | src-tauri/src/core/strategy/debug.rs:276-294 | the variable is recorded with its kind name and time, replacing an earlier one of the same name |
| StrategyDebug.DebugContext.GetVariable | src-tauri/src/core/strategy/debug.rs:334-336 | the stored variable, present exactly when the name is |
| StrategyDebug.DebugContext.ClearLogs | src-tauri/src/core/strategy/debug.rs:324-326 | empties the entries; variables and settings stay |
| StrategyDebug.DebugContext.SetMinLogLevel | src-tauri/src/core/strategy/debug.rs:344-346 | changes only the minimum level |
| StrategyDebug.DebugContext.SetEnabled | src-tauri/src/core/strategy/debug.rs:354-356 | changes only the switch |
| StrategyDebug.LaterSetOverwrites | src-tauri/src/core/strategy/debug.rs:293 | a variable set twice holds the second value and its kind |
| StrategyDebug.GetDebugContext | src-tauri/src/core/strategy/debug.rs:412-415 | a new empty context every time, whatever the instance |
| DataQuality.NewMetricsTracked | src-tauri/src/services/data_quality.rs:133-147 | a new record has empty windows and all counts zero |
| DataQuality.ParseTimeframe | src-tauri/src/services/data_quality.rs:388-399 | the interval length in whole minutes' seconds, for exactly the seven interval names the trade types know |
| DataQuality.TimeframeInjective | src-tauri/src/services/data_quality.rs:388-399 | different names never give the same length |
| DataQuality.TimeframeExamples | src-tauri/src/services/data_quality.rs:426-435 | 1m is 60 s, 1h 3600 s, 1d 86400 s, and "invalid" has no length |
| DataQuality.SecondsExceed | src-tauri/src/services/data_quality.rs:199-201 | a millisecond difference exceeds a limit in whole seconds, as the truncating division counts them, exactly when it is at least limit + 1 full seconds |
| DataQuality.GapIff | src-tauri/src/services/data_quality.rs:196-212 | a gap is exactly a kline at least 2 * interval + 1 seconds after the last one; a kline that goes back or repeats a timestamp is never a gap |
| DataQuality.StaleIff | src-tauri/src/services/data_quality.rs:216-222 | stale means at least threshold + 1 seconds since the last message; a symbol without messages is never stale |
| DataQuality.Recent | src-tauri/src/services/data_quality.rs:179-185 | the window keeps the latest 1000 entries, in order |
| DataQuality.Pushed | src-tauri/src/services/data_quality.rs:174-185 | a push onto a full window drops the oldest entry |
| DataQuality.Received | src-tauri/src/services/data_quality.rs:166-186 | after a message the symbol is connected, stamped now, with one more message and the latency and time at the end of their windows; the other counts stay |
| DataQuality.ReceivedKeepsTracked | src-tauri/src/services/data_quality.rs:166-186 | a message keeps both windows within 1000 entries and leaves a latency in the window |
| DataQuality.KlineSeen | src-tauri/src/services/data_quality.rs:189-226 | the kline becomes the last one, and the gap, duplicate and stale counts each grow by one exactly when their test holds |
| DataQuality.KlineSeenKeepsTracked | src-tauri/src/services/data_quality.rs:189-226 | a kline keeps the windows within 1000 entries |
| DataQuality.MaxLatency | src-tauri/src/services/data_quality.rs:263 | the largest latency, at least zero |
| DataQuality.AverageWithinMax | src-tauri/src/services/data_quality.rs:257-263 | for non-negative latencies the mean lies between zero and the maximum |
| DataQuality.MessageRate | src-tauri/src/services/data_quality.rs:266-276 | never negative, and positive exactly when the window has two entries with a positive span between the first and the newest |
| DataQuality.LatencyPenalty | src-tauri/src/services/data_quality.rs:366-369 | the latency deduction is positive exactly when the mean exceeds the limit, and reaches at most 50 points |
| DataQuality.RatePenalty | src-tauri/src/services/data_quality.rs:371-374 | the rate deduction is positive exactly when the rate is below the minimum, and reaches at most 25 points |
| DataQuality.CountPenalty | src-tauri/src/services/data_quality.rs:376-382 | a count deduction lies in 0..25 and is zero exactly when the count is zero |
| DataQuality.CountPenaltyMonotone | src-tauri/src/services/data_quality.rs:376-382 | more occurrences never cost less |
| DataQuality.QualityScore | src-tauri/src/services/data_quality.rs:353-385 | the score is never negative, at most 100 with non-negative thresholds, and below 25 only when the latency is over the limit |
| DataQuality.FullScoreIff | src-tauri/src/services/data_quality.rs:353-385 | the score is full exactly when latency, rate, gaps and errors are all within bounds |
| DataQuality.ScoreMonotone | src-tauri/src/services/data_quality.rs:376-382 | more gaps or more errors never raise the score |
| DataQuality.DefaultScoreExamples | src-tauri/src/services/data_quality.rs:407-423 | with the default settings a healthy feed scores 100, a mean latency of 5000 ms loses 50 points and five gaps lose 25 |
| DataQuality.StatusMonotone | src-tauri/src/services/data_quality.rs:289-297 | a higher score never gives a worse status; Poor or Disconnected means a score below 50 |
| DataQuality.DisconnectedNeedsLatency | src-tauri/src/services/data_quality.rs:289-297 | only a latency over the limit can bring a feed down to Disconnected |
| DataQuality.Report | src-tauri/src/services/data_quality.rs:253-314 | the report carries the record's status, counts and last message time, a maximum no latency exceeds, and the score and status derived from them |
| DataQuality.KeyOrder | src-tauri/src/services/data_quality.rs:317-328 | the map's iteration visits each symbol once |
| DataQuality.ReportsInOrder | src-tauri/src/services/data_quality.rs:317-328 | the loop builds the report of each symbol in the visiting order |
| DataQuality.PoorSymbolsMembers | src-tauri/src/services/data_quality.rs:331-338 | a symbol is listed exactly when one of the reports for it is poor |
| DataQuality.PoorSymbolsExactly | src-tauri/src/services/data_quality.rs:331-338 | over one report per tracked symbol, the symbols listed are exactly the tracked ones whose report is poor |
| DataQuality.ReportPoor | src-tauri/src/services/data_quality.rs:289-297 | a report counts as poor exactly when its quality score is below 50 |
| DataQuality.DataQualityMonitor.constructor | src-tauri/src/services/data_quality.rs:152-158 | the given settings and no symbol tracked |
| DataQuality.DataQualityMonitor.WithDefaults | src-tauri/src/services/data_quality.rs:161-163 | the default settings and no symbol tracked |
| DataQuality.DataQualityMonitor.RecordMessage | src-tauri/src/services/data_quality.rs:166-186 | the symbol's record, created when missing, becomes Received of it; nothing else changes |
| DataQuality.DataQualityMonitor.RecordKline | src-tauri/src/services/data_quality.rs:189-226 | the symbol's record, created when missing, becomes KlineSeen of it under the current stale threshold |
| DataQuality.DataQualityMonitor.RecordError | src-tauri/src/services/data_quality.rs:229-234 | one more error for a tracked symbol; nothing for another |
| DataQuality.DataQualityMonitor.MarkDisconnected | src-tauri/src/services/data_quality.rs:237-242 | only a tracked symbol becomes disconnected |
| DataQuality.DataQualityMonitor.MarkReconnecting | src-tauri/src/services/data_quality.rs:245-250 | only a tracked symbol becomes reconnecting |
| DataQuality.DataQualityMonitor.ResetMetrics | src-tauri/src/services/data_quality.rs:341-344 | the symbol starts over with a new record, tracked or not before |
| DataQuality.DataQualityMonitor.UpdateConfig | src-tauri/src/services/data_quality.rs:347-350 | only the settings change |
| DataQuality.DataQualityMonitor.GetMetrics | src-tauri/src/services/data_quality.rs:253-314 | a report exactly for a tracked symbol, with a score in 0..100 |
| DataQuality.DataQualityMonitor.GetAllMetrics | src-tauri/src/services/data_quality.rs:317-328 | one report per tracked symbol, each once, each the symbol's own report |
| DataQuality.DataQualityMonitor.GetPoorQualitySymbols | src-tauri/src/services/data_quality.rs:331-338 | exactly the tracked symbols whose score is below 50 |
| DataQuality.MessageConnects | src-tauri/src/services/data_quality.rs:166-186 | after a message the report shows the symbol connected, with one more message, stamped now |
| ApiInterceptor.NewError | src/utils/apiInterceptor.ts:23-29 | the error carries the message, code and details, and is an authentication error exactly for UNAUTHORIZED and TOKEN_EXPIRED |
| ApiInterceptor.MergeConfig | src/utils/apiInterceptor.ts:42-59 | each setting given overrides its default: 3 attempts, 1000 ms delay, auth and retry on |
| ApiInterceptor.InjectAuth | src/utils/apiInterceptor.ts:163-185 | the arguments (or {}) unchanged when auth is off, no token is stored or the lookup throws; otherwise _auth is set to the token and every other field kept |
| ApiInterceptor.DoRefresh | src/utils/apiInterceptor.ts:212-228 | a refresh succeeds exactly when the call refreshed; a thrown error counts as a failure |
| ApiInterceptor.HandleResponse | src/utils/apiInterceptor.ts:82-95 | a value without a success field passes unchanged, a truthy success yields the data, and a falsy success throws the envelope's message, code and details |
| ApiInterceptor.FinalError | src/utils/apiInterceptor.ts:141-157 | an interceptor error is rethrown, another Error becomes NETWORK_ERROR with its message or 请求失败, anything else UNKNOWN_ERROR |
| ApiInterceptor.LoopCallsBounded | src/utils/apiInterceptor.ts:69-135 | from attempt k the transport is called at most once per remaining attempt, with no more waits than calls |
| ApiInterceptor.RequestCallsBounded | src/utils/apiInterceptor.ts:69-135 | a request calls the transport at most retryAttempts times, and exactly once without waits when retrying is off |
| ApiInterceptor.LoopWaits | src/utils/apiInterceptor.ts:119-133 | every wait is retryDelay times an attempt number that is not the last |
| ApiInterceptor.RefreshOnLastAttemptThrows | src/utils/apiInterceptor.ts:100-116 | an authentication failure whose refresh succeeds on the last attempt still fails the request with that error |
| ApiInterceptor.RefreshFailureLogsOut | src/utils/apiInterceptor.ts:100-116 | a failed refresh ends the request at once with the authentication error and a logout, after one call |
| ApiInterceptor.NonAuthFailureRetry | src/utils/apiInterceptor.ts:119-133 | a failure that is not an authentication error is retried, after retryDelay times the attempt, exactly when retrying is on, attempts remain and the error is retryable; otherwise it ends the request with the final error |
| ApiInterceptor.AttemptBudget | src/utils/apiInterceptor.ts:69-71 | `retryAttempts` attempts with retrying on, exactly one with it off |
| ApiInterceptor.IsRetryable | src/utils/apiInterceptor.ts:245-262 | authentication errors and thrown non-Error values are never retried |
| ApiInterceptor.RetryableCodes | src/utils/apiInterceptor.ts:246-253 | an interceptor error is retried exactly for the codes NETWORK_ERROR and TIMEOUT (the authentication codes never) |
| ApiInterceptor.RetryIgnoresCase | src/utils/apiInterceptor.ts:255-261 | another Error is classified by its lower-cased message, so messages that differ only in case are retried alike |
| ApiInterceptor.Decide | src/utils/apiInterceptor.ts:71-134 | an attempt ends the request with success exactly when its call succeeded; a logout ends it with an authentication error; it goes on without waiting exactly after an authentication failure whose refresh succeeded, and with a wait of retryDelay times the attempt only for a retryable failure while attempts remain |
| ApiInterceptor.Loop | src/utils/apiInterceptor.ts:69-135 | the transport is called at least once exactly when attempts remain, success needs an attempt within the budget, and a logout comes only with an authentication error |
| ApiInterceptor.NoBudgetNoCall | src/utils/apiInterceptor.ts:69-157 | with retrying on and `retryAttempts` below one the transport is never called and the request fails with UNKNOWN_ERROR |
| ApiInterceptor.Interceptor.constructor | src/utils/apiInterceptor.ts:57-59 | the merged settings, no refresh in flight and nothing dispatched |
| ApiInterceptor.Interceptor.WithoutAuth | src/utils/apiInterceptor.ts:277-282 | a fresh interceptor with the same settings and auth off |
| ApiInterceptor.Interceptor.WithoutRetry | src/utils/apiInterceptor.ts:287-292 | a fresh interceptor with the same settings and retrying off |
| ApiInterceptor.Interceptor.HandleTokenRefresh | src/utils/apiInterceptor.ts:190-207 | a refresh in flight is joined; otherwise one is started and both flags are reset when it ends |
| ApiInterceptor.Interceptor.HandleAuthFailure | src/utils/apiInterceptor.ts:233-240 | dispatches auth:logout and changes nothing else |
| ApiInterceptor.Interceptor.TryAttempt | src/utils/apiInterceptor.ts:71-134 | one attempt decides as Decide describes and dispatches a logout only when it ends the request with one |
| ApiInterceptor.Interceptor.Request | src/utils/apiInterceptor.ts:64-158 | returns exactly what the attempt loop describes from attempt 1, and leaves the refresh flags as it found them |

## Left out

- config.ts: a number string that is not a signed decimal integer is modelled as NaN; JavaScript's wider `Number()` grammar (exponents, hex, whitespace) is not modelled. Paths named like `Object.prototype` members are only listed by name.
- navigation.ts: page titles for paths named like `Object.prototype` members (`constructor`, `toString`) use a name list, not JavaScript's prototype chain.
- menu.ts: `quickAccessItems` is a plain constant and is not modelled; icon components are modelled as names.
- route.ts: icon components are modelled as their names.
- performance.ts: `measureAsync` (a promise) and `printReport` (console output) are not modelled. `Math.floor(n * 0.95)` is modelled as exact integer arithmetic `n * 95 / 100`. The key order of `getAllStats` is not modelled.
- validation.rs: the general `matches` regex and `email()` are not modelled. Neither is `log::warn`. `NumberValidator<T>` is generic; the model instantiates it with integers, whose panic messages show the bound's decimal text. Floating-point values are not modelled: neither `f64`'s `Display` text in those messages nor a NaN value, which passes every numeric check.
- auth/mod.rs: the fields of `UserWithRole` other than the role name are not modelled.
- order/state.rs: the `OrderState` enum is reconstructed from its uses, because the file that defines it is not part of this model.
- position/manager.rs: `get_position_mut` hands out a mutable reference and is not modelled. `get_all_positions` is modelled only as the map's values, with no `HashMap` iteration order. Two symbols whose `symbol_side` keys collide, because a symbol contains `_`, share one entry, as in the code.
- trade_service.rs: `place_order`, `cancel_order`, `get_orders` and the other database and exchange calls are not modelled; the cancel guard is. A NaN quantity cannot occur with `real`. `OrderType` and `OrderSide` are reconstructed from their uses.
- converter/mod.rs: `ConverterFactory::from_name` is not modelled, because `ExchangeName::parse` is not part of this model. Overflow of `ts * 1000` is not modelled. Neither is the full `f64` grammar of `parse::<f64>()` (exponents, `inf`, `nan`) or its rounding. Neither is the `Display` text of `ConversionError`.
- converter/okx.rs: `convert_ticker`, `convert_kline` and `convert_balance` are field copies and are not modelled. The suffix fallback of `denormalize_symbol` slices bytes; the model requires ASCII there.
- exchange/bybit.rs: HMAC signing, REST and WebSocket I/O, and `parse_ticker`, `parse_kline` and `parse_order` are not modelled. Only the message pre-image of `sign_request` is modelled.
- exchange/okx.rs: REST and WebSocket I/O are not modelled.
- exchange/signature.rs: `sign` (HMAC-SHA256) and `timestamp` (the clock) are not modelled. Neither is the trivial `api_key` accessor.
- risk/rule.rs: the `RiskRule` trait's async methods, name and description are not modelled. `TradeOutcome` is unused by the code and is not modelled. Sums are exact reals.
- risk rules: `log::warn` and the `RwLock`s around rule state are not modelled; the state is plain fields.
- consecutive_loss.rs: the clock becomes the `now` parameter. The `u64`→`i64` cast of the cooling period is not modelled.
- volatility_limit.rs: the `klines.get(i)?` in `calculate_atr` is never `None` inside its loop bounds, so the model does not carry that branch.
- commands/risk.rs: the database queries are not modelled. These include position values, today's PnL, realized PnL, alert counts and the alert update of `add_alert_note`. `get_active_alerts`, `handle_alert`, `ignore_alert`, `get_risk_rules`, `get_alert_detail` and `delete_alert` are not modelled either, because their bodies are database I/O and row mapping. The history command builds a WHERE clause and its values, but never binds them to the query (`src-tauri/src/commands/risk.rs:545`, `:576-578`). The model stops at the clause and its values; SQL text beyond the WHERE clause is not modelled. Request ids are not modelled.
- strategy_instance.rs: serialization is not modelled. The field comment lists a `paused` status, but no mutator sets it; the life-cycle invariant admits only the three statuses the mutators set, so an instance loaded as paused is outside the model.
- exchange.rs: serde attributes are not modelled.
- backtest_service.rs:
  - Loading jobs from the database and `load_historical_data` are not modelled.
  - The JavaScript `ScriptExecutor` and the strategy code are not modelled; the strategy's signals are an input sequence.
  - `check_exits` is not modelled.
  - A zero fill price would make a quotient NaN or infinite in `f64`. The model's `Quotient` gives 0 there instead.
  - The Sharpe ratio is numerics outside the model and is the input `sharpeOf`.
  - The result's uuid is a parameter.
  - The progress log every 100 klines is not modelled.
- optimizer.rs:
  - Random search, Bayesian search, crossover, mutation and the random initial population depend on randomness and are not modelled.
  - The genetic loop's sort, which also panics on a NaN fitness, and `extract_params` are not modelled.
  - The genetic search also runs the job `"optimization"`, so every individual is scored with the placeholder result and fitness negative infinity. Of the genetic loop only the survivor count and the refill of the population (`EvolvePopulation`) are modelled.
  - The 0.1-step test at `src-tauri/src/services/optimizer.rs:505-512` depends on IEEE rounding and is not reproduced.
- Optimizers.GenerateValues: requires a positive step when `min <= max`, because the code loops forever otherwise.
- debug.rs: `get_function_stats`, the `DebugLog` builder methods and the locks are not modelled. The tests at `src-tauri/src/core/strategy/debug.rs:439` and `:459` contradict the code; the model follows the code.
- data_quality.rs:
  - The latency deduction can reach 50, though its comment says 0-25; the model follows the code.
  - `max_latency` and `stale_count` are kept but do not affect the score, as in the code.
  - `stats_window_size` is ignored by the code and by the model.
  - The database and the `last_update` `Instant` are not modelled; the clock is `now`.
  - `u64` counter overflow is not modelled.
- Floats: no IEEE rounding. Case mapping in `Text` is ASCII-only, so Rust's Unicode `to_lowercase` and `to_uppercase`, and JavaScript's `toLowerCase` in `error-handler.ts` and `apiInterceptor.ts`, are modelled for ASCII only.
- error-handler.ts: `show` (ElMessage) and `log` (console) are UI output and are not modelled. Neither are `handleErrors` and `useErrorHandler`.
- cache.ts: `Date.now()` becomes the `now` parameter.
- CacheStores.InvalidateCache: the command name is pasted into a regular expression. The model requires a name free of the metacharacters `\ ^ $ . | ? * + ( ) [ ] { }` and treats it as a literal prefix. Otherwise JavaScript differs: `$load` matches no key, `a.b` also drops the keys of `aXb`, and `a(` throws a SyntaxError.
- CacheStores.InvalidateTargetsCachedKeys: holds only for command names free of those metacharacters, for the same reason.
- JsValues.StringifyInjective: `Json` has no `undefined`, no functions, no fractional numbers and no NaN, infinities or -0. Its objects keep their fields in the order written, but JavaScript lists integer-like keys first. So JavaScript texts collide where the model's do not: `[undefined]` and `[null]` both give `[null]`, `{a: undefined}` and `{}` both give `{}`, `NaN` and `null` both give `null`, and `{b: 1, "1": 2}` and `{"1": 2, b: 1}` give the same text.
- TauriOptimized.CacheKeyDeterminesArgs: holds only for modelled JSON values; argument objects that differ only in the ways listed for `JsValues.StringifyInjective` share a cache key in JavaScript.
- Performance.Memoized.Call: its promise that without a key generator the result is always `fn(args)` holds only for modelled JSON arguments; arguments that collide as listed for `JsValues.StringifyInjective` get the result cached for the other.
- tauriOptimized.ts: console logging is not modelled. The `Promise.race` timer becomes a timeout outcome in the transport sequence.
- apiInterceptor.ts: the transport, the token store and the refresh call are inputs, given per attempt. The logout of `handleAuthFailure` is modelled as the dispatched `auth:logout` event. The shared refresh promise is modelled only through the `isRefreshing` and `refreshPromise` flags.

## Findings

| source | as written | input that shows it | evidently intended | confidence | as-written member | corrected member |
|---|---|---|---|---|---|---|
| src-tauri/src/commands/risk.rs:486 | `(page - 1) * page_size` is computed in `i32` | page 21474838 with page_size 100 gives offset -2147483596 (wraps in a release build, panics in a debug build) | the offset is the number of rows on earlier pages, never negative | not executed | RiskCommands.OffsetOverflows | RiskCommands.Offset |
| src-tauri/src/services/backtest_service.rs:61-75 | after the job is set to Running, a failed load or run returns early with `?` and never records the failure | any run whose data load or backtest fails: the job stays Running and every later run of it is refused with "Job is already running" | record the failure with `set_error`, which leaves the job Failed and runnable again | not executed | BacktestServices.FailedRunBlocksRetries | BacktestServices.FailedRunCanBeRetried |
| src-tauri/src/services/optimizer.rs:212 | every grid and random search iteration runs the job id `"optimization"` (also lines 242 and 279) | any optimization: every job id is `bt_` followed by a uuid (src-tauri/src/types/backtest.rs:253), so every run fails with "Job not found: optimization", the search keeps no result and `optimize` returns the placeholder | create a job from the configuration and run it by its own id | not executed | Optimizers.SearchRunsAsWritten | Optimizers.SearchRuns |
