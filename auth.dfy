/** Role-based permission checks: each role name has a fixed permission list, the
    administrator's being the wildcard `*`. A user is represented by the role name it carries. */
module Auth {
  const PermUserRead := "user:read"
  const PermUserWrite := "user:write"
  const PermStrategyRead := "strategy:read"
  const PermStrategyWrite := "strategy:write"
  const PermStrategyDelete := "strategy:delete"
  const PermBacktestExecute := "backtest:execute"
  const PermTradeExecute := "trade:execute"
  const PermMarketRead := "market:read"
  const PermPositionRead := "position:read"
  const PermOrderRead := "order:read"
  const PermOrderWrite := "order:write"
  const PermRiskRead := "risk:read"
  const PermRiskWrite := "risk:write"
  const PermAuditRead := "audit:read"
  const PermAll := "*"

  const Admin := "管理员"
  const Developer := "策略开发者"
  const Trader := "交易员"
  const Auditor := "审计员"

  /** `parse_role_permissions(role_name)`: the fixed list of each role, empty for any other
      name. */
  function RolePermissions(roleName: string): (r: seq<string>)
    ensures roleName !in {Admin, Developer, Trader, Auditor} ==> r == []
    ensures roleName == Admin ==> r == [PermAll]
  {
    if roleName == Admin then [PermAll]
    else if roleName == Developer then [PermStrategyRead, PermStrategyWrite, PermBacktestExecute, PermMarketRead]
    else if roleName == Trader then [PermTradeExecute, PermMarketRead, PermPositionRead, PermOrderRead, PermOrderWrite]
    else if roleName == Auditor then [PermAuditRead, PermTradeExecute, PermPositionRead]
    else []
  }

  /** `has_permission(user, permission)`: the wildcard grants everything, otherwise the
      permission must be listed. */
  predicate HasPermission(roleName: string, permission: string)
    ensures roleName == Admin ==> HasPermission(roleName, permission)
    ensures HasPermission(roleName, permission) ==> roleName in {Admin, Developer, Trader, Auditor}
  {
    PermAll in RolePermissions(roleName) || permission in RolePermissions(roleName)
  }

  /** `has_any_permission(user, permissions)`: `any` over the list, front to back. */
  function HasAnyPermission(roleName: string, permissions: seq<string>): (r: bool)
    ensures r <==> exists i :: 0 <= i < |permissions| && HasPermission(roleName, permissions[i])
  {
    if permissions == [] then false
    else if HasPermission(roleName, permissions[0]) then true
    else
      var r := HasAnyPermission(roleName, permissions[1..]);
      assert r ==> exists i :: 0 <= i < |permissions| && HasPermission(roleName, permissions[i]) by {
        if r {
          var j :| 0 <= j < |permissions[1..]| && HasPermission(roleName, permissions[1..][j]);
          assert permissions[j + 1] == permissions[1..][j];
        }
      }
      r
  }

  /** Only the administrator's list holds the wildcard. */
  lemma WildcardOnlyForAdmin(roleName: string)
    ensures PermAll in RolePermissions(roleName) <==> roleName == Admin
  {
  }

  /** The administrator has every permission, an unknown role none, and every other role exactly
      its list. */
  lemma PermissionsByRole(roleName: string, permission: string)
    ensures roleName == Admin ==> HasPermission(roleName, permission)
    ensures roleName !in {Admin, Developer, Trader, Auditor} ==> !HasPermission(roleName, permission)
    ensures roleName != Admin ==> (HasPermission(roleName, permission) <==> permission in RolePermissions(roleName))
  {
    WildcardOnlyForAdmin(roleName);
  }

  /** The developer cannot trade or write orders; the auditor can execute trades but not write
      strategies or orders; the trader cannot write strategies or users. */
  lemma RoleSeparation()
    ensures !HasPermission(Developer, PermTradeExecute) && !HasPermission(Developer, PermOrderWrite)
    ensures HasPermission(Auditor, PermTradeExecute)
    ensures !HasPermission(Auditor, PermStrategyWrite) && !HasPermission(Auditor, PermOrderWrite)
    ensures !HasPermission(Trader, PermStrategyWrite) && !HasPermission(Trader, PermUserWrite)
    ensures HasAnyPermission(Developer, [PermStrategyWrite, PermTradeExecute])
    ensures !HasAnyPermission(Developer, [PermTradeExecute, PermOrderWrite])
  {
    var l := [PermTradeExecute, PermOrderWrite];
    assert !HasPermission(Developer, l[0]) && !HasPermission(Developer, l[1]);
    assert HasPermission(Developer, [PermStrategyWrite, PermTradeExecute][0]);
  }
}
