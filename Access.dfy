/** The role hierarchy of `check_user_permissions` in bot.py. The database is
    abstract: whether the SELECT raises, the role of the stored row (if any),
    and whether the follow-up UPDATE of `last_used` raises. */
module Access {
  import opened Wrappers

  /** `role_hierarchy.get(role, 0)`: unknown roles rank like 'user'. */
  function RoleRank(role: string): (r: nat)
    ensures r <= 3
    ensures role == "moderator" ==> r == 1
    ensures role == "admin" ==> r == 2
    ensures role == "superadmin" ==> r == 3
    ensures role !in {"moderator", "admin", "superadmin"} ==> r == 0
  {
    match role
    case "user" => 0
    case "moderator" => 1
    case "admin" => 2
    case "superadmin" => 3
    case _ => 0
  }

  function CheckUserPermissions(queryFails: bool, row: Option<string>, updateFails: bool,
                                required: string): (r: bool)
    // A failing query, or no stored record: only the plain 'user' level is granted.
    ensures (queryFails || row.None?) ==> (r <==> required == "user")
    // A stored record: rank comparison, unless the UPDATE after a grant raises.
    ensures !queryFails && row.Some? && !updateFails ==>
              (r <==> RoleRank(row.value) >= RoleRank(required))
    ensures !queryFails && row.Some? && updateFails ==>
              (r <==> RoleRank(row.value) >= RoleRank(required) && required == "user")
  {
    if queryFails then required == "user"
    else if row.None? then required == "user"
    else
      var granted := RoleRank(row.value) >= RoleRank(required);
      if granted && updateFails then required == "user"
      else granted
  }

  /** The plain 'user' level is granted on every path, database errors included. */
  lemma UserLevelAlwaysGranted(queryFails: bool, row: Option<string>, updateFails: bool)
    ensures CheckUserPermissions(queryFails, row, updateFails, "user")
  {
  }

  /** With a stored record the grant is monotone in the user's rank. */
  lemma GrantMonotoneInRank(low: string, high: string, required: string)
    requires RoleRank(low) <= RoleRank(high)
    requires CheckUserPermissions(false, Some(low), false, required)
    ensures CheckUserPermissions(false, Some(high), false, required)
  {
  }

  /** The hierarchy in use: an admin passes a moderator check, a moderator
      fails an admin check, and a superadmin passes every check. */
  lemma HierarchyOrder(required: string)
    ensures CheckUserPermissions(false, Some("admin"), false, "moderator")
    ensures !CheckUserPermissions(false, Some("moderator"), false, "admin")
    ensures CheckUserPermissions(false, Some("superadmin"), false, required)
  {
  }

  /** An unknown required role ranks 0: granted to anyone with a record, to nobody without one. */
  lemma UnknownRequiredRole(role: string, required: string)
    requires required != "user" && required != "moderator" && required != "admin" && required != "superadmin"
    ensures CheckUserPermissions(false, Some(role), false, required)
    ensures !CheckUserPermissions(false, None, false, required)
  {
  }
}
