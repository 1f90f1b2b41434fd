/** `check_roles`: does the command's author hold any of the requested
    roles? An `int` item is looked up by role id, anything else by role
    name, the way `discord.utils.get(roles, id=...)` / `(name=...)` does:
    the first role whose attribute equals the item. */
module Roles {
  import opened Wrappers

  datatype Role = Role(id: int, name: string)

  /** A requested item: an `int` (`isinstance(item, int)`) or a name. */
  datatype RoleRef = ById(id: int) | ByName(name: string)

  predicate Matches(role: Role, item: RoleRef) {
    match item
    case ById(i) => role.id == i
    case ByName(n) => role.name == n
  }

  /** `discord.utils.get(roles, id=i)` or `(name=n)`: the first matching
      role, or None. */
  function Get(roles: seq<Role>, item: RoleRef): (r: Option<Role>)
    ensures r.Some? ==> r.value in roles && Matches(r.value, item)
    ensures r.None? <==> forall j | 0 <= j < |roles| :: !Matches(roles[j], item)
    decreases |roles|
  {
    if |roles| == 0 then None
    else if Matches(roles[0], item) then Some(roles[0])
    else Get(roles[1..], item)
  }

  /** `any(getter(...) is not None for item in roles)`. */
  function CheckRoles(authorRoles: seq<Role>, requested: seq<RoleRef>): (b: bool)
    ensures b <==> exists k, j | 0 <= k < |requested| && 0 <= j < |authorRoles| :: Matches(authorRoles[j], requested[k])
    ensures |requested| == 0 ==> !b
    decreases |requested|
  {
    if |requested| == 0 then false
    else if Get(authorRoles, requested[0]).Some? then true
    else
      var rest := CheckRoles(authorRoles, requested[1..]);
      assert forall k | 1 <= k < |requested| :: requested[k] == requested[1..][k - 1];
      rest
  }

  /** Asking for more roles never turns a granted check into a refusal. */
  lemma MoreRolesNeverRevoke(authorRoles: seq<Role>, requested: seq<RoleRef>, extra: seq<RoleRef>)
    requires forall k | 0 <= k < |requested| :: requested[k] in extra
    ensures CheckRoles(authorRoles, requested) ==> CheckRoles(authorRoles, extra)
  {
    if CheckRoles(authorRoles, requested) {
      var k, j :| 0 <= k < |requested| && 0 <= j < |authorRoles| && Matches(authorRoles[j], requested[k]);
      var k' :| 0 <= k' < |extra| && extra[k'] == requested[k];
    }
  }

  /** The order of requested items does not matter. */
  lemma AppendEitherOrder(authorRoles: seq<Role>, a: seq<RoleRef>, b: seq<RoleRef>)
    ensures CheckRoles(authorRoles, a + b) == (CheckRoles(authorRoles, a) || CheckRoles(authorRoles, b))
    ensures CheckRoles(authorRoles, a + b) == CheckRoles(authorRoles, b + a)
  {
    if CheckRoles(authorRoles, a) {
      var k, j :| 0 <= k < |a| && 0 <= j < |authorRoles| && Matches(authorRoles[j], a[k]);
      assert (a + b)[k] == a[k];
      assert (b + a)[|b| + k] == a[k];
    }
    if CheckRoles(authorRoles, b) {
      var k, j :| 0 <= k < |b| && 0 <= j < |authorRoles| && Matches(authorRoles[j], b[k]);
      assert (a + b)[|a| + k] == b[k];
      assert (b + a)[k] == b[k];
    }
    if CheckRoles(authorRoles, a + b) {
      var k, j :| 0 <= k < |a + b| && 0 <= j < |authorRoles| && Matches(authorRoles[j], (a + b)[k]);
      if k < |a| { assert (a + b)[k] == a[k]; } else { assert (a + b)[k] == b[k - |a|]; }
    }
    if CheckRoles(authorRoles, b + a) {
      var k, j :| 0 <= k < |b + a| && 0 <= j < |authorRoles| && Matches(authorRoles[j], (b + a)[k]);
      if k < |b| { assert (b + a)[k] == b[k]; } else { assert (b + a)[k] == a[k - |b|]; }
    }
  }
}
