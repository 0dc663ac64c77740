/** checkRole: the route-level authorisation test. */
module RoleMiddleware {
  import opened Wrappers

  /** What the middleware does with a request: answer 403, or call `next`. */
  datatype Decision = Forbidden | Next

  /**
   * `checkRole(...allowedRoles)` applied to a request whose user has `role`:
   * the role must be present, non-empty and exactly one of the allowed
   * roles. The upper-cased copy of the list is never consulted.
   */
  function CheckRole(allowed: seq<string>, role: Option<string>): (d: Decision)
    ensures d == Next ==> role.Some? && role.value != ""
    ensures role.Some? && role.value != "" ==> (d == Next <==> exists i :: 0 <= i < |allowed| && allowed[i] == role.value)
  {
    if role.None? || role.value == "" || role.value !in allowed then Forbidden else Next
  }

  /** The allowed roles as a set. */
  function Roles(allowed: seq<string>): set<string> {
    set r | r in allowed
  }

  /** Only the set of allowed roles matters: their order and repetitions do not. */
  lemma CheckRoleSetSemantics(a: seq<string>, b: seq<string>, role: Option<string>)
    requires Roles(a) == Roles(b)
    ensures CheckRole(a, role) == CheckRole(b, role)
  {
    if role.Some? {
      var x := role.value;
      assert x in a <==> x in Roles(a);
      assert x in b <==> x in Roles(b);
    }
  }

  /** Allowing more roles never forbids a request that was allowed. */
  lemma CheckRoleMonotone(a: seq<string>, extra: seq<string>, role: Option<string>)
    ensures CheckRole(a, role) == Next ==> CheckRole(a + extra, role) == Next
  {
    if CheckRole(a, role) == Next {
      assert role.value in a + extra;
    }
  }

  /** The comparison is case-sensitive: a lower-case role does not match its upper-case name. */
  lemma CheckRoleCaseSensitive()
    ensures CheckRole(["ADMIN"], Some("admin")) == Forbidden
  {
    assert "admin"[0] != "ADMIN"[0];
  }
}
