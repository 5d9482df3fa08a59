/** Role bindings of a Team as Concourse team auth (internal/controller/team_controller.go, buildTeamAuth). */
module TeamAuths {
  import opened ApiServer

  datatype TeamRole = TeamRole(role: string, users: seq<string>, groups: seq<string>)

  /** role → "users" or "groups" → identifiers */
  type TeamAuth = map<string, map<string, seq<string>>>

  /** The users bound to role `r`, in the order of the bindings. */
  function UsersOf(roles: seq<TeamRole>, r: string): seq<string> {
    if roles == [] then []
    else (if roles[0].role == r then roles[0].users else []) + UsersOf(roles[1..], r)
  }

  function GroupsOf(roles: seq<TeamRole>, r: string): seq<string> {
    if roles == [] then []
    else (if roles[0].role == r then roles[0].groups else []) + GroupsOf(roles[1..], r)
  }

  ghost predicate IsAuthOf(auth: TeamAuth, roles: seq<TeamRole>) {
    && (forall r :: r in auth <==> exists i :: 0 <= i < |roles| && roles[i].role == r)
    && (forall r <- auth :: auth[r] == map["users" := UsersOf(roles, r), "groups" := GroupsOf(roles, r)])
  }

  lemma {:induction false} ConcatOf(x: seq<TeamRole>, y: seq<TeamRole>, r: string)
    ensures UsersOf(x + y, r) == UsersOf(x, r) + UsersOf(y, r)
    ensures GroupsOf(x + y, r) == GroupsOf(x, r) + GroupsOf(y, r)
  {
    if x == [] {
      assert x + y == y;
    } else {
      assert (x + y)[0] == x[0] && (x + y)[1..] == x[1..] + y;
      ConcatOf(x[1..], y, r);
    }
  }

  lemma {:induction false} AbsentOf(roles: seq<TeamRole>, r: string)
    requires forall i :: 0 <= i < |roles| ==> roles[i].role != r
    ensures UsersOf(roles, r) == [] && GroupsOf(roles, r) == []
  {
    if roles != [] { AbsentOf(roles[1..], r); }
  }

  /** One binding more. */
  function Extended(auth: TeamAuth, role: TeamRole): TeamAuth {
    var inner := if role.role in auth then auth[role.role] else map[];
    var users := if "users" in inner then inner["users"] else [];
    var groups := if "groups" in inner then inner["groups"] else [];
    auth[role.role := inner["users" := users + role.users]["groups" := groups + role.groups]]
  }

  lemma ExtendedKeys(auth: TeamAuth, roles: seq<TeamRole>, role: TeamRole, r: string)
    requires IsAuthOf(auth, roles)
    ensures r in Extended(auth, role) <==> exists i :: 0 <= i < |roles + [role]| && (roles + [role])[i].role == r
  {
    var all := roles + [role];
    if r in auth {
      var i :| 0 <= i < |roles| && roles[i].role == r;
      assert all[i].role == r;
    }
    if r == role.role { assert all[|roles|].role == r; }
  }

  lemma ExtendedIsAuth(auth: TeamAuth, roles: seq<TeamRole>, role: TeamRole)
    requires IsAuthOf(auth, roles)
    ensures IsAuthOf(Extended(auth, role), roles + [role])
  {
    var all, auth' := roles + [role], Extended(auth, role);
    forall r ensures r in auth' <==> exists i :: 0 <= i < |all| && all[i].role == r {
      ExtendedKeys(auth, roles, role, r);
    }
    forall r <- auth' ensures auth'[r] == map["users" := UsersOf(all, r), "groups" := GroupsOf(all, r)] {
      ConcatOf(roles, [role], r);
      BindingOf(role, r);
      if r !in auth { AbsentOf(roles, r); }
      if r == role.role {
        assert auth'[r].Keys == {"users", "groups"};
        assert auth'[r]["users"] == UsersOf(all, r) && auth'[r]["groups"] == GroupsOf(all, r);
      } else {
        assert UsersOf(roles, r) + [] == UsersOf(roles, r) && GroupsOf(roles, r) + [] == GroupsOf(roles, r);
      }
    }
  }

  lemma BindingOf(role: TeamRole, r: string)
    ensures UsersOf([role], r) == if r == role.role then role.users else []
    ensures GroupsOf([role], r) == if r == role.role then role.groups else []
  {
    assert [role][1..] == [];
  }

  /** Grows the nested map in place, one binding at a time; no bindings give no auth at all. */
  method BuildTeamAuth(roles: seq<TeamRole>) returns (auth: Option<TeamAuth>)
    ensures auth.None? <==> roles == []
    ensures auth.Some? ==> IsAuthOf(auth.value, roles)
  {
    if |roles| == 0 {
      return None;
    }
    var m: TeamAuth := map[];
    for i := 0 to |roles|
      invariant IsAuthOf(m, roles[..i])
    {
      var role := roles[i];
      ghost var before := m;
      if role.role !in m {
        m := m[role.role := map[]];
      }
      var users := if "users" in m[role.role] then m[role.role]["users"] else [];
      m := m[role.role := m[role.role]["users" := users + role.users]];
      var groups := if "groups" in m[role.role] then m[role.role]["groups"] else [];
      m := m[role.role := m[role.role]["groups" := groups + role.groups]];
      assert m == Extended(before, role);
      assert roles[..i + 1] == roles[..i] + [role];
      ExtendedIsAuth(before, roles[..i], role);
    }
    assert roles[..|roles|] == roles;
    return Some(m);
  }

  function ListOf(auth: TeamAuth, r: string, kind: string): seq<string> {
    if r in auth && kind in auth[r] then auth[r][kind] else []
  }

  /** Auths merged role by role, the lists of the first before those of the second. */
  function Merge(a: TeamAuth, b: TeamAuth): TeamAuth {
    map r | r in a.Keys + b.Keys ::
      map["users" := ListOf(a, r, "users") + ListOf(b, r, "users"),
          "groups" := ListOf(a, r, "groups") + ListOf(b, r, "groups")]
  }

  lemma AuthIsUnique(a: TeamAuth, b: TeamAuth, roles: seq<TeamRole>)
    requires IsAuthOf(a, roles) && IsAuthOf(b, roles)
    ensures a == b
  {
    assert a.Keys == b.Keys;
  }

  lemma ListOfAuth(auth: TeamAuth, roles: seq<TeamRole>, r: string)
    requires IsAuthOf(auth, roles)
    ensures ListOf(auth, r, "users") == UsersOf(roles, r) && ListOf(auth, r, "groups") == GroupsOf(roles, r)
  {
    if r !in auth { AbsentOf(roles, r); }
  }

  /** Building from concatenated bindings is merging what the parts build. */
  lemma AuthIsCompositional(x: seq<TeamRole>, y: seq<TeamRole>, a: TeamAuth, b: TeamAuth, both: TeamAuth)
    requires IsAuthOf(a, x) && IsAuthOf(b, y) && IsAuthOf(both, x + y)
    ensures both == Merge(a, b)
  {
    var m, all := Merge(a, b), x + y;
    assert forall i :: 0 <= i < |x| ==> all[i] == x[i];
    assert forall i :: 0 <= i < |y| ==> all[|x| + i] == y[i];
    forall r ensures r in m <==> exists i :: 0 <= i < |all| && all[i].role == r {
      if r in a { var i :| 0 <= i < |x| && x[i].role == r; assert all[i].role == r; }
      if r in b { var i :| 0 <= i < |y| && y[i].role == r; assert all[|x| + i].role == r; }
      if i :| 0 <= i < |all| && all[i].role == r {
        if i < |x| { assert x[i].role == r; } else { assert y[i - |x|].role == r; }
      }
    }
    forall r <- m ensures m[r] == map["users" := UsersOf(all, r), "groups" := GroupsOf(all, r)] {
      ConcatOf(x, y, r);
      ListOfAuth(a, x, r);
      ListOfAuth(b, y, r);
    }
    AuthIsUnique(both, m, all);
  }
}
