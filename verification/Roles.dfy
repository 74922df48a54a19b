/** Role definitions (internal/backend/path_roles.go) and the create requests they turn into. Parsing the
    permissions JSON is outside the model: an update carries parsed permissions or none that parse. */
module Roles {
  import opened Common
  import opened Duration
  import opened Naming
  import opened HarborServer

  datatype Role = Role(level: string, permissions: seq<Permission>, ttl: int, maxTTL: int, description: string)

  /** The field validateRole names, with the indices it reports. */
  datatype RoleError =
    | BadLevel | NoPermissions | NotProjectKind(i: nat) | OtherNamespace(i: nat)
    | BadKind(i: nat) | NoNamespace(i: nat) | NoAccess(i: nat)
    | NoResource(i: nat, j: nat) | NoAction(i: nat, j: nat) | BadEffect(i: nat, j: nat)
    | NegativeTTL | TTLAboveMax

  predicate AccessRuleOk(a: Access) {
    a.resource != "" && a.action != "" && (a.effect == "" || a.effect == "allow" || a.effect == "deny")
  }

  predicate PermissionRuleOk(p: Permission) {
    && (p.kind == "project" || p.kind == "system") && p.namespace != "" && p.access != []
    && forall j :: 0 <= j < |p.access| ==> AccessRuleOk(p.access[j])
  }

  /** The role rules: a project-level role targets exactly one, named project. */
  predicate RoleOk(r: Role) {
    && (r.level == "system" || r.level == "project")
    && r.permissions != []
    && (forall i :: 0 <= i < |r.permissions| ==> PermissionRuleOk(r.permissions[i]))
    && (r.level == "project" ==>
          forall i :: 0 <= i < |r.permissions| ==>
                        r.permissions[i].kind == "project" && r.permissions[i].namespace == r.permissions[0].namespace)
    && 0 <= r.ttl && 0 <= r.maxTTL && (r.maxTTL > 0 ==> r.ttl <= r.maxTTL)
  }

  /** The reported field really breaks its rule. */
  predicate Offends(r: Role, e: RoleError) {
    match e
    case BadLevel => r.level != "system" && r.level != "project"
    case NoPermissions => r.permissions == []
    case NotProjectKind(i) => r.level == "project" && i < |r.permissions| && r.permissions[i].kind != "project"
    case OtherNamespace(i) =>
      r.level == "project" && i < |r.permissions|
      && exists k :: 0 <= k < i && r.permissions[k].namespace != r.permissions[i].namespace
    case BadKind(i) => i < |r.permissions| && r.permissions[i].kind != "project" && r.permissions[i].kind != "system"
    case NoNamespace(i) => i < |r.permissions| && r.permissions[i].namespace == ""
    case NoAccess(i) => i < |r.permissions| && r.permissions[i].access == []
    case NoResource(i, j) =>
      i < |r.permissions| && j < |r.permissions[i].access| && r.permissions[i].access[j].resource == ""
    case NoAction(i, j) =>
      i < |r.permissions| && j < |r.permissions[i].access| && r.permissions[i].access[j].action == ""
    case BadEffect(i, j) =>
      i < |r.permissions| && j < |r.permissions[i].access|
      && var effect := r.permissions[i].access[j].effect; effect != "" && effect != "allow" && effect != "deny"
    case NegativeTTL => r.ttl < 0 || r.maxTTL < 0
    case TTLAboveMax => 0 < r.maxTTL < r.ttl
  }

  /** A role meets the rules exactly when no field breaks one. */
  lemma RoleOkExactly(r: Role)
    ensures RoleOk(r) <==> forall e :: !Offends(r, e)
  {
    if !RoleOk(r) {
      var e := Offence(r);
      assert Offends(r, e);
    }
  }

  lemma Offence(r: Role) returns (e: RoleError)
    requires !RoleOk(r)
    ensures Offends(r, e)
  {
    if r.level != "system" && r.level != "project" {
      e := BadLevel;
    } else if r.permissions == [] {
      e := NoPermissions;
    } else if r.ttl < 0 || r.maxTTL < 0 {
      e := NegativeTTL;
    } else if 0 < r.maxTTL < r.ttl {
      e := TTLAboveMax;
    } else if i :| 0 <= i < |r.permissions| && !PermissionRuleOk(r.permissions[i]) {
      e := PermissionOffence(r, i);
    } else {
      var i :| 0 <= i < |r.permissions|
               && !(r.permissions[i].kind == "project" && r.permissions[i].namespace == r.permissions[0].namespace);
      e := if r.permissions[i].kind != "project" then NotProjectKind(i) else OtherNamespace(i);
    }
  }

  lemma PermissionOffence(r: Role, i: nat) returns (e: RoleError)
    requires i < |r.permissions| && !PermissionRuleOk(r.permissions[i])
    ensures Offends(r, e)
  {
    var p := r.permissions[i];
    if p.kind != "project" && p.kind != "system" {
      e := BadKind(i);
    } else if p.namespace == "" {
      e := NoNamespace(i);
    } else if p.access == [] {
      e := NoAccess(i);
    } else {
      var j :| 0 <= j < |p.access| && !AccessRuleOk(p.access[j]);
      e := if p.access[j].resource == "" then NoResource(i, j)
           else if p.access[j].action == "" then NoAction(i, j) else BadEffect(i, j);
    }
  }

  /** The namespace rule of a project-level role, with its running namespace. */
  method CheckOneProject(perms: seq<Permission>) returns (error: Option<RoleError>)
    ensures error.None? ==> forall i :: 0 <= i < |perms| ==> perms[i].kind == "project"
    ensures error.None? ==>
              forall i, k :: 0 <= k < i < |perms| && perms[k].namespace != "" ==>
                               perms[i].namespace == perms[k].namespace
    ensures error.Some? ==> Offends(Role("project", perms, 0, 0, ""), error.value)
  {
    var ns := "";
    for i := 0 to |perms|
      invariant forall k :: 0 <= k < i ==>
                  perms[k].kind == "project" && (perms[k].namespace == ns || perms[k].namespace == "")
      invariant ns != "" ==> exists k :: 0 <= k < i && perms[k].namespace == ns
      invariant forall k, m :: 0 <= k < m < i && perms[k].namespace != "" ==> perms[m].namespace == perms[k].namespace
    {
      var p := perms[i];
      if p.kind != "project" {
        return Some(NotProjectKind(i));
      }
      if ns == "" {
        ns := p.namespace;
      } else if p.namespace != ns {
        return Some(OtherNamespace(i));
      }
    }
    return None;
  }

  method CheckPermission(r: Role, i: nat) returns (error: Option<RoleError>)
    requires i < |r.permissions|
    ensures error.None? <==> PermissionRuleOk(r.permissions[i])
    ensures error.Some? ==> Offends(r, error.value)
  {
    var p := r.permissions[i];
    if p.kind != "project" && p.kind != "system" {
      return Some(BadKind(i));
    }
    if p.namespace == "" {
      return Some(NoNamespace(i));
    }
    if p.access == [] {
      return Some(NoAccess(i));
    }
    for j := 0 to |p.access|
      invariant forall k :: 0 <= k < j ==> AccessRuleOk(p.access[k])
    {
      var a := p.access[j];
      if a.resource == "" {
        return Some(NoResource(i, j));
      }
      if a.action == "" {
        return Some(NoAction(i, j));
      }
      if a.effect != "" && a.effect != "allow" && a.effect != "deny" {
        return Some(BadEffect(i, j));
      }
    }
    return None;
  }

  /** validateRole accepts exactly the roles that meet the rules, and names a field that breaks one. */
  method ValidateRole(r: Role) returns (error: Option<RoleError>)
    ensures error.None? <==> RoleOk(r)
    ensures error.Some? ==> Offends(r, error.value)
  {
    if r.level != "system" && r.level != "project" {
      return Some(BadLevel);
    }
    if r.permissions == [] {
      return Some(NoPermissions);
    }
    if r.level == "project" {
      error := CheckOneProject(r.permissions);
      if error.Some? {
        return;
      }
    }
    for i := 0 to |r.permissions|
      invariant forall k :: 0 <= k < i ==> PermissionRuleOk(r.permissions[k])
    {
      error := CheckPermission(r, i);
      if error.Some? {
        return;
      }
    }
    if r.ttl < 0 || r.maxTTL < 0 {
      return Some(NegativeTTL);
    }
    if r.ttl > 0 && r.maxTTL > 0 && r.ttl > r.maxTTL {
      return Some(TTLAboveMax);
    }
    return None;
  }

  // ---- role writes ----

  /** The fields of a write; absent ones keep their stored value. */
  datatype RoleUpdate = RoleUpdate(level: Option<string>, permissions: Option<Option<seq<Permission>>>,
                                   ttl: Option<int>, maxTTL: Option<int>, description: Option<string>)

  function Merged(stored: Role, u: RoleUpdate, lower: Lowering): Role
    requires u.permissions.Some? ==> u.permissions.value.Some?
  {
    Role(if u.level.Some? then MapChars(u.level.value, lower) else stored.level,
         if u.permissions.Some? then u.permissions.value.value else stored.permissions,
         if u.ttl.Some? then u.ttl.value * SECOND else stored.ttl,
         if u.maxTTL.Some? then u.maxTTL.value * SECOND else stored.maxTTL,
         if u.description.Some? then u.description.value else stored.description)
  }

  /** Every given field of the update has its value, in the store's terms, and every absent one is kept. */
  predicate AsRequested(stored: Role, u: RoleUpdate, lower: Lowering, r: Role) {
    && (u.level.Some? ==>
          |r.level| == |u.level.value| && forall i :: 0 <= i < |r.level| ==> r.level[i] == lower(u.level.value[i]))
    && (u.level.None? ==> r.level == stored.level)
    && (u.permissions.Some? ==> Some(r.permissions) == u.permissions.value)
    && (u.permissions.None? ==> r.permissions == stored.permissions)
    && (u.ttl.Some? ==> r.ttl == u.ttl.value * SECOND) && (u.ttl.None? ==> r.ttl == stored.ttl)
    && (u.maxTTL.Some? ==> r.maxTTL == u.maxTTL.value * SECOND) && (u.maxTTL.None? ==> r.maxTTL == stored.maxTTL)
    && (u.description.Some? ==> r.description == u.description.value)
    && (u.description.None? ==> r.description == stored.description)
  }

  lemma MergedExactly(stored: Role, u: RoleUpdate, lower: Lowering, r: Role)
    requires u.permissions.Some? ==> u.permissions.value.Some?
    ensures AsRequested(stored, u, lower, r) <==> r == Merged(stored, u, lower)
  {
    if AsRequested(stored, u, lower, r) && u.level.Some? {
      assert r.level == MapChars(u.level.value, lower);
    }
  }

  predicate WholeSeconds(r: Role) {
    r.ttl % SECOND == 0 && r.maxTTL % SECOND == 0
  }

  lemma MergedKeepsWholeSeconds(stored: Role, u: RoleUpdate, lower: Lowering)
    requires WholeSeconds(stored) && (u.permissions.Some? ==> u.permissions.value.Some?)
    ensures WholeSeconds(Merged(stored, u, lower))
  {
  }

  const NO_ROLE: Role := Role("", [], 0, 0, "")

  /** The stored roles, all of them valid and with whole-second TTLs. */
  class RoleStore {
    var roles: map<string, Role>

    constructor ()
      ensures Valid() && roles == map[]
    {
      roles := map[];
    }

    ghost predicate Valid()
      reads this
    {
      forall name :: name in roles ==> RoleOk(roles[name]) && WholeSeconds(roles[name])
    }

    /** The role an update asks for, field by field. */
    method Overlay(base: Role, u: RoleUpdate, lower: Lowering) returns (role: Role)
      requires u.permissions.Some? ==> u.permissions.value.Some?
      ensures role == Merged(base, u, lower) && AsRequested(base, u, lower, role)
    {
      role := base;
      if u.level.Some? {
        role := role.(level := MapChars(u.level.value, lower));
      }
      if u.permissions.Some? {
        role := role.(permissions := u.permissions.value.value);
      }
      if u.ttl.Some? {
        role := role.(ttl := u.ttl.value * SECOND);
      }
      if u.maxTTL.Some? {
        role := role.(maxTTL := u.maxTTL.value * SECOND);
      }
      if u.description.Some? {
        role := role.(description := u.description.value);
      }
      MergedExactly(base, u, lower, role);
    }

    /** pathRoleWrite. */
    method Write(name: string, u: RoleUpdate, lower: Lowering, get: Reply, put: Reply) returns (ok: bool)
      requires Valid()
      modifies this
      ensures Valid()
      ensures var base := if name in old(roles) then old(roles)[name] else NO_ROLE;
              var accepted := get == Answer && (u.permissions.Some? ==> u.permissions.value.Some?)
                              && RoleOk(Merged(base, u, lower));
              && (ok <==> accepted && put == Answer)
              && roles == (if accepted && !put.Refuse? then old(roles)[name := Merged(base, u, lower)] else old(roles))
      ensures ok ==>
                && roles.Keys == old(roles).Keys + {name}
                && (forall k :: k in old(roles) && k != name ==> roles[k] == old(roles)[k])
                && AsRequested(if name in old(roles) then old(roles)[name] else NO_ROLE, u, lower, roles[name])
    {
      if get != Answer {
        return false;
      }
      if u.permissions.Some? && u.permissions.value.None? {
        return false;
      }
      var base := if name in roles then roles[name] else NO_ROLE;
      var role := Overlay(base, u, lower);
      MergedKeepsWholeSeconds(base, u, lower);
      var error := ValidateRole(role);
      if error.Some? {
        return false;
      }
      if !put.Refuse? {
        roles := roles[name := role];
      }
      ok := put == Answer;
    }
  }

  // ---- the create request of a role ----

  function CreateRequestOf(role: Role, name: string, days: int): CreateRequest {
    CreateRequest(name, "", role.level, false, days, role.permissions)
  }

  /** Beyond the role's own rules Harbor asks for existing projects, robot actions it knows, and a single
      permission at project level. */
  ghost predicate HarborAccepts(role: Role, projects: set<string>) {
    && (role.level == "project" ==> |role.permissions| == 1)
    && forall i :: 0 <= i < |role.permissions| ==> HarborKnows(role.permissions[i], projects)
  }

  ghost predicate HarborKnows(p: Permission, projects: set<string>) {
    && (p.kind == "project" ==> p.namespace in projects)
    && forall j :: 0 <= j < |p.access| ==> (p.access[j].resource == "robot" ==> RobotAction(p.access[j].action))
  }

  /** A valid role's request passes all of Harbor's validation exactly then. */
  lemma RoleRequestsPassExactly(role: Role, configured: string, roleName: string, suffix: string, lower: Lowering,
                                ttl: int, projects: set<string>)
    requires RoleOk(role) && IsSuffix(suffix)
    ensures var name := RobotName(configured, roleName, suffix, lower);
            PassesValidation(CreateRequestOf(role, name, TtlToDays(ttl)), projects) <==> HarborAccepts(role, projects)
  {
    var name := RobotName(configured, roleName, suffix, lower);
    RobotNameIsValid(configured, roleName, suffix, lower);
    RequestPassesExactly(role, name, TtlToDays(ttl), projects);
  }

  lemma RequestPassesExactly(role: Role, name: string, days: int, projects: set<string>)
    requires RoleOk(role) && MatchesPattern(name) && days >= 1
    ensures PassesValidation(CreateRequestOf(role, name, days), projects) <==> HarborAccepts(role, projects)
  {
    forall i | 0 <= i < |role.permissions|
      ensures PermissionOk(role.permissions[i], projects) <==> HarborKnows(role.permissions[i], projects)
    {
      PermissionPassesExactly(role.permissions[i], projects);
    }
  }

  lemma PermissionPassesExactly(p: Permission, projects: set<string>)
    requires PermissionRuleOk(p)
    ensures PermissionOk(p, projects) <==> HarborKnows(p, projects)
  {
    assert forall j :: 0 <= j < |p.access| ==> AccessRuleOk(p.access[j]);
  }

  /** validateRole accepts project-level roles with several permissions for the same project, and no
      credentials can ever be issued for them. */
  lemma AcceptedButUnusable(role: Role, name: string, days: int, projects: set<string>)
    requires RoleOk(role) && role.level == "project" && |role.permissions| > 1
    ensures !PassesValidation(CreateRequestOf(role, name, days), projects)
  {
  }
}
