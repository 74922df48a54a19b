/** Harbor's robot accounts as the engine relies on them (internal/harbor/harbortest/server.go): naming,
    creation with its validation and authorisation, update, deletion and listing. */
module HarborServer {
  import opened Common
  import opened Duration
  import opened Naming
  import opened SecretGen
  import opened ShortNames

  datatype Access = Access(resource: string, action: string, effect: string)

  datatype Permission = Permission(kind: string, namespace: string, access: seq<Access>)

  datatype CreateRequest = CreateRequest(name: string, secret: string, level: string, disable: bool, duration: int,
                                         permissions: seq<Permission>)

  datatype Robot = Robot(id: nat, name: string, level: string, duration: int, expiresAt: int, created: int,
                         disable: bool, permissions: seq<Permission>, creator: Option<nat>)

  /** The authenticated caller. */
  datatype Principal = UserPrincipal(sysadmin: bool, projectAdmin: seq<string>) | RobotPrincipal(id: nat)

  datatype Answer = Created(robot: Robot) | Refused(status: nat)

  // ---- permission scopes ----

  predicate NamespaceCovers(creator: Permission, target: Permission) {
    if creator.kind == "system" then target.kind == "system"
    else creator.kind == "project" && target.kind == "project"
         && (creator.namespace == "*" || creator.namespace == target.namespace)
  }

  predicate Lists(access: seq<Access>, resource: string, action: string) {
    exists j :: 0 <= j < |access| && access[j].resource == resource && access[j].action == action
  }

  predicate Allows(access: seq<Access>, resource: string, action: string) {
    exists j :: 0 <= j < |access| && access[j].resource == resource && access[j].action == action
                && access[j].effect != "deny"
  }

  /** Some permission covering the target's namespace lists resource:action. */
  predicate Covers(perms: seq<Permission>, target: Permission, resource: string, action: string) {
    exists i :: 0 <= i < |perms| && NamespaceCovers(perms[i], target) && Lists(perms[i].access, resource, action)
  }

  /** Some permission covering the target's namespace allows resource:action. */
  predicate Grants(perms: seq<Permission>, target: Permission, resource: string, action: string) {
    exists i :: 0 <= i < |perms| && NamespaceCovers(perms[i], target) && Allows(perms[i].access, resource, action)
  }

  /** Harbor's rule for robots created by robots: every pair of the child is covered by the creator. */
  predicate ScopeCovered(creator: seq<Permission>, child: seq<Permission>) {
    forall t, a :: 0 <= t < |child| && 0 <= a < |child[t].access| ==>
                     Covers(creator, child[t], child[t].access[a].resource, child[t].access[a].action)
  }

  method Holds(creator: seq<Permission>, target: Permission, resource: string, action: string) returns (ok: bool)
    ensures ok <==> Grants(creator, target, resource, action)
  {
    for i := 0 to |creator|
      invariant forall k :: 0 <= k < i && NamespaceCovers(creator[k], target) ==>
                  !Allows(creator[k].access, resource, action)
    {
      var access := creator[i].access;
      if NamespaceCovers(creator[i], target) {
        for j := 0 to |access|
          invariant forall k :: 0 <= k < j ==>
                      !(access[k].resource == resource && access[k].action == action && access[k].effect != "deny")
        {
          if access[j].resource == resource && access[j].action == action && access[j].effect != "deny" {
            assert Allows(access, resource, action);
            return true;
          }
        }
      }
    }
    return false;
  }

  method HasAccess(creator: seq<Permission>, resource: string, action: string, perms: seq<Permission>)
    returns (ok: bool)
    ensures ok <==> forall t :: 0 <= t < |perms| ==> Grants(creator, perms[t], resource, action)
  {
    for t := 0 to |perms|
      invariant forall k :: 0 <= k < t ==> Grants(creator, perms[k], resource, action)
    {
      var found := Holds(creator, perms[t], resource, action);
      if !found {
        return false;
      }
    }
    return true;
  }

  method Listed(access: seq<Access>, resource: string, action: string) returns (ok: bool)
    ensures ok <==> Lists(access, resource, action)
  {
    ok := false;
    for j := 0 to |access|
      invariant ok <==> exists k :: 0 <= k < j && access[k].resource == resource && access[k].action == action
    {
      if access[j].resource == resource && access[j].action == action {
        ok := true;
      }
    }
  }

  method ScopeCovers(creator: seq<Permission>, perms: seq<Permission>) returns (ok: bool)
    ensures ok <==> ScopeCovered(creator, perms)
  {
    for t := 0 to |perms|
      invariant ScopeCovered(creator, perms[..t])
    {
      var target := perms[t];
      for a := 0 to |target.access|
        invariant forall k :: 0 <= k < a ==> Covers(creator, target, target.access[k].resource, target.access[k].action)
      {
        var covered := false;
        for i := 0 to |creator|
          invariant covered <==> exists k :: 0 <= k < i && NamespaceCovers(creator[k], target)
                                  && Lists(creator[k].access, target.access[a].resource, target.access[a].action)
        {
          if NamespaceCovers(creator[i], target) {
            var listed := Listed(creator[i].access, target.access[a].resource, target.access[a].action);
            covered := covered || listed;
          }
        }
        if !covered {
          return false;
        }
      }
      assert perms[..t + 1] == perms[..t] + [target];
    }
    assert perms[..|perms|] == perms;
    return true;
  }

  lemma NamespaceCoversTransitive(a: Permission, b: Permission, c: Permission)
    requires NamespaceCovers(a, b) && NamespaceCovers(b, c)
    ensures NamespaceCovers(a, c)
  {
  }

  /** A pair covered for the child is covered for its creator, in every namespace including "*". */
  lemma CoversThroughChild(creator: seq<Permission>, child: seq<Permission>, target: Permission, resource: string,
                           action: string)
    requires ScopeCovered(creator, child) && Covers(child, target, resource, action)
    ensures Covers(creator, target, resource, action)
  {
    var t :| 0 <= t < |child| && NamespaceCovers(child[t], target) && Lists(child[t].access, resource, action);
    var a :| 0 <= a < |child[t].access| && child[t].access[a].resource == resource
             && child[t].access[a].action == action;
    assert Covers(creator, child[t], resource, action);
    var i :| 0 <= i < |creator| && NamespaceCovers(creator[i], child[t]) && Lists(creator[i].access, resource, action);
    NamespaceCoversTransitive(creator[i], child[t], target);
  }

  lemma ScopeCoveredTransitive(a: seq<Permission>, b: seq<Permission>, c: seq<Permission>)
    requires ScopeCovered(a, b) && ScopeCovered(b, c)
    ensures ScopeCovered(a, c)
  {
    forall t, k | 0 <= t < |c| && 0 <= k < |c[t].access|
      ensures Covers(a, c[t], c[t].access[k].resource, c[t].access[k].action)
    {
      CoversThroughChild(a, b, c[t], c[t].access[k].resource, c[t].access[k].action);
    }
  }

  // ---- ancestry ----

  /** A robot as it was created: its permissions and the robot that created it, if one did. */
  datatype Birth = Birth(permissions: seq<Permission>, creator: Option<nat>)

  /** Every robot created by a robot was within its creator's scope. */
  ghost predicate WellBorn(born: map<nat, Birth>) {
    forall id :: id in born && born[id].creator.Some? ==>
                   born[id].creator.value in born
                   && ScopeCovered(born[born[id].creator.value].permissions, born[id].permissions)
  }

  /** Each robot of the chain was created by the one before it. */
  predicate IsChain(born: map<nat, Birth>, chain: seq<nat>) {
    && (forall i :: 0 <= i < |chain| ==> chain[i] in born)
    && (forall i :: 0 < i < |chain| ==> born[chain[i]].creator == Some(chain[i - 1]))
  }

  /** Along a chain of any length, whatever the last robot covers in any namespace, the first covers. */
  lemma {:induction false} DescendantsAreAttenuated(born: map<nat, Birth>, chain: seq<nat>, target: Permission,
                                                    resource: string, action: string)
    requires WellBorn(born) && chain != [] && IsChain(born, chain)
    requires Covers(born[chain[|chain| - 1]].permissions, target, resource, action)
    ensures Covers(born[chain[0]].permissions, target, resource, action)
    decreases |chain|
  {
    if |chain| > 1 {
      var n := |chain| - 1;
      assert born[chain[n]].creator == Some(chain[n - 1]);
      CoversThroughChild(born[chain[n - 1]].permissions, born[chain[n]].permissions, target, resource, action);
      DescendantsAreAttenuated(born, chain[..n], target, resource, action);
    }
  }

  /** Every deny rule is outweighed by an allow rule for the same pair in the same namespace or more. */
  predicate DenyOutweighed(perms: seq<Permission>) {
    forall i, j :: 0 <= i < |perms| && 0 <= j < |perms[i].access| && perms[i].access[j].effect == "deny" ==>
                     Outweighed(perms, perms[i], perms[i].access[j])
  }

  predicate Outweighed(perms: seq<Permission>, p: Permission, a: Access) {
    p.kind in {"project", "system"} ==> Grants(perms, p, a.resource, a.action)
  }

  lemma GrantsWherePossible(perms: seq<Permission>, target: Permission, resource: string, action: string)
    requires DenyOutweighed(perms) && Covers(perms, target, resource, action)
    ensures Grants(perms, target, resource, action)
  {
    var i :| 0 <= i < |perms| && NamespaceCovers(perms[i], target) && Lists(perms[i].access, resource, action);
    var j :| 0 <= j < |perms[i].access| && perms[i].access[j].resource == resource
             && perms[i].access[j].action == action;
    if perms[i].access[j].effect == "deny" {
      assert Outweighed(perms, perms[i], perms[i].access[j]);
      var k :| 0 <= k < |perms| && NamespaceCovers(perms[k], perms[i]) && Allows(perms[k].access, resource, action);
      NamespaceCoversTransitive(perms[k], perms[i], target);
    } else {
      assert Allows(perms[i].access, resource, action);
    }
  }

  /** What the descendant may do the ancestor may do, when the ancestor's deny rules are outweighed. */
  lemma DescendantsHoldNoMore(born: map<nat, Birth>, chain: seq<nat>, target: Permission, resource: string,
                              action: string)
    requires WellBorn(born) && chain != [] && IsChain(born, chain) && DenyOutweighed(born[chain[0]].permissions)
    requires Grants(born[chain[|chain| - 1]].permissions, target, resource, action)
    ensures Grants(born[chain[0]].permissions, target, resource, action)
  {
    var last := born[chain[|chain| - 1]].permissions;
    var i :| 0 <= i < |last| && NamespaceCovers(last[i], target) && Allows(last[i].access, resource, action);
    assert Lists(last[i].access, resource, action);
    assert Covers(last, target, resource, action);
    DescendantsAreAttenuated(born, chain, target, resource, action);
    GrantsWherePossible(born[chain[0]].permissions, target, resource, action);
  }

  /** A robot may create this child: it may create robots everywhere the child reaches, and the child is
      within its scope. */
  predicate MayCreate(creator: seq<Permission>, child: seq<Permission>) {
    ScopeCovered(creator, child) && forall t :: 0 <= t < |child| ==> Grants(creator, child[t], "robot", "create")
  }

  /** The child may do something in some namespace that its creator may not. */
  ghost predicate GainsARight(creator: seq<Permission>, child: seq<Permission>) {
    exists target, resource, action ::
      Grants(child, target, resource, action) && !Grants(creator, target, resource, action)
  }

  /** The narrower of two permissions of which one covers the other. */
  function Narrower(p: Permission, q: Permission): Permission {
    if NamespaceCovers(p, q) then q else p
  }

  /** Wherever robots may be created, every deny rule is outweighed. */
  predicate DenyOutweighedForChildren(perms: seq<Permission>) {
    forall i, j, k :: 0 <= i < |perms| && 0 <= j < |perms[i].access| && 0 <= k < |perms| ==> ChildSafe(perms, i, j, k)
  }

  predicate ChildSafe(perms: seq<Permission>, i: nat, j: nat, k: nat)
    requires i < |perms| && j < |perms[i].access| && k < |perms|
  {
    var a := perms[i].access[j];
    a.effect == "deny" && Allows(perms[k].access, "robot", "create")
    && (NamespaceCovers(perms[i], perms[k]) || NamespaceCovers(perms[k], perms[i])) ==>
      Grants(perms, Narrower(perms[i], perms[k]), a.resource, a.action)
  }

  /** Scope coverage ignores effects, so a robot that may create robots where it is denied something can
      create one that is allowed it. A creator's children never gain a right if and only if, wherever it
      may create robots, its deny rules are outweighed. */
  lemma ChildrenHoldNoMoreExactly(creator: seq<Permission>)
    ensures (forall child :: MayCreate(creator, child) ==> !GainsARight(creator, child))
            <==> DenyOutweighedForChildren(creator)
  {
    if DenyOutweighedForChildren(creator) {
      forall child | MayCreate(creator, child) ensures !GainsARight(creator, child) {
        OutweighedChildHoldsNoMore(creator, child);
      }
    } else {
      var i, j, k :| 0 <= i < |creator| && 0 <= j < |creator[i].access| && 0 <= k < |creator|
                     && !ChildSafe(creator, i, j, k);
      DeniedChildGains(creator, i, j, k);
    }
  }

  /** Two permissions that cover a third overlap, and the narrower one covers it too. */
  lemma NarrowerCovers(p: Permission, q: Permission, target: Permission)
    requires NamespaceCovers(p, target) && NamespaceCovers(q, target)
    ensures (NamespaceCovers(p, q) || NamespaceCovers(q, p)) && NamespaceCovers(Narrower(p, q), target)
  {
  }

  lemma OutweighedChildHoldsNoMore(creator: seq<Permission>, child: seq<Permission>)
    requires DenyOutweighedForChildren(creator) && MayCreate(creator, child)
    ensures !GainsARight(creator, child)
  {
    forall target, resource, action | Grants(child, target, resource, action)
      ensures Grants(creator, target, resource, action)
    {
      var c :| 0 <= c < |child| && NamespaceCovers(child[c], target) && Allows(child[c].access, resource, action);
      var x :| 0 <= x < |child[c].access| && child[c].access[x].resource == resource
               && child[c].access[x].action == action;
      assert Covers(creator, child[c], child[c].access[x].resource, child[c].access[x].action);
      ChildRightIsHeld(creator, child[c], resource, action);
      var h :| 0 <= h < |creator| && NamespaceCovers(creator[h], child[c])
               && Allows(creator[h].access, resource, action);
      NamespaceCoversTransitive(creator[h], child[c], target);
    }
  }

  lemma ChildRightIsHeld(creator: seq<Permission>, p: Permission, resource: string, action: string)
    requires DenyOutweighedForChildren(creator)
    requires Covers(creator, p, resource, action) && Grants(creator, p, "robot", "create")
    ensures Grants(creator, p, resource, action)
  {
    var i :| 0 <= i < |creator| && NamespaceCovers(creator[i], p) && Lists(creator[i].access, resource, action);
    var k :| 0 <= k < |creator| && NamespaceCovers(creator[k], p) && Allows(creator[k].access, "robot", "create");
    var j :| 0 <= j < |creator[i].access| && creator[i].access[j].resource == resource
             && creator[i].access[j].action == action;
    if creator[i].access[j].effect == "deny" {
      NarrowerCovers(creator[i], creator[k], p);
      assert ChildSafe(creator, i, j, k);
      var m := Narrower(creator[i], creator[k]);
      var h :| 0 <= h < |creator| && NamespaceCovers(creator[h], m) && Allows(creator[h].access, resource, action);
      NamespaceCoversTransitive(creator[h], m, p);
    } else {
      assert Allows(creator[i].access, resource, action);
    }
  }

  /** The child that shows it. */
  function Gainer(creator: seq<Permission>, i: nat, j: nat, k: nat): Permission
    requires i < |creator| && j < |creator[i].access| && k < |creator|
  {
    var m, a := Narrower(creator[i], creator[k]), creator[i].access[j];
    Permission(m.kind, m.namespace, [Access(a.resource, a.action, "allow")])
  }

  lemma DeniedChildGains(creator: seq<Permission>, i: nat, j: nat, k: nat)
    requires i < |creator| && j < |creator[i].access| && k < |creator| && !ChildSafe(creator, i, j, k)
    ensures MayCreate(creator, [Gainer(creator, i, j, k)]) && GainsARight(creator, [Gainer(creator, i, j, k)])
  {
    var m, a := Narrower(creator[i], creator[k]), creator[i].access[j];
    var child := [Gainer(creator, i, j, k)];
    assert NamespaceCovers(creator[i], child[0]) && NamespaceCovers(creator[k], child[0]);
    assert Lists(creator[i].access, a.resource, a.action);
    assert child[0].access[0] == Access(a.resource, a.action, "allow");
    assert NamespaceCovers(child[0], m) && Allows(child[0].access, a.resource, a.action);
    assert Grants(child, m, a.resource, a.action);
  }

  // ---- isolation ----

  /** A pair is granted in a scope exactly by a permission of the scope's kind, which for a project is the
      same one or all projects, that lists the pair without denying it. */
  lemma GrantsExactly(perms: seq<Permission>, target: Permission, resource: string, action: string)
    ensures Grants(perms, target, resource, action) <==>
              exists i, j :: 0 <= i < |perms| && 0 <= j < |perms[i].access|
                             && perms[i].access[j].resource == resource && perms[i].access[j].action == action
                             && perms[i].access[j].effect != "deny" && perms[i].kind == target.kind
                             && (target.kind == "system"
                                 || (target.kind == "project" && perms[i].namespace in {"*", target.namespace}))
  {
    if Grants(perms, target, resource, action) {
      var i :| 0 <= i < |perms| && NamespaceCovers(perms[i], target) && Allows(perms[i].access, resource, action);
      var j :| 0 <= j < |perms[i].access| && perms[i].access[j].resource == resource
               && perms[i].access[j].action == action && perms[i].access[j].effect != "deny";
    }
    forall i, j | 0 <= i < |perms| && 0 <= j < |perms[i].access|
                  && perms[i].access[j].resource == resource && perms[i].access[j].action == action
                  && perms[i].access[j].effect != "deny" && perms[i].kind == target.kind
                  && (target.kind == "system"
                      || (target.kind == "project" && perms[i].namespace in {"*", target.namespace}))
      ensures Grants(perms, target, resource, action)
    {
      assert NamespaceCovers(perms[i], target) && Allows(perms[i].access, resource, action);
    }
  }

  /** Some permission of the same kind, for the same project or all projects, lists the pair. */
  ghost predicate ListedFor(perms: seq<Permission>, target: Permission, resource: string, action: string) {
    exists i, j :: 0 <= i < |perms| && 0 <= j < |perms[i].access|
                   && perms[i].access[j].resource == resource && perms[i].access[j].action == action
                   && perms[i].kind == target.kind
                   && (target.kind == "system"
                       || (target.kind == "project" && perms[i].namespace in {"*", target.namespace}))
  }

  lemma CoversExactly(perms: seq<Permission>, target: Permission, resource: string, action: string)
    ensures Covers(perms, target, resource, action) <==> ListedFor(perms, target, resource, action)
  {
    if Covers(perms, target, resource, action) {
      var i :| 0 <= i < |perms| && NamespaceCovers(perms[i], target) && Lists(perms[i].access, resource, action);
      var j :| 0 <= j < |perms[i].access| && perms[i].access[j].resource == resource
               && perms[i].access[j].action == action;
    }
    if ListedFor(perms, target, resource, action) {
      var i, j :| 0 <= i < |perms| && 0 <= j < |perms[i].access|
                  && perms[i].access[j].resource == resource && perms[i].access[j].action == action
                  && perms[i].kind == target.kind
                  && (target.kind == "system"
                      || (target.kind == "project" && perms[i].namespace in {"*", target.namespace}));
      assert NamespaceCovers(perms[i], target) && Lists(perms[i].access, resource, action);
    }
  }

  /** A child is within a creator's scope exactly when the creator lists each of the child's pairs for the
      child's own kind and project, or for all projects, whatever the effects. */
  lemma ScopeCoveredExactly(creator: seq<Permission>, child: seq<Permission>)
    ensures ScopeCovered(creator, child) <==>
              forall t, a :: 0 <= t < |child| && 0 <= a < |child[t].access| ==>
                               ListedFor(creator, child[t], child[t].access[a].resource, child[t].access[a].action)
  {
    forall t, a | 0 <= t < |child| && 0 <= a < |child[t].access|
      ensures Covers(creator, child[t], child[t].access[a].resource, child[t].access[a].action)
         <==> ListedFor(creator, child[t], child[t].access[a].resource, child[t].access[a].action)
    {
      CoversExactly(creator, child[t], child[t].access[a].resource, child[t].access[a].action);
    }
  }

  /** Whoever holds system permissions only is granted nothing in a project, and creates no robot with a
      project permission. */
  lemma SystemPermissionsStayOutOfProjects(perms: seq<Permission>, target: Permission, resource: string, action: string,
                                           child: seq<Permission>)
    requires forall i :: 0 <= i < |perms| ==> perms[i].kind == "system"
    ensures target.kind == "project" ==> !Grants(perms, target, resource, action)
    ensures MayCreate(perms, child) ==> forall t :: 0 <= t < |child| ==> child[t].kind != "project"
  {
    GrantsExactly(perms, target, resource, action);
    if MayCreate(perms, child) {
      forall t | 0 <= t < |child| ensures child[t].kind != "project" {
        GrantsExactly(perms, child[t], "robot", "create");
      }
    }
  }

  /** Whoever holds project permissions only is granted nothing at system scope, and creates no system
      robot. */
  lemma ProjectPermissionsStayOutOfTheSystem(perms: seq<Permission>, target: Permission, resource: string,
                                             action: string, rq: CreateRequest)
    requires forall i :: 0 <= i < |perms| ==> perms[i].kind == "project"
    ensures target.kind == "system" ==> !Grants(perms, target, resource, action)
    ensures RobotMay(perms, rq) ==> rq.level != "system"
    ensures MayCreate(perms, rq.permissions) ==>
              forall t :: 0 <= t < |rq.permissions| ==> rq.permissions[t].kind != "system"
  {
    GrantsExactly(perms, target, resource, action);
    GrantsExactly(perms, SYSTEM_SCOPE, "robot", "create");
    if MayCreate(perms, rq.permissions) {
      forall t | 0 <= t < |rq.permissions| ensures rq.permissions[t].kind != "system" {
        GrantsExactly(perms, rq.permissions[t], "robot", "create");
      }
    }
  }

  /** Permissions for one named project grant nothing in another, and reach no robot created there. */
  lemma ProjectsAreIsolated(perms: seq<Permission>, project: string, target: Permission, resource: string,
                            action: string, child: seq<Permission>)
    requires project != "*"
    requires forall i :: 0 <= i < |perms| ==> perms[i].kind == "project" && perms[i].namespace == project
    ensures target.namespace != project ==> !Grants(perms, target, resource, action)
    ensures MayCreate(perms, child) ==> forall t :: 0 <= t < |child| ==> child[t].namespace == project
  {
    GrantsExactly(perms, target, resource, action);
    if MayCreate(perms, child) {
      forall t | 0 <= t < |child| ensures child[t].namespace == project {
        GrantsExactly(perms, child[t], "robot", "create");
      }
    }
  }

  /** A permission for all projects grants what it allows in every project, one for a named project there,
      and a system permission at system scope. */
  lemma PermissionsReachTheirScope(perms: seq<Permission>, i: nat, target: Permission, resource: string, action: string)
    requires i < |perms| && Allows(perms[i].access, resource, action) && perms[i].kind == target.kind
    requires target.kind == "system" || (target.kind == "project" && perms[i].namespace in {"*", target.namespace})
    ensures Grants(perms, target, resource, action)
  {
    var j :| 0 <= j < |perms[i].access| && perms[i].access[j].resource == resource
             && perms[i].access[j].action == action && perms[i].access[j].effect != "deny";
    GrantsExactly(perms, target, resource, action);
  }

  // ---- creation ----

  predicate RobotAction(action: string) {
    action == "create" || action == "read" || action == "list" || action == "delete"
  }

  predicate AccessOk(a: Access) {
    a.resource != "" && a.action != "" && (a.resource == "robot" ==> RobotAction(a.action))
  }

  predicate PermissionOk(p: Permission, projects: set<string>) {
    && (p.kind == "project" || p.kind == "system")
    && (p.kind == "project" ==> p.namespace in projects)
    && forall j :: 0 <= j < |p.access| ==> AccessOk(p.access[j])
  }

  /** What Harbor demands of a create request before it looks at the caller's rights. */
  ghost predicate PassesValidation(rq: CreateRequest, projects: set<string>) {
    && MatchesPattern(rq.name)
    && (rq.level == "system" || rq.level == "project")
    && (rq.duration == -1 || rq.duration > 0)
    && rq.permissions != []
    && (rq.level == "project" ==> |rq.permissions| == 1 && rq.permissions[0].kind == "project")
    && (forall i :: 0 <= i < |rq.permissions| ==> PermissionOk(rq.permissions[i], projects))
    && (rq.secret != "" ==> MeetsPolicy(rq.secret))
  }

  /** What Harbor demands of a robot that creates a robot. */
  predicate RobotMay(creator: seq<Permission>, rq: CreateRequest) {
    && (rq.level == "system" ==> Grants(creator, SYSTEM_SCOPE, "robot", "create"))
    && MayCreate(creator, rq.permissions)
  }

  /** Harbor accepts the request for the child that gains a right, whenever the creator's own permissions
      would pass its validation. */
  lemma GainingRequestIsAccepted(creator: seq<Permission>, i: nat, j: nat, k: nat, rq: CreateRequest,
                                 projects: set<string>)
    requires i < |creator| && j < |creator[i].access| && k < |creator| && !ChildSafe(creator, i, j, k)
    requires forall x :: 0 <= x < |creator| ==> PermissionOk(creator[x], projects)
    requires MatchesPattern(rq.name) && (rq.duration == -1 || rq.duration > 0) && rq.secret == ""
    requires rq.permissions == [Gainer(creator, i, j, k)]
    requires rq.level == if rq.permissions[0].kind == "project" then "project" else "system"
    ensures PassesValidation(rq, projects) && RobotMay(creator, rq) && GainsARight(creator, rq.permissions)
  {
    DeniedChildGains(creator, i, j, k);
    assert AccessOk(creator[i].access[j]);
    var p := rq.permissions[0];
    assert PermissionOk(p, projects);
    if p.kind == "system" {
      assert Grants(creator, p, "robot", "create");
      var h :| 0 <= h < |creator| && NamespaceCovers(creator[h], p) && Allows(creator[h].access, "robot", "create");
      assert NamespaceCovers(creator[h], SYSTEM_SCOPE);
    }
  }

  /** What Harbor refuses a create request for, whoever asks. */
  ghost predicate Malformed(rq: CreateRequest, projects: set<string>) {
    || !MatchesPattern(rq.name) || rq.level !in {"system", "project"} || (rq.duration != -1 && rq.duration <= 0)
    || rq.permissions == []
    || (rq.level == "project" && !(|rq.permissions| == 1 && rq.permissions[0].kind == "project"))
    || (exists i :: 0 <= i < |rq.permissions| && rq.permissions[i].kind !in {"project", "system"})
    || (exists i :: 0 <= i < |rq.permissions| && rq.permissions[i].kind == "project"
                    && rq.permissions[i].namespace !in projects)
    || (exists i, j :: 0 <= i < |rq.permissions| && 0 <= j < |rq.permissions[i].access|
                       && (rq.permissions[i].access[j].resource == "" || rq.permissions[i].access[j].action == ""))
    || (exists i, j :: 0 <= i < |rq.permissions| && 0 <= j < |rq.permissions[i].access|
                       && rq.permissions[i].access[j].resource == "robot"
                       && rq.permissions[i].access[j].action !in {"create", "read", "list", "delete"})
    || (rq.secret != "" && !MeetsPolicy(rq.secret))
  }

  lemma PassesUnlessMalformed(rq: CreateRequest, projects: set<string>)
    ensures PassesValidation(rq, projects) <==> !Malformed(rq, projects)
  {
    if !PassesValidation(rq, projects) && rq.permissions != [] {
      if i :| 0 <= i < |rq.permissions| && !PermissionOk(rq.permissions[i], projects) {
        if j :| 0 <= j < |rq.permissions[i].access| && !AccessOk(rq.permissions[i].access[j]) {
        }
      }
    }
  }

  method Validate(rq: CreateRequest, projects: set<string>) returns (ok: bool)
    ensures ok <==> PassesValidation(rq, projects)
  {
    if !MatchesPattern(rq.name) || (rq.level != "system" && rq.level != "project") {
      return false;
    }
    if rq.duration != -1 && rq.duration <= 0 {
      return false;
    }
    if |rq.permissions| == 0 {
      return false;
    }
    if rq.level == "project" && (|rq.permissions| != 1 || rq.permissions[0].kind != "project") {
      return false;
    }
    for i := 0 to |rq.permissions|
      invariant forall k :: 0 <= k < i ==> PermissionOk(rq.permissions[k], projects)
    {
      var p := rq.permissions[i];
      if p.kind != "project" && p.kind != "system" {
        return false;
      }
      if p.kind == "project" && p.namespace !in projects {
        return false;
      }
      for j := 0 to |p.access|
        invariant forall k :: 0 <= k < j ==> AccessOk(p.access[k])
      {
        var a := p.access[j];
        if a.resource == "" || a.action == "" || (a.resource == "robot" && !RobotAction(a.action)) {
          return false;
        }
      }
    }
    if rq.secret != "" {
      ok := HarborSecretOK(rq.secret);
    } else {
      ok := true;
    }
  }

  const SYSTEM_SCOPE: Permission := Permission("system", "/", [])

  /** The full name of a robot with these permissions. */
  function NameOf(prefix: string, level: string, permissions: seq<Permission>, short: string): string {
    FullName(prefix, level, if permissions == [] then "" else permissions[0].namespace, short)
  }

  /** A robot with this name could be taken for the requested one. */
  predicate NameTaken(prefix: string, robots: map<nat, Robot>, rq: CreateRequest): (taken: bool)
    requires rq.permissions != []
    ensures var project := if rq.level == "project" then {prefix + rq.permissions[0].namespace + "+" + rq.name} else {};
            taken <==> exists id :: id in robots && robots[id].name in {prefix + rq.name} + project
  {
    exists id :: id in robots && (robots[id].name == prefix + rq.name
                                  || (rq.level == "project"
                                      && robots[id].name == NameOf(prefix, rq.level, rq.permissions, rq.name)))
  }

  /** The robot carries a full name Harbor could have given it. */
  ghost predicate ProperlyNamed(prefix: string, robot: Robot) {
    exists short :: NoQualifier(short) && robot.name == NameOf(prefix, robot.level, robot.permissions, short)
  }

  /** Full names are well made and unique. */
  ghost predicate NamesOk(prefix: string, robots: map<nat, Robot>) {
    && (forall id :: id in robots ==> robots[id].id == id)
    && (forall id :: id in robots ==> ProperlyNamed(prefix, robots[id]))
    && (forall i, j :: i in robots && j in robots && robots[i].name == robots[j].name ==> i == j)
  }

  /** What every creation, update and deletion keeps. */
  ghost predicate RobotsOk(prefix: string, robots: map<nat, Robot>, born: map<nat, Birth>, nextID: nat) {
    && WellBorn(born)
    && (forall id :: id in born ==> id < nextID)
    && (forall id :: id in robots ==> id in born && robots[id].permissions == born[id].permissions)
    && NamesOk(prefix, robots)
  }

  lemma AddedRobotOk(prefix: string, robots: map<nat, Robot>, born: map<nat, Birth>, nextID: nat, robot: Robot)
    requires RobotsOk(prefix, robots, born, nextID) && robot.id == nextID && ProperlyNamed(prefix, robot)
    requires forall id :: id in robots ==> robots[id].name != robot.name
    requires robot.creator.Some? ==>
               robot.creator.value in robots && ScopeCovered(robots[robot.creator.value].permissions, robot.permissions)
    ensures RobotsOk(prefix, robots[nextID := robot], born[nextID := Birth(robot.permissions, robot.creator)],
                     nextID + 1)
  {
  }

  /** An update keeps name, level and permissions. */
  lemma UpdatedRobotOk(prefix: string, robots: map<nat, Robot>, born: map<nat, Birth>, nextID: nat, id: nat,
                       robot: Robot)
    requires RobotsOk(prefix, robots, born, nextID) && id in robots
    requires robot.id == id && robot.name == robots[id].name && robot.level == robots[id].level
    requires robot.permissions == robots[id].permissions
    ensures RobotsOk(prefix, robots[id := robot], born, nextID)
  {
    assert ProperlyNamed(prefix, robots[id]);
  }

  class Server {
    const prefix: string
    var robots: map<nat, Robot>
    var nextID: nat
    var projects: set<string>
    /** Every robot ever created, deleted ones included. */
    ghost var born: map<nat, Birth>

    constructor (prefix: string, projects: set<string>)
      ensures Valid() && robots == map[] && this.projects == projects && this.prefix == prefix
    {
      this.prefix, this.projects := prefix, projects;
      robots, nextID, born := map[], 1, map[];
    }

    ghost predicate Valid()
      reads this
    {
      RobotsOk(prefix, robots, born, nextID)
    }

    ghost predicate Authorised(p: Principal, rq: CreateRequest)
      requires rq.permissions != []
      reads this
    {
      match p
      case UserPrincipal(sysadmin, projectAdmin) =>
        sysadmin || (rq.level != "system" && rq.permissions[0].namespace in projectAdmin)
      case RobotPrincipal(id) =>
        && id in robots
        && RobotMay(robots[id].permissions, rq)
    }

    /** newRobotLocked. */
    method NewRobot(rq: CreateRequest, now: int, creator: Option<nat>) returns (robot: Robot)
      requires Valid() && rq.permissions != [] && MatchesPattern(rq.name) && !NameTaken(prefix, robots, rq)
      requires rq.level == "system" || rq.level == "project"
      requires creator.Some? ==>
                 creator.value in robots && ScopeCovered(robots[creator.value].permissions, rq.permissions)
      modifies this
      ensures Valid()
      ensures robot.id == old(nextID) && robot.name == NameOf(prefix, rq.level, rq.permissions, rq.name)
      ensures robot.created == now && robot.duration == rq.duration && robot.level == rq.level
              && robot.disable == rq.disable && robot.permissions == rq.permissions && robot.creator == creator
              && robot.expiresAt == (if rq.duration > 0 then ExpiresAt(now, rq.duration) else -1)
      ensures robot.id !in old(robots) && robots == old(robots)[robot.id := robot] && nextID == old(nextID) + 1
      ensures born == old(born)[robot.id := Birth(rq.permissions, creator)] && projects == old(projects)
    {
      var full := if rq.level == "project" then prefix + rq.permissions[0].namespace + "+" + rq.name
                  else prefix + rq.name;
      var expires := if rq.duration > 0 then ExpiresAt(now, rq.duration) else -1;
      robot := Robot(nextID, full, rq.level, rq.duration, expires, now, rq.disable, rq.permissions, creator);
      PatternIsUnqualified(rq.name);
      assert ProperlyNamed(prefix, robot);
      AddedRobotOk(prefix, robots, born, nextID, robot);
      born := born[nextID := Birth(rq.permissions, creator)];
      robots := robots[nextID := robot];
      nextID := nextID + 1;
    }

    /** POST /robots of an authenticated caller. */
    method RobotsCreate(p: Principal, rq: CreateRequest, now: int) returns (answer: Answer)
      requires Valid() && (p.RobotPrincipal? ==> p.id in robots)
      modifies this
      ensures Valid() && projects == old(projects)
      ensures answer.Created? <==>
                PassesValidation(rq, old(projects)) && old(Authorised(p, rq)) && !NameTaken(prefix, old(robots), rq)
      ensures answer == Refused(400) <==> !PassesValidation(rq, old(projects))
      ensures answer == Refused(403) <==> PassesValidation(rq, old(projects)) && !old(Authorised(p, rq))
      ensures answer.Created? && p.UserPrincipal? ==>
                p.sysadmin || (rq.level == "project" && rq.permissions[0].namespace in p.projectAdmin)
      ensures answer.Created? && p.RobotPrincipal? ==>
                var own := old(robots)[p.id].permissions;
                && ScopeCovered(own, rq.permissions)
                && (forall t :: 0 <= t < |rq.permissions| ==> Grants(own, rq.permissions[t], "robot", "create"))
                && (rq.level == "system" ==> Grants(own, SYSTEM_SCOPE, "robot", "create"))
      ensures answer == Refused(403) && p.UserPrincipal? ==>
                !p.sysadmin && (rq.level == "system" || rq.permissions[0].namespace !in p.projectAdmin)
      ensures answer == Refused(403) && p.RobotPrincipal? ==>
                var own := old(robots)[p.id].permissions;
                || !ScopeCovered(own, rq.permissions)
                || (exists t :: 0 <= t < |rq.permissions| && !Grants(own, rq.permissions[t], "robot", "create"))
                || (rq.level == "system" && !Grants(own, SYSTEM_SCOPE, "robot", "create"))
      ensures answer == Refused(409) <==>
                PassesValidation(rq, old(projects)) && old(Authorised(p, rq)) && NameTaken(prefix, old(robots), rq)
      ensures answer.Created? ==>
                && answer.robot.id !in old(robots) && robots == old(robots)[answer.robot.id := answer.robot]
                && answer.robot.name == NameOf(prefix, rq.level, rq.permissions, rq.name)
                && answer.robot.permissions == rq.permissions
                && answer.robot.creator == (if p.RobotPrincipal? then Some(p.id) else None)
                && answer.robot.expiresAt == (if rq.duration > 0 then ExpiresAt(now, rq.duration) else -1)
      ensures answer.Refused? ==> robots == old(robots) && born == old(born)
    {
      var ok := Validate(rq, projects);
      if !ok {
        return Refused(400);
      }
      match p {
        case UserPrincipal(sysadmin, projectAdmin) =>
          if !sysadmin && (rq.level == "system" || rq.permissions[0].namespace !in projectAdmin) {
            return Refused(403);
          }
        case RobotPrincipal(id) =>
          var creator := robots[id].permissions;
          if rq.level == "system" {
            ok := Holds(creator, SYSTEM_SCOPE, "robot", "create");
            if !ok {
              return Refused(403);
            }
          }
          ok := HasAccess(creator, "robot", "create", rq.permissions);
          if !ok {
            return Refused(403);
          }
          ok := ScopeCovers(creator, rq.permissions);
          if !ok {
            return Refused(403);
          }
      }
      if NameTaken(prefix, robots, rq) {
        return Refused(409);
      }
      var robot := NewRobot(rq, now, if p.RobotPrincipal? then Some(p.id) else None);
      return Created(robot);
    }

    /** The scope a caller needs a robot permission in to touch this robot. */
    function TargetOf(robot: Robot): (target: Permission)
      ensures if robot.level == "project" && robot.permissions != []
              then target.kind == "project" && target.namespace == robot.permissions[0].namespace
              else target.kind == "system"
    {
      if robot.level == "project" && robot.permissions != []
      then Permission("project", robot.permissions[0].namespace, [])
      else SYSTEM_SCOPE
    }

    /** PUT /robots/{id}; 0 is success. Robots may not update robots. */
    method RobotPut(p: Principal, id: nat, rq: Robot) returns (refused: nat)
      requires Valid() && (p.RobotPrincipal? ==> p.id in robots)
      modifies this`robots
      ensures refused == 404 <==> id !in old(robots)
      ensures refused == 403 <==> id in old(robots) && p.RobotPrincipal?
      ensures refused == 0 <==> id in old(robots) && p.UserPrincipal? && rq.level == old(robots)[id].level
                                && rq.name == old(robots)[id].name && (rq.duration == -1 || rq.duration > 0)
      ensures refused != 0 ==> robots == old(robots) && refused in {400, 403, 404}
      ensures refused == 0 ==>
                && id in robots && robots == old(robots)[id := robots[id]]
                && robots[id].duration == rq.duration
                && robots[id].expiresAt == (if rq.duration == old(robots)[id].duration then old(robots)[id].expiresAt
                                            else if rq.duration == -1 then -1
                                            else ExpiresAt(old(robots)[id].created, rq.duration))
                && robots[id].created == old(robots)[id].created && robots[id].creator == old(robots)[id].creator
                && robots[id].name == rq.name && robots[id].level == rq.level && robots[id].disable == rq.disable
                && robots[id].permissions
                   == (if rq.permissions == [] then old(robots)[id].permissions else rq.permissions)
      ensures rq.permissions == [] || (id in old(robots) && rq.permissions == old(robots)[id].permissions) ==> Valid()
    {
      if id !in robots {
        return 404;
      }
      if p.RobotPrincipal? {
        return 403;
      }
      var robot := robots[id];
      if rq.level != robot.level || rq.name != robot.name || (rq.duration != -1 && rq.duration <= 0) {
        return 400;
      }
      if rq.duration != robot.duration {
        var expires := if rq.duration == -1 then -1 else ExpiresAt(robot.created, rq.duration);
        robot := robot.(duration := rq.duration, expiresAt := expires);
      }
      robot := robot.(disable := rq.disable);
      if |rq.permissions| > 0 {
        robot := robot.(permissions := rq.permissions);
      }
      if robot.permissions == robots[id].permissions {
        UpdatedRobotOk(prefix, robots, born, nextID, id, robot);
      }
      robots := robots[id := robot];
      return 0;
    }

    /** DELETE /robots/{id}; 0 is success. */
    method RobotDelete(p: Principal, id: nat) returns (refused: nat)
      requires Valid() && (p.RobotPrincipal? ==> p.id in robots)
      modifies this`robots
      ensures Valid()
      ensures refused == 404 <==> id !in old(robots)
      ensures refused == 0 ==> robots == old(robots) - {id}
      ensures refused != 0 ==> robots == old(robots) && refused in {403, 404}
      ensures refused == 0 <==>
                id in old(robots)
                && (p.RobotPrincipal? ==>
                      Grants(old(robots)[p.id].permissions, TargetOf(old(robots)[id]), "robot", "delete"))
    {
      if id !in robots {
        return 404;
      }
      if p.RobotPrincipal? {
        var ok := Holds(robots[p.id].permissions, TargetOf(robots[id]), "robot", "delete");
        if !ok {
          return 403;
        }
      }
      robots := robots - {id};
      return 0;
    }
  }
}
