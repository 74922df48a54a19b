/** Robots, WAL entries and leases under concurrency and crashes (internal/backend/path_creds.go,
    secretRobotRevoke in internal/backend/secret_robot.go). Any number of creds reads, rollbacks and
    revocations run at once, other clients create and delete robots, renewals change expiries, and the
    process may crash between any two actions; each action is one call to storage or Harbor. */
module Issuance {
  import opened Common
  import opened Duration
  import opened ShortNames
  import opened HarborServer
  import opened RobotLookup

  type Tid = nat

  /** walRobot: what is logged before a robot is created. */
  datatype Wal = Wal(name: string, level: string, namespace: string)

  /** Where a call is. */
  datatype Pc =
    // creds read
    | Logged(w: nat, permissions: seq<Permission>)   // WAL entry written, about to create
    | CreateFailed(w: nat)                           // Harbor refused, about to drop the entry
    | Created(w: nat, id: nat)                       // robot exists, about to delete the entry
    | Cleanup(w: nat, id: nat)                       // entry not deleted, about to delete the robot
    | CleanupWal(w: nat, id: nat)                    // robot deleted, about to drop the entry
    | Unlogged(w: nat, id: nat)                      // entry deleted, response under way to Vault
    // rollback of one entry
    | Finding(w: nat)
    | Deleting(w: nat, id: nat)
    | Dropping(w: nat, sure: bool)                   // done, the framework drops the entry; sure: no listing overflowed
    // revocation of one lease
    | Revoking(l: nat, id: nat)
    | Revoked(l: nat, id: nat)                       // robot gone, Vault drops the lease

  datatype Shared = Shared(
    prefix: string,
    robots: map<nat, Robot>,     // Harbor
    nextID: nat,
    wal: set<nat>,               // live WAL entries
    logged: map<nat, Wal>,       // every entry ever written
    nextWal: nat,
    leases: map<nat, nat>,       // lease to robot id
    nextLease: nat,
    origin: map<nat, nat>,       // every robot the engine created, to its WAL entry
    gap: set<nat>,               // entry deleted, lease not registered (yet, or ever)
    stranded: set<nat>,          // left behind by a lost answer
    abandoned: set<nat>)         // left behind by a rollback without configuration or with an overfull listing

  datatype State = State(sh: Shared, calls: map<Tid, Pc>)

  datatype Action =
    | CreateRobot(reply: Reply, now: nat, days: nat)
    | DropAfterFailure(reply: Reply)
    | DeleteWal(reply: Reply)
    | DeleteOrphan(reply: Reply)
    | DropOrphanWal(reply: Reply)
    | RegisterLease
    | LoseResponse
    | FindRobot(found: bool, page: seq<Robot>)
    | DeleteFound(reply: Reply)
    | DropEntry(reply: Reply)
    | DeleteLeased(reply: Reply)
    | DropLease

  datatype Event =
    | PutWal(t: Tid, entry: Wal, permissions: seq<Permission>, reply: Reply)
    | StartRollback(t: Tid, w: nat, configured: bool)
    | StartRevoke(t: Tid, l: nat)
    | Act(t: Tid, action: Action)
    | Extend(id: nat, days: nat)
    | ForeignCreate(robot: Robot)
    | ForeignDelete(id: nat)
    | ProcessCrash

  // ---- effects ----

  /** DELETE /robots/{id}: a 404 counts as success. */
  predicate DeleteSucceeds(reply: Reply) {
    reply == Answer || reply == Refuse(NotFound)
  }

  function DeleteEffect(robots: map<nat, Robot>, id: nat, reply: Reply): map<nat, Robot> {
    if reply.Refuse? then robots else robots - {id}
  }

  function DropWal(wal: set<nat>, w: nat, reply: Reply): set<nat> {
    if reply.Refuse? then wal else wal - {w}
  }

  function RobotsOf(sh: Shared, w: nat): set<nat> {
    set id | id in sh.origin && sh.origin[id] == w && id in sh.robots
  }

  function NewRobot(sh: Shared, entry: Wal, permissions: seq<Permission>, now: nat, days: nat): Robot {
    var name := NameOf(sh.prefix, entry.level, permissions, entry.name);
    Robot(sh.nextID, name, entry.level, days, ExpiresAt(now, days), now, false, permissions, None)
  }

  function WithRobot(sh: Shared, w: nat, robot: Robot): Shared {
    sh.(robots := sh.robots[sh.nextID := robot], origin := sh.origin[sh.nextID := w], nextID := sh.nextID + 1)
  }

  /** No more robots match the query for entry w than one listing page holds. */
  predicate PageFits(sh: Shared, w: nat)
    requires w in sh.logged
  {
    |MatchingIds(sh.robots, sh.logged[w].level, sh.logged[w].namespace, sh.logged[w].name)| <= PAGE_SIZE
  }

  predicate Can(sh: Shared, pc: Pc, a: Action) {
    match a
    case CreateRobot(_, _, days) => pc.Logged? && pc.w in sh.logged && days >= 1
    case DropAfterFailure(_) => pc.CreateFailed?
    case DeleteWal(_) => pc.Created?
    case DeleteOrphan(_) => pc.Cleanup?
    case DropOrphanWal(_) => pc.CleanupWal?
    case RegisterLease => pc.Unlogged?
    case LoseResponse => pc.Unlogged?
    case FindRobot(_, _) => pc.Finding? && pc.w in sh.logged
    case DeleteFound(_) => pc.Deleting?
    case DropEntry(_) => pc.Dropping?
    case DeleteLeased(_) => pc.Revoking?
    case DropLease => pc.Revoked?
  }

  /** A listing answer shows a page of Harbor's robots, and a 404 means that there is no such robot. */
  ghost predicate Truthful(sh: Shared, pc: Pc, a: Action)
    requires Can(sh, pc, a)
  {
    && (a.FindRobot? && a.found ==>
          var entry := sh.logged[pc.w]; IsPage(sh.robots, entry.level, entry.namespace, entry.name, a.page))
    && ((a.DeleteOrphan? || a.DeleteFound? || a.DeleteLeased?) && a.reply == Refuse(NotFound) ==> pc.id !in sh.robots)
  }

  function Do(sh: Shared, pc: Pc, a: Action): (Shared, Option<Pc>)
    requires Can(sh, pc, a)
  {
    match a
    case CreateRobot(reply, now, days) =>
      if reply.Refuse? then (sh, Some(CreateFailed(pc.w)))
      else
        (WithRobot(sh, pc.w, NewRobot(sh, sh.logged[pc.w], pc.permissions, now, days)),
         Some(if reply == Answer then Pc.Created(pc.w, sh.nextID) else CreateFailed(pc.w)))
    case DropAfterFailure(reply) =>
      (sh.(wal := DropWal(sh.wal, pc.w, reply), 
           stranded := if reply.Refuse? then sh.stranded else sh.stranded + RobotsOf(sh, pc.w)), None)
    case DeleteWal(reply) =>
      if reply == Answer then (sh.(wal := sh.wal - {pc.w}, gap := sh.gap + {pc.id}), Some(Unlogged(pc.w, pc.id)))
      else (sh.(wal := DropWal(sh.wal, pc.w, reply),
                stranded := if reply.LostAnswer? then sh.stranded + {pc.id} else sh.stranded),
            Some(Cleanup(pc.w, pc.id)))
    case DeleteOrphan(reply) =>
      (sh.(robots := DeleteEffect(sh.robots, pc.id, reply)),
       if DeleteSucceeds(reply) then Some(CleanupWal(pc.w, pc.id)) else None)
    case DropOrphanWal(reply) => (sh.(wal := DropWal(sh.wal, pc.w, reply)), None)
    case RegisterLease =>
      (Registered(sh, pc.id), None)
    case LoseResponse => (sh, None)
    case FindRobot(found, page) =>
      if !found then (sh, None)
      else
        var entry := sh.logged[pc.w];
        var robot := FirstMatch(page, entry.name);
        (sh, Some(if robot.Some? then Deleting(pc.w, robot.value.id)
                  else Dropping(pc.w, PageFits(sh, pc.w))))
    case DeleteFound(reply) =>
      (sh.(robots := DeleteEffect(sh.robots, pc.id, reply)),
       if DeleteSucceeds(reply) then Some(Dropping(pc.w, true)) else None)
    case DropEntry(reply) =>
      (sh.(wal := DropWal(sh.wal, pc.w, reply), 
           abandoned := if reply.Refuse? then sh.abandoned else sh.abandoned + RobotsOf(sh, pc.w)), None)
    case DeleteLeased(reply) =>
      (sh.(robots := DeleteEffect(sh.robots, pc.id, reply)),
       if DeleteSucceeds(reply) then Some(Revoked(pc.l, pc.id)) else None)
    case DropLease => (sh.(leases := sh.leases - {pc.l}), None)
  }

  // ---- steps ----

  /** The call works on the WAL entry pc.w, as its own request or as its rollback. */
  predicate HasEntry(pc: Pc) {
    !pc.Revoking? && !pc.Revoked?
  }

  ghost predicate Enabled(s: State, e: Event) {
    match e
    case ProcessCrash => true
    case PutWal(t, entry, permissions, _) =>
      && t !in s.calls && NoQualifier(entry.name)
      && (entry.level == "system" || entry.level == "project") && permissions != []
      && (entry.level == "project" ==> permissions[0].namespace == entry.namespace)
      && (forall w :: w in s.sh.logged ==> s.sh.logged[w].name != entry.name)
      && (forall id :: id in s.sh.robots ==> ShortName(s.sh.robots[id].name) != entry.name)
    case StartRollback(t, w, _) =>
      t !in s.calls && w in s.sh.wal && forall u :: u in s.calls && HasEntry(s.calls[u]) ==> s.calls[u].w != w
    case StartRevoke(t, l) => t !in s.calls && l in s.sh.leases
    case Act(t, a) => t in s.calls && Can(s.sh, s.calls[t], a) && Truthful(s.sh, s.calls[t], a)
    case Extend(id, days) => id in s.sh.robots && days >= 1
    case ForeignCreate(robot) =>
      && robot.id == s.sh.nextID && ProperlyNamed(s.sh.prefix, robot)
      && (forall id :: id in s.sh.robots ==> s.sh.robots[id].name != robot.name)
      && (forall w :: w in s.sh.logged ==> ShortName(robot.name) != s.sh.logged[w].name)
    case ForeignDelete(_) => true
  }

  function After(calls: map<Tid, Pc>, t: Tid, pc: Option<Pc>): map<Tid, Pc> {
    if pc.Some? then calls[t := pc.value] else calls - {t}
  }

  function Extended(robot: Robot, days: nat): Robot {
    robot.(duration := days, expiresAt := ExpiresAt(robot.created, days))
  }

  ghost function Apply(s: State, e: Event): State
    requires Enabled(s, e)
  {
    var sh := s.sh;
    match e
    case ProcessCrash => State(sh, map[])
    case PutWal(t, entry, permissions, reply) =>
      if reply.Refuse? then s
      else State(WithEntry(sh, entry),
                 if reply == Answer then s.calls[t := Logged(sh.nextWal, permissions)] else s.calls)
    case StartRollback(t, w, configured) =>
      if configured then State(sh, s.calls[t := Finding(w)])
      else State(sh.(wal := sh.wal - {w}, abandoned := sh.abandoned + RobotsOf(sh, w)), s.calls)
    case StartRevoke(t, l) => State(sh, s.calls[t := Revoking(l, sh.leases[l])])
    case Act(t, a) => var (sh', pc) := Do(sh, s.calls[t], a); State(sh', After(s.calls, t, pc))
    case Extend(id, days) => State(sh.(robots := sh.robots[id := Extended(sh.robots[id], days)]), s.calls)
    case ForeignCreate(robot) => State(sh.(robots := sh.robots[sh.nextID := robot], nextID := sh.nextID + 1), s.calls)
    case ForeignDelete(id) => State(sh.(robots := sh.robots - {id}), s.calls)
  }

  // ---- invariant ----

  predicate Leased(leases: map<nat, nat>, id: nat) {
    exists l :: l in leases && leases[l] == id
  }

  /** Robots carry the names they were created with: the engine's own the logged one, in the logged
      scope; all others never a logged one. */
  ghost predicate RobotNames(sh: Shared) {
    && NamesOk(sh.prefix, sh.robots) && Readable(sh.prefix, "system")
    && (forall id :: id in sh.robots && id in sh.origin && sh.origin[id] in sh.logged ==>
          var entry := sh.logged[sh.origin[id]];
          InScope(sh.robots[id], entry.level, entry.namespace)
          && sh.robots[id].name == FullName(sh.prefix, entry.level, entry.namespace, entry.name))
    && (forall id, w :: id in sh.robots && id !in sh.origin && w in sh.logged ==>
          ShortName(sh.robots[id].name) != sh.logged[w].name)
  }

  ghost predicate Numbering(sh: Shared) {
    && (forall id :: id in sh.robots || id in sh.origin ==> id < sh.nextID)
    && (forall w :: w in sh.logged ==> w < sh.nextWal && NoQualifier(sh.logged[w].name))
    && (forall v, w :: v in sh.logged && w in sh.logged && sh.logged[v].name == sh.logged[w].name ==> v == w)
    && sh.wal <= sh.logged.Keys
    && (forall id :: id in sh.origin ==> sh.origin[id] in sh.logged)
    && (forall i, j :: i in sh.origin && j in sh.origin && sh.origin[i] == sh.origin[j] ==> i == j)
    && (forall l :: l in sh.leases ==> l < sh.nextLease && sh.leases[l] in sh.origin)
  }

  /** A live WAL entry means that no lease was issued, and none is being issued, for its robot. */
  predicate EntryMeansNoLease(sh: Shared) {
    && (forall l :: l in sh.leases ==> sh.leases[l] in sh.origin && sh.origin[sh.leases[l]] !in sh.wal)
    && (forall id :: id in sh.gap ==> id in sh.origin && sh.origin[id] !in sh.wal)
  }

  /** Every robot the engine created and that still exists is accounted for, and expires. */
  predicate Covered(sh: Shared, id: nat)
    requires id in sh.origin
  {
    Leased(sh.leases, id) || sh.origin[id] in sh.wal || id in sh.gap || id in sh.stranded || id in sh.abandoned
  }

  predicate OrphansCovered(sh: Shared) {
    forall id :: id in sh.origin && id in sh.robots ==>
      Covered(sh, id) && sh.robots[id].expiresAt > 0 && sh.robots[id].created >= 0
  }

  /** What a call knows. */
  predicate CallOk(sh: Shared, pc: Pc) {
    match pc
    case Logged(w, permissions) =>
      && w in sh.wal && w in sh.logged && (forall id :: id in sh.origin ==> sh.origin[id] != w)
      && permissions != [] && (sh.logged[w].level == "project" ==> permissions[0].namespace == sh.logged[w].namespace)
      && (sh.logged[w].level == "system" || sh.logged[w].level == "project")
      && (forall id :: id in sh.robots ==> ShortName(sh.robots[id].name) != sh.logged[w].name)
    case CreateFailed(w) => w in sh.wal
    case Created(w, id) => w in sh.wal && id in sh.origin && sh.origin[id] == w
    case Cleanup(w, id) =>
      && id in sh.origin && sh.origin[id] == w && !Leased(sh.leases, id) && id !in sh.gap
      && (w in sh.wal || id in sh.stranded)
    case CleanupWal(w, id) =>
      id in sh.origin && sh.origin[id] == w && id !in sh.robots && !Leased(sh.leases, id) && id !in sh.gap
    case Unlogged(w, id) => id in sh.origin && sh.origin[id] == w && w !in sh.wal && id in sh.gap
    case Finding(w) => w in sh.wal
    case Deleting(w, id) => w in sh.wal && id in sh.origin && sh.origin[id] == w
    case Dropping(w, sure) =>
      w in sh.wal && (sure ==> forall id :: id in sh.origin && id in sh.robots ==> sh.origin[id] != w)
    case Revoking(l, id) =>
      l < sh.nextLease && id in sh.origin && (if l in sh.leases then sh.leases[l] == id else id !in sh.robots)
    case Revoked(l, id) =>
      l < sh.nextLease && id in sh.origin && id !in sh.robots && (l in sh.leases ==> sh.leases[l] == id)
  }

  /** No two calls work on the same WAL entry. */
  predicate OneHandler(calls: map<Tid, Pc>) {
    forall t, u :: t in calls && u in calls && t != u && HasEntry(calls[t]) && HasEntry(calls[u]) ==>
      calls[t].w != calls[u].w
  }

  predicate CallsOk(s: State) {
    forall t :: t in s.calls ==> CallOk(s.sh, s.calls[t])
  }

  ghost predicate SharedOk(sh: Shared) {
    RobotNames(sh) && Numbering(sh) && EntryMeansNoLease(sh) && OrphansCovered(sh)
  }

  ghost predicate Inv(s: State) {
    SharedOk(s.sh) && OneHandler(s.calls) && CallsOk(s)
  }

  ghost predicate Init(s: State) {
    && NamesOk(s.sh.prefix, s.sh.robots) && Readable(s.sh.prefix, "system")
    && (forall id :: id in s.sh.robots ==> id < s.sh.nextID)
    && s.sh.wal == {} && s.sh.logged == map[] && s.sh.leases == map[] && s.sh.origin == map[]
    && s.sh.gap == {} && s.sh.stranded == {} && s.sh.abandoned == {}
    && s.calls == map[]
  }

  lemma InitHolds(s: State)
    requires Init(s)
    ensures Inv(s)
  {
  }

  // ---- names ----

  /** Every level's names can be read back. */
  lemma ReadsBack(sh: Shared, level: string, namespace: string, short: string)
    requires Readable(sh.prefix, "system") && NoQualifier(short)
    ensures ShortName(FullName(sh.prefix, level, namespace, short)) == short
  {
    ShortNameInvertsExactly(sh.prefix, level, namespace, short);
  }

  /** The engine's robots read back as their logged names. */
  lemma OwnName(sh: Shared, id: nat)
    requires RobotNames(sh) && Numbering(sh) && id in sh.robots && id in sh.origin
    ensures ShortName(sh.robots[id].name) == sh.logged[sh.origin[id]].name
  {
    var entry := sh.logged[sh.origin[id]];
    ReadsBack(sh, entry.level, entry.namespace, entry.name);
  }

  /** What a rollback finds is the robot of its entry and nothing else. */
  lemma FoundRobotIsOwn(sh: Shared, w: nat, page: seq<Robot>)
    requires RobotNames(sh) && Numbering(sh) && w in sh.logged
    requires var entry := sh.logged[w]; IsPage(sh.robots, entry.level, entry.namespace, entry.name, page)
    ensures var found := FirstMatch(page, sh.logged[w].name);
            && (found.Some? ==>
                  found.value.id in sh.robots && found.value.id in sh.origin && sh.origin[found.value.id] == w)
            && (found.None? && PageFits(sh, w) ==>
                  forall id :: id in sh.origin && id in sh.robots ==> sh.origin[id] != w)
  {
    var entry := sh.logged[w];
    var found := FirstMatch(page, entry.name);
    assert Readable(sh.prefix, entry.level);
    LookupInvertsNaming(sh.prefix, sh.robots, entry.level, entry.namespace, entry.name, page);
    if found.Some? {
      var id := found.value.id;
      assert ShortName(sh.robots[id].name) == entry.name;
      assert id in sh.origin;
      OwnName(sh, id);
    }
  }

  // ---- what each kind of effect keeps ----

  lemma AddKeepsNamesOk(prefix: string, robots: map<nat, Robot>, robot: Robot)
    requires NamesOk(prefix, robots) && robot.id !in robots && ProperlyNamed(prefix, robot)
    requires forall id :: id in robots ==> robots[id].name != robot.name
    ensures NamesOk(prefix, robots[robot.id := robot])
  {
  }

  /** The robot a logged request creates. */
  lemma NewRobotIsNamed(sh: Shared, w: nat, permissions: seq<Permission>, now: nat, days: nat)
    requires SharedOk(sh) && CallOk(sh, Logged(w, permissions)) && days >= 1
    ensures var entry := sh.logged[w];
            var robot := NewRobot(sh, entry, permissions, now, days);
            && robot.id == sh.nextID && sh.nextID !in sh.robots && sh.nextID !in sh.origin
            && ProperlyNamed(sh.prefix, robot) && InScope(robot, entry.level, entry.namespace)
            && robot.name == FullName(sh.prefix, entry.level, entry.namespace, entry.name)
            && ShortName(robot.name) == entry.name
            && (forall id :: id in sh.robots ==> sh.robots[id].name != robot.name)
            && robot.expiresAt > 0
  {
    var entry := sh.logged[w];
    var robot := NewRobot(sh, entry, permissions, now, days);
    ReadsBack(sh, entry.level, entry.namespace, entry.name);
    assert NoQualifier(entry.name) && robot.name == NameOf(sh.prefix, robot.level, robot.permissions, entry.name);
  }

  lemma CreateKeepsNames(sh: Shared, w: nat, robot: Robot)
    requires RobotNames(sh) && robot.id == sh.nextID && sh.nextID !in sh.robots && sh.nextID !in sh.origin
    requires w in sh.logged && InScope(robot, sh.logged[w].level, sh.logged[w].namespace)
    requires robot.name == FullName(sh.prefix, sh.logged[w].level, sh.logged[w].namespace, sh.logged[w].name)
    requires NamesOk(sh.prefix, sh.robots[sh.nextID := robot])
    ensures RobotNames(WithRobot(sh, w, robot))
  {
    var sh' := WithRobot(sh, w, robot);
    forall id, v | id in sh'.robots && id !in sh'.origin && v in sh'.logged
      ensures ShortName(sh'.robots[id].name) != sh'.logged[v].name
    {
      assert id in sh.robots && id !in sh.origin;
    }
  }

  lemma CreateKeepsNumbering(sh: Shared, w: nat, robot: Robot)
    requires Numbering(sh) && w in sh.logged && (forall id :: id in sh.origin ==> sh.origin[id] != w)
    ensures Numbering(WithRobot(sh, w, robot))
  {
  }

  lemma CreateKeepsShared(sh: Shared, w: nat, permissions: seq<Permission>, now: nat, days: nat)
    requires SharedOk(sh) && CallOk(sh, Logged(w, permissions)) && days >= 1
    ensures SharedOk(WithRobot(sh, w, NewRobot(sh, sh.logged[w], permissions, now, days)))
  {
    NewRobotIsNamed(sh, w, permissions, now, days);
    NamedRobotKeepsShared(sh, w, NewRobot(sh, sh.logged[w], permissions, now, days));
  }

  lemma NamedRobotKeepsShared(sh: Shared, w: nat, robot: Robot)
    requires SharedOk(sh) && w in sh.wal && w in sh.logged && (forall id :: id in sh.origin ==> sh.origin[id] != w)
    requires robot.id == sh.nextID && sh.nextID !in sh.robots && sh.nextID !in sh.origin
    requires ProperlyNamed(sh.prefix, robot) && InScope(robot, sh.logged[w].level, sh.logged[w].namespace)
    requires robot.name == FullName(sh.prefix, sh.logged[w].level, sh.logged[w].namespace, sh.logged[w].name)
    requires forall id :: id in sh.robots ==> sh.robots[id].name != robot.name
    requires robot.expiresAt > 0 && robot.created >= 0
    ensures SharedOk(WithRobot(sh, w, robot))
  {
    AddKeepsNamesOk(sh.prefix, sh.robots, robot);
    CreateKeepsNames(sh, w, robot);
    CreateKeepsNumbering(sh, w, robot);
    CreateKeepsCoverage(sh, w, robot);
    CreateKeepsEntries(sh, w, robot);
  }

  lemma CreateKeepsEntries(sh: Shared, w: nat, robot: Robot)
    requires Numbering(sh) && EntryMeansNoLease(sh) && sh.nextID !in sh.origin
    ensures EntryMeansNoLease(WithRobot(sh, w, robot))
  {
  }

  lemma CreateKeepsCoverage(sh: Shared, w: nat, robot: Robot)
    requires SharedOk(sh) && w in sh.wal && robot.expiresAt > 0 && robot.created >= 0
    ensures OrphansCovered(WithRobot(sh, w, robot))
  {
    var sh' := WithRobot(sh, w, robot);
    forall id | id in sh'.origin && id in sh'.robots ensures Covered(sh', id) {
      if id != sh.nextID { assert Covered(sh, id); }
    }
  }

  lemma DeletionKeepsShared(sh: Shared, id: nat)
    requires SharedOk(sh)
    ensures SharedOk(sh.(robots := sh.robots - {id}))
  {
    var sh' := sh.(robots := sh.robots - {id});
    forall k | k in sh'.origin && k in sh'.robots ensures Covered(sh', k) { assert Covered(sh, k); }
  }

  /** Dropping entry w is safe when the robot it covered is accounted for some other way. */
  lemma DropKeepsShared(sh: Shared, w: nat, gap: set<nat>, stranded: set<nat>, abandoned: set<nat>)
    requires SharedOk(sh)
    requires sh.gap <= gap && sh.stranded <= stranded && sh.abandoned <= abandoned
    requires forall id :: id in gap - sh.gap ==> id in sh.origin && sh.origin[id] == w
    requires forall id :: id in sh.origin && id in sh.robots && sh.origin[id] == w ==>
               id in gap || id in stranded || id in abandoned
    ensures SharedOk(sh.(wal := sh.wal - {w}, gap := gap, stranded := stranded, abandoned := abandoned))
  {
    var sh' := sh.(wal := sh.wal - {w}, gap := gap, stranded := stranded, abandoned := abandoned);
    forall id | id in sh'.origin && id in sh'.robots ensures Covered(sh', id) { assert Covered(sh, id); }
  }

  function Registered(sh: Shared, id: nat): Shared {
    sh.(leases := sh.leases[sh.nextLease := id], nextLease := sh.nextLease + 1, gap := sh.gap - {id})
  }

  lemma RegisterKeepsCoverage(sh: Shared, id: nat)
    requires OrphansCovered(sh) && Numbering(sh)
    ensures OrphansCovered(Registered(sh, id))
  {
    var sh' := Registered(sh, id);
    assert sh'.leases[sh.nextLease] == id;
    forall k | k in sh'.origin && k in sh'.robots ensures Covered(sh', k) {
      assert Covered(sh, k);
      if Leased(sh.leases, k) {
        var l :| l in sh.leases && sh.leases[l] == k;
        assert sh'.leases[l] == k;
      }
    }
  }

  lemma RegisterKeepsShared(sh: Shared, id: nat)
    requires SharedOk(sh) && id in sh.gap
    ensures SharedOk(Registered(sh, id))
  {
    RegisterKeepsCoverage(sh, id);
    var sh' := Registered(sh, id);
    assert RobotNames(sh');
    assert Numbering(sh');
  }

  lemma DropLeaseKeepsShared(sh: Shared, l: nat)
    requires SharedOk(sh) && (l in sh.leases ==> sh.leases[l] !in sh.robots)
    ensures SharedOk(sh.(leases := sh.leases - {l}))
  {
    var sh' := sh.(leases := sh.leases - {l});
    forall k | k in sh'.origin && k in sh'.robots ensures Covered(sh', k) {
      assert Covered(sh, k);
      if Leased(sh.leases, k) {
        var m :| m in sh.leases && sh.leases[m] == k;
        assert m in sh'.leases && sh'.leases[m] == k;
      }
    }
  }

  // ---- every action keeps the invariant ----

  lemma DropsKeepShared(sh: Shared, pc: Pc, a: Action)
    requires SharedOk(sh) && CallOk(sh, pc) && Can(sh, pc, a)
    requires a.DropAfterFailure? || a.DropOrphanWal? || a.DropEntry?
    ensures SharedOk(Do(sh, pc, a).0)
  {
    var sh' := Do(sh, pc, a).0;
    if a.reply.Refuse? {
      assert sh' == sh;
    } else {
      DropKeepsShared(sh, pc.w, sh.gap, sh'.stranded, sh'.abandoned);
    }
  }

  lemma DeleteWalKeepsShared(sh: Shared, pc: Pc, a: Action)
    requires SharedOk(sh) && CallOk(sh, pc) && Can(sh, pc, a) && a.DeleteWal?
    ensures SharedOk(Do(sh, pc, a).0)
  {
    var sh' := Do(sh, pc, a).0;
    if a.reply.Refuse? {
      assert sh' == sh;
    } else {
      DropKeepsShared(sh, pc.w, sh'.gap, sh'.stranded, sh.abandoned);
    }
  }

  lemma DeletesKeepShared(sh: Shared, pc: Pc, a: Action)
    requires SharedOk(sh) && CallOk(sh, pc) && Can(sh, pc, a)
    requires a.DeleteOrphan? || a.DeleteFound? || a.DeleteLeased?
    ensures SharedOk(Do(sh, pc, a).0)
  {
    var sh' := Do(sh, pc, a).0;
    if a.reply.Refuse? {
      assert sh' == sh;
    } else {
      DeletionKeepsShared(sh, pc.id);
    }
  }

  lemma ActionKeepsShared(sh: Shared, pc: Pc, a: Action)
    requires SharedOk(sh) && CallOk(sh, pc) && Can(sh, pc, a)
    ensures SharedOk(Do(sh, pc, a).0)
  {
    if a.DropAfterFailure? || a.DropOrphanWal? || a.DropEntry? {
      DropsKeepShared(sh, pc, a);
    } else if a.DeleteWal? {
      DeleteWalKeepsShared(sh, pc, a);
    } else if a.DeleteOrphan? || a.DeleteFound? || a.DeleteLeased? {
      DeletesKeepShared(sh, pc, a);
    } else {
      match a {
        case CreateRobot(reply, now, days) =>
          CreateKeepsShared(sh, pc.w, pc.permissions, now, days);
        case RegisterLease => RegisterKeepsShared(sh, pc.id);
        case DropLease => DropLeaseKeepsShared(sh, pc.l);
        case _ =>
      }
    }
  }

  /** The acting call stays in order. */
  lemma ActorStaysOk(sh: Shared, pc: Pc, a: Action)
    requires SharedOk(sh) && CallOk(sh, pc) && Can(sh, pc, a) && Truthful(sh, pc, a)
    ensures var (sh', pc') := Do(sh, pc, a); pc'.Some? ==> CallOk(sh', pc'.value)
  {
    if a.FindRobot? && a.found {
      FoundRobotIsOwn(sh, pc.w, a.page);
    } else if a.CreateRobot? || a.DeleteWal? {
      WalActorStaysOk(sh, pc, a);
    }
  }

  lemma WalActorStaysOk(sh: Shared, pc: Pc, a: Action)
    requires Numbering(sh) && EntryMeansNoLease(sh) && CallOk(sh, pc) && Can(sh, pc, a)
    requires a.CreateRobot? || a.DeleteWal?
    ensures var (sh', pc') := Do(sh, pc, a); pc'.Some? ==> CallOk(sh', pc'.value)
  {
  }

  lemma CreateKeepsCall(sh: Shared, w: nat, robot: Robot, other: Pc)
    requires Numbering(sh) && CallOk(sh, other) && w in sh.logged && ShortName(robot.name) == sh.logged[w].name
    requires sh.nextID !in sh.origin && sh.nextID !in sh.robots
    requires HasEntry(other) ==> w != other.w
    ensures CallOk(WithRobot(sh, w, robot), other)
  {
  }

  lemma LeasesKeepCall(sh: Shared, sh': Shared, id: nat, other: Pc)
    requires CallOk(sh, other) && Numbering(sh)
    requires sh' == sh.(leases := sh'.leases, nextLease := sh'.nextLease, gap := sh'.gap)
    requires sh.nextLease <= sh'.nextLease
    requires sh'.gap == sh.gap - {id} || sh'.gap == sh.gap
    requires forall l :: l in sh'.leases && l in sh.leases ==> sh'.leases[l] == sh.leases[l]
    requires forall l :: l in sh'.leases && l !in sh.leases ==> l >= sh.nextLease && sh'.leases[l] == id && id in sh.gap
    requires forall l :: l in sh.leases && l !in sh'.leases ==> sh.leases[l] !in sh.robots
    requires other.Unlogged? ==> id != other.id
    ensures CallOk(sh', other)
  {
    assert forall k :: Leased(sh'.leases, k) ==> Leased(sh.leases, k) || (k == id && id in sh.gap);
  }

  lemma OtherStaysOkAtLease(sh: Shared, pc: Pc, a: Action, other: Pc)
    requires Numbering(sh) && CallOk(sh, pc) && Can(sh, pc, a) && CallOk(sh, other)
    requires a.RegisterLease? || a.DropLease?
    requires HasEntry(pc) && HasEntry(other) ==> pc.w != other.w
    ensures CallOk(Do(sh, pc, a).0, other)
  {
    if a.RegisterLease? {
      LeasesKeepCall(sh, Do(sh, pc, a).0, pc.id, other);
    } else {
      LeasesKeepCall(sh, Do(sh, pc, a).0, sh.nextID, other);
    }
  }

  lemma DropKeepsCall(sh: Shared, w: nat, gap: set<nat>, stranded: set<nat>, abandoned: set<nat>, other: Pc)
    requires CallOk(sh, other) && (HasEntry(other) ==> w != other.w)
    requires sh.gap <= gap && sh.stranded <= stranded && sh.abandoned <= abandoned
    requires forall id :: id in gap - sh.gap ==> id in sh.origin && sh.origin[id] == w
    ensures CallOk(sh.(wal := sh.wal - {w}, gap := gap, stranded := stranded, abandoned := abandoned), other)
  {
  }

  lemma OtherStaysOkAtDrop(sh: Shared, pc: Pc, a: Action, other: Pc)
    requires CallOk(sh, pc) && Can(sh, pc, a) && CallOk(sh, other)
    requires a.DropAfterFailure? || a.DeleteWal? || a.DropOrphanWal? || a.DropEntry?
    requires HasEntry(other) ==> pc.w != other.w
    ensures CallOk(Do(sh, pc, a).0, other)
  {
    var sh' := Do(sh, pc, a).0;
    if a.reply.Refuse? {
      assert sh' == sh;
    } else {
      DropKeepsCall(sh, pc.w, sh'.gap, sh'.stranded, sh'.abandoned, other);
    }
  }

  lemma OtherStaysOkAtDelete(sh: Shared, id: nat, other: Pc)
    requires CallOk(sh, other)
    ensures CallOk(sh.(robots := sh.robots - {id}), other)
  {
  }

  /** So does every call that works on another entry or on a lease. */
  lemma OtherStaysOk(sh: Shared, pc: Pc, a: Action, other: Pc)
    requires SharedOk(sh) && CallOk(sh, pc) && Can(sh, pc, a) && CallOk(sh, other)
    requires HasEntry(pc) && HasEntry(other) ==> pc.w != other.w
    ensures CallOk(Do(sh, pc, a).0, other)
  {
    if a.CreateRobot? {
      var robot := NewRobot(sh, sh.logged[pc.w], pc.permissions, a.now, a.days);
      NewRobotIsNamed(sh, pc.w, pc.permissions, a.now, a.days);
      CreateKeepsCall(sh, pc.w, robot, other);
      assert Do(sh, pc, a).0 == sh || Do(sh, pc, a).0 == WithRobot(sh, pc.w, robot);
    } else if a.RegisterLease? || a.DropLease? {
      OtherStaysOkAtLease(sh, pc, a, other);
    } else if a.DropAfterFailure? || a.DeleteWal? || a.DropOrphanWal? || a.DropEntry? {
      OtherStaysOkAtDrop(sh, pc, a, other);
    } else {
      if a.DeleteOrphan? || a.DeleteFound? || a.DeleteLeased? {
        OtherStaysOkAtDelete(sh, pc.id, other);
      }
      assert Do(sh, pc, a).0 == sh || Do(sh, pc, a).0 == sh.(robots := sh.robots - {pc.id});
    }
  }

  // ---- every step keeps the invariant ----

  lemma ActKeepsInv(s: State, t: Tid, a: Action)
    requires Inv(s) && Enabled(s, Act(t, a))
    ensures Inv(Apply(s, Act(t, a)))
  {
    ActionKeepsShared(s.sh, s.calls[t], a);
    ActKeepsCalls(s, t, a);
    ActKeepsOneHandler(s, t, a);
  }

  lemma ActKeepsCalls(s: State, t: Tid, a: Action)
    requires Inv(s) && Enabled(s, Act(t, a))
    ensures CallsOk(Apply(s, Act(t, a)))
  {
    var s' := Apply(s, Act(t, a));
    forall u | u in s'.calls ensures CallOk(s'.sh, s'.calls[u]) {
      if u == t {
        ActorStaysOk(s.sh, s.calls[t], a);
      } else {
        OtherStaysOk(s.sh, s.calls[t], a, s.calls[u]);
      }
    }
  }

  lemma ActKeepsOneHandler(s: State, t: Tid, a: Action)
    requires OneHandler(s.calls) && Enabled(s, Act(t, a))
    ensures OneHandler(Apply(s, Act(t, a)).calls)
  {
    EntryIsKept(s.sh, s.calls[t], a);
  }

  lemma EntryIsKept(sh: Shared, pc: Pc, a: Action)
    requires Can(sh, pc, a)
    ensures var pc' := Do(sh, pc, a).1;
            pc'.Some? ==> (HasEntry(pc'.value) <==> HasEntry(pc)) && (HasEntry(pc) ==> pc'.value.w == pc.w)
  {
  }

  function WithEntry(sh: Shared, entry: Wal): Shared {
    sh.(wal := sh.wal + {sh.nextWal}, logged := sh.logged[sh.nextWal := entry], nextWal := sh.nextWal + 1)
  }

  lemma PutWalKeepsInv(s: State, e: Event)
    requires Inv(s) && Enabled(s, e) && e.PutWal?
    ensures Inv(Apply(s, e))
  {
    if !e.reply.Refuse? {
      PutWalKeepsShared(s.sh, e.entry, Apply(s, e).sh);
      PutWalKeepsCalls(s, e);
    }
  }

  lemma PutWalKeepsCalls(s: State, e: Event)
    requires Inv(s) && Enabled(s, e) && e.PutWal? && !e.reply.Refuse?
    ensures var s' := Apply(s, e); CallsOk(s') && OneHandler(s'.calls)
  {
    var s' := Apply(s, e);
    forall u | u in s.calls
      ensures CallOk(s'.sh, s.calls[u]) && (HasEntry(s.calls[u]) ==> s.calls[u].w < s.sh.nextWal)
    {
      PutWalKeepsCall(s.sh, e.entry, s'.sh, s.calls[u]);
    }
  }

  lemma PutWalKeepsShared(sh: Shared, entry: Wal, sh': Shared)
    requires SharedOk(sh) && NoQualifier(entry.name)
    requires forall w :: w in sh.logged ==> sh.logged[w].name != entry.name
    requires forall id :: id in sh.robots ==> ShortName(sh.robots[id].name) != entry.name
    requires sh' == WithEntry(sh, entry)
    ensures SharedOk(sh')
  {
    PutWalKeepsNames(sh, entry, sh');
    PutWalKeepsNumbering(sh, entry, sh');
    forall id | id in sh'.origin && id in sh'.robots ensures Covered(sh', id) { assert Covered(sh, id); }
  }

  lemma PutWalKeepsNames(sh: Shared, entry: Wal, sh': Shared)
    requires RobotNames(sh) && Numbering(sh)
    requires forall id :: id in sh.robots ==> ShortName(sh.robots[id].name) != entry.name
    requires sh' == WithEntry(sh, entry)
    ensures RobotNames(sh')
  {
    assert sh.nextWal !in sh.logged;
  }

  lemma PutWalKeepsNumbering(sh: Shared, entry: Wal, sh': Shared)
    requires Numbering(sh) && NoQualifier(entry.name)
    requires forall w :: w in sh.logged ==> sh.logged[w].name != entry.name
    requires sh' == WithEntry(sh, entry)
    ensures Numbering(sh')
  {
  }

  lemma PutWalKeepsCall(sh: Shared, entry: Wal, sh': Shared, pc: Pc)
    requires Numbering(sh) && EntryMeansNoLease(sh) && CallOk(sh, pc)
    requires sh' == WithEntry(sh, entry)
    ensures CallOk(sh', pc) && (HasEntry(pc) ==> pc.w < sh.nextWal)
  {
  }

  lemma RollbackStartKeepsInv(s: State, e: Event)
    requires Inv(s) && Enabled(s, e) && e.StartRollback?
    ensures Inv(Apply(s, e))
  {
    if !e.configured {
      DropKeepsShared(s.sh, e.w, s.sh.gap, s.sh.stranded, Apply(s, e).sh.abandoned);
    }
    RollbackStartKeepsCalls(s, e);
  }

  lemma RollbackStartKeepsCalls(s: State, e: Event)
    requires CallsOk(s) && OneHandler(s.calls) && Enabled(s, e) && e.StartRollback?
    ensures var s' := Apply(s, e); CallsOk(s') && OneHandler(s'.calls)
  {
    var s' := Apply(s, e);
    forall u | u in s.calls ensures CallOk(s'.sh, s.calls[u]) {
      if !e.configured {
        DropKeepsCall(s.sh, e.w, s.sh.gap, s.sh.stranded, s'.sh.abandoned, s.calls[u]);
      }
    }
  }

  lemma ExtendKeepsNames(sh: Shared, sh': Shared, id: nat, days: nat)
    requires RobotNames(sh) && id in sh.robots
    requires sh' == sh.(robots := sh.robots[id := Extended(sh.robots[id], days)])
    ensures RobotNames(sh')
  {
    var was := sh.robots[id];
    var short :| NoQualifier(short) && was.name == NameOf(sh.prefix, was.level, was.permissions, short);
    assert ProperlyNamed(sh.prefix, sh'.robots[id]);
  }

  lemma ExtendKeepsShared(sh: Shared, sh': Shared, id: nat, days: nat)
    requires SharedOk(sh) && id in sh.robots && days >= 1
    requires sh' == sh.(robots := sh.robots[id := Extended(sh.robots[id], days)])
    ensures SharedOk(sh')
  {
    ExtendKeepsNames(sh, sh', id, days);
    forall k | k in sh'.origin && k in sh'.robots ensures Covered(sh', k) { assert Covered(sh, k); }
  }

  lemma ForeignCreateKeepsNames(sh: Shared, sh': Shared, robot: Robot)
    requires RobotNames(sh) && NamesOk(sh.prefix, sh'.robots) && sh.nextID !in sh.origin
    requires forall w :: w in sh.logged ==> ShortName(robot.name) != sh.logged[w].name
    requires sh' == sh.(robots := sh.robots[sh.nextID := robot], nextID := sh.nextID + 1)
    ensures RobotNames(sh')
  {
  }

  lemma ForeignCreateKeepsRest(sh: Shared, sh': Shared, robot: Robot)
    requires Numbering(sh) && EntryMeansNoLease(sh) && OrphansCovered(sh)
    requires sh' == sh.(robots := sh.robots[sh.nextID := robot], nextID := sh.nextID + 1)
    ensures Numbering(sh') && EntryMeansNoLease(sh') && OrphansCovered(sh')
  {
    forall k | k in sh'.origin && k in sh'.robots ensures Covered(sh', k) { assert Covered(sh, k); }
  }

  lemma ForeignCreateKeepsShared(sh: Shared, sh': Shared, robot: Robot)
    requires SharedOk(sh) && robot.id == sh.nextID && ProperlyNamed(sh.prefix, robot)
    requires forall id :: id in sh.robots ==> sh.robots[id].name != robot.name
    requires forall w :: w in sh.logged ==> ShortName(robot.name) != sh.logged[w].name
    requires sh' == sh.(robots := sh.robots[sh.nextID := robot], nextID := sh.nextID + 1)
    ensures SharedOk(sh')
  {
    assert robot.id !in sh.robots && sh.nextID !in sh.origin;
    AddKeepsNamesOk(sh.prefix, sh.robots, robot);
    ForeignCreateKeepsNames(sh, sh', robot);
    ForeignCreateKeepsRest(sh, sh', robot);
  }

  lemma OutsideKeepsShared(s: State, e: Event)
    requires Inv(s) && Enabled(s, e) && (e.Extend? || e.ForeignCreate? || e.ForeignDelete?)
    ensures SharedOk(Apply(s, e).sh)
  {
    match e
    case Extend(id, days) => ExtendKeepsShared(s.sh, Apply(s, e).sh, id, days);
    case ForeignCreate(robot) => ForeignCreateKeepsShared(s.sh, Apply(s, e).sh, robot);
    case ForeignDelete(id) => DeletionKeepsShared(s.sh, id);
  }

  lemma OutsideKeepsInv(s: State, e: Event)
    requires Inv(s) && Enabled(s, e) && (e.Extend? || e.ForeignCreate? || e.ForeignDelete?)
    ensures Inv(Apply(s, e))
  {
    OutsideKeepsShared(s, e);
    var s' := Apply(s, e);
    forall u | u in s.calls ensures CallOk(s'.sh, s.calls[u]) {
      OutsideKeepsCall(s, e, s.calls[u]);
    }
  }

  lemma OutsideKeepsCall(s: State, e: Event, pc: Pc)
    requires Numbering(s.sh) && CallOk(s.sh, pc) && Enabled(s, e) && (e.Extend? || e.ForeignCreate? || e.ForeignDelete?)
    ensures CallOk(Apply(s, e).sh, pc)
  {
  }

  lemma RevokeStartKeepsInv(s: State, e: Event)
    requires Inv(s) && Enabled(s, e) && e.StartRevoke?
    ensures Inv(Apply(s, e))
  {
    RevokeStartKeepsCalls(s, e);
  }

  lemma RevokeStartKeepsCalls(s: State, e: Event)
    requires Numbering(s.sh) && CallsOk(s) && OneHandler(s.calls) && Enabled(s, e) && e.StartRevoke?
    ensures var s' := Apply(s, e); CallsOk(s') && OneHandler(s'.calls)
  {
  }

  lemma StepKeepsInv(s: State, e: Event)
    requires Inv(s) && Enabled(s, e)
    ensures Inv(Apply(s, e))
  {
    match e
    case PutWal(_, _, _, _) => PutWalKeepsInv(s, e);
    case StartRollback(_, _, _) => RollbackStartKeepsInv(s, e);
    case StartRevoke(_, _) => RevokeStartKeepsInv(s, e);
    case Act(t, a) => ActKeepsInv(s, t, a);
    case Extend(_, _) => OutsideKeepsInv(s, e);
    case ForeignCreate(_) => OutsideKeepsInv(s, e);
    case ForeignDelete(_) => OutsideKeepsInv(s, e);
    case ProcessCrash =>
  }

  // ---- runs ----

  ghost predicate Valid(s: State, events: seq<Event>)
    decreases |events|
  {
    events == [] || (Enabled(s, events[0]) && Valid(Apply(s, events[0]), events[1..]))
  }

  ghost function Run(s: State, events: seq<Event>): State
    requires Valid(s, events)
    decreases |events|
  {
    if events == [] then s else Run(Apply(s, events[0]), events[1..])
  }

  lemma RunAppend(s: State, events: seq<Event>, e: Event)
    requires Valid(s, events) && Enabled(Run(s, events), e)
    ensures Valid(s, events + [e]) && Run(s, events + [e]) == Apply(Run(s, events), e)
    decreases |events|
  {
    if events == [] {
      assert [e][1..] == [];
      assert Valid(Apply(s, e), []);
    } else {
      RunAppend(Apply(s, events[0]), events[1..], e);
      assert (events + [e])[1..] == events[1..] + [e];
    }
  }

  lemma {:induction false} RunKeepsInv(s: State, events: seq<Event>)
    requires Inv(s) && Valid(s, events)
    ensures Inv(Run(s, events))
    decreases |events|
  {
    if events != [] {
      StepKeepsInv(s, events[0]);
      RunKeepsInv(Apply(s, events[0]), events[1..]);
    }
  }

  /** A robot flagged as left behind really is: nothing refers to it any more. */
  ghost predicate FlagsOk(sh: Shared) {
    forall id :: id in sh.stranded || id in sh.abandoned ==>
      id in sh.origin && sh.origin[id] !in sh.wal && !Leased(sh.leases, id) && id !in sh.gap
  }

  lemma DropKeepsFlags(sh: Shared, w: nat, gap: set<nat>, stranded: set<nat>, abandoned: set<nat>)
    requires Numbering(sh) && EntryMeansNoLease(sh) && FlagsOk(sh) && w in sh.wal
    requires gap <= sh.gap || exists id :: gap == sh.gap + {id} && id in sh.origin && sh.origin[id] == w
                                           && stranded == sh.stranded && abandoned == sh.abandoned
    requires gap <= sh.gap ==> forall id :: id in (stranded - sh.stranded) + (abandoned - sh.abandoned) ==>
                                 id in sh.origin && sh.origin[id] == w
    ensures FlagsOk(sh.(wal := sh.wal - {w}, gap := gap, stranded := stranded, abandoned := abandoned))
  {
  }

  lemma LeasesKeepFlags(sh: Shared, pc: Pc, a: Action)
    requires FlagsOk(sh) && CallOk(sh, pc) && Can(sh, pc, a) && (a.RegisterLease? || a.DropLease?)
    ensures FlagsOk(Do(sh, pc, a).0)
  {
    var sh' := Do(sh, pc, a).0;
    forall id | id in sh.stranded || id in sh.abandoned ensures !Leased(sh'.leases, id) {
      assert !Leased(sh.leases, id) && id !in sh.gap;
    }
  }

  lemma DropActionKeepsFlags(sh: Shared, pc: Pc, a: Action)
    requires Numbering(sh) && EntryMeansNoLease(sh) && FlagsOk(sh) && CallOk(sh, pc) && Can(sh, pc, a)
    requires (a.DropAfterFailure? || a.DropEntry?) && !a.reply.Refuse?
    ensures FlagsOk(Do(sh, pc, a).0)
  {
    var sh' := Do(sh, pc, a).0;
    DropKeepsFlags(sh, pc.w, sh.gap, sh'.stranded, sh'.abandoned);
  }

  lemma DeleteWalKeepsFlags(sh: Shared, pc: Pc, a: Action)
    requires Numbering(sh) && EntryMeansNoLease(sh) && FlagsOk(sh) && CallOk(sh, pc) && Can(sh, pc, a)
    requires a.DeleteWal? && !a.reply.Refuse?
    ensures FlagsOk(Do(sh, pc, a).0)
  {
    var sh' := Do(sh, pc, a).0;
    DropKeepsFlags(sh, pc.w, sh'.gap, sh'.stranded, sh.abandoned);
  }

  lemma OtherActionKeepsFlags(sh: Shared, pc: Pc, a: Action)
    requires Numbering(sh) && FlagsOk(sh) && Can(sh, pc, a)
    requires (a.DropAfterFailure? || a.DeleteWal? || a.DropEntry?) ==> a.reply.Refuse?
    requires !a.RegisterLease? && !a.DropLease?
    ensures FlagsOk(Do(sh, pc, a).0)
  {
  }

  lemma ActionKeepsFlags(sh: Shared, pc: Pc, a: Action)
    requires Numbering(sh) && EntryMeansNoLease(sh) && FlagsOk(sh) && CallOk(sh, pc) && Can(sh, pc, a)
    ensures FlagsOk(Do(sh, pc, a).0)
  {
    if a.RegisterLease? || a.DropLease? {
      LeasesKeepFlags(sh, pc, a);
    } else if (a.DropAfterFailure? || a.DropEntry?) && !a.reply.Refuse? {
      DropActionKeepsFlags(sh, pc, a);
    } else if a.DeleteWal? && !a.reply.Refuse? {
      DeleteWalKeepsFlags(sh, pc, a);
    } else {
      OtherActionKeepsFlags(sh, pc, a);
    }
  }

  lemma StepKeepsFlags(s: State, e: Event)
    requires Inv(s) && FlagsOk(s.sh) && Enabled(s, e)
    ensures FlagsOk(Apply(s, e).sh)
  {
    if e.Act? {
      ActionKeepsFlags(s.sh, s.calls[e.t], e.action);
    } else if e.StartRollback? && !e.configured {
      DropKeepsFlags(s.sh, e.w, s.sh.gap, s.sh.stranded, Apply(s, e).sh.abandoned);
    } else {
      OtherStepKeepsFlags(s, e);
    }
  }

  lemma OtherStepKeepsFlags(s: State, e: Event)
    requires Numbering(s.sh) && FlagsOk(s.sh) && Enabled(s, e) && !e.Act? && !(e.StartRollback? && !e.configured)
    ensures FlagsOk(Apply(s, e).sh)
  {
  }

  lemma {:induction false} RunKeepsFlags(s: State, events: seq<Event>)
    requires Inv(s) && FlagsOk(s.sh) && Valid(s, events)
    ensures Inv(Run(s, events)) && FlagsOk(Run(s, events).sh)
    decreases |events|
  {
    if events != [] {
      StepKeepsInv(s, events[0]);
      StepKeepsFlags(s, events[0]);
      RunKeepsFlags(Apply(s, events[0]), events[1..]);
    }
  }

  /** In every reachable state, whatever answers were lost, a robot the engine created that is still in
      Harbor expires; it is leased, or named by a live entry, or past its entry's deletion exactly when it
      was not left behind in one of the known ways. A live entry excludes a lease. */
  lemma OrphanCoverage(s: State, events: seq<Event>, id: nat)
    requires Init(s) && Valid(s, events)
    requires var sh := Run(s, events).sh; id in sh.origin && id in sh.robots
    ensures var sh := Run(s, events).sh;
            && 0 < sh.robots[id].expiresAt
            && (Leased(sh.leases, id) || sh.origin[id] in sh.wal || id in sh.gap
                <==> id !in sh.stranded && id !in sh.abandoned)
            && !(sh.origin[id] in sh.wal && (Leased(sh.leases, id) || id in sh.gap))
  {
    InitHolds(s);
    RunKeepsFlags(s, events);
    assert Covered(Run(s, events).sh, id);
  }

  // ---- who deletes a robot ----

  /** The right by which event e may delete robot id. */
  ghost predicate MayDelete(s: State, e: Event, id: nat) {
    var sh := s.sh;
    || e == ForeignDelete(id)
    || (e.Act? && e.t in s.calls && match s.calls[e.t]
        case Revoking(l, target) => target == id && l in sh.leases && sh.leases[l] == id
        case Deleting(w, target) =>
          && target == id && w in sh.wal && id in sh.origin && sh.origin[id] == w && id in sh.robots && w in sh.logged
          && sh.robots[id].name == FullName(sh.prefix, sh.logged[w].level, sh.logged[w].namespace, sh.logged[w].name)
          && !Leased(sh.leases, id) && id !in sh.gap
        case Cleanup(w, target) =>
          target == id && id in sh.origin && sh.origin[id] == w && !Leased(sh.leases, id) && id !in sh.gap
        case _ => false)
  }

  /** A robot disappears only because someone else deleted it, because its own lease is revoked,
      because its live entry is rolled back (its name is the logged one exactly, and it has no lease),
      or because the request that created it cleans up before any lease exists. */
  lemma RobotsAreDeletedByRight(s: State, e: Event, id: nat)
    requires Inv(s) && Enabled(s, e)
    requires id in s.sh.robots && id !in Apply(s, e).sh.robots
    ensures MayDelete(s, e, id)
  {
    if e.Act? {
      ActionDeletes(s.sh, s.calls[e.t], e.action, id);
      OwnRobotOnly(s.sh, s.calls[e.t], id);
    }
  }

  lemma ActionDeletes(sh: Shared, pc: Pc, a: Action, id: nat)
    requires Can(sh, pc, a) && id in sh.robots && id !in Do(sh, pc, a).0.robots
    ensures (pc.Revoking? || pc.Deleting? || pc.Cleanup?) && pc.id == id
  {
  }

  lemma OwnRobotOnly(sh: Shared, pc: Pc, id: nat)
    requires RobotNames(sh) && Numbering(sh) && EntryMeansNoLease(sh) && CallOk(sh, pc) && id in sh.robots
    requires (pc.Revoking? || pc.Deleting? || pc.Cleanup?) && pc.id == id
    ensures pc.Revoking? ==> pc.l in sh.leases && sh.leases[pc.l] == id
    ensures pc.Deleting? ==>
              sh.robots[id].name ==
                FullName(sh.prefix, sh.logged[pc.w].level, sh.logged[pc.w].namespace, sh.logged[pc.w].name)
    ensures !pc.Revoking? ==> id in sh.origin && sh.origin[id] == pc.w && !Leased(sh.leases, id) && id !in sh.gap
  {
  }

  /** A lease is dropped only when its robot is gone from Harbor. */
  lemma LeaseIsDroppedOnlyWithoutRobot(s: State, e: Event, l: nat)
    requires Inv(s) && Enabled(s, e)
    requires l in s.sh.leases && l !in Apply(s, e).sh.leases
    ensures s.sh.leases[l] !in s.sh.robots && s.sh.leases[l] !in Apply(s, e).sh.robots
  {
    if e.Act? {
      ActionDropsLease(s.sh, s.calls[e.t], e.action, l);
    }
  }

  lemma ActionDropsLease(sh: Shared, pc: Pc, a: Action, l: nat)
    requires Can(sh, pc, a) && CallOk(sh, pc) && l in sh.leases && l !in Do(sh, pc, a).0.leases
    ensures sh.leases[l] !in sh.robots && Do(sh, pc, a).0.robots == sh.robots
  {
  }

  /** No step brings an entry back or changes where a robot came from. */
  lemma EntriesStayGone(s: State, e: Event, id: nat)
    requires Numbering(s.sh) && Enabled(s, e) && id in s.sh.origin && s.sh.origin[id] !in s.sh.wal
    ensures var sh := Apply(s, e).sh; id in sh.origin && sh.origin[id] == s.sh.origin[id] && sh.origin[id] !in sh.wal
  {
    if e.Act? {
      ActionKeepsOrigin(s.sh, s.calls[e.t], e.action);
    }
  }

  lemma ActionKeepsOrigin(sh: Shared, pc: Pc, a: Action)
    requires Numbering(sh) && Can(sh, pc, a)
    ensures var sh' := Do(sh, pc, a).0;
            sh'.wal <= sh.wal && forall id :: id in sh.origin ==> id in sh'.origin && sh'.origin[id] == sh.origin[id]
  {
  }

  /** Once robot id has left the WAL, which it has when it is leased, no later state of any run has a
      rollback about to delete it. */
  lemma {:induction false} LeasedIsNeverRolledBack(s: State, events: seq<Event>, l: nat, t: Tid)
    requires Inv(s) && Valid(s, events) && l in s.sh.leases
    requires var s' := Run(s, events); t in s'.calls && s'.calls[t].Deleting?
    ensures Run(s, events).calls[t].id != s.sh.leases[l]
  {
    var id := s.sh.leases[l];
    HadEntry(s.sh, l);
    GoneForGood(s, events, id);
    RunKeepsInv(s, events);
    DeletingHasEntry(Run(s, events), t);
  }

  lemma HadEntry(sh: Shared, l: nat)
    requires EntryMeansNoLease(sh) && l in sh.leases
    ensures sh.leases[l] in sh.origin && sh.origin[sh.leases[l]] !in sh.wal
  {
  }

  lemma DeletingHasEntry(s: State, t: Tid)
    requires CallsOk(s) && t in s.calls && s.calls[t].Deleting?
    ensures var id := s.calls[t].id; id in s.sh.origin && s.sh.origin[id] in s.sh.wal
  {
    assert CallOk(s.sh, s.calls[t]);
  }

  lemma {:induction false} GoneForGood(s: State, events: seq<Event>, id: nat)
    requires Inv(s) && Valid(s, events) && id in s.sh.origin && s.sh.origin[id] !in s.sh.wal
    ensures var sh := Run(s, events).sh; id in sh.origin && sh.origin[id] == s.sh.origin[id] && sh.origin[id] !in sh.wal
    decreases |events|
  {
    if events != [] {
      EntriesStayGone(s, events[0], id);
      StepKeepsInv(s, events[0]);
      GoneForGood(Apply(s, events[0]), events[1..], id);
    }
  }

  // ---- runs in which nothing is left behind ----

  /** The answers the design relies on: a create or an entry deletion reported as failed had no
      effect, rollbacks find a configuration, and no more robots match a logged name than one listing
      holds. Lost answers to every other call are tolerated. */
  ghost predicate Trusted(s: State, e: Event)
    requires Enabled(s, e)
  {
    match e
    case StartRollback(_, _, configured) => configured
    case Act(t, CreateRobot(reply, _, _)) => !reply.LostAnswer?
    case Act(t, DeleteWal(reply)) => !reply.LostAnswer?
    case Act(t, FindRobot(_, _)) =>
      PageFits(s.sh, s.calls[t].w)
    case _ => true
  }

  ghost predicate TrustedRun(s: State, events: seq<Event>)
    requires Valid(s, events)
    decreases |events|
  {
    events == [] || (Trusted(s, events[0]) && TrustedRun(Apply(s, events[0]), events[1..]))
  }

  predicate CleanCall(sh: Shared, pc: Pc) {
    && (pc.CreateFailed? ==> forall id :: id in sh.origin ==> sh.origin[id] != pc.w)
    && (pc.Dropping? ==> pc.sure)
  }

  ghost predicate Clean(s: State) {
    && s.sh.stranded == {} && s.sh.abandoned == {}
    && forall t :: t in s.calls ==> CleanCall(s.sh, s.calls[t])
  }

  lemma OtherStaysClean(sh: Shared, pc: Pc, a: Action, other: Pc)
    requires Can(sh, pc, a) && CleanCall(sh, other)
    requires HasEntry(pc) && HasEntry(other) ==> pc.w != other.w
    ensures CleanCall(Do(sh, pc, a).0, other)
  {
  }

  lemma ActorLeavesNothing(sh: Shared, pc: Pc, a: Action)
    requires CallOk(sh, pc) && Can(sh, pc, a) && Truthful(sh, pc, a) && CleanCall(sh, pc)
    requires sh.stranded == {} && sh.abandoned == {}
    requires (a.CreateRobot? || a.DeleteWal?) ==> !a.reply.LostAnswer?
    requires a.FindRobot? ==> PageFits(sh, pc.w)
    ensures var (sh', pc') := Do(sh, pc, a);
            sh'.stranded == {} && sh'.abandoned == {} && (pc'.Some? ==> CleanCall(sh', pc'.value))
  {
    if a.DropAfterFailure? || a.DropEntry? {
      assert RobotsOf(sh, pc.w) == {};
    }
  }

  lemma StepStaysClean(s: State, e: Event)
    requires Inv(s) && Clean(s) && Enabled(s, e) && Trusted(s, e)
    ensures Clean(Apply(s, e))
  {
    if e.Act? {
      ActStaysClean(s, e);
    } else {
      OtherStepStaysClean(s, e);
    }
  }

  lemma ActStaysClean(s: State, e: Event)
    requires OneHandler(s.calls) && CallsOk(s) && Clean(s) && e.Act? && Enabled(s, e) && Trusted(s, e)
    ensures Clean(Apply(s, e))
  {
    var s' := Apply(s, e);
    var pc := s.calls[e.t];
    ActorLeavesNothing(s.sh, pc, e.action);
    forall u | u in s'.calls && u != e.t ensures CleanCall(s'.sh, s'.calls[u]) {
      OtherStaysClean(s.sh, pc, e.action, s.calls[u]);
    }
  }

  lemma OtherStepStaysClean(s: State, e: Event)
    requires Clean(s) && !e.Act? && Enabled(s, e) && Trusted(s, e)
    ensures Clean(Apply(s, e))
  {
  }

  lemma {:induction false} RunStaysClean(s: State, events: seq<Event>)
    requires Inv(s) && Clean(s) && Valid(s, events) && TrustedRun(s, events)
    ensures Clean(Run(s, events))
    decreases |events|
  {
    if events != [] {
      StepKeepsInv(s, events[0]);
      StepStaysClean(s, events[0]);
      RunStaysClean(Apply(s, events[0]), events[1..]);
    }
  }

  /** With those answers every robot the engine created and that still exists is leased, or named by
      a live entry, or belongs to a request past its entry's deletion. */
  lemma NothingIsLeftBehind(s: State, events: seq<Event>, id: nat)
    requires Init(s) && Valid(s, events) && TrustedRun(s, events)
    requires var sh := Run(s, events).sh; id in sh.origin && id in sh.robots
    ensures var sh := Run(s, events).sh;
            && 0 < sh.robots[id].expiresAt
            && (Leased(sh.leases, id) || sh.origin[id] in sh.wal || id in sh.gap)
  {
    OrphanCoverage(s, events, id);
    InitHolds(s);
    RunStaysClean(s, events);
  }
}
