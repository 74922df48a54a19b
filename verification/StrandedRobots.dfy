/** Runs of the machine that leave a robot behind: one for each way module Issuance names. */
module StrandedRobots {
  import opened Common
  import opened Duration
  import opened ShortNames
  import opened HarborServer
  import opened RobotLookup
  import opened Issuance

  const ENTRY := Wal("vault-ci-1", "system", "")
  const GRANT := [Permission("project", "library", [Access("repository", "pull", "allow")])]

  /** The engine's robot is in Harbor and nothing refers to it. */
  ghost predicate LeftBehind(sh: Shared, id: nat) {
    id in sh.robots && id in sh.origin && sh.leases == map[] && sh.wal == {} && sh.gap == {}
  }

  /** Harbor holds other clients' robots 1 to n; the engine has done nothing. */
  function Fresh(robots: map<nat, Robot>, n: nat): Shared {
    Shared("robot$", robots, n + 1, {}, map[], 1, map[], 1, map[], {}, {}, {})
  }

  ghost predicate Others(robots: map<nat, Robot>, n: nat) {
    && NamesOk("robot$", robots) && (forall id :: id in robots ==> id <= n)
    && (forall id :: id in robots ==> ShortName(robots[id].name) != ENTRY.name)
  }

  function Start(robots: map<nat, Robot>, n: nat): State {
    State(Fresh(robots, n), map[])
  }

  /** A request up to its create call. */
  function Requested(robots: map<nat, Robot>, n: nat): State {
    State(Fresh(robots, n).(wal := {1}, logged := map[1 := ENTRY], nextWal := 2), map[0 := Logged(1, GRANT)])
  }

  function WithOwn(robots: map<nat, Robot>, n: nat): Shared {
    var sh := Requested(robots, n).sh;
    WithRobot(sh, 1, NewRobot(sh, ENTRY, GRANT, 0, 1))
  }

  lemma RequestIsLogged(robots: map<nat, Robot>, n: nat)
    requires Others(robots, n)
    ensures Init(Start(robots, n))
    ensures var put := PutWal(0, ENTRY, GRANT, Answer);
            Enabled(Start(robots, n), put) && Apply(Start(robots, n), put) == Requested(robots, n)
  {
  }

  lemma CreateHappens(robots: map<nat, Robot>, n: nat, reply: Reply)
    requires !reply.Refuse?
    ensures var create := Act(0, CreateRobot(reply, 0, 1));
            && Enabled(Requested(robots, n), create)
            && Apply(Requested(robots, n), create) == AfterCreate(robots, n, reply)
  {
  }

  /** One more step of a run that has come to state now. */
  lemma Extend(s: State, before: seq<Event>, now: State, e: Event)
    requires Valid(s, before) && Run(s, before) == now && Enabled(now, e)
    ensures Valid(s, before + [e]) && Run(s, before + [e]) == Apply(now, e)
  {
    RunAppend(s, before, e);
  }

  function AfterCreate(robots: map<nat, Robot>, n: nat, reply: Reply): State {
    State(WithOwn(robots, n), map[0 := if reply == Answer then Pc.Created(1, n + 1) else CreateFailed(1)])
  }

  /** A request up to the answer to its create call. */
  lemma RunUpToCreate(robots: map<nat, Robot>, n: nat, reply: Reply) returns (events: seq<Event>)
    requires Others(robots, n) && !reply.Refuse?
    ensures Init(Start(robots, n)) && Valid(Start(robots, n), events)
    ensures Run(Start(robots, n), events) == AfterCreate(robots, n, reply)
  {
    var put, create := PutWal(0, ENTRY, GRANT, Answer), Act(0, CreateRobot(reply, 0, 1));
    RequestIsLogged(robots, n);
    CreateHappens(robots, n, reply);
    Extend(Start(robots, n), [], Start(robots, n), put);
    Extend(Start(robots, n), [] + [put], Requested(robots, n), create);
    events := [] + [put] + [create];
  }

  /** A create that took effect but was reported as failed leaves a robot nothing refers to. */
  lemma LostCreateStrandsARobot() returns (s: State, events: seq<Event>)
    ensures Init(s) && Valid(s, events) && LeftBehind(Run(s, events).sh, 1)
  {
    s := Start(map[], 0);
    events := RunUpToCreate(map[], 0, LostAnswer);
    var drop := Act(0, DropAfterFailure(Answer));
    Extend(s, events, AfterCreate(map[], 0, LostAnswer), drop);
    events := events + [drop];
  }

  /** So does an entry deletion that took effect but was reported as failed, when the cleanup fails too. */
  lemma LostEntryDeletionStrandsARobot() returns (s: State, events: seq<Event>)
    ensures Init(s) && Valid(s, events) && LeftBehind(Run(s, events).sh, 1)
  {
    s := Start(map[], 0);
    events := RunUpToCreate(map[], 0, Answer);
    var unlog, cleanup := Act(0, DeleteWal(LostAnswer)), Act(0, DeleteOrphan(Refuse(Other)));
    var created := AfterCreate(map[], 0, Answer);
    Extend(s, events, created, unlog);
    events := events + [unlog];
    Extend(s, events, Apply(created, unlog), cleanup);
    events := events + [cleanup];
  }

  /** A process crash after the create call. */
  lemma RunUpToCrash(robots: map<nat, Robot>, n: nat) returns (events: seq<Event>)
    requires Others(robots, n)
    ensures Init(Start(robots, n)) && Valid(Start(robots, n), events)
    ensures Run(Start(robots, n), events) == State(WithOwn(robots, n), map[])
  {
    events := RunUpToCreate(robots, n, Answer);
    Extend(Start(robots, n), events, AfterCreate(robots, n, Answer), ProcessCrash);
    events := events + [ProcessCrash];
  }

  /** A rollback while the engine is not configured abandons the robot of its entry. */
  lemma UnconfiguredRollbackAbandonsARobot() returns (s: State, events: seq<Event>)
    ensures Init(s) && Valid(s, events) && LeftBehind(Run(s, events).sh, 1)
  {
    s := Start(map[], 0);
    events := RunUpToCrash(map[], 0);
    Extend(s, events, State(WithOwn(map[], 0), map[]), StartRollback(0, 1, false));
    events := events + [StartRollback(0, 1, false)];
  }

  // ---- an overfull listing ----

  function Padding(k: nat): string {
    seq(k, i => 'x')
  }

  /** k x's in front of the logged name. */
  function Crowd(k: nat): string {
    Padding(k) + ENTRY.name
  }

  function CrowdRobot(k: nat): Robot {
    Robot(k, FullName("robot$", "system", "", Crowd(k)), "system", 1, 1, 0, false, [], None)
  }

  /** 101 robots of other clients whose names end in the logged one. */
  function CrowdRobots(): map<nat, Robot> {
    map k: nat | 1 <= k <= 101 :: CrowdRobot(k)
  }

  lemma CrowdIsUnqualified(k: nat)
    ensures NoQualifier(Crowd(k)) && |Crowd(k)| == k + |ENTRY.name|
  {
    var padding, name := Padding(k), ENTRY.name;
    assert NoQualifier(name);
    forall i | 0 <= i < |padding + name| ensures !IsQualifier((padding + name)[i]) {
      assert (padding + name)[i] == if i < k then 'x' else name[i - k];
    }
  }

  lemma CrowdNames(k: nat)
    ensures NoQualifier(Crowd(k)) && ShortName(CrowdRobot(k).name) == Crowd(k) && ProperlyNamed("robot$", CrowdRobot(k))
  {
    CrowdIsUnqualified(k);
    ShortNameInvertsExactly("robot$", "system", "", Crowd(k));
    assert CrowdRobot(k).name == NameOf("robot$", CrowdRobot(k).level, CrowdRobot(k).permissions, Crowd(k));
  }

  lemma CrowdMatches(k: nat)
    ensures Matches(CrowdRobot(k), "system", "", ENTRY.name)
  {
    CrowdNames(k);
    ContainsEnd(Padding(k), ENTRY.name);
    assert DatabaseName(CrowdRobot(k)) == Crowd(k);
  }

  lemma CrowdNamesDiffer(k: nat, l: nat)
    requires CrowdRobot(k).name == CrowdRobot(l).name
    ensures k == l
  {
    CrowdNames(k);
    CrowdNames(l);
    CrowdIsUnqualified(k);
    CrowdIsUnqualified(l);
  }

  /** What the crowd needs to know of one robot. */
  ghost predicate Stranger(robot: Robot, k: nat) {
    robot.id == k && ProperlyNamed("robot$", robot) && ShortName(robot.name) != ENTRY.name
  }

  lemma CrowdRobotIsStranger(k: nat)
    requires k >= 1
    ensures Stranger(CrowdRobot(k), k)
  {
    CrowdNames(k);
    CrowdIsUnqualified(k);
  }

  lemma StrangersAreOthers(robots: map<nat, Robot>, n: nat)
    requires forall k :: k in robots ==> k <= n && Stranger(robots[k], k)
    requires forall k, l :: k in robots && l in robots && robots[k].name == robots[l].name ==> k == l
    ensures Others(robots, n)
  {
    forall k | k in robots ensures robots[k].id == k && ProperlyNamed("robot$", robots[k]) {
      assert Stranger(robots[k], k);
    }
    forall k | k in robots ensures ShortName(robots[k].name) != ENTRY.name {
      assert Stranger(robots[k], k);
    }
  }

  lemma CrowdIsOthers()
    ensures Others(CrowdRobots(), 101)
  {
    var robots := CrowdRobots();
    forall k | k in robots ensures Stranger(robots[k], k) {
      CrowdRobotIsStranger(k);
    }
    forall k, l | k in robots && l in robots && robots[k].name == robots[l].name ensures k == l {
      CrowdNamesDiffer(k, l);
    }
    StrangersAreOthers(robots, 101);
  }

  lemma {:induction false} FirstNumbers(n: nat, ids: set<nat>)
    requires forall k: nat :: 1 <= k <= n ==> k in ids
    ensures |ids| >= n
  {
    if n > 0 {
      FirstNumbers(n - 1, ids - {n});
    }
  }

  lemma PageOverflows()
    ensures var robots := WithOwn(CrowdRobots(), 101).robots;
            |MatchingIds(robots, "system", "", ENTRY.name)| > PAGE_SIZE && IsPage(robots, "system", "", ENTRY.name, [])
  {
    var robots := WithOwn(CrowdRobots(), 101).robots;
    forall k: nat | 1 <= k <= 101 ensures k in MatchingIds(robots, "system", "", ENTRY.name) {
      CrowdMatches(k);
    }
    FirstNumbers(101, MatchingIds(robots, "system", "", ENTRY.name));
  }

  lemma NothingFound(sh: Shared)
    requires 1 in sh.logged && sh.logged[1] == ENTRY && !PageFits(sh, 1)
    ensures Do(sh, Finding(1), FindRobot(true, [])) == (sh, Some(Dropping(1, false)))
  {
    assert FirstMatch([], ENTRY.name).None?;
  }

  /** So does a rollback whose listing page is filled by other robots. */
  lemma OverfullListingAbandonsARobot() returns (s: State, events: seq<Event>)
    ensures Init(s) && Valid(s, events) && LeftBehind(Run(s, events).sh, 102)
  {
    CrowdIsOthers();
    PageOverflows();
    s := Start(CrowdRobots(), 101);
    events := RunUpToCrash(CrowdRobots(), 101);
    events := RollBackOverfull(s, events, WithOwn(CrowdRobots(), 101));
  }

  /** The machine's three steps of that rollback. */
  lemma OverfullSteps(sh: Shared)
    requires 1 in sh.logged && sh.logged[1] == ENTRY && sh.wal == {1}
    requires !PageFits(sh, 1) && IsPage(sh.robots, "system", "", ENTRY.name, [])
    ensures var start, find, drop := StartRollback(0, 1, true), Act(0, FindRobot(true, [])), Act(0, DropEntry(Answer));
            && Enabled(State(sh, map[]), start)
            && Apply(State(sh, map[]), start) == State(sh, map[0 := Finding(1)])
            && Enabled(State(sh, map[0 := Finding(1)]), find)
            && Apply(State(sh, map[0 := Finding(1)]), find) == State(sh, map[0 := Dropping(1, false)])
            && Enabled(State(sh, map[0 := Dropping(1, false)]), drop)
  {
    NothingFound(sh);
  }

  lemma RollBackOverfull(s: State, before: seq<Event>, sh: Shared) returns (events: seq<Event>)
    requires Valid(s, before) && Run(s, before) == State(sh, map[])
    requires 1 in sh.logged && sh.logged[1] == ENTRY && sh.wal == {1} && sh.leases == map[] && sh.gap == {}
    requires !PageFits(sh, 1) && IsPage(sh.robots, "system", "", ENTRY.name, [])
    ensures Valid(s, events)
    ensures var sh' := Run(s, events).sh;
            sh'.robots == sh.robots && sh'.origin == sh.origin && sh'.leases == map[] && sh'.wal == {} && sh'.gap == {}
  {
    var start, find, drop := StartRollback(0, 1, true), Act(0, FindRobot(true, [])), Act(0, DropEntry(Answer));
    OverfullSteps(sh);
    Extend(s, before, State(sh, map[]), start);
    Extend(s, before + [start], State(sh, map[0 := Finding(1)]), find);
    Extend(s, before + [start] + [find], State(sh, map[0 := Dropping(1, false)]), drop);
    events := before + [start] + [find] + [drop];
  }
}
