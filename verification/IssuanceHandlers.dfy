/** The handlers of internal/backend/path_creds.go and secretRobotRevoke, call by call. Every storage or
    Harbor call consumes one reply of a script and the process crashes where the script ends. Each
    handler is proved to follow the machine of module Issuance, so the machine's theorems hold of it. */
module IssuanceHandlers {
  import opened Common
  import opened Duration
  import opened ShortNames
  import opened HarborServer
  import opened RobotLookup
  import opened Issuance
  import Lifetime

  /** What a role contributes to a create request. */
  datatype Role = Role(times: Lifetime.Role, level: string, permissions: seq<Permission>)

  datatype CredsAnswer = Response(id: nat, ttl: int, maxTTL: int) | Failed | Crashed

  /** Harbor answers 404 to a deletion exactly when it knows no such robot. */
  function HarborDeletes(robots: map<nat, Robot>, id: nat, reply: Reply): (r: Reply)
    ensures r == Refuse(NotFound) ==> id !in robots
    ensures r == Answer ==> id in robots && reply == Answer
    ensures r == Answer || r == Refuse(NotFound) <==> reply == Answer || (reply == Refuse(NotFound) && id !in robots)
    ensures r.Refuse? <==> reply.Refuse? || (reply == Answer && id !in robots)
  {
    if reply == Answer && id !in robots then Refuse(NotFound)
    else if reply == Refuse(NotFound) && id in robots then Refuse(Other)
    else reply
  }

  function StatusOf(reply: Reply): Status {
    match reply
    case Answer => Ok
    case Refuse(code) => Err(code)
    case LostAnswer => Err(Other)
  }

  /** Where a call is once its robot is deleted. */
  function AfterDelete(pc: Pc): Pc
    requires pc.Cleanup? || pc.Deleting? || pc.Revoking?
  {
    match pc
    case Cleanup(w, id) => CleanupWal(w, id)
    case Deleting(w, id) => Dropping(w, true)
    case Revoking(l, id) => Revoked(l, id)
  }

  /** An entry dropped without looking for its robot. */
  function Forgotten(sh: Shared, w: nat): Shared {
    sh.(wal := sh.wal - {w}, abandoned := sh.abandoned + RobotsOf(sh, w))
  }

  /** One call t of the engine beside any others. */
  class Call {
    const t: Tid
    var sh: Shared
    var pc: Option<Pc>
    var script: seq<Reply>
    ghost const others: map<Tid, Pc>
    ghost const start: State
    ghost var events: seq<Event>

    constructor (s: State, t: Tid, script: seq<Reply>)
      requires t !in s.calls
      ensures this.script == script && this.t == t && Now() == s && pc.None? && start == s && Follows()
    {
      this.t, this.sh, this.pc, this.script := t, s.sh, None, script;
      this.others, this.start, this.events := s.calls, s, [];
    }

    ghost function Now(): State
      reads this
    {
      State(sh, After(others, t, pc))
    }

    /** What this call has done so far is a run of the machine. */
    ghost predicate Follows()
      reads this
    {
      t !in others && Valid(start, events) && Run(start, events) == Now()
    }

    /** The next reply of the environment, or a crash. */
    method Next() returns (reply: Option<Reply>)
      modifies this`script
      ensures reply.None? ==> old(script) == [] && script == []
      ensures reply.Some? ==> old(script) != [] && reply.value == old(script)[0] && script == old(script)[1..]
    {
      if script == [] {
        return None;
      }
      reply := Some(script[0]);
      script := script[1..];
    }

    /** One action of this call. */
    method Perform(a: Action)
      requires Follows() && pc.Some? && Can(sh, pc.value, a) && Truthful(sh, pc.value, a)
      modifies this`sh, this`pc, this`events
      ensures Follows() && (sh, pc) == Do(old(sh), old(pc).value, a)
    {
      ghost var e := Event.Act(t, a);
      RunAppend(start, events, e);
      events := events + [e];
      sh, pc := Do(sh, pc.value, a).0, Do(sh, pc.value, a).1;
      assert After(After(others, t, old(pc)), t, pc) == After(others, t, pc);
    }

    method PutWal(entry: Wal, permissions: seq<Permission>) returns (status: Status)
      requires Follows() && pc.None? && forall r :: Enabled(Now(), Event.PutWal(t, entry, permissions, r))
      modifies this`sh, this`pc, this`script, this`events
      ensures Follows()
      ensures old(script) == [] ==> status.Crash? && script == [] && sh == old(sh) && pc.None?
      ensures old(script) != [] ==>
                script == old(script)[1..] && (status.Ok? <==> old(script)[0] == Answer) && !status.Crash?
      ensures old(script) != [] ==> sh == if old(script)[0].Refuse? then old(sh) else WithEntry(old(sh), entry)
      ensures pc == if status.Ok? then Some(Logged(old(sh).nextWal, permissions)) else None
    {
      var reply := Next();
      if reply.None? {
        return Crash;
      }
      ghost var e := Event.PutWal(t, entry, permissions, reply.value);
      RunAppend(start, events, e);
      events := events + [e];
      if reply.value == Answer {
        pc := Some(Logged(sh.nextWal, permissions));
      }
      if !reply.value.Refuse? {
        sh := WithEntry(sh, entry);
      }
      return StatusOf(reply.value);
    }

    method CreateRobot(now: nat, days: nat) returns (status: Status, id: nat)
      requires Follows() && pc.Some? && pc.value.Logged? && pc.value.w in sh.logged && days >= 1
      modifies this`sh, this`pc, this`script, this`events
      ensures Follows() && id == old(sh).nextID
      ensures old(script) == [] ==> status.Crash? && script == [] && sh == old(sh)
      ensures old(script) != [] ==> script == old(script)[1..] && status == StatusOf(old(script)[0])
      ensures var w := old(pc).value.w;
              old(script) != [] ==>
                && pc == Some(if status.Ok? then Pc.Created(w, id) else CreateFailed(w))
                && sh == if old(script)[0].Refuse? then old(sh)
                         else WithRobot(old(sh), w,
                                        NewRobot(old(sh), old(sh).logged[w], old(pc).value.permissions, now, days))
    {
      id := sh.nextID;
      var reply := Next();
      if reply.None? {
        return Crash, id;
      }
      Perform(Action.CreateRobot(reply.value, now, days));
      return StatusOf(reply.value), id;
    }

    /** Drops the entry in whichever state the call is. */
    method DeleteWal() returns (status: Status)
      requires Follows() && pc.Some?
      requires pc.value.CreateFailed? || pc.value.Created? || pc.value.CleanupWal? || pc.value.Dropping?
      modifies this`sh, this`pc, this`script, this`events
      ensures Follows()
      ensures old(script) == [] ==> status.Crash? && script == [] && sh == old(sh)
      ensures old(script) != [] ==> script == old(script)[1..] && status == StatusOf(old(script)[0])
      ensures old(script) != [] ==>
                && sh == old(sh).(wal := DropWal(old(sh).wal, old(pc).value.w, old(script)[0]),
                                  gap := sh.gap, stranded := sh.stranded, abandoned := sh.abandoned)
                && (old(script)[0].Refuse? ==> sh == old(sh))
      ensures old(pc).value.Dropping? ==>
                && sh.stranded == old(sh).stranded
                && sh.abandoned == if sh == old(sh) then old(sh).abandoned
                                   else old(sh).abandoned + RobotsOf(sh, old(pc).value.w)
      ensures old(pc).value.Created? && old(script) != [] ==>
                var w, id := old(pc).value.w, old(pc).value.id;
                if status.Ok? then pc == Some(Unlogged(w, id)) && sh.gap == old(sh).gap + {id}
                else pc == Some(Cleanup(w, id))
    {
      var reply := Next();
      if reply.None? {
        return Crash;
      }
      match pc.value {
        case CreateFailed(_) => Perform(DropAfterFailure(reply.value));
        case Created(_, _) => Perform(Action.DeleteWal(reply.value));
        case CleanupWal(_, _) => Perform(DropOrphanWal(reply.value));
        case Dropping(_, _) => Perform(DropEntry(reply.value));
      }
      return StatusOf(reply.value);
    }

    /** DELETE /robots/{id}; success includes a 404, as every caller treats it. */
    method DeleteRobot() returns (status: Status)
      requires Follows() && pc.Some? && (pc.value.Cleanup? || pc.value.Deleting? || pc.value.Revoking?)
      modifies this`sh, this`pc, this`script, this`events
      ensures Follows()
      ensures old(script) == [] ==> status.Crash? && script == [] && sh == old(sh)
      ensures old(script) != [] ==> script == old(script)[1..] && !status.Crash?
      ensures var id := old(pc).value.id;
              sh == old(sh).(robots := sh.robots) && (sh.robots == old(sh).robots || sh.robots == old(sh).robots - {id})
      ensures status.Ok? <==>
                && old(script) != []
                && (old(script)[0] == Answer
                    || (old(script)[0] == Refuse(NotFound) && old(pc).value.id !in old(sh).robots))
      ensures old(script) != [] && old(script)[0].Refuse? ==> sh == old(sh)
      ensures status.Ok? ==> old(pc).value.id !in sh.robots && pc == Some(AfterDelete(old(pc).value))
    {
      var reply := Next();
      if reply.None? {
        return Crash;
      }
      var deleted := HarborDeletes(sh.robots, pc.value.id, reply.value);
      match pc.value {
        case Cleanup(_, _) => Perform(DeleteOrphan(deleted));
        case Deleting(_, _) => Perform(DeleteFound(deleted));
        case Revoking(_, _) => Perform(DeleteLeased(deleted));
      }
      return if DeleteSucceeds(deleted) then Ok else Err(Other);
    }

    method StartRollback(w: nat, configured: bool)
      requires Follows() && pc.None? && Enabled(Now(), Event.StartRollback(t, w, configured))
      modifies this`sh, this`pc, this`events
      ensures Follows()
      ensures configured ==> pc == Some(Finding(w)) && sh == old(sh)
      ensures !configured ==> pc.None? && sh == Forgotten(old(sh), w)
    {
      ghost var e := Event.StartRollback(t, w, configured);
      RunAppend(start, events, e);
      events := events + [e];
      if configured {
        pc := Some(Finding(w));
      } else {
        sh := Forgotten(sh, w);
      }
    }

    /** pathCredsRead. */
    method CredsRead(role: Option<Role>, configured: bool, name: string, defaultTTL: int, mountMax: int, now: nat)
      returns (answer: CredsAnswer)
      requires Follows() && pc.None? && sh.nextWal !in sh.logged && sh.nextID !in sh.robots
      requires role.Some? && configured ==> CanRequest(Now(), t, role.value, name)
      modifies this`sh, this`pc, this`script, this`events
      ensures Follows() && (answer.Crashed? ==> script == [])
      ensures answer.Response? ==>
                && role.Some? && configured
                && Lifetime.Effective(role.value.times, defaultTTL, mountMax, answer.ttl, answer.maxTTL)
                && Responded(WithEntry(old(sh), EntryFor(role.value, name)), sh, pc, answer,
                             Logged(old(sh).nextWal, role.value.permissions), now)
      ensures answer.Response? ==> ProperlyIssued(old(sh), sh, answer, role.value, name, now)
      ensures !answer.Response? ==> LeavesOnlyLogged(old(sh), sh, old(script))
      ensures role.None? || !configured || (old(script) != [] && old(script)[0].Refuse?) ==>
                answer.Failed? && sh == old(sh)
      ensures role.Some? && configured && old(script) != [] && old(script)[0] == Answer ==>
                FailsCleanly(old(sh), sh, answer, old(sh).nextWal, old(script)[1..])
      ensures role.Some? && configured && |old(script)| >= 3
              && old(script)[0] == old(script)[1] == old(script)[2] == Answer ==>
                answer.Response?
    {
      if role.None? || !configured {
        return Failed;
      }
      var ttl, maxTTL := Lifetime.ClampTTLs(role.value.times, defaultTTL, mountMax);
      RequestGrantsSomething(Now(), t, role.value, name);
      var status := PutWal(EntryFor(role.value, name), role.value.permissions);
      if !status.Ok? {
        return if status.Crash? then Crashed else Failed;
      }
      answer := Issue(ttl, maxTTL, now);
      if answer.Response? {
        IssuedProperly(old(sh), sh, pc, answer, role.value, name, now);
      }
    }

    /** The part of pathCredsRead after the entry is written. */
    method Issue(ttl: int, maxTTL: int, now: nat) returns (answer: CredsAnswer)
      requires Follows() && pc.Some? && pc.value.Logged? && pc.value.w in sh.logged && pc.value.w in sh.wal
      requires sh.nextID !in sh.robots
      modifies this`sh, this`pc, this`script, this`events
      ensures Follows() && (answer.Crashed? ==> script == [])
      ensures answer.Response? ==>
                && answer == Response(old(sh).nextID, ttl, maxTTL)
                && Responded(old(sh), sh, pc, answer, old(pc).value, now)
      ensures sh.prefix == old(sh).prefix && sh.leases == old(sh).leases
      ensures !answer.Response? ==> LeavesOnlyLogged(old(sh), sh, old(script))
      ensures FailsCleanly(old(sh), sh, answer, old(pc).value.w, old(script))
      ensures |old(script)| >= 2 && old(script)[0] == old(script)[1] == Answer ==> answer.Response?
    {
      var status, id := CreateRobot(now, TtlToDays(maxTTL));
      if status.Crash? {
        return Crashed;
      }
      if status.Ok? {
        answer := Finish(old(sh), old(pc).value, ttl, maxTTL, now);
      } else {
        answer := GiveUp();
      }
    }

    /** The part after the robot is created, seen from before. */
    method Finish(ghost was: Shared, ghost logged: Pc, ttl: int, maxTTL: int, ghost now: nat)
      returns (answer: CredsAnswer)
      requires logged.Logged? && logged.w in was.logged && was.nextID !in was.robots && logged.w in was.wal
      requires sh == WithRobot(was, logged.w, RobotFor(was, logged, now, maxTTL))
      requires Follows() && pc == Some(Pc.Created(logged.w, was.nextID))
      modifies this`sh, this`pc, this`script, this`events
      ensures Follows() && (answer.Crashed? ==> script == [])
      ensures answer.Response? ==>
                answer == Response(was.nextID, ttl, maxTTL) && Responded(was, sh, pc, answer, logged, now)
      ensures sh.prefix == was.prefix && sh.leases == was.leases
      ensures !answer.Response? ==> LeavesOnlyLogged(was, sh, old(script))
      ensures |old(script)| >= 3 && old(script)[0].Refuse? && old(script)[1] == old(script)[2] == Answer ==>
                answer.Failed? && sh.robots == was.robots && sh.wal == was.wal - {logged.w}
      ensures old(script) != [] && old(script)[0] == Answer ==> answer.Response?
    {
      answer := Unlog(ttl, maxTTL);
      if !answer.Response? {
        OneNewRobot(was, sh, was.nextID, RobotFor(was, logged, now, maxTTL), logged.w, old(script));
      }
    }

    /** Nothing was created, so far as this call knows. */
    method GiveUp() returns (answer: CredsAnswer)
      requires Follows() && pc.Some? && pc.value.CreateFailed?
      modifies this`sh, this`pc, this`script, this`events
      ensures Follows() && sh.robots == old(sh).robots
      ensures sh.prefix == old(sh).prefix && sh.leases == old(sh).leases
      ensures answer.Failed? || (answer.Crashed? && script == [])
      ensures old(script) != [] && old(script)[0] == Answer ==>
                answer.Failed? && sh.wal == old(sh).wal - {old(pc).value.w}
    {
      var status := DeleteWal();
      return if status.Crash? then Crashed else Failed;
    }

    /** The part after the robot is created. */
    method Unlog(ttl: int, maxTTL: int) returns (answer: CredsAnswer)
      requires Follows() && pc.Some? && pc.value.Created? && pc.value.w in sh.wal
      modifies this`sh, this`pc, this`script, this`events
      ensures Follows() && (answer.Crashed? ==> script == [])
      ensures var w, id := old(pc).value.w, old(pc).value.id;
              if answer.Response? then
                && answer == Response(id, ttl, maxTTL) && pc == Some(Unlogged(w, id))
                && sh.robots == old(sh).robots && sh.wal == old(sh).wal - {w} && sh.gap == old(sh).gap + {id}
              else
                && sh.origin == old(sh).origin && (sh.robots == old(sh).robots || sh.robots == old(sh).robots - {id})
                && (id in sh.robots ==> w in sh.wal || LostAnswer in old(script))
      ensures sh.prefix == old(sh).prefix && sh.leases == old(sh).leases
      ensures old(script) != [] && old(script)[0] == Answer ==> answer.Response?
      ensures |old(script)| >= 3 && old(script)[0].Refuse? && old(script)[1] == old(script)[2] == Answer ==>
                var w, id := old(pc).value.w, old(pc).value.id;
                answer.Failed? && sh.robots == old(sh).robots - {id} && sh.wal == old(sh).wal - {w}
    {
      var status := DeleteWal();
      if status.Crash? {
        return Crashed;
      }
      if !status.Ok? {
        answer := CleanUp();
        return;
      }
      return Response(pc.value.id, ttl, maxTTL);
    }

    /** The cleanup closure of pathCredsRead: the entry stays unless the robot is known to be gone. */
    method CleanUp() returns (answer: CredsAnswer)
      requires Follows() && pc.Some? && pc.value.Cleanup?
      modifies this`sh, this`pc, this`script, this`events
      ensures Follows() && (answer.Failed? || (answer.Crashed? && script == []))
      ensures var id := old(pc).value.id;
              if id in sh.robots then sh == old(sh)
              else sh.robots == old(sh).robots - {id} && sh.origin == old(sh).origin
      ensures sh.prefix == old(sh).prefix && sh.leases == old(sh).leases
      ensures |old(script)| >= 2 && old(script)[0] == old(script)[1] == Answer ==>
                var w, id := old(pc).value.w, old(pc).value.id;
                answer.Failed? && sh.robots == old(sh).robots - {id} && sh.wal == old(sh).wal - {w}
    {
      var status := DeleteRobot();
      if status.Ok? {
        status := DeleteWal();
      }
      return if status.Crash? then Crashed else Failed;
    }

    /** walRollback of entry w with the given listing page, and the framework's removal of an entry whose
        rollback succeeded. A robot missing from an overfull page is abandoned. */
    method WalRollback(w: nat, client: ClientResult, page: seq<Robot>) returns (status: Status)
      requires Follows() && pc.None? && OneTarget(sh, w) && ListingPage(sh, w, page)
      requires Enabled(Now(), Event.StartRollback(t, w, !client.NotConfigured?))
      modifies this`sh, this`pc, this`script, this`events
      ensures Follows() && (status.Crash? ==> script == [])
      ensures sh.robots == old(sh).robots || sh.robots == old(sh).robots - RobotsOf(old(sh), w)
      ensures client.Ready? && (status.Ok? || w !in sh.wal) ==>
                if PageFits(old(sh), w) then RobotsOf(sh, w) == {} else RobotsOf(sh, w) <= sh.abandoned
      ensures client.NotConfigured? ==> status.Ok? && sh == Forgotten(old(sh), w)
      ensures client.Unavailable? ==> !status.Ok? && sh == old(sh)
      ensures status.Ok? ==> w !in sh.wal
      ensures client.Ready? ==> RollsBack(old(sh), sh, w, status, old(script))
    {
      if client.Unavailable? {
        return Err(Other);
      }
      StartRollback(w, !client.NotConfigured?);
      if client.NotConfigured? {
        return Ok;
      }
      status := RollBack(w, page);
    }

    /** walRollback from its lookup on. */
    method RollBack(w: nat, page: seq<Robot>) returns (status: Status)
      requires Follows() && pc == Some(Finding(w)) && OneTarget(sh, w) && ListingPage(sh, w, page) && w in sh.wal
      modifies this`sh, this`pc, this`script, this`events
      ensures Follows() && (status.Crash? ==> script == [])
      ensures sh.robots == old(sh).robots || sh.robots == old(sh).robots - RobotsOf(old(sh), w)
      ensures status.Ok? || w !in sh.wal ==>
                if PageFits(old(sh), w) then RobotsOf(sh, w) == {} else RobotsOf(sh, w) <= sh.abandoned
      ensures status.Ok? ==> w !in sh.wal
      ensures RollsBack(old(sh), sh, w, status, old(script))
    {
      var found;
      status, found := Find(w, page);
      if !status.Ok? {
        return;
      }
      if found.Some? {
        status := DeleteTarget(w, found.value);
        if !status.Ok? {
          return;
        }
      }
      status := DropRolledBack(w);
    }

    /** Deletes the robot that was found. */
    method DeleteTarget(w: nat, id: nat) returns (status: Status)
      requires Follows() && pc == Some(Deleting(w, id)) && RobotsOf(sh, w) == {id}
      modifies this`sh, this`pc, this`script, this`events
      ensures Follows() && (status.Crash? ==> script == []) && sh.wal == old(sh).wal && sh.origin == old(sh).origin
      ensures sh.robots == old(sh).robots || sh.robots == old(sh).robots - RobotsOf(old(sh), w)
      ensures status.Ok? ==> pc == Some(Dropping(w, true)) && RobotsOf(sh, w) == {}
      ensures old(script) != [] && old(script)[0] == Answer ==> status.Ok? && script == old(script)[1..]
      ensures old(script) != [] && old(script)[0].Refuse? ==> status.Err? && sh == old(sh)
    {
      status := DeleteRobot();
      WithoutTarget(old(sh), sh, w, id);
    }

    /** The framework's removal of an entry whose rollback succeeded. */
    method DropRolledBack(w: nat) returns (status: Status)
      requires Follows() && pc.Some? && pc.value.Dropping? && pc.value.w == w && w in sh.wal
      modifies this`sh, this`pc, this`script, this`events
      ensures Follows() && (status.Crash? ==> script == [])
      ensures sh.robots == old(sh).robots && RobotsOf(sh, w) == RobotsOf(old(sh), w)
      ensures status.Ok? ==> w !in sh.wal
      ensures w !in sh.wal ==> RobotsOf(sh, w) <= sh.abandoned
      ensures old(script) != [] && old(script)[0] == Answer ==> status.Ok?
    {
      status := DeleteWal();
      SameRobotsOf(old(sh), sh, w);
    }

    /** Looks for the robot of entry w. */
    method Find(w: nat, page: seq<Robot>) returns (status: Status, found: Option<nat>)
      requires Follows() && pc == Some(Finding(w)) && OneTarget(sh, w) && ListingPage(sh, w, page)
      modifies this`sh, this`pc, this`script, this`events
      ensures Follows() && sh == old(sh) && (status.Crash? ==> script == [])
      ensures status.Ok? && found.None? ==>
                pc.Some? && pc.value.Dropping? && pc.value.w == w && (PageFits(sh, w) ==> RobotsOf(sh, w) == {})
      ensures status.Ok? && found.Some? ==> pc == Some(Deleting(w, found.value)) && RobotsOf(sh, w) == {found.value}
      ensures Answered(old(script), Lookups(sh, w)) ==> status.Ok? && script == old(script)[Lookups(sh, w)..]
      ensures LookupRefused(sh, w, old(script)) ==> status.Err?
    {
      var entry := sh.logged[w];
      var crashed, project, listing := Ask(entry.level);
      if crashed {
        return Crash, None;
      }
      var robot;
      status, robot := FindRobotByShortName(entry.level, entry.name, project, listing, page);
      PageFindsTarget(sh, w, page);
      Perform(FindRobot(status.Ok?, page));
      return status, if robot.Some? then Some(robot.value.id) else None;
    }

    /** The calls of a lookup: the project's number, if a project's robot is sought, and the listing. */
    method Ask(level: string) returns (crashed: bool, project: Reply, listing: Reply)
      modifies this`script
      ensures crashed ==> script == []
      ensures level != "project" && old(script) != [] ==>
                !crashed && project == Answer && listing == old(script)[0] && script == old(script)[1..]
      ensures level == "project" && old(script) != [] && old(script)[0] != Answer ==>
                !crashed && project == old(script)[0] && listing == Answer && script == old(script)[1..]
      ensures level == "project" && |old(script)| >= 2 && old(script)[0] == Answer ==>
                !crashed && project == Answer && listing == old(script)[1] && script == old(script)[2..]
    {
      project, listing := Answer, Answer;
      var reply := Next();
      if reply.None? {
        return true, Answer, Answer;
      }
      if level == "project" {
        project := reply.value;
        if project != Answer {
          return false, project, Answer;
        }
        reply := Next();
        if reply.None? {
          return true, Answer, Answer;
        }
      }
      return false, project, reply.value;
    }

    /** secretRobotRevoke of lease l, and Vault's removal of a lease whose revocation succeeded. */
    method Revoke(l: nat, client: ClientResult) returns (status: Status)
      requires Follows() && pc.None? && l in sh.leases && t !in others
      modifies this`sh, this`pc, this`script, this`events
      ensures Follows() && (status.Crash? ==> script == [])
      ensures var id := old(sh).leases[l];
              && sh == old(sh).(robots := sh.robots, leases := sh.leases)
              && (sh.robots == old(sh).robots || sh.robots == old(sh).robots - {id})
              && sh.leases == (if status.Ok? then old(sh).leases - {l} else old(sh).leases)
              && (status.Ok? ==> id !in sh.robots)
      ensures client.Ready? && old(script) != [] ==>
                (status.Ok? <==>
                   || old(script)[0] == Answer
                   || (old(script)[0] == Refuse(NotFound) && old(sh).leases[l] !in old(sh).robots))
    {
      if !client.Ready? {
        return Err(Other);
      }
      ghost var e := Event.StartRevoke(t, l);
      RunAppend(start, events, e);
      events := events + [e];
      pc := Some(Revoking(l, sh.leases[l]));
      status := DeleteRobot();
      if status.Ok? {
        Perform(DropLease);
      }
    }
  }

  // ---- what the handlers achieve ----

  /** The first n calls are answered. */
  predicate Answered(script: seq<Reply>, n: nat) {
    |script| >= n && forall i :: 0 <= i < n ==> script[i] == Answer
  }

  /** How many calls the lookup for entry w takes: a project's number is resolved first. */
  function Lookups(sh: Shared, w: nat): nat
    requires w in sh.logged
  {
    if sh.logged[w].level == "project" then 2 else 1
  }

  /** One of those calls is refused, after the others were answered. */
  predicate LookupRefused(sh: Shared, w: nat, script: seq<Reply>)
    requires w in sh.logged
  {
    || (script != [] && script[0].Refuse?)
    || (Lookups(sh, w) == 2 && |script| >= 2 && script[0] == Answer && script[1].Refuse?)
  }

  /** A rollback whose listing shows every match succeeds when its calls are answered, with the robot and
      the entry gone; a refused lookup or deletion is an error that changes nothing, so that the
      framework tries again. */
  ghost predicate RollsBack(was: Shared, sh: Shared, w: nat, status: Status, script: seq<Reply>)
    requires w in was.logged
  {
    var n := Lookups(was, w);
    && (LookupRefused(was, w, script) ==> status.Err? && sh == was)
    && (PageFits(was, w) && RobotsOf(was, w) != {} && Answered(script, n) && |script| > n && script[n].Refuse? ==>
          status.Err? && sh == was)
    && (PageFits(was, w) && RobotsOf(was, w) != {} && Answered(script, n + 2) ==>
          status.Ok? && RobotsOf(sh, w) == {} && w !in sh.wal)
    && (PageFits(was, w) && RobotsOf(was, w) == {} && Answered(script, n + 1) ==>
          status.Ok? && sh.robots == was.robots && w !in sh.wal)
  }

  /** What a creds read does when its create or the deletion of its entry is refused, and every call to
      undo what it did is answered: there is no new robot and no entry. */
  predicate FailsCleanly(was: Shared, sh: Shared, answer: CredsAnswer, w: nat, script: seq<Reply>) {
    && (|script| >= 2 && script[0].Refuse? && script[1] == Answer ==>
          answer.Failed? && sh.robots == was.robots && sh.wal == was.wal - {w})
    && (|script| >= 4 && script[0] == Answer && script[1].Refuse? && script[2] == script[3] == Answer ==>
          answer.Failed? && sh.robots == was.robots && sh.wal == was.wal - {w})
  }

  /** The robot of a response: the requested one and no other is new, it carries the role's permissions at
      the role's level under the requested name, and it lives for the maximum TTL, to a second, and for
      less than a day more. No lease is touched. */
  ghost predicate ProperlyIssued(was: Shared, sh: Shared, answer: CredsAnswer, role: Role, name: string, now: nat)
    requires answer.Response?
  {
    && answer.id !in was.robots && sh.robots.Keys == was.robots.Keys + {answer.id}
    && (forall k :: k in was.robots ==> sh.robots[k] == was.robots[k])
    && sh.wal == was.wal - {was.nextWal} && sh.leases == was.leases && answer.id in sh.gap
    && var robot := sh.robots[answer.id];
       (&& robot.id == answer.id && robot.created == now && !robot.disable
        && robot.level == role.level && robot.permissions == role.permissions
        && role.permissions != []
        && (role.level == "project" ==> robot.name == was.prefix + role.permissions[0].namespace + "+" + name)
        && (role.level != "project" ==> robot.name == was.prefix + name)
        && LivesFor(robot, now, answer.maxTTL))
  }

  predicate LivesFor(robot: Robot, now: int, maxTTL: int) {
    0 < maxTTL <= MAX_DURATION ==>
      && now + maxTTL - SECOND - FLOAT_SLACK < robot.expiresAt * SECOND < now + maxTTL + DAY
      && (maxTTL % SECOND == 0 ==> now + maxTTL - SECOND < robot.expiresAt * SECOND)
  }

  lemma RobotLivesFor(now: int, maxTTL: int, robot: Robot)
    requires robot.expiresAt == ExpiresAt(now, TtlToDays(maxTTL))
    ensures LivesFor(robot, now, maxTTL)
  {
    if 0 < maxTTL <= MAX_DURATION {
      TtlToDaysNearCeiling(maxTTL);
      if maxTTL % SECOND == 0 { ExactOnWholeSeconds(maxTTL); }
    }
  }

  lemma IssuedProperly(was: Shared, sh: Shared, pc: Option<Pc>, answer: CredsAnswer, role: Role, name: string, now: nat)
    requires answer.Response? && was.nextWal !in was.logged && was.nextID !in was.robots
    requires Responded(WithEntry(was, EntryFor(role, name)), sh, pc, answer, Logged(was.nextWal, role.permissions), now)
    requires sh.leases == was.leases && role.permissions != []
    ensures ProperlyIssued(was, sh, answer, role, name, now)
  {
    RobotLivesFor(now, answer.maxTTL, sh.robots[answer.id]);
  }

  /** Whatever a call does keeps the invariant of the machine. */
  lemma CallKeepsInv(c: Call)
    requires Inv(c.start) && c.Follows()
    ensures Inv(c.Now())
  {
    RunKeepsInv(c.start, c.events);
  }

  datatype ClientResult = Ready | NotConfigured | Unavailable

  function EntryFor(role: Role, name: string): Wal {
    Wal(name, role.level,
        if role.level == "project" && role.permissions != [] then role.permissions[0].namespace else "")
  }

  /** Names carry fresh random suffixes, and roles were validated. */
  ghost predicate CanRequest(s: State, t: Tid, role: Role, name: string) {
    forall r :: Enabled(s, Event.PutWal(t, EntryFor(role, name), role.permissions, r))
  }

  /** A request is possible exactly for a role that grants something, at one of the two levels, under a
      name no entry and no robot carries. */
  lemma RequestableExactly(s: State, t: Tid, role: Role, name: string)
    ensures CanRequest(s, t, role, name) <==>
              && t !in s.calls && NoQualifier(name) && role.permissions != []
              && (role.level == "system" || role.level == "project")
              && (forall w :: w in s.sh.logged ==> s.sh.logged[w].name != name)
              && (forall id :: id in s.sh.robots ==> ShortName(s.sh.robots[id].name) != name)
  {
    var e := Event.PutWal(t, EntryFor(role, name), role.permissions, Answer);
    assert CanRequest(s, t, role, name) ==> Enabled(s, e);
  }

  lemma RequestGrantsSomething(s: State, t: Tid, role: Role, name: string)
    requires CanRequest(s, t, role, name)
    ensures role.permissions != []
  {
    assert Enabled(s, Event.PutWal(t, EntryFor(role, name), role.permissions, Answer));
  }

  /** Unless an answer was lost, a robot created without a response is named by a live entry. */
  ghost predicate LeavesOnlyLogged(was: Shared, sh: Shared, script: seq<Reply>) {
    LostAnswer !in script ==>
      forall id :: id in sh.robots && id !in was.robots ==> id in sh.origin && sh.origin[id] in sh.wal
  }

  function RobotFor(sh: Shared, logged: Pc, now: nat, maxTTL: int): Robot
    requires logged.Logged? && logged.w in sh.logged
  {
    NewRobot(sh, sh.logged[logged.w], logged.permissions, now, TtlToDays(maxTTL))
  }

  /** What a creds read leaves when it answers: the entry is gone, the robot is there and awaits its lease. */
  ghost predicate Responded(was: Shared, sh: Shared, pc: Option<Pc>, answer: CredsAnswer, logged: Pc, now: nat)
    requires answer.Response? && logged.Logged? && logged.w in was.logged
  {
    && answer.id == was.nextID && pc == Some(Unlogged(logged.w, answer.id))
    && sh.robots == was.robots[answer.id := RobotFor(was, logged, now, answer.maxTTL)]
    && sh.wal == was.wal - {logged.w} && sh.gap == was.gap + {answer.id}
  }

  /** What a lookup for the entry accepts. */
  predicate IsTarget(robot: Robot, entry: Wal) {
    InScope(robot, entry.level, entry.namespace) && ShortName(robot.name) == entry.name
  }

  lemma OneNewRobot(was: Shared, sh: Shared, id: nat, robot: Robot, w: nat, script: seq<Reply>)
    requires id !in was.robots && id in sh.origin && sh.origin[id] == w
    requires sh.robots == was.robots[id := robot] || sh.robots == was.robots[id := robot] - {id}
    requires id in sh.robots ==> w in sh.wal || LostAnswer in script
    ensures LeavesOnlyLogged(was, sh, script)
  {
  }

  /** The robots a rollback of w would find are those created for w, which is one at most. */
  ghost predicate OneTarget(sh: Shared, w: nat) {
    && w in sh.logged && (forall id :: id in sh.robots ==> sh.robots[id].id == id)
    && (forall id :: id in sh.robots ==> TargetOk(sh, w, id))
    && (forall id, k :: id in RobotsOf(sh, w) && k in RobotsOf(sh, w) ==> id == k)
  }

  ghost predicate TargetOk(sh: Shared, w: nat, id: nat)
    requires w in sh.logged && id in sh.robots
  {
    && (IsTarget(sh.robots[id], sh.logged[w]) <==> id in sh.origin && sh.origin[id] == w)
    && (IsTarget(sh.robots[id], sh.logged[w]) ==> Contains(DatabaseName(sh.robots[id]), sh.logged[w].name))
  }

  /** The page is an answer to the query for entry w. */
  ghost predicate ListingPage(sh: Shared, w: nat, page: seq<Robot>)
    requires w in sh.logged
  {
    IsPage(sh.robots, sh.logged[w].level, sh.logged[w].namespace, sh.logged[w].name, page)
  }

  lemma SameRobotsOf(was: Shared, sh: Shared, w: nat)
    requires sh.robots == was.robots && sh.origin == was.origin
    ensures RobotsOf(sh, w) == RobotsOf(was, w)
  {
  }

  lemma WithoutTarget(was: Shared, sh: Shared, w: nat, id: nat)
    requires RobotsOf(was, w) == {id} && sh.origin == was.origin
    requires sh.robots == was.robots || sh.robots == was.robots - {id}
    ensures id !in sh.robots ==> RobotsOf(sh, w) == {}
  {
    forall k | k in RobotsOf(sh, w) ensures k == id && id in sh.robots {
      assert k in RobotsOf(was, w);
    }
  }

  lemma MatchIsTarget(sh: Shared, w: nat, page: seq<Robot>, robot: Robot)
    requires OneTarget(sh, w) && ListingPage(sh, w, page) && robot in page && ShortName(robot.name) == sh.logged[w].name
    ensures RobotsOf(sh, w) == {robot.id}
  {
    assert TargetOk(sh, w, robot.id);
    assert robot.id in RobotsOf(sh, w);
  }

  lemma TargetMatches(sh: Shared, w: nat, id: nat)
    requires OneTarget(sh, w) && id in RobotsOf(sh, w)
    ensures var entry := sh.logged[w];
            id in MatchingIds(sh.robots, entry.level, entry.namespace, entry.name)
            && ShortName(sh.robots[id].name) == entry.name
  {
    assert TargetOk(sh, w, id);
    assert Matches(sh.robots[id], sh.logged[w].level, sh.logged[w].namespace, sh.logged[w].name);
  }

  /** What is found is the target; a page that holds all matches shows it, if there is one. */
  lemma PageFindsTarget(sh: Shared, w: nat, page: seq<Robot>)
    requires OneTarget(sh, w) && ListingPage(sh, w, page)
    ensures match FirstMatch(page, sh.logged[w].name)
            case None => PageFits(sh, w) ==> RobotsOf(sh, w) == {}
            case Some(robot) => RobotsOf(sh, w) == {robot.id}
  {
    var found := FirstMatch(page, sh.logged[w].name);
    if found.Some? {
      MatchIsTarget(sh, w, page, found.value);
    } else if PageFits(sh, w) {
      forall id | id in RobotsOf(sh, w) ensures sh.robots[id] in page {
        TargetMatches(sh, w, id);
      }
    }
  }

  /** In every reachable state every entry has one target at most. */
  lemma InvGivesOneTarget(s: State, w: nat)
    requires Inv(s) && w in s.sh.logged
    ensures OneTarget(s.sh, w)
  {
    TargetsAreOwn(s.sh, w);
  }

  lemma TargetsAreOwn(sh: Shared, w: nat)
    requires RobotNames(sh) && Numbering(sh) && w in sh.logged
    ensures OneTarget(sh, w)
  {
    forall id | id in sh.robots ensures TargetOk(sh, w, id) {
      TargetIsOwn(sh, w, id);
    }
  }

  lemma TargetIsOwn(sh: Shared, w: nat, id: nat)
    requires RobotNames(sh) && Numbering(sh) && w in sh.logged && id in sh.robots
    ensures TargetOk(sh, w, id)
  {
    var entry := sh.logged[w];
    if id in sh.origin {
      OwnName(sh, id);
    }
    if IsTarget(sh.robots[id], entry) {
      assert Readable(sh.prefix, entry.level);
      InScopeByName(sh.prefix, sh.robots[id], entry.level, entry.namespace, entry.name);
      DatabaseNameContains(sh.robots[id]);
    }
  }
}
