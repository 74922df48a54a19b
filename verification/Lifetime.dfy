/** Lease and robot lifetimes: the TTL clamp of creds reads (internal/backend/path_creds.go) and lease
    renewal (internal/backend/secret_robot.go). Instants and durations are nanoseconds, expires_at is
    seconds, and -1 means a robot that never expires. */
module Lifetime {
  import opened Common
  import opened Duration

  const NEVER: int := -1

  /** The TTL part of a role. */
  datatype Role = Role(ttl: int, maxTTL: int)

  /** A robot as Harbor keeps it. */
  datatype Robot = Robot(created: int, duration: int, expiresAt: int)

  /** A lease as Vault keeps it: when it was issued, and the internal data of its secret. */
  datatype Lease = Lease(issued: int, created: Option<int>, recorded: int)

  // ---- issuance ----

  /** The largest TTLs within what the role asks for, or the mount's defaults where it asks for
      nothing, and within the mount's maximum. */
  predicate Effective(role: Role, defaultTTL: int, mountMax: int, ttl: int, maxTTL: int) {
    var wanted := if role.ttl > 0 then role.ttl else defaultTTL;
    && maxTTL <= mountMax && (maxTTL == mountMax || maxTTL == role.maxTTL > 0)
    && (role.maxTTL > 0 ==> maxTTL <= role.maxTTL)
    && ttl <= maxTTL && ttl <= wanted && (ttl == maxTTL || ttl == wanted)
  }

  /** Effective TTLs of a creds read. */
  method ClampTTLs(role: Role, defaultTTL: int, mountMax: int) returns (ttl: int, maxTTL: int)
    ensures Effective(role, defaultTTL, mountMax, ttl, maxTTL)
    ensures maxTTL == if 0 < role.maxTTL < mountMax then role.maxTTL else mountMax
    ensures var wanted := if role.ttl > 0 then role.ttl else defaultTTL;
            ttl == if wanted < maxTTL then wanted else maxTTL
    ensures role.ttl > 0 || defaultTTL > 0 ==> mountMax > 0 ==> 0 < ttl <= maxTTL <= mountMax
  {
    ttl := role.ttl;
    if ttl <= 0 {
      ttl := defaultTTL;
    }
    maxTTL := role.maxTTL;
    if maxTTL <= 0 || maxTTL > mountMax {
      maxTTL := mountMax;
    }
    if ttl > maxTTL {
      ttl := maxTTL;
    }
  }

  /** The robot Harbor makes for a create request with the given number of days. */
  function Create(now: int, days: int): Robot {
    Robot(now, days, if days > 0 then ExpiresAt(now, days) else NEVER)
  }

  /** The lease a creds read returns when the creation time in Harbor's answer parses. */
  function IssuedLease(robot: Robot, issued: int): Lease {
    Lease(issued, Some(robot.created), robot.expiresAt)
  }

  /** Vault's TTL rule: the increment if positive, else the TTL the engine returned, else the mount
      default, cut off at issue time plus the smaller positive maximum. */
  function LeaseEnd(now: int, increment: int, ttl: int, defaultTTL: int, issued: int, maxTTL: int, mountMax: int): int {
    var wanted := if increment > 0 then increment else if ttl > 0 then ttl else defaultTTL;
    var cap := if 0 < maxTTL && (mountMax <= 0 || maxTTL < mountMax) then maxTTL else mountMax;
    if cap > 0 && now + wanted > issued + cap then issued + cap else now + wanted
  }

  /** A lease issued for a maximum of maxTTL outlives its robot by at most the issue latency plus one
      second (plus 1140 ns when maxTTL is not whole seconds). */
  lemma IssuedLeaseIsCovered(created: int, issued: int, ttl: int, maxTTL: int, mountMax: int, defaultTTL: int)
    requires 0 < ttl <= maxTTL <= MAX_DURATION && created <= issued
    ensures var robot := Create(created, TtlToDays(maxTTL));
            var end := LeaseEnd(issued, 0, ttl, defaultTTL, issued, maxTTL, mountMax);
            && robot.expiresAt * SECOND > created + maxTTL - SECOND - FLOAT_SLACK
            && end - robot.expiresAt * SECOND < (issued - created) + SECOND + FLOAT_SLACK
    ensures maxTTL % SECOND == 0 ==>
              var robot := Create(created, TtlToDays(maxTTL));
              var end := LeaseEnd(issued, 0, ttl, defaultTTL, issued, maxTTL, mountMax);
              && robot.expiresAt * SECOND > created + maxTTL - SECOND
              && end - robot.expiresAt * SECOND < (issued - created) + SECOND
  {
    TtlToDaysNearCeiling(maxTTL);
    if maxTTL % SECOND == 0 { ExactOnWholeSeconds(maxTTL); }
  }

  /** The specification's "never issue a lease whose expiry is later than the robot's" holds at the
      full maximum TTL exactly when the slack of the last day absorbs the issue latency and the
      sub-second part Harbor drops. */
  lemma CoveredAtMaxTTLExactly(created: int, issued: int, maxTTL: int)
    requires 0 < maxTTL <= MAX_DURATION
    ensures issued + maxTTL <= Create(created, TtlToDays(maxTTL)).expiresAt * SECOND
       <==> (issued - created) + created % SECOND <= TtlToDays(maxTTL) * DAY - maxTTL
  {
    ExpirySplits(created, TtlToDays(maxTTL));
  }

  /** The same for the lease actually issued: what its TTL leaves of the maximum helps too. */
  lemma CoveredAtIssueExactly(created: int, issued: int, ttl: int, maxTTL: int, mountMax: int, defaultTTL: int)
    requires 0 < ttl <= maxTTL <= MAX_DURATION && maxTTL <= mountMax
    ensures LeaseEnd(issued, 0, ttl, defaultTTL, issued, maxTTL, mountMax)
              <= Create(created, TtlToDays(maxTTL)).expiresAt * SECOND
       <==> (issued - created) + created % SECOND <= TtlToDays(maxTTL) * DAY - ttl
  {
    ExpirySplits(created, TtlToDays(maxTTL));
  }

  /** So it fails for a maximum of exactly one day, by a whole second for a robot created a tenth of a
      second before the lease. */
  lemma OneDayLeaseOutlivesItsRobot()
    ensures var created, issued := 9 * (SECOND / 10), SECOND;
            issued + DAY == Create(created, TtlToDays(DAY)).expiresAt * SECOND + SECOND
  {
    ExactOnWholeSeconds(DAY);
    assert CeilDays(DAY) == 1;
    ExpirySplits(9 * (SECOND / 10), 1);
  }

  // ---- renewal ----

  /** One renewal request: the role now stored under the lease's role name, the mount default, the
      increment asked for, the clock at the start and in capRenewToRobot, and how each call goes. */
  datatype Request = Request(role: Option<Role>, defaultTTL: int, increment: int, start: int, later: int,
                             client: bool, get: Reply, update: Reply, reread: Reply)

  datatype Renewal = Granted(ttl: int, maxTTL: int, recorded: int) | Failed

  /** The TTL the renewal must cover, an upper bound on what Vault will grant. */
  function NeededTTL(role: Role, defaultTTL: int, increment: int): (needed: int)
    ensures var own := if role.ttl > 0 then role.ttl else defaultTTL;
            needed >= own && needed >= increment && needed in {own, increment}
  {
    var ttl := if role.ttl <= 0 then defaultTTL else role.ttl;
    if increment > ttl then increment else ttl
  }

  /** PUT /robots/{id} with a new duration. */
  function Extended(robot: Robot, days: int): Robot {
    if days == robot.duration then robot else Robot(robot.created, days, ExpiresAt(robot.created, days))
  }

  function Cap(ttl: int, remaining: int): int {
    if ttl <= 0 || ttl > remaining then remaining else ttl
  }

  /** capRenewToRobot. */
  function CappedTo(role: Role, lease: Lease, expiresAt: int, now: int): Renewal {
    if expiresAt == NEVER then Granted(role.ttl, role.maxTTL, lease.recorded)
    else
      var remaining := expiresAt * SECOND - now;
      if remaining <= 0 then Failed
      else Granted(Cap(role.ttl, remaining), Cap(role.maxTTL, remaining), lease.recorded)
  }

  /** secretRobotRenew: its answer and the robot it leaves in Harbor. */
  function RenewalOf(lease: Lease, robot: Option<Robot>, rq: Request): (Renewal, Option<Robot>) {
    if rq.role.None? then (Failed, robot)
    else
      var role := rq.role.value;
      var want := rq.start + NeededTTL(role, rq.defaultTTL, rq.increment);
      if lease.recorded == NEVER || lease.recorded * SECOND > want then
        (Granted(role.ttl, role.maxTTL, lease.recorded), robot)
      else if !rq.client || rq.get != Answer || robot.None? then (Failed, robot)
      else
        var found := robot.value;
        var created := if lease.created.Some? then lease.created.value else found.created;
        var updated := if rq.update.Refuse? then found else Extended(found, DurationForExpiry(created, want));
        if rq.update != Answer then (CappedTo(role, lease, found.expiresAt, rq.later), Some(updated))
        else if rq.reread != Answer then (Failed, Some(updated))
        else if updated.expiresAt != NEVER && updated.expiresAt * SECOND < want then
          (CappedTo(role, lease, updated.expiresAt, rq.later), Some(updated))
        else (Granted(role.ttl, role.maxTTL, updated.expiresAt), Some(updated))
  }

  /** Harbor's side of one lease. */
  class RobotRecord {
    var robot: Option<Robot>

    constructor (robot: Option<Robot>)
      ensures this.robot == robot
    {
      this.robot := robot;
    }

    method Get(reply: Reply) returns (status: Status, found: Robot)
      ensures status.Ok? <==> reply == Answer && robot.Some?
      ensures status.Ok? ==> robot == Some(found)
      ensures !status.Crash?
    {
      found := Robot(0, 0, NEVER);
      match reply
      case Refuse(code) => status := Err(code);
      case LostAnswer => status := Err(Other);
      case Answer =>
        if robot.Some? {
          status, found := Ok, robot.value;
        } else {
          status := Err(NotFound);
        }
    }

    method Update(duration: int, reply: Reply) returns (status: Status)
      requires robot.Some?
      modifies this
      ensures robot == Some(if reply.Refuse? then old(robot.value) else Extended(old(robot.value), duration))
      ensures status.Ok? <==> reply == Answer
    {
      status := if reply == Answer then Ok else if reply.Refuse? then Err(reply.code) else Err(Other);
      if !reply.Refuse? && duration != robot.value.duration {
        robot := Some(Robot(robot.value.created, duration, ExpiresAt(robot.value.created, duration)));
      }
    }
  }

  /** The secret of a lease, whose TTLs and internal data a renewal rewrites in place. */
  class Secret {
    const issued: int
    const created: Option<int>
    var ttl: int
    var maxTTL: int
    var recorded: int

    constructor (lease: Lease, ttl: int, maxTTL: int)
      ensures TheLease() == lease && this.ttl == ttl && this.maxTTL == maxTTL
    {
      issued, created, recorded := lease.issued, lease.created, lease.recorded;
      this.ttl, this.maxTTL := ttl, maxTTL;
    }

    function TheLease(): Lease
      reads this
    {
      Lease(issued, created, recorded)
    }

    /** capRenewToRobot on the secret the handler has already given the role's TTLs. */
    method CapToRobot(expiresAt: int, now: int) returns (ok: bool)
      modifies this`ttl, this`maxTTL
      ensures var spec := CappedTo(Role(old(ttl), old(maxTTL)), old(TheLease()), expiresAt, now);
              && ok == spec.Granted?
              && (ok ==> Granted(ttl, maxTTL, recorded) == spec)
    {
      if expiresAt == NEVER {
        return true;
      }
      var remaining := expiresAt * SECOND - now;
      if remaining <= 0 {
        return false;
      }
      if ttl <= 0 || ttl > remaining {
        ttl := remaining;
      }
      if maxTTL <= 0 || maxTTL > remaining {
        maxTTL := remaining;
      }
      return true;
    }

    method Renew(harbor: RobotRecord, rq: Request) returns (ok: bool)
      modifies this, harbor
      ensures var (spec, left) := RenewalOf(old(TheLease()), old(harbor.robot), rq);
              && harbor.robot == left
              && ok == spec.Granted?
              && (ok ==> Granted(ttl, maxTTL, recorded) == spec)
      ensures !ok ==> recorded == old(recorded)
    {
      if rq.role.None? {
        return false;
      }
      var role := rq.role.value;
      ttl, maxTTL := role.ttl, role.maxTTL;
      var needed := role.ttl;
      if needed <= 0 {
        needed := rq.defaultTTL;
      }
      if rq.increment > needed {
        needed := rq.increment;
      }
      var want := rq.start + needed;
      if recorded == NEVER || recorded * SECOND > want {
        return true;
      }
      if !rq.client {
        return false;
      }
      var status, robot := harbor.Get(rq.get);
      if !status.Ok? {
        return false;
      }
      var from := if created.Some? then created.value else robot.created;
      status := harbor.Update(DurationForExpiry(from, want), rq.update);
      if !status.Ok? {
        ok := CapToRobot(robot.expiresAt, rq.later);
        return;
      }
      var updated;
      status, updated := harbor.Get(rq.reread);
      if !status.Ok? {
        return false;
      }
      if updated.expiresAt != NEVER && updated.expiresAt * SECOND < want {
        ok := CapToRobot(updated.expiresAt, rq.later);
        return;
      }
      recorded := updated.expiresAt;
      return true;
    }
  }

  // ---- what holds over every run of renewals ----

  /** The robot expires a whole number of days after its creation and the lease records an expiry the
      robot once had, not later than the present one. */
  ghost predicate Consistent(lease: Lease, robot: Robot) {
    && (lease.created.Some? ==> lease.created.value == robot.created)
    && 1 <= robot.duration <= MAX_DAYS
    && robot.expiresAt == ExpiresAt(robot.created, robot.duration)
    && exists k :: 1 <= k <= robot.duration && lease.recorded == ExpiresAt(robot.created, k)
  }

  /** The lease Vault keeps after a renewal: a failed one leaves it alone. */
  function Renewed(lease: Lease, result: Renewal): Lease {
    if result.Granted? then lease.(recorded := result.recorded) else lease
  }

  function RenewAll(lease: Lease, robot: Option<Robot>, rqs: seq<Request>): (Lease, Option<Robot>)
    decreases |rqs|
  {
    if rqs == [] then (lease, robot)
    else
      var (result, left) := RenewalOf(lease, robot, rqs[0]);
      RenewAll(Renewed(lease, result), left, rqs[1..])
  }

  lemma IssueIsConsistent(created: int, issued: int, maxTTL: int)
    requires 0 < maxTTL <= MAX_DURATION
    ensures var robot := Create(created, TtlToDays(maxTTL)); Consistent(IssuedLease(robot, issued), robot)
  {
    TtlToDaysNearCeiling(maxTTL);
  }

  lemma LaterDaysLaterExpiry(created: int, j: int, k: int)
    ensures j <= k <==> ExpiresAt(created, j) <= ExpiresAt(created, k)
  {
    ExpirySplits(created, j);
    ExpirySplits(created, k);
  }

  /** An extension to at least the recorded number of days keeps the old record valid and makes the
      new expiry a valid record. */
  lemma ExtensionKeepsConsistent(lease: Lease, robot: Robot, days: int, k: int)
    requires Consistent(lease, robot)
    requires 1 <= k <= days <= MAX_DAYS && lease.recorded == ExpiresAt(robot.created, k)
    ensures Consistent(lease, Extended(robot, days))
    ensures Consistent(lease.(recorded := Extended(robot, days).expiresAt), Extended(robot, days))
  {
  }

  /** A renewal leaves robot and record alone, or extends the robot towards the wanted instant, and then
      may record the new expiry. */
  lemma RenewalExtendsAtMost(lease: Lease, robot: Robot, rq: Request)
    requires lease.created.Some? ==> lease.created.value == robot.created
    ensures var (result, left) := RenewalOf(lease, Some(robot), rq);
            || (left == Some(robot) && Renewed(lease, result) == lease)
            || (rq.role.Some?
                && var want := rq.start + NeededTTL(rq.role.value, rq.defaultTTL, rq.increment);
                   var extended := Extended(robot, DurationForExpiry(robot.created, want));
                   && lease.recorded * SECOND <= want && left == Some(extended)
                   && (Renewed(lease, result) == lease
                       || Renewed(lease, result) == lease.(recorded := extended.expiresAt)))
  {
    assert lease.(recorded := lease.recorded) == lease;
  }

  /** One renewal, whatever fails in it, keeps the recorded expiry at or below the actual one, even
      when its update shortens the robot. */
  lemma RenewKeepsConsistent(lease: Lease, robot: Robot, rq: Request)
    requires Consistent(lease, robot) && robot.created >= 0
    ensures var (result, left) := RenewalOf(lease, Some(robot), rq);
            && left.Some? && left.value.created == robot.created
            && Consistent(Renewed(lease, result), left.value)
  {
    RenewalExtendsAtMost(lease, robot, rq);
    var (result, left) := RenewalOf(lease, Some(robot), rq);
    if left != Some(robot) || Renewed(lease, result) != lease {
      ExtensionStaysConsistent(lease, robot, rq.start + NeededTTL(rq.role.value, rq.defaultTTL, rq.increment));
    }
  }

  lemma ExtensionStaysConsistent(lease: Lease, robot: Robot, want: int)
    requires Consistent(lease, robot) && robot.created >= 0 && lease.recorded * SECOND <= want
    ensures var extended := Extended(robot, DurationForExpiry(robot.created, want));
            Consistent(lease, extended) && Consistent(lease.(recorded := extended.expiresAt), extended)
  {
    var k :| 1 <= k <= robot.duration && lease.recorded == ExpiresAt(robot.created, k);
    NeverFewerDays(robot.created, want, k);
    ExtensionKeepsConsistent(lease, robot, DurationForExpiry(robot.created, want), k);
  }

  /** Over any run of renewals the expiry recorded on the lease never exceeds Harbor's. */
  lemma {:induction false} RecordedNeverExceedsActual(lease: Lease, robot: Robot, rqs: seq<Request>)
    requires Consistent(lease, robot) && robot.created >= 0
    ensures var (lease', robot') := RenewAll(lease, Some(robot), rqs);
            && robot'.Some? && robot'.value.created == robot.created
            && Consistent(lease', robot'.value) && lease'.issued == lease.issued
            && 0 < lease'.recorded <= robot'.value.expiresAt
    decreases |rqs|
  {
    if rqs == [] {
      var k :| 1 <= k <= robot.duration && lease.recorded == ExpiresAt(robot.created, k);
      LaterDaysLaterExpiry(robot.created, k, robot.duration);
      ExpirySplits(robot.created, k);
    } else {
      var (result, left) := RenewalOf(lease, Some(robot), rqs[0]);
      RenewKeepsConsistent(lease, robot, rqs[0]);
      RecordedNeverExceedsActual(Renewed(lease, result), left.value, rqs[1..]);
    }
  }

  /** The instant the robot must reach for a renewal. */
  function Wanted(rq: Request): int
    requires rq.role.Some?
  {
    rq.start + NeededTTL(rq.role.value, rq.defaultTTL, rq.increment)
  }

  /** The update asks for fewer days than the robot has, and its answer is lost: the handler then works
      with an expiry the robot no longer has. */
  predicate ShortensUnseen(lease: Lease, robot: Robot, rq: Request)
    requires rq.role.Some?
  {
    rq.update == LostAnswer && lease.recorded * SECOND <= Wanted(rq)
    && DurationForExpiry(robot.created, Wanted(rq)) < robot.duration
  }

  /** The lease ends within the shortened life all the same: by its increment or TTL, by a maximum, or
      because the days lost are no more than what the handler takes off anyway. */
  predicate EndsInTime(lease: Lease, robot: Robot, rq: Request, vaultNow: int, mountMax: int)
    requires rq.role.Some?
  {
    var role, days := rq.role.value, DurationForExpiry(robot.created, Wanted(rq));
    var lost := (robot.duration - days) * DAY;
    var limit := ExpiresAt(robot.created, days) * SECOND + (vaultNow - rq.start);
    || (rq.increment > 0 && vaultNow + rq.increment <= limit)
    || (rq.increment <= 0 && role.ttl > 0 && vaultNow + role.ttl <= limit)
    || (role.maxTTL > 0 && lease.issued + role.maxTTL <= limit)
    || (mountMax > 0 && lease.issued + mountMax <= limit)
    || lost <= (rq.later - lease.issued) + (vaultNow - rq.start)
    || (rq.increment <= 0 && lost <= rq.later - rq.start)
  }

  predicate WithinLife(robot: Robot, end: int, rq: Request, vaultNow: int) {
    end <= robot.expiresAt * SECOND + (vaultNow - rq.start)
  }

  /** The lease Vault makes of a granted renewal. */
  function RenewedEnd(lease: Lease, result: Renewal, rq: Request, vaultNow: int, mountMax: int): int
    requires result.Granted?
  {
    LeaseEnd(vaultNow, rq.increment, result.ttl, rq.defaultTTL, lease.issued, result.maxTTL, mountMax)
  }

  /** A granted renewal ends no later than Harbor's expiry plus the time between the handler's clock
      reading and Vault's, in every branch and whatever fails, if and only if the call does not shorten
      the robot unseen or its lease ends in time anyway. */
  lemma GrantedLeaseIsCovered(lease: Lease, robot: Robot, rq: Request, vaultNow: int, mountMax: int)
    requires Consistent(lease, robot) && robot.created >= 0
    requires rq.start <= vaultNow && lease.issued <= rq.later
    requires RenewalOf(lease, Some(robot), rq).0.Granted?
    ensures var (result, left) := RenewalOf(lease, Some(robot), rq);
            && left.Some?
            && (WithinLife(left.value, RenewedEnd(lease, result, rq, vaultNow, mountMax), rq, vaultNow)
                <==> !ShortensUnseen(lease, robot, rq) || EndsInTime(lease, robot, rq, vaultNow, mountMax))
  {
    if ShortensUnseen(lease, robot, rq) {
      UnseenShorteningExactly(lease, robot, rq, vaultNow, mountMax);
    } else {
      SeenRenewalIsCovered(lease, robot, rq, vaultNow, mountMax);
    }
  }

  lemma SeenRenewalIsCovered(lease: Lease, robot: Robot, rq: Request, vaultNow: int, mountMax: int)
    requires Consistent(lease, robot) && robot.created >= 0
    requires rq.start <= vaultNow && lease.issued <= rq.later
    requires RenewalOf(lease, Some(robot), rq).0.Granted? && !ShortensUnseen(lease, robot, rq)
    ensures var (result, left) := RenewalOf(lease, Some(robot), rq);
            left.Some? && WithinLife(left.value, RenewedEnd(lease, result, rq, vaultNow, mountMax), rq, vaultNow)
  {
    RecordIsLater(lease, robot);
    if lease.recorded * SECOND <= Wanted(rq) {
      var days := DurationForExpiry(robot.created, Wanted(rq));
      ExtensionStaysConsistent(lease, robot, Wanted(rq));
      RecordIsLater(lease, Extended(robot, days));
      LaterDaysLaterExpiry(robot.created, robot.duration, days);
      ExtensionIsCovered(lease, robot, Extended(robot, days), rq, vaultNow, mountMax);
    } else {
      FullGrantEnds(lease, lease.recorded, rq, vaultNow, mountMax);
    }
  }

  /** A capped lease ends within the expiry it was capped to. */
  lemma CapIsCovered(role: Role, lease: Lease, expiresAt: int, rq: Request, vaultNow: int, mountMax: int)
    requires expiresAt != NEVER && lease.issued <= rq.later && CappedTo(role, lease, expiresAt, rq.later).Granted?
    ensures RenewedEnd(lease, CappedTo(role, lease, expiresAt, rq.later), rq, vaultNow, mountMax) <= expiresAt * SECOND
  {
  }

  /** An uncapped one ends at the wanted instant at the latest. */
  lemma FullGrantEnds(lease: Lease, recorded: int, rq: Request, vaultNow: int, mountMax: int)
    requires rq.role.Some?
    ensures var full := Granted(rq.role.value.ttl, rq.role.value.maxTTL, recorded);
            RenewedEnd(lease, full, rq, vaultNow, mountMax) <= Wanted(rq) + (vaultNow - rq.start)
  {
  }

  lemma ExtensionIsCovered(lease: Lease, robot: Robot, extended: Robot, rq: Request, vaultNow: int, mountMax: int)
    requires (lease.created.Some? ==> lease.created.value == robot.created) && rq.role.Some?
    requires rq.start <= vaultNow && lease.issued <= rq.later && 0 <= lease.recorded
    requires lease.recorded * SECOND <= Wanted(rq)
    requires extended == Extended(robot, DurationForExpiry(robot.created, Wanted(rq)))
    requires 0 < robot.expiresAt && 0 < extended.expiresAt
    requires rq.update == LostAnswer ==> robot.expiresAt <= extended.expiresAt
    requires RenewalOf(lease, Some(robot), rq).0.Granted?
    ensures var (result, left) := RenewalOf(lease, Some(robot), rq);
            left.Some? && WithinLife(left.value, RenewedEnd(lease, result, rq, vaultNow, mountMax), rq, vaultNow)
  {
    if rq.update != Answer {
      CapIsCovered(rq.role.value, lease, robot.expiresAt, rq, vaultNow, mountMax);
    } else if extended.expiresAt * SECOND < Wanted(rq) {
      CapIsCovered(rq.role.value, lease, extended.expiresAt, rq, vaultNow, mountMax);
    } else {
      FullGrantEnds(lease, extended.expiresAt, rq, vaultNow, mountMax);
    }
  }

  /** One of the limits on a lease capped to a life of rest ends it by the given instant. */
  predicate SomeLimitBy(lease: Lease, rq: Request, rest: int, vaultNow: int, mountMax: int, limit: int)
    requires rq.role.Some?
  {
    var role := rq.role.value;
    || (rq.increment > 0 && vaultNow + rq.increment <= limit)
    || (rq.increment <= 0 && role.ttl > 0 && vaultNow + role.ttl <= limit)
    || (rq.increment <= 0 && vaultNow + rest <= limit)
    || (role.maxTTL > 0 && lease.issued + role.maxTTL <= limit)
    || (mountMax > 0 && lease.issued + mountMax <= limit)
    || lease.issued + rest <= limit
  }

  lemma CappedEndExactly(lease: Lease, expiresAt: int, rq: Request, vaultNow: int, mountMax: int, limit: int)
    requires rq.role.Some? && expiresAt != NEVER && CappedTo(rq.role.value, lease, expiresAt, rq.later).Granted?
    ensures RenewedEnd(lease, CappedTo(rq.role.value, lease, expiresAt, rq.later), rq, vaultNow, mountMax) <= limit
       <==> SomeLimitBy(lease, rq, expiresAt * SECOND - rq.later, vaultNow, mountMax, limit)
  {
  }

  lemma UnseenShorteningExactly(lease: Lease, robot: Robot, rq: Request, vaultNow: int, mountMax: int)
    requires Consistent(lease, robot) && robot.created >= 0
    requires rq.start <= vaultNow && lease.issued <= rq.later
    requires RenewalOf(lease, Some(robot), rq).0.Granted? && ShortensUnseen(lease, robot, rq)
    ensures var (result, left) := RenewalOf(lease, Some(robot), rq);
            && left == Some(Extended(robot, DurationForExpiry(robot.created, Wanted(rq))))
            && (WithinLife(left.value, RenewedEnd(lease, result, rq, vaultNow, mountMax), rq, vaultNow)
                <==> EndsInTime(lease, robot, rq, vaultNow, mountMax))
  {
    var days := DurationForExpiry(robot.created, Wanted(rq));
    RecordIsLater(lease, robot);
    ExpirySplits(robot.created, days);
    ExpirySplits(robot.created, robot.duration);
    assert robot.expiresAt * SECOND == ExpiresAt(robot.created, days) * SECOND + (robot.duration - days) * DAY;
    var limit := ExpiresAt(robot.created, days) * SECOND + (vaultNow - rq.start);
    CappedEndExactly(lease, robot.expiresAt, rq, vaultNow, mountMax, limit);
  }

  /** Whatever answers are lost, the lease ends no later than the robot would have or does. When the role
      has a TTL or the request an increment, what a lost answer can cost is less than a second (plus
      1140 ns). The wanted instant is within the range of a Go duration from the robot's creation. */
  lemma LostAnswersCostUnderASecond(lease: Lease, robot: Robot, rq: Request, vaultNow: int, mountMax: int)
    requires Consistent(lease, robot) && robot.created >= 0
    requires rq.start <= vaultNow && lease.issued <= rq.later
    requires RenewalOf(lease, Some(robot), rq).0.Granted?
    ensures var (result, left) := RenewalOf(lease, Some(robot), rq);
            var end := RenewedEnd(lease, result, rq, vaultNow, mountMax);
            && left.Some?
            && (WithinLife(left.value, end, rq, vaultNow) || WithinLife(robot, end, rq, vaultNow))
            && (rq.role.value.ttl > 0 || rq.increment > 0 ==> Wanted(rq) <= robot.created + MAX_DURATION ==>
                  end < left.value.expiresAt * SECOND + (vaultNow - rq.start) + SECOND + FLOAT_SLACK)
  {
    if ShortensUnseen(lease, robot, rq) {
      RecordIsLater(lease, robot);
      if Wanted(rq) <= robot.created + MAX_DURATION {
        ExtensionReaches(lease, robot, Wanted(rq));
      }
    } else {
      SeenRenewalIsCovered(lease, robot, rq, vaultNow, mountMax);
    }
  }

  const EXTEND := Request(Some(Role(0, 0)), DAY, 30 * DAY, 0, 0, true, Answer, Answer, Refuse(Other))
  const SHORTEN := Request(Some(Role(0, 0)), DAY, 0, DAY, DAY, true, Answer, LostAnswer, Answer)

  lemma ThirtyDaysUnrecorded()
    ensures var robot := Create(0, 1);
            RenewalOf(IssuedLease(robot, 0), Some(robot), EXTEND) == (Failed, Some(Robot(0, 30, 30 * DAY_SECONDS)))
  {
    ExactOnWholeSeconds(30 * DAY);
    ExpirySplits(0, 1);
    ExpirySplits(0, 30);
  }

  lemma TwoDaysForThirty()
    ensures RenewalOf(Lease(0, Some(0), DAY_SECONDS), Some(Robot(0, 30, 30 * DAY_SECONDS)), SHORTEN)
              == (Granted(29 * DAY, 29 * DAY, DAY_SECONDS), Some(Robot(0, 2, 2 * DAY_SECONDS)))
  {
    ExactOnWholeSeconds(2 * DAY);
    ExpirySplits(0, 2);
  }

  /** Without either, it can cost days. A robot issued for a day is extended to thirty by a renewal whose
      last read fails, and cut to two by a renewal whose answer is lost; the handler then grants the
      rest of the thirty days, and the lease outlives the robot by twenty-seven. */
  lemma LostShorteningUncoversALease()
    ensures var robot := Create(0, TtlToDays(DAY));
            var (lease, before) := RenewAll(IssuedLease(robot, 0), Some(robot), [EXTEND]);
            var (result, after) := RenewalOf(lease, before, SHORTEN);
            && result.Granted? && after.Some?
            && RenewedEnd(lease, result, SHORTEN, DAY, 32 * DAY) == after.value.expiresAt * SECOND + 27 * DAY
  {
    ExactOnWholeSeconds(DAY);
    ThirtyDaysUnrecorded();
    TwoDaysForThirty();
    ExpirySplits(0, 1);
    assert TtlToDays(DAY) == 1;
    var lease := Lease(0, Some(0), DAY_SECONDS);
    var extended := Some(Robot(0, 30, 30 * DAY_SECONDS));
    assert RenewAll(lease, extended, []) == (lease, extended);
    assert [EXTEND][1..] == [] && [EXTEND][0] == EXTEND;
    assert RenewAll(lease, Some(Create(0, 1)), [EXTEND]) == (lease, extended);
  }

  /** The robot is still alive at the given instant; an expiry of NEVER never passes. */
  predicate AliveAt(expiresAt: int, now: int) {
    expiresAt == NEVER || now < expiresAt * SECOND
  }

  /** The lease already records an expiry past the wanted instant. */
  predicate AlreadyCovered(lease: Lease, rq: Request)
    requires rq.role.Some?
  {
    lease.recorded == NEVER || Wanted(rq) < lease.recorded * SECOND
  }

  /** The days an update asks for. */
  function WantedDays(lease: Lease, robot: Robot, rq: Request): int
    requires rq.role.Some?
  {
    DurationForExpiry(if lease.created.Some? then lease.created.value else robot.created, Wanted(rq))
  }

  /** The expiry Harbor gives a robot updated to these days. */
  function ExpiryAfter(robot: Robot, days: int): int {
    if days == robot.duration then robot.expiresAt else ExpiresAt(robot.created, days)
  }

  /** A renewal is granted if and only if its role exists, and either the lease is covered already, or the
      robot can be read and what the update leaves of it can be granted: an update reported as failed must
      leave life in the robot as read before, one that succeeded must be read again and leave the robot
      alive or reach the wanted instant. */
  lemma RenewalGrantedExactly(lease: Lease, robot: Option<Robot>, rq: Request)
    ensures RenewalOf(lease, robot, rq).0.Granted?
       <==> && rq.role.Some?
            && (AlreadyCovered(lease, rq)
                || (rq.client && rq.get == Answer && robot.Some?
                    && (rq.update != Answer ==> AliveAt(robot.value.expiresAt, rq.later))
                    && (rq.update == Answer ==>
                          && rq.reread == Answer
                          && var after := ExpiryAfter(robot.value, WantedDays(lease, robot.value, rq));
                             (AliveAt(after, rq.later) || Wanted(rq) <= after * SECOND))))
  {
  }

  /** The robot is touched only by an update that reached Harbor, and then has the wanted days. */
  lemma RenewalTouchesExactly(lease: Lease, robot: Robot, rq: Request)
    ensures var left := RenewalOf(lease, Some(robot), rq).1;
            if rq.role.Some? && !AlreadyCovered(lease, rq) && rq.client && rq.get == Answer && !rq.update.Refuse?
            then
              var days := WantedDays(lease, robot, rq);
              left == Some(Robot(robot.created, days, ExpiryAfter(robot, days)))
            else left == Some(robot)
  {
  }

  /** What a TTL is cut to: at most what is left of the robot's life, and no lower than it asked for or that. */
  predicate CutTo(ttl: int, asked: int, rest: int) {
    0 < ttl <= rest && (asked > 0 ==> ttl <= asked) && (ttl == asked || ttl == rest)
  }

  /** A refused update, as for every robot-mode issuer, leaves the robot alone; while it lives the renewal is
      granted, with both TTLs cut to its remaining life and the recorded expiry as it was. */
  lemma RefusedUpdateIsCapped(lease: Lease, robot: Robot, rq: Request)
    requires rq.role.Some? && !AlreadyCovered(lease, rq) && rq.client && rq.get == Answer && rq.update.Refuse?
    requires robot.expiresAt != NEVER
    ensures var (result, left) := RenewalOf(lease, Some(robot), rq);
            && left == Some(robot) && (result.Granted? <==> rq.later < robot.expiresAt * SECOND)
            && (result.Granted? ==>
                  var rest := robot.expiresAt * SECOND - rq.later;
                  && CutTo(result.ttl, rq.role.value.ttl, rest) && CutTo(result.maxTTL, rq.role.value.maxTTL, rest)
                  && result.recorded == lease.recorded)
  {
  }

  /** A renewal the recorded expiry already covers is granted as the role says, without any call. */
  lemma CoveredRenewalIsFree(lease: Lease, robot: Option<Robot>, rq: Request)
    requires rq.role.Some? && AlreadyCovered(lease, rq)
    ensures RenewalOf(lease, robot, rq) == (Granted(rq.role.value.ttl, rq.role.value.maxTTL, lease.recorded), robot)
  {
  }

  /** An extension that reaches the wanted instant is granted as the role says, and the lease records the
      expiry read after it; one that does not is cut to the robot's remaining life. */
  lemma ExtensionIsRecorded(lease: Lease, robot: Robot, rq: Request)
    requires rq.role.Some? && !AlreadyCovered(lease, rq) && rq.client && rq.get == Answer
    requires rq.update == Answer && rq.reread == Answer
    ensures var (result, left) := RenewalOf(lease, Some(robot), rq);
            && left.Some?
            && var after := left.value.expiresAt;
               (if after == NEVER || Wanted(rq) <= after * SECOND then
                  result == Granted(rq.role.value.ttl, rq.role.value.maxTTL, after)
                else
                  var rest := after * SECOND - rq.later;
                  && (result.Granted? <==> 0 < rest)
                  && (result.Granted? ==>
                        && CutTo(result.ttl, rq.role.value.ttl, rest)
                        && CutTo(result.maxTTL, rq.role.value.maxTTL, rest)
                        && result.recorded == lease.recorded))
  {
  }

  /** When all calls succeed and the wanted instant is more than a second (and 1140 ns) off, the renewal
      is granted, the robot reaches that instant to within a second, and a TTL is the role's unless it is
      cut to exactly the robot's remaining life. */
  lemma SuccessfulRenewalLosesUnderASecond(lease: Lease, robot: Robot, rq: Request)
    requires Consistent(lease, robot) && robot.created >= 0 && rq.role.Some?
    requires rq.client && rq.get == Answer && rq.update == Answer && rq.reread == Answer
    requires var want := rq.start + NeededTTL(rq.role.value, rq.defaultTTL, rq.increment);
             want <= robot.created + MAX_DURATION && rq.later <= want - SECOND - FLOAT_SLACK
    ensures var want := rq.start + NeededTTL(rq.role.value, rq.defaultTTL, rq.increment);
            var (result, left) := RenewalOf(lease, Some(robot), rq);
            && result.Granted? && left.Some?
            && left.value.expiresAt * SECOND > want - SECOND - FLOAT_SLACK
            && (result.ttl == rq.role.value.ttl || rq.later + result.ttl == left.value.expiresAt * SECOND)
            && (result.maxTTL == rq.role.value.maxTTL || rq.later + result.maxTTL == left.value.expiresAt * SECOND)
  {
    var want := rq.start + NeededTTL(rq.role.value, rq.defaultTTL, rq.increment);
    RecordIsLater(lease, robot);
    if lease.recorded * SECOND <= want {
      ExtensionReaches(lease, robot, want);
    }
  }

  lemma RecordIsLater(lease: Lease, robot: Robot)
    requires Consistent(lease, robot) && robot.created >= 0
    ensures 0 < lease.recorded <= robot.expiresAt
  {
    var k :| 1 <= k <= robot.duration && lease.recorded == ExpiresAt(robot.created, k);
    LaterDaysLaterExpiry(robot.created, k, robot.duration);
    ExpirySplits(robot.created, k);
  }

  lemma ExtensionReaches(lease: Lease, robot: Robot, want: int)
    requires Consistent(lease, robot) && robot.created >= 0
    requires lease.recorded * SECOND <= want <= robot.created + MAX_DURATION
    ensures var extended := Extended(robot, DurationForExpiry(robot.created, want));
            extended.expiresAt > 0 && extended.expiresAt * SECOND > want - SECOND - FLOAT_SLACK
  {
    var k :| 1 <= k <= robot.duration && lease.recorded == ExpiresAt(robot.created, k);
    ExpirySplits(robot.created, k);
    NeverFewerDays(robot.created, want, k);
    ExpirySplits(robot.created, DurationForExpiry(robot.created, want));
    ExtensionMissesByUnderASecond(robot.created, want);
  }

  /** From issuance on, whatever renewals came before and however they failed, the next granted one is
      covered by the robot's expiry under exactly the same condition. */
  lemma EveryGrantIsCovered(created: int, issued: int, maxTTL: int, rqs: seq<Request>, rq: Request, vaultNow: int,
                            mountMax: int)
    requires 0 < maxTTL <= MAX_DURATION && created >= 0
    requires rq.start <= vaultNow && issued <= rq.later
    ensures var robot := Create(created, TtlToDays(maxTTL));
            var (lease, before) := RenewAll(IssuedLease(robot, issued), Some(robot), rqs);
            var (result, after) := RenewalOf(lease, before, rq);
            result.Granted? ==>
              && before.Some? && after.Some? && rq.role.Some?
              && (WithinLife(after.value, RenewedEnd(lease, result, rq, vaultNow, mountMax), rq, vaultNow)
                  <==> !ShortensUnseen(lease, before.value, rq)
                       || EndsInTime(lease, before.value, rq, vaultNow, mountMax))
  {
    var robot := Create(created, TtlToDays(maxTTL));
    IssueIsConsistent(created, issued, maxTTL);
    RecordedNeverExceedsActual(IssuedLease(robot, issued), robot, rqs);
    var (lease, before) := RenewAll(IssuedLease(robot, issued), Some(robot), rqs);
    if RenewalOf(lease, before, rq).0.Granted? {
      GrantedLeaseIsCovered(lease, before.value, rq, vaultNow, mountMax);
    }
  }
}
