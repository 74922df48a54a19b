/** Two-phase rotation of the root password, its settlement, and the configuration writes around it
    (internal/backend/path_config.go, getClient in internal/backend/backend.go), for one Harbor and one
    account. Every call to storage or Harbor consumes one reply of a script; when the script is used up
    the process crashes there. Quantifying over scripts is quantifying over all failures and all crash
    points, so the state after a script is also every intermediate state. */
module RootRotation {
  import opened Common
  import opened SecretGen
  import Naming

  /** Unknown stands for every other value of auth_type. */
  datatype AuthType = User | Robot | Unknown

  /** How Harbor is reached; timeout in nanoseconds. */
  datatype Settings = Settings(url: string, username: string, caCert: string, skipVerify: bool, timeout: int,
                               prefix: string)

  /** The stored configuration. An empty pending password means that no rotation is pending. */
  datatype Config = Config(password: seq<char>, pending: seq<char>, authType: AuthType, lastRotated: int,
                           settings: Settings)

  /** What survives a crash: Vault's storage, and the password Harbor accepts. */
  datatype World = World(stored: Option<Config>, live: seq<char>)

  // ---- single calls ----

  function PutStatus(r: Reply): Status {
    if r == Answer then Ok else Err(Other)
  }

  function Put(w: World, cfg: Option<Config>, r: Reply): World {
    if r.Refuse? then w else w.(stored := cfg)
  }

  /** verifyConnection. Harbor authenticates before it authorises, so a wrong password never earns a
      403; in robot mode a 403 proves the credential. */
  function ProbeStatus(live: seq<char>, password: seq<char>, authType: AuthType, r: Reply): (s: Status)
    ensures s.Ok? <==> password == live && (r == Answer || (authType.Robot? && r == Refuse(Forbidden)))
  {
    match r
    case LostAnswer => Err(Other)
    case Answer => if password == live then Ok else Err(Unauthorized)
    case Refuse(code) =>
      if code.Forbidden? && password != live then Err(Unauthorized)
      else if code.Forbidden? && authType.Robot? then Ok
      else Err(code)
  }

  /** PUT /users/{id}/password with the stored password as both credential and old password. */
  function ChangedPassword(live: seq<char>, current: seq<char>, next: seq<char>, r: Reply): seq<char> {
    if !r.Refuse? && current == live then next else live
  }

  function ChangeStatus(live: seq<char>, current: seq<char>, r: Reply): Status {
    match r
    case LostAnswer => Err(Other)
    case Refuse(code) => Err(code)
    case Answer => if current == live then Ok else Err(Unauthorized)
  }

  // ---- settlement ----

  datatype Settled = Settled(world: World, cfg: Config, rest: seq<Reply>, status: Status)

  function SettleWith(w: World, cfg: Config, script: seq<Reply>): Settled {
    if script == [] then Settled(w, cfg, [], Crash)
    else Settled(Put(w, Some(cfg), script[0]), cfg, script[1..], PutStatus(script[0]))
  }

  /** settlePendingRotation. */
  function Settle(w: World, cfg: Config, now: int, script: seq<Reply>): Settled {
    if script == [] then Settled(w, cfg, [], Crash)
    else
      match ProbeStatus(w.live, cfg.password, cfg.authType, script[0])
      case Ok => SettleWith(w, cfg.(pending := ""), script[1..])
      case Crash => Settled(w, cfg, script[1..], Crash)
      case Err(code) =>
        if !code.Unauthorized? && !code.Forbidden? then Settled(w, cfg, script[1..], Err(code))
        else if |script| == 1 then Settled(w, cfg, [], Crash)
        else
          var second := ProbeStatus(w.live, cfg.pending, cfg.authType, script[1]);
          if !second.Ok? then Settled(w, cfg, script[2..], second)
          else SettleWith(w, cfg.(password := cfg.pending, pending := "", lastRotated := now), script[2..])
  }

  // ---- rotation ----

  datatype Result = Rotated | Rejected | NotConfigured | RobotUnsupported | Failed | Crashed
                  | Ready(cfg: Config) | Written | Deleted | Invalid

  datatype Done = Done(world: World, rest: seq<Reply>, result: Result)

  function Stop(status: Status): Result {
    if status.Crash? then Crashed else Failed
  }

  /** Everything before phase 1: read the configuration and settle what is pending. */
  function Prepare(w: World, now: int, script: seq<Reply>): Done {
    if script == [] then Done(w, [], Crashed)
    else if script[0] != Answer then Done(w, script[1..], Failed)
    else if w.stored.None? then Done(w, script[1..], NotConfigured)
    else if w.stored.value.pending == "" then Done(w, script[1..], Ready(w.stored.value))
    else
      var s := Settle(w, w.stored.value, now, script[1..]);
      Done(s.world, s.rest, if s.status.Ok? then Ready(s.cfg) else Stop(s.status))
  }

  function ClearCandidate(w: World, cfg: Config, script: seq<Reply>): Done {
    if script == [] then Done(w, [], Crashed)
    else Done(Put(w, Some(cfg.(pending := "")), script[0]), script[1..],
              if script[0] == Answer then Rejected else Failed)
  }

  function Commit(w: World, cfg: Config, now: int, script: seq<Reply>): Done {
    if script == [] then Done(w, [], Crashed)
    else Done(Put(w, Some(cfg.(password := cfg.pending, pending := "", lastRotated := now)), script[0]), script[1..],
              if script[0] == Answer then Rotated else Failed)
  }

  /** Phases 2 and 3, with the candidate persisted in cfg. */
  function Activate(w: World, cfg: Config, now: int, script: seq<Reply>): Done {
    if script == [] then Done(w, [], Crashed)
    else if !ProbeStatus(w.live, cfg.password, User, script[0]).Ok? then ClearCandidate(w, cfg, script[1..])
    else if |script| == 1 then Done(w, [], Crashed)
    else
      var w' := w.(live := ChangedPassword(w.live, cfg.password, cfg.pending, script[1]));
      if ChangeStatus(w.live, cfg.password, script[1]).Ok? then Commit(w', cfg, now, script[2..])
      else ClearCandidate(w', cfg, script[2..])
  }

  /** Phases 1 to 3. */
  function Install(w: World, cfg: Config, secret: seq<char>, now: int, script: seq<Reply>): Done {
    if script == [] then Done(w, [], Crashed)
    else
      var candidate := cfg.(pending := secret);
      var w' := Put(w, Some(candidate), script[0]);
      if script[0] != Answer then Done(w', script[1..], Failed) else Activate(w', candidate, now, script[1..])
  }

  /** pathRotateRoot. */
  function Rotate(w: World, draws: seq<nat>, now: int, script: seq<Reply>): Done {
    if script == [] then Done(w, [], Crashed)
    else if script[0] == Answer && w.stored.Some? && w.stored.value.authType.Robot? then
      Done(w, script[1..], RobotUnsupported)
    else
      var p := Prepare(w, now, script);
      if !p.result.Ready? then p
      else if Secret(draws).None? then p.(result := Failed)
      else Install(p.world, p.result.cfg, Secret(draws).value, now, p.rest)
  }

  // ---- configuration writes ----

  /** What decides whether settings are usable: lower-casing, and whether harbor.New accepts the address
      and the CA bundle. It does not look at the password. */
  datatype Checks = Checks(lower: Naming.Lowering, builds: Settings -> bool)

  /** The fields of a write to config; absent ones are retained. The URL is trimmed, the auth type
      lower-cased. */
  datatype WriteRequest = WriteRequest(url: Option<string>, username: Option<string>, password: Option<seq<char>>,
                                       authType: Option<AuthType>, caCert: Option<string>, skipVerify: Option<bool>,
                                       timeoutSeconds: Option<int>, prefix: Option<string>, verify: bool,
                                       checks: Checks)

  const DEFAULTS := Settings("", "", "", false, 30 * 1_000_000_000, "vault")

  function Or<T>(field: Option<T>, stored: T): T {
    if field.Some? then field.value else stored
  }

  function MergedSettings(s: Settings, rq: WriteRequest): Settings {
    Settings(Or(rq.url, s.url), Or(rq.username, s.username), Or(rq.caCert, s.caCert), Or(rq.skipVerify, s.skipVerify),
             if rq.timeoutSeconds.Some? then rq.timeoutSeconds.value * 1_000_000_000 else s.timeout,
             Or(rq.prefix, s.prefix))
  }

  function Merged(stored: Option<Config>, rq: WriteRequest): Config {
    var base := if stored.Some? then stored.value else Config("", "", User, 0, DEFAULTS);
    Config(Or(rq.password, base.password), if rq.password.Some? then "" else base.pending,
           Or(rq.authType, base.authType), base.lastRotated, MergedSettings(base.settings, rq))
  }

  /** The rules of a stored configuration. */
  predicate Usable(cfg: Config, c: Checks) {
    var s := cfg.settings;
    && s.url != "" && s.username != "" && cfg.password != "" && !cfg.authType.Unknown? && s.timeout > 0
    && (s.prefix == "" || Naming.NormalizeSegment(s.prefix, c.lower) != "")
    && c.builds(s)
  }

  function Store(w: World, cfg: Option<Config>, script: seq<Reply>, done: Result): Done {
    if script == [] then Done(w, [], Crashed)
    else Done(Put(w, cfg, script[0]), script[1..], if script[0] == Answer then done else Failed)
  }

  /** The end of a config write: the verification, if it is asked for, and the put. */
  function VerifyAndStore(w: World, cfg: Config, verify: bool, script: seq<Reply>): Done {
    if !verify then Store(w, Some(cfg), script, Written)
    else if script == [] then Done(w, [], Crashed)
    else if !ProbeStatus(w.live, cfg.password, cfg.authType, script[0]).Ok? then Done(w, script[1..], Invalid)
    else Store(w, Some(cfg), script[1..], Written)
  }

  /** pathConfigWrite. */
  function Write(w: World, rq: WriteRequest, script: seq<Reply>): Done {
    if script == [] then Done(w, [], Crashed)
    else if script[0] != Answer then Done(w, script[1..], Failed)
    else if !Usable(Merged(w.stored, rq), rq.checks) then Done(w, script[1..], Invalid)
    else VerifyAndStore(w, Merged(w.stored, rq), rq.verify, script[1..])
  }

  // ---- runs ----

  /** One request with the replies it meets. UseClient is getClient on a cold cache; on a warm one it
      makes no call. */
  datatype Op =
    | RotateOp(draws: seq<nat>, now: int, script: seq<Reply>)
    | UseClient(now: int, script: seq<Reply>)
    | WriteOp(rq: WriteRequest, script: seq<Reply>)
    | DeleteOp(script: seq<Reply>)

  function Step(w: World, op: Op): Done {
    match op
    case RotateOp(draws, now, script) => Rotate(w, draws, now, script)
    case UseClient(now, script) => Prepare(w, now, script)
    case WriteOp(rq, script) => Write(w, rq, script)
    case DeleteOp(script) => Store(w, None, script, Deleted)
  }

  function Run(w: World, ops: seq<Op>): World
    decreases |ops|
  {
    if ops == [] then w else Run(Step(w, ops[0]).world, ops[1..])
  }

  /** Vault can still reach Harbor: the live password is stored, and is the committed one when nothing
      is pending. */
  predicate NotLockedOut(w: World) {
    w.stored.Some? ==>
      var cfg := w.stored.value;
      w.live == cfg.password || (cfg.pending != "" && w.live == cfg.pending)
  }

  /** The two ways to lose the password: Harbor changes it, its answer is lost, and the candidate is
      then cleared; or an unverified write stores a wrong password. */
  predicate LosesPassword(w: World, op: Op) {
    match op
    case RotateOp(draws, now, script) =>
      var p := Prepare(w, now, script);
      && script != [] && (w.stored.Some? ==> !w.stored.value.authType.Robot?)
      && p.result.Ready? && Secret(draws).Some?
      && |p.rest| >= 4
      && p.rest[0] == Answer && p.rest[1] == Answer && p.rest[2] == LostAnswer && !p.rest[3].Refuse?
    case WriteOp(rq, script) =>
      && !rq.verify && rq.password.Some? && rq.password.value != w.live && Usable(Merged(w.stored, rq), rq.checks)
      && |script| >= 2 && script[0] == Answer && !script[1].Refuse?
    case _ => false
  }

  /** A rotation's random secret differs from the live password. */
  predicate FreshSecret(w: World, op: Op) {
    op.RotateOp? && Secret(op.draws).Some? ==> Secret(op.draws).value != w.live
  }

  /** Settlement never touches Harbor. It changes storage only to a configuration whose password Harbor
      accepted; when it reports success nothing is pending any more. */
  lemma SettleStoresOnlyWhatHarborAccepted(w: World, cfg: Config, now: int, script: seq<Reply>)
    requires w.stored == Some(cfg)
    ensures var s := Settle(w, cfg, now, script);
            && s.world.live == w.live
            && (s.world.stored != w.stored ==>
                  && s.world.stored.Some? && s.world.stored.value.pending == ""
                  && s.world.stored.value.password == w.live && w.live in {cfg.password, cfg.pending})
            && (s.status.Ok? ==> s.world.stored == Some(s.cfg) && s.cfg.pending == "" && s.cfg.password == w.live
                                 && s.cfg.authType == cfg.authType)
  {
  }

  lemma PrepareKeepsPassword(w: World, now: int, script: seq<Reply>)
    requires NotLockedOut(w)
    ensures var p := Prepare(w, now, script);
            && NotLockedOut(p.world) && p.world.live == w.live
            && (p.result.Ready? ==>
                  p.world.stored == Some(p.result.cfg) && p.result.cfg.pending == "" && p.result.cfg.password == w.live)
  {
    if script != [] && w.stored.Some? {
      SettleStoresOnlyWhatHarborAccepted(w, w.stored.value, now, script[1..]);
    }
  }

  /** From a settled state, a rotation locks Vault out exactly when Harbor took the new password, the
      answer was lost, and clearing the candidate reached storage. Storage errors alone never do,
      whether or not the write took effect. */
  lemma InstallLocksOutExactly(w: World, cfg: Config, secret: seq<char>, now: int, script: seq<Reply>)
    requires w.stored == Some(cfg) && cfg.pending == "" && cfg.password == w.live
    requires secret != "" && secret != w.live
    ensures NotLockedOut(Install(w, cfg, secret, now, script).world)
       <==> !(|script| >= 4 && script[0] == Answer && script[1] == Answer && script[2] == LostAnswer
              && !script[3].Refuse?)
    ensures var live := Install(w, cfg, secret, now, script).world.live; live == w.live || live == secret
    ensures Install(w, cfg, secret, now, script).result == Rotated ==>
              Install(w, cfg, secret, now, script).world ==
                World(Some(cfg.(password := secret, lastRotated := now)), secret)
    ensures var d := Install(w, cfg, secret, now, script);
            d.result == Rejected && |script| >= 3 && script[2] != LostAnswer ==> d.world == w
  {
    if |script| >= 3 {
      assert script[1..][1..] == script[2..];
      assert script[1..][2..] == script[3..];
    }
  }

  /** Every operation keeps the password reachable, unless it loses it in one of the two named ways,
      and then it does lose it. */
  lemma StepLocksOutExactly(w: World, op: Op)
    requires NotLockedOut(w) && FreshSecret(w, op)
    ensures NotLockedOut(Step(w, op).world) <==> !LosesPassword(w, op)
    ensures Step(w, op).world.live == w.live
         || (op.RotateOp? && Secret(op.draws) == Some(Step(w, op).world.live))
  {
    match op
    case RotateOp(draws, now, script) =>
      PrepareKeepsPassword(w, now, script);
      var p := Prepare(w, now, script);
      if p.result.Ready? && Secret(draws).Some? {
        SecretMeetsPolicy(draws);
        InstallLocksOutExactly(p.world, p.result.cfg, Secret(draws).value, now, p.rest);
      }
    case UseClient(now, script) => PrepareKeepsPassword(w, now, script);
    case WriteOp(rq, script) =>
    case DeleteOp(script) =>
  }

  /** The assumptions under which a run must not lock Vault out. */
  predicate Trusted(w: World, ops: seq<Op>)
    decreases |ops|
  {
    ops != [] ==>
      && FreshSecret(w, ops[0]) && !LosesPassword(w, ops[0])
      && Trusted(Step(w, ops[0]).world, ops[1..])
  }

  /** No lockout over any run of rotations, settlements, writes and deletes, with any failures and a
      crash anywhere. */
  lemma {:induction false} NoLockout(w: World, ops: seq<Op>)
    requires NotLockedOut(w) && Trusted(w, ops)
    ensures NotLockedOut(Run(w, ops))
    decreases |ops|
  {
    if ops != [] {
      StepLocksOutExactly(w, ops[0]);
      NoLockout(Step(w, ops[0]).world, ops[1..]);
    }
  }

  // ---- runs that lock Vault out ----

  /** Read config, store the candidate, resolve the user, change the password, clear the candidate. */
  const LOST_CHANGE: seq<Reply> := [Answer, Answer, Answer, LostAnswer, Answer]

  /** From any settled configuration outside robot mode, a rotation whose change was made but reported as
      failed, and whose candidate is then cleared, leaves no stored password that Harbor accepts. */
  lemma LostChangeLocksOut(w: World, draws: seq<nat>, now: int)
    requires NotLockedOut(w) && w.stored.Some? && w.stored.value.pending == "" && !w.stored.value.authType.Robot?
    requires FreshSecret(w, RotateOp(draws, now, LOST_CHANGE)) && Secret(draws).Some?
    ensures !NotLockedOut(Rotate(w, draws, now, LOST_CHANGE).world)
  {
    StepLocksOutExactly(w, RotateOp(draws, now, LOST_CHANGE));
    assert Prepare(w, now, LOST_CHANGE).rest == [Answer, Answer, LostAnswer, Answer];
  }

  lemma LockoutExample()
    ensures var w := World(Some(Config("Harbor12345", "", User, 0, DEFAULTS)), "Harbor12345");
            NotLockedOut(w) && !NotLockedOut(Rotate(w, seq(DRAWS, i => 0), 0, LOST_CHANGE).world)
  {
    var draws: seq<nat> := seq(DRAWS, i => 0);
    LostChangeLocksOut(World(Some(Config("Harbor12345", "", User, 0, DEFAULTS)), "Harbor12345"), draws, 0);
  }

  /** That a config write is atomic is needed: one without a password that reads config before a rotation
      and stores it afterwards, with every call answered, puts the old password back. */
  lemma OverlappingWriteLocksOut(w: World, draws: seq<nat>, now: int, script: seq<Reply>, rq: WriteRequest)
    requires NotLockedOut(w) && Rotate(w, draws, now, script).result == Rotated && rq.password.None?
    requires FreshSecret(w, RotateOp(draws, now, script)) && w.stored.Some? && Secret(draws).Some?
    requires w.stored.value.pending == "" || Secret(draws).value !in {w.stored.value.password, w.stored.value.pending}
    ensures !NotLockedOut(Put(Rotate(w, draws, now, script).world, Some(Merged(w.stored, rq)), Answer))
  {
    ReportedRotationHappened(w, draws, now, script);
  }

  // ---- what each operation achieves ----

  /** A field of a write: given, kept, or defaulted. */
  predicate Takes<T(==)>(given: Option<T>, before: Option<T>, default: T, now: T) {
    match (given, before)
    case (Some(value), _) => now == value
    case (None, Some(value)) => now == value
    case (None, None) => now == default
  }

  function Before<T>(base: Option<Config>, field: Config -> T): Option<T> {
    if base.Some? then Some(field(base.value)) else None
  }

  /** Every given field of the write is stored with its value and every absent one kept or defaulted; a new
      password ends a pending rotation. */
  ghost predicate AsRequested(base: Option<Config>, rq: WriteRequest, cfg: Config) {
    var seconds := if rq.timeoutSeconds.Some? then Some(rq.timeoutSeconds.value * 1_000_000_000) else None;
    && Takes(rq.url, Before(base, (c: Config) => c.settings.url), "", cfg.settings.url)
    && Takes(rq.username, Before(base, (c: Config) => c.settings.username), "", cfg.settings.username)
    && Takes(rq.password, Before(base, (c: Config) => c.password), "", cfg.password)
    && Takes(rq.authType, Before(base, (c: Config) => c.authType), User, cfg.authType)
    && Takes(rq.caCert, Before(base, (c: Config) => c.settings.caCert), "", cfg.settings.caCert)
    && Takes(rq.skipVerify, Before(base, (c: Config) => c.settings.skipVerify), false, cfg.settings.skipVerify)
    && Takes(seconds, Before(base, (c: Config) => c.settings.timeout), 30 * 1_000_000_000, cfg.settings.timeout)
    && Takes(rq.prefix, Before(base, (c: Config) => c.settings.prefix), "vault", cfg.settings.prefix)
    && Takes(None, Before(base, (c: Config) => c.lastRotated), 0, cfg.lastRotated)
    && cfg.pending == if rq.password.None? && base.Some? then base.value.pending else ""
  }

  /** A rule of a config write that the configuration breaks. */
  predicate Breaks(cfg: Config, c: Checks) {
    || cfg.settings.url == "" || cfg.settings.username == "" || cfg.password == ""
    || cfg.authType == Unknown || cfg.settings.timeout <= 0
    || (cfg.settings.prefix != "" && Naming.NormalizeSegment(cfg.settings.prefix, c.lower) == "")
    || !c.builds(cfg.settings)
  }

  /** Harbor accepts the password in this answer. */
  predicate Accepted(live: seq<char>, cfg: Config, password: seq<char>, r: Reply) {
    live == password && (r == Answer || (cfg.authType.Robot? && r == Refuse(Forbidden)))
  }

  /** The configuration asked for decides, with the answers, how a write ends: it is invalid exactly when it
      breaks a rule or its verification is not accepted, and with every call answered it is stored. */
  lemma WriteEndsExactly(w: World, rq: WriteRequest, script: seq<Reply>, cfg: Config)
    requires AsRequested(w.stored, rq, cfg)
    ensures var d := Write(w, rq, script);
            && (d.result.Invalid? <==>
                  && script != [] && script[0] == Answer
                  && (Breaks(cfg, rq.checks)
                      || (rq.verify && |script| >= 2 && !Accepted(w.live, cfg, cfg.password, script[1]))))
            && (d.result.Written? <==>
                  && !Breaks(cfg, rq.checks) && script != [] && script[0] == Answer
                  && (rq.verify ==>
                        |script| >= 3 && Accepted(w.live, cfg, cfg.password, script[1]) && script[2] == Answer)
                  && (!rq.verify ==> |script| >= 2 && script[1] == Answer))
            && (d.result.Written? ==> d.world == World(Some(cfg), w.live))
  {
    assert cfg == Merged(w.stored, rq);
  }

  /** Whatever happens, a write that reports success stored what was asked for, and one that reports a
      broken rule or a failed verification stored nothing. */
  lemma WrittenIsAsRequested(w: World, rq: WriteRequest, script: seq<Reply>)
    ensures var d := Write(w, rq, script);
            && d.world.live == w.live
            && (d.result.Invalid? ==> d.world == w)
            && (d.result.Written? ==>
                  && d.world.stored.Some? && AsRequested(w.stored, rq, d.world.stored.value)
                  && !Breaks(d.world.stored.value, rq.checks)
                  && (rq.verify ==> d.world.stored.value.password == w.live))
  {
    MergedIsAsRequested(w.stored, rq);
    WriteEndsExactly(w, rq, script, Merged(w.stored, rq));
    WriteLeavesHarborAlone(w, rq, script);
  }

  lemma WriteLeavesHarborAlone(w: World, rq: WriteRequest, script: seq<Reply>)
    ensures var d := Write(w, rq, script); d.world.live == w.live && (d.result.Invalid? ==> d.world == w)
  {
  }

  lemma MergedIsAsRequested(base: Option<Config>, rq: WriteRequest)
    ensures AsRequested(base, rq, Merged(base, rq))
  {
  }

  /** Settlement keeps the committed password when Harbor accepts it, and otherwise takes the candidate when
      Harbor rejected the former and accepts the latter; only then is a rotation recorded. It succeeds
      exactly when its last call, the put, is answered too. */
  lemma SettlesExactly(w: World, cfg: Config, now: int, script: seq<Reply>)
    ensures var s := Settle(w, cfg, now, script);
            var kept := |script| >= 2 && Accepted(w.live, cfg, cfg.password, script[0]);
            var taken := |script| >= 3 && Rejected401(w.live, cfg, cfg.password, script[0])
                         && Accepted(w.live, cfg, cfg.pending, script[1]);
            && (s.status.Ok? <==> (kept && script[1] == Answer) || (taken && script[2] == Answer))
            && (s.status.Ok? && kept ==> s.cfg == cfg.(pending := ""))
            && (s.status.Ok? && taken ==> s.cfg == cfg.(password := cfg.pending, pending := "", lastRotated := now))
            && (s.status.Ok? ==> s.world == World(Some(s.cfg), w.live))
            && (!kept && !taken ==> s.world == w)
  {
  }

  /** Harbor rejects the password, in an answer that says so. */
  predicate Rejected401(live: seq<char>, cfg: Config, password: seq<char>, r: Reply) {
    || (r == Answer && live != password)
    || r == Refuse(Unauthorized)
    || (r == Refuse(Forbidden) && (live != password || !cfg.authType.Robot?))
  }

  /** Installing a secret, by the four calls it makes: put the candidate, look the user up, change the
      password, put the outcome. A refused lookup or change clears the candidate again. */
  lemma InstallEndsExactly(w: World, cfg: Config, secret: seq<char>, now: int, script: seq<Reply>)
    requires w.stored == Some(cfg) && cfg.pending == "" && cfg.password == w.live
    ensures var d := Install(w, cfg, secret, now, script);
            var n := |script|;
            && (d.result == Rotated <==> n >= 4 && script[0] == script[1] == script[2] == script[3] == Answer)
            && (d.result == Rejected <==>
                  || (n >= 3 && script[0] == Answer && script[1] != Answer && script[2] == Answer)
                  || (n >= 4 && script[0] == script[1] == Answer && script[2] != Answer && script[3] == Answer))
            && (d.result == Rejected ==>
                  d.world.stored == Some(cfg) && (n < 4 || script[1] != Answer || script[2].Refuse? ==> d.world == w))
            && (d.world.live != w.live ==> n >= 3 && script[0] == script[1] == Answer && !script[2].Refuse?)
            && (n >= 3 && script[0] == script[1] == Answer && !script[2].Refuse? ==> d.world.live == secret)
            && (n >= 1 && script[0].Refuse? ==> d.result == Failed && d.world == w)
  {
  }

  lemma InstallResults(w: World, cfg: Config, secret: seq<char>, now: int, script: seq<Reply>)
    ensures Install(w, cfg, secret, now, script).result in {Rotated, Rejected, Failed, Crashed}
  {
  }

  lemma PrepareResults(w: World, now: int, script: seq<Reply>)
    ensures var p := Prepare(w, now, script);
            && (p.result == NotConfigured <==> script != [] && script[0] == Answer && w.stored.None?)
            && (p.result == NotConfigured ==> p.world == w) && p.result != RobotUnsupported
  {
  }

  /** A rotation in robot mode, or without configuration, does nothing. */
  lemma RotationNeedsAUser(w: World, draws: seq<nat>, now: int, script: seq<Reply>)
    ensures var d := Rotate(w, draws, now, script);
            && (d.result == RobotUnsupported <==>
                  script != [] && script[0] == Answer && w.stored.Some? && w.stored.value.authType.Robot?)
            && (d.result == NotConfigured <==> script != [] && script[0] == Answer && w.stored.None?)
            && (d.result in {RobotUnsupported, NotConfigured} ==> d.world == w)
  {
    PrepareResults(w, now, script);
    var p := Prepare(w, now, script);
    if p.result.Ready? && Secret(draws).Some? {
      InstallResults(p.world, p.result.cfg, Secret(draws).value, now, p.rest);
    }
  }

  // ---- a stored configuration is usable ----

  ghost predicate StoredUsable(w: World, c: Checks) {
    w.stored.Some? ==> Usable(w.stored.value, c)
  }

  /** The two configurations differ in passwords and times only, and have a password. */
  predicate SameSettings(cfg: Config, stored: Option<Config>) {
    stored.Some? && stored.value.settings == cfg.settings && stored.value.authType == cfg.authType
    && stored.value.password != ""
  }

  lemma SettleKeepsSettings(w: World, cfg: Config, now: int, script: seq<Reply>)
    requires w.stored == Some(cfg) && cfg.password != "" && cfg.pending != ""
    ensures var s := Settle(w, cfg, now, script); SameSettings(cfg, s.world.stored) && SameSettings(cfg, Some(s.cfg))
  {
  }

  lemma InstallKeepsSettings(w: World, cfg: Config, secret: seq<char>, now: int, script: seq<Reply>)
    requires SameSettings(cfg, w.stored) && cfg.password != "" && secret != ""
    ensures SameSettings(cfg, Install(w, cfg, secret, now, script).world.stored)
  {
  }

  /** Every operation stores usable configurations only, so that the client rotation and settlement build
      from a stored one can be built. */
  lemma StepKeepsUsable(w: World, op: Op, c: Checks)
    requires StoredUsable(w, c) && (op.WriteOp? ==> op.rq.checks == c)
    ensures StoredUsable(Step(w, op).world, c)
    ensures op.UseClient? && Step(w, op).result.Ready? ==> Usable(Step(w, op).result.cfg, c)
  {
    if w.stored.Some? && op.RotateOp? {
      RotateKeepsSettings(w, op.draws, op.now, op.script);
    } else if w.stored.Some? && op.UseClient? {
      PrepareKeepsSettings(w, op.now, op.script);
    }
  }

  lemma PrepareKeepsSettings(w: World, now: int, script: seq<Reply>)
    requires w.stored.Some? && w.stored.value.password != ""
    ensures var p := Prepare(w, now, script);
            SameSettings(w.stored.value, p.world.stored)
            && (p.result.Ready? ==> SameSettings(w.stored.value, Some(p.result.cfg)))
  {
    if script != [] && w.stored.value.pending != "" {
      SettleKeepsSettings(w, w.stored.value, now, script[1..]);
    }
  }

  lemma RotateKeepsSettings(w: World, draws: seq<nat>, now: int, script: seq<Reply>)
    requires w.stored.Some? && w.stored.value.password != ""
    ensures SameSettings(w.stored.value, Rotate(w, draws, now, script).world.stored)
  {
    PrepareKeepsSettings(w, now, script);
    var p := Prepare(w, now, script);
    if p.result.Ready? && Secret(draws).Some? {
      SecretMeetsPolicy(draws);
      InstallKeepsSettings(p.world, p.result.cfg, Secret(draws).value, now, p.rest);
    }
  }

  lemma {:induction false} RunKeepsUsable(w: World, ops: seq<Op>, c: Checks)
    requires StoredUsable(w, c) && forall op :: op in ops && op.WriteOp? ==> op.rq.checks == c
    ensures StoredUsable(Run(w, ops), c)
    decreases |ops|
  {
    if ops != [] {
      StepKeepsUsable(w, ops[0], c);
      RunKeepsUsable(Step(w, ops[0]).world, ops[1..], c);
    }
  }

  // ---- rotation refines an atomic password change ----

  /** The abstract service: a rotation either changes the password at once or does not happen. */
  function AtomicRun(live: seq<char>, ops: seq<Op>, happens: seq<bool>): seq<char>
    requires |happens| == |ops|
    decreases |ops|
  {
    if ops == [] then live
    else
      var changed := happens[0] && ops[0].RotateOp? && Secret(ops[0].draws).Some?;
      AtomicRun(if changed then Secret(ops[0].draws).value else live, ops[1..], happens[1..])
  }

  /** Which rotations of a run reached Harbor. */
  function Happens(w: World, ops: seq<Op>): (h: seq<bool>)
    ensures |h| == |ops|
    decreases |ops|
  {
    if ops == [] then [] else [Step(w, ops[0]).world.live != w.live] + Happens(Step(w, ops[0]).world, ops[1..])
  }

  lemma {:induction false} LiveFollowsAtomicRun(w: World, ops: seq<Op>)
    requires NotLockedOut(w) && Trusted(w, ops)
    ensures Run(w, ops).live == AtomicRun(w.live, ops, Happens(w, ops))
    decreases |ops|
  {
    if ops != [] {
      StepLocksOutExactly(w, ops[0]);
      LiveFollowsAtomicRun(Step(w, ops[0]).world, ops[1..]);
      assert Happens(w, ops)[1..] == Happens(Step(w, ops[0]).world, ops[1..]);
    }
  }

  /** After any run, crashes included, the first successful use of a client finds the committed password
      equal to Harbor's, nothing pending, and both equal to what atomic rotations would have left. */
  lemma RotationRefinesAtomicChange(w: World, ops: seq<Op>, now: int, script: seq<Reply>)
    requires NotLockedOut(w) && Trusted(w, ops)
    requires Step(Run(w, ops), UseClient(now, script)).result.Ready?
    ensures var d := Step(Run(w, ops), UseClient(now, script));
            && d.world.stored == Some(d.result.cfg)
            && d.result.cfg.pending == ""
            && d.result.cfg.password == d.world.live == AtomicRun(w.live, ops, Happens(w, ops))
  {
    NoLockout(w, ops);
    LiveFollowsAtomicRun(w, ops);
    PrepareKeepsPassword(Run(w, ops), now, script);
  }

  /** A reported rotation happened and is committed; it makes its own secret the password. */
  lemma ReportedRotationHappened(w: World, draws: seq<nat>, now: int, script: seq<Reply>)
    requires NotLockedOut(w) && FreshSecret(w, RotateOp(draws, now, script))
    requires Rotate(w, draws, now, script).result == Rotated
    ensures var d := Rotate(w, draws, now, script);
            && Secret(draws) == Some(d.world.live) && d.world.live != w.live
            && w.stored.Some?
            && d.world.stored == Some(w.stored.value.(password := d.world.live, pending := "", lastRotated := now))
  {
    PrepareKeepsPassword(w, now, script);
    var p := Prepare(w, now, script);
    SecretMeetsPolicy(draws);
    SettleStoresOnlyWhatHarborAccepted(w, w.stored.value, now, script[1..]);
    InstallLocksOutExactly(p.world, p.result.cfg, Secret(draws).value, now, p.rest);
  }

  /** While Vault is not locked out, a client can be had as soon as calls are answered, whatever rotation
      was interrupted before. */
  lemma AnsweredUseRecovers(w: World, now: int, script: seq<Reply>)
    requires NotLockedOut(w) && w.stored.Some?
    requires |script| >= 4 && forall i :: 0 <= i < |script| ==> script[i] == Answer
    ensures var p := Prepare(w, now, script);
            p.result.Ready? && |p.rest| >= |script| - 4 && forall r :: r in p.rest ==> r == Answer
  {
    var rest := script[1..];
    assert rest[0] == rest[1] == rest[2] == Answer;
    assert forall r :: r in script ==> r == Answer;
  }

  /** And a rotation outside robot mode then succeeds. */
  lemma AnsweredRotationSucceeds(w: World, draws: seq<nat>, now: int, script: seq<Reply>)
    requires NotLockedOut(w) && w.stored.Some? && !w.stored.value.authType.Robot?
    requires Secret(draws).Some? && |script| >= 8 && forall i :: 0 <= i < |script| ==> script[i] == Answer
    ensures Rotate(w, draws, now, script).result == Rotated
  {
    AnsweredUseRecovers(w, now, script);
    PrepareKeepsPassword(w, now, script);
    var rest := Prepare(w, now, script).rest;
    assert rest[0] == Answer && rest[1] == Answer && rest[2] == Answer && rest[3] == Answer;
  }

  // ---- the backend object ----

  datatype Client = Client(password: seq<char>)

  class HarborBackend {
    var stored: Option<Config>
    var live: seq<char>
    var script: seq<Reply>
    var client: Option<Client>
    var clientCfg: Option<Config>

    constructor (stored: Option<Config>, live: seq<char>, script: seq<Reply>)
      ensures W() == World(stored, live) && this.script == script && Coherent()
    {
      this.stored, this.live, this.script := stored, live, script;
      client, clientCfg := None, None;
    }

    function W(): World
      reads this
    {
      World(stored, live)
    }

    /** client and clientCfg are set or cleared together, and the client was built from the stored
        configuration. */
    ghost predicate Coherent()
      reads this
    {
      && (client.Some? <==> clientCfg.Some?)
      && (client.Some? ==> stored == clientCfg && client.value == Client(clientCfg.value.password))
    }

    method ResetClient()
      modifies this`client, this`clientCfg
      ensures client.None? && clientCfg.None?
    {
      client := None;
      clientCfg := None;
    }

    /** The next reply of the environment, or a crash, which loses the process's memory. */
    method Next() returns (reply: Option<Reply>)
      modifies this`script, this`client, this`clientCfg
      ensures old(script) == [] ==> reply.None? && script == [] && client.None? && clientCfg.None?
      ensures old(script) != [] ==> reply == Some(old(script)[0]) && script == old(script)[1..]
                                    && client == old(client) && clientCfg == old(clientCfg)
    {
      if script == [] {
        ResetClient();
        return None;
      }
      reply := Some(script[0]);
      script := script[1..];
    }

    method GetConfig() returns (status: Status)
      modifies this`script, this`client, this`clientCfg
      ensures status.Crash? <==> old(script) == []
      ensures old(script) == [] ==> script == [] && client.None? && clientCfg.None?
      ensures old(script) != [] ==> script == old(script)[1..] && client == old(client) && clientCfg == old(clientCfg)
                                    && (status.Ok? <==> old(script)[0] == Answer)
    {
      var reply := Next();
      status := if reply.None? then Crash else PutStatus(reply.value);
    }

    method PutConfig(cfg: Option<Config>) returns (status: Status)
      modifies this`script, this`client, this`clientCfg, this`stored
      ensures old(script) == [] ==>
                status.Crash? && script == [] && stored == old(stored) && client.None? && clientCfg.None?
      ensures old(script) != [] ==> script == old(script)[1..] && status == PutStatus(old(script)[0])
                                    && W() == Put(old(W()), cfg, old(script)[0])
                                    && client == old(client) && clientCfg == old(clientCfg)
    {
      var reply := Next();
      if reply.None? {
        return Crash;
      }
      if !reply.value.Refuse? {
        stored := cfg;
      }
      return PutStatus(reply.value);
    }

    method VerifyConnection(password: seq<char>, authType: AuthType) returns (status: Status)
      modifies this`script, this`client, this`clientCfg
      ensures old(script) == [] ==> status.Crash? && script == [] && client.None? && clientCfg.None?
      ensures old(script) != [] ==> script == old(script)[1..] && client == old(client) && clientCfg == old(clientCfg)
                                    && status == ProbeStatus(live, password, authType, old(script)[0])
    {
      var reply := Next();
      status := if reply.None? then Crash else ProbeStatus(live, password, authType, reply.value);
    }

    method ChangeUserPassword(oldPassword: seq<char>, newPassword: seq<char>) returns (status: Status)
      modifies this`script, this`client, this`clientCfg, this`live
      ensures old(script) == [] ==>
                status.Crash? && script == [] && live == old(live) && client.None? && clientCfg.None?
      ensures old(script) != [] ==> script == old(script)[1..] && client == old(client) && clientCfg == old(clientCfg)
                                    && status == ChangeStatus(old(live), oldPassword, old(script)[0])
                                    && live == ChangedPassword(old(live), oldPassword, newPassword, old(script)[0])
    {
      var reply := Next();
      if reply.None? {
        return Crash;
      }
      status := ChangeStatus(live, oldPassword, reply.value);
      live := ChangedPassword(live, oldPassword, newPassword, reply.value);
    }

    method SettlePendingRotation(cfg: Config, now: int) returns (status: Status, settled: Config)
      requires client.None? && clientCfg.None?
      modifies this`script, this`client, this`clientCfg, this`stored
      ensures client.None? && clientCfg.None?
      ensures Settled(W(), settled, script, status) == Settle(old(W()), cfg, now, old(script))
    {
      settled := cfg;
      status := VerifyConnection(cfg.password, cfg.authType);
      if status.Crash? {
        return;
      }
      if status.Ok? {
        settled := settled.(pending := "");
      } else if status.code.Unauthorized? || status.code.Forbidden? {
        status := VerifyConnection(cfg.pending, cfg.authType);
        if !status.Ok? {
          return;
        }
        settled := settled.(password := cfg.pending, pending := "", lastRotated := now);
      } else {
        return;
      }
      status := PutConfig(Some(settled));
    }

    method GetClient(now: int) returns (result: Result)
      modifies this`script, this`client, this`clientCfg, this`stored
      ensures old(client.Some? && clientCfg.Some?) ==>
                result == Ready(old(clientCfg.value)) && script == old(script) && W() == old(W())
                && client == old(client) && clientCfg == old(clientCfg)
      ensures !old(client.Some? && clientCfg.Some?) ==>
                Done(W(), script, result) == Prepare(old(W()), now, old(script))
      ensures result.Ready? && !old(client.Some? && clientCfg.Some?) ==>
                clientCfg == Some(result.cfg) && client == Some(Client(result.cfg.password))
      ensures old(Coherent()) ==> Coherent()
    {
      if client.Some? && clientCfg.Some? {
        return Ready(clientCfg.value);
      }
      var status := GetConfig();
      if !status.Ok? {
        return Stop(status);
      }
      if stored.None? {
        return NotConfigured;
      }
      var cfg := stored.value;
      if cfg.pending != "" {
        ResetClient();
        status, cfg := SettlePendingRotation(cfg, now);
        if !status.Ok? {
          return Stop(status);
        }
      }
      client := Some(Client(cfg.password));
      clientCfg := Some(cfg);
      return Ready(cfg);
    }

    method RotateRoot(draws: seq<nat>, now: int) returns (result: Result)
      modifies this
      ensures Done(W(), script, result) == Rotate(old(W()), draws, now, old(script))
      ensures client.None? && clientCfg.None?
    {
      ResetClient();
      var status := GetConfig();
      if !status.Ok? {
        return Stop(status);
      }
      if stored.None? {
        return NotConfigured;
      }
      var cfg := stored.value;
      if cfg.authType.Robot? {
        return RobotUnsupported;
      }
      if cfg.pending != "" {
        status, cfg := SettlePendingRotation(cfg, now);
        if !status.Ok? {
          return Stop(status);
        }
      }
      var secret, error := GenerateSecret(draws);
      if error.Some? {
        return Failed;
      }
      result := InstallAndCommit(cfg, secret, now);
    }

    method InstallAndCommit(settled: Config, secret: seq<char>, now: int) returns (result: Result)
      requires client.None? && clientCfg.None?
      modifies this
      ensures Done(W(), script, result) == Install(old(W()), settled, secret, now, old(script))
      ensures client.None? && clientCfg.None?
    {
      var cfg := settled.(pending := secret);
      var status := PutConfig(Some(cfg));
      if !status.Ok? {
        return Stop(status);
      }
      status := VerifyConnection(cfg.password, User);
      if status.Ok? {
        status := ChangeUserPassword(cfg.password, secret);
      }
      if status.Crash? {
        return Crashed;
      }
      if !status.Ok? {
        status := PutConfig(Some(cfg.(pending := "")));
        return if status.Ok? then Rejected else Stop(status);
      }
      cfg := cfg.(password := secret, pending := "", lastRotated := now);
      status := PutConfig(Some(cfg));
      return if status.Ok? then Rotated else Stop(status);
    }

    /** The configuration a write asks for, field by field. */
    method Overlay(base: Option<Config>, rq: WriteRequest) returns (cfg: Config)
      ensures cfg == Merged(base, rq)
    {
      cfg := if base.Some? then base.value else Config("", "", User, 0, DEFAULTS);
      if rq.password.Some? {
        cfg := cfg.(password := rq.password.value, pending := "");
      }
      if rq.authType.Some? {
        cfg := cfg.(authType := rq.authType.value);
      }
      var settings := OverlaySettings(cfg.settings, rq);
      cfg := cfg.(settings := settings);
    }

    method OverlaySettings(base: Settings, rq: WriteRequest) returns (settings: Settings)
      ensures settings == MergedSettings(base, rq)
    {
      settings := base;
      if rq.url.Some? {
        settings := settings.(url := rq.url.value);
      }
      if rq.username.Some? {
        settings := settings.(username := rq.username.value);
      }
      if rq.caCert.Some? {
        settings := settings.(caCert := rq.caCert.value);
      }
      if rq.skipVerify.Some? {
        settings := settings.(skipVerify := rq.skipVerify.value);
      }
      if rq.timeoutSeconds.Some? {
        settings := settings.(timeout := rq.timeoutSeconds.value * 1_000_000_000);
      }
      if rq.prefix.Some? {
        settings := settings.(prefix := rq.prefix.value);
      }
    }

    /** The named checks of a config write, in order. */
    method CheckConfig(cfg: Config, checks: Checks) returns (ok: bool)
      ensures ok <==> !Breaks(cfg, checks)
      ensures ok <==> Usable(cfg, checks)
    {
      if cfg.settings.url == "" || cfg.settings.username == "" || cfg.password == "" {
        return false;
      }
      if cfg.authType != User && cfg.authType != Robot {
        return false;
      }
      if cfg.settings.timeout <= 0 {
        return false;
      }
      var segment := Naming.NormalizeSegment(cfg.settings.prefix, checks.lower);
      if segment == "" && cfg.settings.prefix != "" {
        return false;
      }
      return checks.builds(cfg.settings);
    }

    /** pathConfigWrite: what it leaves, reported as the request asked. */
    method WriteConfig(rq: WriteRequest) returns (result: Result)
      modifies this`script, this`client, this`clientCfg, this`stored
      ensures Done(W(), script, result) == Write(old(W()), rq, old(script))
      ensures result.Written? ==>
                && stored.Some? && AsRequested(old(stored), rq, stored.value)
                && (rq.verify ==> stored.value.password == live)
      ensures result.Invalid? ==> stored == old(stored)
      ensures result.Written? || result.Crashed? ==> client.None? && clientCfg.None?
      ensures !(result.Written? || result.Crashed?) ==> client == old(client) && clientCfg == old(clientCfg)
      ensures old(Coherent()) ==> (Coherent() <==> (result.Failed? && old(client).Some? ==> stored == old(stored)))
    {
      WrittenIsAsRequested(W(), rq, script);
      result := MergeAndPut(rq);
    }

    method MergeAndPut(rq: WriteRequest) returns (result: Result)
      modifies this`script, this`client, this`clientCfg, this`stored
      ensures Done(W(), script, result) == Write(old(W()), rq, old(script))
      ensures result.Written? || result.Crashed? ==> client.None? && clientCfg.None?
      ensures !(result.Written? || result.Crashed?) ==> client == old(client) && clientCfg == old(clientCfg)
      ensures old(Coherent()) ==> (Coherent() <==> (result.Failed? && old(client).Some? ==> stored == old(stored)))
    {
      var status := GetConfig();
      if !status.Ok? {
        return Stop(status);
      }
      var cfg := Overlay(stored, rq);
      var ok := CheckConfig(cfg, rq.checks);
      if !ok {
        return Invalid;
      }
      result := VerifyAndPut(cfg, rq.verify);
    }

    method VerifyAndPut(cfg: Config, verify: bool) returns (result: Result)
      modifies this`script, this`client, this`clientCfg, this`stored
      ensures Done(W(), script, result) == VerifyAndStore(old(W()), cfg, verify, old(script))
      ensures result.Written? || result.Crashed? ==> client.None? && clientCfg.None?
      ensures !(result.Written? || result.Crashed?) ==> client == old(client) && clientCfg == old(clientCfg)
      ensures !result.Failed? && !result.Written? ==> stored == old(stored)
    {
      var status;
      if verify {
        status := VerifyConnection(cfg.password, cfg.authType);
        if !status.Ok? {
          return if status.Crash? then Crashed else Invalid;
        }
      }
      status := PutConfig(Some(cfg));
      if !status.Ok? {
        return Stop(status);
      }
      ResetClient();
      return Written;
    }

    method DeleteConfig() returns (result: Result)
      modifies this`script, this`client, this`clientCfg, this`stored
      ensures Done(W(), script, result) == Store(old(W()), None, old(script), Deleted)
      ensures old(script) != [] && old(script)[0] == Answer ==> result.Deleted?
      ensures result.Deleted? ==> stored.None?
      ensures result.Deleted? || result.Crashed? ==> client.None? && clientCfg.None?
      ensures old(Coherent()) ==> (Coherent() <==> (result.Failed? && old(client).Some? ==> stored == old(stored)))
    {
      var status := PutConfig(None);
      if !status.Ok? {
        return Stop(status);
      }
      ResetClient();
      return Deleted;
    }
  }
}
