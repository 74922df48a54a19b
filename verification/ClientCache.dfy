/** The cached Harbor client under concurrency (internal/backend/backend.go: getClient, resetClient,
    invalidate; internal/backend/path_config.go: the writers). Any number of threads run getClient,
    config writes and deletes, writes of another node followed by invalidate, and rotations; each action
    below is one access to storage, to the two cache fields or to the lock. */
module ClientCache {
  import opened Common
  import opened RootRotation

  type Tid = nat

  /** Where a thread is. A version is the position of a storage value in the history of config; floor is
      the newest version whose write had completed when the call began. */
  datatype Pc =
    // getClient
    | GetStart(floor: nat)
    | GetShared(floor: nat)                          // holds the read lock
    | GetWaiting(floor: nat)                         // found no client
    | GetChecking(floor: nat)                        // holds the lock, about to look again
    | GetReading(floor: nat)                         // holds the lock, about to read config
    | GetLoaded(floor: nat, ver: nat, cfg: Config)   // holds the lock and the config it read or settled
    | GetHalf(floor: nat, ver: nat, cfg: Config)     // client assigned, clientCfg not yet
    | GetDone(floor: nat, ver: nat, cfg: Config)     // about to return
    // config write, config delete, or a write on another node with its invalidate
    | WriteStart
    | WriteStored(ver: nat)                          // stored, about to reset the client
    | WriteResetting(ver: nat)                       // holds the lock
    | WriteHalf(ver: nat)                            // client cleared
    | WriteCleared(ver: nat)                         // clientCfg cleared
    // rotate-root
    | RotateStart
    | RotateHolding                                  // holds the lock
    | RotateCleared                                  // cache cleared; puts any configurations

  /** What the threads share. */
  datatype Shared = Shared(
    history: seq<Option<Config>>,      // every value config has had, the stored one last
    client: Option<Config>,            // the configuration the client was built from
    clientCfg: Option<Config>,
    cacheVer: nat,                     // its version (meaningful when the cache is filled)
    completed: nat,                    // the newest version whose write has completed
    lost: nat,                         // the newest version stored by a call that saw an error; 0 for none
    writer: Option<Tid>,               // holder of clientMu.Lock
    readers: set<Tid>)                 // holders of clientMu.RLock

  datatype State = State(sh: Shared, threads: map<Tid, Pc>)

  datatype Action =
    | RLock | ReadShared | Lock | Check | Load | SettlePut(settled: Config) | SettleLost(settled: Config) | GetFail
    | SetClient | SetConfig | Return
    | StorePut(stored: Option<Config>) | StoreLost(stored: Option<Config>) | StoreFail
    | ResetLock | ClearClient | ClearConfig | ResetUnlock
    | RotateLock | RotateClear | RotatePut(put: Config) | RotateUnlock

  datatype Event = CallGet(t: Tid) | CallWrite(t: Tid) | CallRotate(t: Tid) | Act(t: Tid, action: Action) | ProcessCrash

  function Stored(sh: Shared): Option<Config>
    requires sh.history != []
  {
    sh.history[|sh.history| - 1]
  }

  predicate LockFree(sh: Shared) {
    sh.writer.None? && sh.readers == {}
  }

  predicate Can(sh: Shared, pc: Pc, a: Action) {
    match a
    case RLock => pc.GetStart? && sh.writer.None?
    case ReadShared => pc.GetShared?
    case Lock => pc.GetWaiting? && LockFree(sh)
    case Check => pc.GetChecking?
    case Load => pc.GetReading? && sh.history != [] && Stored(sh).Some?
    case SettlePut(settled) => pc.GetLoaded? && pc.cfg.pending != "" && settled.pending == ""
    case SettleLost(settled) => pc.GetLoaded? && pc.cfg.pending != "" && settled.pending == ""
    case GetFail => pc.GetReading? || pc.GetLoaded?
    case SetClient => pc.GetLoaded? && pc.cfg.pending == ""
    case SetConfig => pc.GetHalf?
    case Return => pc.GetDone?
    case StorePut(_) => pc.WriteStart?
    case StoreLost(_) => pc.WriteStart?
    case StoreFail => pc.WriteStart?
    case ResetLock => pc.WriteStored? && LockFree(sh)
    case ClearClient => pc.WriteResetting?
    case ClearConfig => pc.WriteHalf?
    case ResetUnlock => pc.WriteCleared?
    case RotateLock => pc.RotateStart? && LockFree(sh)
    case RotateClear => pc.RotateHolding?
    case RotatePut(_) => pc.RotateCleared?
    case RotateUnlock => pc.RotateHolding? || pc.RotateCleared?
  }

  predicate CacheFilled(sh: Shared) {
    sh.client.Some? && sh.clientCfg.Some?
  }

  /** The effect of one action of thread t, and where t is then; None when its call is over. */
  function Do(sh: Shared, t: Tid, pc: Pc, a: Action): (Shared, Option<Pc>)
    requires Can(sh, pc, a)
  {
    match a
    case RLock => (sh.(readers := sh.readers + {t}), Some(GetShared(pc.floor)))
    case ReadShared =>
      (sh.(readers := sh.readers - {t}),
       Some(if CacheFilled(sh) then GetDone(pc.floor, sh.cacheVer, sh.clientCfg.value) else GetWaiting(pc.floor)))
    case Lock => (sh.(writer := Some(t)), Some(GetChecking(pc.floor)))
    case Check =>
      if CacheFilled(sh) then (sh.(writer := None), Some(GetDone(pc.floor, sh.cacheVer, sh.clientCfg.value)))
      else (sh, Some(GetReading(pc.floor)))
    case Load => (sh, Some(GetLoaded(pc.floor, |sh.history| - 1, Stored(sh).value)))
    case SettlePut(settled) =>
      (sh.(history := sh.history + [Some(settled)], completed := |sh.history|),
       Some(GetLoaded(pc.floor, |sh.history|, settled)))
    case SettleLost(settled) =>
      (sh.(history := sh.history + [Some(settled)], lost := |sh.history|, writer := None), None)
    case GetFail => (sh.(writer := None), None)
    case SetClient => (sh.(client := Some(pc.cfg)), Some(GetHalf(pc.floor, pc.ver, pc.cfg)))
    case SetConfig =>
      (sh.(clientCfg := Some(pc.cfg), cacheVer := pc.ver, writer := None), Some(GetDone(pc.floor, pc.ver, pc.cfg)))
    case Return => (sh, None)
    case StorePut(stored) => (sh.(history := sh.history + [stored]), Some(WriteStored(|sh.history|)))
    case StoreLost(stored) => (sh.(history := sh.history + [stored], lost := |sh.history|), None)
    case StoreFail => (sh, None)
    case ResetLock => (sh.(writer := Some(t)), Some(WriteResetting(pc.ver)))
    case ClearClient => (sh.(client := None), Some(WriteHalf(pc.ver)))
    case ClearConfig => (sh.(clientCfg := None), Some(WriteCleared(pc.ver)))
    case ResetUnlock => (sh.(writer := None, completed := if pc.ver > sh.completed then pc.ver else sh.completed), None)
    case RotateLock => (sh.(writer := Some(t)), Some(RotateHolding))
    case RotateClear => (sh.(client := None, clientCfg := None), Some(RotateCleared))
    case RotatePut(put) => (sh.(history := sh.history + [Some(put)], completed := |sh.history|), Some(RotateCleared))
    case RotateUnlock => (sh.(writer := None), None)
  }

  predicate Enabled(s: State, e: Event) {
    match e
    case ProcessCrash => true
    case Act(t, a) => t in s.threads && Can(s.sh, s.threads[t], a)
    case _ => e.t !in s.threads
  }

  function After(threads: map<Tid, Pc>, t: Tid, pc: Option<Pc>): map<Tid, Pc> {
    if pc.Some? then threads[t := pc.value] else threads - {t}
  }

  function Apply(s: State, e: Event): State
    requires Enabled(s, e)
  {
    match e
    case ProcessCrash => State(s.sh.(client := None, clientCfg := None, writer := None, readers := {}), map[])
    case CallGet(t) => State(s.sh, s.threads[t := GetStart(s.sh.completed)])
    case CallWrite(t) => State(s.sh, s.threads[t := WriteStart])
    case CallRotate(t) => State(s.sh, s.threads[t := RotateStart])
    case Act(t, a) => var (sh, pc) := Do(s.sh, t, s.threads[t], a); State(sh, After(s.threads, t, pc))
  }

  // ---- invariant ----

  predicate Holds(pc: Pc) {
    pc.GetChecking? || pc.GetReading? || pc.GetLoaded? || pc.GetHalf? || pc.WriteResetting? || pc.WriteHalf?
    || pc.WriteCleared? || pc.RotateHolding? || pc.RotateCleared?
  }

  /** The writer of version v has stored it and not yet finished its reset. */
  predicate Unreset(pc: Pc, v: nat) {
    (pc.WriteStored? || pc.WriteResetting? || pc.WriteHalf? || pc.WriteCleared?) && pc.ver == v
  }

  ghost predicate SomeoneResets(threads: map<Tid, Pc>, v: nat) {
    exists t :: t in threads && Unreset(threads[t], v)
  }

  /** cfg was stored as version ver, no completed write is newer, and every newer write will still reset
      the cache, unless a lost one is newer. */
  ghost predicate Fresh(sh: Shared, threads: map<Tid, Pc>, ver: nat, cfg: Config) {
    && ver < |sh.history| && sh.history[ver] == Some(cfg)
    && sh.completed <= ver
    && forall v :: ver < v < |sh.history| && sh.lost < v ==> SomeoneResets(threads, v)
  }

  predicate LockOrder(s: State) {
    && (s.sh.writer.Some? ==>
          s.sh.writer.value in s.threads && Holds(s.threads[s.sh.writer.value]) && s.sh.readers == {})
    && (forall t :: t in s.threads && Holds(s.threads[t]) ==> s.sh.writer == Some(t))
    && (forall t :: t in s.sh.readers ==> t in s.threads && s.threads[t].GetShared?)
    && (forall t :: t in s.threads && s.threads[t].GetShared? ==> t in s.sh.readers)
  }

  function HolderPc(s: State): Pc {
    if s.sh.writer.Some? && s.sh.writer.value in s.threads then s.threads[s.sh.writer.value] else WriteStart
  }

  /** The two cache fields: only the lock holder can leave them different. */
  ghost predicate CacheOk(sh: Shared, threads: map<Tid, Pc>, holder: Pc) {
    match holder
    case GetHalf(_, _, cfg) => sh.client == Some(cfg) && sh.clientCfg.None?
    case WriteHalf(_) => sh.client.None?
    case GetReading(_) => sh.client.None? && sh.clientCfg.None?
    case GetLoaded(_, _, _) => sh.client.None? && sh.clientCfg.None?
    case WriteCleared(_) => sh.client.None? && sh.clientCfg.None?
    case RotateCleared => sh.client.None? && sh.clientCfg.None?
    case _ => sh.client == sh.clientCfg && (sh.client.Some? ==> Fresh(sh, threads, sh.cacheVer, sh.client.value))
  }

  predicate InGet(pc: Pc) {
    pc.GetStart? || pc.GetShared? || pc.GetWaiting? || pc.GetChecking? || pc.GetReading? || pc.GetLoaded? || pc.GetHalf?
    || pc.GetDone?
  }

  ghost predicate ThreadOk(sh: Shared, threads: map<Tid, Pc>, pc: Pc) {
    && (InGet(pc) ==> pc.floor <= sh.completed)
    && (pc.GetLoaded? || pc.GetHalf? ==> Fresh(sh, threads, pc.ver, pc.cfg))
    && (pc.GetDone? ==> pc.floor <= pc.ver < |sh.history| && sh.history[pc.ver] == Some(pc.cfg))
    && (pc.WriteStored? || pc.WriteResetting? || pc.WriteHalf? || pc.WriteCleared? ==> pc.ver < |sh.history|)
  }

  ghost predicate Inv(s: State) {
    && s.sh.completed < |s.sh.history| && s.sh.lost < |s.sh.history|
    && LockOrder(s)
    && CacheOk(s.sh, s.threads, HolderPc(s))
    && forall t :: t in s.threads ==> ThreadOk(s.sh, s.threads, s.threads[t])
  }

  predicate Init(s: State) {
    && |s.sh.history| == 1 && s.sh.client.None? && s.sh.clientCfg.None? && s.sh.completed == 0 && s.sh.lost == 0
    && s.sh.writer.None? && s.sh.readers == {} && s.threads == map[]
  }

  lemma InitHolds(s: State)
    requires Init(s)
    ensures Inv(s)
  {
  }

  // ---- single actions ----

  /** The lock follows the thread that acts. */
  lemma LockFollows(sh: Shared, t: Tid, pc: Pc, a: Action)
    requires Can(sh, pc, a) && (Holds(pc) ==> sh.writer == Some(t)) && (t in sh.readers <==> pc.GetShared?)
    ensures var (sh', pc') := Do(sh, t, pc, a);
            var now := pc'.Some? && Holds(pc'.value);
            && sh'.writer == (if now then Some(t) else if Holds(pc) then None else sh.writer)
            && (now && !Holds(pc) ==> LockFree(sh))
    ensures var (sh', pc') := Do(sh, t, pc, a);
            var shares := pc'.Some? && pc'.value.GetShared?;
            && sh'.readers == (if shares then sh.readers + {t} else sh.readers - {t})
            && (shares ==> sh.writer.None?)
  {
  }

  lemma ActionKeepsLockOrder(s: State, t: Tid, a: Action)
    requires LockOrder(s) && Enabled(s, Act(t, a))
    ensures LockOrder(Apply(s, Act(t, a)))
  {
    LockFollows(s.sh, t, s.threads[t], a);
  }

  /** A write that awaits its reset stays in sight until exactly that reset is done. */
  lemma WaiterKept(s: State, t: Tid, a: Action, v: nat)
    requires Enabled(s, Act(t, a)) && !a.ResetUnlock?
    requires SomeoneResets(s.threads, v) || (a.StorePut? && v == |s.sh.history|)
    ensures SomeoneResets(Apply(s, Act(t, a)).threads, v)
  {
    var s' := Apply(s, Act(t, a));
    if SomeoneResets(s.threads, v) {
      var u :| u in s.threads && Unreset(s.threads[u], v);
      assert u in s'.threads && Unreset(s'.threads[u], v);
    } else {
      assert Unreset(s'.threads[t], v);
    }
  }

  /** Freshness survives every action except a reset's end and the puts made under the lock. */
  predicate Harmless(a: Action) {
    !a.ResetUnlock? && !a.SettlePut? && !a.SettleLost? && !a.RotatePut?
  }

  lemma FreshKept(s: State, t: Tid, a: Action, ver: nat, cfg: Config)
    requires Enabled(s, Act(t, a)) && Harmless(a) && Fresh(s.sh, s.threads, ver, cfg)
    ensures var s' := Apply(s, Act(t, a)); Fresh(s'.sh, s'.threads, ver, cfg)
  {
    var s' := Apply(s, Act(t, a));
    forall v: nat | ver < v < |s'.sh.history| && s'.sh.lost < v ensures SomeoneResets(s'.threads, v) {
      WaiterKept(s, t, a, v);
    }
  }

  /** An action outside the lock leaves the cache and the holder alone. */
  lemma BystanderKeepsCache(s: State, t: Tid, a: Action)
    requires Inv(s) && Enabled(s, Act(t, a))
    requires a.RLock? || a.ReadShared? || a.Return? || a.StorePut? || a.StoreLost? || a.StoreFail?
    ensures var s' := Apply(s, Act(t, a)); CacheOk(s'.sh, s'.threads, HolderPc(s'))
  {
    var s' := Apply(s, Act(t, a));
    assert HolderPc(s') == HolderPc(s);
    if s.sh.client.Some? && Fresh(s.sh, s.threads, s.sh.cacheVer, s.sh.client.value) {
      FreshKept(s, t, a, s.sh.cacheVer, s.sh.client.value);
    }
  }

  /** Actions that leave both cache fields alone. */
  predicate KeepsFields(pc: Pc, a: Action) {
    a.Lock? || a.Check? || a.ResetLock? || a.RotateLock? || (a.RotateUnlock? && pc.RotateHolding?)
  }

  lemma TakerKeepsCache(s: State, t: Tid, a: Action)
    requires Inv(s) && Enabled(s, Act(t, a)) && KeepsFields(s.threads[t], a)
    ensures var s' := Apply(s, Act(t, a)); CacheOk(s'.sh, s'.threads, HolderPc(s'))
  {
    var pc := s.threads[t];
    assert HolderPc(s) == (if Holds(pc) then pc else WriteStart);
    if s.sh.client.Some? {
      FreshKept(s, t, a, s.sh.cacheVer, s.sh.client.value);
    }
  }

  lemma HolderKeepsCache(s: State, t: Tid, a: Action)
    requires Inv(s) && Enabled(s, Act(t, a)) && !KeepsFields(s.threads[t], a)
    requires !(a.RLock? || a.ReadShared? || a.Return? || a.StorePut? || a.StoreLost? || a.StoreFail?)
    ensures var s' := Apply(s, Act(t, a)); CacheOk(s'.sh, s'.threads, HolderPc(s'))
  {
    var pc := s.threads[t];
    assert HolderPc(s) == pc;
    if a.SetConfig? {
      FreshKept(s, t, a, pc.ver, pc.cfg);
    }
  }

  lemma ActionKeepsCache(s: State, t: Tid, a: Action)
    requires Inv(s) && Enabled(s, Act(t, a))
    ensures var s' := Apply(s, Act(t, a)); CacheOk(s'.sh, s'.threads, HolderPc(s'))
  {
    if a.RLock? || a.ReadShared? || a.Return? || a.StorePut? || a.StoreLost? || a.StoreFail? {
      BystanderKeepsCache(s, t, a);
    } else if KeepsFields(s.threads[t], a) {
      TakerKeepsCache(s, t, a);
    } else {
      HolderKeepsCache(s, t, a);
    }
  }

  /** Versions only grow, and the newest completed one stays within the history. */
  lemma VersionsGrow(s: State, t: Tid, a: Action)
    requires Inv(s) && Enabled(s, Act(t, a))
    ensures var s' := Apply(s, Act(t, a));
            s.sh.completed <= s'.sh.completed < |s'.sh.history| && s'.sh.lost < |s'.sh.history|
            && s.sh.history <= s'.sh.history
    ensures Harmless(a) ==> Apply(s, Act(t, a)).sh.completed == s.sh.completed
  {
    assert ThreadOk(s.sh, s.threads, s.threads[t]);
  }

  /** A reader finds a configuration no older than its call. */
  lemma FilledCacheIsFresh(s: State, t: Tid)
    requires Inv(s) && t in s.threads && (s.threads[t].GetShared? || s.threads[t].GetChecking?) && CacheFilled(s.sh)
    ensures Fresh(s.sh, s.threads, s.sh.cacheVer, s.sh.clientCfg.value)
  {
  }

  /** The acting thread stays in order. */
  lemma ActorStaysOk(s: State, t: Tid, a: Action)
    requires Inv(s) && Enabled(s, Act(t, a))
    ensures var s' := Apply(s, Act(t, a)); t in s'.threads ==> ThreadOk(s'.sh, s'.threads, s'.threads[t])
  {
    var pc := s.threads[t];
    assert ThreadOk(s.sh, s.threads, pc);
    VersionsGrow(s, t, a);
    if a.SetClient? {
      FreshKept(s, t, a, pc.ver, pc.cfg);
    } else if (a.ReadShared? || a.Check?) && CacheFilled(s.sh) {
      FilledCacheIsFresh(s, t);
    }
  }

  /** So does every other thread. */
  lemma OtherStaysOk(s: State, t: Tid, a: Action, u: Tid)
    requires Inv(s) && Enabled(s, Act(t, a)) && u in s.threads && u != t
    ensures var s' := Apply(s, Act(t, a)); ThreadOk(s'.sh, s'.threads, s.threads[u])
  {
    VersionsGrow(s, t, a);
    var pc := s.threads[u];
    if pc.GetLoaded? || pc.GetHalf? {
      assert Harmless(a);
      FreshKept(s, t, a, pc.ver, pc.cfg);
    }
  }

  lemma StepKeepsInv(s: State, e: Event)
    requires Inv(s) && Enabled(s, e)
    ensures Inv(Apply(s, e))
  {
    if e.Act? {
      ActionKeepsLockOrder(s, e.t, e.action);
      ActionKeepsCache(s, e.t, e.action);
      VersionsGrow(s, e.t, e.action);
      ActorStaysOk(s, e.t, e.action);
      forall u | u in s.threads && u != e.t
        ensures var s' := Apply(s, e); ThreadOk(s'.sh, s'.threads, s.threads[u])
      {
        OtherStaysOk(s, e.t, e.action, u);
      }
    } else if !e.ProcessCrash? {
      CallKeepsInv(s, e);
    }
  }

  lemma CallKeepsFresh(s: State, e: Event, ver: nat, cfg: Config)
    requires Enabled(s, e) && !e.Act? && !e.ProcessCrash? && Fresh(s.sh, s.threads, ver, cfg)
    ensures Fresh(s.sh, Apply(s, e).threads, ver, cfg)
  {
    var s' := Apply(s, e);
    forall v: nat | ver < v < |s.sh.history| && s.sh.lost < v ensures SomeoneResets(s'.threads, v) {
      assert SomeoneResets(s.threads, v);
      var u :| u in s.threads && Unreset(s.threads[u], v);
      assert u in s'.threads && Unreset(s'.threads[u], v);
    }
  }

  lemma CallKeepsCache(s: State, e: Event)
    requires Inv(s) && Enabled(s, e) && !e.Act? && !e.ProcessCrash?
    ensures var s' := Apply(s, e); HolderPc(s') == HolderPc(s) && CacheOk(s'.sh, s'.threads, HolderPc(s'))
  {
    var s' := Apply(s, e);
    assert HolderPc(s') == HolderPc(s);
    if s.sh.client.Some? && Fresh(s.sh, s.threads, s.sh.cacheVer, s.sh.client.value) {
      CallKeepsFresh(s, e, s.sh.cacheVer, s.sh.client.value);
    }
  }

  lemma CallKeepsThread(s: State, e: Event, u: Tid)
    requires Inv(s) && Enabled(s, e) && !e.Act? && !e.ProcessCrash? && u in s.threads
    ensures ThreadOk(s.sh, Apply(s, e).threads, s.threads[u])
  {
    var pc := s.threads[u];
    if pc.GetLoaded? || pc.GetHalf? {
      CallKeepsFresh(s, e, pc.ver, pc.cfg);
    }
  }

  lemma CallKeepsInv(s: State, e: Event)
    requires Inv(s) && Enabled(s, e) && !e.Act? && !e.ProcessCrash?
    ensures Inv(Apply(s, e))
  {
    var s' := Apply(s, e);
    CallKeepsCache(s, e);
    forall u | u in s.threads ensures ThreadOk(s'.sh, s'.threads, s.threads[u]) {
      CallKeepsThread(s, e, u);
    }
  }

  // ---- runs ----

  predicate Valid(s: State, events: seq<Event>)
    decreases |events|
  {
    events != [] ==> Enabled(s, events[0]) && Valid(Apply(s, events[0]), events[1..])
  }

  function Run(s: State, events: seq<Event>): State
    requires Valid(s, events)
    decreases |events|
  {
    if events == [] then s else Run(Apply(s, events[0]), events[1..])
  }

  lemma {:induction false} RunKeepsInv(s: State, events: seq<Event>)
    requires Inv(s) && Valid(s, events)
    ensures Inv(Run(s, events))
    decreases |events|
  {
    if events != [] {
      StepKeepsInv(s, events[0]);
      RunKeepsInv(Apply(s, events[0]), events[1..]);
    }
  }

  /** No writer sits between its storage write and the end of its reset. */
  predicate NoWriterPending(threads: map<Tid, Pc>) {
    forall t :: t in threads ==>
      var pc := threads[t]; !(pc.WriteStored? || pc.WriteResetting? || pc.WriteHalf? || pc.WriteCleared?)
  }

  lemma NobodyResets(threads: map<Tid, Pc>, v: nat)
    requires NoWriterPending(threads)
    ensures !SomeoneResets(threads, v)
  {
  }

  /** The version of the configuration the client was built from. */
  function ClientVer(s: State): nat {
    if HolderPc(s).GetHalf? then HolderPc(s).ver else s.sh.cacheVer
  }

  /** The client is current exactly when no newer configuration was stored by a call that saw an error. */
  ghost predicate CurrentUnlessLost(s: State) {
    && (s.sh.client.Some? ==>
          var ver := ClientVer(s);
          && ver < |s.sh.history| && s.sh.client == s.sh.history[ver]
          && (ver == |s.sh.history| - 1 <==> s.sh.lost <= ver))
    && (s.sh.clientCfg.Some? ==> s.sh.clientCfg == s.sh.client)
  }

  lemma QuietCacheIsCurrent(s: State)
    requires Inv(s) && NoWriterPending(s.threads)
    ensures CurrentUnlessLost(s)
  {
    if s.sh.client.Some? {
      var ver := ClientVer(s);
      assert Fresh(s.sh, s.threads, ver, s.sh.client.value);
      NobodyResets(s.threads, |s.sh.history| - 1);
    }
  }

  /** In every reachable state without a pending writer, the cached client is absent, or it was built from
      exactly the stored configuration; the latter fails exactly when a newer configuration was stored by
      a call that saw an error, since nobody clears the cache then. client and clientCfg differ only
      inside the lock. */
  lemma CacheCoherence(s0: State, events: seq<Event>)
    requires Init(s0) && Valid(s0, events)
    ensures var s := Run(s0, events);
            && s.sh.history != []
            && (NoWriterPending(s.threads) ==> CurrentUnlessLost(s))
            && (s.sh.writer.None? ==> s.sh.client == s.sh.clientCfg)
  {
    InitHolds(s0);
    RunKeepsInv(s0, events);
    if NoWriterPending(Run(s0, events).threads) {
      QuietCacheIsCurrent(Run(s0, events));
    }
  }

  /** So with no lost store in the run the cache is coherent. */
  lemma CoherentWithoutLostStores(s0: State, events: seq<Event>)
    requires Init(s0) && Valid(s0, events)
    requires forall e :: e in events ==> !(e.Act? && (e.action.StoreLost? || e.action.SettleLost?))
    ensures var s := Run(s0, events);
            && s.sh.history != []
            && (NoWriterPending(s.threads) && s.sh.client.Some? ==> s.sh.client == Stored(s.sh))
  {
    CacheCoherence(s0, events);
    NothingLost(s0, events);
  }

  lemma {:induction false} NothingLost(s: State, events: seq<Event>)
    requires Valid(s, events) && s.sh.lost == 0
    requires forall e :: e in events ==> !(e.Act? && (e.action.StoreLost? || e.action.SettleLost?))
    ensures Run(s, events).sh.lost == 0
    decreases |events|
  {
    if events != [] {
      assert events[0] in events;
      NothingLost(Apply(s, events[0]), events[1..]);
    }
  }

  // ---- calls that nobody disturbs ----

  lemma RunOne(s: State, e: Event, rest: seq<Event>)
    requires Enabled(s, e) && Valid(Apply(s, e), rest)
    ensures Valid(s, [e] + rest) && Run(s, [e] + rest) == Run(Apply(s, e), rest)
  {
    assert ([e] + rest)[1..] == rest;
  }

  /** Thread t, alone in acting, is at pc. */
  function At(threads: map<Tid, Pc>, t: Tid, sh: Shared, pc: Option<Pc>): State {
    State(sh, After(threads, t, pc))
  }

  /** One action in front of the rest of an undisturbed call. */
  lemma ActOne(threads: map<Tid, Pc>, t: Tid, sh: Shared, pc: Pc, a: Action, rest: seq<Event>)
    requires t !in threads && Can(sh, pc, a)
    requires var (sh', pc') := Do(sh, t, pc, a); Valid(At(threads, t, sh', pc'), rest)
    ensures var (sh', pc') := Do(sh, t, pc, a);
            var events := [Act(t, a)] + rest;
            && Valid(At(threads, t, sh, Some(pc)), events)
            && Run(At(threads, t, sh, Some(pc)), events) == Run(At(threads, t, sh', pc'), rest)
  {
    var s := At(threads, t, sh, Some(pc));
    var (sh', pc') := Do(sh, t, pc, a);
    assert After(After(threads, t, Some(pc)), t, pc') == After(threads, t, pc');
    RunOne(s, Act(t, a), rest);
  }

  /** A quiet moment: nobody holds the lock, and thread t is not in a call. */
  predicate Quiet(s: State, t: Tid) {
    s.sh.history != [] && LockFree(s.sh) && t !in s.threads
  }

  lemma NoCall(threads: map<Tid, Pc>, t: Tid, sh: Shared)
    requires t !in threads
    ensures At(threads, t, sh, None) == State(sh, threads)
  {
  }

  /** A getClient call on a cold cache, from the load on. */
  lemma FillAndReturn(threads: map<Tid, Pc>, t: Tid, sh: Shared, floor: nat, ver: nat, cfg: Config)
    returns (events: seq<Event>)
    requires t !in threads && cfg.pending == ""
    ensures Valid(At(threads, t, sh, Some(GetLoaded(floor, ver, cfg))), events)
    ensures Run(At(threads, t, sh, Some(GetLoaded(floor, ver, cfg))), events)
         == State(sh.(client := Some(cfg), clientCfg := Some(cfg), cacheVer := ver, writer := None), threads)
  {
    var half := sh.(client := Some(cfg));
    var filled := half.(clientCfg := Some(cfg), cacheVer := ver, writer := None);
    NoCall(threads, t, filled);
    ActOne(threads, t, filled, GetDone(floor, ver, cfg), Return, []);
    ActOne(threads, t, half, GetHalf(floor, ver, cfg), SetConfig, [Act(t, Return)] + []);
    ActOne(threads, t, sh, GetLoaded(floor, ver, cfg), SetClient, [Act(t, SetConfig)] + ([Act(t, Return)] + []));
    events := [Act(t, SetClient)] + ([Act(t, SetConfig)] + ([Act(t, Return)] + []));
  }

  /** What a call that found no client does up to its load. */
  lemma LockedLoad(threads: map<Tid, Pc>, t: Tid, sh: Shared, floor: nat, rest: seq<Event>) returns (events: seq<Event>)
    requires t !in threads && sh.history != [] && LockFree(sh) && !CacheFilled(sh) && Stored(sh).Some?
    requires var loaded := GetLoaded(floor, |sh.history| - 1, Stored(sh).value);
             Valid(At(threads, t, sh.(writer := Some(t)), Some(loaded)), rest)
    ensures var loaded := GetLoaded(floor, |sh.history| - 1, Stored(sh).value);
            && Valid(At(threads, t, sh, Some(GetWaiting(floor))), events)
            && Run(At(threads, t, sh, Some(GetWaiting(floor))), events)
                 == Run(At(threads, t, sh.(writer := Some(t)), Some(loaded)), rest)
  {
    var locked := sh.(writer := Some(t));
    ActOne(threads, t, locked, GetReading(floor), Load, rest);
    events := [Act(t, Load)] + rest;
    ActOne(threads, t, locked, GetChecking(floor), Check, events);
    events := [Act(t, Check)] + events;
    ActOne(threads, t, sh, GetWaiting(floor), Lock, events);
    events := [Act(t, Lock)] + events;
  }

  /** The same, from the start of the call. */
  lemma LockAndLoad(s: State, t: Tid, rest: seq<Event>) returns (events: seq<Event>)
    requires Quiet(s, t) && !CacheFilled(s.sh) && Stored(s.sh).Some?
    requires var loaded := GetLoaded(s.sh.completed, |s.sh.history| - 1, Stored(s.sh).value);
             Valid(At(s.threads, t, s.sh.(writer := Some(t)), Some(loaded)), rest)
    ensures var loaded := GetLoaded(s.sh.completed, |s.sh.history| - 1, Stored(s.sh).value);
            && Valid(s, events)
            && Run(s, events) == Run(At(s.threads, t, s.sh.(writer := Some(t)), Some(loaded)), rest)
  {
    var threads, sh, floor := s.threads, s.sh, s.sh.completed;
    var shared := sh.(readers := sh.readers + {t});
    assert shared.(readers := shared.readers - {t}) == sh;
    events := LockedLoad(threads, t, sh, floor, rest);
    ActOne(threads, t, shared, GetShared(floor), ReadShared, events);
    events := [Act(t, ReadShared)] + events;
    ActOne(threads, t, sh, GetStart(floor), RLock, events);
    events := [Act(t, RLock)] + events;
    RunOne(s, CallGet(t), events);
    events := [CallGet(t)] + events;
  }

  /** An undisturbed getClient call on a cold cache leaves the stored configuration in it. */
  lemma ColdCallFills(s: State, t: Tid, cfg: Config) returns (events: seq<Event>)
    requires Quiet(s, t) && !CacheFilled(s.sh) && Stored(s.sh) == Some(cfg) && cfg.pending == ""
    ensures Valid(s, events)
    ensures Run(s, events)
         == State(s.sh.(client := Some(cfg), clientCfg := Some(cfg), cacheVer := |s.sh.history| - 1), s.threads)
  {
    var ver := |s.sh.history| - 1;
    var fill := FillAndReturn(s.threads, t, s.sh.(writer := Some(t)), s.sh.completed, ver, cfg);
    events := LockAndLoad(s, t, fill);
  }

  /** When a rotation is pending it settles it first, and caches what it settled. */
  lemma SettlingCallFills(s: State, t: Tid, cfg: Config, settled: Config) returns (events: seq<Event>)
    requires Quiet(s, t) && !CacheFilled(s.sh) && Stored(s.sh) == Some(cfg)
    requires cfg.pending != "" && settled.pending == ""
    ensures Valid(s, events)
    ensures var sh := Run(s, events).sh;
            && Run(s, events).threads == s.threads && sh.history == s.sh.history + [Some(settled)]
            && sh.client == sh.clientCfg == Some(settled) && sh.writer.None?
  {
    var ver, locked := |s.sh.history|, s.sh.(writer := Some(t));
    var stored := locked.(history := s.sh.history + [Some(settled)], completed := ver);
    var fill := FillAndReturn(s.threads, t, stored, s.sh.completed, ver, settled);
    ActOne(s.threads, t, locked, GetLoaded(s.sh.completed, ver - 1, cfg), SettlePut(settled), fill);
    events := LockAndLoad(s, t, [Act(t, SettlePut(settled))] + fill);
  }

  /** On a warm cache it returns what is cached and changes nothing. */
  lemma WarmCallReturns(s: State, t: Tid) returns (events: seq<Event>)
    requires Quiet(s, t) && CacheFilled(s.sh)
    ensures Valid(s, events)
    ensures var done := GetDone(s.sh.completed, s.sh.cacheVer, s.sh.clientCfg.value);
            Run(s, events) == At(s.threads, t, s.sh, Some(done))
  {
    var shared := s.sh.(readers := s.sh.readers + {t});
    assert shared.(readers := shared.readers - {t}) == s.sh;
    ActOne(s.threads, t, shared, GetShared(s.sh.completed), ReadShared, []);
    ActOne(s.threads, t, s.sh, GetStart(s.sh.completed), RLock, [Act(t, ReadShared)] + []);
    events := [Act(t, RLock)] + ([Act(t, ReadShared)] + []);
    RunOne(s, CallGet(t), events);
    events := [CallGet(t)] + events;
  }

  /** An undisturbed write stores its configuration and leaves the cache empty. */
  lemma WriteCallClears(s: State, t: Tid, written: Option<Config>) returns (events: seq<Event>)
    requires Quiet(s, t)
    ensures Valid(s, events)
    ensures var sh := Run(s, events).sh;
            && Run(s, events).threads == s.threads && sh.history == s.sh.history + [written]
            && sh.client.None? && sh.clientCfg.None? && sh.writer.None? && sh.readers == {}
            && sh.completed >= |s.sh.history|
  {
    var threads, ver := s.threads, |s.sh.history|;
    var stored := s.sh.(history := s.sh.history + [written]);
    var locked := stored.(writer := Some(t));
    var half := locked.(client := None);
    var clear := half.(clientCfg := None);
    var done := clear.(writer := None, completed := if ver > clear.completed then ver else clear.completed);
    NoCall(threads, t, done);
    ActOne(threads, t, clear, WriteCleared(ver), ResetUnlock, []);
    events := [Act(t, ResetUnlock)] + [];
    ActOne(threads, t, half, WriteHalf(ver), ClearConfig, events);
    events := [Act(t, ClearConfig)] + events;
    ActOne(threads, t, locked, WriteResetting(ver), ClearClient, events);
    events := [Act(t, ClearClient)] + events;
    ActOne(threads, t, stored, WriteStored(ver), ResetLock, events);
    events := [Act(t, ResetLock)] + events;
    ActOne(threads, t, s.sh, WriteStart, StorePut(written), events);
    events := [Act(t, StorePut(written))] + events;
    RunOne(s, CallWrite(t), events);
    events := [CallWrite(t)] + events;
  }

  // ---- a lost store leaves a stale client ----

  const OLD := Config("old", "", User, 0, DEFAULTS)
  const NEW := Config("new", "", User, 0, DEFAULTS)

  /** A config write that took effect but was reported as failed leaves the old client in the cache, with
      no call under way. */
  lemma LostStoreLeavesAStaleClient() returns (s0: State, events: seq<Event>)
    ensures Init(s0) && Valid(s0, events)
    ensures var s := Run(s0, events);
            s.threads == map[] && s.sh.client == s.sh.clientCfg == Some(OLD) && s.sh.history == [Some(OLD), Some(NEW)]
  {
    var empty := Shared([Some(OLD)], None, None, 0, 0, 0, None, {});
    var filled := empty.(client := Some(OLD), clientCfg := Some(OLD));
    s0 := State(empty, map[]);
    var write, lose := CallWrite(1), Act(1, StoreLost(Some(NEW)));
    var get := ColdCallFills(s0, 0, OLD);
    var s1 := State(filled, map[]);
    var s2 := Apply(s1, write);
    var s3 := Apply(s2, lose);
    assert s3.threads == map[];
    RunOne(s2, lose, []);
    RunOne(s1, write, [lose] + []);
    RunTwo(s0, get, [write] + ([lose] + []));
    events := get + ([write] + ([lose] + []));
  }

  lemma {:induction false} RunTwo(s: State, xs: seq<Event>, ys: seq<Event>)
    requires Valid(s, xs) && Valid(Run(s, xs), ys)
    ensures Valid(s, xs + ys) && Run(s, xs + ys) == Run(Run(s, xs), ys)
    decreases |xs|
  {
    if xs == [] {
      assert xs + ys == ys;
    } else {
      RunTwo(Apply(s, xs[0]), xs[1..], ys);
      assert (xs + ys)[1..] == xs[1..] + ys;
    }
  }

  predicate EndsCall(e: Event, t: Tid) {
    e.ProcessCrash? || (e.Act? && e.t == t && (e.action.Return? || e.action.GetFail? || e.action.SettleLost?))
  }

  /** Thread t stays in one call: its call does not end, and the process does not crash. */
  predicate StaysInCall(events: seq<Event>, t: Tid) {
    forall i :: 0 <= i < |events| ==> !EndsCall(events[i], t)
  }

  lemma FloorStaysForStep(s: State, e: Event, t: Tid)
    requires Enabled(s, e) && t in s.threads && InGet(s.threads[t])
    requires !EndsCall(e, t)
    ensures var s' := Apply(s, e); t in s'.threads && InGet(s'.threads[t]) && s'.threads[t].floor == s.threads[t].floor
  {
  }

  lemma {:induction false} FloorStays(s: State, events: seq<Event>, t: Tid)
    requires Valid(s, events) && t in s.threads && InGet(s.threads[t]) && StaysInCall(events, t)
    ensures var s' := Run(s, events);
            t in s'.threads && InGet(s'.threads[t]) && s'.threads[t].floor == s.threads[t].floor
    decreases |events|
  {
    if events != [] {
      FloorStaysForStep(s, events[0], t);
      FloorStays(Apply(s, events[0]), events[1..], t);
    }
  }

  /** A getClient call never returns a configuration older than any write that had completed before the
      call began, whatever else runs meanwhile. */
  lemma NoStaleClient(s0: State, before: seq<Event>, t: Tid, during: seq<Event>)
    requires Init(s0) && Valid(s0, before) && t !in Run(s0, before).threads
    requires Valid(Apply(Run(s0, before), CallGet(t)), during) && StaysInCall(during, t)
    ensures var s := Run(Apply(Run(s0, before), CallGet(t)), during);
            && t in s.threads
            && (s.threads[t].GetDone? ==>
                  var pc := s.threads[t];
                  Run(s0, before).sh.completed <= pc.ver < |s.sh.history| && s.sh.history[pc.ver] == Some(pc.cfg))
  {
    var s1 := Run(s0, before);
    InitHolds(s0);
    RunKeepsInv(s0, before);
    StepKeepsInv(s1, CallGet(t));
    FloorStays(Apply(s1, CallGet(t)), during, t);
    RunKeepsInv(Apply(s1, CallGet(t)), during);
  }
}
