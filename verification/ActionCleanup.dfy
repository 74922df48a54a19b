/** The GitHub Action's main and post steps (action/src/main.ts, action/src/post.ts, action/src/auth.ts,
    action/src/state.ts, action/src/index.ts). The main step may fail at every call, and the runner may
    kill it between any two actions; the post step sees only what main saved. */
module ActionCleanup {
  import opened Common

  // ---- what the steps do ----

  /** Calls that acquire or release something. */
  datatype Effect =
    | MintToken(token: string)
    | IssueLease(token: string, id: string)
    | Login(registry: string)
    | Logout(registry: string)
    | RevokeLease(token: string, id: string)
    | RevokeToken(token: string)

  /** The keys of the state handed from main to post. */
  datatype Key = IsPost | VaultUrl | Namespace | CaCert | TlsSkipVerify | Token | TokenActionOwned | LeaseId | Registry
               | LoggedIn | RevokeSetting | LogoutSetting

  datatype Action = Save(key: Key, value: string) | Do(effect: Effect)

  datatype Inputs = Inputs(registry: string, vaultUrl: string, vaultToken: Option<string>, namespace: Option<string>,
                           caCert: Option<string>, tlsSkipVerify: bool, login: bool, revoke: bool, logout: bool)

  /** What parseInputs guarantees: required inputs are not empty, optional ones absent or not empty. */
  predicate Parsed(i: Inputs) {
    i.registry != "" && i.vaultUrl != "" && i.vaultToken != Some("") && i.namespace != Some("") && i.caCert != Some("")
  }

  /** How a call that acquires a token or a lease goes. Given: main gets it. Withheld: nothing is acquired.
      Missed: it is acquired, but main sees an error, because the response is lost or cannot be used. */
  datatype Grant = Given(id: string) | Withheld | Missed(id: string)

  /** How the calls of one main step go: OIDC offered by the runner, identity token obtained, Vault
      token minted, lease issued (its id may be empty), docker login. */
  datatype Answers = Answers(oidc: bool, idToken: bool, minted: Grant, lease: Grant, login: Reply)

  /** Whether a Vault client can be built from an address, namespace, CA bundle and TLS setting. */
  type ClientCheck = (string, Option<string>, Option<string>, bool) -> bool

  function Text(b: bool): string {
    if b then "true" else "false"
  }

  function SaveText(key: Key, value: Option<string>): seq<Action> {
    if value.Some? && value.value != "" then [Save(key, value.value)] else []
  }

  function Settings(i: Inputs): seq<Action> {
    [Save(IsPost, "true"), Save(VaultUrl, i.vaultUrl)] + SaveText(Namespace, i.namespace) + SaveText(CaCert, i.caCert)
    + FlagSettings(i)
  }

  function FlagSettings(i: Inputs): seq<Action> {
    [Save(TlsSkipVerify, Text(i.tlsSkipVerify)), Save(Registry, i.registry), Save(RevokeSetting, Text(i.revoke)),
     Save(LogoutSetting, Text(i.logout)), Save(LoggedIn, "false")]
  }

  function LoginPlan(i: Inputs, a: Answers): seq<Action> {
    if !i.login then []
    else
      match a.login
      case Refuse(_) => []
      case LostAnswer => [Do(Login(i.registry))]
      case Answer => [Do(Login(i.registry)), Save(LoggedIn, "true")]
  }

  function LeasePlan(i: Inputs, a: Answers, token: string): seq<Action> {
    match a.lease
    case Withheld => []
    case Missed(id) => [Do(IssueLease(token, id))]
    case Given(id) => [Do(IssueLease(token, id))] + SaveText(LeaseId, Some(id)) + LoginPlan(i, a)
  }

  function TokenPlan(i: Inputs, a: Answers, owned: bool, token: string): seq<Action> {
    [Save(TokenActionOwned, Text(owned)), Save(Token, token)] + LeasePlan(i, a, token)
  }

  /** The action mints a token, whether or not main gets to see it; an empty one is an error. */
  predicate Mints(i: Inputs, a: Answers) {
    i.vaultToken.None? && a.oidc && a.idToken && (a.minted.Missed? || (a.minted.Given? && a.minted.id != ""))
  }

  function AuthPlan(i: Inputs, a: Answers): seq<Action> {
    if i.vaultToken.Some? then TokenPlan(i, a, false, i.vaultToken.value)
    else if !Mints(i, a) then []
    else if a.minted.Missed? then [Do(MintToken(a.minted.id))]
    else [Do(MintToken(a.minted.id))] + TokenPlan(i, a, true, a.minted.id)
  }

  /** Everything main does up to its end or its first failing call, unless it is killed before. */
  function Plan(i: Inputs, a: Answers, check: ClientCheck): seq<Action> {
    Settings(i) + if check(i.vaultUrl, i.namespace, i.caCert, i.tlsSkipVerify) then AuthPlan(i, a) else []
  }

  /** The runner's state after some actions. */
  function StateOf(done: seq<Action>): map<Key, string> {
    if done == [] then map[]
    else
      var before := StateOf(done[..|done| - 1]);
      match done[|done| - 1]
      case Save(key, value) => before[key := value]
      case Do(_) => before
  }

  function EffectsOf(done: seq<Action>): seq<Effect> {
    if done == [] then []
    else
      var before := EffectsOf(done[..|done| - 1]);
      match done[|done| - 1]
      case Save(_, _) => before
      case Do(effect) => before + [effect]
  }

  // ---- post ----

  /** core.getState: the empty string for a key never saved. */
  function Get(state: map<Key, string>, key: Key): string {
    if key in state then state[key] else ""
  }

  function GetText(state: map<Key, string>, key: Key): Option<string> {
    if Get(state, key) == "" then None else Some(Get(state, key))
  }

  predicate GetBool(state: map<Key, string>, key: Key) {
    Get(state, key) == "true"
  }

  predicate ClientOk(state: map<Key, string>, check: ClientCheck) {
    check(Get(state, VaultUrl), GetText(state, Namespace), GetText(state, CaCert), GetBool(state, TlsSkipVerify))
  }

  function LogoutPlan(state: map<Key, string>): seq<Effect> {
    if GetText(state, Registry).Some? && GetBool(state, LoggedIn) && GetBool(state, LogoutSetting)
    then [Logout(Get(state, Registry))] else []
  }

  function VaultPlan(state: map<Key, string>): seq<Effect> {
    var token := GetText(state, Token);
    if token.None? || Get(state, VaultUrl) == "" then []
    else
      (if GetText(state, LeaseId).Some? && GetBool(state, RevokeSetting)
       then [RevokeLease(token.value, Get(state, LeaseId))] else [])
      + (if GetBool(state, TokenActionOwned) then [RevokeToken(token.value)] else [])
  }

  function VaultPart(state: map<Key, string>, check: ClientCheck): seq<Effect> {
    if ClientOk(state, check) then VaultPlan(state) else []
  }

  /** What post attempts, given the saved state. */
  function PostPlan(state: map<Key, string>, check: ClientCheck): seq<Effect> {
    LogoutPlan(state) + VaultPart(state, check)
  }

  /** Post throws when it needs a Vault client that cannot be built. */
  predicate PostThrows(state: map<Key, string>, check: ClientCheck) {
    GetText(state, Token).Some? && Get(state, VaultUrl) != "" && !ClientOk(state, check)
  }

  // ---- what ought to be released ----

  function Each(did: seq<Effect>, f: Effect -> seq<Effect>): seq<Effect> {
    if did == [] then [] else f(did[0]) + Each(did[1..], f)
  }

  function LogoutFor(e: Effect): seq<Effect> {
    if e.Login? then [Logout(e.registry)] else []
  }

  function LeaseFor(e: Effect): seq<Effect> {
    if e.IssueLease? && e.id != "" then [RevokeLease(e.token, e.id)] else []
  }

  function TokenFor(e: Effect): seq<Effect> {
    if e.MintToken? then [RevokeToken(e.token)] else []
  }

  /** What was acquired is to be released, as far as the inputs ask for it: first the login, then the
      lease, and last the token the action minted, which the lease's revocation still needs. */
  function Owed(did: seq<Effect>, revoke: bool, logout: bool): seq<Effect> {
    (if logout then Each(did, LogoutFor) else []) + (if revoke then Each(did, LeaseFor) else []) + Each(did, TokenFor)
  }

  // ---- sequences of actions ----

  lemma {:induction false} StateOfConcat(xs: seq<Action>, ys: seq<Action>)
    ensures StateOf(xs + ys) == StateOf(xs) + StateOf(ys) && EffectsOf(xs + ys) == EffectsOf(xs) + EffectsOf(ys)
    decreases |ys|
  {
    if ys == [] {
      assert xs + ys == xs;
    } else {
      var n := |ys| - 1;
      assert (xs + ys)[..|xs + ys| - 1] == xs + ys[..n];
      StateOfConcat(xs, ys[..n]);
    }
  }

  lemma StateOfOne(x: Action)
    ensures StateOf([x]) == (match x case Save(k, v) => map[k := v] case Do(_) => map[])
    ensures EffectsOf([x]) == (match x case Save(_, _) => [] case Do(e) => [e])
  {
    assert [x][..0] == [];
  }

  /** Only what is saved is in the state. */
  lemma {:induction false} SavedBySomeAction(xs: seq<Action>)
    ensures forall key :: key in StateOf(xs) ==> Save(key, StateOf(xs)[key]) in xs
    ensures forall x :: x in xs && x.Save? ==> x.key in StateOf(xs)
    ensures (forall x :: x in xs ==> x.Save?) ==> EffectsOf(xs) == []
    decreases |xs|
  {
    if xs != [] {
      var n := |xs| - 1;
      SavedBySomeAction(xs[..n]);
      assert xs == xs[..n] + [xs[n]];
    }
  }

  lemma {:induction false} EachAfter(did: seq<Effect>, e: Effect, f: Effect -> seq<Effect>)
    ensures Each(did + [e], f) == Each(did, f) + f(e)
  {
    if did == [] {
      assert [e][1..] == [] && did + [e] == [e];
    } else {
      assert (did + [e])[1..] == did[1..] + [e];
      EachAfter(did[1..], e, f);
    }
  }

  // ---- what post makes of a state ----

  /** The settings have been saved, and a client can be built from them. */
  predicate Ready(st: map<Key, string>, i: Inputs, check: ClientCheck) {
    && Get(st, VaultUrl) == i.vaultUrl && Get(st, Registry) == i.registry
    && GetText(st, Namespace) == i.namespace && GetText(st, CaCert) == i.caCert
    && GetBool(st, TlsSkipVerify) == i.tlsSkipVerify && GetBool(st, RevokeSetting) == i.revoke
    && GetBool(st, LogoutSetting) == i.logout
    && check(i.vaultUrl, i.namespace, i.caCert, i.tlsSkipVerify) && Parsed(i)
  }

  /** What main has saved beside the settings, and what it has acquired. */
  datatype View = View(owned: bool, token: Option<string>, lease: Option<string>, loggedIn: bool,
                       login: Option<string>, issued: Option<(string, string)>, minted: Option<string>)

  function LogoutOf(login: Option<string>): seq<Effect> {
    if login.Some? then [Logout(login.value)] else []
  }

  function LeaseOf(issued: Option<(string, string)>): seq<Effect> {
    if issued.Some? && issued.value.1 != "" then [RevokeLease(issued.value.0, issued.value.1)] else []
  }

  function TokenOf(minted: Option<string>): seq<Effect> {
    if minted.Some? then [RevokeToken(minted.value)] else []
  }

  predicate AtState(st: map<Key, string>, v: View) {
    && GetBool(st, TokenActionOwned) == v.owned && GetText(st, Token) == v.token && GetText(st, LeaseId) == v.lease
    && GetBool(st, LoggedIn) == v.loggedIn
  }

  predicate AtEffects(did: seq<Effect>, v: View) {
    Each(did, LogoutFor) == LogoutOf(v.login) && Each(did, LeaseFor) == LeaseOf(v.issued)
    && Each(did, TokenFor) == TokenOf(v.minted)
  }

  /** Post attempts exactly what is owed, kind by kind. */
  predicate Even(v: View, i: Inputs) {
    && (i.logout ==> v.login == if v.loggedIn then Some(i.registry) else None)
    && (i.revoke ==>
          LeaseOf(v.issued)
            == if v.token.Some? && v.lease.Some? then [RevokeLease(v.token.value, v.lease.value)] else [])
    && v.minted == if v.owned then v.token else None
  }

  /** Post attempts exactly what is owed. */
  predicate Settles(st: map<Key, string>, did: seq<Effect>, i: Inputs, check: ClientCheck) {
    PostPlan(st, check) == Owed(did, i.revoke, i.logout)
  }

  predicate OneOf(xs: seq<Effect>, kind: Effect -> bool) {
    |xs| <= 1 && forall e :: e in xs ==> kind(e)
  }

  lemma SameHead(a: seq<Effect>, r: seq<Effect>, x: seq<Effect>, q: seq<Effect>, kind: Effect -> bool)
    requires OneOf(a, kind) && OneOf(x, kind) && (forall e :: e in r || e in q ==> !kind(e)) && a + r == x + q
    ensures a == x && r == q
  {
    var s := a + r;
    assert a != [] ==> s[0] == a[0];
    assert x != [] ==> s[0] == x[0];
    assert a == [] && s != [] ==> s[0] in r;
    assert x == [] && s != [] ==> s[0] in q;
    assert r == s[|a|..] && q == (x + q)[|x|..];
  }

  /** Sequences of three kinds are equal exactly when they are equal kind by kind. */
  lemma SameByKind(a: seq<Effect>, b: seq<Effect>, c: seq<Effect>, x: seq<Effect>, y: seq<Effect>, z: seq<Effect>)
    requires OneOf(a, (e: Effect) => e.Logout?) && OneOf(x, (e: Effect) => e.Logout?)
    requires OneOf(b, (e: Effect) => e.RevokeLease?) && OneOf(y, (e: Effect) => e.RevokeLease?)
    requires OneOf(c, (e: Effect) => e.RevokeToken?) && OneOf(z, (e: Effect) => e.RevokeToken?)
    ensures a + b + c == x + y + z <==> a == x && b == y && c == z
  {
    if a + b + c == x + y + z {
      assert a + (b + c) == a + b + c && x + (y + z) == x + y + z;
      SameHead(a, b + c, x, y + z, (e: Effect) => e.Logout?);
      SameHead(b, c, y, z, (e: Effect) => e.RevokeLease?);
    }
  }

  lemma PostPlanByKind(st: map<Key, string>, i: Inputs, check: ClientCheck, v: View)
    requires Ready(st, i, check) && AtState(st, v)
    ensures LogoutPlan(st) == LogoutOf(if v.loggedIn && i.logout then Some(i.registry) else None)
    ensures PostPlan(st, check) == LogoutPlan(st) + VaultPlan(st)
    ensures VaultPlan(st) ==
            LeaseOf(if v.token.Some? && v.lease.Some? && i.revoke then Some((v.token.value, v.lease.value)) else None)
            + TokenOf(if v.owned then v.token else None)
  {
    assert v.lease != Some("");
  }

  function HeldLease(v: View, i: Inputs): Option<(string, string)> {
    if v.token.Some? && v.lease.Some? && i.revoke then Some((v.token.value, v.lease.value)) else None
  }

  lemma PostPlanInOrder(st: map<Key, string>, i: Inputs, check: ClientCheck, v: View)
    requires Ready(st, i, check) && AtState(st, v)
    ensures v.lease != Some("")
    ensures PostPlan(st, check) ==
            LogoutOf(if v.loggedIn && i.logout then Some(i.registry) else None) + LeaseOf(HeldLease(v, i))
            + TokenOf(if v.owned then v.token else None)
  {
    PostPlanByKind(st, i, check, v);
    Associate(LogoutPlan(st), LeaseOf(HeldLease(v, i)), TokenOf(if v.owned then v.token else None));
  }

  lemma Associate(a: seq<Effect>, b: seq<Effect>, c: seq<Effect>)
    ensures a + b + c == a + (b + c)
  {
  }

  lemma SettlesWhenEven(st: map<Key, string>, did: seq<Effect>, i: Inputs, check: ClientCheck, v: View)
    requires Ready(st, i, check) && AtState(st, v) && AtEffects(did, v)
    ensures Settles(st, did, i, check) <==> Even(v, i)
  {
    PostPlanInOrder(st, i, check, v);
    EvenByKind(v, i);
  }

  lemma EvenByKind(v: View, i: Inputs)
    requires v.lease != Some("")
    ensures LogoutOf(if v.loggedIn && i.logout then Some(i.registry) else None) + LeaseOf(HeldLease(v, i))
            + TokenOf(if v.owned then v.token else None)
              == (if i.logout then LogoutOf(v.login) else []) + (if i.revoke then LeaseOf(v.issued) else [])
                + TokenOf(v.minted)
       <==> Even(v, i)
  {
    var loggedIn := if v.loggedIn && i.logout then Some(i.registry) else None;
    var owned := if v.owned then v.token else None;
    SameByKind(LogoutOf(loggedIn), LeaseOf(HeldLease(v, i)), TokenOf(owned), if i.logout then LogoutOf(v.login) else [],
               if i.revoke then LeaseOf(v.issued) else [], TokenOf(v.minted));
    OptionsByEffect(owned, v.minted);
    OptionsByEffect(loggedIn, v.login);
  }

  lemma OptionsByEffect(a: Option<string>, b: Option<string>)
    ensures TokenOf(a) == TokenOf(b) <==> a == b
    ensures LogoutOf(a) == LogoutOf(b) <==> a == b
  {
    if a.Some? && b.Some? {
      assert TokenOf(a)[0] == RevokeToken(a.value) && TokenOf(b)[0] == RevokeToken(b.value);
      assert LogoutOf(a)[0] == Logout(a.value) && LogoutOf(b)[0] == Logout(b.value);
    }
  }

  /** One more action after the settings. */
  function Next(v: View, x: Action): View {
    match x
    case Save(TokenActionOwned, value) => v.(owned := value == "true")
    case Save(Token, value) => v.(token := if value == "" then None else Some(value))
    case Save(LeaseId, value) => v.(lease := if value == "" then None else Some(value))
    case Save(LoggedIn, value) => v.(loggedIn := value == "true")
    case Do(Login(registry)) => v.(login := Some(registry))
    case Do(IssueLease(token, id)) => v.(issued := Some((token, id)))
    case Do(MintToken(token)) => v.(minted := Some(token))
    case _ => v
  }

  /** It saves no setting and acquires nothing twice. */
  predicate Orderly(v: View, x: Action) {
    match x
    case Save(key, _) => key in {TokenActionOwned, Token, LeaseId, LoggedIn}
    case Do(Login(_)) => v.login.None?
    case Do(IssueLease(_, _)) => v.issued.None?
    case Do(MintToken(_)) => v.minted.None?
    case _ => true
  }

  lemma GetAfter(st: map<Key, string>, x: Action)
    ensures SavedIn(st, st + StateOf([x]), x)
  {
    StateOfOne(x);
  }

  predicate SavedIn(st: map<Key, string>, st': map<Key, string>, x: Action) {
    forall k :: Get(st', k) == if x.Save? && k == x.key then x.value else Get(st, k)
  }

  lemma StepReady(st: map<Key, string>, st': map<Key, string>, i: Inputs, check: ClientCheck, v: View, x: Action)
    requires Ready(st, i, check) && Orderly(v, x) && SavedIn(st, st', x)
    ensures Ready(st', i, check)
  {
  }

  lemma StepState(st: map<Key, string>, st': map<Key, string>, v: View, x: Action)
    requires AtState(st, v) && Orderly(v, x) && SavedIn(st, st', x)
    ensures AtState(st', Next(v, x))
  {
  }

  lemma LogoutStep(did: seq<Effect>, e: Effect, login: Option<string>)
    requires Each(did, LogoutFor) == LogoutOf(login) && (e.Login? ==> login.None?)
    ensures Each(did + [e], LogoutFor) == LogoutOf(if e.Login? then Some(e.registry) else login)
  {
    EachAfter(did, e, LogoutFor);
  }

  lemma LeaseStep(did: seq<Effect>, e: Effect, issued: Option<(string, string)>)
    requires Each(did, LeaseFor) == LeaseOf(issued) && (e.IssueLease? ==> issued.None?)
    ensures Each(did + [e], LeaseFor) == LeaseOf(if e.IssueLease? then Some((e.token, e.id)) else issued)
  {
    EachAfter(did, e, LeaseFor);
  }

  lemma TokenStep(did: seq<Effect>, e: Effect, minted: Option<string>)
    requires Each(did, TokenFor) == TokenOf(minted) && (e.MintToken? ==> minted.None?)
    ensures Each(did + [e], TokenFor) == TokenOf(if e.MintToken? then Some(e.token) else minted)
  {
    EachAfter(did, e, TokenFor);
  }

  lemma StepEffects(did: seq<Effect>, v: View, x: Action)
    requires AtEffects(did, v) && Orderly(v, x)
    ensures AtEffects(did + EffectsOf([x]), Next(v, x))
  {
    StateOfOne(x);
    match x
    case Save(_, _) => assert did + [] == did;
    case Do(e) =>
      LogoutStep(did, e, v.login);
      LeaseStep(did, e, v.issued);
      TokenStep(did, e, v.minted);
  }

  function Views(v: View, xs: seq<Action>): View
    decreases |xs|
  {
    if xs == [] then v else Views(Next(v, xs[0]), xs[1..])
  }

  predicate AllOrderly(v: View, xs: seq<Action>)
    decreases |xs|
  {
    xs == [] || (Orderly(v, xs[0]) && AllOrderly(Next(v, xs[0]), xs[1..]))
  }

  lemma {:induction false} RunView(st: map<Key, string>, did: seq<Effect>, i: Inputs, check: ClientCheck, v: View,
                                   xs: seq<Action>)
    requires Ready(st, i, check) && AtState(st, v) && AtEffects(did, v) && AllOrderly(v, xs)
    ensures var st', did' := st + StateOf(xs), did + EffectsOf(xs);
            Ready(st', i, check) && AtState(st', Views(v, xs)) && AtEffects(did', Views(v, xs))
    decreases |xs|
  {
    if xs == [] {
      assert did + [] == did && st + map[] == st;
    } else {
      var one := [xs[0]];
      GetAfter(st, xs[0]);
      StepReady(st, st + StateOf(one), i, check, v, xs[0]);
      StepState(st, st + StateOf(one), v, xs[0]);
      StepEffects(did, v, xs[0]);
      RunView(st + StateOf(one), did + EffectsOf(one), i, check, Next(v, xs[0]), xs[1..]);
      RunViewGlue(st, did, xs);
    }
  }

  lemma RunViewGlue(st: map<Key, string>, did: seq<Effect>, xs: seq<Action>)
    requires xs != []
    ensures st + StateOf(xs) == st + StateOf([xs[0]]) + StateOf(xs[1..])
    ensures did + EffectsOf(xs) == did + EffectsOf([xs[0]]) + EffectsOf(xs[1..])
  {
    assert xs == [xs[0]] + xs[1..];
    StateOfConcat([xs[0]], xs[1..]);
  }

  // ---- the plan ----

  /** Killed right after this action, the runner has not yet been told of something acquired. */
  predicate AtRisk(last: Action, i: Inputs) {
    match last
    case Do(MintToken(_)) => true
    case Do(IssueLease(_, id)) => i.revoke && id != ""
    case Do(Login(_)) => i.logout
    case Do(_) => false
    case Save(key, value) => key == TokenActionOwned && value == "true"
  }

  predicate StoppedAtRisk(done: seq<Action>, i: Inputs) {
    done != [] && AtRisk(done[|done| - 1], i)
  }

  /** After n actions of the plan, post makes up for all of them exactly unless the last is at risk. */
  predicate EvenExactly(v: View, plan: seq<Action>, n: nat, i: Inputs)
    requires n <= |plan|
  {
    AllOrderly(v, plan[..n]) && (Even(Views(v, plan[..n]), i) <==> !StoppedAtRisk(plan[..n], i))
  }

  lemma Step(v: View, x: Action, rest: seq<Action>, n: nat, i: Inputs)
    requires 1 <= n <= |rest| + 1 && Orderly(v, x)
    requires if n == 1 then Even(Next(v, x), i) <==> !AtRisk(x, i) else EvenExactly(Next(v, x), rest, n - 1, i)
    ensures EvenExactly(v, [x] + rest, n, i)
  {
    assert ([x] + rest)[..n] == [x] + rest[..n - 1];
    assert ([x] + rest[..n - 1])[1..] == rest[..n - 1];
    if n > 1 {
      assert ([x] + rest)[..n][n - 1] == rest[..n - 1][n - 2];
    }
  }

  lemma LoginViews(v: View, i: Inputs, a: Answers, n: nat)
    requires n <= |LoginPlan(i, a)| && Even(v, i) && v.login.None? && !v.loggedIn
    ensures EvenExactly(v, LoginPlan(i, a), n, i)
  {
    if n > 0 {
      var login, save := Do(Login(i.registry)), Save(LoggedIn, "true");
      if a.login == LostAnswer {
        assert LoginPlan(i, a) == [login] + [];
        Step(v, login, [], n, i);
      } else {
        assert LoginPlan(i, a) == [login] + ([save] + []);
        if n > 1 { Step(Next(v, login), save, [], 1, i); }
        Step(v, login, [save] + [], n, i);
      }
    }
  }

  lemma LeaseViews(v: View, i: Inputs, a: Answers, token: string, n: nat)
    requires n <= |LeasePlan(i, a, token)| && Even(v, i)
    requires v.login.None? && v.issued.None? && !v.loggedIn && v.token == Some(token) && v.lease.None?
    ensures EvenExactly(v, LeasePlan(i, a, token), n, i)
  {
    if n > 0 {
      var issue := Do(IssueLease(token, a.lease.id));
      if a.lease.Missed? {
        assert LeasePlan(i, a, token) == [issue] + [];
        Step(v, issue, [], n, i);
      } else {
        GivenLeaseViews(v, i, a, token, n);
      }
    }
  }

  lemma GivenLeaseViews(v: View, i: Inputs, a: Answers, token: string, n: nat)
    requires 0 < n <= |LeasePlan(i, a, token)| && a.lease.Given? && Even(v, i)
    requires v.login.None? && v.issued.None? && !v.loggedIn && v.token == Some(token) && v.lease.None?
    ensures EvenExactly(v, LeasePlan(i, a, token), n, i)
  {
    var id := a.lease.id;
    var issue, save, login := Do(IssueLease(token, id)), Save(LeaseId, id), LoginPlan(i, a);
    var w := Next(v, issue);
    var rest := if id == "" then login else [save] + login;
    assert LeasePlan(i, a, token) == [issue] + rest;
    if n > 1 {
      if id == "" {
        LoginViews(w, i, a, n - 1);
      } else {
        if n > 2 { LoginViews(Next(w, save), i, a, n - 2); }
        Step(w, save, login, n - 1, i);
      }
    }
    Step(v, issue, rest, n, i);
  }

  lemma TokenViews(v: View, i: Inputs, a: Answers, owned: bool, token: string, n: nat)
    requires n <= |TokenPlan(i, a, owned, token)| && token != ""
    requires v == View(false, None, None, false, None, None, if owned then Some(token) else None)
    requires n > 0 || !owned
    ensures EvenExactly(v, TokenPlan(i, a, owned, token), n, i)
  {
    if n > 0 {
      var own, save, lease := Save(TokenActionOwned, Text(owned)), Save(Token, token), LeasePlan(i, a, token);
      var w := Next(v, own);
      assert TokenPlan(i, a, owned, token) == [own] + ([save] + lease);
      if n > 1 {
        if n > 2 { LeaseViews(Next(w, save), i, a, token, n - 2); }
        Step(w, save, lease, n - 1, i);
      }
      Step(v, own, [save] + lease, n, i);
    }
  }

  const START := View(false, None, None, false, None, None, None)

  lemma AuthViews(i: Inputs, a: Answers, n: nat)
    requires Parsed(i) && n <= |AuthPlan(i, a)|
    ensures EvenExactly(START, AuthPlan(i, a), n, i)
  {
    if i.vaultToken.Some? {
      TokenViews(START, i, a, false, i.vaultToken.value, n);
    } else if n > 0 {
      var mint := Do(MintToken(a.minted.id));
      var rest := if a.minted.Missed? then [] else TokenPlan(i, a, true, a.minted.id);
      assert AuthPlan(i, a) == [mint] + rest;
      if n > 1 { TokenViews(Next(START, mint), i, a, true, a.minted.id, n - 1); }
      Step(START, mint, rest, n, i);
    }
  }

  // ---- the settings ----

  /** The value main saves for a setting. */
  function Setting(i: Inputs, key: Key): string {
    match key
    case IsPost => "true"
    case VaultUrl => i.vaultUrl
    case Namespace => if i.namespace.Some? then i.namespace.value else ""
    case CaCert => if i.caCert.Some? then i.caCert.value else ""
    case TlsSkipVerify => Text(i.tlsSkipVerify)
    case Registry => i.registry
    case RevokeSetting => Text(i.revoke)
    case LogoutSetting => Text(i.logout)
    case LoggedIn => "false"
    case _ => ""
  }

  lemma SettingsAreReady(st: map<Key, string>, i: Inputs, check: ClientCheck)
    requires Parsed(i) && check(i.vaultUrl, i.namespace, i.caCert, i.tlsSkipVerify)
    requires forall k :: Get(st, k) == Setting(i, k)
    ensures Ready(st, i, check) && AtState(st, START)
  {
  }

  lemma SettingsState(i: Inputs)
    requires Parsed(i)
    ensures forall k :: Get(StateOf(Settings(i)), k) == Setting(i, k)
    ensures EffectsOf(Settings(i)) == []
  {
    SavedBySomeAction(Settings(i));
    OnlySettings(i);
    forall k ensures Get(StateOf(Settings(i)), k) == Setting(i, k) {
      if Setting(i, k) != "" { AllSettings(i, k); }
    }
  }

  predicate IsSetting(i: Inputs, x: Action) {
    x.Save? && x.key != Token && x.key != TokenActionOwned && x.value == Setting(i, x.key)
  }

  lemma OnlySettings(i: Inputs)
    ensures forall x :: x in Settings(i) ==> IsSetting(i, x)
  {
    OnlyTexts(i, FlagSettings(i));
  }

  lemma OnlyTexts(i: Inputs, flags: seq<Action>)
    requires forall x :: x in flags ==> IsSetting(i, x)
    ensures var texts := [Save(IsPost, "true"), Save(VaultUrl, i.vaultUrl)]
                         + SaveText(Namespace, i.namespace) + SaveText(CaCert, i.caCert);
            forall x :: x in texts + flags ==> IsSetting(i, x)
  {
  }

  lemma AllSettings(i: Inputs, k: Key)
    requires Setting(i, k) != ""
    ensures Save(k, Setting(i, k)) in Settings(i)
  {
    assert Settings(i) == [Save(IsPost, "true"), Save(VaultUrl, i.vaultUrl)] + SaveText(Namespace, i.namespace)
                          + SaveText(CaCert, i.caCert) + FlagSettings(i);
  }

  /** A save that gives post nothing to do. */
  predicate Quiet(x: Action) {
    x.Save? && x.key != Token && x.key != TokenActionOwned && (x.key == LoggedIn ==> x.value == "false")
  }

  lemma SettingsAreQuiet(i: Inputs)
    ensures forall x :: x in Settings(i) ==> Quiet(x)
  {
    OnlySettings(i);
  }

  lemma QuietState(done: seq<Action>, i: Inputs, check: ClientCheck)
    requires forall x :: x in done ==> Quiet(x)
    ensures EffectsOf(done) == [] && PostPlan(StateOf(done), check) == [] && !StoppedAtRisk(done, i)
  {
    var st := StateOf(done);
    SavedBySomeAction(done);
    assert GetText(st, Token).None?;
    if LoggedIn in st {
      assert Quiet(Save(LoggedIn, st[LoggedIn]));
    }
  }

  /** While the settings are being saved there is nothing to release, and post releases nothing. */
  lemma SettingsPrefix(i: Inputs, n: nat, check: ClientCheck)
    requires n <= |Settings(i)|
    ensures var done := Settings(i)[..n];
            EffectsOf(done) == [] && PostPlan(StateOf(done), check) == [] && !StoppedAtRisk(done, i)
  {
    SettingsAreQuiet(i);
    QuietState(Settings(i)[..n], i, check);
  }

  // ---- main results ----

  /** Wherever main is killed, post attempts exactly what main's effects call for, in that order, unless
      main had just acquired something the runner was not yet told of. */
  lemma PostReleasesExactly(i: Inputs, a: Answers, check: ClientCheck, n: nat)
    requires Parsed(i) && n <= |Plan(i, a, check)|
    ensures var done := Plan(i, a, check)[..n];
            PostPlan(StateOf(done), check) == Owed(EffectsOf(done), i.revoke, i.logout) <==> !StoppedAtRisk(done, i)
  {
    var plan := Plan(i, a, check);
    var settings := Settings(i);
    if n <= |settings| {
      assert plan[..n] == settings[..n];
      SettingsPrefix(i, n, check);
    } else {
      var m := n - |settings|;
      assert plan[..n] == settings + AuthPlan(i, a)[..m];
      AuthPrefix(i, a, check, m);
    }
  }

  lemma AuthPrefix(i: Inputs, a: Answers, check: ClientCheck, m: nat)
    requires Parsed(i) && 0 < m <= |AuthPlan(i, a)| && check(i.vaultUrl, i.namespace, i.caCert, i.tlsSkipVerify)
    ensures var done := Settings(i) + AuthPlan(i, a)[..m];
            Settles(StateOf(done), EffectsOf(done), i, check) <==> !StoppedAtRisk(done, i)
  {
    SettingsState(i);
    SettingsAreReady(StateOf(Settings(i)), i, check);
    AuthViews(i, a, m);
    TailSettles(Settings(i), AuthPlan(i, a)[..m], i, check);
  }

  lemma TailSettles(settings: seq<Action>, tail: seq<Action>, i: Inputs, check: ClientCheck)
    requires Ready(StateOf(settings), i, check) && AtState(StateOf(settings), START) && EffectsOf(settings) == []
    requires tail != [] && AllOrderly(START, tail) && (Even(Views(START, tail), i) <==> !StoppedAtRisk(tail, i))
    ensures var done := settings + tail; Settles(StateOf(done), EffectsOf(done), i, check) <==> !StoppedAtRisk(done, i)
  {
    RunView(StateOf(settings), [], i, check, START, tail);
    StateOfConcat(settings, tail);
    SettlesWhenEven(StateOf(settings) + StateOf(tail), [] + EffectsOf(tail), i, check, Views(START, tail));
    assert (settings + tail)[|settings + tail| - 1] == tail[|tail| - 1];
  }

  predicate LeaseMisses(i: Inputs, a: Answers) {
    || (a.lease.Missed? && a.lease.id != "" && i.revoke)
    || (a.lease.Given? && i.login && a.login == LostAnswer && i.logout)
  }

  predicate AuthMisses(i: Inputs, a: Answers) {
    || (Mints(i, a) && a.minted.Missed?)
    || ((i.vaultToken.Some? || (Mints(i, a) && a.minted.Given?)) && LeaseMisses(i, a))
  }

  /** Main ends at an acquisition it did not get to see and that post would have to release. */
  predicate Misses(i: Inputs, a: Answers, check: ClientCheck) {
    check(i.vaultUrl, i.namespace, i.caCert, i.tlsSkipVerify) && AuthMisses(i, a)
  }

  lemma LastOfConcat(xs: seq<Action>, ys: seq<Action>, i: Inputs)
    ensures StoppedAtRisk(xs + ys, i) <==> if ys == [] then StoppedAtRisk(xs, i) else StoppedAtRisk(ys, i)
  {
    assert ys == [] ==> xs + ys == xs;
  }

  lemma LeasePlanEnds(i: Inputs, a: Answers, token: string)
    ensures StoppedAtRisk(LeasePlan(i, a, token), i) <==> LeaseMisses(i, a)
  {
    if a.lease.Given? {
      var id := a.lease.id;
      var issued := [Do(IssueLease(token, id))] + SaveText(LeaseId, Some(id));
      LastOfConcat([Do(IssueLease(token, id))], SaveText(LeaseId, Some(id)), i);
      LastOfConcat(issued, LoginPlan(i, a), i);
    }
  }

  lemma TokenPlanEnds(i: Inputs, a: Answers, owned: bool, token: string)
    ensures StoppedAtRisk(TokenPlan(i, a, owned, token), i) <==> LeaseMisses(i, a)
  {
    var saves := [Save(TokenActionOwned, Text(owned)), Save(Token, token)];
    LeasePlanEnds(i, a, token);
    LastOfConcat(saves, LeasePlan(i, a, token), i);
    assert !StoppedAtRisk(saves, i);
    assert LeasePlan(i, a, token) == [] ==> !LeaseMisses(i, a);
  }

  lemma AuthPlanEnds(i: Inputs, a: Answers)
    ensures StoppedAtRisk(AuthPlan(i, a), i) <==> AuthMisses(i, a)
  {
    if i.vaultToken.Some? {
      TokenPlanEnds(i, a, false, i.vaultToken.value);
    } else if Mints(i, a) && a.minted.Given? {
      TokenPlanEnds(i, a, true, a.minted.id);
      LastOfConcat([Do(MintToken(a.minted.id))], TokenPlan(i, a, true, a.minted.id), i);
    }
  }

  lemma PlanEndsAtRiskExactly(i: Inputs, a: Answers, check: ClientCheck)
    ensures StoppedAtRisk(Plan(i, a, check), i) <==> Misses(i, a, check)
  {
    SettingsAreQuiet(i);
    QuietState(Settings(i), i, check);
    AuthPlanEnds(i, a);
    var ok := check(i.vaultUrl, i.namespace, i.caCert, i.tlsSkipVerify);
    LastOfConcat(Settings(i), if ok then AuthPlan(i, a) else [], i);
  }

  /** Wherever main fails by itself, or ends, post attempts exactly what main's effects call for, unless
      main failed at an acquisition whose answer it did not get to see; then it does not. */
  lemma PostReleasesAll(i: Inputs, a: Answers, check: ClientCheck)
    requires Parsed(i)
    ensures var done := Plan(i, a, check);
            PostPlan(StateOf(done), check) == Owed(EffectsOf(done), i.revoke, i.logout) <==> !Misses(i, a, check)
  {
    var plan := Plan(i, a, check);
    assert plan[..|plan|] == plan;
    PostReleasesExactly(i, a, check, |plan|);
    PlanEndsAtRiskExactly(i, a, check);
  }

  // ---- the steps as the action runs them ----

  function Take(acts: seq<Action>, n: nat): seq<Action> {
    if n <= |acts| then acts[..n] else acts
  }

  function MainPlan(inputs: Option<Inputs>, a: Answers, check: ClientCheck): seq<Action> {
    if inputs.Some? then Plan(inputs.value, a, check) else []
  }

  lemma Regroup(xs: seq<Action>, ys: seq<Action>, zs: seq<Action>)
    ensures xs + ys + zs == xs + (ys + zs)
  {
  }

  /** Whether main ends without a failing call. */
  predicate Succeeds(i: Inputs, a: Answers, check: ClientCheck) {
    check(i.vaultUrl, i.namespace, i.caCert, i.tlsSkipVerify) && LogsIn(i, a)
  }

  predicate LogsIn(i: Inputs, a: Answers) {
    && (i.vaultToken.Some? || (Mints(i, a) && a.minted.Given?))
    && a.lease.Given? && (i.login ==> a.login == Answer)
  }

  /** The runner. Its state is a file to which every save is appended and of which the last entry for a
      key counts; trail is that file with the outside effects in between. What a step does depends on
      the answers it gets only, so a step killed on its way leaves a prefix of what it appends. */
  class Runner {
    const check: ClientCheck
    var trail: seq<Action>

    constructor (check: ClientCheck)
      ensures this.check == check && trail == []
    {
      this.check, trail := check, [];
    }

    function State(): map<Key, string>
      reads this
    {
      StateOf(trail)
    }

    method Perform(x: Action)
      modifies this`trail
      ensures trail == old(trail) + [x]
    {
      trail := trail + [x];
    }

    method SaveString(key: Key, value: Option<string>)
      modifies this`trail
      ensures trail == old(trail) + SaveText(key, value)
    {
      if value.Some? && value.value != "" {
        Perform(Save(key, value.value));
      }
    }

    method SaveBool(key: Key, value: bool)
      modifies this`trail
      ensures trail == old(trail) + [Save(key, Text(value))]
    {
      Perform(Save(key, Text(value)));
    }

    /** authenticate: the token in use, and whether the action minted it. */
    method Authenticate(i: Inputs, a: Answers) returns (token: Option<string>, owned: bool)
      modifies this`trail
      ensures i.vaultToken.Some? ==> token == i.vaultToken && !owned && trail == old(trail)
      ensures Mints(i, a) ==>
                && trail == old(trail) + [Do(MintToken(a.minted.id))]
                && (if a.minted.Given? then token == Some(a.minted.id) && owned else token.None?)
      ensures i.vaultToken.None? && !Mints(i, a) ==> token.None? && trail == old(trail)
    {
      if i.vaultToken.Some? {
        return i.vaultToken, false;
      }
      if !a.oidc || !a.idToken || a.minted.Withheld? || a.minted == Given("") {
        return None, false;
      }
      Perform(Do(MintToken(a.minted.id)));
      return if a.minted.Given? then Some(a.minted.id) else None, true;
    }

    method SaveSettings(i: Inputs)
      requires Parsed(i)
      modifies this`trail
      ensures trail == old(trail) + Settings(i)
    {
      Perform(Save(IsPost, "true"));
      SaveString(VaultUrl, Some(i.vaultUrl));
      SaveString(Namespace, i.namespace);
      SaveString(CaCert, i.caCert);
      SaveFlags(i);
    }

    method SaveFlags(i: Inputs)
      requires i.registry != ""
      modifies this`trail
      ensures trail == old(trail) + FlagSettings(i)
    {
      SaveBool(TlsSkipVerify, i.tlsSkipVerify);
      SaveString(Registry, Some(i.registry));
      SaveBool(RevokeSetting, i.revoke);
      SaveBool(LogoutSetting, i.logout);
      SaveBool(LoggedIn, false);
    }

    /** The main step; no inputs stands for a parse failure. */
    method MainStep(inputs: Option<Inputs>, a: Answers) returns (thrown: bool)
      requires inputs.Some? ==> Parsed(inputs.value)
      modifies this`trail
      ensures trail == old(trail) + MainPlan(inputs, a, check)
      ensures thrown <==> inputs.None? || !Succeeds(inputs.value, a, check)
    {
      if inputs.None? {
        return true;
      }
      thrown := MainWith(inputs.value, a);
    }

    /** The main step once its inputs are parsed. */
    method MainWith(i: Inputs, a: Answers) returns (thrown: bool)
      requires Parsed(i)
      modifies this`trail
      ensures trail == old(trail) + Plan(i, a, check)
      ensures thrown <==> !Succeeds(i, a, check)
    {
      SaveSettings(i);
      if !check(i.vaultUrl, i.namespace, i.caCert, i.tlsSkipVerify) {
        assert Settings(i) + [] == Settings(i);
        return true;
      }
      thrown := LogIn(i, a);
      Regroup(old(trail), Settings(i), AuthPlan(i, a));
    }

    /** The main step from the authentication on. */
    method LogIn(i: Inputs, a: Answers) returns (thrown: bool)
      requires Parsed(i)
      modifies this`trail
      ensures trail == old(trail) + AuthPlan(i, a)
      ensures thrown <==> !LogsIn(i, a)
    {
      var token, owned := Authenticate(i, a);
      if token.None? {
        return true;
      }
      thrown := Use(i, a, owned, token.value);
    }

    method Use(i: Inputs, a: Answers, owned: bool, token: string) returns (thrown: bool)
      requires token != ""
      modifies this`trail
      ensures trail == old(trail) + TokenPlan(i, a, owned, token)
      ensures thrown <==> !a.lease.Given? || (i.login && a.login != Answer)
    {
      SaveBool(TokenActionOwned, owned);
      SaveString(Token, Some(token));
      ghost var saves := [Save(TokenActionOwned, Text(owned))] + [Save(Token, token)];
      assert trail == old(trail) + saves;
      thrown := Acquire(i, a, token);
      assert TokenPlan(i, a, owned, token) == saves + LeasePlan(i, a, token);
    }

    /** The main step from reading the credentials on. */
    method Acquire(i: Inputs, a: Answers, token: string) returns (thrown: bool)
      modifies this`trail
      ensures trail == old(trail) + LeasePlan(i, a, token)
      ensures thrown <==> !a.lease.Given? || (i.login && a.login != Answer)
    {
      if a.lease.Withheld? {
        return true;
      }
      Perform(Do(IssueLease(token, a.lease.id)));
      if a.lease.Missed? {
        return true;
      }
      SaveString(LeaseId, Some(a.lease.id));
      if !i.login {
        return false;
      }
      thrown := DockerLogin(i, a);
    }

    method DockerLogin(i: Inputs, a: Answers) returns (thrown: bool)
      requires i.login
      modifies this`trail
      ensures trail == old(trail) + LoginPlan(i, a)
      ensures thrown <==> a.login != Answer
    {
      if a.login.Refuse? {
        return true;
      }
      Perform(Do(Login(i.registry)));
      if a.login.LostAnswer? {
        return true;
      }
      SaveBool(LoggedIn, true);
      return false;
    }

    /** One cleanup inside its own try block. */
    method Attempt(e: Effect, failing: set<Effect>) returns (warning: bool)
      modifies this`trail
      ensures trail == old(trail) + [Do(e)] && warning == (e in failing)
    {
      Perform(Do(e));
      return e in failing;
    }

    /** The post step, whichever of its calls fail. */
    method PostStep(failing: set<Effect>) returns (thrown: bool)
      modifies this`trail
      ensures trail == old(trail) + Attempts(PostPlan(old(State()), check))
      ensures thrown <==> PostThrows(old(State()), check)
    {
      var state := State();
      LogOut(state, failing);
      thrown := CleanVault(state, failing);
      AttemptsConcat(LogoutPlan(state), VaultPart(state, check));
      Regroup(old(trail), Attempts(LogoutPlan(state)), Attempts(VaultPart(state, check)));
    }

    method LogOut(state: map<Key, string>, failing: set<Effect>)
      modifies this`trail
      ensures trail == old(trail) + Attempts(LogoutPlan(state))
    {
      if GetText(state, Registry).Some? && GetBool(state, LoggedIn) && GetBool(state, LogoutSetting) {
        var _ := Attempt(Logout(Get(state, Registry)), failing);
      }
    }

    method CleanVault(state: map<Key, string>, failing: set<Effect>) returns (thrown: bool)
      modifies this`trail
      ensures trail == old(trail) + Attempts(VaultPart(state, check))
      ensures thrown <==> PostThrows(state, check)
    {
      var token := GetText(state, Token);
      if token.None? || Get(state, VaultUrl) == "" {
        return false;
      }
      if !ClientOk(state, check) {
        return true;
      }
      RevokeInVault(state, failing);
      return false;
    }

    /** The entry point of both phases: the saved state decides which step runs. An unmarked post phase
        runs the main step, with inputs parsed afresh. */
    method Bootstrap(inputs: Option<Inputs>, a: Answers, failing: set<Effect>) returns (thrown: bool)
      requires inputs.Some? ==> Parsed(inputs.value)
      modifies this`trail
      ensures trail == PostPhase(old(trail), inputs, a, check)
    {
      if GetBool(State(), IsPost) {
        thrown := PostStep(failing);
      } else {
        thrown := MainStep(inputs, a);
      }
    }

    method RevokeInVault(state: map<Key, string>, failing: set<Effect>)
      requires GetText(state, Token).Some? && Get(state, VaultUrl) != ""
      modifies this`trail
      ensures trail == old(trail) + Attempts(VaultPlan(state))
    {
      var token := GetText(state, Token).value;
      if GetText(state, LeaseId).Some? && GetBool(state, RevokeSetting) {
        var _ := Attempt(RevokeLease(token, Get(state, LeaseId)), failing);
      }
      if GetBool(state, TokenActionOwned) {
        var _ := Attempt(RevokeToken(token), failing);
      }
    }
  }

  lemma AttemptsConcat(xs: seq<Effect>, ys: seq<Effect>)
    ensures Attempts(xs + ys) == Attempts(xs) + Attempts(ys)
  {
  }

  function Attempts(effects: seq<Effect>): seq<Action> {
    seq(|effects|, k requires 0 <= k < |effects| => Do(effects[k]))
  }

  lemma {:induction false} AttemptsAreEffects(effects: seq<Effect>)
    ensures EffectsOf(Attempts(effects)) == effects
    decreases |effects|
  {
    if effects != [] {
      var n := |effects| - 1;
      assert Attempts(effects)[..n] == Attempts(effects[..n]);
      AttemptsAreEffects(effects[..n]);
    }
  }

  /** From its first action on main has marked the state, so the post phase runs post. */
  lemma MainMarksTheState(i: Inputs, a: Answers, check: ClientCheck, n: nat)
    requires 0 < n <= |Plan(i, a, check)|
    ensures GetBool(StateOf(Plan(i, a, check)[..n]), IsPost)
  {
    OnlySettings(i);
    AuthPlanOnlyAcquires(i, a);
    MarkedOnce(Plan(i, a, check), n);
  }

  predicate Acquiring(e: Effect) {
    e.MintToken? || e.IssueLease? || e.Login?
  }

  /** The actions release nothing and leave the mark alone. */
  predicate OnlyAcquires(xs: seq<Action>) {
    forall x :: x in xs ==> if x.Do? then Acquiring(x.effect) else x.key != IsPost
  }

  lemma ConcatOnlyAcquires(xs: seq<Action>, ys: seq<Action>)
    requires OnlyAcquires(xs) && OnlyAcquires(ys)
    ensures OnlyAcquires(xs + ys)
  {
  }

  lemma LeasePlanOnlyAcquires(i: Inputs, a: Answers, token: string)
    ensures OnlyAcquires(LeasePlan(i, a, token))
  {
    if a.lease.Given? {
      ConcatOnlyAcquires([Do(IssueLease(token, a.lease.id))], SaveText(LeaseId, Some(a.lease.id)));
      ConcatOnlyAcquires([Do(IssueLease(token, a.lease.id))] + SaveText(LeaseId, Some(a.lease.id)), LoginPlan(i, a));
    }
  }

  lemma TokenPlanOnlyAcquires(i: Inputs, a: Answers, owned: bool, token: string)
    ensures OnlyAcquires(TokenPlan(i, a, owned, token))
  {
    LeasePlanOnlyAcquires(i, a, token);
    ConcatOnlyAcquires([Save(TokenActionOwned, Text(owned)), Save(Token, token)], LeasePlan(i, a, token));
  }

  lemma AuthPlanOnlyAcquires(i: Inputs, a: Answers)
    ensures OnlyAcquires(AuthPlan(i, a))
  {
    if i.vaultToken.Some? {
      TokenPlanOnlyAcquires(i, a, false, i.vaultToken.value);
    } else if Mints(i, a) && a.minted.Given? {
      TokenPlanOnlyAcquires(i, a, true, a.minted.id);
      ConcatOnlyAcquires([Do(MintToken(a.minted.id))], TokenPlan(i, a, true, a.minted.id));
    }
  }

  /** A mark at the start is never taken back. */
  lemma {:induction false} MarkedOnce(xs: seq<Action>, n: nat)
    requires 0 < n <= |xs| && xs[0] == Save(IsPost, "true")
    requires forall x :: x in xs && x.Save? && x.key == IsPost ==> x.value == "true"
    ensures GetBool(StateOf(xs[..n]), IsPost)
  {
    assert xs[..n][..n - 1] == xs[..n - 1];
    if n > 1 { MarkedOnce(xs, n - 1); }
  }

  /** The whole job releases what is owed for what main did, in order and nothing else, unless main was
      stopped at risk. */
  predicate ReleasesExactly(i: Inputs, done: seq<Action>, trail: seq<Action>) {
    EffectsOf(trail) == EffectsOf(done) + Owed(EffectsOf(done), i.revoke, i.logout) <==> !StoppedAtRisk(done, i)
  }

  /** What the post phase adds to what main did: post's attempts, or, when main left no mark, another main
      step with inputs parsed afresh. */
  function PostPhase(done: seq<Action>, again: Option<Inputs>, a': Answers, check: ClientCheck): seq<Action> {
    var state := StateOf(done);
    done + if GetBool(state, IsPost) then Attempts(PostPlan(state, check)) else MainPlan(again, a', check)
  }

  /** A main step that runs to its end acquires something. */
  predicate Acquires(inputs: Option<Inputs>, a: Answers, check: ClientCheck) {
    inputs.Some?
    && var i := inputs.value;
       check(i.vaultUrl, i.namespace, i.caCert, i.tlsSkipVerify)
       && (Mints(i, a) || (i.vaultToken.Some? && !a.lease.Withheld?))
  }

  lemma {:induction false} EffectsAreActions(xs: seq<Action>)
    ensures EffectsOf(xs) == [] <==> forall x :: x in xs ==> x.Save?
    ensures forall e :: e in EffectsOf(xs) ==> Do(e) in xs
    decreases |xs|
  {
    if xs != [] {
      var n := |xs| - 1;
      EffectsAreActions(xs[..n]);
      assert xs == xs[..n] + [xs[n]] && xs[n] in xs;
    }
  }

  lemma AuthPlanActs(i: Inputs, a: Answers)
    ensures EffectsOf(AuthPlan(i, a)) == [] <==> !(Mints(i, a) || (i.vaultToken.Some? && !a.lease.Withheld?))
  {
    var plan := AuthPlan(i, a);
    EffectsAreActions(plan);
    if Mints(i, a) {
      assert plan[0] == Do(MintToken(a.minted.id)) && plan[0] in plan;
    } else if i.vaultToken.Some? && !a.lease.Withheld? {
      assert plan[2] == Do(IssueLease(i.vaultToken.value, a.lease.id)) && plan[2] in plan;
    }
  }

  /** A main step acquires exactly then, and releases nothing. */
  lemma MainAcquiresExactly(inputs: Option<Inputs>, a: Answers, check: ClientCheck)
    ensures EffectsOf(MainPlan(inputs, a, check)) == [] <==> !Acquires(inputs, a, check)
    ensures forall e :: e in EffectsOf(MainPlan(inputs, a, check)) ==> Acquiring(e)
  {
    if inputs.Some? {
      var i := inputs.value;
      var auth := if check(i.vaultUrl, i.namespace, i.caCert, i.tlsSkipVerify) then AuthPlan(i, a) else [];
      OnlySettings(i);
      EffectsAreActions(Settings(i));
      StateOfConcat(Settings(i), auth);
      AuthPlanActs(i, a);
      AuthPlanOnlyAcquires(i, a);
      EffectsAreActions(auth);
    }
  }

  /** The token main uses, once it has one. */
  function TokenInUse(i: Inputs, a: Answers): Option<string> {
    if i.vaultToken.Some? then i.vaultToken
    else if a.oidc && a.idToken && a.minted.Given? && a.minted.id != "" then Some(a.minted.id)
    else None
  }

  /** What main acquires, seen or not: a token exactly when none was supplied and both of GitHub's answers
      allow it, a lease with the token in use, and a login exactly when the inputs ask for one. */
  function Acquired(i: Inputs, a: Answers): seq<Effect> {
    var token := TokenInUse(i, a);
    (if i.vaultToken.None? && a.oidc && a.idToken && !a.minted.Withheld? && a.minted != Given("")
     then [MintToken(a.minted.id)] else [])
    + (if token.Some? && !a.lease.Withheld? then [IssueLease(token.value, a.lease.id)] else [])
    + (if token.Some? && a.lease.Given? && i.login && !a.login.Refuse? then [Login(i.registry)] else [])
  }

  /** What post attempts after a main that saw the outcome of all it acquired: a logout exactly when the login
      was made and logout is on, the lease's revocation exactly when it was issued under an id and revoke
      is on, and the token's exactly when main minted it. */
  lemma PostAttemptsExactly(i: Inputs, a: Answers, check: ClientCheck)
    requires Parsed(i) && !Misses(i, a, check) && check(i.vaultUrl, i.namespace, i.caCert, i.tlsSkipVerify)
    ensures var token := TokenInUse(i, a);
            PostPlan(StateOf(Plan(i, a, check)), check) ==
              (if token.Some? && a.lease.Given? && i.login && a.login == Answer && i.logout
               then [Logout(i.registry)] else [])
              + (if token.Some? && a.lease.Given? && a.lease.id != "" && i.revoke
                 then [RevokeLease(token.value, a.lease.id)] else [])
              + (if token.Some? && i.vaultToken.None? then [RevokeToken(token.value)] else [])
  {
    PostReleasesAll(i, a, check);
    MainAcquires(i, a, check);
    OwedForAcquired(i, a);
  }

  lemma OwedForAcquired(i: Inputs, a: Answers)
    ensures var token, did := TokenInUse(i, a), Acquired(i, a);
            && Each(did, LogoutFor) == (if token.Some? && a.lease.Given? && i.login && !a.login.Refuse?
                                        then [Logout(i.registry)] else [])
            && Each(did, LeaseFor) == (if token.Some? && !a.lease.Withheld? && a.lease.id != ""
                                       then [RevokeLease(token.value, a.lease.id)] else [])
            && Each(did, TokenFor) == (if Mints(i, a) then [RevokeToken(a.minted.id)] else [])
  {
    EachAcquired(i, a, LogoutFor);
    EachAcquired(i, a, LeaseFor);
    EachAcquired(i, a, TokenFor);
  }

  lemma EachAcquired(i: Inputs, a: Answers, f: Effect -> seq<Effect>)
    ensures var token := TokenInUse(i, a);
            Each(Acquired(i, a), f) ==
              (if Mints(i, a) then f(MintToken(a.minted.id)) else [])
              + (if token.Some? && !a.lease.Withheld? then f(IssueLease(token.value, a.lease.id)) else [])
              + (if token.Some? && a.lease.Given? && i.login && !a.login.Refuse? then f(Login(i.registry)) else [])
  {
    var token := TokenInUse(i, a);
    var minted := if Mints(i, a) then [MintToken(a.minted.id)] else [];
    var issued := if token.Some? && !a.lease.Withheld? then [IssueLease(token.value, a.lease.id)] else [];
    var login := if token.Some? && a.lease.Given? && i.login && !a.login.Refuse? then [Login(i.registry)] else [];
    assert Acquired(i, a) == minted + issued + login;
    EachOfThree(minted, issued, login, f);
  }

  lemma EachOfThree(a: seq<Effect>, b: seq<Effect>, c: seq<Effect>, f: Effect -> seq<Effect>)
    requires |a| <= 1 && |b| <= 1 && |c| <= 1
    ensures Each(a + b + c, f) ==
            (if a == [] then [] else f(a[0])) + (if b == [] then [] else f(b[0])) + (if c == [] then [] else f(c[0]))
  {
    EachAtMostOne(a, [], f);
    EachAtMostOne(b, a, f);
    EachAtMostOne(c, a + b, f);
    assert [] + a == a;
  }

  lemma EachAtMostOne(xs: seq<Effect>, before: seq<Effect>, f: Effect -> seq<Effect>)
    requires |xs| <= 1
    ensures Each(before + xs, f) == Each(before, f) + if xs == [] then [] else f(xs[0])
  {
    if xs == [] {
      assert before + xs == before;
    } else {
      assert xs == [xs[0]];
      EachAfter(before, xs[0], f);
    }
  }

  /** Main reports success exactly when it got everything it asked for. */
  lemma SucceedsExactly(i: Inputs, a: Answers, check: ClientCheck)
    ensures Succeeds(i, a, check) <==>
              && check(i.vaultUrl, i.namespace, i.caCert, i.tlsSkipVerify) && TokenInUse(i, a).Some?
              && a.lease.Given? && (i.login ==> a.login == Answer)
  {
  }

  /** After main, wherever it stopped, post can build its client. */
  lemma PostNeverThrowsAfterMain(i: Inputs, a: Answers, check: ClientCheck, n: nat)
    requires Parsed(i) && n <= |Plan(i, a, check)|
    ensures !PostThrows(StateOf(Plan(i, a, check)[..n]), check)
  {
    var plan, settings := Plan(i, a, check), Settings(i);
    if n <= |settings| {
      assert plan[..n] == settings[..n];
      SettingsAreQuiet(i);
      NoTokenYet(settings[..n]);
    } else {
      var tail := AuthPlan(i, a)[..n - |settings|];
      assert plan[..n] == settings + tail;
      TailIsReady(i, a, check, n - |settings|);
      ReadyNeverThrows(StateOf(settings + tail), i, check);
    }
  }

  lemma TailIsReady(i: Inputs, a: Answers, check: ClientCheck, m: nat)
    requires Parsed(i) && m <= |AuthPlan(i, a)| && check(i.vaultUrl, i.namespace, i.caCert, i.tlsSkipVerify)
    ensures Ready(StateOf(Settings(i) + AuthPlan(i, a)[..m]), i, check)
  {
    SettingsState(i);
    SettingsAreReady(StateOf(Settings(i)), i, check);
    AuthViews(i, a, m);
    ReadyAfter(Settings(i), AuthPlan(i, a)[..m], i, check);
  }

  lemma ReadyAfter(settings: seq<Action>, tail: seq<Action>, i: Inputs, check: ClientCheck)
    requires Ready(StateOf(settings), i, check) && AtState(StateOf(settings), START) && EffectsOf(settings) == []
    requires AllOrderly(START, tail)
    ensures Ready(StateOf(settings + tail), i, check)
  {
    RunView(StateOf(settings), [], i, check, START, tail);
    StateOfConcat(settings, tail);
  }

  lemma ReadyNeverThrows(st: map<Key, string>, i: Inputs, check: ClientCheck)
    requires Ready(st, i, check)
    ensures !PostThrows(st, check)
  {
  }

  lemma NoTokenYet(done: seq<Action>)
    requires forall x :: x in done ==> Quiet(x)
    ensures GetText(StateOf(done), Token).None?
  {
    SavedBySomeAction(done);
  }

  lemma MainAcquires(i: Inputs, a: Answers, check: ClientCheck)
    ensures EffectsOf(Plan(i, a, check))
         == if check(i.vaultUrl, i.namespace, i.caCert, i.tlsSkipVerify) then Acquired(i, a) else []
  {
    var auth := if check(i.vaultUrl, i.namespace, i.caCert, i.tlsSkipVerify) then AuthPlan(i, a) else [];
    OnlySettings(i);
    EffectsAreActions(Settings(i));
    StateOfConcat(Settings(i), auth);
    AuthPlanAcquires(i, a);
  }

  /** What main acquires once it has a token. */
  function AcquiredWith(i: Inputs, a: Answers, token: string): seq<Effect> {
    (if !a.lease.Withheld? then [IssueLease(token, a.lease.id)] else [])
    + (if a.lease.Given? && i.login && !a.login.Refuse? then [Login(i.registry)] else [])
  }

  lemma AcquiredByToken(i: Inputs, a: Answers)
    ensures i.vaultToken.Some? ==> Acquired(i, a) == AcquiredWith(i, a, i.vaultToken.value)
    ensures Mints(i, a) && a.minted.Given? ==>
              Acquired(i, a) == [MintToken(a.minted.id)] + AcquiredWith(i, a, a.minted.id)
    ensures Mints(i, a) && a.minted.Missed? ==> Acquired(i, a) == [MintToken(a.minted.id)]
    ensures i.vaultToken.None? && !Mints(i, a) ==> Acquired(i, a) == []
  {
  }

  lemma AuthPlanAcquires(i: Inputs, a: Answers)
    ensures EffectsOf(AuthPlan(i, a)) == Acquired(i, a)
  {
    AcquiredByToken(i, a);
    if i.vaultToken.Some? {
      TokenPlanAcquires(i, a, false, i.vaultToken.value);
    } else if Mints(i, a) {
      StateOfOne(Do(MintToken(a.minted.id)));
      if a.minted.Given? {
        TokenPlanAcquires(i, a, true, a.minted.id);
        StateOfConcat([Do(MintToken(a.minted.id))], TokenPlan(i, a, true, a.minted.id));
      }
    }
  }

  lemma TokenPlanAcquires(i: Inputs, a: Answers, owned: bool, token: string)
    ensures EffectsOf(TokenPlan(i, a, owned, token)) == AcquiredWith(i, a, token)
  {
    var saves, lease := [Save(TokenActionOwned, Text(owned)), Save(Token, token)], LeasePlan(i, a, token);
    EffectsAreActions(saves);
    StateOfConcat(saves, lease);
    LeasePlanAcquires(i, a, token);
  }

  lemma EffectsOfThree(a: seq<Action>, b: seq<Action>, c: seq<Action>)
    ensures EffectsOf(a + b + c) == EffectsOf(a) + EffectsOf(b) + EffectsOf(c)
  {
    StateOfConcat(a + b, c);
    StateOfConcat(a, b);
  }

  lemma LeasePlanAcquires(i: Inputs, a: Answers, token: string)
    ensures EffectsOf(LeasePlan(i, a, token)) == AcquiredWith(i, a, token)
  {
    match a.lease
    case Withheld =>
    case Missed(id) => StateOfOne(Do(IssueLease(token, id)));
    case Given(id) => GivenLeaseAcquires(i, a, token);
  }

  lemma GivenLeaseAcquires(i: Inputs, a: Answers, token: string)
    requires a.lease.Given?
    ensures EffectsOf(LeasePlan(i, a, token)) == AcquiredWith(i, a, token)
  {
    var issue, saved, login := Do(IssueLease(token, a.lease.id)), SaveText(LeaseId, Some(a.lease.id)), LoginPlan(i, a);
    EffectsOfThree([issue], saved, login);
    StateOfOne(issue);
    EffectsAreActions(saved);
    LoginPlanAcquires(i, a);
    assert EffectsOf([issue]) + EffectsOf(saved) == [IssueLease(token, a.lease.id)];
  }

  lemma LoginPlanAcquires(i: Inputs, a: Answers)
    ensures EffectsOf(LoginPlan(i, a)) == if i.login && !a.login.Refuse? then [Login(i.registry)] else []
  {
    if i.login && !a.login.Refuse? {
      var login, save := Do(Login(i.registry)), Save(LoggedIn, "true");
      StateOfOne(login);
      if a.login == Answer {
        StateOfOne(save);
        assert LoginPlan(i, a) == [login] + [save];
        StateOfConcat([login], [save]);
      }
    }
  }

  /** A job: main, killed after kill actions unless it ends before, and the post phase. When main left a
      mark, the job does outside exactly what is owed for what main did, unless main was stopped at risk.
      When it left none, because it was killed before its first save or its inputs did not parse, the
      post phase runs main: nothing is released, and the job leaves nothing behind exactly when that
      second main acquires nothing. */
  lemma PostPhaseReleasesExactly(inputs: Option<Inputs>, a: Answers, check: ClientCheck, kill: nat,
                                 again: Option<Inputs>, a': Answers)
    requires inputs.Some? ==> Parsed(inputs.value)
    ensures var done := Take(MainPlan(inputs, a, check), kill);
            var trail := PostPhase(done, again, a', check);
            if inputs.Some? && kill > 0 then
              && GetBool(StateOf(done), IsPost) && ReleasesExactly(inputs.value, done, trail)
              && (kill >= |MainPlan(inputs, a, check)| ==>
                    (StoppedAtRisk(done, inputs.value) <==> Misses(inputs.value, a, check)))
            else
              && done == [] && !GetBool(StateOf(done), IsPost)
              && (EffectsOf(trail) == [] <==> !Acquires(again, a', check))
              && forall e :: e in EffectsOf(trail) ==> Acquiring(e)
  {
    if inputs.Some? && kill > 0 {
      MarkedPostPhase(inputs.value, a, check, kill);
    } else {
      MainAcquiresExactly(again, a', check);
      assert [] + MainPlan(again, a', check) == MainPlan(again, a', check);
    }
  }

  lemma MarkedPostPhase(i: Inputs, a: Answers, check: ClientCheck, kill: nat)
    requires Parsed(i) && kill > 0
    ensures var done := Take(Plan(i, a, check), kill);
            && GetBool(StateOf(done), IsPost)
            && ReleasesExactly(i, done, done + Attempts(PostPlan(StateOf(done), check)))
            && (kill >= |Plan(i, a, check)| ==> (StoppedAtRisk(done, i) <==> Misses(i, a, check)))
  {
    var plan := Plan(i, a, check);
    var n := if kill <= |plan| then kill else |plan|;
    var done := plan[..n];
    assert done == Take(plan, kill) && plan[..|plan|] == plan;
    MainMarksTheState(i, a, check, n);
    PostReleasesExactly(i, a, check, n);
    PlanEndsAtRiskExactly(i, a, check);
    var post := PostPlan(StateOf(done), check);
    StateOfConcat(done, Attempts(post));
    AttemptsAreEffects(post);
    SameTail(EffectsOf(done), post, Owed(EffectsOf(done), i.revoke, i.logout));
  }

  lemma SameTail(xs: seq<Effect>, ys: seq<Effect>, zs: seq<Effect>)
    ensures xs + ys == xs + zs <==> ys == zs
  {
    assert ys == (xs + ys)[|xs|..] && zs == (xs + zs)[|xs|..];
  }
}
