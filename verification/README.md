# A model of the Harbor secrets engine

The Harbor secrets engine is a Vault plugin that hands out Harbor robot accounts bound to Vault leases,
with a GitHub Action in front of it. This project models its crash-prone protocols and the arithmetic and
text handling they rest on, and proves what each of them promises.

`dafny verify dfyconfig.toml` checks everything.

| file | about |
|---|---|
| `RootRotation.dfy` | rotating the engine's own Harbor password, settling an interrupted rotation, config writes |
| `ClientCache.dfy` | the cached Harbor client against the stored configuration, for any number of threads |
| `Issuance.dfy` | robots, WAL entries and leases: a machine of single storage and Harbor calls |
| `StrandedRobots.dfy` | runs of that machine that leave a robot behind |
| `IssuanceHandlers.dfy` | the creds, rollback and revoke handlers, proved to follow that machine |
| `Lifetime.dfy` | TTL clamping, the issued lease, renewal |
| `Duration.dfy`, `Float64.dfy` | days of a robot; IEEE 754 binary64 rounding, which the day ceiling uses |
| `HarborServer.dfy`, `RobotLookup.dfy` | Harbor: creating, changing, deleting and listing robots, permission scopes |
| `Naming.dfy`, `ShortNames.dfy` | robot names and how they are read back |
| `Roles.dfy` | role validation, role writes, and what Harbor makes of a role's request |
| `SecretGen.dfy` | the random root password |
| `ActionCleanup.dfy` | the GitHub Action's main and post steps |
| `Common.dfy` | replies and statuses of calls |

## How failures are modelled

Every call to storage or Harbor gets a reply: it is performed and answered, refused without effect, or
performed with the answer lost. Sequential protocols consume a script of replies and crash where the script
ends, so a statement about all scripts is a statement about all failures and all crash points. Concurrent
protocols are machines of single steps with a crash that loses all calls and keeps storage and Harbor.

The code assumes that a call reported as failed had no effect (`internal/backend/path_creds.go:103-105`,
`internal/backend/path_config.go:369-371`). The model does not: storage writes, Harbor's changes, and what the
action acquires can each take effect and be reported as failed, and the theorems say which lost answers matter.
What Vault does by itself (registering and dropping leases) and the releases post attempts have no lost
answers of their own.

Assumptions about the surroundings:

- There is one Harbor and one engine account. In `RootRotation` a config write is atomic with respect to
  rotation and settlement; `ClientCache` drops that.
- In robot mode a 403 to the probe proves the credential, because Harbor authenticates before it authorises.
- Random name suffixes and rotated secrets are fresh. A rollback of an entry never runs beside the request
  that wrote it (entries are at least ten minutes old, `internal/backend/backend.go:21-23`).
- Vault grants the increment if positive, else the TTL of the engine's answer, else the mount default, cut
  off at issue time plus the smaller positive maximum. It deletes a WAL entry, or drops a lease, after its
  handler succeeded.
- Harbor days are 24 hours and `expires_at` drops fractions of a second. Harbor numbers robots upwards and
  never reuses a number, and answers 404 to a deletion only when there is no such robot.
- Lower-casing is a parameter that keeps lower-case letters and digits and is otherwise arbitrary.

## Results

- **No lockout.** Over every run of rotations, settlements, config writes and deletes, with any failures
  and a crash anywhere, Vault still stores the live password, unless the configuration was deleted, and stores it
  as the committed one when nothing is pending. Lost answers of storage are tolerated. With atomic config
  writes exactly two things break it: Harbor changes the password, its answer is lost, and clearing the candidate
  then reaches storage; or an unverified config write stores a wrong password (`StepLocksOutExactly`, an if and
  only if; `LockoutExample` is a run). The code's config writes are not atomic, and that is a third way, with no
  answer lost: a write without a password that reads before a rotation and stores after it puts the old
  password back (`OverlappingWriteLocksOut`).
- **Rotation refines an atomic password change** (`RotationRefinesAtomicChange`).
- **Cache coherence.** With no writer between its storage write and its reset, the cached client was built from the
  newest stored configuration exactly when no newer one was stored by a call that saw an error: such a call
  returns without the reset, and leaves a stale client (`LostStoreLeavesAStaleClient`). No call to `getClient` returns
  a configuration older than a write completed before it (`NoStaleClient`).
- **Orphans.** Every engine robot still in Harbor expires, and it is leased, or named by a live WAL entry, or past
  its entry's deletion exactly when it was not left behind in one of four ways: a lost answer to its create, a lost
  answer to its entry's deletion, a rollback without configuration, and a rollback with more than 100 matching
  robots. A run is given for each.
- **Deletion by right.** A robot disappears only through its own lease's revocation, the rollback of its
  own live entry (with exactly its name and no lease), the cleanup of its own request, or someone else.
- **The day ceiling is computed in floating point.** It is exact for whole seconds and up to 104 days, never
  above the exact ceiling and at most 1140 ns short. It does fall short: 105 days and one nanosecond become
  105 days (`OneNanosecondIsLost`), and `CoversExactly` says when.
- **A lease may outlive its robot at issue.** The engine's written requirement on
  dynamic credentials says never; the code misses it by the issue latency and the dropped fraction of a
  second, for example for a maximum TTL of one day. `CoveredAtIssueExactly` gives the exact condition for
  every lease, `CoveredAtMaxTTLExactly` for one at its maximum.
- **Renewal.** The expiry recorded on a lease never exceeds Harbor's, over any run of renewals, also with the
  floating-point ceiling and lost answers. A granted renewal ends no later than the robot, up to the time between two
  clock readings, if and only if its update does not shorten the robot with its answer lost, or the lease's own
  limits end it in time (`GrantedLeaseIsCovered`). Of that condition a caller knows beforehand whether the update
  asks for fewer days than the robot has, and the role, the increment and the maxima; whether the answer is lost and
  the two later clock readings come with the call. When the role has
  a TTL or the request an increment, a lost answer costs less than a second. Otherwise it can cost days: the handler
  grants the rest of the life the robot had before (`LostShorteningUncoversALease`: twenty-seven days, starting from
  a robot issued for one). A renewal whose calls all succeed is granted and loses less than a second.
  `RenewalGrantedExactly` says when a renewal is granted at all.
- **Isolation.** System permissions grant nothing in projects, project permissions nothing at system scope, and those
  of one project nothing in another, neither to a robot nor to the robots it creates.
- **Attenuation.** A robot's descendants cover nothing it does not cover. They may still be allowed what it is denied,
  because coverage ignores effects: exactly when some deny rule is not outweighed where the robot may create robots
  (`ChildrenHoldNoMoreExactly`).
- **Roles.** `validateRole` accepts project-level roles with several permissions for one project; Harbor
  refuses every request made from them. Otherwise an accepted role's request passes Harbor's validation exactly
  when its projects exist and its robot actions are known.
- **Names.** Reading back a short name works exactly when the prefix ends in `$` or `+`, is empty, or the robot is
  a project's.
- **Action.** Post releases exactly what main acquired, in the safe order, wherever main fails, unless it failed at an
  acquisition whose answer it did not get to see. If the runner kills main after its first save, that still holds
  exactly unless main had just acquired something it had not yet recorded. If main saved nothing, because it was
  killed before or its inputs did not parse, the post phase runs main instead of post: nothing it acquires is
  released, so nothing is left behind exactly when it acquires nothing (`PostPhaseReleasesExactly`).

## Model

| member | source | states |
|---|---|---|
| RootRotation.ProbeStatus | internal/backend/path_config.go:280-292 | a probe succeeds exactly with the live password and an answer, which in robot mode a 403 counts as |
| RootRotation.SettleStoresOnlyWhatHarborAccepted | internal/backend/path_config.go:396-426 | settlement leaves Harbor alone and storage too, unless it stores a configuration whose password Harbor accepted; success means nothing pending |
| RootRotation.PrepareKeepsPassword | internal/backend/path_config.go:329-363 | the part of a rotation before the candidate keeps the password reachable, and a ready configuration holds the live password with nothing pending |
| RootRotation.InstallLocksOutExactly | internal/backend/path_config.go:364-394 | persist, install, commit loses the password if and only if Harbor's change happened, its answer was lost and the clear reached storage; a rejection leaves all as it was |
| RootRotation.StepLocksOutExactly | internal/backend/path_config.go:199-426 | each operation keeps the live password stored if and only if it is not one of the two losing cases; only rotations change it, and only to their own secret |
| RootRotation.NoLockout | internal/backend/path_config.go:329-426 | over any run with any failures and crashes the live password is stored, and committed when nothing is pending |
| RootRotation.LiveFollowsAtomicRun | internal/backend/path_config.go:365-383 | Harbor's password follows the abstract run in which each rotation happens at once or not at all |
| RootRotation.RotationRefinesAtomicChange | internal/backend/backend.go:119-136 | after any run, the first successful use leaves nothing pending and a committed password equal to Harbor's and to the atomic run's |
| RootRotation.ReportedRotationHappened | internal/backend/path_config.go:329-385 | a rotation reported as done made its own secret the live and committed password |
| RootRotation.LostChangeLocksOut | internal/backend/path_config.go:366-373 | a lost answer to the change followed by the clear locks Vault out of any settled configuration outside robot mode |
| RootRotation.LockoutExample | internal/backend/path_config.go:366-373 | a concrete one |
| RootRotation.OverlappingWriteLocksOut | internal/backend/path_config.go:199-271 | a config write that overlaps a rotation puts the old password back, with every call answered |
| RootRotation.AnsweredUseRecovers | internal/backend/backend.go:119-136 | unless locked out, a client can be had once calls are answered, whatever rotation was interrupted |
| RootRotation.AnsweredRotationSucceeds | internal/backend/path_config.go:329-385 | and a rotation then succeeds |
| RootRotation.SettlesExactly | internal/backend/path_config.go:396-426 | which password a settlement keeps, when it succeeds, and that only a taken candidate counts as a rotation |
| RootRotation.InstallEndsExactly | internal/backend/path_config.go:364-394 | how an installation ends by its four calls: a refused lookup or change clears the candidate and leaves all as it was |
| RootRotation.RotationNeedsAUser | internal/backend/path_config.go:336-346 | a rotation in robot mode or without configuration does nothing |
| RootRotation.WrittenIsAsRequested | internal/backend/path_config.go:199-271 | a reported write stored every given field, kept or defaulted every absent one, broke no rule, and stored the live password when verified; an invalid one stored nothing |
| RootRotation.WriteEndsExactly | internal/backend/path_config.go:199-271 | when a write is invalid and when it is stored, from the configuration asked for and the answers |
| RootRotation.StepKeepsUsable | internal/backend/path_config.go:242-263 | every stored configuration passes the checks of a config write, so rotation and settlement can build a client from it |
| RootRotation.RunKeepsUsable | internal/backend/path_config.go:242-263 | so over any run |
| RootRotation.HarborBackend.SettlePendingRotation | internal/backend/path_config.go:399-426 | the settlement procedure computes the settlement function call by call, with the cache empty |
| RootRotation.HarborBackend.GetClient | internal/backend/backend.go:103-137 | a cached client is returned without any call; otherwise settlement runs, and the client is built from the resulting stored configuration |
| RootRotation.HarborBackend.RotateRoot | internal/backend/path_config.go:329-386 | the handler computes the rotation function, reply by reply |
| RootRotation.HarborBackend.InstallAndCommit | internal/backend/path_config.go:364-394 | persisting, installing and committing compute the install function, including the clear after a refusal |
| RootRotation.HarborBackend.Overlay | internal/backend/path_config.go:205-239 | absent fields keep their stored values or defaults |
| RootRotation.HarborBackend.WriteConfig | internal/backend/path_config.go:199-278 | merge, checks, verification before storage, and the cache reset; success means that what was asked for is stored, an invalid request changes nothing, and the cache is stale afterwards exactly when a failed put reached storage |
| RootRotation.HarborBackend.DeleteConfig | internal/backend/path_config.go:294-302 | deletes the configuration and resets the cache, unless the deletion is reported as failed |
| ClientCache.StepKeepsInv | internal/backend/backend.go:88-137 | every step of every thread keeps the lock discipline and the cache invariant |
| ClientCache.RunKeepsInv | internal/backend/backend.go:88-137 | so does every run, process crashes included |
| ClientCache.CacheCoherence | internal/backend/backend.go:103-137 | with no writer between store and reset, the cached client is current exactly when no newer configuration was stored by a call that saw an error; client and clientCfg differ only inside the lock |
| ClientCache.CoherentWithoutLostStores | internal/backend/backend.go:103-137 | in a run without such calls it is current |
| ClientCache.LostStoreLeavesAStaleClient | internal/backend/path_config.go:267-271 | a run that ends with a stale client and no call under way |
| ClientCache.ColdCallFills | internal/backend/backend.go:103-137 | an undisturbed call on a cold cache leaves the stored configuration in it |
| ClientCache.SettlingCallFills | internal/backend/backend.go:125-136 | with a rotation pending it stores and caches the settled configuration |
| ClientCache.WarmCallReturns | internal/backend/backend.go:103-110 | on a warm cache it returns what is cached and changes nothing |
| ClientCache.WriteCallClears | internal/backend/path_config.go:267-271 | an undisturbed write stores its configuration and leaves the cache empty |
| ClientCache.NoStaleClient | internal/backend/path_config.go:267-271 | a call to getClient never returns a configuration older than any write that had completed before the call |
| Issuance.FoundRobotIsOwn | internal/backend/path_creds.go:192-199 | what a rollback finds is the robot of its entry; with at most 100 matches finding nothing means there is none |
| Issuance.StepKeepsInv | internal/backend/path_creds.go:52-205 | every storage or Harbor call of every concurrent handler, every outside change and every crash keeps coverage, naming and the exclusion of live entries and leases |
| Issuance.RunKeepsInv | internal/backend/path_creds.go:52-205 | so does every run |
| Issuance.OrphanCoverage | internal/backend/path_creds.go:87-157 | in every reachable state each engine robot still in Harbor expires, and is leased, logged or past its entry's deletion exactly when it was not left behind; a live entry excludes a lease |
| Issuance.NothingIsLeftBehind | internal/backend/path_creds.go:87-157 | without lost answers to create and WAL deletion, with configuration and listings that fit, it is leased, named by a live entry, or past its entry's deletion |
| StrandedRobots.LostCreateStrandsARobot | internal/backend/path_creds.go:103-105 | a run in which a lost create answer leaves a robot nothing refers to |
| StrandedRobots.LostEntryDeletionStrandsARobot | internal/backend/path_creds.go:115-127 | a run in which a lost WAL deletion answer and a failed cleanup do |
| StrandedRobots.UnconfiguredRollbackAbandonsARobot | internal/backend/path_creds.go:173-181 | a run in which a rollback without configuration drops the entry of an existing robot |
| StrandedRobots.OverfullListingAbandonsARobot | internal/harbor/client.go:205-224 | a run in which 101 other robots hide the robot from its rollback |
| Issuance.RobotsAreDeletedByRight | internal/backend/path_creds.go:113-205 | who may delete a robot: its lease's revocation, its own entry's rollback, its own request's cleanup, or someone else |
| Issuance.LeaseIsDroppedOnlyWithoutRobot | internal/backend/secret_robot.go:197-215 | a lease is dropped only when its robot is gone |
| Issuance.LeasedIsNeverRolledBack | internal/backend/path_creds.go:113-127 | once a robot is leased, no later state of any run has a rollback about to delete it |
| IssuanceHandlers.CallKeepsInv | internal/backend/path_creds.go:52-205 | whatever a handler does is a run of the machine and keeps its invariant |
| IssuanceHandlers.Call.CredsRead | internal/backend/path_creds.go:52-161 | a response leaves one new robot, with the role's permissions and level under the requested name, that lives for the effective maximum TTL to a second and less than a day more, and no entry; a refused call whose clean-up is answered leaves neither robot nor entry; otherwise any robot created is named by a live entry unless an answer was lost |
| IssuanceHandlers.Call.Issue | internal/backend/path_creds.go:95-127 | create, then drop the entry; a refused create drops it too, and a refused drop deletes the robot |
| IssuanceHandlers.Call.CleanUp | internal/backend/path_creds.go:115-123 | the entry stays unless the robot is known to be gone |
| IssuanceHandlers.Call.WalRollback | internal/backend/path_creds.go:165-205 | with its calls answered and a page that fits, the robot and the entry are gone and success is reported, also when there was no robot; a refused lookup or deletion is an error that changes nothing; only the entry's own robot can disappear, and one missing from an overfull page is abandoned |
| IssuanceHandlers.Call.Revoke | internal/backend/secret_robot.go:197-215 | it succeeds exactly when the deletion is answered or the robot is known to be gone; a lease goes only after its robot, and nothing else changes |
| IssuanceHandlers.RequestableExactly | internal/backend/path_creds.go:83-91 | when a robot can be requested: a fresh name, one of the two levels, and something granted |
| IssuanceHandlers.PageFindsTarget | internal/harbor/client.go:205-224 | what a rollback finds on its page is the entry's robot, and a page that fits shows it |
| IssuanceHandlers.InvGivesOneTarget | internal/backend/path_creds.go:190-201 | a lookup for an entry accepts exactly the robot created for it |
| Lifetime.ClampTTLs | internal/backend/path_creds.go:70-81 | the largest TTLs within the role, the mount default and the mount maximum, positive when those are |
| Lifetime.IssuedLeaseIsCovered | internal/backend/path_creds.go:70-157 | the robot outlives creation plus maximum TTL less a second; a lease outlives its robot by at most the latency plus a second |
| Lifetime.CoveredAtMaxTTLExactly | internal/backend/path_creds.go:95-157 | when a lease at its maximum ends no later than the robot, as an if and only if |
| Lifetime.CoveredAtIssueExactly | internal/backend/path_creds.go:70-157 | when the lease issued ends no later than the robot, as an if and only if |
| Lifetime.OneDayLeaseOutlivesItsRobot | internal/backend/path_creds.go:95-157 | an input for which it does not |
| Lifetime.Secret.CapToRobot | internal/backend/secret_robot.go:177-195 | the capped answer, and an error for an expired robot |
| Lifetime.Secret.Renew | internal/backend/secret_robot.go:103-175 | the handler computes the renewal function in every branch; a failed renewal keeps the recorded expiry |
| Lifetime.RenewKeepsConsistent | internal/backend/secret_robot.go:129-172 | one renewal, whatever fails, keeps the record an expiry the robot has had, not later than the present one |
| Lifetime.RecordedNeverExceedsActual | internal/backend/secret_robot.go:129-172 | so over any run of renewals the recorded expiry never exceeds Harbor's |
| Lifetime.RenewalGrantedExactly | internal/backend/secret_robot.go:103-195 | when a renewal is granted, from the request, the lease and the robot |
| Lifetime.RenewalTouchesExactly | internal/backend/secret_robot.go:129-153 | the robot changes only by an update that reached Harbor, and then has the wanted days |
| Lifetime.CoveredRenewalIsFree | internal/backend/secret_robot.go:120-131 | a lease whose record covers the wanted instant is renewed as the role says, without any call |
| Lifetime.RefusedUpdateIsCapped | internal/backend/secret_robot.go:153-157 | a refused update leaves the robot alone, and while it lives both TTLs are cut to its remaining life |
| Lifetime.ExtensionIsRecorded | internal/backend/secret_robot.go:158-174 | an extension that reaches the wanted instant records the expiry read after it; a short one is cut to the robot's life |
| Lifetime.GrantedLeaseIsCovered | internal/backend/secret_robot.go:103-195 | when a granted renewal ends no later than the robot plus the time between the two clock readings, as an if and only if on the request, the lease and the robot before the call |
| Lifetime.LostAnswersCostUnderASecond | internal/backend/secret_robot.go:145-156 | whatever is lost, the lease ends within the robot's old or new life; with a role TTL or an increment, within a second of the new one |
| Lifetime.SuccessfulRenewalLosesUnderASecond | internal/backend/secret_robot.go:145-172 | when all calls succeed the renewal is granted, the robot reaches the wanted instant to within a second, and a TTL is cut only to the robot's remaining life |
| Lifetime.EveryGrantIsCovered | internal/backend/secret_robot.go:103-195 | the same if and only if from issuance on, after any renewals |
| Lifetime.LostShorteningUncoversALease | internal/backend/secret_robot.go:185-190 | two renewals after which a lease outlives its robot by 27 days |
| Duration.TtlToDaysNearCeiling | internal/backend/duration.go:16 | never above the exact ceiling, and at most 1140 ns short of the TTL |
| Duration.ExactOnWholeSeconds | internal/backend/duration.go:16 | the exact ceiling for every positive whole-second duration |
| Duration.ExactUpTo104Days | internal/backend/duration.go:16 | and for every duration up to 2^53 nanoseconds |
| Duration.CoversExactly | internal/backend/duration.go:16 | when the days cover the TTL, as an if and only if on the part of a day the float keeps |
| Duration.NeverLessThanADay | internal/backend/duration.go:12-27 | a TTL or remaining time that is not positive gets one day |
| Duration.OneNanosecondIsLost | internal/backend/duration.go:16 | a TTL the days do not cover |
| Duration.DurationForExpiryIsTwoSided | internal/backend/duration.go:25-27 | the days reach the wanted instant, to 1140 ns, and overshoot by less than a day |
| Duration.ExtensionMissesByUnderASecond | internal/backend/secret_robot.go:152-168 | after Harbor drops the fraction, an extension misses by under a second |
| Duration.NeverFewerDays | internal/backend/secret_robot.go:138-146 | asking for an instant past a granted expiry never asks for fewer days |
| Float64.RoundIsNearest | internal/backend/duration.go:16 | rounding to binary64 gives a nearest representable value |
| Float64.RoundIsFloat | internal/backend/duration.go:16 | and a representable one |
| Float64.RoundAtTiesToEven | internal/backend/duration.go:16 | a value half way between two floats is rounded to the even one |
| HarborServer.GrantsExactly | internal/harbor/harbortest/server.go:639-719 | which permissions grant a pair in a scope, by kinds, projects and effects |
| HarborServer.ScopeCoveredExactly | internal/harbor/harbortest/server.go:689-719 | which children are within a creator's scope, by kinds and projects |
| HarborServer.SystemPermissionsStayOutOfProjects | internal/harbor/harbortest/server.go:711-719 | system permissions alone grant nothing in a project and give no child a project permission |
| HarborServer.ProjectPermissionsStayOutOfTheSystem | internal/harbor/harbortest/server.go:711-719 | project permissions alone grant nothing at system scope and create no system robot |
| HarborServer.ProjectsAreIsolated | internal/harbor/harbortest/server.go:711-719 | permissions for one named project grant nothing in another and reach no robot created there |
| HarborServer.PermissionsReachTheirScope | internal/harbor/harbortest/server.go:711-719 | a permission for all projects grants what it allows in each of them |
| HarborServer.Holds | internal/harbor/harbortest/server.go:639-651 | some covering permission allows the action |
| HarborServer.HasAccess | internal/harbor/harbortest/server.go:667-679 | it does for every requested permission |
| HarborServer.ScopeCovers | internal/harbor/harbortest/server.go:689-706 | every requested pair is listed by a covering permission of the creator |
| HarborServer.ScopeCoveredTransitive | internal/harbor/harbortest/server.go:689-719 | scope coverage is transitive, the "*" namespace included |
| HarborServer.DescendantsAreAttenuated | internal/harbor/harbortest/server.go:507-521 | along any chain of creations the first robot covers whatever the last one covers |
| HarborServer.DescendantsHoldNoMore | internal/harbor/harbortest/server.go:507-521 | and may do whatever the last one may, when its deny rules are outweighed |
| HarborServer.ChildrenHoldNoMoreExactly | internal/harbor/harbortest/server.go:507-521 | no child a robot may create gains a right, if and only if its deny rules are outweighed wherever it may create robots |
| HarborServer.GainingRequestIsAccepted | internal/harbor/harbortest/server.go:443-521 | the request for a child that does gain one passes validation and authorisation, when the creator's permissions would pass |
| HarborServer.Validate | internal/harbor/harbortest/server.go:443-490 | accepts exactly the well-formed create requests |
| HarborServer.PassesUnlessMalformed | internal/harbor/harbortest/server.go:443-490 | a request passes validation exactly when none of the ten faults is there |
| HarborServer.Server.NewRobot | internal/harbor/harbortest/server.go:186-219 | the robot made, its full name and its expiry; names stay unique and creations within scope |
| HarborServer.Server.RobotsCreate | internal/harbor/harbortest/server.go:432-543 | created if and only if valid, authorised and not taken; when each error is returned |
| HarborServer.Server.RobotPut | internal/harbor/harbortest/server.go:545-631 | the expiry is recomputed from the creation time exactly when the duration changes; when each error is returned |
| HarborServer.Server.RobotDelete | internal/harbor/harbortest/server.go:545-631 | deleted if and only if present and the caller holds robot deletion there |
| RobotLookup.RobotsList | internal/harbor/harbortest/server.go:351-430 | when each error is returned, and otherwise exactly the robots in scope that pass both name filters, each once |
| RobotLookup.SelectedExactly | internal/harbor/harbortest/server.go:405-425 | which robots a query selects, by level, project and database name |
| ShortNames.ContainsExactly | internal/harbor/harbortest/server.go:420-422 | the fuzzy filter is having the text somewhere in the name |
| RobotLookup.FindRobotByShortName | internal/harbor/client.go:205-224 | the first listed robot with exactly the short name, or the error of the lookup that failed |
| RobotLookup.LookupInvertsNaming | internal/harbor/client.go:205-224 | the lookup returns the robot created under the name and no other; it finds it whenever at most 100 match |
| ShortNames.ShortNameInvertsExactly | internal/harbor/client.go:228-233 | the short name of a full name is the original, if and only if the level or the prefix permits |
| Naming.PatternByPosition | internal/harbor/harbortest/server.go:23 | what Harbor's name pattern says about each character and its neighbours |
| Naming.NormalizeJoinsWords | internal/backend/naming.go:26-34 | a segment is the alphanumeric words of the lower-cased text joined by single dashes, up to its limit |
| Naming.NormalizeIsIdempotent | internal/backend/naming.go:26-34 | normalising twice changes nothing |
| Naming.NormalizedSegmentIsWellFormed | internal/backend/naming.go:26-34 | a segment is empty or dash-joined alphanumeric runs of at most 64 bytes |
| Naming.RobotNameIsValid | internal/backend/naming.go:38-57 | every robot name matches Harbor's pattern and is at most 138 bytes, so the fallback is never taken |
| Naming.RobotNameParts | internal/backend/naming.go:38-57 | a name is the normalised prefix, the normalised role and the suffix, with dashes between those that are there |
| Naming.SuffixesTellNamesApart | internal/backend/naming.go:38-57 | different suffixes give different names |
| Roles.RoleOkExactly | internal/backend/path_roles.go:213-262 | a role meets the rules exactly when no field breaks one |
| Roles.ValidateRole | internal/backend/path_roles.go:213-262 | accepts exactly the roles that meet the rules, and reports a field that breaks one |
| Roles.MergedExactly | internal/backend/path_roles.go:160-190 | the merged role has every given field and keeps every absent one |
| Roles.RoleStore.Write | internal/backend/path_roles.go:160-202 | absent fields keep their stored values, and only valid roles are stored |
| Roles.RoleRequestsPassExactly | internal/backend/path_creds.go:95-102 | when an accepted role's request passes all of Harbor's validation |
| Roles.AcceptedButUnusable | internal/backend/path_roles.go:219-234 | project-level roles with several permissions are accepted but never usable |
| SecretGen.HarborSecretOK | internal/backend/path_config.go:477-490 | decides Harbor's password policy |
| SecretGen.ShuffleKeepsMultiset | internal/backend/path_config.go:463-469 | the shuffle keeps every byte |
| SecretGen.ShuffleReachesEveryArrangement | internal/backend/path_config.go:463-469 | and some draws produce any given arrangement |
| SecretGen.SecretMeetsPolicy | internal/backend/path_config.go:439-474 | whatever the draws, a generated secret meets the policy and has 32 characters |
| SecretGen.SecretsAreExactly | internal/backend/path_config.go:439-474 | the secrets that can come out are exactly the alphanumeric ones of 32 characters that meet the policy |
| SecretGen.ShuffleInPlace | internal/backend/path_config.go:463-469 | the in-place loop computes the shuffle |
| SecretGen.GenerateSecret | internal/backend/path_config.go:439-474 | the generator fails only when its random source does; the policy error is unreachable |
| ActionCleanup.PostReleasesExactly | action/src/post.ts:19-70 | after any prefix of main, the attempts that follow from its state are exactly what is owed for it, if and only if the last action is not at risk |
| ActionCleanup.PostReleasesAll | action/src/main.ts:17-84 | wherever main fails by itself or ends, post attempts exactly what is owed, if and only if no acquisition it fails at was made unseen |
| ActionCleanup.PostPhaseReleasesExactly | action/src/index.ts:10-16 | the whole job at every kill point: marked, it releases exactly what is owed unless main was stopped at risk; unmarked, the post phase runs main and leaves nothing behind exactly when that acquires nothing |
| ActionCleanup.MainAcquires | action/src/main.ts:17-84 | what main acquires: a token exactly when none was supplied, a lease with the token in use, a login exactly when asked for |
| ActionCleanup.PostAttemptsExactly | action/src/post.ts:19-70 | post logs out exactly when the login was made and logout is on, revokes the lease exactly when it was issued and revoke is on, and revokes the token exactly when main minted it |
| ActionCleanup.SucceedsExactly | action/src/main.ts:17-84 | main reports success exactly when it got everything it asked for |
| ActionCleanup.PostNeverThrowsAfterMain | action/src/post.ts:32-42 | wherever main stopped, post can build its client from what main saved |
| ActionCleanup.Runner.Authenticate | action/src/auth.ts:25-70 | a supplied token is never owned, a minted one is |
| ActionCleanup.Runner.MainStep | action/src/main.ts:17-84 | what main saves and does up to its first failure, in order, what it does not get to see included |
| ActionCleanup.Runner.PostStep | action/src/post.ts:19-70 | the attempts follow from the saved state alone: a failing one skips no other |
| ActionCleanup.Runner.Bootstrap | action/src/index.ts:10-16 | the saved mark decides which step runs |

## Left out

- HTTP, TLS, JSON and error bodies of the Harbor and Vault clients: each call is a step with a reply.
- Vault's framework (path schemas, WAL format, plugin serving): a set of WAL entries, a map of leases, and the TTL rule.
- RootRotation: trimming the URL, lower-casing the auth type, and what harbor.New checks of an address and a CA bundle, which is a parameter.
- ClientCache: fairness of the lock; calls may wait forever.
- Issuance.OrphanCoverage: between the deletion of a WAL entry and the registration of the lease, only the robot's own expiry bounds it, because the code deletes the entry first; the set `gap` says so.
- Issuance: rollback by robot id, since no handler ever logs one; renewals appear as changes of a robot's expiry.
- IssuanceHandlers: a handler runs without interruption there; interleavings are the machine's.
- Lifetime: the clock as a fallback for a creation time that does not parse at issue, and robots edited outside.
- Lifetime.GrantedLeaseIsCovered: an upper bound on what a capped renewal grants, not that it is granted, because Vault measures the maximum from issue time.
- HarborServer: changing secrets, other users' passwords, and user edits of permissions as part of the attenuation invariant.
- RobotLookup: project numbers, which queries resolve to names, and unauthenticated callers.
- Naming: which characters lower-case to which outside the ASCII range.
- Roles: parsing the permissions field; an update carries parsed permissions or none that parse.
- Roles.RoleStore.Write: TTLs and, in RootRotation, timeouts so long that their nanoseconds overflow int64 (`internal/backend/path_roles.go:180-185` multiplies without a check); they are unbounded here.
- SecretGen: randomness quality; draws are arbitrary.
- ActionCleanup: input parsing, the Docker wrapper and log texts.
- ActionCleanup: that a lease survives `revoke: false` with a minted token; post revokes that token, and a lease cannot outlive its token.
