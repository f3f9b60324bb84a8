# Janus: decision logic and small protocols, modelled and proved in Dafny

Janus is a secrets server. This project models the parts of it whose correctness does not show in any one function:
who may act where and how that changes over time, the Idempotency-Key protocol, the per-IP rate limiter, the
four-eyes workflow, the `.env` printer, keyset pagination, audit pruning, the egress policy, the watch supervisor and
the edit distance of `janus doctor`. Key search and the audit scope of a request are there
too. Code that changes state is modelled as classes and methods that change it, each proved against a function of the
old state; the theorems are about those functions, over every input or every run.

`dafny verify dfyconfig.toml` checks everything.

## Layout

| file | what it holds |
|---|---|
| `Options.dfy` | a value that may be missing |
| `Authz.dfy` | roles, scopes, the union rule over a list of bindings |
| `Authority.dfy` | the tables behind authorization; bound, granted and effective roles; the decision |
| `Handlers.dfy` | what each handler does to those tables, as functions |
| `Server.dfy` | the engine's queries and the handlers themselves, as methods over a class |
| `AuthorityLaws.dfy` | what a role is worth where; each handler from the outside, entry by entry: when it goes through and what it changes |
| `AuthorityRuns.dfy` | every run: where bindings, memberships and grants come from; never locked out |
| `Coalition.dfy` | every run: no laundering of break-glass elevations, and their end |
| `AccessView.dfy`, `AccessMatrix.dfy`, `RevokeAll.dfy` | the access review and revoke-all against the engine |
| `Idempotency.dfy` | the Idempotency-Key middleware, one request and all interleavings |
| `EditDistance.dfy` | the two-row table against shortest chains of edits |
| `RateLimit.dfy` | the forgetful token bucket against one that never forgets |
| `FourEyes.dfy`, `Approvals.dfy` | the write doors, protection and requests as a machine; the handlers as methods |
| `ShellEnv.dfy` | the `.env` printer against a strict reader of shell assignments |
| `Pagination.dfy` | following a cursor, on a table that stands still and on one that changes |
| `AuditPrune.dfy` | prune ceilings, floors and the ship mark |
| `Egress.dfy` | live, stored and resolved egress policy |
| `Supervisor.dfy`, `Processes.dfy` | the watch loop over events; the same down to processes, signals, channels and goroutines |
| `Search.dfy` | key search with its memo, against the visible matches alone |
| `AuditScope.dfy` | the project an audit event is attributed to |

## What the proofs turned up

- The cap on grants keeps *bindings* from outliving an elevation, but group membership is edited under the effective
  `group:manage` alone. An elevated user can join a group that is bound higher and stays in it
  (`Coalition.GroupsCountWhileEmpty`; `Coalition.JoiningRaisesIff` says exactly when). The no-laundering theorem
  therefore counts the groups a coalition could join.
- Outside projects created along the way, the highest role any binding confers never rises in a run, except exactly when
  init or boot gives an instance without an owner its first one (`Coalition.CeilingNeverRisesIff`). With an owner that ceiling is owner everywhere, so
  `Coalition.NoLaundering` says the same of an arbitrary set of users and groups.
- The access review does not look at how old an OIDC membership is; the engine does. The two agree exactly where no
  stale membership outranks the live bound role (`AccessMatrix.ReviewAgainstEngine`).
- Forgetting idle buckets is unobservable, and the bound on every window holds, exactly when burst <= rate * 3600 s
  (`RateLimit.PruningUnobservableIff`, `RateLimit.WindowBoundIff`).
- Revoke-all looks at neither projects nor environments in the trash, and restoring brings their bindings back: a
  complete revocation is for good exactly when the target holds nothing there (`RevokeAll.ForGoodIffNothingInTrash`).
- An edit request is claimed before it is committed and commits at most once. A promotion request is committed before
  it is marked: overlapping approvals, a failed mark or a crash before it commit twice, and a decision in between leaves
  a rejected request with a version. `FourEyes.PromotionsCommitOnceIff` is the exact condition.
- A promotion request leaves pending at most once; an edit request may do so again, because a failed commit hands the
  claim back: exactly then (`FourEyes.LeavesPendingOnceIff`, `Approvals.EditsMayLeavePendingTwice`).
- The protection flags are read before the commit: a protected config gets a version by one party exactly when a writer
  commits after the flag was switched on behind the writer's check (`FourEyes.ProtectedVersionsHaveTwoParties`).
- Key search asks the store for at most 200 raw matches before it decides which are readable; beyond that, matches the
  caller may not read can push readable ones out (`Search.CapShowsIff`).
- The days floor of audit retention goes by the highest old seq; it protects a young event exactly when no older event
  was recorded after it (`AuditPrune.YoungAreKeptUnlessInverted`).
- The comment on SeqRetainingNewest (internal/store/audit_retention.go:36-42) promises 0 for a table of at most n events;
  it is kept exactly while the table is empty or still holds the first event (`AuditPrune.FewEventsAnswer`). The model follows the
  code.
- Rolling back an unaudited egress change writes a row even if there was none; that row outlives the environment it
  copies (`Egress.RollbackRestoresIff`, `Egress.LeftoverRowPins`).
- A config version that lands between the first fetch and the read of the baseline is not picked up while the config
  rests at it (`Supervisor.MissedVersionIsNeverPickedUp`).

## Model

| member | source | states |
|---|---|---|
| `Authz.Highest` | internal/authz/review.go:37-45 | the union rule: at least every applicable role, and itself one of them unless none applies |
| `Authz.RoleFromBindings` | internal/authz/review.go:37-45 | the loop computes the highest applicable role |
| `Authz.ApplicableBindings` | internal/authz/review.go:22-30 | the loop keeps exactly the bindings that apply, in order |
| `Authority.HighestIsBound` | internal/authz/management.go:92-98 | however the bindings are loaded and ordered, the highest of them is the bound role defined on the tables |
| `Authority.CanIffEffectiveAllows` | internal/authz/engine.go:108-134 | deciding binding by binding and grant by grant is deciding on the effective role |
| `AuthorityLaws.RolesAreAChain` | internal/authz/actions.go:77-103 | each role allows what the lower ones allow; which of the modelled actions each allows, outright |
| `AuthorityLaws.BoundRoleIff` | internal/authz/resolve.go:46-58 | the bound role reaches r iff a direct binding, or one of a group with local or recent membership, gives at least r at the instance, at the resource's project or at its environment |
| `AuthorityLaws.GrantRoleIff` | internal/authz/resolve.go:60-74 | the same of grants that are neither ended nor past their time |
| `AuthorityLaws.EffectiveRoleIff` | internal/authz/management.go:62-90 | the effective role is the higher of the bound and the granted one |
| `AuthorityLaws.ProjectBindingsReachEnvironments` | internal/authz/resolve.go:46-58 | what a project's binding confers, it confers at every environment of the project |
| `AuthorityLaws.RolesGrowInward` | internal/authz/resolve.go:46-84 | bound roles, granted roles and rights only grow from the instance to a project to its environments |
| `AuthorityLaws.BindingsDoNotSpread` | internal/authz/resolve.go:46-58 | bindings at one environment or project confer nothing outward or sideways |
| `AuthorityLaws.GrantsDoNotSpread` | internal/authz/resolve.go:60-74 | nor do grants |
| `AuthorityLaws.LastOwnerIff` | internal/api/members_handlers.go:18-36 | the count singles out exactly an owner beside whom there is no other |
| `Authority.OwnersAreDirect` | migrations/000045_groups.up.sql:69-75 | a bound instance owner holds a direct binding, never a group's |
| `Authority.AnotherOwner` | internal/api/members_handlers.go:18-36 | passing the last-owner test leaves some other owner |
| `Server.Server.BindingsFor` | internal/authz/engine.go:75-88 | returns exactly the direct and live group-derived bindings of a user |
| `Server.Server.DerivedFor` | internal/store/group_bindings.go:106-124 | group-derived bindings, leaving out OIDC memberships whose snapshot is too old |
| `Server.Server.BoundRoleOf` | internal/authz/management.go:92-98 | the bound role of the tables |
| `Server.Server.GrantsAllow` | internal/authz/engine.go:162-172 | true iff some live applicable grant allows the action |
| `Server.Server.Allowed` | internal/authz/engine.go:108-134 | true iff some binding or live grant of the tables allows the action; `AuthorityLaws.BoundRoleIff` and `RolesGrowInward` say what that is |
| `Server.Server.IsLastInstanceOwner` | internal/api/members_handlers.go:18-36 | true iff the user is an instance owner and there is no other |
| `Server.Server.MemberPut` | internal/api/members_handlers.go:105-170 | the handler's writes and reply are those of the step whose outcome `AuthorityLaws.MemberPutLaw` states entry by entry |
| `Server.Server.MemberDelete` | internal/api/members_handlers.go:172-201 | likewise, for `AuthorityLaws.MemberDeleteLaw` |
| `Server.Server.GroupPut` | internal/api/group_handlers.go:431-482 | likewise, for `AuthorityLaws.GroupPutLaw` |
| `Server.Server.GroupUnbind` | internal/api/group_handlers.go:487-504 | likewise, for `AuthorityLaws.GroupUnbindLaw` |
| `Server.Server.GroupMemberAdd` | internal/api/group_handlers.go:234-265 | only local groups, existing users, under the effective group:manage |
| `Server.Server.GroupMemberRemove` | internal/api/group_handlers.go:268-290 | removal from a local group |
| `Server.Server.GroupDelete` | internal/api/group_handlers.go:185-196 | the group goes with its members and bindings |
| `Server.Server.Activate` | internal/api/break_glass_handlers.go:88-201 | a trimmed reason of at most 1000 bytes, strictly above a non-empty bound role, clamped TTL, revoked again when the audit write fails |
| `Server.Server.GrantRevoke` | internal/api/break_glass_handlers.go:240-278 | self or instance member:manage ends a live grant |
| `Server.Server.SweepExpired` | internal/store/break_glass.go:136-147 | exactly the lapsed grants are stamped as ended |
| `Server.Server.ResolveOwnerGroup` | internal/api/projects_handlers.go:170-198 | which group owns a new project, both kinds of creator |
| `Server.Server.CreatorGroupsFor` | internal/store/groups.go:258-279 | exactly the user's groups that may create projects, each once |
| `Server.Server.CreateProject` | internal/api/projects_handlers.go:70-150 | project, group at admin, creator at owner, the creator's own creating groups named in the contract, also when a seeding write fails |
| `Server.Server.SetTrashed` | internal/api/projects_handlers.go:283-364 | soft deletion and restoring move only the mark; the scope's bindings stay |
| `Server.Server.BootstrapAdmin` | internal/api/sys.go:210-228 | the first user becomes instance owner, only while there are no users |
| `Server.Server.ReconcileInstanceOwner` | internal/api/boot.go:426-448 | grants the oldest user owner only if nobody is |
| `AuthorityLaws.MemberPutLaw` | internal/api/members_handlers.go:105-170 | goes through iff the actor manages members at an existing, live scope, the role is no higher than the actor's bound one, the user exists and it does not demote the last owner; then exactly that entry is set, otherwise nothing; every refusal's reply |
| `AuthorityLaws.MemberDeleteLaw` | internal/api/members_handlers.go:172-201 | goes through iff the actor manages members there, the binding exists and is not the last owner's; then exactly that entry is gone, otherwise nothing; every refusal's reply |
| `AuthorityLaws.GroupPutLaw` | internal/api/group_handlers.go:431-482 | the same of binding a group, owner refused |
| `AuthorityLaws.GroupUnbindLaw` | internal/api/group_handlers.go:487-504 | the same of unbinding a group |
| `AuthorityLaws.GroupMemberAddLaw` | internal/api/group_handlers.go:234-265 | exactly that membership is added, iff the right is there, the group is local and the user exists; every reply |
| `AuthorityLaws.GroupMemberRemoveLaw` | internal/api/group_handlers.go:268-290 | exactly that membership goes, on the same terms; every reply |
| `AuthorityLaws.GroupDeleteLaw` | internal/api/group_handlers.go:185-196 | the group, its memberships and its bindings go, those of all other groups stay |
| `AuthorityLaws.OidcSyncLaw` | internal/store/groups.go:186-230 | a login makes the user's memberships of OIDC groups exactly the claimed ones, touches no other, and counts as recent |
| `AuthorityLaws.MembershipsAge` | internal/store/group_bindings.go:106-124 | as time passes a membership by login counts for exactly the maximum age, a local one for good |
| `AuthorityLaws.ActivateLaw` | internal/api/break_glass_handlers.go:88-201 | goes through iff there is a reason, a positive TTL if any, a live scope, a role held there and a strictly higher one asked for; opens that one grant and touches no other |
| `AuthorityLaws.ActivationLasts` | internal/api/break_glass_handlers.go:126-188 | the actor's effective role is raised at once, and the grant is active for exactly the shorter of the TTL asked for and the cap |
| `AuthorityLaws.GrantRevokeLaw` | internal/api/break_glass_handlers.go:240-278 | ends that grant and no other, iff it is not ended yet and the actor is its user or manages the instance; every reply |
| `AuthorityLaws.SweepLaw` | internal/store/break_glass.go:136-147 | the sweep marks exactly what has lapsed and changes for nobody what is active |
| `AuthorityLaws.OwnerGroupLaw` | internal/api/projects_handlers.go:170-198 | which group is chosen, refused or ambiguous, for every wish and both kinds of creator |
| `AuthorityLaws.CreateProjectLaw` | internal/api/projects_handlers.go:70-150 | iff the creator may: the project is there, its group bound at admin and its creator at owner, and no other entry moves; the replies |
| `AuthorityLaws.CreateEnvLaw` | internal/api/environments_handlers.go:34-54 | the environment is there under its project iff the actor may create it |
| `AuthorityLaws.TrashLaw` | internal/api/projects_handlers.go:283-364 | deleting marks a live scope, restoring unmarks a trashed one, iff the actor has the right; no binding moves |
| `AuthorityLaws.ReconcileLaw` | internal/api/boot.go:426-448 | after a boot an instance with users has an owner; only the oldest user's entry was set, and only if there was none |
| `AuthorityLaws.InitLaw` | internal/api/sys.go:210-228 | init adds one user and one owner binding, only while there are no users |
| `AuthorityLaws.RevokeAllLaw` | internal/api/access_handlers.go:591-626 | revoke-all removes exactly the loaded bindings at whose scope the caller's bound role is admin or above and not below the binding's |
| `AuthorityRuns.BindingOrigin` | internal/api/members_handlers.go:114-165 | a binding that is new after a step was handed out by someone who may manage members there and whose bound role there is at least as high, seeded in a new project for its creator or its group, or made the first owner at init or at boot |
| `AuthorityRuns.MembershipOrigin` | internal/api/group_handlers.go:234-265 | a membership that is new after a step comes from an edit or a login |
| `AuthorityRuns.GrantOrigin` | internal/api/break_glass_handlers.go:126-188 | a grant is opened by an activation, for at most the cap, and is otherwise only ever closed |
| `AuthorityRuns.GroupCreateLaw` | internal/api/group_handlers.go:110-161 | a new group, under the right to manage groups, and without touching an existing one |
| `AuthorityRuns.ActivationRaises` | internal/api/break_glass_handlers.go:156-199 | an elevation is one's own, starts from a role held there and goes strictly above it; unrecorded ones do not stay active when the undo goes through |
| `AuthorityRuns.OwnerGroupExists` | internal/api/projects_handlers.go:170-198 | a new project goes to an existing group, and by a delegated creator only to a creating group of their own |
| `AuthorityRuns.RunValid` | migrations/000045_groups.up.sql:69-90 | every run keeps the schema's guarantees |
| `AuthorityRuns.NeverLockedOut` | internal/api/members_handlers.go:139-187 | once there is a direct instance owner, every run keeps one |
| `AuthorityRuns.ReconcileNeverFires` | internal/api/boot.go:426-448 | after any such run the boot reconcile changes nothing |
| `Coalition.NoLaundering` | internal/api/members_handlers.go:114-129 | for any users and groups closed under membership and any run that brings them nothing from outside, whatever grants are open: at every resource outside new projects, no role their bindings confer is above what they conferred at the start |
| `Coalition.BoundRolesStayWithin` | internal/api/group_handlers.go:437-454 | so a member's bound role at the end is one the coalition conferred at the start |
| `Coalition.CeilingNeverRisesIff` | internal/api/members_handlers.go:114-129 | for every run: at every resource outside new projects no binding of anybody confers more at the end than some binding did at the start, if and only if the instance had an owner at the start or has none at the end |
| `Coalition.OwnersAreFounded` | internal/api/boot.go:426-448 | an instance without an owner gets one exactly in a step of init or boot that grants it |
| `Coalition.OwnerlessIffNoneFounded` | internal/api/boot.go:426-448 | the same condition from the steps: no init or boot of the run makes the first owner |
| `Coalition.ElevationsEnd` | internal/api/break_glass_handlers.go:126-188 | once the maximum TTL has passed without an activation, effective and bound role are equal for every user and resource |
| `Coalition.NothingIsKept` | internal/api/break_glass_handlers.go:126-188 | both together: after the last elevation lapsed, no effective role exceeds what the bindings conferred before the run |
| `Coalition.JoiningRaisesIff` | internal/api/group_handlers.go:234-265 | adding a member raises that member's bound role at a resource iff the actor has the effective group:manage, the group exists and is local, the user exists, and a binding of the group applies strictly above what the user holds |
| `Coalition.GroupsCountWhileEmpty` | internal/api/server.go:475-482 | so whoever has that right may join any local group bound above their bound role, which rises to it and stays there |
| `Coalition.ElevatedUserMayJoin` | internal/api/server.go:475-482 | there are users with that right through an elevation alone |
| `Coalition.CoherenceIsNeeded` | internal/api/members_handlers.go:58-69 | on a resource that names an environment without its project, whoever may hand out a role there raises the ceiling to it |
| `AccessView.AllowedProjects` | internal/authz/management.go:111-142 | exactly the projects where the action is allowed |
| `AccessView.ResolveView` | internal/api/access_handlers.go:100-175 | denied iff there is nothing to review; otherwise the reviewable scopes, at most 200 projects and 1000 environments, each cut flagged |
| `AccessView.ReachesFromView` | internal/api/access_handlers.go:241-244 | what reaches a scope in view is attached to one in view, or to the instance |
| `AccessView.ScopeColumns` | internal/api/access_handlers.go:219-248 | the loops give the review order |
| `AccessView.ColumnsAreView` | internal/api/access_handlers.go:219-248 | the columns are exactly the scopes in view, each once |
| `AccessView.EnvironmentsFollowTheirProject` | internal/api/access_handlers.go:219-248 | an environment's column directly follows its project's or a sibling's |
| `AccessView.ProjectsInOrder` | internal/api/access_handlers.go:219-248 | the project columns come in the order of the view |
| `AccessView.LoadBindings` | internal/api/access_handlers.go:182-201 | only bindings in view; all of them unless the flag is up |
| `AccessMatrix.AccessMatrix` | internal/api/access_handlers.go:290-357 | cells never exceed the true role; with nothing cut a cell exists iff a binding in view bears on it and carries the highest of those, which with the instance in view is the bound role; one cell per user and scope; sources are exactly the reasons |
| `AccessMatrix.FillCells` | internal/api/access_handlers.go:316-344 | the nested loops give the first 20000 cells of the full grid, flagged iff there are more |
| `AccessMatrix.CellIsSeen` | internal/api/access_handlers.go:316-340 | one cell against the bindings in view, both directions, instance hidden or not |
| `AccessMatrix.SeenIsBound` | internal/api/access_handlers.go:316-340 | with the instance in view, what the bindings in view confer is the bound role |
| `AccessMatrix.ReviewAgainstEngine` | internal/store/access_review.go:111-151 | the review shows at least the engine's role, and the same iff no stale membership outranks it |
| `RevokeAll.RevokeAccess` | internal/api/access_handlers.go:519-657 | removes exactly the loaded in-view bindings the caller's bound role may remove, or refuses; complete iff the instance is in view, nothing was cut and the target has no effective role left in view |
| `RevokeAll.Sweep` | internal/api/access_handlers.go:591-626 | the deletion loop in any row order, judged by caps taken before it, even when callers remove themselves |
| `RevokeAll.Caps` | internal/authz/review.go:55-68 | the bound roles for many scopes from one load |
| `RevokeAll.Blocked` | internal/api/access_handlers.go:550-565 | the last-owner guard before anything is removed |
| `RevokeAll.CompleteIffCleared` | internal/api/access_handlers.go:628-657 | nothing skipped, no group binding and no grant in view iff no effective role is left in view |
| `RevokeAll.ClearedForTheEngine` | internal/api/access_handlers.go:628-657 | a complete revocation means the engine refuses every action at every scope in view |
| `RevokeAll.WholeInstance` | internal/api/access_handlers.go:114-175 | an uncut view of the whole instance covers every scope that is not in the trash, nor in a trashed project |
| `RevokeAll.ForGoodIffNothingInTrash` | internal/store/projects.go:127-138 | with nothing left in sight, nothing comes back by any restore iff the target holds nothing at a trashed scope |
| `RevokeAll.TrashedBindingsComeBack` | internal/api/projects_handlers.go:344-364 | a direct binding outside the view survives revoke-all and counts after a restore |
| `RevokeAll.HandleRevokeAll` | internal/api/access_handlers.go:519-683 | from the request on: a complete revocation that was not narrowed to one project leaves the target nothing the engine would allow at any scope in sight, for good iff nothing is held in the trash |
| `Idempotency.Store.Serve` | internal/api/idempotency.go:42-91 | one request: a key that is taken gets a conflict for another path or body, in progress until completion, and the recorded status replayed after it, with the store untouched; otherwise the handler's answer and what it leaves |
| `Idempotency.MachineRunsMiddleware` | internal/api/idempotency.go:42-91 | the machine run by one request alone is that middleware |
| `Idempotency.RunInv` | internal/api/idempotency.go:64-91 | the invariant holds over every interleaving, with store calls failing or dying unseen |
| `Idempotency.AtMostOnce` | internal/api/idempotency.go:64-91 | of the requests sharing a key and actor at most one is in the handler, and at most one ever succeeds |
| `Idempotency.ReplayIsTruthful` | internal/api/idempotency.go:69-82 | a replayed status is one the handler answered with for that key, path and body |
| `Idempotency.SpentForGood` | internal/store/idempotency.go:24-57 | a completed row stays, and newcomers never reach the handler |
| `Idempotency.CompletionIsFinal` | internal/api/idempotency.go:69-91 | after a recorded completion every later request whose store calls work gets that status if path and body match and a conflict otherwise, and never reaches the handler |
| `Idempotency.InProgressUntilSettled` | internal/api/idempotency.go:64-82 | while the owner of a key has not settled, in every interleaving whoever else arrives is kept out: in progress for the same request, a conflict for another |
| `Idempotency.CallTwice` | internal/api/idempotency.go:42-91 | two calls with one key: after a success the second is answered with the first one's status, after a failure its own handler runs |
| `EditDistance.Distance` | cmd/janus/doctor.go:534-555 | the length of a shortest chain of single edits: attained, and undercut by none |
| `EditDistance.TwoRows` | cmd/janus/doctor.go:534-555 | two swapped rows compute the table's last entry |
| `EditDistance.ShortestChain` | cmd/janus/doctor.go:534-555 | a chain as long as the distance exists |
| `EditDistance.ChainsAreNoShorter` | cmd/janus/doctor.go:534-555 | no chain is shorter than the distance |
| `EditDistance.LevZeroIffEqual` | cmd/janus/doctor.go:534-555 | zero iff equal |
| `EditDistance.LevSymmetric` | cmd/janus/doctor.go:534-555 | symmetric |
| `EditDistance.LevTriangle` | cmd/janus/doctor.go:534-555 | the triangle inequality |
| `EditDistance.Budget` | cmd/janus/doctor.go:510-520 | one edit allowed, two from 16 characters on, three from 24 on |
| `EditDistance.NearestKnownEnv` | cmd/janus/doctor.go:510-531 | a closest known name if one is within budget, none otherwise, in any order of the map |
| `RateLimit.IpRateLimiter.Allow` | internal/api/ratelimit.go:38-61 | new state and answer are those of the step that the laws below are about |
| `RateLimit.IpRateLimiter.Prune` | internal/api/ratelimit.go:45-53 | drops exactly the buckets idle for over an hour |
| `RateLimit.ForgottenIff` | internal/api/ratelimit.go:45-53 | a bucket is gone iff a scan was due after ten minutes and it was idle for over an hour |
| `RateLimit.GrantsSpendOne` | internal/api/ratelimit.go:54-61 | granted iff a whole token is in hand; a grant spends one, a refusal none, other hosts are untouched |
| `RateLimit.TokensAccrue` | internal/api/ratelimit.go:54-61 | between requests tokens come in at exactly the rate up to the burst; a new host has the burst |
| `RateLimit.RefusalsLeaveNoTrace` | internal/api/ratelimit.go:54-61 | taking a refused request out of any sequence changes no other answer |
| `RateLimit.ForgetfulRefusalsLeaveNoTrace` | internal/api/ratelimit.go:38-61 | the same of the limiter that forgets, over time-ordered sequences, if an hour refills the burst |
| `RateLimit.SameAnswers` | internal/api/ratelimit.go:38-61 | if a bucket refills within the idle limit, forgetting changes no answer of any time-ordered sequence |
| `RateLimit.PruningUnobservableIff` | internal/api/ratelimit.go:38-61 | forgetting is unobservable iff burst <= rate * 3600 |
| `RateLimit.ConfiguredLimitersQualify` | internal/api/server.go:373-402 | the three configured limiters meet the condition |
| `RateLimit.Conservation` | internal/api/ratelimit.go:38-61 | requests granted plus tokens in hand never exceed tokens held plus tokens earned |
| `RateLimit.WindowBound` | internal/api/ratelimit.go:38-61 | if an hour refills the burst: in every window at most burst + rate * length requests of a host are allowed, prunes included |
| `RateLimit.WindowBoundIff` | internal/api/ratelimit.go:38-61 | the bound holds of every window of every run iff burst <= rate * 3600 |
| `RateLimit.TwoBursts` | internal/api/ratelimit.go:44-56 | otherwise two full bursts are granted just over an hour apart |
| `FourEyes.NobodyApprovesTheirOwn` | internal/api/edit_request_handlers.go:166-208 | in every run a version under a request has an author other than the recorded requester, goes to the config named, and for an edit holds exactly the proposed changes |
| `FourEyes.EditsCommitAtMostOnce` | internal/editreq/service.go:146-203 | racing and dying approvals yield at most one version; exactly one, by the recorded approver, once applied; none while pending or once rejected or cancelled |
| `FourEyes.DecisionsAreFinal` | internal/store/config_edit_requests.go:144-186 | applied, rejected and cancelled are never left or rewritten |
| `FourEyes.DecisionsAreRightlyMade` | internal/api/edit_request_handlers.go:212-286 | in every run a cancelled request was cancelled by its requester, and a rejected one rejected by somebody else |
| `FourEyes.SwitchLaw` | internal/api/edit_request_handlers.go:18-84 | a protection switch sets its own flag, on or off, and nothing else |
| `FourEyes.NewcomersLaw` | internal/promote/requests.go:24-62 | new configs start unprotected, new promotion requests pending under their requester, and a promotion into a new target makes it with its first version |
| `FourEyes.LeavesPendingOnceIff` | internal/store/config_edit_requests.go:144-186 | in every run a request leaves pending at most once, if and only if no claim on it is handed back and the request then leaves pending again |
| `FourEyes.PendingAgainIffReturns` | internal/store/config_edit_requests.go:156-161 | a request that is not pending becomes pending again exactly when a failed approval hands its claim back |
| `FourEyes.PromotionsLeavePendingOnce` | internal/store/promotion_requests.go:148-164 | a promotion request leaves pending at most once in every run |
| `Approvals.EditsMayLeavePendingTwice` | internal/editreq/service.go:160-199 | from any state with a pending edit, a failed commit and a second approval make it leave pending twice |
| `FourEyes.ProtectedVersionsHaveTwoParties` | internal/api/secrets_write_handlers.go:58-136 | every version committed to an existing config under a protection flag has two different parties, if and only if no writer who found a config unprotected commits to it while it is protected |
| `FourEyes.UnovertakenVersionsHaveTwoParties` | internal/api/secrets_write_handlers.go:58-136 | in particular if protection is not switched on between a writer's check and commit |
| `FourEyes.OvertakenWriterSlipsThrough` | internal/api/secrets_write_handlers.go:80-101 | switched on in between, by the config's or the environment's flag, a commit that goes through always gives a version by the writer alone |
| `FourEyes.PromotionsCommitOnceIff` | internal/promote/requests.go:76-129 | a promotion request yields at most one version, and none once turned down, if and only if no approval commits that passed its check while an earlier committing approval was unmarked or was overtaken by one, none commits after a decision, and no decision follows a commit |
| `FourEyes.PromotionsCommitOnceAlone` | internal/promote/requests.go:76-115 | in particular if its approvals do not overlap and run to their mark |
| `Approvals.OverlappingApprovalsBothCommit` | internal/promote/requests.go:92-114 | two overlapping approvals always both commit |
| `Approvals.UnmarkedApprovalsCommitAgain` | internal/promote/requests.go:92-114 | so do two in a row when the first one's mark fails or it dies before its mark |
| `Approvals.RejectedWithAVersion` | internal/promote/requests.go:92-122 | a decision between check and mark leaves a rejected request with a version |
| `Approvals.Workflow.Save` | internal/api/secrets_write_handlers.go:80-136 | the machine's steps; an unprotected config gets exactly that version by the writer, a protected one exactly that pending request and no version |
| `Approvals.Workflow.ApproveEdit` | internal/editreq/service.go:146-203 | the machine's steps; done iff the request is pending, by somebody else, its config exists and commit and mark go through, with exactly the proposed changes in the version; what every failure leaves |
| `Approvals.Workflow.ApprovePromotion` | internal/promote/requests.go:76-115 | the machine's steps; done iff the request is pending, by somebody else, and commit and mark go through; the version is the plan, on the target |
| `Approvals.Workflow.Settle` | internal/api/edit_request_handlers.go:212-286 | done iff the request is pending and cancelling is by the requester, rejecting by somebody else; then status and resolver are set and nothing else, otherwise nothing is |
| `Approvals.EditRun` | internal/editreq/service.go:146-203 | the outcome of an approval that runs alone, in closed form |
| `Approvals.PromotionRun` | internal/promote/requests.go:76-115 | the outcome of a promotion approval that runs alone, in closed form |
| `ShellEnv.FormatEnv` | cmd/janus/formats.go:27-41 | the two loops print what the reader reads back as the map restricted to valid names |
| `ShellEnv.UnquoteUndoesQuote` | cmd/janus/formats.go:45-60 | the shell reads a printed value back as itself, whatever it holds |
| `ShellEnv.BareIff` | cmd/janus/formats.go:45-60 | a value is printed unquoted iff it is not empty and of letters, digits and _-./:@ alone |
| `ShellEnv.NamesGrow` | cmd/janus/envname.go:7-9 | the rule of the name pattern, character by character |
| `ShellEnv.SkippedKeysAreNamed` | cmd/janus/formats.go:37-39 | every key left out is named in a comment |
| `ShellEnv.RoundTripIff` | cmd/janus/formats.go:27-60 | for all values and any key order: the text reads back as the map restricted to valid names iff the remarks can be read and assign nothing that was not exported as it is |
| `ShellEnv.RoundTrip` | cmd/janus/formats.go:27-60 | in particular if skipped keys hold no newline |
| `ShellEnv.SecretsRoundTrip` | internal/secrets/validation.go:13-25 | every set of keys the server accepts meets the proviso |
| `ShellEnv.NewlineEndsRemark` | cmd/janus/formats.go:37-39 | what follows a newline in a skipped key is read as a line of its own, whatever it is |
| `Pagination.List` | internal/api/projects_handlers.go:229-267 | the filtered page, and the cursor of the last row scanned |
| `Pagination.RestIs` | internal/store/pagination.go:20-26 | the rows after a cursor are those strictly past it |
| `Pagination.PageFits` | internal/api/pagination.go:78-84 | a page is as long as the limit allows, newest first, with a cursor iff it is full |
| `Pagination.PagesAddUp` | internal/api/pagination.go:78-84 | following the cursor ends and yields the unbounded filtered list, in order |
| `Pagination.FirstToLast` | internal/api/pagination.go:19-25 | from the first page, with any limit, the same as the unbounded list |
| `Pagination.NoRowTwice` | internal/api/pagination.go:78-84 | whatever changes between pages, the rows shown are in strict order |
| `Pagination.StableRowsAreShown` | internal/api/projects_handlers.go:229-267 | a row present and readable throughout is shown |
| `Pagination.OnlyVisibleRows` | internal/api/projects_handlers.go:240-244 | every row shown was readable in one of the requests |
| `Pagination.WalkEnds` | internal/api/pagination.go:78-84 | while rows are only added in front, the walk ends |
| `AuditPrune.CombinePruneCeilings` | internal/api/audit_checkpoint_handlers.go:74-85 | the loop computes the combination |
| `AuditPrune.WithinCombined` | internal/api/audit_checkpoint_handlers.go:74-85 | within the combination iff within every active ceiling |
| `AuditPrune.CombinedAnyOrder` | internal/api/audit_checkpoint_handlers.go:74-85 | order and repetition do not matter |
| `AuditPrune.CombinedInStages` | internal/api/audit_checkpoint_handlers.go:134-194 | combining in two stages is combining once |
| `AuditPrune.Audit.RetentionPruneCeiling` | internal/api/audit_checkpoint_handlers.go:134-156 | the tighter of the two floors that are on |
| `AuditPrune.Audit.Prune` | internal/api/audit_checkpoint_handlers.go:164-205 | the whole new state and reply, the engine's clamp included |
| `AuditPrune.PruneGoesThroughIff` | internal/api/audit_checkpoint_handlers.go:164-205 | pruned iff there is a checkpoint, the anchor holds and each floor that is on leaves something to go; otherwise nothing changes, with the reason for each refusal |
| `AuditPrune.RecordShipCheckpoint` | internal/store/audit_ship.go:30-35 | the ship mark moves forward to what exists and never back; recording takes the next seq, a checkpoint the newest event |
| `AuditPrune.PruneRemovesExactly` | internal/audit/checkpoint_ops.go:274-305 | a prune removes exactly the events at or below the checkpoint and within every ceiling in force |
| `AuditPrune.NewestAreKept` | internal/store/audit_retention.go:43-58 | the newest n events are out of reach, gaps or not |
| `AuditPrune.NewestIff` | internal/store/audit_retention.go:43-58 | the events floor draws the line exactly before the newest n |
| `AuditPrune.YoungAreKeptUnlessInverted` | internal/store/audit_retention.go:24-33 | a young event is let go by the days floor iff an older one was recorded after it |
| `AuditPrune.DaysFloorHolds` | internal/api/audit_checkpoint_handlers.go:125-156 | while times do not run backwards along the log, the days floor keeps every young event |
| `AuditPrune.FloorsHoldInEveryRun` | internal/api/audit_checkpoint_handlers.go:164-205 | after any run a prune keeps what the mark and the floors in force protect |
| `AuditPrune.NothingUnshippedIsLost` | internal/api/audit_checkpoint_handlers.go:107-122 | over any run from a positive mark, every event above the mark is still there |
| `AuditPrune.FewEventsAnswer` | internal/store/audit_retention.go:36-58 | for at most n events the answer is 0 iff the log is empty or starts at seq 1; either way none of them can be removed |
| `Egress.Outbound.Put` | internal/api/outbound_policy_handlers.go:112-191 | ok iff unlocked, well-formed, stored and audited; then row and live policy carry the request's block and allow; otherwise live policy and log are as before; rollback if the audit fails |
| `Egress.PutCarriesTheRequest` | internal/api/outbound_policy_handlers.go:112-191 | what was asked for is what is stored, enforced and logged; proxies stay the environment's |
| `Egress.Outbound.Delete` | internal/api/outbound_policy_handlers.go:195-228 | the same for a reset |
| `Egress.Outbound.Boot` | internal/api/outbound_policy_handlers.go:265-292 | the live policy becomes the resolved one |
| `Egress.LiveIsResolved` | internal/api/outbound_policy_handlers.go:112-292 | after any run whose undos go through, live is what a boot would resolve, and a restart changes nothing |
| `Egress.StepInStepIff` | internal/api/outbound_policy_handlers.go:250-258 | they part exactly when an undo fails on a row that says something else |
| `Egress.ChangesAreRecorded` | internal/api/outbound_policy_handlers.go:166-183 | the live policy changes only in a step that appended an event |
| `Egress.HistoryIsInTheLog` | internal/api/outbound_policy_handlers.go:233-244 | the events chain: each starts from the policy the one before it left |
| `Egress.RollbackRestoresIff` | internal/api/outbound_policy_handlers.go:250-258 | a rollback restores the state iff there was a row |
| `Egress.LeftoverRowPins` | internal/api/outbound_policy_handlers.go:265-292 | the row left behind overrides a later environment |
| `Supervisor.CurrentVersion` | cmd/janus/watch.go:18-36 | the maximum, or an error if there is none |
| `Supervisor.Supervise` | cmd/janus/run.go:216-275 | the loop over any sequence of ticks and exits is the fold of its step |
| `Supervisor.TickLaw` | cmd/janus/run.go:246-272 | what each answer of a poll and a fetch does to baseline and child |
| `Processes.GoAllInv` | cmd/janus/run.go:171-275 | what every interleaving of the supervisor, the child process and its goroutine keeps |
| `Processes.OneProcessAtATime` | cmd/janus/run.go:179-275 | in every interleaving at most one process is alive, and none when the next is started, also if the child exits by itself or ignores the signal |
| `Processes.NothingPanicsOrBlocks` | cmd/janus/run.go:171-175 | no done channel is closed twice, no goroutine waits for another's child, no send finds its channel full |
| `Processes.NoReceiveWaitsForever` | cmd/janus/run.go:179-191 | after the kill, and in the drain, at most five moves of the child's side are outstanding, and when none is left the receive is possible |
| `Processes.EveryInterleavingIsARun` | cmd/janus/run.go:216-275 | every interleaving is a run of the loop over events; starts and waits alternate |
| `Processes.TraceIsHonest` | cmd/janus/run.go:246-264 | the events it stands for carry the answers in the order they were got |
| `Processes.RestartedChildrenAreCurrent` | cmd/janus/run.go:246-272 | in every interleaving a restarted child's secrets are no older than the baseline |
| `Processes.InterleavingsConverge` | cmd/janus/run.go:216-275 | from the start of the program, in every interleaving: with the config at rest one good poll and refetch leave the child on its version after at most one restart, and nothing is restarted again, except exactly for a first child that missed a version |
| `Supervisor.OneChildAtATime` | cmd/janus/run.go:216-275 | the loop's log alternates: start, wait, start, wait |
| `Supervisor.BeginsInOrder` | cmd/janus/run.go:224-229 | the first start satisfies the invariant |
| `Supervisor.RestartsAreCurrent` | cmd/janus/run.go:245-272 | after a restart the secrets are no older than the baseline |
| `Supervisor.OneGoodTickSettles` | cmd/janus/run.go:245-272 | with the config at rest one good tick leaves the child on it, except exactly a first child that missed a version |
| `Supervisor.WatchConverges` | cmd/janus/run.go:216-275 | from the start of the program: settles and stays settled |
| `Supervisor.MissedVersionIsNeverPickedUp` | cmd/janus/run.go:57-217 | the first child that missed a version stays on the older secrets |
| `Search.SearchKeys` | internal/api/search_handlers.go:84-122 | the loop with its memo gives the first visible matches, truncated iff there are more |
| `Search.VisibleOne` | internal/api/search_handlers.go:84-122 | a match shows iff its config may be read |
| `Search.AnswerIs` | internal/api/search_handlers.go:84-122 | as many of the first visible matches as fit, and whether there are more |
| `Search.HiddenMatchesDoNotShow` | internal/api/search_handlers.go:84-122 | a match that may not be read can be added anywhere without changing the answer |
| `Search.OnlyTheVisibleMatters` | internal/api/search_handlers.go:84-122 | two systems that agree on the visible matches give the same answers, and only those do for every limit |
| `Search.CapShowsIff` | internal/store/secrets.go:29-52 | the answer is the one for all matches iff the cap on raw ones cut no readable match off or the page was overfull without it |
| `AuditScope.Scope.NoteAuditProject` | internal/api/audit_scope.go:55-69 | the whole new state of the holder |
| `AuditScope.Scope.SetAuditProject` | internal/api/audit_scope.go:75-83 | the whole new state of the holder |
| `AuditScope.Scope.AuditProjectOf` | internal/api/audit_scope.go:87-94 | the project held, none for the empty one |
| `AuditScope.AfterAnyCalls` | internal/api/audit_scope.go:55-83 | the fields after any sequence of calls |
| `AuditScope.AttributedProject` | internal/api/audit_scope.go:55-94 | the last project set outright, otherwise the one project noted if there is exactly one, otherwise none |

## Left out

- HTTP, JSON, SQL, cookies, cryptography: requests are calls, tables are maps, a query is a set comprehension whose rows come in any order; a failing store or audit write is a parameter.
- Order of rows and users in the access review: the results hold for every order, so which rows a cut keeps is not modelled.
- Interleavings inside one authority handler: each is one atomic step, so the never-lock-out result is for atomic handlers.
- Service tokens: every principal of the authority model is a user.
- Destroying projects and environments, which takes their rows and bindings for good under ids that are never used again; deleting and disabling users; toggling a group's project-creation capability, which concerns only projects created later.
- The audit log of the authority handlers: whether the write succeeds is a parameter that decides the reply.
- handleAccessForUser: the same union over one user's bindings as a row of the matrix.
- The expiry of idempotency records: a row stays until it is released.
- RateLimit.IpRateLimiter.Allow: real arithmetic instead of floating point, and one clock reading per call.
- EditDistance.NearestKnownEnv: distances stay below the initial bound of 2^30.
- The checks of a batch for empty and repeated keys, promotion plans, pipelines and locked keys: a write is one commit that succeeds or fails.
- A promotion that creates its target: it commits directly even in a protected environment, so ProtectedVersionsHaveTwoParties is about configs that exist.
- Rollback, rotation and scheduled writes as further doors to a config.
- sortedKeys: the printer is proved for every order of the keys.
- The base64 text of a cursor: a cursor is the key it stands for.
- The hash chain and MAC of the audit log: whether the anchor checks out is a parameter.
- Parsing of allowlists: policies carry lists in normal form, and rows edited outside the program are not modelled; a crash between the writes of one egress change neither.
- Supervisor.Supervise: terminating, waiting and starting are one step there; Processes takes them apart and shows that every interleaving is such a run. Exit codes and output streams are not modelled.
- Ordering and pattern matching of search candidates.
