/** What every run of the authority handlers keeps: nobody is locked out, durable authority is never
    manufactured from a break-glass elevation, and elevations end.
 */
module AuthorityRuns {
  import opened Options
  import opened Authz
  import opened Authority
  import opened Handlers

  datatype Step =
    | MemberPut(actor: Id, sc: Scope, subject: Id, role: Role, auditOk: bool)
    | MemberDelete(actor: Id, sc: Scope, subject: Id, auditOk: bool)
    | GroupPut(actor: Id, sc: Scope, g: Id, role: Role, auditOk: bool)
    | GroupUnbind(actor: Id, sc: Scope, g: Id, auditOk: bool)
    | GroupCreate(actor: Id, g: Id, group: Group)
    | GroupDelete(actor: Id, g: Id, auditOk: bool)
    | GroupMemberAdd(actor: Id, g: Id, u: Id, auditOk: bool)
    | GroupMemberRemove(actor: Id, g: Id, u: Id, auditOk: bool)
    | OidcSync(u: Id, claimed: set<Id>)
    | Activate(actor: Id, sc: Scope, role: Role, ttl: Option<int>, reason: string, id: Id, auditOk: bool, undoOk: bool)
    | GrantRevoke(actor: Id, id: Id, auditOk: bool)
    | RevokeAll(actor: Id, target: Id, loaded: set<Scope>)
    | CreateProject(actor: Id, pid: Id, wanted: Option<Id>, creating: seq<Id>, seeding: Seeding, auditOk: bool)
    | CreateEnv(actor: Id, pid: Id, eid: Id)
    | SetTrashed(actor: Id, sc: Scope, delete: bool, auditOk: bool)
    | UserCreate(u: Id)
    | Init(u: Id, grantOk: bool)
    | Boot(oldest: Id)
    | Tick(seconds: nat)

  predicate TouchesBindings(step: Step) {
    step.MemberPut? || step.MemberDelete? || step.GroupPut? || step.GroupUnbind? || step.RevokeAll?
  }

  predicate TouchesGroups(step: Step) {
    step.GroupCreate? || step.GroupDelete? || step.GroupMemberAdd? || step.GroupMemberRemove? || step.OidcSync?
  }

  predicate TouchesGrants(step: Step) { step.Activate? || step.GrantRevoke? }

  predicate TouchesProjects(step: Step) { step.CreateProject? || step.CreateEnv? || step.SetTrashed? }

  predicate TouchesSystem(step: Step) { step.UserCreate? || step.Init? || step.Boot? || step.Tick? }

  ghost function ApplyBinding(c: Config, st: State, step: Step): State
    requires TouchesBindings(step)
  {
    match step
    case MemberPut(a, sc, u, r, ok) => MemberPutStep(c, st, a, sc, u, r, ok).0
    case MemberDelete(a, sc, u, ok) => MemberDeleteStep(c, st, a, sc, u, ok).0
    case GroupPut(a, sc, g, r, ok) => GroupPutStep(c, st, a, sc, g, r, ok).0
    case GroupUnbind(a, sc, g, ok) => GroupUnbindStep(c, st, a, sc, g, ok).0
    case RevokeAll(a, u, loaded) => RevokeAllStep(c, st, a, u, loaded)
  }

  ghost function ApplyGrouping(c: Config, st: State, step: Step): State
    requires TouchesGroups(step)
  {
    match step
    case GroupCreate(a, g, group) =>
      if g !in st.groups && Can(c, st, a, GroupManage, INSTANCE) then st.(groups := st.groups[g := group]) else st
    case GroupDelete(a, g, ok) => GroupDeleteStep(c, st, a, g, ok).0
    case GroupMemberAdd(a, g, u, ok) => GroupMemberAddStep(c, st, a, g, u, ok).0
    case GroupMemberRemove(a, g, u, ok) => GroupMemberRemoveStep(c, st, a, g, u, ok).0
    case OidcSync(u, claimed) => OidcSyncStep(st, u, claimed)
  }

  ghost function ApplyGranting(c: Config, st: State, step: Step): State
    requires TouchesGrants(step)
  {
    match step
    case Activate(a, sc, r, ttl, reason, id, ok, undo) => ActivateStep(c, st, a, sc, r, ttl, reason, id, ok, undo).0
    case GrantRevoke(a, id, ok) => GrantRevokeStep(c, st, a, id, ok).0
  }

  ghost function ApplyBuilding(c: Config, st: State, step: Step): State
    requires TouchesProjects(step)
  {
    match step
    case CreateProject(a, pid, wanted, groups, seeding, ok) => ProjectCreateStep(c, st, a, pid, wanted, groups,
        seeding, ok).0
    case CreateEnv(a, pid, eid) => EnvCreateStep(c, st, a, pid, eid)
    case SetTrashed(a, sc, delete, ok) => TrashStep(c, st, a, sc, delete, ok).0
  }

  ghost function ApplyRunning(st: State, step: Step): State
    requires TouchesSystem(step)
  {
    match step
    case UserCreate(u) => st.(users := st.users + {u})
    case Init(u, grantOk) => InitStep(st, u, grantOk)
    case Boot(oldest) => SweepStep(ReconcileStep(st, oldest))
    case Tick(s) => st.(now := st.now + s)
  }

  ghost function Apply(c: Config, st: State, step: Step): State {
    if TouchesBindings(step) then ApplyBinding(c, st, step)
    else if TouchesGroups(step) then ApplyGrouping(c, st, step)
    else if TouchesGrants(step) then ApplyGranting(c, st, step)
    else if TouchesProjects(step) then ApplyBuilding(c, st, step)
    else ApplyRunning(st, step)
  }

  /** The steps without a handler of their own in the model: a new group under the right to manage groups ... */
  lemma GroupCreateLaw(c: Config, st: State, actor: Id, g: Id, group: Group)
    ensures var after := Apply(c, st, GroupCreate(actor, g, group));
      if g !in st.groups && Can(c, st, actor, GroupManage, INSTANCE)
      then after == st.(groups := st.groups[g := group]) else after == st
  {
    hide Can, ApplyBinding, ApplyGranting, ApplyBuilding, ApplyRunning, GroupDeleteStep, GroupMemberAddStep,
      GroupMemberRemoveStep, OidcSyncStep;
  }

  /** ... a new user, the passing of time, and a boot, which reconciles and then sweeps. */
  lemma SystemLaw(c: Config, st: State, u: Id, seconds: nat)
    ensures Apply(c, st, UserCreate(u)) == st.(users := st.users + {u})
    ensures Apply(c, st, Tick(seconds)) == st.(now := st.now + seconds)
    ensures Apply(c, st, Boot(u)) == SweepStep(ReconcileStep(st, u))
  {
    hide ApplyBinding, ApplyGrouping, ApplyGranting, ApplyBuilding, SweepStep, ReconcileStep, InitStep;
  }

  ghost function Run(c: Config, st: State, steps: seq<Step>): State
    decreases |steps|
  {
    if steps == [] then st else Run(c, Apply(c, st, steps[0]), steps[1..])
  }

  /** The creating groups a project-creation step was given are the actor's own. */
  ghost predicate WellFormed(st: State, step: Step) {
    step.CreateProject? ==> forall g :: g in step.creating ==> CreatorGroup(st, step.actor, g)
  }

  ghost predicate WellFormedRun(c: Config, st: State, steps: seq<Step>)
    decreases |steps|
  {
    steps == [] || (WellFormed(st, steps[0]) && WellFormedRun(c, Apply(c, st, steps[0]), steps[1..]))
  }

  // ---------- where bindings come from ----------

  /** Both kinds of binding, by who carries them. */
  datatype Holder = User(u: Id) | Members(g: Id)

  predicate Binds(st: State, h: Holder, sc: Scope, r: Role) {
    match h
    case User(u) => Direct(st, u, sc, r)
    case Members(g) => GroupBound(st, g, sc, r)
  }

  /** `actor` handed `h` the role `r` at `sc`, being a manager there and holding at least that much through
      bindings. */
  ghost predicate Handed(c: Config, st: State, step: Step, h: Holder, sc: Scope, r: Role) {
    && (step.MemberPut? || step.GroupPut?)
    && h == (if step.MemberPut? then User(step.subject) else Members(step.g))
    && sc == step.sc && r == step.role && r != NoRole
    && (h.Members? ==> r != Owner && h.g in st.groups)
    && ScopeExists(st, sc)
    && Can(c, st, step.actor, MemberManage, ResourceOf(st, sc))
    && AtLeast(BoundRole(c, st, step.actor, ResourceOf(st, sc)), r)
  }

  /** `h` got `r` at `sc` by seeding the new project: the creator, or the group it was given to. */
  ghost predicate SeededWith(st: State, step: Step, h: Holder, sc: Scope, r: Role) {
    && step.CreateProject?
    && step.pid !in st.projects && sc == ProjectScope(step.pid)
    && (if h.User? then h.u == step.actor && r == Owner else r == Admin && h.g in st.groups)
  }

  /** The step makes the first instance owner: at init when there are no users, at boot when there is no
      owner. */
  ghost predicate Founds(st: State, step: Step, u: Id) {
    || (step.Init? && st.users == {} && step.u == u && step.grantOk)
    || (step.Boot? && !HasOwner(st) && step.oldest == u && u in st.users)
  }

  /** There are only four ways a binding comes into being: handed out under the cap, seeded in a new
      project, at init, and at boot. */
  lemma BindingOrigin(c: Config, st: State, step: Step, h: Holder, sc: Scope, r: Role)
    requires WellFormed(st, step) && Binds(Apply(c, st, step), h, sc, r)
    ensures || Binds(st, h, sc, r)
            || Handed(c, st, step, h, sc, r)
            || SeededWith(st, step, h, sc, r)
            || (h.User? && Founds(st, step, h.u) && sc == InstanceScope && r == Owner)
    ensures Binds(st, h, sc, r) || ScopeExists(Apply(c, st, step), sc)
  {
    hide ApplyBinding, ApplyGrouping, ApplyGranting, ApplyBuilding, ApplyRunning, Handed, SeededWith, Founds,
        WellFormed, Binds;
    if TouchesBindings(step) { BindingStepOrigin(c, st, step, h, sc, r); }
    else if TouchesGroups(step) { GroupingOnlyRemoves(c, st, step, h, sc, r); }
    else if TouchesGrants(step) { GrantingFrame(c, st, step); BindsSame(st, Apply(c, st, step), h, sc, r); }
    else if TouchesProjects(step) { BuildingOrigin(c, st, step, h, sc, r); }
    else { RunningOrigin(st, step, h, sc, r); }
  }

  lemma BindsSame(st: State, after: State, h: Holder, sc: Scope, r: Role)
    requires after.direct == st.direct && after.groupBindings == st.groupBindings && Binds(after, h, sc, r)
    ensures Binds(st, h, sc, r)
  {
  }

  lemma BindingStepOrigin(c: Config, st: State, step: Step, h: Holder, sc: Scope, r: Role)
    requires TouchesBindings(step) && Binds(ApplyBinding(c, st, step), h, sc, r)
    ensures Binds(st, h, sc, r) || (Handed(c, st, step, h, sc, r) && ScopeExists(ApplyBinding(c, st, step), sc))
  {
    hide Binds, Handed, MemberPutStep, MemberDeleteStep, GroupPutStep, GroupUnbindStep, RevokeAllStep;
    match step
    case MemberPut(a, s, u, q, ok) => HandedByMemberPut(c, st, a, s, u, q, ok, h, sc, r);
    case GroupPut(a, s, g, q, ok) => HandedByGroupPut(c, st, a, s, g, q, ok, h, sc, r);
    case MemberDelete(a, s, u, ok) => DeleteOnlyRemoves(c, st, a, s, u, ok, h, sc, r);
    case GroupUnbind(a, s, g, ok) => UnbindOnlyRemoves(c, st, a, s, g, ok, h, sc, r);
    case RevokeAll(a, u, loaded) => RevokeAllOnlyRemoves(c, st, a, u, loaded, h, sc, r);
  }

  lemma HandedByMemberPut(c: Config, st: State, a: Id, s: Scope, u: Id, q: Role, ok: bool, h: Holder, sc: Scope,
      r: Role)
    requires Binds(MemberPutStep(c, st, a, s, u, q, ok).0, h, sc, r)
    ensures Binds(st, h, sc, r) ||
      (Handed(c, st, MemberPut(a, s, u, q, ok), h, sc, r) && ScopeExists(MemberPutStep(c, st, a, s, u, q, ok).0, sc))
  {
    hide Can, BoundRole, IsLastOwner;
  }

  lemma HandedByGroupPut(c: Config, st: State, a: Id, s: Scope, g: Id, q: Role, ok: bool, h: Holder, sc: Scope, r: Role)
    requires Binds(GroupPutStep(c, st, a, s, g, q, ok).0, h, sc, r)
    ensures Binds(st, h, sc, r) ||
      (Handed(c, st, GroupPut(a, s, g, q, ok), h, sc, r) && ScopeExists(GroupPutStep(c, st, a, s, g, q, ok).0, sc))
  {
    hide Can, BoundRole;
  }

  lemma DeleteOnlyRemoves(c: Config, st: State, a: Id, s: Scope, u: Id, ok: bool, h: Holder, sc: Scope, r: Role)
    requires Binds(MemberDeleteStep(c, st, a, s, u, ok).0, h, sc, r)
    ensures Binds(st, h, sc, r)
  {
    hide Can, IsLastOwner;
  }

  lemma UnbindOnlyRemoves(c: Config, st: State, a: Id, s: Scope, g: Id, ok: bool, h: Holder, sc: Scope, r: Role)
    requires Binds(GroupUnbindStep(c, st, a, s, g, ok).0, h, sc, r)
    ensures Binds(st, h, sc, r)
  {
    hide Can;
  }

  lemma RevokeAllOnlyRemoves(c: Config, st: State, a: Id, u: Id, loaded: set<Scope>, h: Holder, sc: Scope, r: Role)
    requires Binds(RevokeAllStep(c, st, a, u, loaded), h, sc, r)
    ensures Binds(st, h, sc, r)
  {
    hide Revocable, BlocksLockOut;
  }

  lemma GroupingOnlyRemoves(c: Config, st: State, step: Step, h: Holder, sc: Scope, r: Role)
    requires TouchesGroups(step) && Binds(ApplyGrouping(c, st, step), h, sc, r)
    ensures Binds(st, h, sc, r)
  {
    hide Can;
  }

  lemma BuildingOrigin(c: Config, st: State, step: Step, h: Holder, sc: Scope, r: Role)
    requires TouchesProjects(step) && WellFormed(st, step) && Binds(ApplyBuilding(c, st, step), h, sc, r)
    ensures Binds(st, h, sc, r) || (SeededWith(st, step, h, sc, r) && ScopeExists(ApplyBuilding(c, st, step), sc))
  {
    hide ProjectCreateStep, EnvCreateStep, TrashStep, SeededWith, WellFormed, Binds;
    match step
    case CreateProject(_, _, _, _, _, _) => SeededByCreate(c, st, step, h, sc, r);
    case CreateEnv(a, pid, eid) => CreateEnvFrame(c, st, a, pid, eid); BindsSame(st,
        EnvCreateStep(c, st, a, pid, eid), h, sc, r);
    case SetTrashed(a, s, delete, ok) => TrashFrame(c, st, a, s, delete, ok); BindsSame(st,
        TrashStep(c, st, a, s, delete, ok).0, h, sc, r);
  }

  lemma SeededByCreate(c: Config, st: State, step: Step, h: Holder, sc: Scope, r: Role)
    requires step.CreateProject? && WellFormed(st, step) && Binds(Created(c, st, step), h, sc, r)
    ensures Binds(st, h, sc, r) || (SeededWith(st, step, h, sc, r) && ScopeExists(Created(c, st, step), sc))
  {
    hide Binds, SeededWith, ProjectCreateStep, WellFormed;
    if Created(c, st, step) != st {
      var owner := CreatedIsSeeded(c, st, step);
      SeededAdds(st, step, owner, h, sc, r);
    }
  }

  ghost function Created(c: Config, st: State, step: Step): State
    requires step.CreateProject?
  {
    ProjectCreateStep(c, st, step.actor, step.pid, step.wanted, step.creating, step.seeding, step.auditOk).0
  }

  lemma CreatedIsSeeded(c: Config, st: State, step: Step) returns (owner: Choice)
    requires step.CreateProject? && WellFormed(st, step) && Created(c, st, step) != st
    ensures Created(c, st, step) == Seeded(st, step.pid, owner, step.actor, step.seeding) && step.pid !in st.projects
    ensures owner.OwnedBy? ==> owner.g in st.groups
  {
    hide Can, OwnerGroup, Seeded;
    var allowed := Can(c, st, step.actor, ProjectCreate, INSTANCE);
    owner := OwnerGroup(st, step.wanted, allowed, step.creating);
    OwnerGroupExists(st, step.actor, step.wanted, allowed, step.creating);
  }

  lemma SeededAdds(st: State, step: Step, owner: Choice, h: Holder, sc: Scope, r: Role)
    requires step.CreateProject? && step.pid !in st.projects && (owner.OwnedBy? ==> owner.g in st.groups)
    requires Binds(Seeded(st, step.pid, owner, step.actor, step.seeding), h, sc, r)
    ensures Binds(st, h, sc, r) ||
      (SeededWith(st, step, h, sc, r) && ScopeExists(Seeded(st, step.pid, owner, step.actor, step.seeding), sc))
  {
  }

  /** A project is given to an existing group, and by a delegated creator only to a creating group of
      their own. */
  lemma OwnerGroupExists(st: State, actor: Id, wanted: Option<Id>, instanceAllowed: bool, groups: seq<Id>)
    requires forall g :: g in groups ==> CreatorGroup(st, actor, g)
    ensures var owner := OwnerGroup(st, wanted, instanceAllowed, groups);
      owner.OwnedBy? ==> owner.g in st.groups && (!instanceAllowed ==> CreatorGroup(st, actor, owner.g))
  {
    assert |groups| > 0 ==> groups[0] in groups;
  }

  lemma RunningOrigin(st: State, step: Step, h: Holder, sc: Scope, r: Role)
    requires TouchesSystem(step) && Binds(ApplyRunning(st, step), h, sc, r)
    ensures Binds(st, h, sc, r) || (h.User? && Founds(st, step, h.u) && sc == InstanceScope && r == Owner)
  {
    hide SweepStep, ReconcileStep, InitStep, HasOwner;
    match step
    case Boot(oldest) =>
      BootFrame(st, oldest);
      ReconcileOrigin(st, oldest);
    case Init(u, grantOk) => InitFrame(st, u, grantOk);
    case _ =>
  }

  lemma ReconcileOrigin(st: State, oldest: Id)
    ensures var after := ReconcileStep(st, oldest).direct;
      after == st.direct || (after == st.direct[(oldest, InstanceScope) := Owner] && !HasOwner(st) &&
          oldest in st.users)
  {
    hide Owners, HasOwner;
    if |Owners(st)| == 0 { NoOwnerMeansNone(st); }
  }

  lemma NoOwnerMeansNone(st: State)
    requires |Owners(st)| == 0
    ensures !HasOwner(st)
  {
    if u :| IsOwner(st, u) { OwnersAre(st, u); }
  }

  // ---------- what each step leaves alone ----------

  /** Projects, environments and the clock are as they were. */
  predicate SameGround(st: State, after: State) {
    after.projects == st.projects && after.envs == st.envs && after.now == st.now
  }

  predicate SameGroups(st: State, after: State) { after.groups == st.groups && after.members == st.members }

  lemma BindingFrame(c: Config, st: State, step: Step)
    requires TouchesBindings(step)
    ensures var after := ApplyBinding(c, st, step);
        SameGround(st, after) && SameGroups(st, after) && after.grants == st.grants
  {
    hide MemberPutStep, MemberDeleteStep, GroupPutStep, GroupUnbindStep, RevokeAllStep;
    match step
    case MemberPut(a, sc, u, r, ok) => MemberPutFrame(c, st, a, sc, u, r, ok);
    case MemberDelete(a, sc, u, ok) => MemberDeleteFrame(c, st, a, sc, u, ok);
    case GroupPut(a, sc, g, r, ok) => GroupPutFrame(c, st, a, sc, g, r, ok);
    case GroupUnbind(a, sc, g, ok) => GroupUnbindFrame(c, st, a, sc, g, ok);
    case RevokeAll(a, u, loaded) => RevokeAllFrame(c, st, a, u, loaded);
  }

  lemma MemberPutFrame(c: Config, st: State, a: Id, sc: Scope, u: Id, r: Role, ok: bool)
    ensures var after := MemberPutStep(c, st, a, sc, u, r, ok).0;
      SameGround(st, after) && SameGroups(st, after) && after.grants == st.grants
  {
    hide Can, BoundRole, IsLastOwner;
  }

  lemma MemberDeleteFrame(c: Config, st: State, a: Id, sc: Scope, u: Id, ok: bool)
    ensures var after := MemberDeleteStep(c, st, a, sc, u, ok).0;
      SameGround(st, after) && SameGroups(st, after) && after.grants == st.grants
  {
    hide Can, IsLastOwner;
  }

  lemma GroupPutFrame(c: Config, st: State, a: Id, sc: Scope, g: Id, r: Role, ok: bool)
    ensures var after := GroupPutStep(c, st, a, sc, g, r, ok).0;
      SameGround(st, after) && SameGroups(st, after) && after.grants == st.grants && after.direct == st.direct
  {
    hide Can, BoundRole;
  }

  lemma GroupUnbindFrame(c: Config, st: State, a: Id, sc: Scope, g: Id, ok: bool)
    ensures var after := GroupUnbindStep(c, st, a, sc, g, ok).0;
      SameGround(st, after) && SameGroups(st, after) && after.grants == st.grants && after.direct == st.direct
  {
    hide Can;
  }

  lemma RevokeAllFrame(c: Config, st: State, a: Id, u: Id, loaded: set<Scope>)
    ensures var after := RevokeAllStep(c, st, a, u, loaded);
      SameGround(st, after) && SameGroups(st, after) && after.grants == st.grants
  {
    hide Revocable, BlocksLockOut;
  }

  lemma GroupingFrame(c: Config, st: State, step: Step)
    requires TouchesGroups(step)
    ensures var after := ApplyGrouping(c, st, step);
      SameGround(st, after) && after.grants == st.grants && after.direct == st.direct
  {
    hide Can, WithoutGroup, GroupMemberAddStep, GroupMemberRemoveStep, OidcSyncStep;
    match step
    case GroupDelete(_, g, _) => WithoutGroupFrame(st, g);
    case GroupMemberAdd(a, g, u, ok) => MemberAddFrame(c, st, a, g, u, ok);
    case GroupMemberRemove(a, g, u, ok) => MemberRemoveFrame(c, st, a, g, u, ok);
    case OidcSync(u, claimed) => OidcSyncFrame(st, u, claimed);
    case GroupCreate(_, _, _) =>
  }

  lemma MemberAddFrame(c: Config, st: State, a: Id, g: Id, u: Id, ok: bool)
    ensures var after := GroupMemberAddStep(c, st, a, g, u, ok).0;
      SameGround(st, after) && after.grants == st.grants && after.direct == st.direct && after.groups == st.groups
  {
    hide Can;
  }

  lemma MemberRemoveFrame(c: Config, st: State, a: Id, g: Id, u: Id, ok: bool)
    ensures var after := GroupMemberRemoveStep(c, st, a, g, u, ok).0;
      SameGround(st, after) && after.grants == st.grants && after.direct == st.direct && after.groups == st.groups
  {
    hide Can;
  }

  lemma OidcSyncFrame(st: State, u: Id, claimed: set<Id>)
    ensures var after := OidcSyncStep(st, u, claimed);
      SameGround(st, after) && after.grants == st.grants && after.direct == st.direct && after.groups == st.groups
  {
  }

  lemma WithoutGroupFrame(st: State, g: Id)
    ensures var after := WithoutGroup(st, g);
      SameGround(st, after) && after.grants == st.grants && after.direct == st.direct
  {
  }

  lemma GrantingFrame(c: Config, st: State, step: Step)
    requires TouchesGrants(step)
    ensures var after := ApplyGranting(c, st, step);
      SameGround(st, after) && SameGroups(st, after) && after.direct == st.direct &&
          after.groupBindings == st.groupBindings
  {
    hide ActivateStep, GrantRevokeStep;
    match step
    case Activate(a, sc, r, ttl, reason, id, ok, undo) => ActivateFrame(c, st, a, sc, r, ttl, reason, id, ok, undo);
    case GrantRevoke(a, id, ok) => GrantRevokeFrame(c, st, a, id, ok);
  }

  lemma ActivateFrame(c: Config, st: State, a: Id, sc: Scope, r: Role, ttl: Option<int>, reason: string, id: Id,
      ok: bool, undo: bool)
    ensures var after := ActivateStep(c, st, a, sc, r, ttl, reason, id, ok, undo).0;
      SameGround(st, after) && SameGroups(st, after) && after.direct == st.direct &&
          after.groupBindings == st.groupBindings
  {
    hide BoundRole, TrimSpace, ByteLength;
  }

  lemma GrantRevokeFrame(c: Config, st: State, a: Id, id: Id, ok: bool)
    ensures var after := GrantRevokeStep(c, st, a, id, ok).0;
      SameGround(st, after) && SameGroups(st, after) && after.direct == st.direct &&
          after.groupBindings == st.groupBindings
  {
    hide Can;
  }

  lemma CreateEnvFrame(c: Config, st: State, a: Id, pid: Id, eid: Id)
    ensures var after := EnvCreateStep(c, st, a, pid, eid);
      && (after.envs == st.envs || (after.envs == st.envs[eid := pid] && eid !in st.envs && pid in st.projects))
      && after.projects == st.projects && after.now == st.now
      && SameGroups(st, after) && after.direct == st.direct && after.groupBindings == st.groupBindings &&
          after.grants == st.grants
  {
    hide Can;
  }

  lemma TrashFrame(c: Config, st: State, a: Id, sc: Scope, delete: bool, ok: bool)
    ensures var after := TrashStep(c, st, a, sc, delete, ok).0;
      && SameGround(st, after) && SameGroups(st, after) && after.direct == st.direct &&
          after.groupBindings == st.groupBindings
      && after.grants == st.grants
  {
    hide Can;
  }

  lemma CreateProjectFrame(c: Config, st: State, step: Step)
    requires step.CreateProject?
    ensures var after := Created(c, st, step);
      && st.projects <= after.projects && after.envs == st.envs && after.now == st.now
      && SameGroups(st, after) && after.grants == st.grants && (forall v :: IsOwner(st, v) ==> IsOwner(after, v))
  {
    hide Can, OwnerGroup, Seeded, IsOwner;
    var owner := OwnerGroup(st, step.wanted, Can(c, st, step.actor, ProjectCreate, INSTANCE), step.creating);
    SeededFrame(st, step.pid, owner, step.actor, step.seeding);
    assert Created(c, st, step) == st || Created(c, st, step) == Seeded(st, step.pid, owner, step.actor, step.seeding);
  }

  lemma SeededFrame(st: State, pid: Id, owner: Choice, creator: Id, seeding: Seeding)
    ensures var after := Seeded(st, pid, owner, creator, seeding);
      && st.projects <= after.projects && after.envs == st.envs && after.now == st.now
      && SameGroups(st, after) && after.grants == st.grants && (forall v :: IsOwner(st, v) ==> IsOwner(after, v))
  {
  }

  lemma RunningFrame(st: State, step: Step)
    requires TouchesSystem(step)
    ensures var after := ApplyRunning(st, step);
      && after.projects == st.projects && after.envs == st.envs && st.now <= after.now && SameGroups(st, after)
      && (!step.Boot? ==> after.grants == st.grants)
  {
    hide SweepStep, ReconcileStep, InitStep;
    match step
    case Boot(oldest) => BootFrame(st, oldest);
    case Init(u, grantOk) => InitFrame(st, u, grantOk);
    case _ =>
  }

  lemma InitFrame(st: State, u: Id, grantOk: bool)
    ensures var after := InitStep(st, u, grantOk);
      && SameGround(st, after) && SameGroups(st, after) && after.grants == st.grants &&
          after.groupBindings == st.groupBindings
      && (after.direct == st.direct || (st.users == {} && grantOk &&
          after.direct == st.direct[(u, InstanceScope) := Owner]))
  {
  }

  lemma BootFrame(st: State, oldest: Id)
    ensures var after := SweepStep(ReconcileStep(st, oldest));
      SameGround(st, after) && SameGroups(st, after) && after.direct == ReconcileStep(st, oldest).direct &&
          after.groupBindings == st.groupBindings
  {
    hide Owners;
  }

  /** Projects and environments are only ever added, and time only moves on. */
  ghost predicate Grows(st: State, after: State) {
    && st.projects <= after.projects
    && (forall e :: e in st.envs ==> e in after.envs && after.envs[e] == st.envs[e])
    && (forall e :: e in after.envs && e !in st.envs ==> after.envs[e] in st.projects)
    && st.now <= after.now
  }

  lemma BuildingGrows(c: Config, st: State, step: Step)
    requires TouchesProjects(step)
    ensures Grows(st, ApplyBuilding(c, st, step))
    ensures var after := ApplyBuilding(c, st, step);
      SameGroups(st, after) && after.grants == st.grants
  {
    hide ProjectCreateStep, EnvCreateStep, TrashStep;
    match step
    case CreateProject(_, _, _, _, _, _) => CreateProjectFrame(c, st, step);
    case CreateEnv(a, pid, eid) => CreateEnvFrame(c, st, a, pid, eid);
    case SetTrashed(a, sc, delete, ok) => TrashFrame(c, st, a, sc, delete, ok);
  }

  lemma TablesGrow(c: Config, st: State, step: Step)
    ensures Grows(st, Apply(c, st, step))
  {
    hide ApplyBinding, ApplyGrouping, ApplyGranting, ApplyBuilding, ApplyRunning;
    if TouchesBindings(step) { BindingFrame(c, st, step); }
    else if TouchesGroups(step) { GroupingFrame(c, st, step); }
    else if TouchesGrants(step) { GrantingFrame(c, st, step); }
    else if TouchesProjects(step) { BuildingGrows(c, st, step); }
    else { RunningFrame(st, step); }
  }

  /** Only the group steps touch groups and memberships, and only grants and boots touch grants. */
  lemma TablesStay(c: Config, st: State, step: Step)
    ensures !TouchesGroups(step) ==> Apply(c, st, step).members == st.members && Apply(c, st, step).groups == st.groups
    ensures !TouchesGrants(step) && !step.Boot? ==> Apply(c, st, step).grants == st.grants
  {
    hide ApplyBinding, ApplyGrouping, ApplyGranting, ApplyBuilding;
    if TouchesBindings(step) { BindingFrame(c, st, step); }
    else if TouchesGroups(step) { GroupingFrame(c, st, step); }
    else if TouchesGrants(step) { GrantingFrame(c, st, step); }
    else if TouchesProjects(step) { BuildingGrows(c, st, step); }
    else { RunningFrame(st, step); }
  }

  // ---------- where memberships and grants come from ----------

  /** Membership comes from an edit or from a login. */
  lemma MembershipOrigin(c: Config, st: State, step: Step, g: Id, u: Id)
    requires (g, u) in Apply(c, st, step).members
    ensures (g, u) in st.members
         || (step.GroupMemberAdd? && (step.g, step.u) == (g, u) && g in st.groups)
         || (step.OidcSync? && step.u == u && g in step.claimed && g in st.groups)
  {
    TablesStay(c, st, step);
    hide ApplyBinding, ApplyGranting, ApplyBuilding, ApplyRunning;
    if TouchesGroups(step) {
      GroupingMembers(c, st, step, g, u);
    }
  }

  lemma GroupingMembers(c: Config, st: State, step: Step, g: Id, u: Id)
    requires TouchesGroups(step) && (g, u) in ApplyGrouping(c, st, step).members
    ensures (g, u) in st.members
         || (step.GroupMemberAdd? && (step.g, step.u) == (g, u) && g in st.groups)
         || (step.OidcSync? && step.u == u && g in step.claimed && g in st.groups)
  {
    hide Can;
  }

  /** A group goes only with all it carries. */
  lemma GroupsGo(c: Config, st: State, step: Step, g: Id)
    ensures g in st.groups && g !in Apply(c, st, step).groups ==>
      && (forall u :: (g, u) !in Apply(c, st, step).members)
      && (forall sc, r :: !GroupBound(Apply(c, st, step), g, sc, r))
  {
    if g in st.groups && g !in Apply(c, st, step).groups {
      TablesStay(c, st, step);
      hide ApplyBinding, ApplyGranting, ApplyBuilding, ApplyRunning, ApplyGrouping;
      GroupingGoes(c, st, step, g);
    }
  }

  lemma GroupingGoes(c: Config, st: State, step: Step, g: Id)
    requires TouchesGroups(step)
    ensures g in st.groups && g !in ApplyGrouping(c, st, step).groups ==>
      && (forall u :: (g, u) !in ApplyGrouping(c, st, step).members)
      && (forall sc, r :: !GroupBound(ApplyGrouping(c, st, step), g, sc, r))
  {
    hide Can, WithoutGroup, GroupMemberAddStep, GroupMemberRemoveStep, OidcSyncStep;
    match step
    case GroupDelete(_, h, _) => WithoutGroupGoes(st, h);
    case GroupMemberAdd(a, h, u, ok) => MemberAddFrame(c, st, a, h, u, ok);
    case GroupMemberRemove(a, h, u, ok) => MemberRemoveFrame(c, st, a, h, u, ok);
    case OidcSync(u, claimed) => OidcSyncFrame(st, u, claimed);
    case GroupCreate(_, _, _) =>
  }

  lemma WithoutGroupGoes(st: State, g: Id)
    ensures var after := WithoutGroup(st, g);
      && (forall h :: h in st.groups && h != g ==> h in after.groups)
      && (forall u :: (g, u) !in after.members) && (forall sc, r :: !GroupBound(after, g, sc, r))
  {
  }

  /** A grant is opened by an activation, for no longer than the cap, and is otherwise only ever closed. */
  lemma GrantOrigin(c: Config, st: State, step: Step, id: Id)
    requires c.Valid() && id in Apply(c, st, step).grants
    ensures var was, after := st.grants, Apply(c, st, step).grants[id];
      || (id in was && (after == was[id] || after == was[id].(revoked := true)))
      || (step.Activate? && id !in was && after.role != NoRole && after.activatedAt == st.now &&
          after.expiresAt <= st.now + c.maxTTL)
  {
    TablesStay(c, st, step);
    hide ApplyBinding, ApplyGrouping, ApplyBuilding, ActivateStep, GrantRevokeStep, SweepStep, ReconcileStep;
    match step
    case Activate(a, sc, r, ttl, reason, k, ok, undo) => GrantOpened(c, st, a, sc, r, ttl, reason, k, ok, undo, id);
    case GrantRevoke(a, k, ok) => GrantClosed(c, st, a, k, ok, id);
    case Boot(oldest) => GrantSwept(st, oldest, id);
    case _ =>
  }

  lemma GrantOpened(c: Config, st: State, a: Id, sc: Scope, r: Role, ttl: Option<int>, reason: string, k: Id,
      ok: bool, undo: bool, id: Id)
    requires c.Valid() && id in ActivateStep(c, st, a, sc, r, ttl, reason, k, ok, undo).0.grants
    ensures var was, after := st.grants, ActivateStep(c, st, a, sc, r, ttl, reason, k, ok, undo).0.grants[id];
      || (id in was && after == was[id])
      || (id !in was && after.role != NoRole && after.activatedAt == st.now && after.expiresAt <= st.now + c.maxTTL)
  {
    hide BoundRole, TrimSpace, ByteLength;
  }

  lemma GrantClosed(c: Config, st: State, a: Id, k: Id, ok: bool, id: Id)
    requires id in GrantRevokeStep(c, st, a, k, ok).0.grants
    ensures id in st.grants &&
      var g := GrantRevokeStep(c, st, a, k, ok).0.grants[id]; g == st.grants[id] || g == st.grants[id].(revoked := true)
  {
    hide Can;
  }

  lemma GrantSwept(st: State, oldest: Id, id: Id)
    requires id in SweepStep(ReconcileStep(st, oldest)).grants
    ensures id in st.grants &&
      var g := SweepStep(ReconcileStep(st, oldest)).grants[id];
          g == st.grants[id] || g == st.grants[id].(revoked := true)
  {
    hide Owners;
  }

  /** An elevation is the actor's own, starts from a role they hold there through bindings and goes strictly
      above it; one that could not be recorded is not left active if the undo goes through. */
  lemma ActivationRaises(c: Config, st: State, step: Step)
    requires step.Activate? && step.id !in st.grants && step.id in Apply(c, st, step).grants
    ensures var grant, held := Apply(c, st, step).grants[step.id],
        BoundRole(c, st, step.actor, ResourceOf(st, step.sc));
      && grant.user == step.actor && grant.scope == step.sc && Live(st, step.sc)
      && held != NoRole && StrictlyAbove(grant.role, held)
    ensures Active(Apply(c, st, step), step.id) ==> step.auditOk || !step.undoOk
  {
    hide BoundRole, TrimSpace, ByteLength, ApplyBinding, ApplyGrouping, ApplyBuilding, ApplyRunning, GrantRevokeStep;
  }

  // ---------- the tables stay valid ----------

  lemma NewBindingsAreOk(c: Config, st: State, step: Step, h: Holder, sc: Scope, r: Role)
    ensures Handed(c, st, step, h, sc, r) || SeededWith(st, step, h, sc, r) ==>
      r != NoRole && (h.Members? ==> r != Owner && h.g in st.groups)
  {
    hide BoundRole;
  }

  lemma StepBindingsOk(c: Config, st: State, step: Step)
    requires Valid(c, st) && WellFormed(st, step)
    ensures DirectOk(Apply(c, st, step)) && GroupBindingsOk(Apply(c, st, step))
  {
    hide Apply, WellFormed, Handed, SeededWith, Founds;
    var st' := Apply(c, st, step);
    TablesGrow(c, st, step);
    forall v, k, q | Direct(st', v, k, q) ensures ScopeExists(st', k) && q != NoRole {
      BindingOrigin(c, st, step, User(v), k, q);
      NewBindingsAreOk(c, st, step, User(v), k, q);
    }
    forall g, k, q | GroupBound(st', g, k, q)
      ensures g in st'.groups && ScopeExists(st', k) && q != NoRole && q != Owner
    {
      BindingOrigin(c, st, step, Members(g), k, q);
      NewBindingsAreOk(c, st, step, Members(g), k, q);
      if g in st.groups && g !in st'.groups { GroupsGo(c, st, step, g); }
    }
  }

  lemma StepValid(c: Config, st: State, step: Step)
    requires Valid(c, st) && WellFormed(st, step)
    ensures Valid(c, Apply(c, st, step))
  {
    hide Apply;
    var st' := Apply(c, st, step);
    TablesGrow(c, st, step);
    StepBindingsOk(c, st, step);
    forall g, u | (g, u) in st'.members ensures g in st'.groups {
      MembershipOrigin(c, st, step, g, u);
      if g !in st'.groups { GroupsGo(c, st, step, g); }
    }
    forall id | id in st'.grants
      ensures var g := st'.grants[id];
        g.role != NoRole && g.activatedAt <= st'.now && g.expiresAt <= g.activatedAt + c.maxTTL
    {
      GrantOrigin(c, st, step, id);
    }
  }

  lemma {:induction false} RunValid(c: Config, st: State, steps: seq<Step>)
    requires Valid(c, st) && WellFormedRun(c, st, steps)
    ensures Valid(c, Run(c, st, steps))
    decreases |steps|
  {
    hide Valid, Apply, WellFormed;
    if steps != [] {
      StepValid(c, st, steps[0]);
      RunValid(c, Apply(c, st, steps[0]), steps[1..]);
    }
  }

  // ---------- never locked out ----------

  lemma MemberPutKeepsOwner(c: Config, st: State, a: Id, sc: Scope, u: Id, r: Role, ok: bool)
    requires HasOwner(st)
    ensures HasOwner(MemberPutStep(c, st, a, sc, u, r, ok).0)
  {
    hide Can, BoundRole, IsLastOwner;
    var st' := MemberPutStep(c, st, a, sc, u, r, ok).0;
    if sc == InstanceScope && r != Owner && !IsLastOwner(st, u) {
      var v := AnotherOwner(st, u);
      assert IsOwner(st', v);
    } else {
      var v :| IsOwner(st, v);
      assert IsOwner(st', v);
    }
  }

  lemma MemberDeleteKeepsOwner(c: Config, st: State, a: Id, sc: Scope, u: Id, ok: bool)
    requires HasOwner(st)
    ensures HasOwner(MemberDeleteStep(c, st, a, sc, u, ok).0)
  {
    hide Can, IsLastOwner;
    var st' := MemberDeleteStep(c, st, a, sc, u, ok).0;
    if sc == InstanceScope && !IsLastOwner(st, u) {
      var v := AnotherOwner(st, u);
      assert IsOwner(st', v);
    } else {
      var v :| IsOwner(st, v);
      assert IsOwner(st', v);
    }
  }

  lemma RevokeAllKeepsOwner(c: Config, st: State, a: Id, u: Id, loaded: set<Scope>)
    requires HasOwner(st)
    ensures HasOwner(RevokeAllStep(c, st, a, u, loaded))
  {
    hide Revocable, IsLastOwner;
    var st' := RevokeAllStep(c, st, a, u, loaded);
    if InstanceScope in loaded && !IsLastOwner(st, u) {
      var v := AnotherOwner(st, u);
      assert IsOwner(st', v);
    } else {
      var v :| IsOwner(st, v);
      assert IsOwner(st', v);
    }
  }

  lemma OthersKeepOwners(c: Config, st: State, step: Step, v: Id)
    requires IsOwner(st, v) && !step.MemberPut? && !step.MemberDelete? && !step.RevokeAll?
    ensures IsOwner(Apply(c, st, step), v)
  {
    hide ApplyGrouping, ApplyGranting, ApplyBuilding, ApplyRunning;
    if TouchesBindings(step) {
      UnbindersKeepDirect(c, st, step);
    } else if TouchesGroups(step) {
      GroupingFrame(c, st, step);
    } else if TouchesGrants(step) {
      GrantingFrame(c, st, step);
    } else if TouchesProjects(step) {
      BuildingKeepsOwners(c, st, step, v);
    } else {
      RunningKeepsOwners(st, step, v);
    }
  }

  lemma UnbindersKeepDirect(c: Config, st: State, step: Step)
    requires step.GroupPut? || step.GroupUnbind?
    ensures ApplyBinding(c, st, step).direct == st.direct
  {
    hide MemberPutStep, MemberDeleteStep, RevokeAllStep, GroupPutStep, GroupUnbindStep;
    match step
    case GroupPut(a, sc, g, r, ok) => GroupPutFrame(c, st, a, sc, g, r, ok);
    case GroupUnbind(a, sc, g, ok) => GroupUnbindFrame(c, st, a, sc, g, ok);
  }

  lemma BuildingKeepsOwners(c: Config, st: State, step: Step, v: Id)
    requires TouchesProjects(step) && IsOwner(st, v)
    ensures IsOwner(ApplyBuilding(c, st, step), v)
  {
    hide EnvCreateStep, TrashStep, ProjectCreateStep;
    match step
    case CreateProject(_, _, _, _, _, _) => CreateProjectFrame(c, st, step);
    case CreateEnv(a, pid, eid) => CreateEnvFrame(c, st, a, pid, eid);
    case SetTrashed(a, sc, delete, ok) => TrashFrame(c, st, a, sc, delete, ok);
  }

  lemma RunningKeepsOwners(st: State, step: Step, v: Id)
    requires TouchesSystem(step) && IsOwner(st, v)
    ensures IsOwner(ApplyRunning(st, step), v)
  {
    hide SweepStep, ReconcileStep, InitStep, HasOwner;
    match step
    case Boot(oldest) =>
      BootFrame(st, oldest);
      ReconcileOrigin(st, oldest);
    case Init(u, grantOk) => InitFrame(st, u, grantOk);
    case _ =>
  }

  lemma StepKeepsOwner(c: Config, st: State, step: Step)
    requires HasOwner(st)
    ensures HasOwner(Apply(c, st, step))
  {
    hide MemberPutStep, MemberDeleteStep, RevokeAllStep, GroupPutStep, GroupUnbindStep, IsOwner, ApplyGrouping,
        ApplyGranting, ApplyBuilding, ApplyRunning;
    match step
    case MemberPut(a, sc, u, r, ok) => MemberPutKeepsOwner(c, st, a, sc, u, r, ok);
    case MemberDelete(a, sc, u, ok) => MemberDeleteKeepsOwner(c, st, a, sc, u, ok);
    case RevokeAll(a, u, loaded) => RevokeAllKeepsOwner(c, st, a, u, loaded);
    case _ =>
      hide Apply;
      var v :| IsOwner(st, v);
      OthersKeepOwners(c, st, step, v);
  }

  /** Once an instance has an owner, no run of the handlers takes the last one away. */
  lemma {:induction false} NeverLockedOut(c: Config, st: State, steps: seq<Step>)
    requires HasOwner(st)
    ensures HasOwner(Run(c, st, steps))
    decreases |steps|
  {
    hide HasOwner, Apply;
    if steps != [] {
      StepKeepsOwner(c, st, steps[0]);
      NeverLockedOut(c, Apply(c, st, steps[0]), steps[1..]);
    }
  }

  /** ... so the reconcile at boot never grants anything again. */
  lemma ReconcileNeverFires(c: Config, st: State, steps: seq<Step>, oldest: Id)
    requires HasOwner(st)
    ensures ReconcileStep(Run(c, st, steps), oldest) == Run(c, st, steps)
  {
    NeverLockedOut(c, st, steps);
    var st' := Run(c, st, steps);
    var v :| IsOwner(st', v);
    OwnersAre(st', v);
  }
}
