/** No laundering of temporary elevation. Whatever break-glass grants are active along a run, a coalition
    of users and groups can only pass around what its own bindings conferred at the start.
 */
module Coalition {
  import opened Options
  import opened Authz
  import opened Authority
  import opened Handlers
  import opened AuthorityRuns

  /** Some holder in `k` has a binding that applies at `res` and gives at least `r`. */
  ghost predicate Reaches(st: State, k: iset<Holder>, res: Resource, r: Role) {
    exists h, sc, q :: h in k && Binds(st, h, sc, q) && Applies(sc, res) && AtLeast(q, r)
  }

  /** Every group of a member of the coalition is in the coalition. */
  ghost predicate Closed(st: State, k: iset<Holder>) {
    forall g, u :: (g, u) in st.members && User(u) in k ==> Members(g) in k
  }

  /** A step that brings something in from outside: an outsider hands the coalition a role, one of its
      users enters a group outside it, or init or boot makes one of its users the first instance owner. */
  ghost predicate OutsideHelp(st: State, step: Step, k: iset<Holder>) {
    match step
    case MemberPut(a, _, u, _, _) => User(a) !in k && User(u) in k
    case GroupPut(a, _, g, _, _) => User(a) !in k && Members(g) in k
    case GroupMemberAdd(_, g, u, _) => User(u) in k && Members(g) !in k
    case OidcSync(u, claimed) => User(u) in k && exists g :: g in claimed && Members(g) !in k
    case Init(u, _) => Founds(st, step, u) && User(u) in k
    case Boot(oldest) => Founds(st, step, oldest) && User(oldest) in k
    case _ => false
  }

  ghost predicate Unaided(c: Config, st: State, steps: seq<Step>, k: iset<Holder>)
    decreases |steps|
  {
    steps == [] || (!OutsideHelp(st, steps[0], k) && Unaided(c, Apply(c, st, steps[0]), steps[1..], k))
  }

  /** `sc` lies outside the projects that are not `known`. */
  predicate Within(st: State, sc: Scope, known: set<Id>) {
    var p := ResourceOf(st, sc).project;
    p.Some? ==> p.value in known
  }

  /** Each binding of the coalition is covered by one it had in `st0`. */
  ghost predicate Backed(st0: State, st: State, k: iset<Holder>) {
    forall h, sc, r :: h in k && Binds(st, h, sc, r) && Within(st, sc, st0.projects) ==>
      Reaches(st0, k, ResourceOf(st, sc), r)
  }

  /** A member's own bindings, direct or through a group, are the coalition's. */
  lemma HeldIsBound(c: Config, st: State, k: iset<Holder>, u: Id, b: Binding) returns (h: Holder)
    requires Closed(st, k) && User(u) in k && Held(c, st, u, b)
    ensures h in k && Binds(st, h, b.scope, b.role)
  {
    h := if b.via.None? then User(u) else Members(b.via.value);
  }

  /** What a member holds at a scope, the coalition had there at the start. */
  lemma BoundIsBacked(c: Config, st0: State, st: State, k: iset<Holder>, u: Id, res: Resource, r: Role)
    requires Backed(st0, st, k) && Closed(st, k) && User(u) in k
    requires Coherent(st, res) && (res.project.Some? ==> res.project.value in st0.projects)
    requires r != NoRole && AtLeast(BoundRole(c, st, u, res), r) && DirectOk(st) && GroupBindingsOk(st)
    ensures Reaches(st0, k, res, r)
  {
    hide BoundRole;
    var q := BoundRole(c, st, u, res);
    var b :| Held(c, st, u, b) && Applies(b.scope, res) && b.role == q;
    var h := HeldIsBound(c, st, k, u, b);
    BindingIsBacked(st0, st, k, h, b.scope, q, res);
    var h0, sc0, q0 :| h0 in k && Binds(st0, h0, sc0, q0) && Applies(sc0, res) && AtLeast(q0, q);
    assert AtLeast(q0, r);
  }

  lemma BindingIsBacked(st0: State, st: State, k: iset<Holder>, h: Holder, sc: Scope, q: Role, res: Resource)
    requires Backed(st0, st, k) && h in k && Binds(st, h, sc, q) && Applies(sc, res) && Coherent(st, res)
    requires res.project.Some? ==> res.project.value in st0.projects
    ensures Reaches(st0, k, res, q)
  {
  }

  lemma StepKeepsClosed(c: Config, st: State, step: Step, k: iset<Holder>)
    requires Closed(st, k) && !OutsideHelp(st, step, k)
    ensures Closed(Apply(c, st, step), k)
  {
    hide Apply;
    forall g, u | (g, u) in Apply(c, st, step).members && User(u) in k ensures Members(g) in k {
      MembershipOrigin(c, st, step, g, u);
    }
  }

  lemma StepKeepsBacked(c: Config, st0: State, st: State, step: Step, k: iset<Holder>)
    requires Valid(c, st) && WellFormed(st, step) && st0.projects <= st.projects
    requires Closed(st, k) && Backed(st0, st, k) && !OutsideHelp(st, step, k)
    ensures Backed(st0, Apply(c, st, step), k)
  {
    hide Apply, Valid, WellFormed, Reaches, OutsideHelp, Closed, Binds, Within;
    var st' := Apply(c, st, step);
    forall h, sc, r | h in k && Binds(st', h, sc, r) && Within(st', sc, st0.projects)
      ensures Reaches(st0, k, ResourceOf(st', sc), r)
    {
      NewBindingIsBacked(c, st0, st, step, k, h, sc, r);
    }
  }

  lemma NewBindingIsBacked(c: Config, st0: State, st: State, step: Step, k: iset<Holder>, h: Holder, sc: Scope, r: Role)
    requires Valid(c, st) && WellFormed(st, step) && st0.projects <= st.projects
    requires Closed(st, k) && Backed(st0, st, k) && !OutsideHelp(st, step, k)
    requires h in k && Binds(Apply(c, st, step), h, sc, r) && Within(Apply(c, st, step), sc, st0.projects)
    ensures Reaches(st0, k, ResourceOf(Apply(c, st, step), sc), r)
  {
    hide Apply, WellFormed, Reaches, Handed, Founds, SeededWith, Closed, Valid, ScopeExists;
    TablesGrow(c, st, step);
    BindingOrigin(c, st, step, h, sc, r);
    if Binds(st, h, sc, r) {
      BindingsExist(c, st, h, sc, r);
      ResourcesStay(st, Apply(c, st, step), sc);
    } else if Handed(c, st, step, h, sc, r) {
      HandedIsBacked(c, st0, st, step, k, h, sc, r, Apply(c, st, step));
    } else {
      NothingElseIsWithin(st0, st, step, k, h, sc, r);
    }
  }

  lemma BindingsExist(c: Config, st: State, h: Holder, sc: Scope, r: Role)
    requires Valid(c, st) && Binds(st, h, sc, r)
    ensures ScopeExists(st, sc)
  {
  }

  /** What a member of the coalition hands out is covered by what the coalition had. */
  lemma HandedIsBacked(c: Config, st0: State, st: State, step: Step, k: iset<Holder>, h: Holder, sc: Scope, r: Role,
      after: State)
    requires Valid(c, st) && Closed(st, k) && Backed(st0, st, k) && !OutsideHelp(st, step, k)
    requires h in k && Handed(c, st, step, h, sc, r) && Grows(st, after) && Within(after, sc, st0.projects)
    ensures Reaches(st0, k, ResourceOf(after, sc), r)
  {
    hide Reaches, BoundRole, Closed, Backed;
    ResourcesStay(st, after, sc);
    BoundIsBacked(c, st0, st, k, step.actor, ResourceOf(st, sc), r);
  }

  /** Seeds lie in a new project, and whoever founds is from outside. */
  lemma NothingElseIsWithin(st0: State, st: State, step: Step, k: iset<Holder>, h: Holder, sc: Scope, r: Role)
    requires st0.projects <= st.projects && !OutsideHelp(st, step, k) && h in k
    ensures SeededWith(st, step, h, sc, r) ==> sc.ProjectScope? && sc.pid !in st0.projects
    ensures !(h.User? && Founds(st, step, h.u))
  {
    hide HasOwner;
  }

  lemma ResourcesStay(st: State, after: State, sc: Scope)
    requires Grows(st, after) && ScopeExists(st, sc)
    ensures ResourceOf(after, sc) == ResourceOf(st, sc)
  {
  }

  lemma {:induction false} RunBacked(c: Config, st0: State, st: State, steps: seq<Step>, k: iset<Holder>)
    requires Valid(c, st) && WellFormedRun(c, st, steps) && st0.projects <= st.projects
    requires Closed(st, k) && Backed(st0, st, k) && Unaided(c, st, steps, k)
    ensures var st' := Run(c, st, steps); Valid(c, st') && Closed(st', k) && Backed(st0, st', k)
    decreases |steps|
  {
    hide Valid, Apply, WellFormed, Closed, Backed, OutsideHelp;
    if steps != [] {
      StepValid(c, st, steps[0]);
      StepKeepsClosed(c, st, steps[0], k);
      StepKeepsBacked(c, st0, st, steps[0], k);
      TablesGrow(c, st, steps[0]);
      RunBacked(c, st0, Apply(c, st, steps[0]), steps[1..], k);
    }
  }

  lemma BackedByItself(c: Config, st: State, k: iset<Holder>)
    requires Valid(c, st)
    ensures Backed(st, st, k)
  {
  }

  /** The main theorem. Take any users and groups, closed under membership, and any run that brings the
      coalition nothing from outside -- but may open any number of break-glass grants, to anybody. At
      every resource outside the projects created along the way, every role the coalition's bindings
      confer at the end, its bindings already conferred at the start: they never rise. */
  lemma NoLaundering(c: Config, st: State, steps: seq<Step>, k: iset<Holder>, res: Resource, r: Role)
    requires Valid(c, st) && WellFormedRun(c, st, steps)
    requires Closed(st, k) && Unaided(c, st, steps, k)
    requires Coherent(Run(c, st, steps), res) && (res.project.Some? ==> res.project.value in st.projects)
    requires Reaches(Run(c, st, steps), k, res, r)
    ensures Reaches(st, k, res, r)
  {
    var st' := Run(c, st, steps);
    BackedByItself(c, st, k);
    RunBacked(c, st, st, steps, k);
    var h, sc, q :| h in k && Binds(st', h, sc, q) && Applies(sc, res) && AtLeast(q, r);
    BindingIsBacked(st, st', k, h, sc, q, res);
  }

  /** ... so a member's bound role at the end is one the coalition conferred at the start. */
  lemma BoundRolesStayWithin(c: Config, st: State, steps: seq<Step>, k: iset<Holder>, u: Id, res: Resource)
    requires Valid(c, st) && WellFormedRun(c, st, steps)
    requires Closed(st, k) && Unaided(c, st, steps, k) && User(u) in k
    requires Coherent(Run(c, st, steps), res) && (res.project.Some? ==> res.project.value in st.projects)
    ensures var r := BoundRole(c, Run(c, st, steps), u, res); r != NoRole ==> Reaches(st, k, res, r)
  {
    hide BoundRole;
    var r := BoundRole(c, Run(c, st, steps), u, res);
    if r != NoRole {
      BackedByItself(c, st, k);
      RunBacked(c, st, st, steps, k);
      BoundIsBacked(c, st, Run(c, st, steps), k, u, res, r);
    }
  }

  // ---------- everybody ----------

  ghost const EVERYBODY: iset<Holder> := iset h: Holder | true

  /** At every resource outside the projects created along the way, no durable binding -- direct, or a
      group's even when the group is empty -- confers more at the end than some binding did at the start. */
  ghost predicate CeilingStays(c: Config, st: State, steps: seq<Step>) {
    forall res, r ::
      && Coherent(Run(c, st, steps), res) && (res.project.Some? ==> res.project.value in st.projects)
      && Reaches(Run(c, st, steps), EVERYBODY, res, r)
      ==> Reaches(st, EVERYBODY, res, r)
  }

  /** An instance without an owner gets one exactly from a step that founds one. */
  lemma OwnersAreFounded(c: Config, st: State, step: Step)
    requires Valid(c, st) && WellFormed(st, step) && !HasOwner(st)
    ensures HasOwner(Apply(c, st, step)) <==> exists u :: Founds(st, step, u)
  {
    hide Apply, Valid, WellFormed, BoundRole, Founds;
    if HasOwner(Apply(c, st, step)) {
      var v :| IsOwner(Apply(c, st, step), v);
      assert !IsOwner(st, v);
      BindingOrigin(c, st, step, User(v), InstanceScope, Owner);
      if Handed(c, st, step, User(v), InstanceScope, Owner) {
        OwnersAreDirect(c, st, step.actor);
      }
      assert Founds(st, step, v);
    }
    if u :| Founds(st, step, u) {
      FoundingMakesOwners(c, st, step, u);
    }
  }

  lemma FoundingMakesOwners(c: Config, st: State, step: Step, u: Id)
    requires Founds(st, step, u)
    ensures HasOwner(Apply(c, st, step))
  {
    hide ApplyBinding, ApplyGrouping, ApplyGranting, ApplyBuilding, SweepStep, ReconcileStep;
    if step.Boot? {
      BootFrame(st, u);
      NoOwnerIsCounted(st, u);
    }
    assert IsOwner(Apply(c, st, step), u);
  }

  lemma NoOwnerIsCounted(st: State, u: Id)
    requires !HasOwner(st) && u in st.users
    ensures ReconcileStep(st, u).direct == st.direct[(u, InstanceScope) := Owner]
  {
    if Owners(st) != {} {
      var v :| v in Owners(st);
      OwnersAre(st, v);
    }
  }

  /** A run that ends without an owner never founded one, so nothing came to anybody from outside. */
  lemma {:induction false} NobodyOutside(c: Config, st: State, steps: seq<Step>)
    requires Valid(c, st) && WellFormedRun(c, st, steps) && !HasOwner(Run(c, st, steps))
    ensures Unaided(c, st, steps, EVERYBODY)
    decreases |steps|
  {
    hide Valid, HasOwner, Apply, WellFormed, Founds;
    if steps != [] {
      StepValid(c, st, steps[0]);
      if HasOwner(Apply(c, st, steps[0])) {
        NeverLockedOut(c, Apply(c, st, steps[0]), steps[1..]);
      }
      if u :| Founds(st, steps[0], u) {
        FoundingMakesOwners(c, st, steps[0], u);
      }
      NobodyOutside(c, Apply(c, st, steps[0]), steps[1..]);
    }
  }

  lemma OwnerReachesAll(st: State, res: Resource, r: Role)
    requires HasOwner(st)
    ensures Reaches(st, EVERYBODY, res, r)
  {
    var u :| IsOwner(st, u);
    assert Binds(st, User(u), InstanceScope, Owner);
  }

  lemma NobodyReachesOwner(c: Config, st: State)
    requires Valid(c, st) && !HasOwner(st)
    ensures !Reaches(st, EVERYBODY, INSTANCE, Owner)
  {
    forall h, sc, q | Binds(st, h, sc, q) && Applies(sc, INSTANCE) ensures !AtLeast(q, Owner) {
      if h.User? { assert !IsOwner(st, h.u); }
    }
  }

  /** The ceiling over everybody, in every run: it stays put exactly when the run does not turn an instance
      without an owner into one with an owner -- which only init and boot can do. */
  lemma CeilingNeverRisesIff(c: Config, st: State, steps: seq<Step>)
    requires Valid(c, st) && WellFormedRun(c, st, steps)
    ensures CeilingStays(c, st, steps) <==> HasOwner(st) || !HasOwner(Run(c, st, steps))
  {
    hide Valid, HasOwner, Reaches, Run, Unaided;
    var after := Run(c, st, steps);
    if HasOwner(st) {
      forall res, r ensures Reaches(st, EVERYBODY, res, r) { OwnerReachesAll(st, res, r); }
    } else if HasOwner(after) {
      OwnerReachesAll(after, INSTANCE, Owner);
      NobodyReachesOwner(c, st);
    } else {
      NobodyOutside(c, st, steps);
      forall res, r
        | Coherent(after, res) && (res.project.Some? ==> res.project.value in st.projects) &&
            Reaches(after, EVERYBODY, res, r)
        ensures Reaches(st, EVERYBODY, res, r)
      {
        NoLaundering(c, st, steps, EVERYBODY, res, r);
      }
    }
  }

  /** The same from the steps: the ceiling rises exactly in the runs that found the first owner. */
  ghost predicate FoundsNone(c: Config, st: State, steps: seq<Step>)
    decreases |steps|
  {
    steps == [] || ((HasOwner(st) || forall u :: !Founds(st, steps[0], u)) &&
        FoundsNone(c, Apply(c, st, steps[0]), steps[1..]))
  }

  lemma {:induction false} OwnerlessIffNoneFounded(c: Config, st: State, steps: seq<Step>)
    requires Valid(c, st) && WellFormedRun(c, st, steps)
    ensures FoundsNone(c, st, steps) <==> HasOwner(st) || !HasOwner(Run(c, st, steps))
    decreases |steps|
  {
    hide Valid, HasOwner, Apply, WellFormed, Founds;
    if steps != [] {
      StepValid(c, st, steps[0]);
      OwnerlessIffNoneFounded(c, Apply(c, st, steps[0]), steps[1..]);
      if HasOwner(st) {
        StepKeepsOwner(c, st, steps[0]);
      } else {
        OwnersAreFounded(c, st, steps[0]);
        if HasOwner(Apply(c, st, steps[0])) {
          NeverLockedOut(c, Apply(c, st, steps[0]), steps[1..]);
        }
      }
    }
  }

  // ---------- elevations end ----------

  ghost predicate OpenUntil(st: State, t: int) {
    forall id :: id in st.grants ==> st.grants[id].expiresAt <= t
  }

  lemma {:induction false} NoneOpensLater(c: Config, st: State, steps: seq<Step>, t: int)
    requires c.Valid() && OpenUntil(st, t) && forall s :: s in steps ==> !s.Activate?
    ensures OpenUntil(Run(c, st, steps), t)
    decreases |steps|
  {
    hide Apply;
    if steps != [] {
      var st1 := Apply(c, st, steps[0]);
      forall id | id in st1.grants ensures st1.grants[id].expiresAt <= t {
        assert steps[0] in steps;
        GrantOrigin(c, st, steps[0], id);
      }
      NoneOpensLater(c, st1, steps[1..], t);
    }
  }

  /** Once the longest allowed time has passed since the last activation, nobody's effective role is more
      than their bound role, anywhere. */
  lemma ElevationsEnd(c: Config, st: State, steps: seq<Step>, u: Id, res: Resource)
    requires Valid(c, st) && forall s :: s in steps ==> !s.Activate?
    requires Run(c, st, steps).now >= st.now + c.maxTTL
    ensures EffectiveRole(c, Run(c, st, steps), u, res) == BoundRole(c, Run(c, st, steps), u, res)
  {
    hide BoundRole, Run;
    var st' := Run(c, st, steps);
    assert OpenUntil(st, st.now + c.maxTTL);
    NoneOpensLater(c, st, steps, st.now + c.maxTTL);
    forall id ensures !Active(st', id) { }
  }

  lemma {:induction false} RunAppend(c: Config, st: State, a: seq<Step>, b: seq<Step>)
    ensures Run(c, st, a + b) == Run(c, Run(c, st, a), b)
    ensures WellFormedRun(c, st, a + b) <==> WellFormedRun(c, st, a) && WellFormedRun(c, Run(c, st, a), b)
    decreases |a|
  {
    hide Apply, WellFormed;
    if a == [] {
      assert a + b == b;
    } else {
      assert (a + b)[1..] == a[1..] + b;
      RunAppend(c, Apply(c, st, a[0]), a[1..], b);
    }
  }

  /** Both together: a run may elevate as it likes; after the last elevation has lapsed, every effective
      role a member is left with is one the coalition's bindings conferred before the run. */
  lemma NothingIsKept(c: Config, st: State, during: seq<Step>, after: seq<Step>, k: iset<Holder>, u: Id, res: Resource)
    requires Valid(c, st) && WellFormedRun(c, st, during + after)
    requires Closed(st, k) && Unaided(c, st, during + after, k) && User(u) in k
    requires forall s :: s in after ==> !s.Activate?
    requires Run(c, st, during + after).now >= Run(c, st, during).now + c.maxTTL
    requires Coherent(Run(c, st, during + after), res) && (res.project.Some? ==> res.project.value in st.projects)
    ensures var r := EffectiveRole(c, Run(c, st, during + after), u, res); r != NoRole ==> Reaches(st, k, res, r)
  {
    hide Valid, EffectiveRole, BoundRole, Reaches, Closed, Unaided, Apply;
    RunAppend(c, st, during, after);
    RunValid(c, st, during);
    ElevationsEnd(c, Run(c, st, during), after, u, res);
    BoundRolesStayWithin(c, st, during + after, k, u, res);
  }

  // ---------- why the statement is as it is ----------

  function Bare(users: set<Id>, direct: map<(Id, Scope), Role>, now: int): State {
    State(users, {}, map[], {}, direct, map[], map[], {}, map[], map[], now)
  }

  /** Exactly when adding a member raises that member's bound role at a resource: the actor has the effective
      group:manage, the group is there and local, the user is there, and some binding of the group applies
      strictly above what the user holds. */
  lemma JoiningRaisesIff(c: Config, st: State, actor: Id, g: Id, u: Id, res: Resource, ok: bool)
    ensures var after := GroupMemberAddStep(c, st, actor, g, u, ok).0;
      StrictlyAbove(BoundRole(c, after, u, res), BoundRole(c, st, u, res)) <==>
      && Can(c, st, actor, GroupManage, INSTANCE) && g in st.groups && !st.groups[g].oidc && u in st.users
      && exists sc, r :: GroupBound(st, g, sc, r) && Applies(sc, res) && StrictlyAbove(r, BoundRole(c, st, u, res))
  {
    hide Can, BoundRole;
    var after := GroupMemberAddStep(c, st, actor, g, u, ok).0;
    if after == st.(members := st.members + {(g, u)}) && g in st.groups && !st.groups[g].oidc {
      JoinedBoundRole(c, st, g, u, res);
    }
  }

  /** A member of a local group holds what they held before and what the group is bound to. */
  lemma JoinedBoundRole(c: Config, st: State, g: Id, u: Id, res: Resource)
    requires g in st.groups && !st.groups[g].oidc
    ensures var after := st.(members := st.members + {(g, u)});
      StrictlyAbove(BoundRole(c, after, u, res), BoundRole(c, st, u, res)) <==>
      exists sc, r :: GroupBound(st, g, sc, r) && Applies(sc, res) && StrictlyAbove(r, BoundRole(c, st, u, res))
  {
    hide BoundRole;
    var after := st.(members := st.members + {(g, u)});
    var was, now := BoundRole(c, st, u, res), BoundRole(c, after, u, res);
    if StrictlyAbove(now, was) {
      var b :| Held(c, after, u, b) && Applies(b.scope, res) && b.role == now;
      assert !Held(c, st, u, b);
      assert GroupBound(st, g, b.scope, b.role);
    }
    if sc, r :| GroupBound(st, g, sc, r) && Applies(sc, res) && StrictlyAbove(r, was) {
      assert Held(c, after, u, Binding(u, sc, r, Some(g)));
    }
  }

  /** Membership edits ask for the effective role and put no cap on what the group confers. Whoever may edit
      groups, if only for the length of an elevation, may join any local group bound above their own bound
      role, and then holds that role through bindings for as long as they stay in it. So the groups a user
      could join count as the coalition's even while they are empty. */
  lemma GroupsCountWhileEmpty(c: Config, st: State, u: Id, g: Id, sc: Scope, r: Role, res: Resource, ok: bool,
      later: nat)
    requires Can(c, st, u, GroupManage, INSTANCE) && u in st.users && g in st.groups && !st.groups[g].oidc
    requires GroupBound(st, g, sc, r) && Applies(sc, res) && StrictlyAbove(r, BoundRole(c, st, u, res))
    ensures StrictlyAbove(BoundRole(c, Apply(c, st, GroupMemberAdd(u, g, u, ok)), u, res), BoundRole(c, st, u, res))
    ensures var after := Run(c, st, [GroupMemberAdd(u, g, u, ok), Tick(later)]);
      AtLeast(BoundRole(c, after, u, res), r) && StrictlyAbove(BoundRole(c, after, u, res), BoundRole(c, st, u, res))
  {
    hide BoundRole, Can;
    var add, tick := GroupMemberAdd(u, g, u, ok), Tick(later);
    assert [add, tick][1..] == [tick] && [tick][1..] == [];
    JoinedIs(c, st, u, g, ok);
    JoiningRaisesIff(c, st, u, g, u, res, ok);
    var joined := st.(members := st.members + {(g, u)});
    var after := joined.(now := joined.now + later);
    assert Run(c, joined, [tick]) == after by { TickIs(c, joined, later); hide Apply; }
    assert Run(c, st, [add, tick]) == after by { hide Apply; }
    assert Held(c, after, u, Binding(u, sc, r, Some(g)));
  }

  lemma JoinedIs(c: Config, st: State, u: Id, g: Id, ok: bool)
    requires Can(c, st, u, GroupManage, INSTANCE) && u in st.users && g in st.groups && !st.groups[g].oidc
    ensures Apply(c, st, GroupMemberAdd(u, g, u, ok)) == GroupMemberAddStep(c, st, u, g, u, ok).0
    ensures Apply(c, st, GroupMemberAdd(u, g, u, ok)) == st.(members := st.members + {(g, u)})
  {
    hide ApplyBinding, ApplyGranting, ApplyBuilding, ApplyRunning, Can;
  }

  lemma TickIs(c: Config, st: State, later: nat)
    ensures Apply(c, st, Tick(later)) == st.(now := st.now + later)
  {
    hide ApplyBinding, ApplyGrouping, ApplyGranting, ApplyBuilding;
  }

  const SHORT := Config(0, 60)

  /** A viewer with an open admin grant beside an empty local group that is bound to admin. */
  const ELEVATED: State :=
    Bare({"u"}, map[("u", InstanceScope) := Viewer], 0)
      .(groups := map["g" := Group(false, false)], groupBindings := map[("g", InstanceScope) := Admin],
        grants := map["1" := Grant("u", InstanceScope, Admin, 0, 60, false)])

  /** There are such users whose right to edit groups is an elevation and nothing else. */
  lemma ElevatedUserMayJoin()
    ensures Valid(SHORT, ELEVATED) && BoundRole(SHORT, ELEVATED, "u", INSTANCE) == Viewer
    ensures Can(SHORT, ELEVATED, "u", GroupManage, INSTANCE) && GroupBound(ELEVATED, "g", InstanceScope, Admin)
  {
    assert Held(SHORT, ELEVATED, "u", Binding("u", InstanceScope, Viewer, None));
    assert forall b :: Held(SHORT, ELEVATED, "u", b) ==> b.role == Viewer;
    assert Active(ELEVATED, "1") && RoleAllows(ELEVATED.grants["1"].role, GroupManage);
  }

  /** A resource that names an environment without its project is not in the scope chain: whoever may hand
      out a role at an environment raises the ceiling there to it, if it was lower. */
  lemma CoherenceIsNeeded(c: Config, st: State, a: Id, e: Id, u: Id, r: Role, ok: bool)
    requires Live(st, EnvScope(e)) && u in st.users && r != NoRole
    requires Can(c, st, a, MemberManage, ResourceOf(st, EnvScope(e))) &&
        AtLeast(BoundRole(c, st, a, ResourceOf(st, EnvScope(e))), r)
    ensures Reaches(Apply(c, st, MemberPut(a, EnvScope(e), u, r, ok)), EVERYBODY, Resource(None, Some(e)), r)
    ensures !Coherent(st, Resource(None, Some(e)))
  {
    hide Can, BoundRole, IsLastOwner, ApplyGrouping, ApplyGranting, ApplyBuilding, ApplyRunning;
    var after := Apply(c, st, MemberPut(a, EnvScope(e), u, r, ok));
    assert Binds(after, User(u), EnvScope(e), r);
  }
}
