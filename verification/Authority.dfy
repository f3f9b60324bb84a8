/** Who may act where, as tables: direct bindings, group bindings, group membership and break-glass
    grants, with the derived bound and effective roles of internal/authz.
 */
module Authority {
  import opened Options
  import opened Authz

  /** `maxAge` bounds the trust in an OIDC group snapshot (0 turns the bound off); `maxTTL` caps a
      break-glass grant. */
  datatype Config = Config(maxAge: int, maxTTL: int) {
    predicate Valid() { maxTTL > 0 }
  }

  /** Membership of an OIDC group is a snapshot taken at login; a local group's is edited by hand. */
  datatype Group = Group(oidc: bool, canCreate: bool)

  datatype Grant = Grant(user: Id, scope: Scope, role: Role, activatedAt: int, expiresAt: int, revoked: bool)

  datatype State = State(
    users: set<Id>,
    projects: set<Id>,
    envs: map<Id, Id>,                       // environment -> its project
    trash: set<Scope>,                       // projects and environments marked as deleted; their rows stay
    direct: map<(Id, Scope), Role>,          // one binding per user and scope
    groups: map<Id, Group>,
    groupBindings: map<(Id, Scope), Role>,   // one binding per group and scope
    members: set<(Id, Id)>,                  // (group, user)
    synced: map<Id, int>,                    // last authoritative OIDC sync of a user
    grants: map<Id, Grant>,
    now: int)

  predicate ScopeExists(st: State, sc: Scope) {
    match sc
    case InstanceScope => true
    case ProjectScope(p) => p in st.projects
    case EnvScope(e) => e in st.envs
  }

  predicate Live(st: State, sc: Scope) { ScopeExists(st, sc) && sc !in st.trash }

  /** The resource a scope names, with the environment's real parent project. */
  function ResourceOf(st: State, sc: Scope): Resource {
    match sc
    case InstanceScope => INSTANCE
    case ProjectScope(p) => Resource(Some(p), None)
    case EnvScope(e) => Resource(if e in st.envs then Some(st.envs[e]) else None, Some(e))
  }

  /** A resource whose environment, if it names one, sits in the project it names. */
  predicate Coherent(st: State, res: Resource) {
    res.env.Some? ==> res.env.value in st.envs && res.project == Some(st.envs[res.env.value])
  }

  // ---------- bound roles ----------

  predicate Direct(st: State, u: Id, sc: Scope, r: Role) {
    (u, sc) in st.direct && st.direct[(u, sc)] == r
  }

  predicate GroupBound(st: State, g: Id, sc: Scope, r: Role) {
    (g, sc) in st.groupBindings && st.groupBindings[(g, sc)] == r
  }

  /** OIDC membership goes stale; local membership never does. */
  predicate Fresh(c: Config, st: State, g: Id, u: Id) {
    c.maxAge <= 0 || (g in st.groups && !st.groups[g].oidc) || (u in st.synced && st.synced[u] > st.now - c.maxAge)
  }

  predicate LiveMember(c: Config, st: State, g: Id, u: Id) {
    (g, u) in st.members && Fresh(c, st, g, u)
  }

  /** `b` is one of the bindings the engine resolves for `u`. */
  predicate Held(c: Config, st: State, u: Id, b: Binding) {
    b.user == u &&
    match b.via
    case None => Direct(st, u, b.scope, b.role)
    case Some(g) => LiveMember(c, st, g, u) && GroupBound(st, g, b.scope, b.role)
  }

  ghost predicate Confers(c: Config, st: State, u: Id, res: Resource, r: Role) {
    exists b :: Held(c, st, u, b) && Applies(b.scope, res) && b.role == r
  }

  /** The highest role held through bindings alone. */
  ghost function BoundRole(c: Config, st: State, u: Id, res: Resource): (r: Role)
    ensures forall b :: Held(c, st, u, b) && Applies(b.scope, res) ==> AtLeast(r, b.role)
    ensures r != NoRole ==> Confers(c, st, u, res, r)
  {
    if Confers(c, st, u, res, Owner) then Owner
    else if Confers(c, st, u, res, Admin) then Admin
    else if Confers(c, st, u, res, Developer) then Developer
    else if Confers(c, st, u, res, Viewer) then Viewer
    else NoRole
  }

  /** Loading the bindings in any order and taking the highest gives the bound role. */
  lemma HighestIsBound(c: Config, st: State, u: Id, bs: seq<Binding>, res: Resource)
    requires forall b :: b in bs <==> Held(c, st, u, b)
    ensures Highest(bs, res) == BoundRole(c, st, u, res)
  {
  }

  // ---------- effective roles ----------

  predicate Active(st: State, id: Id) {
    id in st.grants && !st.grants[id].revoked && st.now < st.grants[id].expiresAt
  }

  ghost predicate Elevates(st: State, u: Id, res: Resource, r: Role) {
    exists id :: Active(st, id) && st.grants[id].user == u && Applies(st.grants[id].scope, res) &&
        st.grants[id].role == r
  }

  ghost function GrantRole(st: State, u: Id, res: Resource): (r: Role)
    ensures forall id :: Active(st, id) && st.grants[id].user == u && Applies(st.grants[id].scope, res) ==>
              AtLeast(r, st.grants[id].role)
    ensures r != NoRole ==> Elevates(st, u, res, r)
  {
    if Elevates(st, u, res, Owner) then Owner
    else if Elevates(st, u, res, Admin) then Admin
    else if Elevates(st, u, res, Developer) then Developer
    else if Elevates(st, u, res, Viewer) then Viewer
    else NoRole
  }

  ghost function EffectiveRole(c: Config, st: State, u: Id, res: Resource): Role {
    Higher(BoundRole(c, st, u, res), GrantRole(st, u, res))
  }

  /** The decision itself: some applicable binding allows the action, or some applicable live grant does. */
  ghost predicate Can(c: Config, st: State, u: Id, a: Action, res: Resource) {
    || (exists b :: Held(c, st, u, b) && Applies(b.scope, res) && RoleAllows(b.role, a))
    || (exists id ::
          && Active(st, id) && st.grants[id].user == u
          && Applies(st.grants[id].scope, res) && RoleAllows(st.grants[id].role, a))
  }

  /** Deciding binding by binding is deciding on the effective role. */
  lemma CanIffEffectiveAllows(c: Config, st: State, u: Id, a: Action, res: Resource)
    ensures Can(c, st, u, a, res) <==> RoleAllows(EffectiveRole(c, st, u, res), a)
  {
  }

  // ---------- instance owners ----------

  predicate IsOwner(st: State, u: Id) { Direct(st, u, InstanceScope, Owner) }

  function Owners(st: State): set<Id> {
    set k | k in st.direct && k.1 == InstanceScope && st.direct[k] == Owner :: k.0
  }

  ghost predicate HasOwner(st: State) { exists u :: IsOwner(st, u) }

  predicate IsLastOwner(st: State, u: Id) { |Owners(st)| <= 1 && IsOwner(st, u) }

  lemma OwnersAre(st: State, u: Id)
    ensures u in Owners(st) <==> IsOwner(st, u)
  {
  }

  /** Not being the last owner means that another one exists, or that one is no owner at all. */
  lemma AnotherOwner(st: State, u: Id) returns (v: Id)
    requires HasOwner(st) && !IsLastOwner(st, u)
    ensures IsOwner(st, v) && v != u
  {
    var w :| IsOwner(st, w);
    OwnersAre(st, w);
    if w != u {
      v := w;
    } else {
      assert |Owners(st) - {u}| == |Owners(st)| - 1;
      v :| v in Owners(st) - {u};
      OwnersAre(st, v);
    }
  }

  // ---------- what the schema guarantees ----------

  ghost predicate DirectOk(st: State) {
    forall u, sc, r :: Direct(st, u, sc, r) ==> ScopeExists(st, sc) && r != NoRole
  }

  /** Group bindings stop at admin: the table refuses owner. */
  ghost predicate GroupBindingsOk(st: State) {
    forall g, sc, r :: GroupBound(st, g, sc, r) ==> g in st.groups && ScopeExists(st, sc) && r != NoRole && r != Owner
  }

  ghost predicate MembersOk(st: State) {
    forall g, u :: (g, u) in st.members ==> g in st.groups
  }

  ghost predicate EnvsOk(st: State) {
    forall e :: e in st.envs ==> st.envs[e] in st.projects
  }

  ghost predicate GrantsOk(c: Config, st: State) {
    forall id :: id in st.grants ==>
      && st.grants[id].role != NoRole
      && st.grants[id].activatedAt <= st.now
      && st.grants[id].expiresAt <= st.grants[id].activatedAt + c.maxTTL
  }

  ghost predicate Valid(c: Config, st: State) {
    c.Valid() && DirectOk(st) && GroupBindingsOk(st) && MembersOk(st) && EnvsOk(st) && GrantsOk(c, st)
  }

  /** No group-derived binding is ever owner, so every owner is a direct one. */
  lemma OwnersAreDirect(c: Config, st: State, u: Id)
    requires Valid(c, st) && BoundRole(c, st, u, INSTANCE) == Owner
    ensures IsOwner(st, u)
  {
  }
}
