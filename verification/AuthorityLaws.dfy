/** The decision and the handlers from the outside: what a role is worth where, and, handler by handler,
    exactly when it goes through, what it then changes and what it leaves alone -- entry by entry.
 */
module AuthorityLaws {
  import opened Options
  import opened Authz
  import opened Authority
  import opened Handlers

  // ---------- roles ----------

  /** Viewer, developer, admin, owner: each allows what the ones below it allow, and more. */
  lemma RolesAreAChain(a: Role, b: Role, x: Action)
    ensures AtLeast(a, b) && RoleAllows(b, x) ==> RoleAllows(a, x)
    ensures AtLeast(a, b) <==> a == b || StrictlyAbove(a, b)
    ensures StrictlyAbove(a, b) <==>
      match b
      case NoRole => a != NoRole
      case Viewer => a == Developer || a == Admin || a == Owner
      case Developer => a == Admin || a == Owner
      case Admin => a == Owner
      case Owner => false
    ensures RoleAllows(a, MemberRead) <==> a != NoRole
    ensures RoleAllows(a, ProjectDelete) <==> a == Owner
    ensures x != MemberRead && x != ProjectDelete ==> (RoleAllows(a, x) <==> a == Admin || a == Owner)
  {
  }

  // ---------- scopes ----------

  /** The bound role from the tables: some direct binding, or the binding of a group the user is in -- local, or
      by a snapshot young enough -- sits at the instance, at the resource's project or at its environment. */
  lemma BoundRoleIff(c: Config, st: State, u: Id, res: Resource, r: Role)
    requires r != NoRole
    ensures AtLeast(BoundRole(c, st, u, res), r) <==> exists sc, q ::
      && AtLeast(q, r)
      && (sc == InstanceScope || (sc.ProjectScope? && res.project == Some(sc.pid)) ||
          (sc.EnvScope? && res.env == Some(sc.eid)))
      && (Direct(st, u, sc, q) || exists g :: (g, u) in st.members && GroupBound(st, g, sc, q) && Trusted(c, st, g, u))
  {
    hide BoundRole;
    var top := BoundRole(c, st, u, res);
    if AtLeast(top, r) {
      var b :| Held(c, st, u, b) && Applies(b.scope, res) && b.role == top;
      assert b.via.Some? ==> Trusted(c, st, b.via.value, u);
    }
    if sc, q :|
      && AtLeast(q, r)
      && (sc == InstanceScope || (sc.ProjectScope? && res.project == Some(sc.pid)) ||
          (sc.EnvScope? && res.env == Some(sc.eid)))
      && (Direct(st, u, sc, q) || exists g ::
          (g, u) in st.members && GroupBound(st, g, sc, q) && Trusted(c, st, g, u)) {
      if Direct(st, u, sc, q) {
        assert Held(c, st, u, Binding(u, sc, q, None));
      } else {
        var g :| (g, u) in st.members && GroupBound(st, g, sc, q) && Trusted(c, st, g, u);
        assert Held(c, st, u, Binding(u, sc, q, Some(g)));
      }
    }
  }

  /** Local membership always counts; membership by login only while the last login is recent enough, if there is
      a limit at all. */
  predicate Trusted(c: Config, st: State, g: Id, u: Id) {
    || c.maxAge <= 0
    || (g in st.groups && st.groups[g].oidc == false)
    || (u in st.synced && st.now - st.synced[u] < c.maxAge)
  }

  /** The role by grants: one that is neither ended nor past its time, at a scope that reaches the resource. */
  lemma GrantRoleIff(st: State, u: Id, res: Resource, r: Role)
    requires r != NoRole
    ensures AtLeast(GrantRole(st, u, res), r) <==> exists id ::
      && id in st.grants && !st.grants[id].revoked && st.now < st.grants[id].expiresAt && st.grants[id].user == u
      && AtLeast(st.grants[id].role, r)
      && var sc := st.grants[id].scope;
         sc == InstanceScope || (sc.ProjectScope? && res.project == Some(sc.pid)) ||
             (sc.EnvScope? && res.env == Some(sc.eid))
  {
    hide GrantRole;
    var top := GrantRole(st, u, res);
    if AtLeast(top, r) {
      var id :| Active(st, id) && st.grants[id].user == u && Applies(st.grants[id].scope, res) &&
          st.grants[id].role == top;
    }
    forall id | Active(st, id) && st.grants[id].user == u && Applies(st.grants[id].scope, res)
      ensures AtLeast(top, st.grants[id].role) { }
  }

  /** The effective role is the higher of the two. */
  lemma EffectiveRoleIff(c: Config, st: State, u: Id, res: Resource, r: Role)
    ensures AtLeast(EffectiveRole(c, st, u, res), r) <==>
      AtLeast(BoundRole(c, st, u, res), r) || AtLeast(GrantRole(st, u, res), r)
  {
    hide BoundRole, GrantRole;
  }

  /** What a project's binding confers, it confers at the project's environments. */
  lemma ProjectBindingsReachEnvironments(c: Config, st: State, u: Id, e: Id, b: Binding)
    requires e in st.envs && Held(c, st, u, b) && b.scope == ProjectScope(st.envs[e])
    ensures Confers(c, st, u, ResourceOf(st, EnvScope(e)), b.role)
  {
  }

  /** Roles and rights only grow from the instance to a project and from there to its environments. */
  lemma RolesGrowInward(c: Config, st: State, u: Id, e: Id, a: Action)
    requires e in st.envs
    ensures var env, project := ResourceOf(st, EnvScope(e)), ResourceOf(st, ProjectScope(st.envs[e]));
      && AtLeast(BoundRole(c, st, u, env), BoundRole(c, st, u, project))
      && AtLeast(BoundRole(c, st, u, project), BoundRole(c, st, u, INSTANCE))
      && AtLeast(GrantRole(st, u, env), GrantRole(st, u, project))
      && AtLeast(GrantRole(st, u, project), GrantRole(st, u, INSTANCE))
      && (Can(c, st, u, a, INSTANCE) ==> Can(c, st, u, a, project))
      && (Can(c, st, u, a, project) ==> Can(c, st, u, a, env))
  {
    var env, project := ResourceOf(st, EnvScope(e)), ResourceOf(st, ProjectScope(st.envs[e]));
    GrowsInward(c, st, u, project, env, a);
    GrowsInward(c, st, u, INSTANCE, project, a);
  }

  lemma GrowsInward(c: Config, st: State, u: Id, outer: Resource, inner: Resource, a: Action)
    requires forall sc :: Applies(sc, outer) ==> Applies(sc, inner)
    ensures AtLeast(BoundRole(c, st, u, inner), BoundRole(c, st, u, outer))
    ensures AtLeast(GrantRole(st, u, inner), GrantRole(st, u, outer))
    ensures Can(c, st, u, a, outer) ==> Can(c, st, u, a, inner)
  {
    hide BoundRole, GrantRole, Held, Applies;
  }

  /** Nothing spreads outward or sideways: bindings at one environment confer nothing at its project, at a sibling
      or at the instance, and bindings at one project nothing at another or at the instance. */
  lemma BindingsDoNotSpread(c: Config, st: State, u: Id, sc: Scope, res: Resource)
    requires sc != InstanceScope && forall b :: Held(c, st, u, b) ==> b.scope == sc
    ensures sc.EnvScope? && res.env != Some(sc.eid) ==> BoundRole(c, st, u, res) == NoRole
    ensures sc.ProjectScope? && res.project != Some(sc.pid) ==> BoundRole(c, st, u, res) == NoRole
  {
    hide Held;
  }

  lemma GrantsDoNotSpread(st: State, u: Id, sc: Scope, res: Resource)
    requires sc != InstanceScope && forall id :: Active(st, id) && st.grants[id].user == u ==> st.grants[id].scope == sc
    ensures sc.EnvScope? && res.env != Some(sc.eid) ==> GrantRole(st, u, res) == NoRole
    ensures sc.ProjectScope? && res.project != Some(sc.pid) ==> GrantRole(st, u, res) == NoRole
  {
  }

  // ---------- bindings, handler by handler ----------

  /** Whoever may manage members there, at a scope that is there -- and, for an environment, not in the trash. */
  ghost predicate Manages(c: Config, st: State, actor: Id, sc: Scope) {
    Can(c, st, actor, MemberManage, ResourceOf(st, sc)) && ScopeExists(st, sc) && (sc.EnvScope? ==> sc !in st.trash)
  }

  function Done(auditOk: bool): Reply { if auditOk then NoContent else ServerError }

  /** A grant goes through exactly for a manager handing out a real role no higher than their own bound one to an
      existing user, unless it demotes the last instance owner; then that one entry is set, and else nothing. */
  lemma MemberPutLaw(c: Config, st: State, actor: Id, sc: Scope, subject: Id, role: Role, auditOk: bool)
    ensures var (after, reply) := MemberPutStep(c, st, actor, sc, subject, role, auditOk);
      var goes :=
        && Manages(c, st, actor, sc) && role != NoRole && AtLeast(BoundRole(c, st, actor, ResourceOf(st, sc)), role)
        && subject in st.users && (sc == InstanceScope && IsLastOwner(st, subject) ==> role == Owner);
      && (forall v, s, r :: Direct(after, v, s, r) <==>
            if goes && (v, s) == (subject, sc) then r == role else Direct(st, v, s, r))
      && after == st.(direct := after.direct) && (!goes ==> after == st)
      && (if goes then reply == Done(auditOk) else reply != NoContent)
      && (role != NoRole && Manages(c, st, actor, sc) ==>
            if !AtLeast(BoundRole(c, st, actor, ResourceOf(st, sc)), role) then reply == Forbidden
            else if subject !in st.users then reply == NotFound
            else !goes ==> reply == Conflict)
      && (role != NoRole && !Can(c, st, actor, MemberManage, ResourceOf(st, sc)) && (sc.EnvScope? ==> Live(st, sc)) ==>
            reply == if auditOk then Forbidden else ServerError)
      && (sc.EnvScope? && !Live(st, sc) ==> reply == NotFound)
  {
    hide Can, BoundRole, IsLastOwner;
  }

  /** A revocation goes through exactly for a manager, on an existing binding, unless it is the last instance
      owner's; then that one entry is gone, and else nothing. Without the right it is refused. */
  lemma MemberDeleteLaw(c: Config, st: State, actor: Id, sc: Scope, subject: Id, auditOk: bool)
    requires DirectOk(st)
    ensures var (after, reply) := MemberDeleteStep(c, st, actor, sc, subject, auditOk);
      var goes := Manages(c, st, actor, sc) && (subject, sc) in st.direct &&
          !(sc == InstanceScope && IsLastOwner(st, subject));
      && (forall v, s, r :: Direct(after, v, s, r) <==> Direct(st, v, s, r) && !(goes && (v, s) == (subject, sc)))
      && after == st.(direct := after.direct) && (!goes ==> after == st)
      && (if goes then reply == Done(auditOk) else reply != NoContent)
      && (!Can(c, st, actor, MemberManage, ResourceOf(st, sc)) && (sc.EnvScope? ==> Live(st, sc)) ==>
            reply == if auditOk then Forbidden else ServerError)
      && (Manages(c, st, actor, sc) && !goes ==>
            reply == if sc == InstanceScope && IsLastOwner(st, subject) then Conflict else NotFound)
      && (sc.EnvScope? && !Live(st, sc) ==> reply == NotFound)
  {
    hide Can, IsLastOwner;
    assert (subject, sc) in st.direct ==> Direct(st, subject, sc, st.direct[(subject, sc)]);
  }

  lemma GroupPutLaw(c: Config, st: State, actor: Id, sc: Scope, g: Id, role: Role, auditOk: bool)
    ensures var (after, reply) := GroupPutStep(c, st, actor, sc, g, role, auditOk);
      var goes :=
        && Manages(c, st, actor, sc) && role != NoRole && role != Owner
        && AtLeast(BoundRole(c, st, actor, ResourceOf(st, sc)), role) && g in st.groups;
      && (forall h, s, r :: GroupBound(after, h, s, r) <==>
            if goes && (h, s) == (g, sc) then r == role else GroupBound(st, h, s, r))
      && after == st.(groupBindings := after.groupBindings) && (!goes ==> after == st)
      && (if goes then reply == Done(auditOk) else reply != NoContent)
      && (Manages(c, st, actor, sc) && !goes ==>
            if role == NoRole || role == Owner then reply == BadRequest
            else if !AtLeast(BoundRole(c, st, actor, ResourceOf(st, sc)), role) then reply == Forbidden
            else reply == NotFound)
      && (role != NoRole && role != Owner && !Can(c, st, actor, MemberManage, ResourceOf(st, sc)) &&
            (sc.EnvScope? ==> Live(st, sc)) ==>
            reply == if auditOk then Forbidden else ServerError)
      && (sc.EnvScope? && !Live(st, sc) ==> reply == NotFound)
  {
    hide Can, BoundRole;
  }

  lemma GroupUnbindLaw(c: Config, st: State, actor: Id, sc: Scope, g: Id, auditOk: bool)
    requires GroupBindingsOk(st)
    ensures var (after, reply) := GroupUnbindStep(c, st, actor, sc, g, auditOk);
      var goes := Manages(c, st, actor, sc) && (g, sc) in st.groupBindings;
      && (forall h, s, r :: GroupBound(after, h, s, r) <==> GroupBound(st, h, s, r) && !(goes && (h, s) == (g, sc)))
      && after == st.(groupBindings := after.groupBindings) && (!goes ==> after == st)
      && (if goes then reply == Done(auditOk) else reply != NoContent)
      && (!Can(c, st, actor, MemberManage, ResourceOf(st, sc)) && (sc.EnvScope? ==> Live(st, sc)) ==>
            reply == if auditOk then Forbidden else ServerError)
      && (Manages(c, st, actor, sc) && !goes ==> reply == NotFound)
      && (sc.EnvScope? && !Live(st, sc) ==> reply == NotFound)
  {
    hide Can;
    assert (g, sc) in st.groupBindings ==> GroupBound(st, g, sc, st.groupBindings[(g, sc)]);
  }

  // ---------- groups ----------

  /** Local groups' members are edited by whoever may manage groups on the instance. */
  ghost predicate EditsGroup(c: Config, st: State, actor: Id, g: Id) {
    Can(c, st, actor, GroupManage, INSTANCE) && g in st.groups && !st.groups[g].oidc
  }

  lemma GroupMemberAddLaw(c: Config, st: State, actor: Id, g: Id, u: Id, auditOk: bool)
    ensures var (after, reply) := GroupMemberAddStep(c, st, actor, g, u, auditOk);
      var goes := EditsGroup(c, st, actor, g) && u in st.users;
      && (forall h, v :: (h, v) in after.members <==> (h, v) in st.members || (goes && (h, v) == (g, u)))
      && after == st.(members := after.members)
      && (if goes then reply == Done(auditOk) else after == st && reply != NoContent)
      && (Can(c, st, actor, GroupManage, INSTANCE) && !goes ==>
            reply == if g in st.groups && st.groups[g].oidc then Conflict else NotFound)
      && (!Can(c, st, actor, GroupManage, INSTANCE) ==> reply == if auditOk then Forbidden else ServerError)
  {
    hide Can;
  }

  lemma GroupMemberRemoveLaw(c: Config, st: State, actor: Id, g: Id, u: Id, auditOk: bool)
    ensures var (after, reply) := GroupMemberRemoveStep(c, st, actor, g, u, auditOk);
      var goes := EditsGroup(c, st, actor, g) && (g, u) in st.members;
      && (forall h, v :: (h, v) in after.members <==> (h, v) in st.members && !(goes && (h, v) == (g, u)))
      && after == st.(members := after.members)
      && (if goes then reply == Done(auditOk) else after == st && reply != NoContent)
      && (Can(c, st, actor, GroupManage, INSTANCE) && !goes ==>
            reply == if g in st.groups && st.groups[g].oidc then Conflict else NotFound)
      && (!Can(c, st, actor, GroupManage, INSTANCE) ==> reply == if auditOk then Forbidden else ServerError)
  {
    hide Can;
  }

  /** Deleting a group deletes it, its members and its bindings, and nothing of any other. */
  lemma GroupDeleteLaw(c: Config, st: State, actor: Id, g: Id, auditOk: bool)
    ensures var (after, reply) := GroupDeleteStep(c, st, actor, g, auditOk);
      var goes := Can(c, st, actor, GroupManage, INSTANCE) && g in st.groups;
      && (forall h :: h in after.groups <==> h in st.groups && !(goes && h == g))
      && (forall h :: h in after.groups ==> after.groups[h] == st.groups[h])
      && (forall h, v :: (h, v) in after.members <==> (h, v) in st.members && !(goes && h == g))
      && (forall h, s, r :: GroupBound(after, h, s, r) <==> GroupBound(st, h, s, r) && !(goes && h == g))
      && after.direct == st.direct && after.grants == st.grants
      && (if goes then reply == Done(auditOk) else after == st && reply != NoContent)
      && (!Can(c, st, actor, GroupManage, INSTANCE) ==> reply == if auditOk then Forbidden else ServerError)
      && (Can(c, st, actor, GroupManage, INSTANCE) && !goes ==> reply == NotFound)
  {
    hide Can;
  }

  /** A login sets the user's memberships of OIDC groups to the claimed ones, leaves all others, and counts as
      recent from then on. */
  lemma OidcSyncLaw(c: Config, st: State, u: Id, claimed: set<Id>)
    requires u in st.users && MembersOk(st)
    ensures var after := OidcSyncStep(st, u, claimed);
      && (forall g, v :: (g, v) in after.members <==>
            if v == u && g in st.groups && st.groups[g].oidc then g in claimed else (g, v) in st.members)
      && after == st.(members := after.members, synced := after.synced)
      && (forall g :: g in claimed && g in st.groups && st.groups[g].oidc ==> LiveMember(c, after, g, u))
  {
  }

  /** A membership by login lapses when its login is too old, a local one never does. */
  lemma MembershipsAge(c: Config, st: State, g: Id, u: Id, seconds: nat)
    requires (g, u) in st.members && g in st.groups && u in st.synced && st.synced[u] == st.now && c.maxAge > 0
    ensures LiveMember(c, st.(now := st.now + seconds), g, u) <==> !st.groups[g].oidc || seconds < c.maxAge
  {
  }

  // ---------- break-glass ----------

  /** Trimming takes white space off both ends and nothing else. */
  lemma {:induction false} TrimLeftLaw(s: string) returns (k: nat)
    ensures k <= |s| && TrimLeft(s) == s[k..] && (forall i :: 0 <= i < k ==> IsSpace(s[i]))
    ensures k < |s| ==> !IsSpace(s[k])
  {
    hide IsSpace;
    if s != [] && IsSpace(s[0]) {
      var j := TrimLeftLaw(s[1..]);
      k := j + 1;
      assert s[1..][j..] == s[k..];
      assert forall i :: 0 < i < k ==> s[i] == s[1..][i - 1];
    } else {
      k := 0;
    }
  }

  lemma {:induction false} TrimRightLaw(s: string) returns (k: nat)
    ensures k <= |s| && TrimRight(s) == s[..k] && (forall i :: k <= i < |s| ==> IsSpace(s[i]))
    ensures k > 0 ==> !IsSpace(s[k - 1])
  {
    hide IsSpace;
    if s != [] && IsSpace(s[|s| - 1]) {
      var front := s[..|s| - 1];
      k := TrimRightLaw(front);
      assert front[..k] == s[..k];
      assert forall i :: k <= i < |front| ==> s[i] == front[i];
    } else {
      k := |s|;
    }
  }

  /** An activation goes through exactly with a reason, at a live scope, for a role strictly above a role held there
      through bindings; it then opens that one grant. */
  lemma ActivateLaw(c: Config, st: State, actor: Id, sc: Scope, role: Role, ttl: Option<int>, reason: string, id: Id,
      auditOk: bool, undoOk: bool)
    requires id !in st.grants
    ensures var (after, reply) := ActivateStep(c, st, actor, sc, role, ttl, reason, id, auditOk, undoOk);
      var held := BoundRole(c, st, actor, ResourceOf(st, sc));
      var goes :=
        && TrimSpace(reason) != [] && ByteLength(TrimSpace(reason)) <= 1000 && (ttl.Some? ==> ttl.value > 0)
        && Live(st, sc) && held != NoRole && StrictlyAbove(role, held);
      && (id in after.grants <==> goes) && (goes ==> (after.grants[id].revoked <==> !auditOk && undoOk))
      && (forall k :: k in st.grants ==> k in after.grants && after.grants[k] == st.grants[k])
      && (forall k :: k in after.grants ==> k in st.grants || k == id)
      && after == st.(grants := after.grants)
      && (reply == Created <==> goes && auditOk)
      && (TrimSpace(reason) == [] || role == NoRole || (ttl.Some? && ttl.value <= 0) ==> reply == BadRequest)
      && (held == NoRole ==> reply != Created)
  {
    hide BoundRole, TrimSpace, ByteLength;
  }

  /** A grant that was started and recorded raises the actor's role at its scope at once and for exactly the time asked
      for, or the longest allowed. */
  lemma ActivationLasts(c: Config, st: State, actor: Id, sc: Scope, role: Role, ttl: Option<int>, reason: string,
      id: Id, undoOk: bool, seconds: nat)
    requires c.Valid() && id !in st.grants
    requires id in ActivateStep(c, st, actor, sc, role, ttl, reason, id, true, undoOk).0.grants
    ensures var started := ActivateStep(c, st, actor, sc, role, ttl, reason, id, true, undoOk).0;
      var later := started.(now := started.now + seconds);
      && AtLeast(EffectiveRole(c, started, actor, ResourceOf(started, sc)), role)
      && (Active(later, id) <==> seconds < c.maxTTL && (ttl.Some? ==> seconds < ttl.value))
      && started.grants[id].user == actor && started.grants[id].scope == sc && started.grants[id].role == role
  {
    hide BoundRole, TrimSpace, ByteLength, GrantRole;
    var started := ActivateStep(c, st, actor, sc, role, ttl, reason, id, true, undoOk).0;
    assert started.envs == st.envs && Active(started, id) && Applies(sc, ResourceOf(started, sc));
  }

  /** Ending a grant is for its user or a manager of the instance; it ends that one and no other. */
  lemma GrantRevokeLaw(c: Config, st: State, actor: Id, id: Id, auditOk: bool)
    ensures var (after, reply) := GrantRevokeStep(c, st, actor, id, auditOk);
      var goes :=
        && id in st.grants && !st.grants[id].revoked
        && (st.grants[id].user == actor || Can(c, st, actor, MemberManage, INSTANCE));
      && (forall k :: Active(after, k) <==> Active(st, k) && !(goes && k == id))
      && (forall k :: k in after.grants <==> k in st.grants)
      && (forall k :: k in st.grants && k != id ==> after.grants[k] == st.grants[k])
      && after == st.(grants := after.grants)
      && (if goes then reply == Done(auditOk) else after == st && reply != NoContent)
      && (id !in st.grants ==> reply == NotFound)
      && (id in st.grants && st.grants[id].user == actor && !goes ==> reply == Conflict)
      && (id in st.grants && st.grants[id].user != actor && !Can(c, st, actor, MemberManage, INSTANCE) ==>
            reply == if auditOk then Forbidden else ServerError)
  {
    hide Can;
  }

  /** The sweep changes what is active for nobody; it only marks what has lapsed. */
  lemma SweepLaw(st: State, id: Id)
    ensures Active(SweepStep(st), id) <==> Active(st, id)
    ensures id in SweepStep(st).grants <==> id in st.grants
    ensures id in st.grants ==>
      (SweepStep(st).grants[id].revoked <==> st.grants[id].revoked || st.grants[id].expiresAt <= st.now)
  {
  }

  // ---------- projects ----------

  /** Who gets to own a new project: somebody named or the creator's only group; without the instance's right only
      one of the creator's own creating groups. */
  lemma OwnerGroupLaw(st: State, wanted: Option<Id>, instanceAllowed: bool, groups: seq<Id>)
    ensures var choice := OwnerGroup(st, wanted, instanceAllowed, groups);
      && (forall g :: choice == OwnedBy(g) <==>
            if wanted.Some? then wanted.value == g && (g in groups || (instanceAllowed && g in st.groups))
            else !instanceAllowed && groups == [g])
      && (choice == NoOwnerGroup <==> wanted.None? && instanceAllowed)
      && (choice == Ambiguous <==> wanted.None? && !instanceAllowed && |groups| > 1)
  {
  }

  /** The project is there, its group bound at admin and its creator at owner, and nothing else is. */
  lemma CreateProjectLaw(c: Config, st: State, actor: Id, pid: Id, wanted: Option<Id>, groups: seq<Id>, auditOk: bool)
    ensures var (after, reply) := ProjectCreateStep(c, st, actor, pid, wanted, groups, Both, auditOk);
      var allowed := Can(c, st, actor, ProjectCreate, INSTANCE);
      var owner := OwnerGroup(st, wanted, allowed, groups);
      var goes := (allowed || |groups| > 0) && (owner.NoOwnerGroup? || owner.OwnedBy?) && pid !in st.projects;
      && (forall p :: p in after.projects <==> p in st.projects || (goes && p == pid))
      && (forall v, s, r :: Direct(after, v, s, r) <==>
            if goes && owner.OwnedBy? && (v, s) == (actor, ProjectScope(pid)) then r == Owner else Direct(st, v, s, r))
      && (forall h, s, r :: GroupBound(after, h, s, r) <==>
            if goes && owner.OwnedBy? && (h, s) == (owner.g, ProjectScope(pid))
                then r == Admin else GroupBound(st, h, s, r))
      && after == st.(projects := after.projects, direct := after.direct, groupBindings := after.groupBindings)
      && (reply == Created <==> goes && auditOk) && (!goes ==> after == st)
      && (!allowed && |groups| == 0 ==> reply == if auditOk then Forbidden else ServerError)
      && (owner == Ambiguous && |groups| > 0 ==> reply == BadRequest)
      && (allowed && owner == NotAllowed ==> reply == BadRequest)
  {
    hide Can, OwnerGroup, Seeded;
    var allowed := Can(c, st, actor, ProjectCreate, INSTANCE);
    var owner := OwnerGroup(st, wanted, allowed, groups);
    SeededLaw(st, pid, owner, actor);
  }

  lemma SeededLaw(st: State, pid: Id, owner: Choice, creator: Id)
    ensures var after := Seeded(st, pid, owner, creator, Both);
      && (forall p :: p in after.projects <==> p in st.projects || p == pid)
      && (forall v, s, r :: Direct(after, v, s, r) <==>
            if owner.OwnedBy? && (v, s) == (creator, ProjectScope(pid)) then r == Owner else Direct(st, v, s, r))
      && (forall h, s, r :: GroupBound(after, h, s, r) <==>
            if owner.OwnedBy? && (h, s) == (owner.g, ProjectScope(pid)) then r == Admin else GroupBound(st, h, s, r))
      && after == st.(projects := after.projects, direct := after.direct, groupBindings := after.groupBindings)
  {
  }

  lemma CreateEnvLaw(c: Config, st: State, actor: Id, pid: Id, eid: Id)
    requires eid !in st.envs
    ensures var after := EnvCreateStep(c, st, actor, pid, eid);
      var goes := pid in st.projects && Can(c, st, actor, EnvCreate, Resource(Some(pid), None));
      && (eid in after.envs <==> goes) && (goes ==> after.envs[eid] == pid)
      && (forall e :: e in st.envs ==> e in after.envs && after.envs[e] == st.envs[e])
      && (forall e :: e in after.envs ==> e in st.envs || e == eid) && after == st.(envs := after.envs)
  {
    hide Can;
  }

  /** Deleting marks a live scope and restoring unmarks a trashed one, for an owner of the project or an admin of the
      environment; no binding moves. */
  lemma TrashLaw(c: Config, st: State, actor: Id, sc: Scope, delete: bool, auditOk: bool)
    ensures var (after, reply) := TrashStep(c, st, actor, sc, delete, auditOk);
      var right := if sc.EnvScope? then EnvDelete else ProjectDelete;
      var goes := sc != InstanceScope && ScopeExists(st, sc) && Can(c, st, actor, right, ResourceOf(st, sc)) &&
          delete == Live(st, sc);
      && (forall s :: Live(after, s) <==> if goes && s == sc then !delete else Live(st, s))
      && after == st.(trash := after.trash)
      && (if goes then reply == Done(auditOk) else after == st && reply != NoContent)
  {
    hide Can;
  }

  // ---------- first owners ----------

  /** A boot leaves an instance with users an owner, and grants only if there was none. */
  lemma ReconcileLaw(st: State, oldest: Id)
    requires oldest in st.users
    ensures HasOwner(ReconcileStep(st, oldest))
    ensures forall v, s, r :: Direct(ReconcileStep(st, oldest), v, s, r) <==>
      if !HasOwner(st) && (v, s) == (oldest, InstanceScope) then r == Owner else Direct(st, v, s, r)
    ensures ReconcileStep(st, oldest) == st.(direct := ReconcileStep(st, oldest).direct)
  {
    if HasOwner(st) {
      var u :| IsOwner(st, u);
      OwnersAre(st, u);
    } else {
      if Owners(st) != {} {
        var v :| v in Owners(st);
        OwnersAre(st, v);
      }
      assert IsOwner(ReconcileStep(st, oldest), oldest);
    }
  }

  lemma InitLaw(st: State, u: Id, grantOk: bool)
    ensures var after := InitStep(st, u, grantOk);
      && (forall v :: v in after.users <==> v in st.users || (st.users == {} && v == u))
      && (forall v, s, r :: Direct(after, v, s, r) <==>
            if st.users == {} && grantOk && (v, s) == (u, InstanceScope) then r == Owner else Direct(st, v, s, r))
      && after == st.(users := after.users, direct := after.direct)
  {
  }

  /** The last owner is an owner beside whom there is no other. */
  lemma LastOwnerIff(st: State, u: Id)
    ensures IsLastOwner(st, u) <==> IsOwner(st, u) && forall v :: IsOwner(st, v) ==> v == u
  {
    OwnersAre(st, u);
    if IsLastOwner(st, u) {
      forall v | IsOwner(st, v) ensures v == u {
        OwnersAre(st, v);
        if v != u { Subset({u, v}, Owners(st)); }
      }
    } else if IsOwner(st, u) {
      var w := AnotherOwner(st, u);
    }
  }

  lemma Subset(a: set<Id>, b: set<Id>)
    requires a <= b
    ensures |a| <= |b|
  {
    assert b == a + (b - a);
  }

  // ---------- revoke-all ----------

  /** What one call of revoke-all removes: the loaded bindings at whose scope the caller is at least an admin, and at
      least what the binding gives, through bindings. */
  lemma RevokeAllLaw(c: Config, st: State, actor: Id, target: Id, loaded: set<Scope>)
    ensures var after := RevokeAllStep(c, st, actor, target, loaded);
      var goes := target in st.users && !(InstanceScope in loaded && IsLastOwner(st, target));
      && (forall v, s, r :: Direct(after, v, s, r) <==>
            && Direct(st, v, s, r)
            && !(goes && v == target && s in loaded && AtLeast(BoundRole(c, st, actor, ResourceOf(st, s)),
                Higher(Admin, r))))
      && after == st.(direct := after.direct)
  {
    hide BoundRole, IsLastOwner;
  }
}
