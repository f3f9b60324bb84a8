/** The handlers that change durable authority, each one atomic step over the tables, as a function from
    the tables to the new tables and the reply.
 */
module Handlers {
  import opened Options
  import opened Authz
  import opened Authority

  datatype Reply = NoContent | Created | BadRequest | Forbidden | NotFound | Conflict | ServerError

  /** A denial is itself audited; a failed audit write turns it into a 500. */
  function Denied(auditOk: bool): Reply { if auditOk then Forbidden else ServerError }

  /** A committed change whose audit write fails is reported as a 500 and stays. */
  function Recorded(auditOk: bool): Reply { if auditOk then NoContent else ServerError }

  // ---------- role bindings ----------

  ghost function MemberPutStep(c: Config, st: State, actor: Id, sc: Scope, subject: Id, role: Role,
      auditOk: bool): (State, Reply) {
    if sc.EnvScope? && !Live(st, sc) then (st, NotFound)
    else if role == NoRole then (st, BadRequest)
    else if !Can(c, st, actor, MemberManage, ResourceOf(st, sc)) then (st, Denied(auditOk))
    else if !AtLeast(BoundRole(c, st, actor, ResourceOf(st, sc)), role) then (st, Forbidden)
    else if subject !in st.users then (st, NotFound)
    else if sc == InstanceScope && role != Owner && IsLastOwner(st, subject) then (st, Conflict)
    else if !ScopeExists(st, sc) then (st, ServerError)
    else (st.(direct := st.direct[(subject, sc) := role]), Recorded(auditOk))
  }

  ghost function MemberDeleteStep(c: Config, st: State, actor: Id, sc: Scope, subject: Id, auditOk: bool): (State,
      Reply) {
    if sc.EnvScope? && !Live(st, sc) then (st, NotFound)
    else if !Can(c, st, actor, MemberManage, ResourceOf(st, sc)) then (st, Denied(auditOk))
    else if sc == InstanceScope && IsLastOwner(st, subject) then (st, Conflict)
    else if (subject, sc) !in st.direct then (st, NotFound)
    else (st.(direct := st.direct - {(subject, sc)}), Recorded(auditOk))
  }

  ghost function GroupPutStep(c: Config, st: State, actor: Id, sc: Scope, g: Id, role: Role, auditOk: bool): (State,
      Reply) {
    if sc.EnvScope? && !Live(st, sc) then (st, NotFound)
    else if role == NoRole || role == Owner then (st, BadRequest)
    else if !Can(c, st, actor, MemberManage, ResourceOf(st, sc)) then (st, Denied(auditOk))
    else if !AtLeast(BoundRole(c, st, actor, ResourceOf(st, sc)), role) then (st, Forbidden)
    else if g !in st.groups then (st, NotFound)
    else if !ScopeExists(st, sc) then (st, ServerError)
    else (st.(groupBindings := st.groupBindings[(g, sc) := role]), Recorded(auditOk))
  }

  ghost function GroupUnbindStep(c: Config, st: State, actor: Id, sc: Scope, g: Id, auditOk: bool): (State, Reply) {
    if sc.EnvScope? && !Live(st, sc) then (st, NotFound)
    else if !Can(c, st, actor, MemberManage, ResourceOf(st, sc)) then (st, Denied(auditOk))
    else if (g, sc) !in st.groupBindings then (st, NotFound)
    else (st.(groupBindings := st.groupBindings - {(g, sc)}), Recorded(auditOk))
  }

  // ---------- groups ----------

  ghost function GroupMemberAddStep(c: Config, st: State, actor: Id, g: Id, u: Id, auditOk: bool): (State, Reply) {
    if !Can(c, st, actor, GroupManage, INSTANCE) then (st, Denied(auditOk))
    else if g !in st.groups then (st, NotFound)
    else if st.groups[g].oidc then (st, Conflict)
    else if u !in st.users then (st, NotFound)
    else (st.(members := st.members + {(g, u)}), Recorded(auditOk))
  }

  ghost function GroupMemberRemoveStep(c: Config, st: State, actor: Id, g: Id, u: Id, auditOk: bool): (State, Reply) {
    if !Can(c, st, actor, GroupManage, INSTANCE) then (st, Denied(auditOk))
    else if g !in st.groups then (st, NotFound)
    else if st.groups[g].oidc then (st, Conflict)
    else if (g, u) !in st.members then (st, NotFound)
    else (st.(members := st.members - {(g, u)}), Recorded(auditOk))
  }

  /** Deleting a group takes its members and its bindings with it. */
  function WithoutGroup(st: State, g: Id): State {
    st.(groups := st.groups - {g},
        members := (set m | m in st.members && m.0 != g),
        groupBindings := map k | k in st.groupBindings && k.0 != g :: st.groupBindings[k])
  }

  ghost function GroupDeleteStep(c: Config, st: State, actor: Id, g: Id, auditOk: bool): (State, Reply) {
    if !Can(c, st, actor, GroupManage, INSTANCE) then (st, Denied(auditOk))
    else if g !in st.groups then (st, NotFound)
    else (WithoutGroup(st, g), Recorded(auditOk))
  }

  /** A login with a readable group claim replaces the user's OIDC memberships and stamps the snapshot. */
  function OidcSyncStep(st: State, u: Id, claimed: set<Id>): State {
    if u !in st.users then st
    else
      st.(members := (set m | m in st.members && (m.1 != u || m.0 !in st.groups || !st.groups[m.0].oidc)) +
                     (set g | g in claimed && g in st.groups && st.groups[g].oidc :: (g, u)),
          synced := st.synced[u := st.now])
  }

  // ---------- break-glass ----------

  function Clamped(c: Config, ttl: Option<int>): int {
    if ttl.Some? && ttl.value < c.maxTTL then ttl.value else c.maxTTL
  }

  /** White space as Unicode has it. */
  predicate IsSpace(c: char) {
    || '\U{9}' <= c <= '\U{D}' || c == ' ' || c == '\U{85}' || c == '\U{A0}' || c == '\U{1680}' ||
        '\U{2000}' <= c <= '\U{200A}'
    || c == '\U{2028}' || c == '\U{2029}' || c == '\U{202F}' || c == '\U{205F}' || c == '\U{3000}'
  }

  function TrimLeft(s: string): string { if s != [] && IsSpace(s[0]) then TrimLeft(s[1..]) else s }

  function TrimRight(s: string): string { if s != [] && IsSpace(s[|s| - 1]) then TrimRight(s[..|s| - 1]) else s }

  function TrimSpace(s: string): string { TrimRight(TrimLeft(s)) }

  /** The length of the text in UTF-8. */
  function ByteLength(s: string): nat {
    if s == [] then 0
    else
      var c := s[|s| - 1] as int;
      ByteLength(s[..|s| - 1]) + if c < 0x80 then 1 else if c < 0x800 then 2 else if c < 0x1_0000 then 3 else 4
  }

  const MAX_REASON := 1000

  /** `id` is the fresh id the store would draw; `undoOk` says whether the revoke after a failed audit
      write goes through. */
  ghost function ActivateStep(c: Config, st: State, actor: Id, sc: Scope, role: Role, ttl: Option<int>, reason: string,
                              id: Id, auditOk: bool, undoOk: bool): (State, Reply)
  {
    if TrimSpace(reason) == [] || ByteLength(TrimSpace(reason)) > MAX_REASON || role == NoRole then (st, BadRequest)
    else if ttl.Some? && ttl.value <= 0 then (st, BadRequest)
    else if !Live(st, sc) then (st, NotFound)
    else
      var held := BoundRole(c, st, actor, ResourceOf(st, sc));
      if held == NoRole then (st, Denied(auditOk))
      else if !StrictlyAbove(role, held) then (st, BadRequest)
      else if id in st.grants then (st, ServerError)
      else
        var grant := Grant(actor, sc, role, st.now, st.now + Clamped(c, ttl), !auditOk && undoOk);
        (st.(grants := st.grants[id := grant]), if auditOk then Created else ServerError)
  }

  ghost function GrantRevokeStep(c: Config, st: State, actor: Id, id: Id, auditOk: bool): (State, Reply) {
    if id !in st.grants then (st, NotFound)
    else if st.grants[id].user != actor && !Can(c, st, actor, MemberManage, INSTANCE) then (st, Denied(auditOk))
    else if st.grants[id].revoked then (st, Conflict)
    else (st.(grants := st.grants[id := st.grants[id].(revoked := true)]), Recorded(auditOk))
  }

  function Swept(g: Grant, now: int): Grant {
    if g.expiresAt <= now then g.(revoked := true) else g
  }

  function SweepStep(st: State): State {
    st.(grants := map id | id in st.grants :: Swept(st.grants[id], st.now))
  }

  // ---------- projects ----------

  datatype Choice = NoOwnerGroup | OwnedBy(g: Id) | Ambiguous | NotAllowed

  predicate CreatorGroup(st: State, u: Id, g: Id) {
    g in st.groups && st.groups[g].canCreate && (g, u) in st.members
  }

  /** Which group will own a new project; `groups` are the caller's creating groups in the store's order. */
  function OwnerGroup(st: State, wanted: Option<Id>, instanceAllowed: bool, groups: seq<Id>): Choice {
    match wanted
    case None =>
      if instanceAllowed then NoOwnerGroup
      else if |groups| == 1 then OwnedBy(groups[0])
      else if |groups| == 0 then NotAllowed
      else Ambiguous
    case Some(g) =>
      if g in groups then OwnedBy(g)
      else if !instanceAllowed then NotAllowed
      else if g in st.groups then OwnedBy(g)
      else NotAllowed
  }

  /** How many of the two seeding writes go through: the group's binding first, then the creator's. */
  datatype Seeding = Neither | GroupOnly | Both

  function Seeded(st: State, pid: Id, owner: Choice, creator: Id, seeding: Seeding): State {
    var st1 := st.(projects := st.projects + {pid});
    if !owner.OwnedBy? || seeding == Neither then st1
    else
      var st2 := st1.(groupBindings := st1.groupBindings[(owner.g, ProjectScope(pid)) := Admin]);
      if seeding == GroupOnly then st2 else st2.(direct := st2.direct[(creator, ProjectScope(pid)) := Owner])
  }

  ghost function ProjectCreateStep(c: Config, st: State, actor: Id, pid: Id, wanted: Option<Id>, groups: seq<Id>,
      seeding: Seeding, auditOk: bool): (State, Reply) {
    var instanceAllowed := Can(c, st, actor, ProjectCreate, INSTANCE);
    if !instanceAllowed && |groups| == 0 then (st, Denied(auditOk))
    else
      var owner := OwnerGroup(st, wanted, instanceAllowed, groups);
      if owner == Ambiguous then (st, BadRequest)
      else if owner == NotAllowed then (st, if instanceAllowed then BadRequest else Denied(auditOk))
      else if pid in st.projects then (st, Conflict)
      else (Seeded(st, pid, owner, actor, seeding), if auditOk &&
          (owner.OwnedBy? ==> seeding == Both) then Created else ServerError)
  }

  ghost function EnvCreateStep(c: Config, st: State, actor: Id, pid: Id, eid: Id): State {
    if pid in st.projects && eid !in st.envs && Can(c, st, actor, EnvCreate, Resource(Some(pid), None))
    then st.(envs := st.envs[eid := pid]) else st
  }

  // ---------- the trash ----------

  function DeleteAction(sc: Scope): Action { if sc.EnvScope? then EnvDelete else ProjectDelete }

  /** Soft deletion and restoring only move the mark: bindings at the scope stay where they are. An
      environment is looked up, deleted or not, before the decision; a project only after it. */
  ghost function TrashStep(c: Config, st: State, actor: Id, sc: Scope, delete: bool, auditOk: bool): (State, Reply) {
    if sc.InstanceScope? || (sc.EnvScope? && !ScopeExists(st, sc)) then (st, NotFound)
    else if !Can(c, st, actor, DeleteAction(sc), ResourceOf(st, sc)) then (st, Denied(auditOk))
    else if !ScopeExists(st, sc) || delete == (sc in st.trash) then (st, NotFound)
    else (st.(trash := if delete then st.trash + {sc} else st.trash - {sc}), Recorded(auditOk))
  }

  // ---------- boot ----------

  /** Grant the oldest user instance owner when users exist but no instance owner does. */
  function ReconcileStep(st: State, oldest: Id): State {
    if |Owners(st)| > 0 || st.users == {} || oldest !in st.users then st
    else st.(direct := st.direct[(oldest, InstanceScope) := Owner])
  }

  /** The init ceremony: the very first user, made instance owner; `grantOk` says whether that write goes
      through. */
  function InitStep(st: State, u: Id, grantOk: bool): State {
    if st.users != {} then st
    else
      var st1 := st.(users := {u});
      if grantOk then st1.(direct := st1.direct[(u, InstanceScope) := Owner]) else st1
  }

  // ---------- revoke-all ----------

  /** The cap is the caller's durable role at the binding's own scope. */
  ghost predicate Revocable(c: Config, st: State, actor: Id, target: Id, sc: Scope) {
    (target, sc) in st.direct &&
    var cap := BoundRole(c, st, actor, ResourceOf(st, sc));
    RoleAllows(cap, MemberManage) && AtLeast(cap, st.direct[(target, sc)])
  }

  ghost predicate BlocksLockOut(st: State, target: Id, loaded: set<Scope>) {
    InstanceScope in loaded && IsLastOwner(st, target)
  }

  /** `loaded` is what the bounded query returned of the bindings in view. */
  ghost function RevokeAllStep(c: Config, st: State, actor: Id, target: Id, loaded: set<Scope>): State {
    if target !in st.users || BlocksLockOut(st, target, loaded) then st
    else
      st.(direct := map k | k in st.direct && !(k.0 == target && k.1 in loaded &&
          Revocable(c, st, actor, target, k.1)) :: st.direct[k])
  }
}
