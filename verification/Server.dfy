/** The server over its tables: the engine's queries as loops over rows in no particular order, and the
    handlers as methods, each proved to be one step of the model.
 */
module Server {
  import opened Options
  import opened Authz
  import opened Authority
  import opened Handlers

  class Server {
    const cfg: Config
    var db: State

    constructor (c: Config, st: State)
      ensures cfg == c && db == st
    {
      cfg := c;
      db := st;
    }

    // ---------- queries ----------

    method DirectFor(u: Id) returns (rows: seq<Binding>)
      ensures forall b :: b in rows <==> b.user == u && b.via == None && Direct(db, u, b.scope, b.role)
    {
      rows := [];
      var todo := db.direct.Keys;
      while todo != {}
        invariant todo <= db.direct.Keys
        invariant forall b :: b in rows <==>
          b.user == u && b.via == None && (u, b.scope) !in todo && Direct(db, u, b.scope, b.role)
        decreases |todo|
      {
        var k :| k in todo;
        if k.0 == u {
          rows := rows + [Binding(u, k.1, db.direct[k], None)];
        }
        todo := todo - {k};
      }
    }

    method DerivedFor(u: Id) returns (rows: seq<Binding>)
      ensures forall b :: b in rows <==>
        b.user == u && b.via.Some? && LiveMember(cfg, db, b.via.value, u) &&
            GroupBound(db, b.via.value, b.scope, b.role)
    {
      hide Fresh;
      rows := [];
      var todo := db.groupBindings.Keys;
      while todo != {}
        invariant todo <= db.groupBindings.Keys
        invariant forall b :: b in rows <==>
          && b.user == u && b.via.Some? && (b.via.value, b.scope) !in todo
          && LiveMember(cfg, db, b.via.value, u) && GroupBound(db, b.via.value, b.scope, b.role)
        decreases |todo|
      {
        var k :| k in todo;
        if LiveMember(cfg, db, k.0, u) {
          rows := rows + [Binding(u, k.1, db.groupBindings[k], Some(k.0))];
        }
        todo := todo - {k};
      }
    }

    method BindingsFor(u: Id) returns (rows: seq<Binding>)
      ensures forall b :: b in rows <==> Held(cfg, db, u, b)
    {
      hide Fresh;
      var direct := DirectFor(u);
      var derived := DerivedFor(u);
      rows := direct + derived;
    }

    method BoundRoleOf(u: Id, res: Resource) returns (r: Role)
      ensures r == BoundRole(cfg, db, u, res)
    {
      hide Held;
      var rows := BindingsFor(u);
      r := RoleFromBindings(rows, res);
      HighestIsBound(cfg, db, u, rows, res);
    }

    method GrantsAllow(u: Id, a: Action, res: Resource) returns (ok: bool)
      ensures ok <==> exists id ::
          && Active(db, id) && db.grants[id].user == u
          && Applies(db.grants[id].scope, res) && RoleAllows(db.grants[id].role, a)
    {
      var todo := db.grants.Keys;
      while todo != {}
        invariant todo <= db.grants.Keys
        invariant forall id :: id !in todo ==>
          !(Active(db, id) && db.grants[id].user == u && Applies(db.grants[id].scope, res) &&
              RoleAllows(db.grants[id].role, a))
        decreases |todo|
      {
        var id :| id in todo;
        if Active(db, id) && db.grants[id].user == u && Applies(db.grants[id].scope, res) &&
            RoleAllows(db.grants[id].role, a) {
          return true;
        }
        todo := todo - {id};
      }
      return false;
    }

    method Allowed(u: Id, a: Action, res: Resource) returns (ok: bool)
      ensures ok <==> Can(cfg, db, u, a, res)
    {
      hide Held;
      var rows := BindingsFor(u);
      for i := 0 to |rows|
        invariant forall j :: 0 <= j < i ==> !(Applies(rows[j].scope, res) && RoleAllows(rows[j].role, a))
      {
        if Applies(rows[i].scope, res) && RoleAllows(rows[i].role, a) {
          assert rows[i] in rows;
          return true;
        }
      }
      ok := GrantsAllow(u, a, res);
    }

    /** The rows at instance scope are scanned only when the count leaves a single owner possible. */
    method IsLastInstanceOwner(u: Id) returns (last: bool)
      ensures last <==> IsLastOwner(db, u)
    {
      if |Owners(db)| > 1 {
        return false;
      }
      var todo := db.direct.Keys;
      while todo != {}
        invariant todo <= db.direct.Keys
        invariant IsOwner(db, u) ==> (u, InstanceScope) in todo
        decreases |todo|
      {
        var k :| k in todo;
        if k.1 == InstanceScope && k.0 == u && db.direct[k] == Owner {
          return true;
        }
        todo := todo - {k};
      }
      return false;
    }

    // ---------- role bindings ----------

    method MemberPut(actor: Id, sc: Scope, subject: Id, role: Role, auditOk: bool) returns (reply: Reply)
      modifies this
      ensures (db, reply) == MemberPutStep(cfg, old(db), actor, sc, subject, role, auditOk)
    {
      hide Can, BoundRole, IsLastOwner;
      if sc.EnvScope? && !Live(db, sc) { return NotFound; }
      if role == NoRole { return BadRequest; }
      var allowed := Allowed(actor, MemberManage, ResourceOf(db, sc));
      if !allowed { return Denied(auditOk); }
      var cap := BoundRoleOf(actor, ResourceOf(db, sc));
      if !AtLeast(cap, role) { return Forbidden; }
      if subject !in db.users { return NotFound; }
      if sc == InstanceScope && role != Owner {
        var last := IsLastInstanceOwner(subject);
        if last { return Conflict; }
      }
      if !ScopeExists(db, sc) { return ServerError; }
      db := db.(direct := db.direct[(subject, sc) := role]);
      return Recorded(auditOk);
    }

    method MemberDelete(actor: Id, sc: Scope, subject: Id, auditOk: bool) returns (reply: Reply)
      modifies this
      ensures (db, reply) == MemberDeleteStep(cfg, old(db), actor, sc, subject, auditOk)
    {
      hide Can, IsLastOwner;
      if sc.EnvScope? && !Live(db, sc) { return NotFound; }
      var allowed := Allowed(actor, MemberManage, ResourceOf(db, sc));
      if !allowed { return Denied(auditOk); }
      if sc == InstanceScope {
        var last := IsLastInstanceOwner(subject);
        if last { return Conflict; }
      }
      if (subject, sc) !in db.direct { return NotFound; }
      db := db.(direct := db.direct - {(subject, sc)});
      return Recorded(auditOk);
    }

    method GroupPut(actor: Id, sc: Scope, g: Id, role: Role, auditOk: bool) returns (reply: Reply)
      modifies this
      ensures (db, reply) == GroupPutStep(cfg, old(db), actor, sc, g, role, auditOk)
    {
      hide Can, BoundRole;
      if sc.EnvScope? && !Live(db, sc) { return NotFound; }
      if role == NoRole || role == Owner { return BadRequest; }
      var allowed := Allowed(actor, MemberManage, ResourceOf(db, sc));
      if !allowed { return Denied(auditOk); }
      var cap := BoundRoleOf(actor, ResourceOf(db, sc));
      if !AtLeast(cap, role) { return Forbidden; }
      if g !in db.groups { return NotFound; }
      if !ScopeExists(db, sc) { return ServerError; }
      db := db.(groupBindings := db.groupBindings[(g, sc) := role]);
      return Recorded(auditOk);
    }

    method GroupUnbind(actor: Id, sc: Scope, g: Id, auditOk: bool) returns (reply: Reply)
      modifies this
      ensures (db, reply) == GroupUnbindStep(cfg, old(db), actor, sc, g, auditOk)
    {
      hide Can;
      if sc.EnvScope? && !Live(db, sc) { return NotFound; }
      var allowed := Allowed(actor, MemberManage, ResourceOf(db, sc));
      if !allowed { return Denied(auditOk); }
      if (g, sc) !in db.groupBindings { return NotFound; }
      db := db.(groupBindings := db.groupBindings - {(g, sc)});
      return Recorded(auditOk);
    }

    // ---------- groups ----------

    method GroupMemberAdd(actor: Id, g: Id, u: Id, auditOk: bool) returns (reply: Reply)
      modifies this
      ensures (db, reply) == GroupMemberAddStep(cfg, old(db), actor, g, u, auditOk)
    {
      hide Can;
      var allowed := Allowed(actor, GroupManage, INSTANCE);
      if !allowed { return Denied(auditOk); }
      if g !in db.groups { return NotFound; }
      if db.groups[g].oidc { return Conflict; }
      if u !in db.users { return NotFound; }
      db := db.(members := db.members + {(g, u)});
      return Recorded(auditOk);
    }

    method GroupMemberRemove(actor: Id, g: Id, u: Id, auditOk: bool) returns (reply: Reply)
      modifies this
      ensures (db, reply) == GroupMemberRemoveStep(cfg, old(db), actor, g, u, auditOk)
    {
      hide Can;
      var allowed := Allowed(actor, GroupManage, INSTANCE);
      if !allowed { return Denied(auditOk); }
      if g !in db.groups { return NotFound; }
      if db.groups[g].oidc { return Conflict; }
      if (g, u) !in db.members { return NotFound; }
      db := db.(members := db.members - {(g, u)});
      return Recorded(auditOk);
    }

    method GroupDelete(actor: Id, g: Id, auditOk: bool) returns (reply: Reply)
      modifies this
      ensures (db, reply) == GroupDeleteStep(cfg, old(db), actor, g, auditOk)
    {
      hide Can;
      var allowed := Allowed(actor, GroupManage, INSTANCE);
      if !allowed { return Denied(auditOk); }
      if g !in db.groups { return NotFound; }
      db := WithoutGroup(db, g);
      return Recorded(auditOk);
    }

    // ---------- break-glass ----------

    /** The grant is opened first; a failed audit write revokes it again, if that write goes through. */
    method Activate(actor: Id, sc: Scope, role: Role, ttl: Option<int>, reason: string, id: Id, auditOk: bool,
        undoOk: bool)
      returns (reply: Reply)
      modifies this
      ensures (db, reply) == ActivateStep(cfg, old(db), actor, sc, role, ttl, reason, id, auditOk, undoOk)
    {
      hide BoundRole, TrimSpace, ByteLength;
      var text := TrimSpace(reason);
      if text == [] { return BadRequest; }
      if ByteLength(text) > MAX_REASON { return BadRequest; }
      if role == NoRole { return BadRequest; }
      var span := cfg.maxTTL;
      if ttl.Some? {
        if ttl.value <= 0 { return BadRequest; }
        if ttl.value < span { span := ttl.value; }
      }
      if !Live(db, sc) { return NotFound; }
      var held := BoundRoleOf(actor, ResourceOf(db, sc));
      if held == NoRole { return Denied(auditOk); }
      if !StrictlyAbove(role, held) { return BadRequest; }
      if id in db.grants { return ServerError; }
      var grant := Grant(actor, sc, role, db.now, db.now + span, false);
      db := db.(grants := db.grants[id := grant]);
      if !auditOk {
        if undoOk {
          assert db.grants[id := grant.(revoked := true)] == old(db).grants[id := grant.(revoked := true)];
          db := db.(grants := db.grants[id := grant.(revoked := true)]);
        }
        return ServerError;
      }
      return Created;
    }

    method GrantRevoke(actor: Id, id: Id, auditOk: bool) returns (reply: Reply)
      modifies this
      ensures (db, reply) == GrantRevokeStep(cfg, old(db), actor, id, auditOk)
    {
      hide Can;
      if id !in db.grants { return NotFound; }
      if db.grants[id].user != actor {
        var allowed := Allowed(actor, MemberManage, INSTANCE);
        if !allowed { return Denied(auditOk); }
      }
      if db.grants[id].revoked { return Conflict; }
      db := db.(grants := db.grants[id := db.grants[id].(revoked := true)]);
      return Recorded(auditOk);
    }

    /** One pass over the grants whose time is up. */
    method SweepExpired()
      modifies this
      ensures db == SweepStep(old(db))
    {
      var grants, todo := db.grants, db.grants.Keys;
      while todo != {}
        invariant db == old(db)
        invariant todo <= grants.Keys == db.grants.Keys
        invariant forall id :: id in grants ==>
          grants[id] == if id in todo then db.grants[id] else Swept(db.grants[id], db.now)
        decreases |todo|
      {
        var id :| id in todo;
        if grants[id].expiresAt <= db.now {
          grants := grants[id := grants[id].(revoked := true)];
        }
        todo := todo - {id};
      }
      db := db.(grants := grants);
    }

    // ---------- projects and boot ----------

    method ResolveOwnerGroup(wanted: Option<Id>, instanceAllowed: bool, groups: seq<Id>) returns (choice: Choice)
      ensures choice == OwnerGroup(db, wanted, instanceAllowed, groups)
    {
      if wanted.None? {
        if instanceAllowed { return NoOwnerGroup; }
        if |groups| == 0 { return NotAllowed; }
        if |groups| == 1 { return OwnedBy(groups[0]); }
        return Ambiguous;
      }
      for i := 0 to |groups|
        invariant wanted.value !in groups[..i]
      {
        if groups[i] == wanted.value { return OwnedBy(wanted.value); }
      }
      assert groups[..|groups|] == groups;
      if !instanceAllowed || wanted.value !in db.groups { return NotAllowed; }
      return OwnedBy(wanted.value);
    }

    /** The groups that let the user create projects, each once, in some order. */
    method CreatorGroupsFor(u: Id) returns (groups: seq<Id>)
      ensures forall g :: g in groups <==> g in db.groups && db.groups[g].canCreate && (g, u) in db.members
      ensures forall i, j :: 0 <= i < j < |groups| ==> groups[i] != groups[j]
    {
      groups := [];
      var todo := db.groups.Keys;
      while todo != {}
        invariant todo <= db.groups.Keys
        invariant forall g :: g in groups <==> CreatorGroup(db, u, g) && g !in todo
        invariant forall i, j :: 0 <= i < j < |groups| ==> groups[i] != groups[j]
        decreases |todo|
      {
        var g :| g in todo;
        if CreatorGroup(db, u, g) {
          groups := groups + [g];
        }
        todo := todo - {g};
      }
    }

    method CreateProject(actor: Id, pid: Id, wanted: Option<Id>, seeding: Seeding, auditOk: bool)
      returns (reply: Reply, groups: seq<Id>)
      modifies this
      ensures forall g :: g in groups <==>
          g in old(db).groups && old(db).groups[g].canCreate && (g, actor) in old(db).members
      ensures forall i, j :: 0 <= i < j < |groups| ==> groups[i] != groups[j]
      ensures (db, reply) == ProjectCreateStep(cfg, old(db), actor, pid, wanted, groups, seeding, auditOk)
    {
      hide Can, OwnerGroup;
      var instanceAllowed := Allowed(actor, ProjectCreate, INSTANCE);
      groups := CreatorGroupsFor(actor);
      if !instanceAllowed && |groups| == 0 { return Denied(auditOk), groups; }
      var owner := ResolveOwnerGroup(wanted, instanceAllowed, groups);
      if owner == Ambiguous { return BadRequest, groups; }
      if owner == NotAllowed {
        if instanceAllowed { return BadRequest, groups; }
        return Denied(auditOk), groups;
      }
      if pid in db.projects { return Conflict, groups; }
      db := db.(projects := db.projects + {pid});
      if owner.OwnedBy? {
        if seeding == Neither { return ServerError, groups; }
        db := db.(groupBindings := db.groupBindings[(owner.g, ProjectScope(pid)) := Admin]);
        if seeding == GroupOnly { return ServerError, groups; }
        db := db.(direct := db.direct[(actor, ProjectScope(pid)) := Owner]);
      }
      if auditOk { return Created, groups; }
      return ServerError, groups;
    }

    method SetTrashed(actor: Id, sc: Scope, delete: bool, auditOk: bool) returns (reply: Reply)
      modifies this
      ensures (db, reply) == TrashStep(cfg, old(db), actor, sc, delete, auditOk)
    {
      hide Can;
      if sc.InstanceScope? || (sc.EnvScope? && !ScopeExists(db, sc)) { return NotFound; }
      var allowed := Allowed(actor, DeleteAction(sc), ResourceOf(db, sc));
      if !allowed { return Denied(auditOk); }
      if !ScopeExists(db, sc) || delete == (sc in db.trash) { return NotFound; }
      db := db.(trash := if delete then db.trash + {sc} else db.trash - {sc});
      return Recorded(auditOk);
    }

    method BootstrapAdmin(u: Id, grantOk: bool)
      modifies this
      ensures db == InitStep(old(db), u, grantOk)
    {
      if db.users != {} { return; }
      db := db.(users := {u});
      if grantOk {
        db := db.(direct := db.direct[(u, InstanceScope) := Owner]);
      }
    }

    method ReconcileInstanceOwner(oldest: Id)
      modifies this
      ensures db == ReconcileStep(old(db), oldest)
    {
      if |Owners(db)| > 0 || db.users == {} || oldest !in db.users { return; }
      db := db.(direct := db.direct[(oldest, InstanceScope) := Owner]);
    }
  }
}
