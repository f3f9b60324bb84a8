/** Offboarding in one call: what revoke-all removes, what it leaves, and what its `complete` means.
 */
module RevokeAll {
  import opened Options
  import opened Authz
  import opened Authority
  import opened Handlers
  import opened Server
  import opened AccessView

  datatype Report = Report(revoked: seq<Scope>, skipped: seq<Scope>, groupsLeft: nat, grantsLeft: nat,
      cutBindings: bool, complete: bool)

  datatype Outcome = UserNotFound | LastOwner | Done(report: Report)

  /** The scopes whose direct binding the bounded query returned. */
  function Loaded(rows: seq<Binding>): set<Scope> { set b | b in rows && b.via.None? :: b.scope }

  function Scopes(q: seq<Scope>): set<Scope> { set sc | sc in q }

  method Split(rows: seq<Binding>) returns (direct: seq<Binding>, viaGroup: seq<Binding>)
    ensures forall b :: b in direct <==> b in rows && b.via.None?
    ensures forall b :: b in viaGroup <==> b in rows && b.via.Some?
    ensures Distinct(rows) ==> Distinct(direct)
  {
    direct, viaGroup := [], [];
    for i := 0 to |rows|
      invariant forall b :: b in direct <==> b in rows[..i] && b.via.None?
      invariant forall b :: b in viaGroup <==> b in rows[..i] && b.via.Some?
      invariant Distinct(rows) ==> Distinct(direct)
    {
      assert Distinct(rows) ==> rows[i] !in rows[..i];
      if rows[i].via.Some? {
        viaGroup := viaGroup + [rows[i]];
      } else {
        direct := direct + [rows[i]];
      }
    }
    assert rows[..|rows|] == rows;
  }

  /** One load of the caller's bindings for all the scopes in play, before anything is removed. */
  method Caps(s: Server, actor: Id, direct: seq<Binding>) returns (caps: seq<Role>)
    ensures |caps| == |direct|
    ensures forall i :: 0 <= i < |direct| ==> caps[i] == BoundRole(s.cfg, s.db, actor,
        ResourceOf(s.db, direct[i].scope))
  {
    hide BoundRole, Held;
    var held := s.BindingsFor(actor);
    caps := [];
    for i := 0 to |direct|
      invariant |caps| == i
      invariant forall j :: 0 <= j < i ==> caps[j] == BoundRole(s.cfg, s.db, actor, ResourceOf(s.db, direct[j].scope))
    {
      var res := ResourceOf(s.db, direct[i].scope);
      var r := RoleFromBindings(held, res);
      HighestIsBound(s.cfg, s.db, actor, held, res);
      caps := caps + [r];
    }
  }

  method ActiveInView(s: Server, target: Id, v: View) returns (n: nat)
    ensures n == 0 <==> forall id :: Active(s.db, id) && s.db.grants[id].user == target ==>
        !Covers(v, s.db.grants[id].scope)
  {
    n := 0;
    var todo := s.db.grants.Keys;
    while todo != {}
      invariant todo <= s.db.grants.Keys
      invariant n == 0 <==> forall id :: id !in todo && Active(s.db, id) && s.db.grants[id].user == target ==>
          !Covers(v, s.db.grants[id].scope)
      decreases |todo|
    {
      var id :| id in todo;
      if Active(s.db, id) && s.db.grants[id].user == target && Covers(v, s.db.grants[id].scope) {
        n := n + 1;
      }
      todo := todo - {id};
    }
  }

  /** The deletion loop, in whatever order the rows came. Each row is judged by the snapshotted cap, so
      that the caller's own bindings may be among those removed. */
  method Sweep(s: Server, ghost actor: Id, target: Id, direct: seq<Binding>, caps: seq<Role>)
    returns (revoked: seq<Scope>, skipped: seq<Scope>)
    requires Distinct(direct) && |caps| == |direct|
    requires forall b :: b in direct ==> b.user == target && b.via.None? && Direct(s.db, target, b.scope, b.role)
    requires forall i :: 0 <= i < |direct| ==> caps[i] == BoundRole(s.cfg, s.db, actor,
        ResourceOf(s.db, direct[i].scope))
    modifies s
    ensures Scopes(revoked) == set sc | sc in Loaded(direct) && Revocable(s.cfg, old(s.db), actor, target, sc)
    ensures Scopes(skipped) == Loaded(direct) - Scopes(revoked)
    ensures s.db == Without(old(s.db), target, Scopes(revoked))
  {
    hide BoundRole;
    revoked, skipped := [], [];
    for i := 0 to |direct|
      invariant s.db == Without(old(s.db), target, Scopes(revoked))
      invariant Scopes(revoked) == set sc | sc in Loaded(direct[..i]) && Revocable(s.cfg, old(s.db), actor, target, sc)
      invariant Scopes(skipped) == Loaded(direct[..i]) - Scopes(revoked)
    {
      var b := direct[i];
      assert b in direct;
      FreshRow(direct, i, target, old(s.db));
      ghost var before := revoked;
      if !RoleAllows(caps[i], MemberManage) || !AtLeast(caps[i], b.role) {
        skipped := skipped + [b.scope];
        ScopesSnoc(skipped, b.scope);
      } else {
        s.db := s.db.(direct := s.db.direct - {(target, b.scope)});
        revoked := revoked + [b.scope];
        ScopesSnoc(revoked, b.scope);
        assert s.db.direct == Without(old(s.db), target, Scopes(revoked)).direct;
      }
    }
    assert direct[..|direct|] == direct;
  }

  function Without(st: State, target: Id, gone: set<Scope>): State {
    st.(direct := map k | k in st.direct && !(k.0 == target && k.1 in gone) :: st.direct[k])
  }

  lemma ScopesSnoc(q: seq<Scope>, sc: Scope)
    requires |q| > 0 && q[|q| - 1] == sc
    ensures Scopes(q) == Scopes(q[..|q| - 1]) + {sc}
  {
  }

  lemma FreshRow(direct: seq<Binding>, i: nat, target: Id, st: State)
    requires i < |direct| && Distinct(direct)
    requires forall b :: b in direct ==> b.user == target && b.via.None? && Direct(st, target, b.scope, b.role)
    ensures direct[i].scope !in Loaded(direct[..i])
    ensures Loaded(direct[..i + 1]) == Loaded(direct[..i]) + {direct[i].scope}
  {
  }

  // ---------- the handler ----------

  /** The direct bindings in view, as scopes. */
  function InView(st: State, target: Id, v: View): set<Scope> {
    set k | k in st.direct && k.0 == target && Covers(v, k.1) :: k.1
  }

  lemma LoadedAreInView(st: State, target: Id, v: View, rows: seq<Binding>, cut: bool)
    requires forall b :: b in rows ==> Reviewed(st, v, Some(target), b)
    requires !cut ==> forall b :: Reviewed(st, v, Some(target), b) ==> b in rows
    ensures Loaded(rows) <= InView(st, target, v)
    ensures !cut ==> Loaded(rows) == InView(st, target, v)
  {
    forall sc | sc in Loaded(rows) ensures sc in InView(st, target, v) {
      var b :| b in rows && b.via.None? && b.scope == sc;
      assert (target, sc) in st.direct;
    }
    if !cut {
      forall sc | sc in InView(st, target, v) ensures sc in Loaded(rows) {
        assert (target, sc) in st.direct;
        var b := Binding(target, sc, st.direct[(target, sc)], None);
        assert Reviewed(st, v, Some(target), b);
      }
    }
  }

  /** Nobody's effective role is left at a scope in view, however old the membership behind it. */
  ghost predicate Cleared(st: State, target: Id, v: View) {
    forall sc :: Covers(v, sc) ==> EffectiveRole(AGELESS, st, target, ResourceOf(st, sc)) == NoRole
  }

  /** Never-lock-out, before anything is removed. */
  method Blocked(s: Server, target: Id, direct: seq<Binding>) returns (blocked: bool)
    requires Distinct(direct)
    requires forall b :: b in direct ==> b.user == target && b.via.None? && Direct(s.db, target, b.scope, b.role)
    ensures blocked <==> BlocksLockOut(s.db, target, Loaded(direct))
  {
    hide IsLastOwner;
    for i := 0 to |direct|
      invariant InstanceScope in Loaded(direct[..i]) ==> !IsLastOwner(s.db, target)
    {
      assert direct[i] in direct;
      FreshRow(direct, i, target, s.db);
      OnlyOwnersLast(s.db, target);
      if direct[i].scope == InstanceScope && direct[i].role == Owner {
        var last := s.IsLastInstanceOwner(target);
        if last {
          return true;
        }
      }
    }
    assert direct[..|direct|] == direct;
    return false;
  }

  /** The handler, on a view it has resolved. It removes exactly the in-view direct bindings the caller's
      durable role may remove -- all those of the bounded load, in any order, even the caller's own -- or
      refuses outright; and `complete` is true exactly when the instance is in view, nothing was cut, and
      the target is left without any effective role in view. */
  method RevokeAccess(s: Server, actor: Id, target: Id, v: View) returns (out: Outcome)
    requires Valid(s.cfg, s.db) && Nested(s.db, v)
    modifies s
    ensures out == UserNotFound <==> target !in old(s.db).users
    ensures !out.Done? ==> s.db == old(s.db)
    ensures out == LastOwner ==> v.instance && IsLastOwner(old(s.db), target)
    ensures out.Done? ==>
      var rep := out.report;
      var loaded := Scopes(rep.revoked) + Scopes(rep.skipped);
      && s.db == RevokeAllStep(s.cfg, old(s.db), actor, target, loaded)
      && loaded <= InView(old(s.db), target, v)
      && (!rep.cutBindings ==> loaded == InView(old(s.db), target, v))
      && (v.instance && !rep.cutBindings ==> !IsLastOwner(old(s.db), target))
      && (forall sc :: sc in loaded ==> (sc in rep.revoked <==> Revocable(s.cfg, old(s.db), actor, target, sc)))
      && (rep.complete <==> v.instance && !v.cutProjects && !v.cutEnvs && !rep.cutBindings && Cleared(s.db, target, v))
  {
    hide BoundRole, GrantRole, IsLastOwner, Revocable, Reviewed, Cleared, Valid, Nested, RevokeAllStep, Without;
    if target !in s.db.users {
      return UserNotFound;
    }
    OnlyOwnersLast(s.db, target);
    assert v.instance && IsLastOwner(s.db, target) ==> InstanceScope in InView(s.db, target, v) by {
      assert v.instance && IsLastOwner(s.db, target) ==> (target, InstanceScope) in s.db.direct;
    }
    var rows, cut := LoadBindings(s, v, Some(target));
    RowsAreDirect(s.db, v, target, rows);
    LoadedAreInView(s.db, target, v, rows, cut);
    var direct, viaGroup := Split(rows);
    assert Loaded(direct) == Loaded(rows);
    var blocked := Blocked(s, target, direct);
    if blocked {
      return LastOwner;
    }
    var caps := Caps(s, actor, direct);
    var revoked, skipped := Sweep(s, actor, target, direct, caps);
    var grantsLeft := ActiveInView(s, target, v);
    var complete := v.instance && !v.cutProjects && !v.cutEnvs && !cut && |skipped| == 0 && |viaGroup| == 0 &&
        grantsLeft == 0;
    assert Scopes(revoked) + Scopes(skipped) == Loaded(direct);
    out := Done(Report(revoked, skipped, |viaGroup|, grantsLeft, cut, complete));
    SweepIsStep(s.cfg, old(s.db), actor, target, Loaded(direct), Scopes(revoked), s.db);
    if v.instance && !cut {
      CompleteIffCleared(s.cfg, old(s.db), s.db, target, v, rows, viaGroup, Scopes(revoked), skipped, grantsLeft);
    }
  }

  lemma RowsAreDirect(st: State, v: View, target: Id, rows: seq<Binding>)
    requires forall b :: b in rows ==> Reviewed(st, v, Some(target), b)
    ensures forall b :: b in rows && b.via.None? ==>
        b.user == target && Direct(st, target, b.scope, b.role) && Covers(v, b.scope)
  {
  }

  lemma OnlyOwnersLast(st: State, u: Id)
    ensures IsLastOwner(st, u) ==> Direct(st, u, InstanceScope, Owner)
  {
  }

  lemma SweepIsStep(c: Config, st: State, actor: Id, target: Id, loaded: set<Scope>, gone: set<Scope>, after: State)
    requires target in st.users && !BlocksLockOut(st, target, loaded)
    requires gone == set sc | sc in loaded && Revocable(c, st, actor, target, sc)
    requires after == Without(st, target, gone)
    ensures after == RevokeAllStep(c, st, actor, target, loaded)
  {
  }

  lemma CompleteIffCleared(c: Config, st: State, after: State, target: Id, v: View, rows: seq<Binding>,
      viaGroup: seq<Binding>,
                           gone: set<Scope>, skipped: seq<Scope>, grantsLeft: nat)
    requires Valid(c, st) && Nested(st, v) && v.instance
    requires forall b :: b in rows <==> Reviewed(st, v, Some(target), b)
    requires forall b :: b in viaGroup <==> b in rows && b.via.Some?
    requires gone <= Loaded(rows) && Scopes(skipped) == Loaded(rows) - gone
    requires after == Without(st, target, gone)
    requires grantsLeft == 0 <==> forall id :: Active(after, id) && after.grants[id].user == target ==>
        !Covers(v, after.grants[id].scope)
    ensures Cleared(after, target, v) <==> |skipped| == 0 && |viaGroup| == 0 && grantsLeft == 0
  {
    hide Valid, Reviewed;
    if |skipped| == 0 && |viaGroup| == 0 && grantsLeft == 0 {
      forall sc | Covers(v, sc) ensures EffectiveRole(AGELESS, after, target, ResourceOf(after, sc)) == NoRole {
        NothingApplies(st, after, target, v, rows, viaGroup, gone, skipped, sc);
        NoGrantApplies(st, after, target, v, sc);
      }
    } else if Cleared(after, target, v) {
      if |skipped| > 0 {
        SkippedStays(c, st, after, target, v, rows, gone, skipped);
      } else if |viaGroup| > 0 {
        GroupStays(c, st, after, target, v, rows, viaGroup[0], gone);
      } else {
        GrantStays(c, st, after, target, v);
      }
    }
  }

  lemma NothingApplies(st: State, after: State, target: Id, v: View, rows: seq<Binding>, viaGroup: seq<Binding>,
                       gone: set<Scope>, skipped: seq<Scope>, sc: Scope)
    requires Nested(st, v) && v.instance && Covers(v, sc)
    requires forall b :: b in rows <==> Reviewed(st, v, Some(target), b)
    requires forall b :: b in viaGroup <==> b in rows && b.via.Some?
    requires gone <= Loaded(rows) && Scopes(skipped) == Loaded(rows) - gone && skipped == [] && viaGroup == []
    requires after == Without(st, target, gone)
    ensures BoundRole(AGELESS, after, target, ResourceOf(after, sc)) == NoRole
  {
    hide BoundRole;
    assert Loaded(rows) <= gone by {
      forall k | k in Loaded(rows) ensures k in gone { assert k !in Scopes(skipped); }
    }
    forall b: Binding | Applies(b.scope, ResourceOf(after, sc)) &&
        Held(AGELESS, st, target, b) ensures !Held(AGELESS, after, target, b) {
      ReachesFromView(st, v, sc, b.scope);
      assert Reviewed(st, v, Some(target), b);
      assert b in rows && b.via.None?;
      assert b.scope in Loaded(rows);
    }
    assert forall b :: Held(AGELESS, after, target, b) ==> Held(AGELESS, st, target, b);
  }

  lemma NoGrantApplies(st: State, after: State, target: Id, v: View, sc: Scope)
    requires Nested(st, v) && v.instance && Covers(v, sc) && after.envs == st.envs
    requires forall id :: Active(after, id) && after.grants[id].user == target ==> !Covers(v, after.grants[id].scope)
    ensures GrantRole(after, target, ResourceOf(after, sc)) == NoRole
  {
  }

  lemma SkippedStays(c: Config, st: State, after: State, target: Id, v: View, rows: seq<Binding>, gone: set<Scope>,
      skipped: seq<Scope>)
    requires Valid(c, st) && Nested(st, v)
    requires forall b :: b in rows <==> Reviewed(st, v, Some(target), b)
    requires Scopes(skipped) == Loaded(rows) - gone && |skipped| > 0 && after == Without(st, target, gone)
    ensures !Cleared(after, target, v)
  {
    hide BoundRole;
    var sc := skipped[0];
    assert sc in Scopes(skipped);
    var b :| b in rows && b.via.None? && b.scope == sc;
    assert Held(AGELESS, after, target, b) && b.role != NoRole;
    assert Applies(sc, ResourceOf(after, sc));
  }

  lemma GroupStays(c: Config, st: State, after: State, target: Id, v: View, rows: seq<Binding>, b: Binding,
      gone: set<Scope>)
    requires Valid(c, st) && Nested(st, v)
    requires forall b :: b in rows <==> Reviewed(st, v, Some(target), b)
    requires b in rows && b.via.Some? && after == Without(st, target, gone)
    ensures !Cleared(after, target, v)
  {
  }

  lemma GrantStays(c: Config, st: State, after: State, target: Id, v: View)
    requires Valid(c, st) && after.grants == st.grants && after.now == st.now
    requires !forall id :: Active(after, id) && after.grants[id].user == target ==> !Covers(v, after.grants[id].scope)
    ensures !Cleared(after, target, v)
  {
  }

  /** ... and the engine, which honours no more than the review shows, then refuses the target everything
      in view. */
  lemma ClearedForTheEngine(c: Config, st: State, target: Id, v: View, sc: Scope)
    requires Cleared(st, target, v) && Covers(v, sc)
    ensures EffectiveRole(c, st, target, ResourceOf(st, sc)) == NoRole
    ensures forall a :: !Can(c, st, target, a, ResourceOf(st, sc))
  {
  }

  // ---------- complete, and what the trash holds ----------

  /** The scope and its project are there and not in the trash. */
  predicate InSight(st: State, sc: Scope) {
    Live(st, sc) && (sc.EnvScope? ==> Live(st, ProjectScope(st.envs[sc.eid])))
  }

  /** A view of the whole instance that nothing was cut from covers every scope in sight. */
  lemma WholeInstance(c: Config, st: State, actor: Id, a: Action, v: View, sc: Scope)
    requires ViewOf(c, st, actor, a, None, v) && v.instance && !v.cutProjects && !v.cutEnvs && InSight(st, sc)
    ensures Covers(v, sc)
  {
    hide Can;
    var res := ResourceOf(st, sc);
    if res.project.Some? {
      var p := res.project.value;
      InstanceCoversAll(c, st, actor, a, Resource(Some(p), None));
      assert Reviewable(c, st, actor, a, None, p);
    }
  }

  /** The target holds something, of whatever age, at a scope that is in the trash or whose project is. */
  ghost predicate HoldsInTrash(st: State, u: Id) {
    || (exists b :: Held(AGELESS, st, u, b) && !InSight(st, b.scope))
    || (exists id ::
          && Active(st, id) && st.grants[id].user == u
          && ScopeExists(st, st.grants[id].scope) && !InSight(st, st.grants[id].scope))
  }

  /** Whatever is put into the trash or restored from it, the target has no role at any scope then in
      sight. */
  ghost predicate GoneForGood(st: State, u: Id) {
    forall trash, sc :: InSight(st.(trash := trash), sc) ==>
      EffectiveRole(AGELESS, st.(trash := trash), u, ResourceOf(st, sc)) == NoRole
  }

  /** Roles do not depend on the trash. */
  lemma TrashChangesNoRole(c: Config, st: State, trash: set<Scope>, u: Id, res: Resource)
    ensures EffectiveRole(c, st.(trash := trash), u, res) == EffectiveRole(c, st, u, res)
  {
    var after := st.(trash := trash);
    assert forall b :: Held(c, after, u, b) <==> Held(c, st, u, b);
    assert forall id :: Active(after, id) <==> Active(st, id);
    hide Held, Active;
  }

  /** With nothing left in sight, nothing comes back exactly if nothing is held in the trash. */
  lemma ForGoodIffNothingInTrash(c: Config, st: State, u: Id)
    requires Valid(c, st)
    requires forall sc :: InSight(st, sc) ==> EffectiveRole(AGELESS, st, u, ResourceOf(st, sc)) == NoRole
    ensures GoneForGood(st, u) <==> !HoldsInTrash(st, u)
  {
    hide BoundRole, GrantRole, InSight, Valid;
    if HoldsInTrash(st, u) {
      var sc := HeldAtSome(c, st, u);
      assert InSight(st.(trash := {}), sc) by { AllInSight(c, st, sc); }
      TrashChangesNoRole(AGELESS, st, {}, u, ResourceOf(st, sc));
    } else {
      forall trash, sc | InSight(st.(trash := trash), sc)
        ensures EffectiveRole(AGELESS, st.(trash := trash), u, ResourceOf(st, sc)) == NoRole
      {
        TrashChangesNoRole(AGELESS, st, trash, u, ResourceOf(st, sc));
        InSightExists(st, trash, sc);
        NothingHeld(c, st, u, sc);
      }
    }
  }

  lemma AllInSight(c: Config, st: State, sc: Scope)
    requires Valid(c, st) && ScopeExists(st, sc)
    ensures InSight(st.(trash := {}), sc)
  {
  }

  lemma InSightExists(st: State, trash: set<Scope>, sc: Scope)
    requires InSight(st.(trash := trash), sc)
    ensures ScopeExists(st, sc)
  {
  }

  lemma AppliedExists(c: Config, st: State, outer: Scope, sc: Scope)
    requires Valid(c, st) && ScopeExists(st, sc) && Applies(outer, ResourceOf(st, sc))
    ensures ScopeExists(st, outer)
  {
  }

  lemma BindingGivesRole(c: Config, st: State, u: Id, b: Binding)
    requires Valid(c, st) && Held(AGELESS, st, u, b)
    ensures ScopeExists(st, b.scope) && EffectiveRole(AGELESS, st, u, ResourceOf(st, b.scope)) != NoRole
  {
    hide BoundRole, GrantRole;
    assert ScopeExists(st, b.scope) && b.role != NoRole;
    assert Applies(b.scope, ResourceOf(st, b.scope));
  }

  lemma GrantGivesRole(c: Config, st: State, u: Id, id: Id)
    requires Valid(c, st) && Active(st, id) && st.grants[id].user == u
    ensures EffectiveRole(AGELESS, st, u, ResourceOf(st, st.grants[id].scope)) != NoRole
  {
    hide BoundRole, GrantRole;
    var sc := st.grants[id].scope;
    assert st.grants[id].role != NoRole && Applies(sc, ResourceOf(st, sc));
  }

  lemma HeldAtSome(c: Config, st: State, u: Id) returns (sc: Scope)
    requires Valid(c, st) && HoldsInTrash(st, u)
    ensures ScopeExists(st, sc) && EffectiveRole(AGELESS, st, u, ResourceOf(st, sc)) != NoRole
  {
    hide EffectiveRole, InSight, Valid;
    if b :| Held(AGELESS, st, u, b) && !InSight(st, b.scope) {
      sc := b.scope;
      BindingGivesRole(c, st, u, b);
    } else {
      var id :| Active(st, id) && st.grants[id].user == u && ScopeExists(st, st.grants[id].scope) &&
          !InSight(st, st.grants[id].scope);
      sc := st.grants[id].scope;
      GrantGivesRole(c, st, u, id);
    }
  }

  /** Whatever is held is held in sight or in the trash; with neither, there is no role anywhere. */
  lemma NothingHeld(c: Config, st: State, u: Id, sc: Scope)
    requires Valid(c, st) && !HoldsInTrash(st, u) && ScopeExists(st, sc)
    requires forall k :: InSight(st, k) ==> EffectiveRole(AGELESS, st, u, ResourceOf(st, k)) == NoRole
    ensures EffectiveRole(AGELESS, st, u, ResourceOf(st, sc)) == NoRole
  {
    hide BoundRole, GrantRole, InSight, Valid, Held;
    forall b ensures !Held(AGELESS, st, u, b) {
      if Held(AGELESS, st, u, b) { BindingGivesRole(c, st, u, b); }
    }
    forall id | Active(st, id) && st.grants[id].user == u ensures !Applies(st.grants[id].scope, ResourceOf(st, sc)) {
      GrantGivesRole(c, st, u, id);
      if Applies(st.grants[id].scope, ResourceOf(st, sc)) { AppliedExists(c, st, st.grants[id].scope, sc); }
    }
  }

  /** From the request on: None is the denial. If the review was not narrowed to one project, `complete` means
      that the engine now refuses the target everything in sight; and it stays that way whatever is restored
      exactly if the target holds nothing in the trash, which the review does not look at. */
  method HandleRevokeAll(s: Server, actor: Id, target: Id, want: Option<Id>) returns (out: Option<Outcome>)
    requires Valid(s.cfg, s.db)
    modifies s
    ensures out.None? || !out.value.Done? ==> s.db == old(s.db)
    ensures out.Some? && out.value.Done? && out.value.report.complete && want.None? ==>
      && (forall sc, a :: InSight(s.db, sc) ==> !Can(s.cfg, s.db, target, a, ResourceOf(s.db, sc)))
      && (GoneForGood(s.db, target) <==> !HoldsInTrash(s.db, target))
  {
    hide Can, Cleared, Revocable, EffectiveRole, Valid;
    var view := ResolveView(s, actor, MemberManage, want);
    if view.None? {
      return None;
    }
    var v := view.value;
    ghost var before := s.db;
    var o := RevokeAccess(s, actor, target, v);
    if o.Done? && o.report.complete && want.None? {
      ClearedInSight(s.cfg, before, s.db, actor, target, v);
      RevokedIsValid(s.cfg, before, s.db, actor, target, Scopes(o.report.revoked) + Scopes(o.report.skipped));
      ForGoodIffNothingInTrash(s.cfg, s.db, target);
    }
    return Some(o);
  }

  lemma ClearedInSight(c: Config, before: State, st: State, actor: Id, target: Id, v: View)
    requires ViewOf(c, before, actor, MemberManage, None, v) && v.instance && !v.cutProjects && !v.cutEnvs
    requires Cleared(st, target, v) && st == before.(direct := st.direct)
    ensures forall sc :: InSight(st, sc) ==> EffectiveRole(AGELESS, st, target, ResourceOf(st, sc)) == NoRole
    ensures forall sc, a :: InSight(st, sc) ==> !Can(c, st, target, a, ResourceOf(st, sc))
  {
    hide Can, EffectiveRole, ViewOf;
    forall sc | InSight(st, sc)
      ensures EffectiveRole(AGELESS, st, target, ResourceOf(st, sc)) == NoRole
      ensures forall a :: !Can(c, st, target, a, ResourceOf(st, sc))
    {
      assert InSight(before, sc);
      WholeInstance(c, before, actor, MemberManage, v, sc);
      ClearedForTheEngine(c, st, target, v, sc);
    }
  }

  lemma RevokedIsValid(c: Config, before: State, st: State, actor: Id, target: Id, loaded: set<Scope>)
    requires Valid(c, before) && st == RevokeAllStep(c, before, actor, target, loaded)
    ensures Valid(c, st) && st == before.(direct := st.direct)
  {
    hide Revocable, BlocksLockOut, Valid;
    FewerBindingsAreValid(c, before, st.direct);
  }

  lemma FewerBindingsAreValid(c: Config, st: State, direct: map<(Id, Scope), Role>)
    requires Valid(c, st) && forall k :: k in direct ==> k in st.direct && direct[k] == st.direct[k]
    ensures Valid(c, st.(direct := direct))
  {
    var after := st.(direct := direct);
    assert forall u, sc, r :: Direct(after, u, sc, r) ==> Direct(st, u, sc, r);
    assert forall g, sc, r :: GroupBound(after, g, sc, r) ==> GroupBound(st, g, sc, r);
  }

  /** What lies outside the view is never loaded, so it stays; after a restore it counts again. */
  lemma TrashedBindingsComeBack(c: Config, st: State, actor: Id, target: Id, loaded: set<Scope>, v: View, sc: Scope,
      r: Role)
    requires Valid(c, st) && loaded <= InView(st, target, v) && !Covers(v, sc) && Direct(st, target, sc, r)
    ensures var after := RevokeAllStep(c, st, actor, target, loaded);
      EffectiveRole(c, after.(trash := {}), target, ResourceOf(st, sc)) != NoRole
  {
    hide BoundRole, GrantRole, Revocable, BlocksLockOut;
    var after := RevokeAllStep(c, st, actor, target, loaded).(trash := {});
    assert Held(c, after, target, Binding(target, sc, r, None)) && r != NoRole;
    assert Applies(sc, ResourceOf(st, sc));
  }
}
