/** The part of an instance one caller may review, and the bindings that reach into it.
 */
module AccessView {
  import opened Options
  import opened Authz
  import opened Authority
  import opened Server

  const MAX_PROJECTS := 200
  const MAX_ENVS := 1000
  const MAX_BINDINGS := 5000

  /** The scopes in view; the flags say that a bound cut projects or environments off. */
  datatype View = View(instance: bool, projects: seq<Id>, envs: seq<Id>, cutProjects: bool, cutEnvs: bool)

  predicate Covers(v: View, sc: Scope) {
    match sc
    case InstanceScope => v.instance
    case ProjectScope(p) => p in v.projects
    case EnvScope(e) => e in v.envs
  }

  // ---------- rows in no particular order ----------

  ghost predicate Distinct<T>(q: seq<T>) {
    forall i, j :: 0 <= i < j < |q| ==> q[i] != q[j]
  }

  method Rows<T(==)>(s: set<T>) returns (q: seq<T>)
    ensures (forall x :: x in q <==> x in s)
    ensures Distinct(q)
  {
    q := [];
    var todo := s;
    while todo != {}
      invariant todo <= s && forall x :: x in q <==> x in s && x !in todo
      invariant Distinct(q)
      decreases |todo|
    {
      var x :| x in todo;
      q := q + [x];
      todo := todo - {x};
    }
  }

  /** Keep at most `n` rows; one row more is asked for, so a cut is always noticed. */
  method Cut<T>(q: seq<T>, n: nat) returns (kept: seq<T>, cut: bool)
    requires Distinct(q)
    ensures Distinct(kept) && (forall x :: x in kept ==> x in q)
    ensures if cut then |kept| == n < |q| else kept == q && |q| <= n
  {
    cut := |q| > n;
    kept := if cut then q[..n] else q;
  }

  // ---------- the view ----------

  ghost predicate Reviewable(c: Config, st: State, actor: Id, a: Action, want: Option<Id>, p: Id) {
    Live(st, ProjectScope(p)) && Can(c, st, actor, a, Resource(Some(p), None)) && (want.Some? ==> p == want.value)
  }

  /** Nothing in view is in the trash, and every environment in view lies in a project in view. */
  ghost predicate Nested(st: State, v: View) {
    && Distinct(v.projects) && Distinct(v.envs)
    && (forall p :: p in v.projects ==> Live(st, ProjectScope(p)))
    && (forall e :: e in v.envs ==> Live(st, EnvScope(e)) && st.envs[e] in v.projects)
  }

  ghost predicate ViewOf(c: Config, st: State, actor: Id, a: Action, want: Option<Id>, v: View) {
    && Nested(st, v)
    && (v.instance <==> Can(c, st, actor, a, INSTANCE))
    && (forall p :: p in v.projects ==> Reviewable(c, st, actor, a, want, p))
    && (!v.cutProjects ==> forall p :: Reviewable(c, st, actor, a, want, p) ==> p in v.projects)
    && (v.cutProjects ==> |v.projects| == MAX_PROJECTS)
    && (!v.cutEnvs ==> forall e :: Live(st, EnvScope(e)) && st.envs[e] in v.projects ==> e in v.envs)
    && (v.cutEnvs ==> |v.envs| == MAX_ENVS)
  }

  /** What is allowed on the instance is allowed everywhere. */
  lemma InstanceCoversAll(c: Config, st: State, actor: Id, a: Action, res: Resource)
    requires Can(c, st, actor, a, INSTANCE)
    ensures Can(c, st, actor, a, res)
  {
  }

  method AllowedProjects(s: Server, actor: Id, a: Action, ids: seq<Id>) returns (allowed: seq<Id>)
    requires Distinct(ids)
    ensures Distinct(allowed)
    ensures forall p :: p in allowed <==> p in ids && Can(s.cfg, s.db, actor, a, Resource(Some(p), None))
  {
    hide Can;
    allowed := [];
    for i := 0 to |ids|
      invariant Distinct(allowed)
      invariant forall p :: p in allowed <==> p in ids[..i] && Can(s.cfg, s.db, actor, a, Resource(Some(p), None))
    {
      var ok := s.Allowed(actor, a, Resource(Some(ids[i]), None));
      assert ids[i] !in ids[..i];
      if ok {
        allowed := allowed + [ids[i]];
      }
    }
    assert ids[..|ids|] == ids;
  }

  method ReviewableProjects(s: Server, actor: Id, a: Action, want: Option<Id>,
      instance: bool) returns (allowed: seq<Id>)
    requires instance <==> Can(s.cfg, s.db, actor, a, INSTANCE)
    ensures Distinct(allowed)
    ensures forall p :: p in allowed <==> Reviewable(s.cfg, s.db, actor, a, want, p)
  {
    hide Can;
    var ids := Rows(set p | p in s.db.projects && Live(s.db, ProjectScope(p)));
    allowed := ids;
    if instance {
      forall res ensures Can(s.cfg, s.db, actor, a, res) { InstanceCoversAll(s.cfg, s.db, actor, a, res); }
    } else {
      allowed := AllowedProjects(s, actor, a, ids);
    }
    if want.Some? {
      allowed := if want.value in allowed then [want.value] else [];
    }
  }

  method BuildView(s: Server, instance: bool, allowed: seq<Id>) returns (v: View)
    requires Distinct(allowed) && forall p :: p in allowed ==> Live(s.db, ProjectScope(p))
    ensures Nested(s.db, v) && v.instance == instance && |v.projects| <= 200 && |v.envs| <= 1000
    ensures forall p :: p in v.projects ==> p in allowed
    ensures if v.cutProjects then |v.projects| == MAX_PROJECTS else forall p :: p in allowed ==> p in v.projects
    ensures if v.cutEnvs then |v.envs| == MAX_ENVS else forall e ::
        Live(s.db, EnvScope(e)) && s.db.envs[e] in v.projects ==> e in v.envs
  {
    var projects, cutProjects := Cut(allowed, MAX_PROJECTS);
    var under := Rows(set e | e in s.db.envs && Live(s.db, EnvScope(e)) && s.db.envs[e] in projects);
    var envs, cutEnvs := Cut(under, MAX_ENVS);
    v := View(instance, projects, envs, cutProjects, cutEnvs);
  }

  /** None is the denial: nothing to review, or the one project asked for is not reviewable. */
  method ResolveView(s: Server, actor: Id, a: Action, want: Option<Id>) returns (view: Option<View>)
    ensures view.None? <==>
      (forall p :: !Reviewable(s.cfg, s.db, actor, a, want, p)) && (!Can(s.cfg, s.db, actor, a, INSTANCE) || want.Some?)
    ensures view.Some? ==> ViewOf(s.cfg, s.db, actor, a, want, view.value)
    ensures view.Some? ==> |view.value.projects| <= 200 && |view.value.envs| <= 1000
  {
    hide Can;
    var instance := s.Allowed(actor, a, INSTANCE);
    var allowed := ReviewableProjects(s, actor, a, want, instance);
    if |allowed| == 0 && (!instance || want.Some?) {
      return None;
    }
    assert |allowed| > 0 ==> allowed[0] in allowed;
    assert forall p :: p in allowed ==> Live(s.db, ProjectScope(p));
    hide Reviewable;
    var v := BuildView(s, instance, allowed);
    return Some(v);
  }

  /** What reaches a scope in view is attached to a scope in view -- save for the instance when hidden. */
  lemma ReachesFromView(st: State, v: View, sc: Scope, outer: Scope)
    requires Nested(st, v) && Covers(v, sc) && Applies(outer, ResourceOf(st, sc))
    ensures Covers(v, outer) || outer == InstanceScope
  {
  }

  // ---------- columns ----------

  function EnvsUnder(st: State, envs: seq<Id>, p: Id): seq<Scope> {
    if envs == [] then []
    else
      var rest, e := EnvsUnder(st, envs[..|envs| - 1], p), envs[|envs| - 1];
      if e in st.envs && st.envs[e] == p then rest + [EnvScope(e)] else rest
  }

  function Lanes(st: State, projects: seq<Id>, envs: seq<Id>): seq<Scope> {
    if projects == [] then []
    else
      var p := projects[|projects| - 1];
      Lanes(st, projects[..|projects| - 1], envs) + [ProjectScope(p)] + EnvsUnder(st, envs, p)
  }

  /** Review order: the instance, then each project followed by its environments. */
  function Columns(st: State, v: View): seq<Scope> {
    (if v.instance then [InstanceScope] else []) + Lanes(st, v.projects, v.envs)
  }

  method EnvColumns(s: Server, envs: seq<Id>, p: Id) returns (cols: seq<Scope>)
    ensures cols == EnvsUnder(s.db, envs, p)
  {
    cols := [];
    for j := 0 to |envs|
      invariant cols == EnvsUnder(s.db, envs[..j], p)
    {
      assert envs[..j + 1][..j] == envs[..j];
      if envs[j] in s.db.envs && s.db.envs[envs[j]] == p {
        cols := cols + [EnvScope(envs[j])];
      }
    }
    assert envs[..|envs|] == envs;
  }

  method ScopeColumns(s: Server, v: View) returns (cols: seq<Scope>)
    ensures cols == Columns(s.db, v)
  {
    hide EnvsUnder;
    var first := if v.instance then [InstanceScope] else [];
    cols := [];
    for i := 0 to |v.projects|
      invariant cols == Lanes(s.db, v.projects[..i], v.envs)
    {
      var under := EnvColumns(s, v.envs, v.projects[i]);
      cols := cols + [ProjectScope(v.projects[i])] + under;
      assert v.projects[..i + 1][..i] == v.projects[..i];
    }
    assert v.projects[..|v.projects|] == v.projects;
    cols := first + cols;
  }

  lemma {:induction false} EnvsUnderAre(st: State, envs: seq<Id>, p: Id, sc: Scope)
    ensures sc in EnvsUnder(st, envs, p) <==>
        sc.EnvScope? && sc.eid in envs && sc.eid in st.envs && st.envs[sc.eid] == p
    ensures Distinct(envs) ==> Distinct(EnvsUnder(st, envs, p))
  {
    if envs != [] {
      var rest, e := envs[..|envs| - 1], envs[|envs| - 1];
      EnvsUnderAre(st, rest, p, sc);
      EnvsUnderAre(st, rest, p, EnvScope(e));
    }
  }

  lemma {:induction false} LanesAre(st: State, projects: seq<Id>, envs: seq<Id>, sc: Scope)
    ensures sc in Lanes(st, projects, envs) <==>
      match sc
      case InstanceScope => false
      case ProjectScope(p) => p in projects
      case EnvScope(e) => e in envs && e in st.envs && st.envs[e] in projects
  {
    if projects != [] {
      var p := projects[|projects| - 1];
      LanesAre(st, projects[..|projects| - 1], envs, sc);
      EnvsUnderAre(st, envs, p, sc);
    }
  }

  lemma {:induction false} LanesDistinct(st: State, projects: seq<Id>, envs: seq<Id>)
    requires Distinct(projects) && Distinct(envs)
    ensures Distinct(Lanes(st, projects, envs))
  {
    if projects != [] {
      var rest, p := projects[..|projects| - 1], projects[|projects| - 1];
      LanesDistinct(st, rest, envs);
      var a, b := Lanes(st, rest, envs), [ProjectScope(p)] + EnvsUnder(st, envs, p);
      forall sc | sc in b ensures sc !in a {
        LanesAre(st, rest, envs, sc);
        EnvsUnderAre(st, envs, p, sc);
      }
      EnvsUnderAre(st, envs, p, ProjectScope(p));
      DistinctConcat(a, b);
      assert Lanes(st, projects, envs) == a + b;
    }
  }

  /** The project a scope belongs to. */
  function ProjectOf(st: State, sc: Scope): Option<Id> { ResourceOf(st, sc).project }

  /** Review order: a project's column comes right before its environments', which directly follow one another. */
  lemma {:induction false} EnvironmentsFollowTheirProject(st: State, projects: seq<Id>, envs: seq<Id>, j: nat)
    requires j < |Lanes(st, projects, envs)| && Lanes(st, projects, envs)[j].EnvScope?
    ensures j > 0
    ensures var cols := Lanes(st, projects, envs);
      && ProjectOf(st, cols[j]).Some?
      && (cols[j - 1] == ProjectScope(ProjectOf(st, cols[j]).value) ||
            (cols[j - 1].EnvScope? && ProjectOf(st, cols[j - 1]) == ProjectOf(st, cols[j])))
  {
    var front, p := projects[..|projects| - 1], projects[|projects| - 1];
    var a, b := Lanes(st, front, envs), EnvsUnder(st, envs, p);
    var cols := Lanes(st, projects, envs);
    assert cols == a + [ProjectScope(p)] + b;
    if j < |a| {
      EnvironmentsFollowTheirProject(st, front, envs, j);
    } else {
      assert cols[j] == b[j - |a| - 1] && cols[j] in b;
      EnvsUnderAre(st, envs, p, cols[j]);
      if j > |a| + 1 {
        assert cols[j - 1] == b[j - |a| - 2] && cols[j - 1] in b;
        EnvsUnderAre(st, envs, p, cols[j - 1]);
      }
    }
  }

  /** The projects come in the view's order, and the instance, if it is there, before them all. */
  lemma {:induction false} ProjectsInOrder(st: State, projects: seq<Id>, envs: seq<Id>)
    ensures OnlyProjects(Lanes(st, projects, envs)) == projects
  {
    if projects != [] {
      var front, p := projects[..|projects| - 1], projects[|projects| - 1];
      ProjectsInOrder(st, front, envs);
      var a, b := Lanes(st, front, envs), EnvsUnder(st, envs, p);
      OnlyProjectsConcat(a + [ProjectScope(p)], b);
      OnlyProjectsConcat(a, [ProjectScope(p)]);
      NoProjectsUnder(st, envs, p);
      assert OnlyProjects([ProjectScope(p)]) == [p];
      assert projects == front + [p];
    }
  }

  function OnlyProjects(cols: seq<Scope>): seq<Id> {
    if cols == [] then []
    else if cols[0].ProjectScope? then [cols[0].pid] + OnlyProjects(cols[1..])
    else OnlyProjects(cols[1..])
  }

  lemma {:induction false} OnlyProjectsConcat(a: seq<Scope>, b: seq<Scope>)
    ensures OnlyProjects(a + b) == OnlyProjects(a) + OnlyProjects(b)
  {
    if a == [] {
      assert a + b == b;
    } else {
      assert (a + b)[1..] == a[1..] + b;
      OnlyProjectsConcat(a[1..], b);
    }
  }

  lemma {:induction false} NoProjectsUnder(st: State, envs: seq<Id>, p: Id)
    ensures OnlyProjects(EnvsUnder(st, envs, p)) == []
  {
    if envs != [] {
      NoProjectsUnder(st, envs[..|envs| - 1], p);
      var e := envs[|envs| - 1];
      OnlyProjectsConcat(EnvsUnder(st, envs[..|envs| - 1], p), [EnvScope(e)]);
      assert OnlyProjects([EnvScope(e)]) == [];
    }
  }

  lemma DistinctConcat<T>(a: seq<T>, b: seq<T>)
    requires Distinct(a) && Distinct(b) && forall x :: x in b ==> x !in a
    ensures Distinct(a + b)
  {
    forall i, j | 0 <= i < j < |a + b| ensures (a + b)[i] != (a + b)[j] {
      if i < |a| <= j { assert b[j - |a|] in b; }
    }
  }

  /** The columns are exactly the scopes in view, each once. */
  lemma ColumnsAreView(st: State, v: View)
    requires Nested(st, v)
    ensures Distinct(Columns(st, v))
    ensures forall sc :: sc in Columns(st, v) <==> Covers(v, sc)
  {
    LanesDistinct(st, v.projects, v.envs);
    forall sc ensures sc in Columns(st, v) <==> Covers(v, sc) {
      LanesAre(st, v.projects, v.envs, sc);
    }
    LanesAre(st, v.projects, v.envs, InstanceScope);
    DistinctConcat(if v.instance then [InstanceScope] else [], Lanes(st, v.projects, v.envs));
  }

  // ---------- bindings in view ----------

  /** The review joins bindings with memberships and does not look at how old a membership is: it reads
      the tables as an engine without an age bound would. */
  const AGELESS := Config(0, 1)

  predicate Reviewed(st: State, v: View, subject: Option<Id>, b: Binding) {
    Covers(v, b.scope) && Held(AGELESS, st, b.user, b) && (subject.Some? ==> b.user == subject.value)
  }

  function DirectRows(st: State, v: View, subject: Option<Id>): set<Binding> {
    set k | k in st.direct && Covers(v, k.1) && (subject.Some? ==> k.0 == subject.value) ::
      Binding(k.0, k.1, st.direct[k], None)
  }

  function DerivedRows(st: State, v: View, subject: Option<Id>): set<Binding> {
    set k, m | k in st.groupBindings && m in st.members && m.0 == k.0 && Covers(v, k.1) &&
        (subject.Some? ==> m.1 == subject.value) ::
      Binding(m.1, k.1, st.groupBindings[k], Some(k.0))
  }

  lemma RowsAreReviewed(st: State, v: View, subject: Option<Id>, b: Binding)
    ensures b in DirectRows(st, v, subject) + DerivedRows(st, v, subject) <==> Reviewed(st, v, subject, b)
    ensures b in DirectRows(st, v, subject) ==> b.via.None?
    ensures b in DerivedRows(st, v, subject) ==> b.via.Some?
  {
  }

  /** Two bounded queries; the flag goes up whenever one of them was cut. */
  method LoadBindings(s: Server, v: View, subject: Option<Id>) returns (rows: seq<Binding>, cut: bool)
    ensures forall b :: b in rows ==> Reviewed(s.db, v, subject, b)
    ensures !cut ==> forall b :: Reviewed(s.db, v, subject, b) ==> b in rows
    ensures |rows| <= 10000 && (cut ==> |rows| >= 5000)
    ensures Distinct(rows)
  {
    hide Held;
    var direct := Rows(DirectRows(s.db, v, subject));
    var derived := Rows(DerivedRows(s.db, v, subject));
    forall b ensures b in direct || b in derived <==> Reviewed(s.db, v, subject, b)
             ensures (b in direct ==> b.via.None?) && (b in derived ==> b.via.Some?)
    {
      RowsAreReviewed(s.db, v, subject, b);
    }
    var direct1, cut1 := Cut(direct, MAX_BINDINGS);
    var derived1, cut2 := Cut(derived, MAX_BINDINGS);
    assert forall b :: b in derived1 ==> b.via.Some? && b !in direct1;
    DistinctConcat(direct1, derived1);
    return direct1 + derived1, cut1 || cut2;
  }
}
