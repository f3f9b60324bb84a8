/** The access matrix: one load of bindings, laid out over users and scopes, against the engine asked
    point by point.
 */
module AccessMatrix {
  import opened Options
  import opened Authz
  import opened Authority
  import opened Server
  import opened AccessView

  const MAX_USERS := 500
  const MAX_CELLS := 20000

  /** A user's role at a scope, with every binding that confers something there. */
  datatype Cell = Cell(user: Id, scope: Scope, role: Role, sources: seq<Binding>)

  datatype Matrix = Matrix(users: seq<Id>, cells: seq<Cell>, cutBindings: bool, cutUsers: bool, cutCells: bool)

  function OfUser(bs: seq<Binding>, u: Id): (r: seq<Binding>)
    ensures forall b :: b in r <==> b in bs && b.user == u
  {
    if bs == [] then []
    else
      var rest, last := bs[..|bs| - 1], bs[|bs| - 1];
      assert forall b :: b in bs <==> b in rest || b == last;
      if last.user == u then OfUser(rest, u) + [last] else OfUser(rest, u)
  }

  function CellAt(st: State, bs: seq<Binding>, u: Id, sc: Scope): seq<Cell> {
    var res := ResourceOf(st, sc);
    var applicable := Applicable(OfUser(bs, u), res);
    if applicable == [] then [] else [Cell(u, sc, Highest(applicable, res), applicable)]
  }

  function Line(st: State, bs: seq<Binding>, u: Id, cols: seq<Scope>): seq<Cell> {
    if cols == [] then [] else Line(st, bs, u, cols[..|cols| - 1]) + CellAt(st, bs, u, cols[|cols| - 1])
  }

  function Grid(st: State, bs: seq<Binding>, users: seq<Id>, cols: seq<Scope>): seq<Cell> {
    if users == [] then []
    else Grid(st, bs, users[..|users| - 1], cols) + Line(st, bs, users[|users| - 1], cols)
  }

  // ---------- what the layout holds ----------

  lemma {:induction false} LineHas(st: State, bs: seq<Binding>, u: Id, cols: seq<Scope>, cell: Cell)
    ensures cell in Line(st, bs, u, cols) <==> cell.scope in cols && cell in CellAt(st, bs, u, cell.scope)
  {
    hide CellAt;
    if cols != [] {
      LineHas(st, bs, u, cols[..|cols| - 1], cell);
      CellIsItsOwn(st, bs, u, cols[|cols| - 1], cell);
    }
  }

  lemma CellIsItsOwn(st: State, bs: seq<Binding>, u: Id, sc: Scope, cell: Cell)
    ensures cell in CellAt(st, bs, u, sc) ==> cell.scope == sc && cell.user == u
  {
  }

  lemma {:induction false} GridHas(st: State, bs: seq<Binding>, users: seq<Id>, cols: seq<Scope>, cell: Cell)
    ensures cell in Grid(st, bs, users, cols) <==>
      cell.user in users && cell.scope in cols && cell in CellAt(st, bs, cell.user, cell.scope)
  {
    hide CellAt, Line;
    if users != [] {
      var u := users[|users| - 1];
      GridHas(st, bs, users[..|users| - 1], cols, cell);
      LineHas(st, bs, u, cols, cell);
      CellIsItsOwn(st, bs, u, cell.scope, cell);
    }
  }

  lemma {:induction false} LineDistinct(st: State, bs: seq<Binding>, u: Id, cols: seq<Scope>)
    requires Distinct(cols)
    ensures Distinct(Line(st, bs, u, cols))
  {
    hide CellAt;
    if cols != [] {
      var rest, sc := cols[..|cols| - 1], cols[|cols| - 1];
      LineDistinct(st, bs, u, rest);
      forall cell | cell in CellAt(st, bs, u, sc) ensures cell !in Line(st, bs, u, rest) {
        CellIsItsOwn(st, bs, u, sc, cell);
        LineHas(st, bs, u, rest, cell);
      }
      assert Distinct(CellAt(st, bs, u, sc)) by { AtMostOneCell(st, bs, u, sc); }
      DistinctConcat(Line(st, bs, u, rest), CellAt(st, bs, u, sc));
    }
  }

  lemma AtMostOneCell(st: State, bs: seq<Binding>, u: Id, sc: Scope)
    ensures |CellAt(st, bs, u, sc)| <= 1
  {
  }

  lemma {:induction false} GridDistinct(st: State, bs: seq<Binding>, users: seq<Id>, cols: seq<Scope>)
    requires Distinct(users) && Distinct(cols)
    ensures Distinct(Grid(st, bs, users, cols))
  {
    hide CellAt, Line;
    if users != [] {
      var rest, u := users[..|users| - 1], users[|users| - 1];
      GridDistinct(st, bs, rest, cols);
      LineDistinct(st, bs, u, cols);
      forall cell | cell in Line(st, bs, u, cols) ensures cell !in Grid(st, bs, rest, cols) {
        LineHas(st, bs, u, cols, cell);
        CellIsItsOwn(st, bs, u, cell.scope, cell);
        GridHas(st, bs, rest, cols, cell);
      }
      DistinctConcat(Grid(st, bs, rest, cols), Line(st, bs, u, cols));
    }
  }

  lemma {:induction false} LinePrefix(st: State, bs: seq<Binding>, u: Id, cols: seq<Scope>, j: nat)
    requires j <= |cols|
    ensures Line(st, bs, u, cols[..j]) <= Line(st, bs, u, cols)
  {
    hide CellAt;
    if j < |cols| {
      LinePrefix(st, bs, u, cols[..|cols| - 1], j);
      assert cols[..|cols| - 1][..j] == cols[..j];
    } else {
      assert cols[..j] == cols;
    }
  }

  lemma {:induction false} GridPrefix(st: State, bs: seq<Binding>, users: seq<Id>, cols: seq<Scope>, i: nat)
    requires i <= |users|
    ensures Grid(st, bs, users[..i], cols) <= Grid(st, bs, users, cols)
  {
    hide Line;
    if i < |users| {
      GridPrefix(st, bs, users[..|users| - 1], cols, i);
      assert users[..|users| - 1][..i] == users[..i];
    } else {
      assert users[..i] == users;
    }
  }

  // ---------- the loops ----------

  predicate Bounded(full: seq<Cell>, cells: seq<Cell>, cut: bool) {
    if cut then |full| > MAX_CELLS && cells == full[..MAX_CELLS] else cells == full && |full| <= MAX_CELLS
  }

  method CellFor(s: Server, held: seq<Binding>, bs: seq<Binding>, u: Id, sc: Scope) returns (cell: seq<Cell>)
    requires held == OfUser(bs, u)
    ensures cell == CellAt(s.db, bs, u, sc)
  {
    var res := ResourceOf(s.db, sc);
    var applicable := ApplicableBindings(held, res);
    if |applicable| == 0 {
      return [];
    }
    var role := RoleFromBindings(applicable, res);
    return [Cell(u, sc, role, applicable)];
  }

  method FillLine(s: Server, held: seq<Binding>, bs: seq<Binding>, u: Id, cols: seq<Scope>, before: seq<Cell>)
    returns (cells: seq<Cell>, cut: bool)
    requires held == OfUser(bs, u) && |before| <= MAX_CELLS
    ensures Bounded(before + Line(s.db, bs, u, cols), cells, cut)
  {
    hide CellAt, OfUser;
    cells := before;
    for j := 0 to |cols|
      invariant cells == before + Line(s.db, bs, u, cols[..j]) && |cells| <= MAX_CELLS
    {
      assert cols[..j + 1][..j] == cols[..j];
      var cell := CellFor(s, held, bs, u, cols[j]);
      AtMostOneCell(s.db, bs, u, cols[j]);
      if |cell| > 0 && |cells| >= MAX_CELLS {
        LinePrefix(s.db, bs, u, cols, j);
        LinePrefix(s.db, bs, u, cols, j + 1);
        return cells, true;
      }
      cells := cells + cell;
    }
    assert cols[..|cols|] == cols;
    return cells, false;
  }

  method FillCells(s: Server, byUser: map<Id, seq<Binding>>, bs: seq<Binding>, users: seq<Id>, cols: seq<Scope>)
    returns (cells: seq<Cell>, cut: bool)
    requires forall u :: u in users ==> u in byUser && byUser[u] == OfUser(bs, u)
    ensures Bounded(Grid(s.db, bs, users, cols), cells, cut)
  {
    hide Line, CellAt;
    cells := [];
    for i := 0 to |users|
      invariant Bounded(Grid(s.db, bs, users[..i], cols), cells, false)
    {
      assert users[..i + 1][..i] == users[..i];
      cells, cut := FillLine(s, byUser[users[i]], bs, users[i], cols, cells);
      if cut {
        GridPrefix(s.db, bs, users, cols, i + 1);
        return;
      }
    }
    assert users[..|users|] == users;
    return cells, false;
  }

  method ByUser(bs: seq<Binding>) returns (m: map<Id, seq<Binding>>)
    ensures forall u :: u in m <==> exists b :: b in bs && b.user == u
    ensures forall u :: u in m ==> m[u] == OfUser(bs, u)
  {
    m := map[];
    for i := 0 to |bs|
      invariant forall u :: u in m <==> OfUser(bs[..i], u) != []
      invariant forall u :: u in m ==> m[u] == OfUser(bs[..i], u)
    {
      assert bs[..i + 1][..i] == bs[..i];
      var u := bs[i].user;
      m := m[u := (if u in m then m[u] else []) + [bs[i]]];
    }
    assert bs[..|bs|] == bs;
    forall u ensures OfUser(bs, u) != [] <==> exists b :: b in bs && b.user == u {
      if OfUser(bs, u) != [] { assert OfUser(bs, u)[0] in OfUser(bs, u); }
    }
  }

  // ---------- against the engine ----------

  lemma RowsAreHeld(st: State, v: View, bs: seq<Binding>, u: Id, b: Binding)
    requires DirectOk(st) && GroupBindingsOk(st)
    requires forall b :: b in bs ==> Reviewed(st, v, None, b)
    requires b in OfUser(bs, u)
    ensures Held(AGELESS, st, u, b) && b.role != NoRole
  {
  }

  /** From any of the bindings in view, a cell never says more than the tables do. */
  lemma CellIsSound(st: State, v: View, bs: seq<Binding>, u: Id, sc: Scope)
    requires DirectOk(st) && GroupBindingsOk(st)
    requires forall b :: b in bs ==> Reviewed(st, v, None, b)
    ensures forall cell :: cell in CellAt(st, bs, u, sc) ==>
      cell.role != NoRole && AtLeast(BoundRole(AGELESS, st, u, ResourceOf(st, sc)), cell.role)
  {
    hide BoundRole, OfUser, Reviewed, Held, DirectOk, GroupBindingsOk, Applicable, Highest;
    var res := ResourceOf(st, sc);
    var applicable := Applicable(OfUser(bs, u), res);
    if applicable != [] {
      var b0 := applicable[0];
      assert b0 in applicable;
      RowsAreHeld(st, v, bs, u, b0);
      var r := Highest(applicable, res);
      assert AtLeast(r, b0.role);
      var b :| b in applicable && Applies(b.scope, res) && b.role == r;
      RowsAreHeld(st, v, bs, u, b);
    }
  }

  /** The binding is in view, is the user's and applies at the scope. */
  predicate Bears(st: State, v: View, u: Id, sc: Scope, b: Binding) {
    Reviewed(st, v, None, b) && b.user == u && Applies(b.scope, ResourceOf(st, sc))
  }

  /** `r` is the highest role among the bindings in view that bear on the user and the scope. */
  ghost predicate SeenRole(st: State, v: View, u: Id, sc: Scope, r: Role) {
    && (exists b :: Bears(st, v, u, sc, b) && b.role == r)
    && (forall b :: Bears(st, v, u, sc, b) ==> AtLeast(r, b.role))
  }

  /** From all of the bindings in view, a cell exists exactly if one bears on it, with the highest role of
      those that do -- whether the instance is in view or not. */
  lemma CellIsSeen(st: State, v: View, bs: seq<Binding>, u: Id, sc: Scope, r: Role)
    requires forall b :: b in bs <==> Reviewed(st, v, None, b)
    ensures (CellAt(st, bs, u, sc) != [] && CellAt(st, bs, u, sc)[0].role == r) <==> SeenRole(st, v, u, sc, r)
  {
    hide OfUser, Applicable, Highest, Reviewed;
    var res := ResourceOf(st, sc);
    var applicable := Applicable(OfUser(bs, u), res);
    assert forall b :: b in applicable <==> Bears(st, v, u, sc, b);
    if applicable != [] {
      var top := Highest(applicable, res);
      assert applicable[0] in applicable;
      HighestIsOneOf(applicable, res);
      var b :| b in applicable && b.role == top;
      assert Bears(st, v, u, sc, b);
    }
  }

  lemma HighestIsOneOf(bs: seq<Binding>, res: Resource)
    requires bs != [] && forall b :: b in bs ==> Applies(b.scope, res)
    ensures exists b :: b in bs && b.role == Highest(bs, res)
  {
    hide Highest;
    var b := bs[0];
    assert b in bs;
    assert Highest(bs, res) == NoRole ==> b.role == NoRole;
  }

  /** With the instance in view, what is seen is what is bound. */
  lemma SeenIsBound(st: State, v: View, u: Id, sc: Scope, r: Role)
    requires DirectOk(st) && GroupBindingsOk(st) && Nested(st, v) && v.instance && Covers(v, sc)
    ensures SeenRole(st, v, u, sc, r) <==> r == BoundRole(AGELESS, st, u, ResourceOf(st, sc)) && r != NoRole
  {
    hide BoundRole, DirectOk, GroupBindingsOk;
    var res := ResourceOf(st, sc);
    var top := BoundRole(AGELESS, st, u, res);
    forall b ensures Bears(st, v, u, sc, b) <==> Held(AGELESS, st, u, b) && Applies(b.scope, res) {
      if Held(AGELESS, st, u, b) && Applies(b.scope, res) { ReachesFromView(st, v, sc, b.scope); }
    }
    forall b | Held(AGELESS, st, u, b) ensures b.role != NoRole { HeldIsSomeRole(st, u, b); }
    hide Held, Bears, Nested;
    if top != NoRole {
      var b :| Held(AGELESS, st, u, b) && Applies(b.scope, res) && b.role == top;
      assert Bears(st, v, u, sc, b);
    }
    if SeenRole(st, v, u, sc, r) {
      var b :| Bears(st, v, u, sc, b) && b.role == r;
      assert Held(AGELESS, st, u, b);
    }
  }

  lemma HeldIsSomeRole(st: State, u: Id, b: Binding)
    requires DirectOk(st) && GroupBindingsOk(st) && Held(AGELESS, st, u, b)
    ensures b.role != NoRole
  {
  }

  ghost predicate Shows(m: Matrix, u: Id, sc: Scope, r: Role) {
    exists cell :: cell in m.cells && cell.user == u && cell.scope == sc && cell.role == r
  }

  /** `b` is a reason why the cell's user has a role at the cell's scope. */
  ghost predicate Explains(st: State, v: View, cell: Cell, b: Binding) {
    Reviewed(st, v, None, b) && b.user == cell.user && Applies(b.scope, ResourceOf(st, cell.scope))
  }

  /** The handler. Cells are sound whatever was cut or hidden; with nothing cut, a cell exists exactly where
      a binding in view bears on it and carries the highest role of those; with the instance in view too,
      that is the bound role; and each pair of user and scope has at most one. */
  method AccessMatrix(s: Server, v: View) returns (m: Matrix)
    requires DirectOk(s.db) && GroupBindingsOk(s.db) && Nested(s.db, v)
    ensures forall cell :: cell in m.cells ==>
      && Covers(v, cell.scope) && cell.role != NoRole
      && AtLeast(BoundRole(AGELESS, s.db, cell.user, ResourceOf(s.db, cell.scope)), cell.role)
    ensures !m.cutBindings && !m.cutUsers && !m.cutCells ==>
      forall u, sc, r :: Shows(m, u, sc, r) <==> Covers(v, sc) && SeenRole(s.db, v, u, sc, r)
    ensures v.instance && !m.cutBindings && !m.cutUsers && !m.cutCells ==>
      forall u, sc, r :: Shows(m, u, sc, r) <==>
        Covers(v, sc) && r == BoundRole(AGELESS, s.db, u, ResourceOf(s.db, sc)) && r != NoRole
    ensures forall i, j :: 0 <= i < j < |m.cells| ==> (m.cells[i].user, m.cells[i].scope) != (m.cells[j].user,
        m.cells[j].scope)
    ensures forall cell, b :: cell in m.cells && b in cell.sources ==> Explains(s.db, v, cell, b)
    ensures !m.cutBindings ==> forall cell, b :: cell in m.cells && Explains(s.db, v, cell, b) ==> b in cell.sources
    ensures |m.cells| <= 20000 && (m.cutCells ==> |m.cells| == 20000)
    ensures |m.users| <= 500 && (m.cutUsers ==> |m.users| == 500)
  {
    hide Grid, CellAt, BoundRole, Columns, SeenRole, Shows;
    var bs, cutBindings := LoadBindings(s, v, None);
    var byUser := ByUser(bs);
    var all := Rows(byUser.Keys);
    var users, cutUsers := Cut(all, MAX_USERS);
    var cols := ScopeColumns(s, v);
    var cells, cutCells := FillCells(s, byUser, bs, users, cols);
    m := Matrix(users, cells, cutBindings, cutUsers, cutCells);
    ColumnsAreView(s.db, v);
    GridDistinct(s.db, bs, users, cols);
    CellsAreSound(s.db, v, bs, users, cols, m);
    CellsAreExplained(s.db, v, bs, users, cols, m);
    if !cutBindings && !cutUsers && !cutCells {
      CellsAreSeen(s.db, v, bs, users, cols, m);
      if v.instance {
        forall u, sc, r | Covers(v, sc)
          ensures SeenRole(s.db, v, u, sc, r) <==> r == BoundRole(AGELESS, s.db, u, ResourceOf(s.db, sc)) && r != NoRole
        {
          SeenIsBound(s.db, v, u, sc, r);
        }
      }
    }
  }

  lemma CellsAreSound(st: State, v: View, bs: seq<Binding>, users: seq<Id>, cols: seq<Scope>, m: Matrix)
    requires DirectOk(st) && GroupBindingsOk(st) && Distinct(Grid(st, bs, users, cols))
    requires forall b :: b in bs ==> Reviewed(st, v, None, b)
    requires forall sc :: sc in cols ==> Covers(v, sc)
    requires Bounded(Grid(st, bs, users, cols), m.cells, m.cutCells)
    ensures forall cell :: cell in m.cells ==>
      && Covers(v, cell.scope) && cell.role != NoRole
      && AtLeast(BoundRole(AGELESS, st, cell.user, ResourceOf(st, cell.scope)), cell.role)
    ensures forall i, j :: 0 <= i < j < |m.cells| ==> (m.cells[i].user, m.cells[i].scope) != (m.cells[j].user,
        m.cells[j].scope)
  {
    hide CellAt, BoundRole, Grid;
    var full := Grid(st, bs, users, cols);
    forall cell | cell in m.cells
      ensures Covers(v, cell.scope) && cell.role != NoRole
      ensures AtLeast(BoundRole(AGELESS, st, cell.user, ResourceOf(st, cell.scope)), cell.role)
    {
      assert cell in full;
      GridHas(st, bs, users, cols, cell);
      CellIsSound(st, v, bs, cell.user, cell.scope);
    }
    forall i, j | 0 <= i < j < |m.cells|
      ensures (m.cells[i].user, m.cells[i].scope) != (m.cells[j].user, m.cells[j].scope)
    {
      var a, b := full[i], full[j];
      assert a in full && b in full;
      GridHas(st, bs, users, cols, a);
      GridHas(st, bs, users, cols, b);
      AtMostOneCell(st, bs, a.user, a.scope);
    }
  }

  lemma CellsAreExplained(st: State, v: View, bs: seq<Binding>, users: seq<Id>, cols: seq<Scope>, m: Matrix)
    requires forall b :: b in bs ==> Reviewed(st, v, None, b)
    requires !m.cutBindings ==> forall b :: Reviewed(st, v, None, b) ==> b in bs
    requires Bounded(Grid(st, bs, users, cols), m.cells, m.cutCells)
    ensures forall cell, b :: cell in m.cells && b in cell.sources ==> Explains(st, v, cell, b)
    ensures !m.cutBindings ==> forall cell, b :: cell in m.cells && Explains(st, v, cell, b) ==> b in cell.sources
  {
    hide Grid, Reviewed, OfUser, Applicable, Highest;
    forall cell, b | cell in m.cells
      ensures b in cell.sources ==> Explains(st, v, cell, b)
      ensures !m.cutBindings && Explains(st, v, cell, b) ==> b in cell.sources
    {
      assert cell in Grid(st, bs, users, cols);
      GridHas(st, bs, users, cols, cell);
    }
  }

  lemma CellsAreSeen(st: State, v: View, bs: seq<Binding>, users: seq<Id>, cols: seq<Scope>, m: Matrix)
    requires forall b :: b in bs <==> Reviewed(st, v, None, b)
    requires forall u :: u in users <==> exists b :: b in bs && b.user == u
    requires forall sc :: sc in cols <==> Covers(v, sc)
    requires m.cells == Grid(st, bs, users, cols)
    ensures forall u, sc, r :: Shows(m, u, sc, r) <==> Covers(v, sc) && SeenRole(st, v, u, sc, r)
  {
    forall u, sc, r ensures Shows(m, u, sc, r) <==> Covers(v, sc) && SeenRole(st, v, u, sc, r) {
      ShownIffSeen(st, v, bs, users, cols, m, u, sc, r);
    }
  }

  lemma ShownIffSeen(st: State, v: View, bs: seq<Binding>, users: seq<Id>, cols: seq<Scope>, m: Matrix, u: Id,
      sc: Scope, r: Role)
    requires forall b :: b in bs <==> Reviewed(st, v, None, b)
    requires forall u :: u in users <==> exists b :: b in bs && b.user == u
    requires forall sc :: sc in cols <==> Covers(v, sc)
    requires m.cells == Grid(st, bs, users, cols)
    ensures Shows(m, u, sc, r) <==> Covers(v, sc) && SeenRole(st, v, u, sc, r)
  {
    hide CellAt, SeenRole, Grid, Reviewed;
    CellIsSeen(st, v, bs, u, sc, r);
    AtMostOneCell(st, bs, u, sc);
    if Shows(m, u, sc, r) {
      var cell :| cell in m.cells && cell.user == u && cell.scope == sc && cell.role == r;
      GridHas(st, bs, users, cols, cell);
    } else if Covers(v, sc) && SeenRole(st, v, u, sc, r) {
      var cell := CellAt(st, bs, u, sc)[0];
      CellIsItsOwn(st, bs, u, sc, cell);
      CellComesFromABinding(st, bs, u, sc);
      GridHas(st, bs, users, cols, cell);
      assert false;
    }
  }

  lemma CellComesFromABinding(st: State, bs: seq<Binding>, u: Id, sc: Scope)
    requires CellAt(st, bs, u, sc) != []
    ensures exists b :: b in bs && b.user == u
  {
  }

  // ---------- the review and the engine differ only in stale memberships ----------

  ghost predicate StaleOutranks(c: Config, st: State, u: Id, res: Resource) {
    exists b :: Held(AGELESS, st, u, b) && !Held(c, st, u, b) && Applies(b.scope, res) &&
      StrictlyAbove(b.role, BoundRole(c, st, u, res))
  }

  /** The role the review shows is the engine's own, except where a group membership too old for the
      engine to honour outranks everything else: there, and only there, the review says more. */
  lemma ReviewAgainstEngine(c: Config, st: State, u: Id, res: Resource)
    ensures AtLeast(BoundRole(AGELESS, st, u, res), BoundRole(c, st, u, res))
    ensures BoundRole(AGELESS, st, u, res) == BoundRole(c, st, u, res) <==> !StaleOutranks(c, st, u, res)
  {
  }
}
