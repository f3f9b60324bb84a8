/** Roles, scopes and the decision rule of internal/authz: permissions are the union of every applicable
    binding, with no deny rule and no precedence between direct and group-derived ones.
 */
module Authz {
  import opened Options

  type Id = string

  /** The chain viewer < developer < admin < owner; `NoRole` is the empty role. */
  datatype Role = NoRole | Viewer | Developer | Admin | Owner

  function Rank(r: Role): nat {
    match r
    case NoRole => 0
    case Viewer => 1
    case Developer => 2
    case Admin => 3
    case Owner => 4
  }

  predicate AtLeast(a: Role, b: Role) { Rank(a) >= Rank(b) }

  predicate StrictlyAbove(a: Role, b: Role) { Rank(a) > Rank(b) }

  function Higher(a: Role, b: Role): Role { if StrictlyAbove(b, a) then b else a }

  /** The actions the modelled handlers ask for. */
  datatype Action = MemberRead | MemberManage | GroupManage | ProjectCreate | EnvCreate | EnvDelete | ProjectDelete

  /** The bundles are cumulative: member:read comes with viewer, project:delete with owner, the others with
      admin. */
  predicate RoleAllows(r: Role, a: Action) {
    match a
    case MemberRead => AtLeast(r, Viewer)
    case ProjectDelete => AtLeast(r, Owner)
    case _ => AtLeast(r, Admin)
  }

  /** Where a binding or a break-glass grant is attached. */
  datatype Scope = InstanceScope | ProjectScope(pid: Id) | EnvScope(eid: Id)

  /** What an action targets, with its scope chain; both fields empty is the instance itself. */
  datatype Resource = Resource(project: Option<Id>, env: Option<Id>)

  const INSTANCE := Resource(None, None)

  predicate Applies(sc: Scope, res: Resource) {
    match sc
    case InstanceScope => true
    case ProjectScope(p) => res.project == Some(p)
    case EnvScope(e) => res.env == Some(e)
  }

  /** A binding as the store returns it; `via` names the group it is derived from. */
  datatype Binding = Binding(user: Id, scope: Scope, role: Role, via: Option<Id>)

  /** The highest role among the bindings that apply. */
  function Highest(bs: seq<Binding>, res: Resource): (r: Role)
    ensures forall b :: b in bs && Applies(b.scope, res) ==> AtLeast(r, b.role)
    ensures r != NoRole ==> exists b :: b in bs && Applies(b.scope, res) && b.role == r
  {
    if bs == [] then NoRole
    else
      var rest, last := bs[..|bs| - 1], bs[|bs| - 1];
      var best := Highest(rest, res);
      assert forall b :: b in bs ==> b in rest || b == last;
      if Applies(last.scope, res) && StrictlyAbove(last.role, best) then last.role else best
  }

  method RoleFromBindings(bs: seq<Binding>, res: Resource) returns (best: Role)
    ensures best == Highest(bs, res)
  {
    best := NoRole;
    for i := 0 to |bs|
      invariant best == Highest(bs[..i], res)
    {
      assert bs[..i + 1][..i] == bs[..i];
      if Applies(bs[i].scope, res) && StrictlyAbove(bs[i].role, best) {
        best := bs[i].role;
      }
    }
    assert bs[..|bs|] == bs;
  }

  function Applicable(bs: seq<Binding>, res: Resource): (r: seq<Binding>)
    ensures forall b :: b in r <==> b in bs && Applies(b.scope, res)
  {
    if bs == [] then []
    else
      var rest, last := bs[..|bs| - 1], bs[|bs| - 1];
      assert forall b :: b in bs <==> b in rest || b == last;
      if Applies(last.scope, res) then Applicable(rest, res) + [last] else Applicable(rest, res)
  }

  method ApplicableBindings(bs: seq<Binding>, res: Resource) returns (out: seq<Binding>)
    ensures out == Applicable(bs, res)
  {
    out := [];
    for i := 0 to |bs|
      invariant out == Applicable(bs[..i], res)
    {
      assert bs[..i + 1][..i] == bs[..i];
      if Applies(bs[i].scope, res) {
        out := out + [bs[i]];
      }
    }
    assert bs[..|bs|] == bs;
  }
}
