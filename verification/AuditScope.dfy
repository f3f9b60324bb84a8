/** The project an audit event is attributed to, gathered from the authorization checks of one request.
 */
module AuditScope {
  import opened Options

  type Id = string

  datatype Call = Note(p: Id) | Set(p: Id)

  /** The holder's fields; the empty id is no project. */
  datatype Held = Held(project: Id, ambiguous: bool, explicit: bool)

  function Noted(s: Held, p: Id): Held {
    if p == "" || s.explicit || s.ambiguous then s
    else if s.project == "" then s.(project := p)
    else if s.project != p then s.(ambiguous := true, project := "")
    else s
  }

  function Pinned(s: Held, p: Id): Held { if p == "" then s else Held(p, false, true) }

  function After(s: Held, calls: seq<Call>): Held {
    if calls == [] then s
    else
      var before, last := After(s, calls[..|calls| - 1]), calls[|calls| - 1];
      match last
      case Note(p) => Noted(before, p)
      case Set(p) => Pinned(before, p)
  }

  class Scope {
    var projectID: Id
    var ambiguous: bool
    var explicit: bool

    constructor ()
      ensures Fields() == Held("", false, false)
    {
      projectID, ambiguous, explicit := "", false, false;
    }

    function Fields(): Held
      reads this
    {
      Held(projectID, ambiguous, explicit)
    }

    method NoteAuditProject(p: Id)
      modifies this
      ensures Fields() == Noted(old(Fields()), p)
    {
      if p == "" || explicit || ambiguous {
        return;
      }
      if projectID == "" {
        projectID := p;
      } else if projectID != p {
        ambiguous := true;
        projectID := "";
      }
    }

    method SetAuditProject(p: Id)
      modifies this
      ensures Fields() == Pinned(old(Fields()), p)
    {
      if p == "" {
        return;
      }
      projectID, ambiguous, explicit := p, false, true;
    }

    method AuditProjectOf() returns (p: Option<Id>)
      ensures p == Attributed(Fields())
    {
      if projectID == "" {
        return None;
      }
      return Some(projectID);
    }
  }

  function Attributed(s: Held): Option<Id> { if s.project == "" then None else Some(s.project) }

  // ---------- what it amounts to ----------

  /** The last project set outright, if any. */
  function LastSet(calls: seq<Call>): Option<Id> {
    if calls == [] then None
    else
      var last := calls[|calls| - 1];
      if last.Set? && last.p != "" then Some(last.p) else LastSet(calls[..|calls| - 1])
  }

  /** The projects noted. */
  function Projects(calls: seq<Call>): set<Id> { set c | c in calls && c.Note? && c.p != "" :: c.p }

  lemma ProjectsSnoc(calls: seq<Call>, c: Call)
    ensures Projects(calls + [c]) == Projects(calls) + if c.Note? && c.p != "" then {c.p} else {}
  {
    assert forall d :: d in calls + [c] <==> d in calls || d == c;
  }

  /** The fields, after any calls: set outright they hold the last project set; otherwise they hold the one
      project noted, or none because there was none or more than one. */
  lemma {:induction false} AfterAnyCalls(calls: seq<Call>)
    ensures var s, ps := After(Held("", false, false), calls), Projects(calls);
      match LastSet(calls)
      case Some(p) => s == Held(p, false, true)
      case None =>
        && !s.explicit
        && (s.ambiguous <==> exists p, q :: p in ps && q in ps && p != q)
        && (s.project != "" <==> ps == {s.project})
        && (s.project == "" && !s.ambiguous <==> ps == {})
  {
    if calls != [] {
      var before, last := calls[..|calls| - 1], calls[|calls| - 1];
      AfterAnyCalls(before);
      assert calls == before + [last];
      ProjectsSnoc(before, last);
      if LastSet(calls).None? && last.Note? && last.p != "" {
        OneMore(After(Held("", false, false), before), Projects(before), last.p);
      }
    }
  }

  lemma OneMore(s: Held, ps: set<Id>, p: Id)
    requires p != "" && !s.explicit
    requires s.ambiguous <==> exists p, q :: p in ps && q in ps && p != q
    requires s.project != "" <==> ps == {s.project}
    requires s.project == "" && !s.ambiguous <==> ps == {}
    ensures var s', qs := Noted(s, p), ps + {p};
      && !s'.explicit
      && (s'.ambiguous <==> exists p, q :: p in qs && q in qs && p != q)
      && (s'.project != "" <==> qs == {s'.project})
      && (s'.project == "" && !s'.ambiguous <==> qs == {})
  {
    var qs := ps + {p};
    assert p in qs;
    if s.ambiguous {
      var x, y :| x in ps && y in ps && x != y;
      assert x in qs && y in qs;
    } else if s.project == "" {
      assert qs == {p};
    } else if s.project == p {
      assert qs == {p};
    } else {
      assert s.project in qs;
    }
  }

  /** The event's project: the last one set outright; failing that, p exactly if p is the only project noted,
      in whatever order and however often; otherwise none. */
  lemma AttributedProject(calls: seq<Call>, p: Id)
    requires p != ""
    ensures Attributed(After(Held("", false, false), calls)) == Some(p) <==>
      LastSet(calls) == Some(p) || (LastSet(calls) == None && Projects(calls) == {p})
  {
    AfterAnyCalls(calls);
    LastSetIsSome(calls);
  }

  lemma {:induction false} LastSetIsSome(calls: seq<Call>)
    ensures LastSet(calls).Some? ==> LastSet(calls).value != ""
  {
    if calls != [] { LastSetIsSome(calls[..|calls| - 1]); }
  }
}
