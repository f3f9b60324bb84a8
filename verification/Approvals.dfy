/** The handlers of the four-eyes workflow, each run from end to end: as methods over the shared tables,
    proved to be the machine's steps in the handler's order.
 */
module Approvals {
  import opened Options
  import opened FourEyes

  datatype Reply = Saved | Accepted | Done | NotFound | Forbidden | Conflict | Failure

  lemma RunThree(st: State, a: Step, b: Step, c: Step)
    ensures Run(st, [a, b, c]) == Next(Next(Next(st, a), b), c)
  {
    hide Next;
    assert [a, b, c][1..] == [b, c];
    RunTwo(Next(st, a), b, c);
  }

  lemma RunFive(st: State, a: Step, b: Step, c: Step, d: Step, e: Step)
    ensures Run(st, [a, b, c, d, e]) == Next(Next(Next(Next(Next(st, a), b), c), d), e)
  {
    hide Next;
    assert [a, b, c, d, e][1..] == [b, c, d, e] && [b, c, d, e][1..] == [c, d, e];
    RunThree(Next(Next(st, a), b), c, d, e);
    assert Run(Next(st, a), [b, c, d, e]) == Run(Next(Next(st, a), b), [c, d, e]);
  }

  /** Edit requests name an existing config. */
  ghost predicate Targeted(st: State) {
    forall ref :: ref in st.requests && ref.Edit? ==> st.requests[ref].target.Some?
  }

  // ---------- the machine's steps, one after the other, in closed form ----------

  function With(st: State, t: Id, op: Op): State { st.(ops := st.ops[t := op]) }

  function Moved(st: State, ref: Ref, to: Status, who: Option<Id>): State
    requires ref in st.requests
  {
    st.(requests := st.requests[ref := st.requests[ref].(status := to, resolver := who)])
  }

  lemma Replaced(st: State, t: Id, a: Op, b: Op)
    ensures With(With(st, t, a), t, b) == With(st, t, b)
  {
  }

  lemma Dropped(st: State, t: Id, a: Op)
    requires t !in st.ops
    ensures With(st, t, a).(ops := With(st, t, a).ops - {t}) == st
  {
  }

  lemma Approved(st: State, t: Id, ref: Ref, actor: Id)
    requires t !in st.ops && ref in st.requests
    requires st.requests[ref].status == Pending && actor != st.requests[ref].requester && (ref.Edit? ==> actor != "")
    ensures Next(st, Approve(t, ref, actor)) == With(st, t, Checked(ref, actor))
  {
  }

  lemma ClaimedNow(st: State, t: Id, ref: Ref, actor: Id)
    requires ref.Edit? && ref in st.requests && st.requests[ref].status == Pending
    ensures Next(With(st, t, Checked(ref, actor)), Claim(t)) ==
      With(st.(requests := st.requests[ref := st.requests[ref].(status := Applying)]), t, Claimed(ref, actor))
  {
  }

  /** What committing under `ref` leaves: the target's new version, and the target if it is new. */
  function Released(st: State, ref: Ref, actor: Id, c: Id, env: Id, plan: seq<Change>): State
    requires ref in st.requests
  {
    var req := st.requests[ref];
    var changes := if ref.Edit? then req.changes else plan;
    if req.target.None? then Log(st.(configs := st.configs[c := Config(env, false)]), c, actor,
        By(ref, req.requester), true, changes)
    else Log(st, req.target.value, actor, By(ref, req.requester), false, changes)
  }

  predicate Ready(st: State, ref: Ref, ok: bool, c: Id)
    requires ref in st.requests
  {
    var target := st.requests[ref].target;
    ok && if target.None? then c !in st.configs else target.value in st.configs
  }

  lemma CommittedNow(st: State, t: Id, op: Op, ok: bool, c: Id, env: Id, plan: seq<Change>)
    requires MayCommit(op) && op.ref in st.requests && Ready(st, op.ref, ok, c)
    ensures Next(With(st, t, op), Commit(t, ok, c, env, plan)) == With(Released(st, op.ref, op.approver, c, env,
        plan), t, Committed(op.ref, op.approver))
  {
    Replaced(st, t, op, Committed(op.ref, op.approver));
  }

  lemma FailedNow(st: State, t: Id, op: Op, ok: bool, c: Id, env: Id, plan: seq<Change>)
    requires t !in st.ops && MayCommit(op) && op.ref in st.requests && !Ready(st, op.ref, ok, c)
    ensures Next(With(st, t, op), Commit(t, ok, c, env, plan)) == if op.Claimed?
        then With(st, t, Failed(op.ref)) else st
  {
  }

  lemma RevertedNow(st: State, t: Id, ref: Ref, ok: bool)
    requires t !in st.ops && ref in st.requests && st.requests[ref].status == Applying
    ensures Next(With(st, t, Failed(ref)), Revert(t, ok)) == if ok then Moved(st, ref, Pending, None) else st
  {
  }

  lemma MarkedNow(st: State, t: Id, ref: Ref, actor: Id, ok: bool)
    requires t !in st.ops && ref in st.requests && st.requests[ref].status == if ref.Edit? then Applying else Pending
    ensures Next(With(st, t, Committed(ref, actor)), Mark(t, ok)) == if ok
        then Moved(st, ref, Applied, Some(actor)) else st
  {
  }

  predicate Admits(st: State, ref: Ref, actor: Id) {
    ref in st.requests && st.requests[ref].status == Pending && actor != st.requests[ref].requester &&
        (ref.Edit? ==> actor != "")
  }

  function EditOutcome(st: State, id: Id, actor: Id, commitOk: bool, revertOk: bool, markOk: bool): State {
    var ref := Edit(id);
    if !Admits(st, ref, actor) then st
    else
      var held := st.(requests := st.requests[ref := st.requests[ref].(status := Applying)]);
      if !Ready(held, ref, commitOk, "") then if revertOk then Moved(held, ref, Pending, None) else held
      else
        var done := Released(held, ref, actor, "", "", []);
        if markOk then Moved(done, ref, Applied, Some(actor)) else done
  }

  lemma EditRun(st: State, t: Id, id: Id, actor: Id, commitOk: bool, revertOk: bool, markOk: bool)
    requires t !in st.ops
    ensures Run(st, [Approve(t, Edit(id), actor), Claim(t), Commit(t, commitOk, "", "", []), Revert(t, revertOk),
        Mark(t, markOk)])
      == EditOutcome(st, id, actor, commitOk, revertOk, markOk)
  {
    var ref := Edit(id);
    RunFive(st, Approve(t, ref, actor), Claim(t), Commit(t, commitOk, "", "", []), Revert(t, revertOk),
        Mark(t, markOk));
    if Admits(st, ref, actor) {
      var held := st.(requests := st.requests[ref := st.requests[ref].(status := Applying)]);
      Approved(st, t, ref, actor);
      ClaimedNow(st, t, ref, actor);
      EditRunHeld(held, t, ref, actor, commitOk, revertOk, markOk);
      hide Next;
    }
  }

  lemma EditRunHeld(held: State, t: Id, ref: Ref, actor: Id, commitOk: bool, revertOk: bool, markOk: bool)
    requires t !in held.ops && ref.Edit? && ref in held.requests && held.requests[ref].status == Applying
    ensures Next(Next(Next(With(held, t, Claimed(ref, actor)), Commit(t, commitOk, "", "", [])),
        Revert(t, revertOk)), Mark(t, markOk))
      == if !Ready(held, ref, commitOk, "") then if revertOk then Moved(held, ref, Pending, None) else held
         else if markOk then Moved(Released(held, ref, actor, "", "", []), ref, Applied, Some(actor))
         else Released(held, ref, actor, "", "", [])
  {
    var op := Claimed(ref, actor);
    if Ready(held, ref, commitOk, "") {
      var done := Released(held, ref, actor, "", "", []);
      CommittedNow(held, t, op, commitOk, "", "", []);
      assert Next(With(done, t, Committed(ref, actor)), Revert(t, revertOk)) == With(done, t, Committed(ref, actor));
      MarkedNow(done, t, ref, actor, markOk);
      hide Next;
    } else {
      FailedNow(held, t, op, commitOk, "", "", []);
      RevertedNow(held, t, ref, revertOk);
      NothingToMark(if revertOk then Moved(held, ref, Pending, None) else held, t, markOk);
      hide Next;
    }
  }

  lemma NothingToMark(st: State, t: Id, ok: bool)
    requires t !in st.ops
    ensures Next(st, Mark(t, ok)) == st
  {
  }

  function PromotionOutcome(st: State, id: Id, actor: Id, commitOk: bool, markOk: bool, c: Id, env: Id,
      plan: seq<Change>): State {
    var ref := Promotion(id);
    if !Admits(st, ref, actor) || !Ready(st, ref, commitOk, c) then st
    else
      var done := Released(st, ref, actor, c, env, plan);
      if markOk then Moved(done, ref, Applied, Some(actor)) else done
  }

  lemma PromotionRun(st: State, t: Id, id: Id, actor: Id, commitOk: bool, markOk: bool, c: Id, env: Id,
      plan: seq<Change>)
    requires t !in st.ops
    ensures Run(st, [Approve(t, Promotion(id), actor), Commit(t, commitOk, c, env, plan), Mark(t, markOk)])
      == PromotionOutcome(st, id, actor, commitOk, markOk, c, env, plan)
  {
    var ref := Promotion(id);
    RunThree(st, Approve(t, ref, actor), Commit(t, commitOk, c, env, plan), Mark(t, markOk));
    if Admits(st, ref, actor) {
      Approved(st, t, ref, actor);
      if Ready(st, ref, commitOk, c) {
        CommittedNow(st, t, Checked(ref, actor), commitOk, c, env, plan);
        MarkedNow(Released(st, ref, actor, c, env, plan), t, ref, actor, markOk);
      } else {
        FailedNow(st, t, Checked(ref, actor), commitOk, c, env, plan);
        NothingToMark(st, t, markOk);
      }
      hide Next;
    }
  }

  /** An approval on its own commits once; two that overlap both commit, from any state. */
  lemma OverlappingApprovalsBothCommit(st: State, ref: Ref, t: Id, u: Id, a: Id, b: Id, x: seq<Change>, y: seq<Change>)
    requires ref.Promotion? && t !in st.ops && u !in st.ops && t != u
    requires Admits(st, ref, a) && Admits(st, ref, b) && st.requests[ref].target.Some? && Ready(st, ref, true, "")
    ensures var after := Next(Next(Next(Next(st, Approve(t, ref, a)), Approve(u, ref, b)),
        Commit(t, true, "", "", x)), Commit(u, true, "", "", y));
      Commits(after.log, ref) == Commits(st.log, ref) + 2
  {
    hide Commits, Wrote;
    var first, second := Checked(ref, a), Checked(ref, b);
    Approved(st, t, ref, a);
    Approved(With(st, t, first), u, ref, b);
    Swapped(st, t, u, first, second);
    CommittedNow(With(st, u, second), t, first, true, "", "", x);
    var once := Released(st, ref, a, "", "", x);
    Swapped(once, t, u, Committed(ref, a), second);
    CommittedNow(With(once, t, Committed(ref, a)), u, second, true, "", "", y);
    var twice := Released(once, ref, b, "", "", y);
    CommitsSnoc(st.log, once.log[|st.log|], ref);
    CommitsSnoc(once.log, twice.log[|once.log|], ref);
    hide Next;
  }

  /** So do two in a row, if the first one's mark does not go through, or it dies before its mark. */
  lemma UnmarkedApprovalsCommitAgain(st: State, ref: Ref, t: Id, u: Id, a: Id, b: Id, x: seq<Change>, y: seq<Change>,
      crash: bool)
    requires ref.Promotion? && t !in st.ops && u !in st.ops
    requires Admits(st, ref, a) && Admits(st, ref, b) && st.requests[ref].target.Some? && Ready(st, ref, true, "")
    ensures var first := Next(Next(st, Approve(t, ref, a)), Commit(t, true, "", "", x));
      var unmarked := Next(first, if crash then Crash(t) else Mark(t, false));
      var after := Next(Next(unmarked, Approve(u, ref, b)), Commit(u, true, "", "", y));
      Commits(after.log, ref) == Commits(st.log, ref) + 2
  {
    hide Commits, Wrote, Protected;
    var once := Released(st, ref, a, "", "", x);
    Approved(st, t, ref, a);
    CommittedNow(st, t, Checked(ref, a), true, "", "", x);
    assert Next(With(once, t, Committed(ref, a)), if crash then Crash(t) else Mark(t, false)) == once by {
      Dropped(once, t, Committed(ref, a));
    }
    Approved(once, u, ref, b);
    CommittedNow(once, u, Checked(ref, b), true, "", "", y);
    var twice := Released(once, ref, b, "", "", y);
    CommitsSnoc(st.log, once.log[|st.log|], ref);
    CommitsSnoc(once.log, twice.log[|once.log|], ref);
    hide Next;
  }

  /** A decision between the check and the mark leaves a rejected request with a version, whether it comes
      before the commit or after it. */
  lemma RejectedWithAVersion(st: State, ref: Ref, t: Id, a: Id, b: Id, x: seq<Change>, early: bool)
    requires ref.Promotion? && t !in st.ops
    requires Admits(st, ref, a) && Admits(st, ref, b) && st.requests[ref].target.Some? && Ready(st, ref, true, "")
    ensures var checked, commit, reject := Next(st, Approve(t, ref, a)), Commit(t, true, "", "", x),
        Decide(ref, b, Rejected);
      var after := if early then Next(Next(checked, reject), commit) else Next(Next(checked, commit), reject);
      && Commits(after.log, ref) == Commits(st.log, ref) + 1
      && ref in after.requests && after.requests[ref].status == Rejected
  {
    hide Commits, Wrote, Protected;
    var commit, reject := Commit(t, true, "", "", x), Decide(ref, b, Rejected);
    Approved(st, t, ref, a);
    var rejected := Moved(st, ref, Rejected, Some(b));
    var once := Released(if early then rejected else st, ref, a, "", "", x);
    CommitsSnoc(st.log, once.log[|st.log|], ref);
    if early {
      assert Next(With(st, t, Checked(ref, a)), reject) == With(rejected, t, Checked(ref, a));
      CommittedNow(rejected, t, Checked(ref, a), true, "", "", x);
    } else {
      CommittedNow(st, t, Checked(ref, a), true, "", "", x);
      assert Next(With(once, t, Committed(ref, a)), reject) == With(Moved(once, ref, Rejected, Some(b)), t,
          Committed(ref, a));
    }
    hide Next;
  }

  lemma Swapped(st: State, t: Id, u: Id, a: Op, b: Op)
    requires t != u
    ensures With(With(st, t, a), u, b) == With(With(st, u, b), t, a)
  {
    assert st.ops[t := a][u := b] == st.ops[u := b][t := a];
  }

  /** An edit request whose commit fails is claimed again: from any state with a pending edit it leaves pending
      twice. */
  lemma EditsMayLeavePendingTwice(st: State, ref: Ref, t: Id, u: Id, a: Id, b: Id)
    requires ref.Edit? && t !in st.ops && u !in st.ops && Admits(st, ref, a) && Admits(st, ref, b)
    ensures var first := [Approve(t, ref, a), Claim(t), Commit(t, false, "", "", []), Revert(t, true)];
      Departures(st, first + [Approve(u, ref, b), Claim(u)], ref) == 2
  {
    var held := st.(requests := st.requests[ref := st.requests[ref].(status := Applying)]);
    var back := Moved(held, ref, Pending, None);
    var steps := [Approve(t, ref, a), Claim(t), Commit(t, false, "", "", []), Revert(t, true), Approve(u, ref, b),
        Claim(u)];
    Approved(st, t, ref, a);
    ClaimedNow(st, t, ref, a);
    FailedNow(held, t, Claimed(ref, a), false, "", "", []);
    RevertedNow(held, t, ref, true);
    Approved(back, u, ref, b);
    ClaimedNow(back, u, ref, b);
    hide Next;
    DeparturesCons(st, steps, ref);
    DeparturesCons(With(st, t, Checked(ref, a)), steps[1..], ref);
    DeparturesCons(With(held, t, Claimed(ref, a)), steps[1..][1..], ref);
    DeparturesCons(With(held, t, Failed(ref)), steps[1..][1..][1..], ref);
    DeparturesCons(back, steps[1..][1..][1..][1..], ref);
    DeparturesCons(With(back, u, Checked(ref, b)), steps[1..][1..][1..][1..][1..], ref);
    assert [Approve(t, ref, a), Claim(t), Commit(t, false, "", "", []), Revert(t, true)] + [Approve(u, ref, b),
        Claim(u)] == steps;
  }

  lemma DeparturesCons(st: State, steps: seq<Step>, ref: Ref)
    requires steps != []
    ensures Departures(st, steps, ref) ==
      (if Leaves(st, steps[0], ref) then 1 else 0) + Departures(Next(st, steps[0]), steps[1..], ref)
  {
  }

  function SaveOutcome(st: State, c: Id, actor: Id, filed: Id, changes: seq<Change>, commitOk: bool): State {
    if c !in st.configs then st
    else if Protected(st, c) then File(st, Edit(filed), Some(c), actor, changes)
    else if commitOk then Log(st, c, actor, Direct, false, changes)
    else st
  }

  lemma SaveRun(st: State, t: Id, c: Id, actor: Id, filed: Id, changes: seq<Change>, commitOk: bool)
    requires t !in st.ops
    ensures Run(st, [Write(t, c, actor, filed, changes), CommitWrite(t, commitOk)]) == SaveOutcome(st, c, actor,
        filed, changes, commitOk)
  {
    hide Protected;
    RunTwo(st, Write(t, c, actor, filed, changes), CommitWrite(t, commitOk));
    Dropped(st, t, Writing(c, actor, changes));
  }

  // ---------- the handlers ----------

  /** The config's own flag or its environment's is set. */
  predicate IsGuarded(st: State, c: Id) {
    c in st.configs && (st.configs[c].protected || st.configs[c].env in (set e | e in st.envs && st.envs[e]))
  }

  /** The request is pending, and somebody else's. */
  predicate Awaits(st: State, ref: Ref, actor: Id) { IsPending(st, ref) && st.requests[ref].requester != actor }

  class Workflow {
    var st: State

    constructor (s: State)
      ensures st == s
    {
      st := s;
    }

    /** requireApproval and applyWrite: `filed` is the id a new edit request would draw. */
    method Save(t: Id, c: Id, actor: Id, filed: Id, changes: seq<Change>, commitOk: bool) returns (reply: Reply)
      requires t !in st.ops
      modifies this
      ensures st == Run(old(st), [Write(t, c, actor, filed, changes), CommitWrite(t, commitOk)])
      ensures c !in old(st).configs ==> reply == NotFound && st == old(st)
      ensures c in old(st).configs && IsGuarded(old(st), c) && Edit(filed) !in old(st).requests ==>
        && reply == Accepted
        && st == old(st).(requests := old(st).requests[Edit(filed) := Request(Some(c), actor, Pending, None, changes)])
      ensures c in old(st).configs && !IsGuarded(old(st), c) && commitOk ==>
        reply == Saved && st == old(st).(log := old(st).log + [Version(c, actor, Direct, false, false, changes)])
      ensures reply == Failure ==> st == old(st)
      ensures reply == Saved <==> |st.log| > |old(st).log|
      ensures Targeted(old(st)) ==> Targeted(st)
    {
      SaveRun(st, t, c, actor, filed, changes, commitOk);
      hide Run;
      if c !in st.configs {
        return NotFound;
      }
      if Protected(st, c) {
        if Edit(filed) in st.requests {
          return Failure;
        }
        st := st.(requests := st.requests[Edit(filed) := Request(Some(c), actor, Pending, None, changes)]);
        return Accepted;
      }
      if !commitOk {
        return Failure;
      }
      st := st.(log := st.log + [Version(c, actor, Direct, false, false, changes)]);
      return Saved;
    }

    /** Claim, then commit, then mark; a failed commit hands the claim back. */
    method ApproveEdit(t: Id, id: Id, actor: Id, commitOk: bool, revertOk: bool, markOk: bool) returns (reply: Reply)
      requires t !in st.ops && Targeted(st)
      modifies this
      ensures st == Run(old(st), [Approve(t, Edit(id), actor), Claim(t), Commit(t, commitOk, "", "", []),
          Revert(t, revertOk), Mark(t, markOk)])
      ensures reply == Done <==>
        && Awaits(old(st), Edit(id), actor) && actor != "" && commitOk && markOk
        && old(st).requests[Edit(id)].target.value in old(st).configs
      ensures reply == Done ==>
        var req := old(st).requests[Edit(id)];
        var c := req.target.value;
        && st.log == old(st).log + [Version(c, actor, By(Edit(id), req.requester), false, IsGuarded(old(st), c),
            req.changes)]
        && st == old(st).(log := st.log, requests := st.requests)
        && st.requests == old(st).requests[Edit(id) := req.(status := Applied, resolver := Some(actor))]
      ensures reply == NotFound || reply == Forbidden ==> st == old(st)
      ensures reply == Failure ==>
        && st.log == old(st).log && Edit(id) in st.requests
        && st.requests[Edit(id)].status == if revertOk then Pending else Applying
      ensures reply == Conflict && Awaits(old(st), Edit(id), actor) ==>
        |st.log| == |old(st).log| + 1 && Edit(id) in st.requests && st.requests[Edit(id)].status == Applying
    {
      var ref := Edit(id);
      EditRun(st, t, id, actor, commitOk, revertOk, markOk);
      hide Run;
      if ref !in st.requests {
        return NotFound;
      }
      var req := st.requests[ref];
      if actor == "" || actor == req.requester {
        return Forbidden;
      }
      if req.status != Pending {
        return Conflict;
      }
      st := st.(requests := st.requests[ref := req.(status := Applying)]);
      if !commitOk || req.target.value !in st.configs {
        if revertOk {
          st := st.(requests := st.requests[ref := req.(status := Pending, resolver := None)]);
        }
        return Failure;
      }
      st := Log(st, req.target.value, actor, By(ref, req.requester), false, req.changes);
      if !markOk {
        return Conflict;
      }
      st := st.(requests := st.requests[ref := req.(status := Applied, resolver := Some(actor))]);
      return Done;
    }

    /** Commit first; only then is the request marked, if it is still pending. */
    method ApprovePromotion(t: Id, id: Id, actor: Id, commitOk: bool, markOk: bool, c: Id, env: Id,
        plan: seq<Change>) returns (reply: Reply)
      requires t !in st.ops
      modifies this
      ensures st == Run(old(st), [Approve(t, Promotion(id), actor), Commit(t, commitOk, c, env, plan), Mark(t, markOk)])
      ensures reply == Done <==>
        && Awaits(old(st), Promotion(id), actor) && commitOk && markOk
        && var target := old(st).requests[Promotion(id)].target;
           if target.None? then c !in old(st).configs else target.value in old(st).configs
      ensures reply == Done ==>
        var req := old(st).requests[Promotion(id)];
        && st.requests == old(st).requests[Promotion(id) := req.(status := Applied, resolver := Some(actor))]
        && |st.log| == |old(st).log| + 1 && st.log[..|old(st).log|] == old(st).log
        && var v := st.log[|old(st).log|];
           && v.config == (if req.target.None? then c else req.target.value) && v.changes == plan
           && v.author == actor && v.door == By(Promotion(id), req.requester) && v.created == req.target.None?
      ensures reply != Done && reply != Conflict ==> st == old(st)
    {
      var ref := Promotion(id);
      PromotionRun(st, t, id, actor, commitOk, markOk, c, env, plan);
      hide Run;
      if ref !in st.requests {
        return NotFound;
      }
      var req := st.requests[ref];
      if actor == req.requester {
        return Forbidden;
      }
      if req.status != Pending {
        return Conflict;
      }
      var created := req.target.None?;
      if !commitOk || (created && c in st.configs) || (!created && req.target.value !in st.configs) {
        return Failure;
      }
      if created {
        st := st.(configs := st.configs[c := Config(env, false)]);
      }
      st := Log(st, if created then c else req.target.value, actor, By(ref, req.requester), created, plan);
      if !markOk {
        return Conflict;
      }
      st := st.(requests := st.requests[ref := req.(status := Applied, resolver := Some(actor))]);
      return Done;
    }

    /** Reject and cancel, of either kind of request. */
    method Settle(ref: Ref, actor: Id, cancel: bool) returns (reply: Reply)
      modifies this
      ensures st == Run(old(st), [Decide(ref, actor, if cancel then Cancelled else Rejected)])
      ensures reply == Done <==>
        && IsPending(old(st), ref) && cancel == (actor == old(st).requests[ref].requester) &&
            (ref.Edit? ==> actor != "")
      ensures reply == Done ==>
        var req := old(st).requests[ref];
        st == old(st).(requests := old(st).requests[ref :=
          req.(status := if cancel then Cancelled else Rejected, resolver := Some(actor))])
      ensures reply != Done ==> st == old(st)
    {
      var to := if cancel then Cancelled else Rejected;
      assert [Decide(ref, actor, to)][1..] == [];
      if ref !in st.requests {
        return NotFound;
      }
      var req := st.requests[ref];
      if (ref.Edit? && actor == "") || cancel != (actor == req.requester) {
        return Forbidden;
      }
      if req.status != Pending {
        return Conflict;
      }
      st := st.(requests := st.requests[ref := req.(status := to, resolver := Some(actor))]);
      return Done;
    }
  }
}
