/** The four-eyes workflow: the doors through which a config gets a new version, the two protection flags,
    and edit and promotion requests, with requests being served at the same time and dying at any point.
 */
module FourEyes {
  import opened Options

  type Id = string

  datatype Config = Config(env: Id, protected: bool)

  datatype Status = Pending | Applying | Applied | Rejected | Cancelled

  datatype Ref = Edit(id: Id) | Promotion(id: Id)

  datatype Change = Set(key: string, value: string) | Delete(key: string)

  /** `target` is the config written to; a promotion may have to create it. An edit request stores the
      changes it proposes; a promotion works them out when it is applied. */
  datatype Request = Request(target: Option<Id>, requester: Id, status: Status, resolver: Option<Id>,
      changes: seq<Change>)

  /** How a version came about: written by one user, or requested by one and approved by another. */
  datatype Door = Direct | By(ref: Ref, requester: Id)

  /** `created`: the config came into being with this version. `guarded`: a protection flag was set. */
  datatype Version = Version(config: Id, author: Id, door: Door, created: bool, guarded: bool, changes: seq<Change>)

  /** What a request in flight has got to. */
  datatype Op =
    | Writing(config: Id, actor: Id, changes: seq<Change>)  // found the config unprotected
    | Checked(ref: Ref, approver: Id)    // found the request pending and the approver not its author
    | Claimed(ref: Ref, approver: Id)    // moved an edit request from pending to applying
    | Failed(ref: Ref)                   // the commit failed after the claim
    | Committed(ref: Ref, approver: Id)  // the version exists; the request is not yet marked

  datatype State = State(
    envs: map<Id, bool>,
    configs: map<Id, Config>,
    requests: map<Ref, Request>,
    ops: map<Id, Op>,
    log: seq<Version>)

  /** The union of the config's own flag and its environment's. */
  predicate Protected(st: State, c: Id) {
    c in st.configs && (st.configs[c].protected || (st.configs[c].env in st.envs && st.envs[st.configs[c].env]))
  }

  datatype Step =
    | NewConfig(c: Id, env: Id)
    | SetConfigFlag(c: Id, on: bool)
    | SetEnvFlag(env: Id, on: bool)
    | Write(t: Id, c: Id, actor: Id, filed: Id, changes: seq<Change>)  // save, put, delete, or promote into `c`
    | CommitWrite(t: Id, ok: bool)
    | PromoteNew(c: Id, env: Id, actor: Id, changes: seq<Change>)      // promote into a target that is not there yet
    | FilePromotion(id: Id, target: Option<Id>, actor: Id)
    | Approve(t: Id, ref: Ref, actor: Id)
    | Claim(t: Id)
    // `c`, `env`: a target to create; `plan`: a promotion's changes
    | Commit(t: Id, ok: bool, c: Id, env: Id, plan: seq<Change>)
    | Revert(t: Id, ok: bool)
    | Mark(t: Id, ok: bool)
    | Decide(ref: Ref, actor: Id, to: Status)
    | Crash(t: Id)

  // ---------- the steps ----------

  function Log(st: State, c: Id, author: Id, door: Door, created: bool, changes: seq<Change>): State {
    st.(log := st.log + [Version(c, author, door, created, Protected(st, c), changes)])
  }

  function File(st: State, ref: Ref, target: Option<Id>, actor: Id, changes: seq<Change>): State {
    if ref in st.requests then st
    else st.(requests := st.requests[ref := Request(target, actor, Pending, None, changes)])
  }

  /** A save of a protected config is filed as an edit request instead of being committed. */
  function WriteStep(st: State, t: Id, c: Id, actor: Id, filed: Id, changes: seq<Change>): State {
    if c !in st.configs then st
    else if Protected(st, c) then File(st, Edit(filed), Some(c), actor, changes)
    else if t in st.ops then st
    else st.(ops := st.ops[t := Writing(c, actor, changes)])
  }

  function CommitWriteStep(st: State, t: Id, ok: bool): State {
    if t in st.ops && st.ops[t].Writing? then
      var op := st.ops[t];
      var st1 := st.(ops := st.ops - {t});
      if ok then Log(st1, op.config, op.actor, Direct, false, op.changes) else st1
    else st
  }

  function PromoteNewStep(st: State, c: Id, env: Id, actor: Id, changes: seq<Change>): State {
    if c in st.configs then st
    else Log(st.(configs := st.configs[c := Config(env, false)]), c, actor, Direct, true, changes)
  }

  /** Only a user can approve an edit; nobody approves their own request. */
  function ApproveStep(st: State, t: Id, ref: Ref, actor: Id): State {
    if t in st.ops || ref !in st.requests || st.requests[ref].status != Pending then st
    else if actor == st.requests[ref].requester || (ref.Edit? && actor == "") then st
    else st.(ops := st.ops[t := Checked(ref, actor)])
  }

  /** Edit requests are claimed before anything is committed: one winner moves pending to applying. */
  function ClaimStep(st: State, t: Id): State {
    if t in st.ops && st.ops[t].Checked? && st.ops[t].ref.Edit? then
      var op := st.ops[t];
      if op.ref in st.requests && st.requests[op.ref].status == Pending then
        st.(ops := st.ops[t := Claimed(op.ref, op.approver)],
            requests := st.requests[op.ref := st.requests[op.ref].(status := Applying)])
      else st.(ops := st.ops - {t})
    else st
  }

  predicate MayCommit(op: Op) {
    op.Claimed? || (op.Checked? && op.ref.Promotion?)
  }

  /** The commit: an edit only under its claim, a promotion straight after the check. */
  function CommitStep(st: State, t: Id, ok: bool, c: Id, env: Id, plan: seq<Change>): State {
    if t in st.ops && MayCommit(st.ops[t]) && st.ops[t].ref in st.requests then
      var op := st.ops[t];
      var req := st.requests[op.ref];
      var created := req.target.None?;
      if !ok || (created && c in st.configs) || (!created && req.target.value !in st.configs) then
        if op.Claimed? then st.(ops := st.ops[t := Failed(op.ref)]) else st.(ops := st.ops - {t})
      else
        var target := if created then c else req.target.value;
        var st1 := if created then st.(configs := st.configs[c := Config(env, false)]) else st;
        var changes := if op.ref.Edit? then req.changes else plan;
        Log(st1, target, op.approver, By(op.ref, req.requester), created,
            changes).(ops := st1.ops[t := Committed(op.ref, op.approver)])
    else st
  }

  function Move(st: State, t: Id, ref: Ref, from: Status, to: Status, who: Option<Id>): State {
    var st1 := st.(ops := st.ops - {t});
    if ref in st.requests && st.requests[ref].status == from
    then st1.(requests := st1.requests[ref := st1.requests[ref].(status := to, resolver := who)])
    else st1
  }

  function RevertStep(st: State, t: Id, ok: bool): State {
    if t in st.ops && st.ops[t].Failed? then
      if ok then Move(st, t, st.ops[t].ref, Applying, Pending, None) else st.(ops := st.ops - {t})
    else st
  }

  function MarkStep(st: State, t: Id, ok: bool): State {
    if t in st.ops && st.ops[t].Committed? then
      var op := st.ops[t];
      if ok then Move(st, t, op.ref, if op.ref.Edit? then Applying else Pending, Applied, Some(op.approver))
      else st.(ops := st.ops - {t})
    else st
  }

  /** Rejecting is for others, cancelling for the requester; both only while the request is pending. */
  function DecideStep(st: State, ref: Ref, actor: Id, to: Status): State {
    if ref !in st.requests || st.requests[ref].status != Pending then st
    else if ref.Edit? && actor == "" then st
    else if to == Rejected && actor == st.requests[ref].requester then st
    else if to == Cancelled && actor != st.requests[ref].requester then st
    else if to != Rejected && to != Cancelled then st
    else st.(requests := st.requests[ref := st.requests[ref].(status := to, resolver := Some(actor))])
  }

  function Next(st: State, step: Step): State {
    match step
    case NewConfig(c, env) => if c in st.configs then st else st.(configs := st.configs[c := Config(env, false)])
    case SetConfigFlag(c, on) =>
      if c in st.configs then st.(configs := st.configs[c := st.configs[c].(protected := on)]) else st
    case SetEnvFlag(env, on) => st.(envs := st.envs[env := on])
    case Write(t, c, actor, filed, changes) => WriteStep(st, t, c, actor, filed, changes)
    case CommitWrite(t, ok) => CommitWriteStep(st, t, ok)
    case PromoteNew(c, env, actor, changes) => PromoteNewStep(st, c, env, actor, changes)
    case FilePromotion(id, target, actor) => File(st, Promotion(id), target, actor, [])
    case Approve(t, ref, actor) => ApproveStep(st, t, ref, actor)
    case Claim(t) => ClaimStep(st, t)
    case Commit(t, ok, c, env, plan) => CommitStep(st, t, ok, c, env, plan)
    case Revert(t, ok) => RevertStep(st, t, ok)
    case Mark(t, ok) => MarkStep(st, t, ok)
    case Decide(ref, actor, to) => DecideStep(st, ref, actor, to)
    case Crash(t) => st.(ops := st.ops - {t})
  }

  function Run(st: State, steps: seq<Step>): State
    decreases |steps|
  {
    if steps == [] then st else Run(Next(st, steps[0]), steps[1..])
  }

  lemma RunTwo(st: State, a: Step, b: Step)
    ensures Run(st, [a, b]) == Next(Next(st, a), b)
  {
    hide Next;
    assert [a, b][1..] == [b] && [b][1..] == [];
    assert Run(Next(st, a), [b]) == Next(Next(st, a), b);
  }

  ghost predicate Initial(st: State) { st.requests == map[] && st.ops == map[] && st.log == [] }

  // ---------- counting versions ----------

  predicate Under(v: Version, ref: Ref) { v.door.By? && v.door.ref == ref }

  /** The number of versions committed under one request. */
  function Commits(log: seq<Version>, ref: Ref): nat {
    if log == [] then 0
    else Commits(log[..|log| - 1], ref) + if Under(log[|log| - 1], ref) then 1 else 0
  }

  ghost predicate Wrote(log: seq<Version>, ref: Ref, author: Id) {
    exists v :: v in log && Under(v, ref) && v.author == author
  }

  lemma {:induction false} SomeCommit(log: seq<Version>, ref: Ref)
    ensures Commits(log, ref) == 0 <==> forall v :: v in log ==> !Under(v, ref)
  {
    if log != [] {
      SomeCommit(log[..|log| - 1], ref);
      assert forall v :: v in log <==> v in log[..|log| - 1] || v == log[|log| - 1];
    }
  }

  // ---------- what a step does to requests in flight ----------

  /** How an op comes to be what it is after a step that changed it. */
  predicate OpMoves(st: State, step: Step, t: Id, op: Op) {
    match step
    case Write(u, c, actor, _, changes) => t == u && op == Writing(c, actor, changes) && c in st.configs &&
        !Protected(st, c)
    case Approve(u, ref, actor) =>
      && t == u && op == Checked(ref, actor) && t !in st.ops && ref in st.requests && st.requests[ref].status == Pending
      && actor != st.requests[ref].requester
    case Claim(u) => t == u && t in st.ops && st.ops[t].Checked? && st.ops[t].ref.Edit? &&
        op == Claimed(st.ops[t].ref, st.ops[t].approver)
    case Commit(u, _, _, _, _) =>
      && t == u && t in st.ops && MayCommit(st.ops[t]) && st.ops[t].ref in st.requests
      && if op.Failed? then st.ops[t].Claimed? && op.ref == st.ops[t].ref
         else op == Committed(st.ops[t].ref, st.ops[t].approver) && Lands(st, step, st.ops[t].ref)
    case _ => false
  }

  /** An approval of `ref` commits a version. */
  predicate Lands(st: State, step: Step, ref: Ref) {
    && step.Commit? && step.ok && step.t in st.ops && MayCommit(st.ops[step.t]) && st.ops[step.t].ref == ref &&
        ref in st.requests
    && var target := st.requests[ref].target; if target.None? then step.c !in st.configs else target.value in st.configs
  }

  lemma OpOrigin(st: State, step: Step, t: Id)
    requires t in Next(st, step).ops
    ensures (t in st.ops && Next(st, step).ops[t] == st.ops[t]) || OpMoves(st, step, t, Next(st, step).ops[t])
  {
    hide WriteStep, CommitWriteStep, PromoteNewStep, ApproveStep, ClaimStep, CommitStep, RevertStep, MarkStep,
        DecideStep, File, Protected;
    match step
    case Write(_, _, _, _, _) => OpsAfterWrite(st, step, t);
    case CommitWrite(_, _) => OpsAfterEnd(st, step);
    case PromoteNew(_, _, _, _) => OpsAfterQuiet(st, step);
    case FilePromotion(_, _, _) => OpsAfterQuiet(st, step);
    case Approve(_, _, _) => OpsAfterApprove(st, step, t);
    case Claim(_) => OpsAfterClaim(st, step, t);
    case Commit(_, _, _, _, _) => OpsAfterCommit(st, step, t);
    case Revert(_, _) => OpsAfterEnd(st, step);
    case Mark(_, _) => OpsAfterEnd(st, step);
    case Decide(_, _, _) => OpsAfterQuiet(st, step);
    case _ =>
  }

  lemma OpsAfterWrite(st: State, step: Step, t: Id)
    requires step.Write? && t in WriteStep(st, step.t, step.c, step.actor, step.filed, step.changes).ops
    ensures var op := WriteStep(st, step.t, step.c, step.actor, step.filed, step.changes).ops[t];
      (t in st.ops && op == st.ops[t]) || OpMoves(st, step, t, op)
  {
    hide Protected;
  }

  lemma OpsAfterApprove(st: State, step: Step, t: Id)
    requires step.Approve? && t in ApproveStep(st, step.t, step.ref, step.actor).ops
    ensures var op := ApproveStep(st, step.t, step.ref, step.actor).ops[t];
      (t in st.ops && op == st.ops[t]) || OpMoves(st, step, t, op)
  {
  }

  lemma OpsAfterClaim(st: State, step: Step, t: Id)
    requires step.Claim? && t in ClaimStep(st, step.t).ops
    ensures var op := ClaimStep(st, step.t).ops[t]; (t in st.ops && op == st.ops[t]) || OpMoves(st, step, t, op)
  {
  }

  lemma OpsAfterCommit(st: State, step: Step, t: Id)
    requires step.Commit? && t in CommitStep(st, step.t, step.ok, step.c, step.env, step.plan).ops
    ensures var op := CommitStep(st, step.t, step.ok, step.c, step.env, step.plan).ops[t];
      (t in st.ops && op == st.ops[t]) || OpMoves(st, step, t, op)
  {
    hide Protected;
  }

  /** These only ever take the op they work on away. */
  lemma OpsAfterEnd(st: State, step: Step)
    requires step.CommitWrite? || step.Revert? || step.Mark?
    ensures var after := if step.CommitWrite? then CommitWriteStep(st, step.t, step.ok) else if step.Revert?
        then RevertStep(st, step.t, step.ok) else MarkStep(st, step.t, step.ok);
      after.ops == st.ops || after.ops == st.ops - {step.t}
  {
    hide Protected;
  }

  lemma OpsAfterQuiet(st: State, step: Step)
    requires step.PromoteNew? || step.FilePromotion? || step.Decide?
    ensures var after := if step.PromoteNew? then PromoteNewStep(st, step.c, step.env, step.actor, step.changes)
      else if step.FilePromotion? then File(st, Promotion(step.id), step.target, step.actor, [])
          else DecideStep(st, step.ref, step.actor, step.to);
      after.ops == st.ops
  {
    hide Protected;
  }

  /** How a request comes to be what it is after a step that changed it. */
  predicate RequestMoves(st: State, step: Step, ref: Ref, req: Request) {
    if ref !in st.requests then
      && req.status == Pending
      && ((step.Write? && ref == Edit(step.filed) && Protected(st, step.c)) ||
          (step.FilePromotion? && ref == Promotion(step.id)))
    else
      var was := st.requests[ref];
      && req == was.(status := req.status, resolver := req.resolver)
      && match step
         case Claim(t) => t in st.ops && st.ops[t].Checked? && st.ops[t].ref == ref && was.status == Pending &&
             req.status == Applying
         case Revert(t, _) => t in st.ops && st.ops[t].Failed? && st.ops[t].ref == ref && was.status == Applying &&
             req.status == Pending
         case Mark(t, _) =>
           && t in st.ops && st.ops[t].Committed? && st.ops[t].ref == ref && req.status == Applied &&
               req.resolver == Some(st.ops[t].approver)
           && was.status == if ref.Edit? then Applying else Pending
         case Decide(r, actor, to) =>
           && r == ref && was.status == Pending && req.resolver == Some(actor) && (ref.Edit? ==> actor != "")
           && to == req.status == if actor == was.requester then Cancelled else Rejected
         case _ => false
  }

  lemma RequestOrigin(st: State, step: Step, ref: Ref)
    ensures ref in st.requests ==> ref in Next(st, step).requests
    ensures ref in Next(st, step).requests ==>
      (ref in st.requests && Next(st, step).requests[ref] == st.requests[ref]) ||
          RequestMoves(st, step, ref, Next(st, step).requests[ref])
  {
    hide WriteStep, CommitWriteStep, PromoteNewStep, ApproveStep, ClaimStep, CommitStep, RevertStep, MarkStep,
        DecideStep, File, Protected;
    match step
    case Write(_, _, _, _, _) => RequestsAfterFiling(st, step, ref);
    case FilePromotion(_, _, _) => RequestsAfterFiling(st, step, ref);
    case CommitWrite(_, _) => RequestsAfterQuiet(st, step);
    case PromoteNew(_, _, _, _) => RequestsAfterQuiet(st, step);
    case Approve(_, _, _) => RequestsAfterQuiet(st, step);
    case Commit(_, _, _, _, _) => RequestsAfterCommit(st, step);
    case Claim(_) => RequestsAfterClaim(st, step, ref);
    case Revert(_, _) => RequestsAfterRevert(st, step, ref);
    case Mark(_, _) => RequestsAfterMark(st, step, ref);
    case Decide(_, _, _) => RequestsAfterDecide(st, step, ref);
    case _ =>
  }

  lemma RequestsAfterFiling(st: State, step: Step, ref: Ref)
    requires step.Write? || step.FilePromotion?
    ensures var after := if step.Write? then WriteStep(st, step.t, step.c, step.actor, step.filed, step.changes)
      else File(st, Promotion(step.id), step.target, step.actor, []);
      && (ref in st.requests ==> ref in after.requests)
      && (ref in after.requests ==>
        || (ref in st.requests && after.requests[ref] == st.requests[ref])
        || RequestMoves(st, step, ref, after.requests[ref]))
  {
    hide Protected;
  }

  lemma RequestsAfterQuiet(st: State, step: Step)
    requires step.CommitWrite? || step.PromoteNew? || step.Approve?
    ensures var after := if step.CommitWrite? then CommitWriteStep(st, step.t, step.ok)
      else if step.PromoteNew? then PromoteNewStep(st, step.c, step.env, step.actor, step.changes)
          else ApproveStep(st, step.t, step.ref, step.actor);
      after.requests == st.requests
  {
    hide Protected;
  }

  lemma RequestsAfterCommit(st: State, step: Step)
    requires step.Commit?
    ensures CommitStep(st, step.t, step.ok, step.c, step.env, step.plan).requests == st.requests
  {
    hide Protected;
  }

  lemma RequestsAfterClaim(st: State, step: Step, ref: Ref)
    requires step.Claim?
    ensures var after := ClaimStep(st, step.t);
      && (ref in st.requests <==> ref in after.requests)
      && (ref in after.requests ==>
          after.requests[ref] == st.requests[ref] || RequestMoves(st, step, ref, after.requests[ref]))
  {
  }

  lemma RequestsAfterRevert(st: State, step: Step, ref: Ref)
    requires step.Revert?
    ensures var after := RevertStep(st, step.t, step.ok);
      && (ref in st.requests <==> ref in after.requests)
      && (ref in after.requests ==>
          after.requests[ref] == st.requests[ref] || RequestMoves(st, step, ref, after.requests[ref]))
  {
  }

  lemma RequestsAfterMark(st: State, step: Step, ref: Ref)
    requires step.Mark?
    ensures var after := MarkStep(st, step.t, step.ok);
      && (ref in st.requests <==> ref in after.requests)
      && (ref in after.requests ==>
          after.requests[ref] == st.requests[ref] || RequestMoves(st, step, ref, after.requests[ref]))
  {
  }

  lemma RequestsAfterDecide(st: State, step: Step, ref: Ref)
    requires step.Decide?
    ensures var after := DecideStep(st, step.ref, step.actor, step.to);
      && (ref in st.requests <==> ref in after.requests)
      && (ref in after.requests ==>
          after.requests[ref] == st.requests[ref] || RequestMoves(st, step, ref, after.requests[ref]))
  {
  }

  // ---------- two parties ----------

  /** The op works under an existing request for somebody who did not file it. */
  predicate OpOk(st: State, op: Op) {
    match op
    case Writing(_, _, _) => true
    case Failed(ref) => ref in st.requests && ref.Edit?
    case Checked(ref, approver) => ref in st.requests && approver != st.requests[ref].requester
    case Claimed(ref, approver) => ref in st.requests && ref.Edit? && approver != st.requests[ref].requester
    case Committed(ref, approver) => ref in st.requests && approver != st.requests[ref].requester
  }

  predicate VersionOk(st: State, v: Version) {
    v.door.By? ==>
      && v.door.ref in st.requests
      && var req := st.requests[v.door.ref];
      && v.door.requester == req.requester
      && v.author != v.door.requester
      && (if req.target.Some? then v.config == req.target.value && !v.created else v.created)
      && (v.door.ref.Edit? ==> v.changes == req.changes)
  }

  ghost predicate TwoParty(st: State) {
    && (forall t :: t in st.ops ==> OpOk(st, st.ops[t]))
    && (forall v :: v in st.log ==> VersionOk(st, v))
  }

  /** A request's author, target and changes never change. */
  lemma RequestsKeepAuthors(st: State, step: Step, ref: Ref)
    requires ref in st.requests
    ensures ref in Next(st, step).requests
    ensures Next(st, step).requests[ref].requester == st.requests[ref].requester
    ensures Next(st, step).requests[ref].target == st.requests[ref].target
    ensures Next(st, step).requests[ref].changes == st.requests[ref].changes
  {
    hide Next, Protected;
    RequestOrigin(st, step, ref);
  }

  lemma NewOpsAreOk(st: State, step: Step, t: Id)
    requires TwoParty(st) && t in Next(st, step).ops
    ensures OpOk(Next(st, step), Next(st, step).ops[t])
  {
    var st' := Next(st, step);
    var op := st'.ops[t];
    assert op.Writing? || OpOk(st, op) by { OpsComeFromChecks(st, step, t); }
    if !op.Writing? {
      RequestsKeepAuthors(st, step, op.ref);
    }
  }

  lemma OpsComeFromChecks(st: State, step: Step, t: Id)
    requires TwoParty(st) && t in Next(st, step).ops
    ensures var op := Next(st, step).ops[t]; op.Writing? || OpOk(st, op)
  {
    hide Next, Protected, VersionOk, Lands;
    OpOrigin(st, step, t);
    assert t in st.ops ==> OpOk(st, st.ops[t]);
  }

  /** The log only grows, by at most one version, and a version under a request is its committer's. */
  lemma LogGrows(st: State, step: Step)
    ensures var log := Next(st, step).log;
      || log == st.log
      || (|log| == |st.log| + 1 && log[..|st.log|] == st.log && (step.CommitWrite? || step.PromoteNew? || step.Commit?))
  {
    hide Protected;
  }

  lemma NewVersionsAreOk(st: State, step: Step, v: Version)
    requires TwoParty(st) && v in Next(st, step).log
    ensures VersionOk(Next(st, step), v)
  {
    if v in st.log {
      assert VersionOk(st, v);
      if v.door.By? { RequestsKeepAuthors(st, step, v.door.ref); }
    } else {
      LogGrows(st, step);
      if step.Commit? {
        hide Protected;
        assert OpOk(st, st.ops[step.t]);
      }
    }
  }

  lemma StepTwoParty(st: State, step: Step)
    requires TwoParty(st)
    ensures TwoParty(Next(st, step))
  {
    hide Next, OpOk, VersionOk;
    forall t | t in Next(st, step).ops ensures OpOk(Next(st, step), Next(st, step).ops[t]) { NewOpsAreOk(st, step, t); }
    forall v | v in Next(st, step).log ensures VersionOk(Next(st, step), v) { NewVersionsAreOk(st, step, v); }
  }

  lemma {:induction false} RunTwoParty(st: State, steps: seq<Step>)
    requires TwoParty(st)
    ensures TwoParty(Run(st, steps))
    decreases |steps|
  {
    hide TwoParty, Next;
    if steps != [] {
      StepTwoParty(st, steps[0]);
      RunTwoParty(Next(st, steps[0]), steps[1..]);
    }
  }

  /** In every run, whatever is committed under a request was filed by one user and approved by another, goes
      to the config that was named, and, for an edit, holds exactly the changes that were proposed. */
  lemma NobodyApprovesTheirOwn(st: State, steps: seq<Step>, v: Version)
    requires Initial(st) && v in Run(st, steps).log && v.door.By?
    ensures v.author != v.door.requester && v.door.ref in Run(st, steps).requests
    ensures var req := Run(st, steps).requests[v.door.ref];
      && v.door.requester == req.requester
      && (if req.target.Some? then v.config == req.target.value && !v.created else v.created)
      && (v.door.ref.Edit? ==> v.changes == req.changes)
  {
    RunTwoParty(st, steps);
  }

  // ---------- an edit request commits at most once ----------

  /** The op holds the claim on `ref`. */
  predicate Holds(op: Op, ref: Ref) {
    (op.Claimed? || op.Failed? || op.Committed?) && op.ref == ref
  }

  /** Only one op holds the claim on an edit request, and only while it is applying; with the claim go the
      versions: none before the commit, one after it, and one for good once it is applied. */
  ghost predicate EditOk(st: State, ref: Ref) {
    && (ref !in st.requests ==> Commits(st.log, ref) == 0)
    && (ref in st.requests ==>
      && (forall t :: t in st.ops && Holds(st.ops[t], ref) ==> st.requests[ref].status == Applying)
      && (forall t, u :: t in st.ops && u in st.ops && Holds(st.ops[t], ref) && Holds(st.ops[u], ref) ==> t == u)
      && (forall t :: t in st.ops && Holds(st.ops[t], ref) ==> Commits(st.log, ref) == if st.ops[t].Committed?
          then 1 else 0)
      && (forall t :: t in st.ops && Holds(st.ops[t], ref) && st.ops[t].Committed? ==>
          Wrote(st.log, ref, st.ops[t].approver))
      && match st.requests[ref].status
         case Applying => Commits(st.log, ref) <= 1
         case Applied => Commits(st.log, ref) == 1 && st.requests[ref].resolver.Some? &&
             Wrote(st.log, ref, st.requests[ref].resolver.value)
         case _ => Commits(st.log, ref) == 0)
  }

  /** Nothing of `ref` is touched: same request, same versions, same claim. */
  ghost predicate Untouched(st: State, after: State, ref: Ref) {
    && (ref in st.requests <==> ref in after.requests)
    && (ref in st.requests ==> after.requests[ref] == st.requests[ref])
    && Commits(after.log, ref) == Commits(st.log, ref)
    && (forall a :: Wrote(st.log, ref, a) ==> Wrote(after.log, ref, a))
    && (forall t :: t in after.ops && Holds(after.ops[t], ref) ==> t in st.ops && st.ops[t] == after.ops[t])
  }

  lemma UntouchedStaysOk(st: State, after: State, ref: Ref)
    requires EditOk(st, ref) && Untouched(st, after, ref)
    ensures EditOk(after, ref)
  {
  }

  /** Appending a version adds one commit to its own request and none to the others. */
  lemma CommitsSnoc(log: seq<Version>, v: Version, ref: Ref)
    ensures Commits(log + [v], ref) == Commits(log, ref) + if Under(v, ref) then 1 else 0
    ensures forall a :: Wrote(log, ref, a) ==> Wrote(log + [v], ref, a)
    ensures Under(v, ref) ==> Wrote(log + [v], ref, v.author)
  {
  }

  /** Which request a step works on. */
  predicate Concerns(st: State, step: Step, ref: Ref) {
    match step
    case Write(_, c, _, filed, _) => ref == Edit(filed) && Protected(st, c)
    case FilePromotion(id, _, _) => ref == Promotion(id)
    case Claim(t) => t in st.ops && st.ops[t].Checked? && st.ops[t].ref == ref
    case Commit(t, _, _, _, _) => t in st.ops && MayCommit(st.ops[t]) && st.ops[t].ref == ref
    case Revert(t, _) => t in st.ops && st.ops[t].Failed? && st.ops[t].ref == ref
    case Mark(t, _) => t in st.ops && st.ops[t].Committed? && st.ops[t].ref == ref
    case Decide(r, _, _) => r == ref
    case _ => false
  }

  lemma OtherRequestsStay(st: State, step: Step, ref: Ref)
    requires !Concerns(st, step, ref)
    ensures ref in st.requests <==> ref in Next(st, step).requests
    ensures ref in st.requests ==> Next(st, step).requests[ref] == st.requests[ref]
  {
    hide Next, Protected;
    RequestOrigin(st, step, ref);
  }

  lemma OtherClaimsStay(st: State, step: Step, ref: Ref, t: Id)
    requires !Concerns(st, step, ref) && t in Next(st, step).ops && Holds(Next(st, step).ops[t], ref)
    ensures t in st.ops && st.ops[t] == Next(st, step).ops[t]
  {
    hide Next, Protected, Lands;
    OpOrigin(st, step, t);
  }

  lemma OtherCommitsStay(st: State, step: Step, ref: Ref)
    requires !Concerns(st, step, ref)
    ensures var after := Next(st, step);
      Commits(after.log, ref) == Commits(st.log, ref) && (forall a :: Wrote(st.log, ref, a) ==>
          Wrote(after.log, ref, a))
  {
    hide Protected, Commits, Wrote;
    LogGrows(st, step);
    var log := Next(st, step).log;
    if log != st.log {
      var v := log[|st.log|];
      assert log == st.log + [v];
      CommitsSnoc(st.log, v, ref);
      assert !Under(v, ref);
    }
  }

  lemma ClaimKeepsEdit(st: State, t: Id, ref: Ref)
    requires EditOk(st, ref) && ref.Edit? && Concerns(st, Claim(t), ref) && ref in st.requests
    ensures EditOk(ClaimStep(st, t), ref)
  {
    hide Commits, Wrote;
  }

  lemma CommitKeepsEdit(st: State, t: Id, ok: bool, c: Id, env: Id, plan: seq<Change>, ref: Ref)
    requires EditOk(st, ref) && ref.Edit? && Concerns(st, Commit(t, ok, c, env, plan), ref) && ref in st.requests
    ensures EditOk(CommitStep(st, t, ok, c, env, plan), ref)
  {
    hide Commits, Wrote, Protected;
    var after := CommitStep(st, t, ok, c, env, plan);
    assert Holds(st.ops[t], ref);
    if after.log != st.log {
      var v := after.log[|st.log|];
      assert after.log == st.log + [v];
      CommitsSnoc(st.log, v, ref);
    }
  }

  lemma FinishKeepsEdit(st: State, step: Step, ref: Ref)
    requires EditOk(st, ref) && ref.Edit? && (step.Revert? || step.Mark? || step.Decide?)
    requires Concerns(st, step, ref) && ref in st.requests
    ensures EditOk(Next(st, step), ref)
  {
    hide Commits, Wrote, Protected;
    assert !step.Decide? ==> Holds(st.ops[step.t], ref);
  }

  lemma StepKeepsEdit(st: State, step: Step, ref: Ref)
    requires TwoParty(st) && EditOk(st, ref) && ref.Edit?
    ensures EditOk(Next(st, step), ref)
  {
    if !Concerns(st, step, ref) {
      OtherRequestsStay(st, step, ref);
      OtherCommitsStay(st, step, ref);
      forall t | t in Next(st, step).ops && Holds(Next(st, step).ops[t], ref)
        ensures t in st.ops && st.ops[t] == Next(st, step).ops[t] { OtherClaimsStay(st, step, ref, t); }
      UntouchedStaysOk(st, Next(st, step), ref);
    } else {
      hide Protected, Commits, Wrote;
      match step
      case Claim(t) => assert OpOk(st, st.ops[t]); ClaimKeepsEdit(st, t, ref);
      case Commit(t, ok, c, env, plan) => assert OpOk(st, st.ops[t]); CommitKeepsEdit(st, t, ok, c, env, plan, ref);
      case Revert(t, _) => assert OpOk(st, st.ops[t]); FinishKeepsEdit(st, step, ref);
      case Mark(t, _) => assert OpOk(st, st.ops[t]); FinishKeepsEdit(st, step, ref);
      case Decide(_, _, _) => if ref in st.requests { FinishKeepsEdit(st, step, ref); }
      case Write(t, c, actor, filed, changes) =>
        forall u | u in st.ops && Holds(st.ops[u], ref) ensures ref in st.requests { assert OpOk(st, st.ops[u]); }
    }
  }

  lemma {:induction false} RunKeepsEdit(st: State, steps: seq<Step>, ref: Ref)
    requires TwoParty(st) && EditOk(st, ref) && ref.Edit?
    ensures EditOk(Run(st, steps), ref)
    decreases |steps|
  {
    hide TwoParty, EditOk, Next;
    if steps != [] {
      StepTwoParty(st, steps[0]);
      StepKeepsEdit(st, steps[0], ref);
      RunKeepsEdit(Next(st, steps[0]), steps[1..], ref);
    }
  }

  /** In every run, with approvals racing and dying anywhere: an edit request yields at most one version;
      once applied it has yielded exactly one, by the approver it records; while it is pending, and once it
      is rejected or cancelled, it has yielded none. */
  lemma EditsCommitAtMostOnce(st: State, steps: seq<Step>, ref: Ref)
    requires Initial(st) && ref.Edit?
    ensures var after := Run(st, steps);
      && Commits(after.log, ref) <= 1
      && (ref in after.requests ==>
        var req := after.requests[ref];
        && (req.status == Applied ==>
            Commits(after.log, ref) == 1 && req.resolver.Some? && Wrote(after.log, ref, req.resolver.value))
        && (req.status in {Pending, Rejected, Cancelled} ==> Commits(after.log, ref) == 0))
  {
    RunKeepsEdit(st, steps, ref);
  }

  // ---------- a decision is final ----------

  predicate Final(s: Status) { s == Applied || s == Rejected || s == Cancelled }

  lemma StepKeepsDecision(st: State, step: Step, ref: Ref)
    requires ref in st.requests && Final(st.requests[ref].status)
    ensures ref in Next(st, step).requests && Next(st, step).requests[ref] == st.requests[ref]
  {
    hide Next, Protected;
    RequestOrigin(st, step, ref);
  }

  /** Applied, rejected and cancelled are the ends: no run leaves them or rewrites who decided. */
  lemma {:induction false} DecisionsAreFinal(st: State, steps: seq<Step>, ref: Ref)
    requires ref in st.requests && Final(st.requests[ref].status)
    ensures ref in Run(st, steps).requests && Run(st, steps).requests[ref] == st.requests[ref]
    decreases |steps|
  {
    hide Next;
    if steps != [] {
      StepKeepsDecision(st, steps[0], ref);
      DecisionsAreFinal(Next(st, steps[0]), steps[1..], ref);
    }
  }

  // ---------- flags, configs and requests as they are made ----------

  /** A switch sets its own flag, on or off, and nothing else. */
  lemma SwitchLaw(st: State, c: Id, env: Id, on: bool, d: Id)
    ensures var after := Next(st, SetConfigFlag(c, on));
      && after.configs.Keys == st.configs.Keys && after == st.(configs := after.configs)
      && (d in st.configs ==> after.configs[d] == Config(st.configs[d].env, if d == c
          then on else st.configs[d].protected))
    ensures var after := Next(st, SetEnvFlag(env, on));
      && after == st.(envs := after.envs) && after.envs.Keys == st.envs.Keys + {env}
      && (d in after.envs ==> after.envs[d] == if d == env then on else st.envs[d])
  {
  }

  /** A new config starts out unprotected, a new promotion request pending in the name of whoever filed it, and a
      promotion into a new target makes the config together with its first version. */
  lemma NewcomersLaw(st: State, c: Id, env: Id, id: Id, target: Option<Id>, actor: Id, changes: seq<Change>)
    ensures c !in st.configs ==> Next(st, NewConfig(c, env)) == st.(configs := st.configs[c := Config(env, false)])
    ensures Promotion(id) !in st.requests ==>
      Next(st, FilePromotion(id, target, actor)) ==
        st.(requests := st.requests[Promotion(id) := Request(target, actor, Pending, None, [])])
    ensures c !in st.configs ==>
      var after := Next(st, PromoteNew(c, env, actor, changes));
      && after.configs == st.configs[c := Config(env, false)] &&
          after == st.(configs := after.configs, log := after.log)
      && after.log == st.log + [Version(c, actor, Direct, true, env in st.envs && st.envs[env], changes)]
    ensures c in st.configs ==> Next(st, NewConfig(c, env)) == Next(st, PromoteNew(c, env, actor, changes)) == st
    ensures Promotion(id) in st.requests ==> Next(st, FilePromotion(id, target, actor)) == st
  {
  }

  // ---------- who decides ----------

  /** Only its requester cancels a request, and only somebody else rejects it. */
  ghost predicate DecidedRightly(st: State) {
    forall ref :: ref in st.requests ==>
      var req := st.requests[ref];
      && (req.status == Cancelled ==> req.resolver == Some(req.requester))
      && (req.status == Rejected ==> req.resolver.Some? && req.resolver.value != req.requester)
  }

  lemma StepDecidesRightly(st: State, step: Step)
    requires DecidedRightly(st)
    ensures DecidedRightly(Next(st, step))
  {
    hide Next, Protected;
    forall ref | ref in Next(st, step).requests
      ensures var req := Next(st, step).requests[ref];
        && (req.status == Cancelled ==> req.resolver == Some(req.requester))
        && (req.status == Rejected ==> req.resolver.Some? && req.resolver.value != req.requester)
    {
      RequestOrigin(st, step, ref);
    }
  }

  /** In every run a cancelled request was cancelled by its requester, and a rejected one rejected by somebody else. */
  lemma {:induction false} DecisionsAreRightlyMade(st: State, steps: seq<Step>)
    requires DecidedRightly(st)
    ensures DecidedRightly(Run(st, steps))
    decreases |steps|
  {
    hide DecidedRightly, Next;
    if steps != [] {
      StepDecidesRightly(st, steps[0]);
      DecisionsAreRightlyMade(Next(st, steps[0]), steps[1..]);
    }
  }

  // ---------- how often a request leaves pending ----------

  predicate IsPending(st: State, ref: Ref) { ref in st.requests && st.requests[ref].status == Pending }

  predicate Leaves(st: State, step: Step, ref: Ref) { IsPending(st, ref) && !IsPending(Next(st, step), ref) }

  /** A failed approval hands its claim back. */
  predicate Returns(st: State, step: Step, ref: Ref) {
    && step.Revert? && step.ok && step.t in st.ops && st.ops[step.t] == Failed(ref)
    && ref in st.requests && st.requests[ref].status == Applying
  }

  function Departures(st: State, steps: seq<Step>, ref: Ref): nat
    decreases |steps|
  {
    if steps == [] then 0
    else (if Leaves(st, steps[0], ref) then 1 else 0) + Departures(Next(st, steps[0]), steps[1..], ref)
  }

  /** No claim is handed back and the request then leaves pending again. */
  predicate NeverLeavesAgain(st: State, steps: seq<Step>, ref: Ref)
    decreases |steps|
  {
    steps == [] ||
    var next, rest := Next(st, steps[0]), steps[1..];
    (Returns(st, steps[0], ref) ==> Departures(next, rest, ref) == 0) && NeverLeavesAgain(next, rest, ref)
  }

  /** A request that is not pending becomes pending again exactly when a claim is handed back. */
  lemma PendingAgainIffReturns(st: State, step: Step, ref: Ref)
    requires ref in st.requests && st.requests[ref].status != Pending
    ensures IsPending(Next(st, step), ref) <==> Returns(st, step, ref)
  {
    RequestOrigin(st, step, ref);
    if Returns(st, step, ref) {
      hide Protected;
    } else {
      if step.Revert? { FailedRevertsKeep(st, step, ref); }
      hide Next, Protected;
    }
  }

  lemma FailedRevertsKeep(st: State, step: Step, ref: Ref)
    requires step.Revert? && !Returns(st, step, ref) && ref in st.requests
    ensures ref in Next(st, step).requests && Next(st, step).requests[ref] == st.requests[ref]
  {
  }

  /** A new request starts out pending. */
  lemma NewcomersArePending(st: State, step: Step, ref: Ref)
    requires ref !in st.requests && ref in Next(st, step).requests
    ensures IsPending(Next(st, step), ref)
  {
    hide Next, Protected;
    RequestOrigin(st, step, ref);
  }

  lemma {:induction false} DeparturesOnward(st: State, steps: seq<Step>, ref: Ref)
    ensures ref in st.requests && !IsPending(st, ref) ==>
      (Departures(st, steps, ref) == 0 <==> NeverLeavesAgain(st, steps, ref))
    ensures ref !in st.requests || IsPending(st, ref) ==>
      (Departures(st, steps, ref) <= 1 <==> NeverLeavesAgain(st, steps, ref))
    decreases |steps|
  {
    hide Next;
    if steps != [] {
      DeparturesOnward(Next(st, steps[0]), steps[1..], ref);
      if ref !in st.requests {
        if ref in Next(st, steps[0]).requests { NewcomersArePending(st, steps[0], ref); }
      } else {
        RequestOrigin(st, steps[0], ref);
        if !IsPending(st, ref) { PendingAgainIffReturns(st, steps[0], ref); }
      }
    }
  }

  /** A request leaves pending at most once, in any run, exactly when no claim on it is handed back and the
      request then leaves pending again. */
  lemma LeavesPendingOnceIff(st: State, steps: seq<Step>, ref: Ref)
    requires Initial(st)
    ensures Departures(st, steps, ref) <= 1 <==> NeverLeavesAgain(st, steps, ref)
  {
    DeparturesOnward(st, steps, ref);
  }

  lemma {:induction false} PromotionsNeverReturn(st: State, steps: seq<Step>, ref: Ref)
    requires TwoParty(st) && ref.Promotion?
    ensures NeverLeavesAgain(st, steps, ref)
    decreases |steps|
  {
    hide Next, TwoParty;
    if steps != [] {
      StepTwoParty(st, steps[0]);
      if Returns(st, steps[0], ref) { OnlyEditsFail(st, steps[0].t); }
      PromotionsNeverReturn(Next(st, steps[0]), steps[1..], ref);
    }
  }

  lemma OnlyEditsFail(st: State, t: Id)
    requires TwoParty(st) && t in st.ops && st.ops[t].Failed?
    ensures st.ops[t].ref.Edit?
  {
    assert OpOk(st, st.ops[t]);
  }

  /** So a promotion request leaves pending at most once in every run. */
  lemma PromotionsLeavePendingOnce(st: State, steps: seq<Step>, ref: Ref)
    requires Initial(st) && ref.Promotion?
    ensures Departures(st, steps, ref) <= 1
  {
    PromotionsNeverReturn(st, steps, ref);
    LeavesPendingOnceIff(st, steps, ref);
  }

  // ---------- protection ----------

  /** Writers in flight work on configs that are unprotected. */
  ghost predicate WritersOpen(st: State) {
    forall t :: t in st.ops && st.ops[t].Writing? ==> st.ops[t].config in st.configs && !Protected(st, st.ops[t].config)
  }

  ghost predicate Guarded(st: State) {
    forall v :: v in st.log && v.guarded && !v.created ==> v.door.By?
  }

  /** The step switches protection on under a writer who has already found the config unprotected. */
  ghost predicate Overtakes(st: State, step: Step) {
    exists t :: t in st.ops && st.ops[t].Writing? &&
      match step
      case SetConfigFlag(c, on) => on && st.ops[t].config == c
      case SetEnvFlag(env, on) => on && st.ops[t].config in st.configs && st.configs[st.ops[t].config].env == env
      case _ => false
  }

  ghost predicate NeverOvertakes(st: State, steps: seq<Step>)
    decreases |steps|
  {
    steps == [] || (!Overtakes(st, steps[0]) && NeverOvertakes(Next(st, steps[0]), steps[1..]))
  }

  lemma StepKeepsWriters(st: State, step: Step)
    requires WritersOpen(st) && !Overtakes(st, step)
    ensures WritersOpen(Next(st, step))
  {
    var after := Next(st, step);
    forall t | t in after.ops && after.ops[t].Writing?
      ensures after.ops[t].config in after.configs && !Protected(after, after.ops[t].config)
    {
      WriterStaysOpen(st, step, t);
    }
  }

  lemma FlagsStay(st: State, step: Step, c: Id)
    requires c in st.configs
    ensures c in Next(st, step).configs && Next(st, step).configs[c].env == st.configs[c].env
    ensures Next(st, step).configs[c].protected ==> st.configs[c].protected || step == SetConfigFlag(c, true)
  {
    hide Protected;
  }

  lemma EnvFlagsStay(st: State, step: Step, env: Id)
    ensures env in Next(st, step).envs && Next(st, step).envs[env] ==>
        (env in st.envs && st.envs[env]) || step == SetEnvFlag(env, true)
  {
    hide Protected;
  }

  lemma WritersComeFromWrites(st: State, step: Step, t: Id)
    requires t in Next(st, step).ops && Next(st, step).ops[t].Writing?
    ensures var c := Next(st, step).ops[t].config;
      (t in st.ops && st.ops[t] == Next(st, step).ops[t]) || (step.Write? && c in st.configs && !Protected(st, c))
  {
    hide Next, Lands;
    OpOrigin(st, step, t);
  }

  lemma WriterStaysOpen(st: State, step: Step, t: Id)
    requires WritersOpen(st) && !Overtakes(st, step)
    requires t in Next(st, step).ops && Next(st, step).ops[t].Writing?
    ensures var after := Next(st, step); after.ops[t].config in after.configs && !Protected(after, after.ops[t].config)
  {
    hide Next;
    var c := Next(st, step).ops[t].config;
    WritersComeFromWrites(st, step, t);
    assert c in st.configs && !Protected(st, c);
    FlagsStay(st, step, c);
    EnvFlagsStay(st, step, st.configs[c].env);
  }

  /** A writer commits to a config that is protected by now. */
  predicate UnderFlag(st: State, step: Step) {
    step.CommitWrite? && step.ok && step.t in st.ops && st.ops[step.t].Writing? && Protected(st, st.ops[step.t].config)
  }

  predicate NeverUnderFlag(st: State, steps: seq<Step>)
    decreases |steps|
  {
    steps == [] || (!UnderFlag(st, steps[0]) && NeverUnderFlag(Next(st, steps[0]), steps[1..]))
  }

  lemma StepGuardedIff(st: State, step: Step)
    ensures Guarded(Next(st, step)) <==> Guarded(st) && !UnderFlag(st, step)
  {
    var after := Next(st, step);
    LogGrows(st, step);
    if after.log != st.log {
      var v := after.log[|st.log|];
      assert after.log == st.log + [v];
      assert (v.guarded && !v.created && !v.door.By?) <==> UnderFlag(st, step) by { NewVersionUnderFlag(st, step); }
      assert forall w :: w in after.log <==> w in st.log || w == v;
    } else {
      NoVersionNoFlag(st, step);
    }
  }

  lemma NewVersionUnderFlag(st: State, step: Step)
    requires |Next(st, step).log| == |st.log| + 1
    ensures var v := Next(st, step).log[|st.log|]; (v.guarded && !v.created && !v.door.By?) <==> UnderFlag(st, step)
  {
  }

  lemma NoVersionNoFlag(st: State, step: Step)
    requires Next(st, step).log == st.log
    ensures !UnderFlag(st, step)
  {
  }

  lemma {:induction false} GuardedIffNeverUnderFlag(st: State, steps: seq<Step>)
    ensures Guarded(Run(st, steps)) <==> Guarded(st) && NeverUnderFlag(st, steps)
    decreases |steps|
  {
    hide Guarded, UnderFlag, Next;
    if steps != [] {
      StepGuardedIff(st, steps[0]);
      GuardedIffNeverUnderFlag(Next(st, steps[0]), steps[1..]);
    }
  }

  /** Every version that any of the doors commits to an existing config while its own or its environment's
      flag is set carries a requester and an approver, and they differ -- exactly in the runs in which no
      writer who found a config unprotected commits to it while it is protected. */
  lemma ProtectedVersionsHaveTwoParties(st: State, steps: seq<Step>)
    requires Initial(st)
    ensures NeverUnderFlag(st, steps) <==>
      forall v :: v in Run(st, steps).log && v.guarded && !v.created ==> v.door.By? && v.author != v.door.requester
  {
    GuardedIffNeverUnderFlag(st, steps);
    forall v | v in Run(st, steps).log && v.door.By? ensures v.author != v.door.requester {
      NobodyApprovesTheirOwn(st, steps, v);
    }
  }

  lemma {:induction false} UnovertakenIsNeverUnderFlag(st: State, steps: seq<Step>)
    requires WritersOpen(st) && NeverOvertakes(st, steps)
    ensures NeverUnderFlag(st, steps)
    decreases |steps|
  {
    hide Overtakes, Next, Protected;
    if steps != [] {
      StepKeepsWriters(st, steps[0]);
      UnovertakenIsNeverUnderFlag(Next(st, steps[0]), steps[1..]);
    }
  }

  /** So it is enough that protection is not switched on between a writer's look at the flags and the
      writer's commit. */
  lemma UnovertakenVersionsHaveTwoParties(st: State, steps: seq<Step>, v: Version)
    requires Initial(st) && NeverOvertakes(st, steps)
    requires v in Run(st, steps).log && v.guarded && !v.created
    ensures v.door.By? && v.author != v.door.requester
  {
    UnovertakenIsNeverUnderFlag(st, steps);
    ProtectedVersionsHaveTwoParties(st, steps);
  }

  /** And if it is, by either flag, and the commit goes through: from any state with a writer in flight, the
      protected config gets a version by that writer alone. */
  lemma OvertakenWriterSlipsThrough(st: State, t: Id, byEnv: bool)
    requires t in st.ops && st.ops[t].Writing? && st.ops[t].config in st.configs
    ensures var c := st.ops[t].config;
      var flag := if byEnv then SetEnvFlag(st.configs[c].env, true) else SetConfigFlag(c, true);
      var steps := [flag, CommitWrite(t, true)];
      && !NeverOvertakes(st, steps) && !NeverUnderFlag(st, steps)
      && Run(st, steps).log == st.log + [Version(c, st.ops[t].actor, Direct, false, true, st.ops[t].changes)]
  {
    var c := st.ops[t].config;
    var flag := if byEnv then SetEnvFlag(st.configs[c].env, true) else SetConfigFlag(c, true);
    var steps := [flag, CommitWrite(t, true)];
    assert Overtakes(st, steps[0]);
    assert steps[1..] == [CommitWrite(t, true)];
    RunTwo(st, steps[0], steps[1]);
  }

  // ---------- promotions commit first and mark afterwards ----------

  predicate Busy(op: Op, ref: Ref) { (op.Checked? || op.Committed?) && op.ref == ref }

  ghost predicate Idle(st: State, ref: Ref) { forall t :: t in st.ops ==> !Busy(st.ops[t], ref) }

  /** The step lets an approval of `ref` run by itself and to its end. */
  ghost predicate Alone(st: State, step: Step, ref: Ref) {
    match step
    case Approve(_, r, _) => r == ref ==> Idle(st, ref)
    case Decide(r, _, _) => r == ref ==> Idle(st, ref)
    case Mark(t, ok) => t in st.ops && Busy(st.ops[t], ref) ==> ok
    case Crash(t) => t in st.ops && Busy(st.ops[t], ref) ==> st.ops[t].Checked?
    case _ => true
  }

  ghost predicate AlwaysAlone(st: State, steps: seq<Step>, ref: Ref)
    decreases |steps|
  {
    steps == [] || (Alone(st, steps[0], ref) && AlwaysAlone(Next(st, steps[0]), steps[1..], ref))
  }

  ghost predicate PromotionOk(st: State, ref: Ref) {
    && (ref !in st.requests ==> Commits(st.log, ref) == 0 && Idle(st, ref))
    && (ref in st.requests ==>
      && st.requests[ref].status != Applying
      && (forall t, u :: t in st.ops && u in st.ops && Busy(st.ops[t], ref) && Busy(st.ops[u], ref) ==> t == u)
      && (forall t :: t in st.ops && Busy(st.ops[t], ref) ==>
            st.requests[ref].status == Pending && Commits(st.log, ref) == if st.ops[t].Committed? then 1 else 0)
      && (Idle(st, ref) ==> Commits(st.log, ref) == if st.requests[ref].status == Applied then 1 else 0))
  }

  lemma OtherBusyStay(st: State, step: Step, ref: Ref, t: Id)
    requires ref.Promotion? && !Concerns(st, step, ref) && !step.Approve?
    requires t in Next(st, step).ops && Busy(Next(st, step).ops[t], ref)
    ensures t in st.ops && st.ops[t] == Next(st, step).ops[t]
  {
    hide Next, Protected, Lands;
    OpOrigin(st, step, t);
  }

  lemma BusyAreNotDropped(st: State, step: Step, ref: Ref, t: Id)
    requires ref.Promotion? && !Concerns(st, step, ref) && !step.Approve? && !step.Crash?
    requires t in st.ops && Busy(st.ops[t], ref)
    ensures t in Next(st, step).ops && st.ops[t] == Next(st, step).ops[t]
  {
    hide Protected;
  }

  lemma UntouchedPromotionStays(st: State, step: Step, ref: Ref)
    requires ref.Promotion? && PromotionOk(st, ref) && !Concerns(st, step, ref) && !step.Approve? && !step.Crash?
    ensures PromotionOk(Next(st, step), ref)
  {
    OtherRequestsStay(st, step, ref);
    OtherCommitsStay(st, step, ref);
    forall t | t in Next(st, step).ops && Busy(Next(st, step).ops[t], ref)
      ensures t in st.ops && st.ops[t] == Next(st, step).ops[t] { OtherBusyStay(st, step, ref, t); }
    forall t | t in st.ops && Busy(st.ops[t], ref)
      ensures t in Next(st, step).ops && st.ops[t] == Next(st, step).ops[t] { BusyAreNotDropped(st, step, ref, t); }
    hide *;
    PromotionFrame(st, Next(st, step), ref);
  }

  lemma PromotionFrame(st: State, after: State, ref: Ref)
    requires PromotionOk(st, ref) && Commits(after.log, ref) == Commits(st.log, ref)
    requires ref in st.requests <==> ref in after.requests
    requires ref in st.requests ==> after.requests[ref] == st.requests[ref]
    requires forall t :: t in after.ops && Busy(after.ops[t], ref) ==> t in st.ops && st.ops[t] == after.ops[t]
    requires forall t :: t in st.ops && Busy(st.ops[t], ref) ==> t in after.ops && st.ops[t] == after.ops[t]
    ensures PromotionOk(after, ref)
  {
  }

  lemma ApproveKeepsPromotion(st: State, step: Step, ref: Ref)
    requires ref.Promotion? && PromotionOk(st, ref) && step.Approve? && Alone(st, step, ref)
    ensures PromotionOk(Next(st, step), ref)
  {
    hide Commits;
    var after := Next(st, step);
    if after != st && step.ref == ref {
      assert Busy(after.ops[step.t], ref);
    } else {
      assert forall t :: t in st.ops && Busy(st.ops[t], ref) ==> t in after.ops && after.ops[t] == st.ops[t];
      assert Idle(after, ref) ==> Idle(st, ref);
    }
  }

  lemma CrashKeepsPromotion(st: State, step: Step, ref: Ref)
    requires ref.Promotion? && PromotionOk(st, ref) && step.Crash? && Alone(st, step, ref)
    ensures PromotionOk(Next(st, step), ref)
  {
    hide Commits;
    var after := Next(st, step);
    if step.t in st.ops && Busy(st.ops[step.t], ref) {
      assert Idle(after, ref);
    } else {
      assert forall t :: t in st.ops && Busy(st.ops[t], ref) ==> t in after.ops && after.ops[t] == st.ops[t];
      assert Idle(after, ref) ==> Idle(st, ref);
    }
  }

  lemma CommitKeepsPromotion(st: State, t: Id, ok: bool, c: Id, env: Id, plan: seq<Change>, ref: Ref)
    requires ref.Promotion? && PromotionOk(st, ref) && Concerns(st, Commit(t, ok, c, env, plan), ref) &&
        ref in st.requests
    requires st.ops[t].Checked?
    ensures PromotionOk(CommitStep(st, t, ok, c, env, plan), ref)
  {
    hide Commits, Wrote, Protected;
    var after := CommitStep(st, t, ok, c, env, plan);
    assert Busy(st.ops[t], ref);
    if after.log != st.log {
      var v := after.log[|st.log|];
      assert after.log == st.log + [v];
      CommitsSnoc(st.log, v, ref);
      assert t in after.ops && Busy(after.ops[t], ref);
    }
  }

  lemma FinishKeepsPromotion(st: State, step: Step, ref: Ref)
    requires ref.Promotion? && PromotionOk(st, ref) && Concerns(st, step, ref) && Alone(st, step, ref) &&
        ref in st.requests
    requires step.Mark? || step.Decide? || step.FilePromotion?
    ensures PromotionOk(Next(st, step), ref)
  {
    hide Commits, Protected;
    assert step.Mark? ==> Busy(st.ops[step.t], ref);
  }

  lemma StepKeepsPromotion(st: State, step: Step, ref: Ref)
    requires TwoParty(st) && ref.Promotion? && PromotionOk(st, ref) && Alone(st, step, ref)
    ensures PromotionOk(Next(st, step), ref)
  {
    if step.Approve? {
      ApproveKeepsPromotion(st, step, ref);
    } else if step.Crash? {
      CrashKeepsPromotion(st, step, ref);
    } else if !Concerns(st, step, ref) {
      UntouchedPromotionStays(st, step, ref);
    } else {
      hide Commits, Protected;
      match step
      case Claim(t) =>
      case Commit(t, ok, c, env, plan) =>
        assert OpOk(st, st.ops[t]);
        CommitKeepsPromotion(st, t, ok, c, env, plan, ref);
      case Revert(t, _) =>
      case Mark(t, _) =>
        assert OpOk(st, st.ops[t]);
        FinishKeepsPromotion(st, step, ref);
      case Decide(_, _, _) =>
        if ref in st.requests { FinishKeepsPromotion(st, step, ref); }
      case FilePromotion(_, _, _) =>
        if ref in st.requests { FinishKeepsPromotion(st, step, ref); }
    }
  }

  lemma {:induction false} RunKeepsPromotion(st: State, steps: seq<Step>, ref: Ref)
    requires TwoParty(st) && ref.Promotion? && PromotionOk(st, ref) && AlwaysAlone(st, steps, ref)
    ensures PromotionOk(Run(st, steps), ref)
    decreases |steps|
  {
    hide TwoParty, PromotionOk, Alone, Next;
    if steps != [] {
      StepTwoParty(st, steps[0]);
      StepKeepsPromotion(st, steps[0], ref);
      RunKeepsPromotion(Next(st, steps[0]), steps[1..], ref);
    }
  }

  /** A promotion request, whose version is committed before the request leaves pending, yields at most one
      version, and exactly one once applied, as long as its approvals do not overlap each other or a
      decision, do not die between commit and mark, and the mark goes through. */
  lemma PromotionsCommitOnceAlone(st: State, steps: seq<Step>, ref: Ref)
    requires Initial(st) && ref.Promotion? && AlwaysAlone(st, steps, ref)
    ensures Commits(Run(st, steps).log, ref) <= 1
    ensures ref in Run(st, steps).requests && Idle(Run(st, steps), ref) ==>
      Commits(Run(st, steps).log, ref) == if Run(st, steps).requests[ref].status == Applied then 1 else 0
  {
    RunKeepsPromotion(st, steps, ref);
  }

  // ---------- exactly when a promotion goes wrong ----------

  /** An approval of `ref` passes its pending check. */
  predicate Passes(st: State, step: Step, ref: Ref) {
    && step.Approve? && step.ref == ref && step.t !in st.ops
    && ref in st.requests && st.requests[ref].status == Pending && step.actor != st.requests[ref].requester
  }

  predicate Decided(st: State, ref: Ref) {
    ref in st.requests && (st.requests[ref].status == Rejected || st.requests[ref].status == Cancelled)
  }

  /** The step rejects or cancels `ref`. */
  predicate Settles(st: State, step: Step, ref: Ref) { !Decided(st, ref) && Decided(Next(st, step), ref) }

  /** What an onlooker has to remember of the approvals of one request: whether one has committed, and which
      of those under way are stale: they passed their check after that commit, so before its mark, or had
      passed it before and were overtaken by it. */
  datatype Track = Track(committed: bool, stale: set<Id>)

  function Tracked(st: State, step: Step, ref: Ref, tr: Track): Track {
    if Passes(st, step, ref) then tr.(stale := if tr.committed then tr.stale + {step.t} else tr.stale - {step.t})
    else if Lands(st, step, ref) then Track(true, set u | u in st.ops && u != step.t && st.ops[u].Checked? &&
        st.ops[u].ref == ref)
    else tr
  }

  /** No stale approval commits, none commits once the request was decided, and no decision comes after a
      commit. */
  predicate Clean(st: State, step: Step, ref: Ref, tr: Track) {
    && (Lands(st, step, ref) ==> step.t !in tr.stale && !Decided(st, ref))
    && (Settles(st, step, ref) ==> !tr.committed)
  }

  predicate AlwaysClean(st: State, steps: seq<Step>, ref: Ref, tr: Track)
    decreases |steps|
  {
    steps == [] || (Clean(st, steps[0], ref, tr) && AlwaysClean(Next(st, steps[0]), steps[1..], ref,
        Tracked(st, steps[0], ref, tr)))
  }

  /** At most one version, and none under a request that was turned down. */
  predicate Orderly(st: State, ref: Ref) { Commits(st.log, ref) <= 1 &&
      (Decided(st, ref) ==> Commits(st.log, ref) == 0) }

  ghost predicate Follows(st: State, ref: Ref, tr: Track) {
    && (tr.committed <==> Commits(st.log, ref) >= 1)
    && (ref !in st.requests ==> !tr.committed)
    && (forall t :: t in st.ops && st.ops[t].Checked? && st.ops[t].ref == ref ==> (t in tr.stale <==> tr.committed))
    && (forall t :: t in st.ops && st.ops[t].Committed? && st.ops[t].ref == ref ==> tr.committed)
    && (ref in st.requests && st.requests[ref].status == Applied ==> tr.committed)
  }

  lemma LandingAdds(st: State, step: Step, ref: Ref)
    requires ref.Promotion? && Lands(st, step, ref)
    ensures Commits(Next(st, step).log, ref) == Commits(st.log, ref) + 1
    ensures Next(st, step).requests == st.requests
    ensures Next(st, step).ops == st.ops[step.t := Committed(ref, st.ops[step.t].approver)]
  {
    hide Commits, Wrote, Protected;
    var after := Next(st, step);
    var v := after.log[|st.log|];
    assert after.log == st.log + [v];
    CommitsSnoc(st.log, v, ref);
  }

  lemma OthersAddNone(st: State, step: Step, ref: Ref)
    requires ref.Promotion? && !Lands(st, step, ref)
    ensures Commits(Next(st, step).log, ref) == Commits(st.log, ref)
  {
    hide Commits, Protected;
    if Concerns(st, step, ref) {
      assert Next(st, step).log == st.log;
    } else {
      OtherCommitsStay(st, step, ref);
    }
  }

  /** Only a commit brings a Committed op about, and only an approval a Checked one. */
  lemma OpsComeInOrder(st: State, step: Step, ref: Ref, t: Id)
    requires t in Next(st, step).ops && !Lands(st, step, ref) && !Passes(st, step, ref)
    requires var op := Next(st, step).ops[t]; (op.Checked? || op.Committed?) && op.ref == ref && ref.Promotion?
    ensures t in st.ops && st.ops[t] == Next(st, step).ops[t]
  {
    hide Next, Protected;
    OpOrigin(st, step, t);
  }

  lemma AppliedIsMarked(st: State, step: Step, ref: Ref)
    requires ref in Next(st, step).requests && Next(st, step).requests[ref].status == Applied
    ensures ref in st.requests
    ensures st.requests[ref].status == Applied || (step.Mark? && step.t in st.ops && st.ops[step.t].Committed? &&
        st.ops[step.t].ref == ref)
  {
    hide Next, Protected;
    RequestOrigin(st, step, ref);
  }

  lemma RequestsStay(st: State, step: Step, ref: Ref)
    requires ref in st.requests
    ensures ref in Next(st, step).requests
    ensures Decided(st, ref) ==> Decided(Next(st, step), ref)
  {
    hide Next, Protected;
    RequestOrigin(st, step, ref);
  }

  lemma StepFollows(st: State, step: Step, ref: Ref, tr: Track)
    requires ref.Promotion? && TwoParty(st) && Follows(st, ref, tr)
    ensures Follows(Next(st, step), ref, Tracked(st, step, ref, tr))
  {
    if Lands(st, step, ref) {
      LandingAdds(st, step, ref);
      hide Commits, Next;
    } else if Passes(st, step, ref) {
      OthersAddNone(st, step, ref);
      PassingOnlyChecks(st, step, ref);
      hide Commits, Next;
    } else {
      OthersFollow(st, step, ref, tr);
    }
  }

  lemma PassingOnlyChecks(st: State, step: Step, ref: Ref)
    requires Passes(st, step, ref) && ref.Promotion?
    ensures Next(st, step) == st.(ops := st.ops[step.t := Checked(ref, step.actor)])
  {
  }

  lemma OthersFollow(st: State, step: Step, ref: Ref, tr: Track)
    requires ref.Promotion? && Follows(st, ref, tr) && !Lands(st, step, ref) && !Passes(st, step, ref)
    ensures Follows(Next(st, step), ref, tr)
  {
    hide Next, Commits, Lands, Passes;
    var after := Next(st, step);
    OthersAddNone(st, step, ref);
    forall t | t in after.ops && (after.ops[t].Checked? || after.ops[t].Committed?) && after.ops[t].ref == ref
      ensures t in st.ops && st.ops[t] == after.ops[t]
    {
      OpsComeInOrder(st, step, ref, t);
    }
    if ref in st.requests { RequestsStay(st, step, ref); }
    if ref in after.requests && after.requests[ref].status == Applied { AppliedIsMarked(st, step, ref); }
  }

  lemma StepOrderlyIff(st: State, step: Step, ref: Ref, tr: Track)
    requires ref.Promotion? && TwoParty(st) && Follows(st, ref, tr)
    ensures Orderly(Next(st, step), ref) <==> Orderly(st, ref) && Clean(st, step, ref, tr)
  {
    if Lands(st, step, ref) {
      LandingAdds(st, step, ref);
      assert st.ops[step.t].Checked? by { assert OpOk(st, st.ops[step.t]); }
      hide Commits, Next;
    } else {
      OthersAddNone(st, step, ref);
      hide Commits, Next, Lands;
      if ref in st.requests { RequestsStay(st, step, ref); }
    }
  }

  lemma {:induction false} RunOrderlyIff(st: State, steps: seq<Step>, ref: Ref, tr: Track)
    requires ref.Promotion? && TwoParty(st) && Follows(st, ref, tr)
    ensures Orderly(Run(st, steps), ref) <==> Orderly(st, ref) && AlwaysClean(st, steps, ref, tr)
    ensures ref in Run(st, steps).requests && Run(st, steps).requests[ref].status == Applied ==>
        Commits(Run(st, steps).log, ref) >= 1
    decreases |steps|
  {
    hide TwoParty, Orderly, Clean, Tracked, Next;
    if steps != [] {
      StepTwoParty(st, steps[0]);
      StepFollows(st, steps[0], ref, tr);
      StepOrderlyIff(st, steps[0], ref, tr);
      RunOrderlyIff(Next(st, steps[0]), steps[1..], ref, Tracked(st, steps[0], ref, tr));
    }
  }

  /** The exact condition. In every run a promotion request yields at most one version, and none if it was
      turned down, exactly when no approval commits that passed its check while an earlier committing
      approval was unmarked or was overtaken by one, none commits after the request was decided, and it is
      not decided after a commit. Once applied it has then yielded exactly one. */
  lemma PromotionsCommitOnceIff(st: State, steps: seq<Step>, ref: Ref)
    requires Initial(st) && ref.Promotion?
    ensures Orderly(Run(st, steps), ref) <==> AlwaysClean(st, steps, ref, Track(false, {}))
    ensures AlwaysClean(st, steps, ref, Track(false, {})) && ref in Run(st, steps).requests &&
        Run(st, steps).requests[ref].status == Applied
      ==> Commits(Run(st, steps).log, ref) == 1
  {
    RunOrderlyIff(st, steps, ref, Track(false, {}));
  }
}
