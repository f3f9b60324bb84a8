/** The outbound policy: the live one the dialers use, the stored override, and the environment that both
    fall back on.
 */
module Egress {
  import opened Options

  /** Allowlists are taken after parsing, in their normal form. */
  type Allow = seq<string>

  /** `proxy` is configured by the environment alone. */
  datatype Policy = Policy(block: bool, proxy: bool, allow: Allow)

  datatype Row = Row(block: bool, allow: Allow)

  datatype Environment = Environment(policy: Policy, locked: bool)

  datatype Event = Updated(before: Policy, after: Row) | Reset(before: Policy)

  datatype State = State(live: Policy, row: Option<Row>, events: seq<Event>)

  /** What a boot would make of the environment and the stored row. */
  function Resolve(env: Environment, row: Option<Row>): Policy {
    if env.locked || row.None? then env.policy else Policy(row.value.block, env.policy.proxy, row.value.allow)
  }

  predicate InStep(env: Environment, st: State) { st.live == Resolve(env, st.row) }

  /** The request body; a list that does not parse is None in `allow`. */
  datatype Body = Body(block: Option<bool>, allow: Option<Option<Allow>>, proxy: bool)

  datatype Reply = Ok | BadRequest | Conflict | ServerError

  predicate WellFormed(body: Body) {
    !body.proxy && body.block.Some? && body.allow.Some? && body.allow.value.Some?
  }

  function RowOf(body: Body): Row
    requires WellFormed(body)
  {
    Row(body.block.value, body.allow.value.value)
  }

  function Undone(st: State, row: Option<Row>, undoOk: bool): State {
    st.(row := if undoOk then Some(Row(st.live.block, st.live.allow)) else row)
  }

  function PutStep(env: Environment, st: State, body: Body, storeOk: bool, auditOk: bool, undoOk: bool): (State,
      Reply) {
    if env.locked then (st, Conflict)
    else if !WellFormed(body) then (st, BadRequest)
    else if !storeOk then (st, ServerError)
    else if !auditOk then (Undone(st, Some(RowOf(body)), undoOk), ServerError)
    else
      var row := RowOf(body);
      (State(Policy(row.block, env.policy.proxy, row.allow), Some(row), st.events + [Updated(st.live, row)]), Ok)
  }

  function DeleteStep(env: Environment, st: State, storeOk: bool, auditOk: bool, undoOk: bool): (State, Reply) {
    if env.locked then (st, Conflict)
    else if !storeOk then (st, ServerError)
    else if !auditOk then (Undone(st, None, undoOk), ServerError)
    else (State(env.policy, None, st.events + [Reset(st.live)]), Ok)
  }

  function BootStep(env: Environment, st: State): State { st.(live := Resolve(env, st.row)) }

  /** The handlers, updating the stored row first, the audit log next and the live policy last. */
  class Outbound {
    const env: Environment
    var st: State

    constructor (e: Environment, row: Option<Row>)
      ensures env == e && st == State(Resolve(e, row), row, [])
    {
      env := e;
      st := State(Resolve(e, row), row, []);
    }

    method Restore(before: Policy, undoOk: bool)
      modifies this
      ensures st == old(st).(row := if undoOk then Some(Row(before.block, before.allow)) else old(st).row)
    {
      if undoOk {
        st := st.(row := Some(Row(before.block, before.allow)));
      }
    }

    method Put(body: Body, storeOk: bool, auditOk: bool, undoOk: bool) returns (reply: Reply)
      modifies this
      ensures (st, reply) == PutStep(env, old(st), body, storeOk, auditOk, undoOk)
      ensures reply == Ok <==>
        && !env.locked && !body.proxy && body.block.Some? && body.allow.Some? && body.allow.value.Some?
        && storeOk && auditOk
      ensures reply == Ok ==>
        && st.row == Some(Row(body.block.value, body.allow.value.value))
        && st.live == Policy(body.block.value, env.policy.proxy, body.allow.value.value)
      ensures reply != Ok ==> st.live == old(st).live && st.events == old(st).events
      ensures reply == BadRequest || reply == Conflict ==> st == old(st)
    {
      if env.locked { return Conflict; }
      if body.proxy || body.block.None? || body.allow.None? { return BadRequest; }
      if body.allow.value.None? { return BadRequest; }
      var row := Row(body.block.value, body.allow.value.value);
      var before := st.live;
      if !storeOk { return ServerError; }
      st := st.(row := Some(row));
      if !auditOk {
        Restore(before, undoOk);
        return ServerError;
      }
      st := st.(events := st.events + [Updated(before, row)]);
      st := st.(live := Policy(row.block, env.policy.proxy, row.allow));
      return Ok;
    }

    method Delete(storeOk: bool, auditOk: bool, undoOk: bool) returns (reply: Reply)
      modifies this
      ensures (st, reply) == DeleteStep(env, old(st), storeOk, auditOk, undoOk)
      ensures reply == Ok <==> !env.locked && storeOk && auditOk
      ensures reply == Ok ==> st.row == None && st.live == env.policy
      ensures reply != Ok ==> st.live == old(st).live && st.events == old(st).events
    {
      if env.locked { return Conflict; }
      var before := st.live;
      if !storeOk { return ServerError; }
      st := st.(row := None);
      if !auditOk {
        Restore(before, undoOk);
        return ServerError;
      }
      st := st.(events := st.events + [Reset(before)]);
      st := st.(live := env.policy);
      return Ok;
    }

    method Boot()
      modifies this
      ensures st == BootStep(env, old(st))
      ensures st.live.proxy == env.policy.proxy && st.row == old(st).row && st.events == old(st).events
      ensures env.locked || st.row == None ==> st.live == env.policy
      ensures !env.locked && st.row.Some? ==> st.live.block == st.row.value.block && st.live.allow == st.row.value.allow
    {
      if env.locked || st.row.None? {
        st := st.(live := env.policy);
      } else {
        st := st.(live := Policy(st.row.value.block, env.policy.proxy, st.row.value.allow));
      }
    }
  }

  // ---------- a change does what was asked ----------

  /** After a change that was accepted, the stored row and the live policy carry exactly what the request asked for;
      only the environment decides on proxies. */
  lemma PutCarriesTheRequest(env: Environment, st: State, block: bool, allow: Allow, undoOk: bool)
    requires !env.locked
    ensures var (after, reply) := PutStep(env, st, Body(Some(block), Some(Some(allow)), false), true, true, undoOk);
      && reply == Ok && after.row == Some(Row(block, allow)) && after.live == Policy(block, env.policy.proxy, allow)
      && after.events == st.events + [Updated(st.live, Row(block, allow))]
  {
  }

  // ---------- whole runs ----------

  datatype Step =
    | Put(body: Body, storeOk: bool, auditOk: bool, undoOk: bool)
    | Delete(storeOk: bool, auditOk: bool, undoOk: bool)
    | Boot

  function Apply(env: Environment, st: State, step: Step): State {
    match step
    case Put(body, storeOk, auditOk, undoOk) => PutStep(env, st, body, storeOk, auditOk, undoOk).0
    case Delete(storeOk, auditOk, undoOk) => DeleteStep(env, st, storeOk, auditOk, undoOk).0
    case Boot => BootStep(env, st)
  }

  function Run(env: Environment, st: State, steps: seq<Step>): State
    decreases |steps|
  {
    if steps == [] then st else Run(env, Apply(env, st, steps[0]), steps[1..])
  }

  /** The step writes the row, cannot record it and cannot take it back either. */
  predicate UndoFails(env: Environment, step: Step) {
    match step
    case Put(body, storeOk, auditOk, undoOk) => !env.locked && WellFormed(body) && storeOk && !auditOk && !undoOk
    case Delete(storeOk, auditOk, undoOk) => !env.locked && storeOk && !auditOk && !undoOk
    case Boot => false
  }

  /** From step to step the live policy stays what a boot would resolve -- unless an undo fails on a row that
      says something else than the live policy; then, and only then, they part. */
  lemma StepInStepIff(env: Environment, st: State, step: Step)
    requires InStep(env, st)
    ensures InStep(env, Apply(env, st, step)) <==>
      !UndoFails(env, step) || Resolve(env, if step.Put? then Some(RowOf(step.body)) else None) == st.live
  {
  }

  /** The live policy changes only in a step that appended an event. */
  lemma ChangesAreRecorded(env: Environment, st: State, step: Step)
    requires InStep(env, st)
    ensures Apply(env, st, step).live != st.live ==> |Apply(env, st, step).events| == |st.events| + 1
    ensures st.events <= Apply(env, st, step).events
  {
  }

  ghost predicate UndosWork(env: Environment, steps: seq<Step>) {
    forall s :: s in steps ==> !UndoFails(env, s)
  }

  /** After any series of changes, resets, rollbacks that go through and restarts under one environment, the
      live policy is the one a boot would resolve, and a restart changes nothing. */
  lemma {:induction false} LiveIsResolved(env: Environment, st: State, steps: seq<Step>)
    requires InStep(env, st) && UndosWork(env, steps)
    ensures InStep(env, Run(env, st, steps)) && BootStep(env, Run(env, st, steps)) == Run(env, st, steps)
    decreases |steps|
  {
    hide Apply, InStep, UndoFails;
    if steps == [] {
      BootIsIdle(env, st);
    } else {
      assert steps[0] in steps;
      StepInStepIff(env, st, steps[0]);
      LiveIsResolved(env, Apply(env, st, steps[0]), steps[1..]);
    }
  }

  lemma BootIsIdle(env: Environment, st: State)
    requires InStep(env, st)
    ensures BootStep(env, st) == st
  {
  }

  /** The policy in force after an event. */
  function AfterOf(env: Environment, e: Event): Policy {
    match e
    case Updated(_, row) => Policy(row.block, env.policy.proxy, row.allow)
    case Reset(_) => env.policy
  }

  /** Each event takes over where the one before it left off, from `start` to `end`. */
  predicate Chained(env: Environment, start: Policy, events: seq<Event>, end: Policy) {
    if events == [] then start == end
    else
      var n := |events| - 1;
      AfterOf(env, events[n]) == end && Chained(env, start, events[..n], events[n].before)
  }

  lemma StepKeepsChain(env: Environment, start: Policy, st: State, step: Step)
    requires InStep(env, st) && Chained(env, start, st.events, st.live)
    ensures Chained(env, start, Apply(env, st, step).events, Apply(env, st, step).live)
  {
  }

  /** So the whole history of the live policy can be read back from the audit events alone. */
  lemma {:induction false} HistoryIsInTheLog(env: Environment, start: Policy, st: State, steps: seq<Step>)
    requires InStep(env, st) && UndosWork(env, steps) && Chained(env, start, st.events, st.live)
    ensures Chained(env, start, Run(env, st, steps).events, Run(env, st, steps).live)
    decreases |steps|
  {
    hide Apply, InStep, UndoFails, Chained;
    if steps != [] {
      assert steps[0] in steps;
      StepInStepIff(env, st, steps[0]);
      StepKeepsChain(env, start, st, steps[0]);
      HistoryIsInTheLog(env, start, Apply(env, st, steps[0]), steps[1..]);
    }
  }

  // ---------- what a rollback restores ----------

  /** The step writes the row and then takes it back because the event could not be written. */
  predicate RollsBack(env: Environment, step: Step) {
    match step
    case Put(body, storeOk, auditOk, undoOk) => !env.locked && WellFormed(body) && storeOk && !auditOk && undoOk
    case Delete(storeOk, auditOk, undoOk) => !env.locked && storeOk && !auditOk && undoOk
    case Boot => false
  }

  /** A rollback writes the live policy into the row. That puts everything back as it was exactly when
      there was a row; where there was none, one stays behind that says what the environment said. */
  lemma RollbackRestoresIff(env: Environment, st: State, step: Step)
    requires InStep(env, st) && RollsBack(env, step)
    ensures Apply(env, st, step) == st <==> st.row.Some?
    ensures st.row.None? ==> Apply(env, st, step) == st.(row := Some(Row(env.policy.block, env.policy.allow)))
  {
  }

  /** The row left behind outlives the environment it was copied from. */
  lemma LeftoverRowPins(env: Environment, later: Environment, st: State, step: Step)
    requires InStep(env, st) && RollsBack(env, step) && st.row.None? && !later.locked
    ensures BootStep(later, Apply(env, st, step)).live == Policy(env.policy.block, later.policy.proxy, env.policy.allow)
    ensures BootStep(later, Apply(env, st, step)).live == BootStep(later, st).live <==>
      (env.policy.block, env.policy.allow) == (later.policy.block, later.policy.allow)
  {
  }
}
