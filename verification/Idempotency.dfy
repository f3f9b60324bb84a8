/** The Idempotency-Key middleware of internal/api/idempotency.go over the two-statement claim of
    internal/store/idempotency.go, for every interleaving of concurrent requests, with store calls free
    to fail before or after taking effect and with requests free to crash.
 */
module Idempotency {

  /** One row of the store per (Idempotency-Key, actor). */
  datatype Slot = Slot(key: string, actor: string)

  /** Status 0 is claimed but not completed. No response body is stored. */
  datatype Record = Record(endpoint: string, hash: string, status: nat)

  /** How a store call can end: as reported, without running, or run but reported as an error. */
  datatype Outcome = Ran | Refused | RanUnseen

  datatype Response =
    | StoreError                  // 500
    | BodyTooLarge                // 413
    | KeyConflict                 // 409 idempotency_key_conflict
    | InProgress                  // 409 idempotency_in_progress
    | Replayed(status: nat)       // the recorded status, Idempotency-Replayed: true
    | FromHandler(status: nat)

  predicate IsSuccess(status: nat) { 200 <= status < 300 }

  predicate IsMutating(verb: string) { verb in {"POST", "PUT", "DELETE", "PATCH"} }

  // ---------- the middleware, one request at a time ----------

  /** What a request that lost the claim is told about the row it finds. */
  function Verdict(row: Record, endpoint: string, hash: string): Response {
    if row.endpoint != endpoint || row.hash != hash then KeyConflict
    else if row.status == 0 then InProgress
    else Replayed(row.status)
  }

  /** The middleware acts on requests by somebody, with a key, that change something. */
  predicate Guards(key: string, verb: string, actor: string) {
    key != "" && actor != "" && (verb == "POST" || verb == "PUT" || verb == "PATCH" || verb == "DELETE")
  }

  /** The same method, path and body as when the row was claimed. */
  predicate Fits(row: Record, endpoint: string, hash: string) { row.endpoint == endpoint && row.hash == hash }

  class Store {
    var rows: map<Slot, Record>

    constructor ()
      ensures rows == map[]
    {
      rows := map[];
    }

    /** INSERT ... ON CONFLICT DO NOTHING. */
    method Insert(slot: Slot, endpoint: string, hash: string) returns (claimed: bool)
      modifies this
      ensures claimed <==> slot !in old(rows)
      ensures rows == if claimed then old(rows)[slot := Record(endpoint, hash, 0)] else old(rows)
    {
      claimed := slot !in rows;
      if claimed {
        rows := rows[slot := Record(endpoint, hash, 0)];
      }
    }

    method Complete(slot: Slot, status: nat) returns (ok: bool)
      modifies this
      ensures ok <==> slot in old(rows)
      ensures rows == Completed(old(rows), slot, status)
    {
      ok := slot in rows;
      if ok {
        rows := rows[slot := rows[slot].(status := status)];
      }
    }

    method Release(slot: Slot)
      modifies this
      ensures rows == old(rows) - {slot}
    {
      rows := rows - {slot};
    }

    /** The middleware around one request, undisturbed, whose handler would answer `status`. Requests
        without a key, that do not mutate, or that carry no principal pass straight through. */
    method Serve(key: string, verb: string, actor: string, bodyRead: bool, endpoint: string, hash: string, status: nat)
      returns (resp: Response)
      modifies this
      ensures !Guards(key, verb, actor) ==> resp == FromHandler(status) && rows == old(rows)
      ensures Guards(key, verb, actor) && !bodyRead ==> resp == BodyTooLarge && rows == old(rows)
      ensures Guards(key, verb, actor) && bodyRead ==>
                (rows, resp) == Alone(old(rows), Slot(key, actor), endpoint, hash, status)
      ensures Guards(key, verb, actor) && bodyRead && Slot(key, actor) in old(rows) ==>
                var row := old(rows)[Slot(key, actor)];
                && rows == old(rows)
                && (!Fits(row, endpoint, hash) ==> resp == KeyConflict)
                && (Fits(row, endpoint, hash) ==> resp == if row.status == 0 then InProgress else Replayed(row.status))
    {
      if key == "" || !IsMutating(verb) {
        return FromHandler(status);
      }
      if actor == "" {
        return FromHandler(status);
      }
      if !bodyRead {
        return BodyTooLarge;
      }
      var slot := Slot(key, actor);
      var claimed := Insert(slot, endpoint, hash);
      if !claimed {
        return Verdict(rows[slot], endpoint, hash);
      }
      if IsSuccess(status) {
        var _ := Complete(slot, status);
        assert rows == old(rows)[slot := Record(endpoint, hash, status)];
      } else {
        Release(slot);
        assert rows == old(rows);
      }
      resp := FromHandler(status);
    }
  }

  /** A request that nobody disturbs and no store call fails: the handler runs exactly when the slot is
      free, and only a success stays recorded. */
  function Alone(rows: map<Slot, Record>, slot: Slot, endpoint: string, hash: string, status: nat): (map<Slot,
      Record>, Response) {
    if slot in rows then (rows, Verdict(rows[slot], endpoint, hash))
    else (if IsSuccess(status) then rows[slot := Record(endpoint, hash, status)] else rows, FromHandler(status))
  }

  function Completed(rows: map<Slot, Record>, slot: Slot, status: nat): map<Slot, Record> {
    if slot in rows then rows[slot := rows[slot].(status := status)] else rows
  }

  // ---------- all interleavings ----------

  datatype Phase =
    | Arrived                       // about to INSERT
    | Conflicted                    // INSERT hit a row; about to SELECT it
    | Running                       // owns the slot, handler running
    | Finished(status: nat)         // handler returned; Complete or Release still to come
    | Answered(resp: Response)
    | Crashed

  datatype Request = Request(slot: Slot, endpoint: string, hash: string, phase: Phase)

  /** `wins` is history: per slot, the statuses of the handler runs that ended in success, in order. */
  datatype State = State(rows: map<Slot, Record>, reqs: map<nat, Request>, wins: map<Slot, seq<nat>>)

  datatype Step =
    | Arrive(id: nat, slot: Slot, endpoint: string, hash: string)
    | Insert(id: nat, outcome: Outcome)
    | Select(id: nat, failed: bool)
    | Return(id: nat, status: nat)
    | Settle(id: nat, outcome: Outcome)
    | Crash(id: nat)

  const Init := State(map[], map[], map[])

  function Wins(s: State, slot: Slot): seq<nat> {
    if slot in s.wins then s.wins[slot] else []
  }

  function Moved(s: State, id: nat, p: Phase): State
    requires id in s.reqs
  {
    s.(reqs := s.reqs[id := s.reqs[id].(phase := p)])
  }

  function InsertStep(s: State, id: nat, outcome: Outcome): State
    requires id in s.reqs
  {
    var r := s.reqs[id];
    var taken := r.slot in s.rows;
    var s1 := if taken || outcome == Refused then s
              else s.(rows := s.rows[r.slot := Record(r.endpoint, r.hash, 0)]);
    Moved(s1, id, if outcome != Ran then Answered(StoreError) else if taken then Conflicted else Running)
  }

  function SelectStep(s: State, id: nat, failed: bool): State
    requires id in s.reqs
  {
    var r := s.reqs[id];
    Moved(s, id, Answered(if failed || r.slot !in s.rows then StoreError
                          else Verdict(s.rows[r.slot], r.endpoint, r.hash)))
  }

  function ReturnStep(s: State, id: nat, status: nat): State
    requires id in s.reqs
  {
    var slot := s.reqs[id].slot;
    var s1 := if IsSuccess(status) then s.(wins := s.wins[slot := Wins(s, slot) + [status]]) else s;
    Moved(s1, id, Finished(status))
  }

  function SettleStep(s: State, id: nat, status: nat, outcome: Outcome): State
    requires id in s.reqs
  {
    var slot := s.reqs[id].slot;
    var rows := if outcome == Refused then s.rows
                else if IsSuccess(status) then Completed(s.rows, slot, status)
                else s.rows - {slot};
    Moved(s.(rows := rows), id, Answered(FromHandler(status)))
  }

  /** A step whose request is not at that point does nothing. */
  function Next(s: State, step: Step): State {
    match step
    case Arrive(id, slot, endpoint, hash) =>
      if id in s.reqs then s else s.(reqs := s.reqs[id := Request(slot, endpoint, hash, Arrived)])
    case Insert(id, outcome) =>
      if id in s.reqs && s.reqs[id].phase == Arrived then InsertStep(s, id, outcome) else s
    case Select(id, failed) =>
      if id in s.reqs && s.reqs[id].phase == Conflicted then SelectStep(s, id, failed) else s
    case Return(id, status) =>
      if id in s.reqs && s.reqs[id].phase == Running then ReturnStep(s, id, status) else s
    case Settle(id, outcome) =>
      if id in s.reqs && s.reqs[id].phase.Finished? then SettleStep(s, id, s.reqs[id].phase.status, outcome) else s
    case Crash(id) =>
      if id in s.reqs && !s.reqs[id].phase.Answered? then Moved(s, id, Crashed) else s
  }

  function Run(s: State, steps: seq<Step>): State
    decreases |steps|
  {
    if steps == [] then s else Run(Next(s, steps[0]), steps[1..])
  }

  // ---------- the invariant ----------

  predicate InFlight(s: State, id: nat) {
    id in s.reqs && (s.reqs[id].phase.Running? || s.reqs[id].phase.Finished?)
  }

  ghost predicate OwnerHoldsRow(s: State, id: nat) {
    InFlight(s, id) ==>
      var r := s.reqs[id];
      r.slot in s.rows && s.rows[r.slot] == Record(r.endpoint, r.hash, 0)
  }

  ghost predicate OneOwner(s: State, i: nat, j: nat) {
    InFlight(s, i) && InFlight(s, j) && s.reqs[i].slot == s.reqs[j].slot ==> i == j
  }

  /** Once a run succeeded: the row stays, and nobody but the winner, now settling, is in flight. */
  ghost predicate WonSlot(s: State, slot: Slot) {
    && |Wins(s, slot)| <= 1
    && (Wins(s, slot) != [] ==>
          && slot in s.rows
          && (s.rows[slot].status == 0 || s.rows[slot].status == Wins(s, slot)[0])
          && IsSuccess(Wins(s, slot)[0]))
    && (slot in s.rows && s.rows[slot].status != 0 ==> Wins(s, slot) == [s.rows[slot].status])
  }

  ghost predicate Consistent(s: State, id: nat) {
    id in s.reqs ==>
      var r := s.reqs[id];
      && (r.phase.Running? ==> Wins(s, r.slot) == [])
      && (r.phase.Finished? && IsSuccess(r.phase.status) ==> Wins(s, r.slot) == [r.phase.status])
      && (r.phase.Finished? && !IsSuccess(r.phase.status) ==> Wins(s, r.slot) == [])
      && (r.phase.Answered? && r.phase.resp.Replayed? ==>
            && Wins(s, r.slot) == [r.phase.resp.status]
            && r.slot in s.rows && s.rows[r.slot].endpoint == r.endpoint && s.rows[r.slot].hash == r.hash)
  }

  ghost predicate Inv(s: State) {
    && (forall id :: OwnerHoldsRow(s, id))
    && (forall i, j :: OneOwner(s, i, j))
    && (forall slot :: WonSlot(s, slot))
    && (forall id :: Consistent(s, id))
  }

  lemma InitInv()
    ensures Inv(Init)
  {
  }

  lemma InsertInv(s: State, id: nat, outcome: Outcome)
    requires Inv(s) && id in s.reqs && s.reqs[id].phase == Arrived
    ensures Inv(InsertStep(s, id, outcome))
  {
    var s' := InsertStep(s, id, outcome);
    var slot := s.reqs[id].slot;
    forall i ensures OwnerHoldsRow(s', i) {
      assert OwnerHoldsRow(s, i);
    }
    forall i, j ensures OneOwner(s', i, j) {
      assert OneOwner(s, i, j);
      assert OwnerHoldsRow(s, i) && OwnerHoldsRow(s, j);
    }
    forall k ensures WonSlot(s', k) {
      assert WonSlot(s, k);
    }
    forall i ensures Consistent(s', i) {
      assert Consistent(s, i) && WonSlot(s, slot);
    }
  }

  lemma SelectInv(s: State, id: nat, failed: bool)
    requires Inv(s) && id in s.reqs && s.reqs[id].phase == Conflicted
    ensures Inv(SelectStep(s, id, failed))
  {
    var s' := SelectStep(s, id, failed);
    forall i ensures OwnerHoldsRow(s', i) {
      assert OwnerHoldsRow(s, i);
    }
    forall i, j ensures OneOwner(s', i, j) {
      assert OneOwner(s, i, j);
    }
    forall k ensures WonSlot(s', k) {
      assert WonSlot(s, k);
    }
    forall i ensures Consistent(s', i) {
      assert Consistent(s, i) && WonSlot(s, s.reqs[id].slot);
    }
  }

  lemma ReturnInv(s: State, id: nat, status: nat)
    requires Inv(s) && id in s.reqs && s.reqs[id].phase == Running
    ensures Inv(ReturnStep(s, id, status))
  {
    var s' := ReturnStep(s, id, status);
    assert Consistent(s, id) && OwnerHoldsRow(s, id);
    forall i ensures OwnerHoldsRow(s', i) {
      assert OwnerHoldsRow(s, i);
    }
    forall i, j ensures OneOwner(s', i, j) {
      assert OneOwner(s, i, j);
    }
    forall k ensures WonSlot(s', k) {
      assert WonSlot(s, k);
    }
    forall i ensures Consistent(s', i) {
      assert Consistent(s, i) && OneOwner(s, i, id);
    }
  }

  lemma SettleInv(s: State, id: nat, outcome: Outcome)
    requires Inv(s) && id in s.reqs && s.reqs[id].phase.Finished?
    ensures Inv(SettleStep(s, id, s.reqs[id].phase.status, outcome))
  {
    var s' := SettleStep(s, id, s.reqs[id].phase.status, outcome);
    assert Consistent(s, id) && OwnerHoldsRow(s, id);
    forall i ensures OwnerHoldsRow(s', i) {
      assert OwnerHoldsRow(s, i) && OneOwner(s, i, id);
    }
    forall i, j ensures OneOwner(s', i, j) {
      assert OneOwner(s, i, j);
    }
    forall k ensures WonSlot(s', k) {
      assert WonSlot(s, k);
    }
    forall i ensures Consistent(s', i) {
      assert Consistent(s, i);
    }
  }

  lemma StepInv(s: State, step: Step)
    requires Inv(s)
    ensures Inv(Next(s, step))
  {
    hide InsertStep, SelectStep, ReturnStep, SettleStep;
    match step
    case Insert(id, outcome) =>
      if id in s.reqs && s.reqs[id].phase == Arrived { InsertInv(s, id, outcome); }
    case Select(id, failed) =>
      if id in s.reqs && s.reqs[id].phase == Conflicted { SelectInv(s, id, failed); }
    case Return(id, status) =>
      if id in s.reqs && s.reqs[id].phase == Running { ReturnInv(s, id, status); }
    case Settle(id, outcome) =>
      if id in s.reqs && s.reqs[id].phase.Finished? { SettleInv(s, id, outcome); }
    case _ => BystanderInv(s, step);
  }

  lemma BystanderInv(s: State, step: Step)
    requires Inv(s) && (step.Arrive? || step.Crash?)
    ensures Inv(Next(s, step))
  {
    var s' := Next(s, step);
    forall i ensures OwnerHoldsRow(s', i) {
      assert OwnerHoldsRow(s, i);
    }
    forall i, j ensures OneOwner(s', i, j) {
      assert OneOwner(s, i, j);
    }
    forall k ensures WonSlot(s', k) {
      assert WonSlot(s, k);
    }
    forall i ensures Consistent(s', i) {
      assert Consistent(s, i);
    }
  }

  lemma {:induction false} RunInv(s: State, steps: seq<Step>)
    requires Inv(s)
    ensures Inv(Run(s, steps))
    decreases |steps|
  {
    hide Inv, Next;
    if steps != [] {
      StepInv(s, steps[0]);
      RunInv(Next(s, steps[0]), steps[1..]);
    }
  }

  // ---------- the machine runs the middleware ----------

  /** The steps one request takes when nothing comes between them. */
  function AloneSteps(s: State, id: nat, slot: Slot, endpoint: string, hash: string, status: nat): seq<Step> {
    [Arrive(id, slot, endpoint, hash), Insert(id, Ran)] +
    if slot in s.rows then [Select(id, false)] else [Return(id, status), Settle(id, Ran)]
  }

  lemma MachineRunsMiddleware(s: State, id: nat, slot: Slot, endpoint: string, hash: string, status: nat)
    requires id !in s.reqs
    ensures var s' := Run(s, AloneSteps(s, id, slot, endpoint, hash, status));
            id in s'.reqs && s'.reqs[id].phase.Answered? &&
            (s'.rows, s'.reqs[id].phase.resp) == Alone(s.rows, slot, endpoint, hash, status)
  {
    UnrolledAlone(s, id, slot, endpoint, hash, status);
    hide Run;
    var s2 := Next(Next(s, Arrive(id, slot, endpoint, hash)), Insert(id, Ran));
    if slot !in s.rows {
      assert Completed(s2.rows, slot, status) == s.rows[slot := Record(endpoint, hash, status)];
      assert s2.rows - {slot} == s.rows;
    }
  }

  lemma UnrolledAlone(s: State, id: nat, slot: Slot, endpoint: string, hash: string, status: nat)
    ensures var s2 := Next(Next(s, Arrive(id, slot, endpoint, hash)), Insert(id, Ran));
            Run(s, AloneSteps(s, id, slot, endpoint, hash, status)) ==
            if slot in s.rows then Next(s2, Select(id, false)) else Next(Next(s2, Return(id, status)), Settle(id, Ran))
  {
    hide Next;
    var steps := AloneSteps(s, id, slot, endpoint, hash, status);
    var s1 := Next(s, steps[0]);
    assert Run(s, steps) == Run(s1, steps[1..]);
    assert Run(s1, steps[1..]) == Run(Next(s1, steps[1]), steps[1..][1..]);
    if slot in s.rows {
      var last := [Select(id, false)];
      assert steps[1..][1..] == last && last[1..] == [];
      assert Run(Next(s1, steps[1]), last) == Next(Next(s1, steps[1]), last[0]);
    } else {
      var last := [Settle(id, Ran)];
      var rest := [Return(id, status)] + last;
      assert steps[1..][1..] == rest && rest[1..] == last && last[1..] == [];
      var s2 := Next(s1, steps[1]);
      assert Run(s2, rest) == Run(Next(s2, rest[0]), last);
      assert Run(Next(s2, rest[0]), last) == Next(Next(s2, rest[0]), last[0]);
    }
  }

  // ---------- what every run guarantees ----------

  /** Whatever the interleaving and the failures: a slot never has two handler runs in flight, and never
      more than one that ends in success. */
  lemma AtMostOnce(steps: seq<Step>, i: nat, j: nat, slot: Slot)
    ensures var s := Run(Init, steps);
            && (InFlight(s, i) && InFlight(s, j) && s.reqs[i].slot == s.reqs[j].slot ==> i == j)
            && |Wins(s, slot)| <= 1
  {
    InitInv();
    RunInv(Init, steps);
    var s := Run(Init, steps);
    assert OneOwner(s, i, j) && WonSlot(s, slot);
  }

  /** A replayed status is the status of the one success, for a request with the same fingerprint. */
  lemma ReplayIsTruthful(steps: seq<Step>, id: nat)
    requires var s := Run(Init, steps);
             id in s.reqs && s.reqs[id].phase.Answered? && s.reqs[id].phase.resp.Replayed?
    ensures var s := Run(Init, steps);
            var r := s.reqs[id];
            && Wins(s, r.slot) == [r.phase.resp.status] && IsSuccess(r.phase.resp.status)
            && r.slot in s.rows && s.rows[r.slot].endpoint == r.endpoint && s.rows[r.slot].hash == r.hash
  {
    InitInv();
    RunInv(Init, steps);
    var s := Run(Init, steps);
    assert Consistent(s, id) && WonSlot(s, s.reqs[id].slot);
  }

  /** What a request can have reached since the slot was won: not the handler, and its answer is fixed by
      the row found there. */
  ghost predicate KeptOut(s: State, id: nat, slot: Slot, row: Record) {
    id in s.reqs && s.reqs[id].slot == slot ==>
      match s.reqs[id].phase
      case Arrived | Conflicted | Crashed => true
      case Running | Finished(_) => false
      case Answered(resp) => resp == StoreError || resp == Verdict(row, s.reqs[id].endpoint, s.reqs[id].hash)
  }

  /** The slot is won and its winner has settled, or died trying. */
  ghost predicate Settled(s: State, slot: Slot) {
    Wins(s, slot) != [] && forall id :: InFlight(s, id) ==> s.reqs[id].slot != slot
  }

  lemma SettledStep(s: State, step: Step, slot: Slot)
    requires Inv(s) && Settled(s, slot)
    ensures var s' := Next(s, step);
            Settled(s', slot) && slot in s.rows && slot in s'.rows && s'.rows[slot] == s.rows[slot] &&
                Wins(s', slot) == Wins(s, slot)
  {
    assert WonSlot(s, slot);
    var s' := Next(s, step);
    forall id | InFlight(s', id) ensures s'.reqs[id].slot != slot {
      assert InFlight(s, id) || s.reqs[id].phase == Arrived;
    }
  }

  /** After a success the key is spent for good: the row never changes again, no handler run ever starts,
      and every request that arrives later ends in a store error or in the answer the row dictates --
      the recorded status, a fingerprint conflict, or, when the completion was lost, "in progress". */
  lemma {:induction false} SpentForGood(s: State, more: seq<Step>, slot: Slot, row: Record)
    requires Inv(s) && Settled(s, slot) && slot in s.rows && row == s.rows[slot]
    ensures var s' := Run(s, more);
            && Settled(s', slot) && slot in s'.rows && s'.rows[slot] == row && Wins(s', slot) == Wins(s, slot)
            && forall id :: (id !in s.reqs || KeptOut(s, id, slot, row)) ==> KeptOut(s', id, slot, row)
    decreases |more|
  {
    if more != [] {
      var s1 := Next(s, more[0]);
      SettledStep(s, more[0], slot);
      StepInv(s, more[0]);
      SpentForGood(s1, more[1..], slot, row);
      forall id | id !in s.reqs || KeptOut(s, id, slot, row)
        ensures KeptOut(Run(s, more), id, slot, row)
      {
        assert KeptOut(s1, id, slot, row) by {
          KeptOutStep(s, more[0], id, slot, row);
        }
      }
    }
  }

  lemma KeptOutStep(s: State, step: Step, id: nat, slot: Slot, row: Record)
    requires Inv(s) && Settled(s, slot) && slot in s.rows && row == s.rows[slot]
    requires id !in s.reqs || KeptOut(s, id, slot, row)
    ensures KeptOut(Next(s, step), id, slot, row)
  {
  }

  /** A recorded completion is replayed to every later request with the same fingerprint. */
  lemma CompletionIsFinal(steps: seq<Step>, more: seq<Step>, slot: Slot, id: nat)
    requires var s := Run(Init, steps); slot in s.rows && s.rows[slot].status != 0 && id !in s.reqs
    ensures var s, s' := Run(Init, steps), Run(Run(Init, steps), more);
            && slot in s'.rows && s'.rows[slot] == s.rows[slot]
            && (id in s'.reqs && s'.reqs[id].slot == slot ==>
                  && !InFlight(s', id)
                  && (s'.reqs[id].phase.Answered? && s'.reqs[id].phase.resp != StoreError ==>
                        s'.reqs[id].phase.resp == if Fits(s.rows[slot], s'.reqs[id].endpoint, s'.reqs[id].hash)
                                                  then Replayed(s.rows[slot].status) else KeyConflict))
  {
    InitInv();
    RunInv(Init, steps);
    var s := Run(Init, steps);
    assert WonSlot(s, slot);
    forall i | InFlight(s, i) ensures s.reqs[i].slot != slot {
      assert OwnerHoldsRow(s, i);
    }
    SpentForGood(s, more, slot, s.rows[slot]);
    assert KeptOut(Run(s, more), id, slot, s.rows[slot]);
  }

  // ---------- while the first request is still running ----------

  /** Request `i` owns the slot and its handler has not been settled. */
  ghost predicate Owns(s: State, i: nat, slot: Slot) {
    InFlight(s, i) && s.reqs[i].slot == slot && slot in s.rows
  }

  lemma OwnedStep(s: State, step: Step, i: nat, slot: Slot, id: nat)
    requires Inv(s) && Owns(s, i, slot) && step.id != i && id != i
    requires id !in s.reqs || KeptOut(s, id, slot, s.rows[slot])
    ensures Owns(Next(s, step), i, slot) && Next(s, step).rows[slot] == s.rows[slot]
    ensures id !in Next(s, step).reqs || KeptOut(Next(s, step), id, slot, s.rows[slot])
  {
    assert OwnerHoldsRow(s, i);
    assert step.id in s.reqs ==> OneOwner(s, i, step.id);
  }

  /** As long as the owner of a slot has not settled, whoever else arrives with the key is kept out of the handler,
      and is told so: in progress for the same request, a conflict for another, or a store error. */
  lemma {:induction false} InProgressUntilSettled(s: State, more: seq<Step>, i: nat, slot: Slot, id: nat)
    requires Inv(s) && Owns(s, i, slot) && id != i && (forall step :: step in more ==> step.id != i)
    requires id !in s.reqs || KeptOut(s, id, slot, s.rows[slot])
    ensures var s' := Run(s, more);
            && Owns(s', i, slot) && s'.rows[slot] == s.rows[slot] && s.rows[slot].status == 0
            && (id !in s'.reqs || KeptOut(s', id, slot, s.rows[slot]))
            && (id in s'.reqs && s'.reqs[id].slot == slot ==>
                  && !InFlight(s', id)
                  && (s'.reqs[id].phase.Answered? && s'.reqs[id].phase.resp != StoreError ==>
                        s'.reqs[id].phase.resp == if Fits(s.rows[slot], s'.reqs[id].endpoint, s'.reqs[id].hash)
                                                  then InProgress else KeyConflict))
    decreases |more|
  {
    assert OwnerHoldsRow(s, i);
    if more == [] {
      return;
    }
    hide Inv, Next, KeptOut, Owns;
    if more != [] {
      assert more[0] in more;
      StepInv(s, more[0]);
      OwnedStep(s, more[0], i, slot, id);
      InProgressUntilSettled(Next(s, more[0]), more[1..], i, slot, id);
    }
  }

  // ---------- two calls ----------

  /** A client that sends the same request twice: after a success the second call gets the first one's status and no
      handler runs; after a failure the key is free again and the handler runs once more. */
  method CallTwice(store: Store, key: string, verb: string, actor: string, endpoint: string, hash: string, first: nat,
                   second: nat) returns (a: Response, b: Response)
    requires Guards(key, verb, actor) && Slot(key, actor) !in store.rows
    modifies store
    ensures a == FromHandler(first)
    ensures 200 <= first <= 299 ==>
      b == Replayed(first) && store.rows == old(store.rows)[Slot(key, actor) := Record(endpoint, hash, first)]
    ensures !(200 <= first <= 299) ==> b == FromHandler(second)
    ensures !(200 <= first <= 299) && !(200 <= second <= 299) ==> store.rows == old(store.rows)
  {
    a := store.Serve(key, verb, actor, true, endpoint, hash, first);
    b := store.Serve(key, verb, actor, true, endpoint, hash, second);
  }
}
