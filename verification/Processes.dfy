/** The watch supervisor down to its processes and goroutines: signal, grace, kill, the wait that closes
    `done` and sends on `exited`, the drain and the next start, each a step of its own, in every
    interleaving with a child that may exit by itself at any time or ignore the signal.
 */
module Processes {
  import opened Options
  import opened Supervisor

  datatype Process = Alive | Dead

  /** The goroutine that waits for one child. It reads the shared variable `child` only once it runs. */
  datatype Waiter =
    | Launched
    | Waiting(child: nat)   // in Wait
    | Reaped(child: nat)    // Wait has returned; `done` is still open
    | Closed(child: nat)    // `done` is closed; nothing sent yet
    | Sent

  /** Where the supervisor is; during a restart it carries what the poll and the fetch answered. */
  datatype Place =
    | Select
    | Signal(observed: nat, fetched: nat)
    | Grace(observed: nat, fetched: nat)       // done, or the grace period
    | Kill(observed: nat, fetched: nat)
    | AwaitDone(observed: nat, fetched: nat)   // receive on `done`
    | Drain(observed: nat, fetched: nat)       // receive on `exited`
    | Start(observed: nat, fetched: nat)
    | Spawn                                    // started, its goroutine not yet launched
    | Assign                                   // launched; `exited` still names the previous channel
    | Over

  /** Children, their processes, `done` channels and goroutines go by number; `exited` names the channel the
      supervisor receives on, and `full` the channels that hold a value. Each has room for one. */
  datatype World = World(
    at: Place,
    baseline: nat,
    child: nat,
    version: nat,
    exited: nat,
    procs: seq<Process>,
    killed: set<nat>,
    waiters: seq<Waiter>,
    done: set<nat>,
    full: set<nat>,
    log: seq<Action>)

  function First(version: nat, base: Option<nat>): World {
    World(Select, if base.None? then 0 else base.value, 0, version, 0, [Alive], {}, [Launched], {}, {}, [Started(0)])
  }

  datatype Move =
    | Poll(poll: Option<nat>, fetch: Option<nat>)   // a tick
    | TakeExit                                      // the child's own exit
    | SendSignal
    | SeeDone
    | GraceOver
    | SendKill
    | TakeDone
    | TakeDrain
    | StartNext(ok: bool)
    | SpawnWaiter
    | AssignExited
    | Dies(i: nat)                                  // by itself, by the signal or by the kill
    | Calls(g: nat)
    | Reaps(g: nat)
    | Closes(g: nat)
    | Sends(g: nat)

  /** The first goroutine sends on whatever `exited` names then; the later ones each on their own channel. */
  function Channel(w: World, g: nat): nat { if g == 0 then w.exited else g }

  predicate Enabled(w: World, m: Move) {
    match m
    case Poll(_, _) => w.at.Select?
    case TakeExit => w.at.Select? && w.exited in w.full
    case SendSignal => w.at.Signal?
    case SeeDone => w.at.Grace? && w.child in w.done
    case GraceOver => w.at.Grace?
    case SendKill => w.at.Kill?
    case TakeDone => w.at.AwaitDone? && w.child in w.done
    case TakeDrain => w.at.Drain? && w.exited in w.full
    case StartNext(_) => w.at.Start?
    case SpawnWaiter => w.at.Spawn?
    case AssignExited => w.at.Assign?
    case Dies(i) => i < |w.procs| && w.procs[i].Alive?
    case Calls(g) => g < |w.waiters| && w.waiters[g].Launched?
    case Reaps(g) => g < |w.waiters| && w.waiters[g].Waiting? && w.waiters[g].child < |w.procs| &&
        w.procs[w.waiters[g].child].Dead?
    case Closes(g) => g < |w.waiters| && w.waiters[g].Reaped?
    case Sends(g) => g < |w.waiters| && w.waiters[g].Closed? && Channel(w, g) !in w.full
  }

  function PollMove(w: World, poll: Option<nat>, fetch: Option<nat>): World {
    if poll.None? then w
    else if poll.value <= w.baseline then w.(baseline := poll.value)
    else if fetch.None? then w
    else w.(at := Signal(poll.value, fetch.value))
  }

  function Do(w: World, m: Move): World
    requires Enabled(w, m)
  {
    match m
    case Poll(poll, fetch) => PollMove(w, poll, fetch)
    case TakeExit => w.(at := Over, full := w.full - {w.exited}, log := w.log + [Waited(w.child)])
    case SendSignal => w.(at := Grace(w.at.observed, w.at.fetched))
    case SeeDone => w.(at := Drain(w.at.observed, w.at.fetched))
    case GraceOver => w.(at := Kill(w.at.observed, w.at.fetched))
    case SendKill => w.(at := AwaitDone(w.at.observed, w.at.fetched), killed := w.killed + {w.child})
    case TakeDone => w.(at := Drain(w.at.observed, w.at.fetched))
    case TakeDrain => w.(at := Start(w.at.observed, w.at.fetched), full := w.full - {w.exited},
        log := w.log + [Waited(w.child)])
    case StartNext(ok) =>
      if ok then
        w.(at := Spawn, baseline := w.at.observed, child := w.child + 1, version := w.at.fetched,
            procs := w.procs + [Alive],
           log := w.log + [Started(w.child + 1)])
      else w.(at := Over, baseline := w.at.observed)
    case SpawnWaiter => w.(at := Assign, waiters := w.waiters + [Launched])
    case AssignExited => w.(at := Select, exited := w.child)
    case Dies(i) => w.(procs := w.procs[i := Dead])
    case Calls(g) => w.(waiters := w.waiters[g := Waiting(w.child)])
    case Reaps(g) => w.(waiters := w.waiters[g := Reaped(w.waiters[g].child)])
    case Closes(g) => w.(waiters := w.waiters[g := Closed(w.waiters[g].child)], done := w.done + {w.waiters[g].child})
    case Sends(g) => w.(waiters := w.waiters[g := Sent], full := w.full + {Channel(w, g)})
  }

  function Go(w: World, m: Move): World { if Enabled(w, m) then Do(w, m) else w }

  function GoAll(w: World, ms: seq<Move>): World
    decreases |ms|
  {
    if ms == [] then w else GoAll(Go(w, ms[0]), ms[1..])
  }

  // ---------- what every interleaving keeps ----------

  /** The current child's goroutine has been launched. */
  predicate Attended(w: World) { |w.waiters| == w.child + 1 }

  predicate WaiterOk(w: World) {
    |w.procs| == w.child + 1 && Attended(w) &&
    match w.waiters[w.child]
    case Launched => true
    case Waiting(c) => c == w.child
    case Reaped(c) => c == w.child && w.procs[w.child].Dead?
    case Closed(c) => c == w.child && w.procs[w.child].Dead?
    case Sent => w.procs[w.child].Dead?
  }

  /** Everything about earlier children is over: dead, reaped, closed and received. */
  ghost predicate PastIsOver(w: World) {
    w.child <= |w.procs| && w.child <= |w.waiters| && forall i :: 0 <= i < w.child ==>
        w.procs[i].Dead? && w.waiters[i].Sent?
  }

  predicate Restarting(w: World) { w.at.Spawn? || w.at.Assign? }

  predicate Received(w: World) { w.at.Start? || w.at.Over? }

  ghost predicate ChannelsOk(w: World) {
    && (forall j: nat :: j in w.done <==>
        j < w.child || (j == w.child && Attended(w) && (w.waiters[j].Closed? || w.waiters[j].Sent?)))
    && (forall j: nat :: j in w.full <==> j == w.child && Attended(w) && w.waiters[j].Sent? && !Received(w))
    && (if Restarting(w) then w.child == w.exited + 1 else w.child == w.exited)
  }

  predicate PlaceOk(w: World) {
    && (w.at.Drain? ==> Attended(w) && (w.waiters[w.child].Closed? || w.waiters[w.child].Sent?))
    && (Received(w) ==> Attended(w) && w.waiters[w.child].Sent?)
    && (w.at.AwaitDone? ==> w.child in w.killed)
    && (w.at.Signal? || w.at.Grace? || w.at.Kill? || w.at.AwaitDone? || w.at.Drain? || w.at.Start? ==>
        w.at.observed > w.baseline)
  }

  ghost predicate Inv(w: World) {
    && |w.procs| == w.child + 1
    && (if w.at.Spawn? then |w.waiters| == w.child else WaiterOk(w))
    && PastIsOver(w) && ChannelsOk(w) && PlaceOk(w)
  }

  lemma FirstInv(version: nat, base: Option<nat>)
    ensures Inv(First(version, base))
  {
  }

  predicate ByWaiter(m: Move) { m.Calls? || m.Reaps? || m.Closes? || m.Sends? }

  predicate ByRestart(m: Move) { m.TakeExit? || m.TakeDrain? || m.StartNext? || m.SpawnWaiter? || m.AssignExited? }

  lemma WaiterInv(w: World, m: Move)
    requires Inv(w) && ByWaiter(m) && Enabled(w, m)
    ensures Inv(Do(w, m))
  {
    assert m.g == w.child;
  }

  lemma RestartInv(w: World, m: Move)
    requires Inv(w) && ByRestart(m) && Enabled(w, m)
    ensures Inv(Do(w, m))
  {
  }

  lemma DiesInv(w: World, m: Move)
    requires Inv(w) && m.Dies? && Enabled(w, m)
    ensures Inv(Do(w, m))
  {
  }

  lemma OtherInv(w: World, m: Move)
    requires Inv(w) && !ByWaiter(m) && !ByRestart(m) && !m.Dies? && Enabled(w, m)
    ensures Inv(Do(w, m))
  {
    hide PastIsOver, WaiterOk;
    assert WaiterOk(Do(w, m)) by { OtherKeepsWaiter(w, m); }
    assert PastIsOver(Do(w, m)) by { OtherKeepsWaiter(w, m); }
  }

  lemma OtherKeepsWaiter(w: World, m: Move)
    requires !ByWaiter(m) && !ByRestart(m) && !m.Dies? && Enabled(w, m)
    ensures WaiterOk(w) ==> WaiterOk(Do(w, m))
    ensures PastIsOver(w) ==> PastIsOver(Do(w, m))
  {
    var after := Do(w, m);
    assert after.procs == w.procs && after.waiters == w.waiters && after.child == w.child;
  }

  lemma GoInv(w: World, m: Move)
    requires Inv(w)
    ensures Inv(Go(w, m))
  {
    hide Inv, Enabled, Do;
    if Enabled(w, m) {
      if ByWaiter(m) { WaiterInv(w, m); }
      else if ByRestart(m) { RestartInv(w, m); }
      else if m.Dies? { DiesInv(w, m); }
      else { OtherInv(w, m); }
    }
  }

  lemma {:induction false} GoAllInv(w: World, ms: seq<Move>)
    requires Inv(w)
    ensures Inv(GoAll(w, ms))
    decreases |ms|
  {
    hide Inv, Go;
    if ms != [] {
      GoInv(w, ms[0]);
      GoAllInv(Go(w, ms[0]), ms[1..]);
    }
  }

  /** In every interleaving from the first start: at most one process is alive, and none is when the next one
      is started -- a child that exits by itself between the tick and the signal, or sits the signal out,
      included. */
  lemma OneProcessAtATime(version: nat, base: Option<nat>, ms: seq<Move>)
    ensures var w := GoAll(First(version, base), ms);
      && (forall i, j :: 0 <= i < |w.procs| && 0 <= j < |w.procs| && w.procs[i].Alive? && w.procs[j].Alive? ==> i == j)
      && (w.at.Start? ==> forall i :: 0 <= i < |w.procs| ==> w.procs[i].Dead?)
  {
    hide GoAll;
    FirstInv(version, base);
    GoAllInv(First(version, base), ms);
  }

  /** No `done` is closed twice, no goroutine waits for another's child, and no send finds its channel full. */
  lemma NothingPanicsOrBlocks(version: nat, base: Option<nat>, ms: seq<Move>, g: nat)
    ensures var w := GoAll(First(version, base), ms);
      g < |w.waiters| ==>
        && (w.waiters[g].Waiting? ==> w.waiters[g].child == g)
        && (w.waiters[g].Reaped? ==> w.waiters[g].child == g && g !in w.done)
        && (w.waiters[g].Closed? ==> Enabled(w, Sends(g)))
  {
    hide GoAll;
    FirstInv(version, base);
    GoAllInv(First(version, base), ms);
  }

  // ---------- neither receive waits forever ----------

  predicate ByChild(m: Move) { m.Dies? || m.Calls? || m.Reaps? || m.Closes? || m.Sends? }

  /** Moves that are bound to come: a killed process dies, a goroutine that can go on does. */
  predicate Bound(w: World, m: Move) { Enabled(w, m) && ByChild(m) && (m.Dies? ==> m.i in w.killed) }

  /** How far the current child's goroutine still has to go. */
  function Distance(w: World): nat
    requires Attended(w) && |w.procs| == w.child + 1
  {
    (if w.procs[w.child].Alive? then 1 else 0) +
    match w.waiters[w.child]
    case Launched => 4
    case Waiting(_) => 3
    case Reaped(_) => 2
    case Closed(_) => 1
    case Sent => 0
  }

  /** Each move of the child and its goroutine brings the receive one step nearer and leaves the supervisor
      where it is. */
  lemma ChildMovesCount(w: World, m: Move)
    requires Inv(w) && Attended(w) && ByChild(m) && Enabled(w, m)
    ensures Inv(Go(w, m)) && Attended(Go(w, m)) && Go(w, m).at == w.at && Distance(Go(w, m)) == Distance(w) - 1
  {
    GoInv(w, m);
  }

  predicate Receiving(w: World) { w.at.AwaitDone? || w.at.Drain? }

  predicate CanReceive(w: World) { Enabled(w, TakeDone) || Enabled(w, TakeDrain) }

  /** As long as the receive is not possible, some move is bound to come. */
  lemma SomethingIsBound(w: World)
    requires Inv(w) && Receiving(w) && !CanReceive(w)
    ensures exists m :: Bound(w, m)
  {
    var g := w.child;
    match w.waiters[g]
    case Launched => assert Bound(w, Calls(g));
    case Waiting(c) =>
      if w.procs[g].Alive? { assert Bound(w, Dies(g)); } else { assert Bound(w, Reaps(g)); }
    case Reaped(c) => assert Bound(w, Closes(g));
    case Closed(c) => assert Bound(w, Sends(g));
    case Sent =>
  }

  /** The child's and its goroutine's moves, each possible when it comes. */
  predicate ChildMoves(w: World, ms: seq<Move>)
    decreases |ms|
  {
    ms == [] || (ByChild(ms[0]) && Enabled(w, ms[0]) && ChildMoves(Go(w, ms[0]), ms[1..]))
  }

  /** Once the kill has been sent, or `done` was seen closed, the supervisor waits for at most five moves of
      the child's side, and when none of those bound to come is left, it receives: on `done` as on
      `exited`. */
  lemma {:induction false} NoReceiveWaitsForever(w: World, ms: seq<Move>)
    requires Inv(w) && Receiving(w) && ChildMoves(w, ms)
    ensures |ms| <= Distance(w) <= 5 && GoAll(w, ms).at == w.at
    ensures (forall m :: !Bound(GoAll(w, ms), m)) ==> CanReceive(GoAll(w, ms))
    decreases |ms|
  {
    assert Attended(w);
    if ms == [] {
      if !CanReceive(w) { SomethingIsBound(w); }
    } else {
      ChildMovesCount(w, ms[0]);
      hide Inv, Go, Enabled;
      NoReceiveWaitsForever(Go(w, ms[0]), ms[1..]);
    }
  }

  // ---------- the loop the versions are about ----------

  /** The world as the loop over events sees it: a restart happens when the next child is started. */
  function Abstract(w: World): State
    requires |w.log| > 0
  {
    if w.at.Over? then State(w.baseline, None, w.log)
    else if w.at.Start? then State(w.baseline, Some(Child(w.child, w.version)), w.log[..|w.log| - 1])
    else State(w.baseline, Some(Child(w.child, w.version)), w.log)
  }

  function Emits(w: World, m: Move): seq<Event> {
    if !Enabled(w, m) then []
    else
      match m
      case Poll(poll, fetch) => if poll.Some? && poll.value <= w.baseline then [Tick(poll, None, true)] else []
      case TakeExit => [Exit]
      case StartNext(ok) => [Tick(Some(w.at.observed), Some(w.at.fetched), ok)]
      case _ => []
  }

  function Trace(w: World, ms: seq<Move>): seq<Event>
    decreases |ms|
  {
    if ms == [] then [] else Emits(w, ms[0]) + Trace(Go(w, ms[0]), ms[1..])
  }

  /** The last thing logged before a start is the wait for the child it replaces. */
  predicate LogOk(w: World) { |w.log| > 0 && (w.at.Start? ==> w.log[|w.log| - 1] == Waited(w.child)) }

  lemma GoRefines(w: World, m: Move)
    requires Inv(w) && LogOk(w)
    ensures LogOk(Go(w, m)) && Abstract(Go(w, m)) == Run(Abstract(w), Emits(w, m))
  {
    hide PastIsOver, ChannelsOk, WaiterOk;
    var evs := Emits(w, m);
    if |evs| == 1 {
      RunOne(Abstract(w), evs[0]);
    }
    if m.StartNext? && w.at.Start? {
      assert w.log == w.log[..|w.log| - 1] + [Waited(w.child)];
    }
  }

  lemma RunOne(st: State, ev: Event)
    ensures Run(st, [ev]) == Step(st, ev)
  {
    hide Step;
    RunSnoc(st, [], ev);
    assert [] + [ev] == [ev];
  }

  lemma {:induction false} RunBoth(st: State, a: seq<Event>, b: seq<Event>)
    ensures Run(st, a + b) == Run(Run(st, a), b)
    decreases |a|
  {
    hide Step;
    if a == [] {
      assert a + b == b;
    } else {
      assert (a + b)[1..] == a[1..] + b;
      RunBoth(Step(st, a[0]), a[1..], b);
    }
  }

  lemma {:induction false} GoAllRefines(w: World, ms: seq<Move>)
    requires Inv(w) && LogOk(w)
    ensures LogOk(GoAll(w, ms)) && Abstract(GoAll(w, ms)) == Run(Abstract(w), Trace(w, ms))
    decreases |ms|
  {
    hide Inv, Go, Abstract, Step, Emits;
    if ms != [] {
      GoInv(w, ms[0]);
      GoRefines(w, ms[0]);
      GoAllRefines(Go(w, ms[0]), ms[1..]);
      RunBoth(Abstract(w), Emits(w, ms[0]), Trace(Go(w, ms[0]), ms[1..]));
    }
  }

  /** Every interleaving is a run of the loop over events, so what was shown of that holds of it: the log is
      start 0, wait 0, start 1, wait 1, and so on. */
  lemma EveryInterleavingIsARun(version: nat, base: Option<nat>, ms: seq<Move>)
    ensures var w := GoAll(First(version, base), ms);
      && LogOk(w) && Abstract(w) == Run(Begin(version, base), Trace(First(version, base), ms))
      && InOrder(Abstract(w)) && Alternates(w.log)
  {
    var w0 := First(version, base);
    FirstInv(version, base);
    GoAllInv(w0, ms);
    GoAllRefines(w0, ms);
    BeginsInOrder(version, base);
    OneChildAtATime(Begin(version, base), Trace(w0, ms));
    hide GoAll, Trace, Run, Inv;
    var w := GoAll(w0, ms);
    AlternationIsWhole(w);
  }

  lemma AlternationIsWhole(w: World)
    requires LogOk(w) && InOrder(Abstract(w))
    ensures Alternates(w.log)
  {
    if w.at.Start? {
      assert w.log == w.log[..|w.log| - 1] + [Waited(w.child)];
    }
  }

  // ---------- and its answers are the ones it got ----------

  predicate Pending(at: Place) { at.Signal? || at.Grace? || at.Kill? || at.AwaitDone? || at.Drain? || at.Start? }

  /** The newest version any answer has shown; the fetch is only asked after a poll that found a change. */
  function Known(w: World, m: Move, last: nat): nat {
    if !m.Poll? || !w.at.Select? || m.poll.None? then last
    else if m.poll.value <= w.baseline then m.poll.value
    else Newest(m.poll.value, m.fetch)
  }

  /** Answers are no older than the ones before them. */
  predicate HonestMoves(w: World, ms: seq<Move>, last: nat)
    decreases |ms|
  {
    ms == [] || ((ms[0].Poll? && w.at.Select? ==> Honest(last, Tick(ms[0].poll, ms[0].fetch, true)))
                 && HonestMoves(Go(w, ms[0]), ms[1..], Known(w, ms[0], last)))
  }

  predicate Carries(w: World, last: nat) { Pending(w.at) ==> w.at.observed <= w.at.fetched <= last }

  /** What the next event of the trace may be compared with. */
  function Floor(w: World, last: nat): nat { if Pending(w.at) then w.at.observed else last }

  lemma MoveIsHonest(w: World, m: Move, last: nat, k: nat)
    requires Carries(w, last) && k <= Floor(w, last)
    requires m.Poll? && w.at.Select? ==> Honest(last, Tick(m.poll, m.fetch, true))
    ensures Carries(Go(w, m), Known(w, m, last))
    ensures |Emits(w, m)| <= 1
    ensures Emits(w, m) == [] ==> k <= Floor(Go(w, m), Known(w, m, last))
    ensures Emits(w, m) != [] ==>
      Honest(k, Emits(w, m)[0]) && Seen(k, Emits(w, m)[0]) <= Floor(Go(w, m), Known(w, m, last))
  {
  }

  lemma {:induction false} TraceIsHonest(w: World, ms: seq<Move>, last: nat, k: nat)
    requires HonestMoves(w, ms, last) && Carries(w, last) && k <= Floor(w, last)
    ensures HonestRun(k, Trace(w, ms))
    decreases |ms|
  {
    hide Go, Emits, Honest, Seen, Carries, Floor, Known;
    if ms != [] {
      MoveIsHonest(w, ms[0], last, k);
      var evs, rest := Emits(w, ms[0]), Trace(Go(w, ms[0]), ms[1..]);
      if evs == [] {
        assert evs + rest == rest;
        TraceIsHonest(Go(w, ms[0]), ms[1..], Known(w, ms[0], last), k);
      } else {
        assert (evs + rest)[1..] == rest;
        TraceIsHonest(Go(w, ms[0]), ms[1..], Known(w, ms[0], last), Seen(k, evs[0]));
      }
    }
  }

  /** So in every interleaving a restarted child runs on secrets no older than the baseline. */
  lemma RestartedChildrenAreCurrent(version: nat, base: Option<nat>, ms: seq<Move>)
    requires Reads(version, base) && HonestMoves(First(version, base), ms, Newest(version, base))
    ensures var w := GoAll(First(version, base), ms); w.child > 0 && !w.at.Over? ==> w.baseline <= w.version
  {
    var w0, last := First(version, base), Newest(version, base);
    EveryInterleavingIsARun(version, base, ms);
    TraceIsHonest(w0, ms, last, last);
    RestartsAreCurrent(Begin(version, base), last, Trace(w0, ms));
    hide GoAll, Trace, Run, HonestMoves;
  }

  // ---------- settling ----------

  /** Every answer is at most `v`. */
  predicate AtMost(ms: seq<Move>, v: nat) {
    forall m :: m in ms && m.Poll? ==> (m.poll.Some? ==> m.poll.value <= v) && (m.fetch.Some? ==> m.fetch.value <= v)
  }

  predicate Below(w: World, v: nat) {
    w.baseline <= v && w.version <= v && (Pending(w.at) ==> w.at.observed <= v && w.at.fetched <= v)
  }

  lemma {:induction false} AnswersBound(w: World, ms: seq<Move>, v: nat)
    requires Below(w, v) && AtMost(ms, v)
    ensures Below(GoAll(w, ms), v)
    decreases |ms|
  {
    if ms != [] {
      assert ms[0] in ms;
      assert Below(Go(w, ms[0]), v);
      hide Go, Below;
      AnswersBound(Go(w, ms[0]), ms[1..], v);
    }
  }

  /** The config rests at `v`: every answer is `v`. */
  predicate Resting(ms: seq<Move>, v: nat) {
    forall m :: m in ms && m.Poll? ==> (m.poll.Some? ==> m.poll.value == v) && (m.fetch.Some? ==> m.fetch.value == v)
  }

  /** Child `n` runs on `v` with `v` as the baseline, or the program is over. */
  predicate SettledOn(w: World, v: nat, n: nat) {
    w.at.Over? || (!Pending(w.at) && w.child == n && w.version == v && w.baseline == v)
  }

  /** The restart of child `n` for `v` is under way. */
  predicate Settling(w: World, v: nat, n: nat) {
    Pending(w.at) && w.child == n && w.at.observed == v && w.at.fetched == v
  }

  lemma {:induction false} SettledForGood(w: World, ms: seq<Move>, v: nat, n: nat)
    requires SettledOn(w, v, n) && Resting(ms, v)
    ensures SettledOn(GoAll(w, ms), v, n)
    decreases |ms|
  {
    if ms != [] {
      assert ms[0] in ms;
      assert SettledOn(Go(w, ms[0]), v, n);
      hide Go, SettledOn;
      SettledForGood(Go(w, ms[0]), ms[1..], v, n);
    }
  }

  lemma {:induction false} OneRestartSettles(w: World, ms: seq<Move>, v: nat, n: nat)
    requires Settling(w, v, n) && Resting(ms, v)
    ensures var after := GoAll(w, ms); Settling(after, v, n) || SettledOn(after, v, n + 1)
    decreases |ms|
  {
    if ms != [] {
      assert ms[0] in ms;
      var next := Go(w, ms[0]);
      assert Settling(next, v, n) || SettledOn(next, v, n + 1);
      hide Go, SettledOn, Settling;
      if Settling(next, v, n) {
        OneRestartSettles(next, ms[1..], v, n);
      } else {
        SettledForGood(next, ms[1..], v, n + 1);
      }
    }
  }

  /** From the start of the program, in every interleaving: once the config rests at `v`, one poll and refetch
      that succeed leave the child on `v`, after at most one restart, and nothing is restarted again -- unless it
      is a first child that missed a version, which a poll then finds nothing to do for. */
  lemma InterleavingsConverge(version: nat, base: Option<nat>, ms: seq<Move>, v: nat, more: seq<Move>)
    requires Reads(version, base) && HonestMoves(First(version, base), ms, Newest(version, base))
    requires version <= v && (base.Some? ==> base.value <= v) && AtMost(ms, v) && Resting(more, v)
    requires GoAll(First(version, base), ms).at.Select?
    ensures var w := GoAll(First(version, base), ms);
      var after := GoAll(Go(w, Poll(Some(v), Some(v))), more);
      if w.child == 0 && w.baseline == v && w.version < v
      then after.at.Over? || (after.child == 0 && after.version == w.version)
      else if w.baseline == v then SettledOn(after, v, w.child)
      else Settling(after, v, w.child) || SettledOn(after, v, w.child + 1)
  {
    var w := GoAll(First(version, base), ms);
    AnswersBound(First(version, base), ms, v);
    RestartedChildrenAreCurrent(version, base, ms);
    hide GoAll, HonestMoves;
    var next := Go(w, Poll(Some(v), Some(v)));
    if w.baseline < v {
      OneRestartSettles(next, more, v, w.child);
    } else if w.version == v {
      SettledForGood(next, more, v, w.child);
    } else {
      MissedForGood(next, more, v);
    }
  }

  lemma {:induction false} MissedForGood(w: World, ms: seq<Move>, v: nat)
    requires w.at.Over? || (w.at.Select? && w.child == 0 && w.baseline == v)
    requires Resting(ms, v)
    ensures var after := GoAll(w, ms);
      after.at.Over? || (after.at.Select? && after.child == 0 && after.baseline == v && after.version == w.version)
    decreases |ms|
  {
    if ms != [] {
      assert ms[0] in ms;
      var next := Go(w, ms[0]);
      assert next.at.Over? || (next.at.Select? && next.child == 0 && next.baseline == v && next.version == w.version);
      hide Go;
      MissedForGood(next, ms[1..], v);
    }
  }
}
