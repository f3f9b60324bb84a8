/** The watch supervisor: one child at a time, restarted with freshly fetched secrets when a poll finds a
    newer config version.
 */
module Supervisor {
  import opened Options

  // ---------- polling ----------

  /** The highest version listed; a config without versions is an error. */
  method CurrentVersion(versions: seq<int>) returns (r: Option<nat>)
    ensures r.None? <==> forall v :: v in versions ==> v <= 0
    ensures r.Some? ==> r.value in versions && forall v :: v in versions ==> v <= r.value
  {
    var max: nat := 0;
    for i := 0 to |versions|
      invariant forall j :: 0 <= j < i ==> versions[j] <= max
      invariant max > 0 ==> max in versions[..i]
    {
      if versions[i] > max {
        max := versions[i];
      }
    }
    assert max > 0 ==> max in versions;
    return if max == 0 then None else Some(max);
  }

  // ---------- the loop ----------

  /** The child's number and the version its secrets were fetched at. */
  datatype Child = Child(id: nat, version: nat)

  datatype Action = Started(id: nat) | Waited(id: nat)

  /** A tick with what the poll and the fetch after it would answer, or the child's own exit. */
  datatype Event = Tick(poll: Option<nat>, fetch: Option<nat>, startOk: bool) | Exit

  datatype State = State(baseline: nat, child: Option<Child>, log: seq<Action>)

  /** The first child's secrets are fetched before the baseline is read. */
  function Begin(first: nat, base: Option<nat>): State {
    State(if base.None? then 0 else base.value, Some(Child(0, first)), [Started(0)])
  }

  function Step(st: State, ev: Event): State {
    if st.child.None? then st
    else
      var id := st.child.value.id;
      match ev
      case Exit => st.(child := None, log := st.log + [Waited(id)])
      case Tick(poll, fetch, startOk) =>
        if poll.None? then st
        else if poll.value <= st.baseline then st.(baseline := poll.value)
        else if fetch.None? then st
        else if !startOk then State(poll.value, None, st.log + [Waited(id)])
        else State(poll.value, Some(Child(id + 1, fetch.value)), st.log + [Waited(id), Started(id + 1)])
  }

  function Run(st: State, evs: seq<Event>): State
    decreases |evs|
  {
    if evs == [] then st else Run(Step(st, evs[0]), evs[1..])
  }

  lemma {:induction false} RunSnoc(st: State, evs: seq<Event>, ev: Event)
    ensures Run(st, evs + [ev]) == Step(Run(st, evs), ev)
    decreases |evs|
  {
    hide Step;
    if evs == [] {
      assert evs + [ev] == [ev] && [ev][1..] == [];
      assert Run(Step(st, ev), []) == Step(st, ev);
    } else {
      assert (evs + [ev])[1..] == evs[1..] + [ev];
      RunSnoc(Step(st, evs[0]), evs[1..], ev);
    }
  }

  /** The supervisor itself, from the first start until the events run out or there is no child left. */
  method Supervise(first: nat, base: Option<nat>, evs: seq<Event>) returns (st: State)
    ensures st == Run(Begin(first, base), evs)
  {
    var baseline: nat := 0;
    if base.Some? {
      baseline := base.value;
    }
    var child := Child(0, first);
    var log := [Started(0)];
    var alive := true;
    for i := 0 to |evs|
      invariant State(baseline, if alive then Some(child) else None, log) == Run(Begin(first, base), evs[..i])
    {
      assert evs[..i + 1] == evs[..i] + [evs[i]];
      RunSnoc(Begin(first, base), evs[..i], evs[i]);
      if !alive {
        continue;
      }
      match evs[i] {
        case Exit =>
          log := log + [Waited(child.id)];
          alive := false;
        case Tick(poll, fetch, startOk) =>
          if poll.None? {
            continue;
          }
          if poll.value <= baseline {
            baseline := poll.value;
            continue;
          }
          if fetch.None? {
            continue;
          }
          log := log + [Waited(child.id)];
          baseline := poll.value;
          if startOk {
            child := Child(child.id + 1, fetch.value);
            log := log + [Started(child.id)];
          } else {
            alive := false;
          }
      }
    }
    assert evs[..|evs|] == evs;
    st := State(baseline, if alive then Some(child) else None, log);
  }

  /** A tick in the loop: without an answer nothing happens; an answer not above the baseline becomes the baseline; one
      above it restarts the child on the fetched secrets, if the fetch is answered, and becomes the baseline. */
  lemma TickLaw(st: State, poll: Option<nat>, fetch: Option<nat>, startOk: bool)
    requires st.child.Some?
    ensures var after := Step(st, Tick(poll, fetch, startOk));
      && (poll.None? ==> after == st)
      && (poll.Some? && poll.value <= st.baseline ==> after == st.(baseline := poll.value))
      && (poll.Some? && poll.value > st.baseline ==>
            if fetch.None? then after == st
            else
              && after.baseline == poll.value
              && (startOk <==> after.child.Some?)
              && (startOk ==> after.child == Some(Child(st.child.value.id + 1, fetch.value))))
  {
  }

  // ---------- one child at a time ----------

  /** Start 0, wait 0, start 1, wait 1, and so on. */
  predicate Alternates(log: seq<Action>) {
    forall i :: 0 <= i < |log| ==> log[i] == if i % 2 == 0 then Started(i / 2) else Waited(i / 2)
  }

  ghost predicate InOrder(st: State) {
    Alternates(st.log) && |st.log| > 0 && if st.child.Some? then |st.log| == 2 * st.child.value.id + 1
        else |st.log| % 2 == 0
  }

  lemma StepInOrder(st: State, ev: Event)
    requires InOrder(st)
    ensures InOrder(Step(st, ev))
  {
  }

  /** In every run of the loop starts and waits alternate; that the processes themselves do is shown where they
      are modelled. */
  lemma {:induction false} OneChildAtATime(st: State, evs: seq<Event>)
    requires InOrder(st)
    ensures InOrder(Run(st, evs))
    decreases |evs|
  {
    hide InOrder, Step;
    if evs != [] {
      StepInOrder(st, evs[0]);
      OneChildAtATime(Step(st, evs[0]), evs[1..]);
    }
  }

  lemma BeginsInOrder(first: nat, base: Option<nat>)
    ensures InOrder(Begin(first, base))
  {
  }

  // ---------- versions only grow ----------

  predicate Reads(last: nat, r: Option<nat>) { r.Some? ==> last <= r.value }

  function Newest(last: nat, r: Option<nat>): nat { if r.Some? then r.value else last }

  /** The answers an event carries are no older than `last`, in the order they are asked for. */
  predicate Honest(last: nat, ev: Event) {
    ev.Tick? ==> Reads(last, ev.poll) && Reads(Newest(last, ev.poll), ev.fetch)
  }

  function Seen(last: nat, ev: Event): nat {
    if ev.Exit? then last else Newest(Newest(last, ev.poll), ev.fetch)
  }

  predicate HonestRun(last: nat, evs: seq<Event>)
    decreases |evs|
  {
    evs == [] || (Honest(last, evs[0]) && HonestRun(Seen(last, evs[0]), evs[1..]))
  }

  function LastSeen(last: nat, evs: seq<Event>): nat
    decreases |evs|
  {
    if evs == [] then last else LastSeen(Seen(last, evs[0]), evs[1..])
  }

  /** Nothing is newer than what was last seen, and a restarted child is no older than the baseline. */
  predicate Current(st: State, last: nat) {
    st.baseline <= last && (st.child.Some? ==>
      st.child.value.version <= last && (st.child.value.id > 0 ==> st.baseline <= st.child.value.version))
  }

  lemma StepCurrent(st: State, last: nat, ev: Event)
    requires Current(st, last) && Honest(last, ev)
    ensures Current(Step(st, ev), Seen(last, ev))
  {
  }

  /** In every run, after any restart the child's secrets were fetched at a version no older than the
      baseline. */
  lemma {:induction false} RestartsAreCurrent(st: State, last: nat, evs: seq<Event>)
    requires Current(st, last) && HonestRun(last, evs)
    ensures Current(Run(st, evs), LastSeen(last, evs))
    decreases |evs|
  {
    hide Current, Step, Honest, Seen;
    if evs != [] {
      StepCurrent(st, last, evs[0]);
      RestartsAreCurrent(Step(st, evs[0]), Seen(last, evs[0]), evs[1..]);
    }
  }

  // ---------- settling ----------

  /** Every answer is `v`. */
  predicate Steady(v: nat, evs: seq<Event>) {
    forall e :: e in evs ==> e.Tick? && (e.poll.Some? ==> e.poll.value == v) && (e.fetch.Some? ==> e.fetch.value == v)
  }

  /** The first child missed a version: its secrets are older than the baseline read after them. */
  predicate MissedOne(st: State, v: nat) {
    st.child.Some? && st.child.value.id == 0 && st.baseline == v && st.child.value.version < v
  }

  /** With the config resting at `v`, one tick whose poll and fetch succeed leaves the child on `v` -- unless
      it is a first child that missed a version before the baseline was read: then, and only then, it does
      not. */
  lemma OneGoodTickSettles(st: State, v: nat, last: nat)
    requires Current(st, last) && last <= v && st.child.Some?
    ensures var after := Step(st, Tick(Some(v), Some(v), true));
      after.baseline == v && after.child.Some? && (after.child.value.version == v <==> !MissedOne(st, v))
  {
  }

  /** ... and from then on nothing is restarted. */
  lemma {:induction false} SettledStays(st: State, v: nat, evs: seq<Event>)
    requires st.baseline == v && Steady(v, evs)
    ensures Run(st, evs) == st
    decreases |evs|
  {
    if evs != [] {
      assert evs[0] in evs;
      assert Step(st, evs[0]) == st;
      SettledStays(st, v, evs[1..]);
    }
  }

  /** So a version that lands between the first fetch and the read of the baseline is never picked up while
      the config rests at it. */
  lemma MissedVersionIsNeverPickedUp(first: nat, v: nat, evs: seq<Event>)
    requires first < v && Steady(v, evs)
    ensures Run(Begin(first, Some(v)), evs).child == Some(Child(0, first))
  {
  }

  /** From the start of the program: with honest answers, then a rest at `v`, a good tick and any number of
      further ticks, a child other than a first one that missed a version runs on `v`. */
  lemma WatchConverges(first: nat, base: Option<nat>, evs: seq<Event>, v: nat, rest: seq<Event>)
    requires Reads(first, base) && HonestRun(Newest(first, base), evs) && LastSeen(Newest(first, base), evs) <= v
    requires Run(Begin(first, base), evs).child.Some? && !MissedOne(Run(Begin(first, base), evs), v) && Steady(v, rest)
    ensures var after := Run(Step(Run(Begin(first, base), evs), Tick(Some(v), Some(v), true)), rest);
      after.child.Some? && after.child.value.version == v
  {
    var last := Newest(first, base);
    assert Current(Begin(first, base), last);
    RestartsAreCurrent(Begin(first, base), last, evs);
    var st := Run(Begin(first, base), evs);
    OneGoodTickSettles(st, v, LastSeen(last, evs));
    SettledStays(Step(st, Tick(Some(v), Some(v), true)), v, rest);
  }
}
