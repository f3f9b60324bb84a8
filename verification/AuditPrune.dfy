/** Pruning the audit log: the algebra of ceilings, and what no prune ever removes.
 */
module AuditPrune {

  // ---------- ceilings ----------

  const UNBOUNDED := -1

  /** A negative ceiling is inactive. */
  predicate Within(s: int, ceiling: int) { ceiling < 0 || s <= ceiling }

  function Tighter(a: int, c: int): int { if c < 0 then a else if a < 0 || c < a then c else a }

  function Combined(cs: seq<int>): int {
    if cs == [] then UNBOUNDED else Tighter(Combined(cs[..|cs| - 1]), cs[|cs| - 1])
  }

  method CombinePruneCeilings(cs: seq<int>) returns (out: int)
    ensures out == Combined(cs)
  {
    out := UNBOUNDED;
    for i := 0 to |cs|
      invariant out == Combined(cs[..i])
    {
      assert cs[..i + 1][..i] == cs[..i];
      if cs[i] >= 0 {
        if out < 0 || cs[i] < out {
          out := cs[i];
        }
      }
    }
    assert cs[..|cs|] == cs;
  }

  /** The combination is the smallest active ceiling, or none. */
  ghost predicate IsTightest(out: int, cs: seq<int>) {
    if forall c :: c in cs ==> c < 0 then out == UNBOUNDED
    else out in cs && out >= 0 && forall c :: c in cs && c >= 0 ==> out <= c
  }

  lemma {:induction false} CombinedIsTightest(cs: seq<int>)
    ensures IsTightest(Combined(cs), cs)
  {
    if cs != [] {
      var rest, last := cs[..|cs| - 1], cs[|cs| - 1];
      CombinedIsTightest(rest);
      assert last in cs && forall c :: c in rest ==> c in cs;
      if forall c :: c in cs ==> c < 0 {
        assert forall c :: c in rest ==> c < 0;
      } else {
        assert forall c :: c in cs ==> c in rest || c == last;
      }
    }
  }

  /** The law: a seq is within the combination exactly when it is within every ceiling. */
  lemma {:induction false} WithinCombined(cs: seq<int>, s: int)
    requires s >= 0
    ensures Within(s, Combined(cs)) <==> forall c :: c in cs ==> Within(s, c)
  {
    CombinedIsTightest(cs);
  }

  /** Order and repetition do not matter. */
  lemma CombinedAnyOrder(a: seq<int>, b: seq<int>)
    requires forall c :: c in a <==> c in b
    ensures Combined(a) == Combined(b)
  {
    CombinedIsTightest(a);
    CombinedIsTightest(b);
  }

  /** Folding in two stages is folding once. */
  lemma CombinedInStages(a: seq<int>, b: seq<int>)
    ensures Combined([Combined(a), Combined(b)]) == Combined(a + b)
  {
    CombinedIsTightest(a);
    CombinedIsTightest(b);
    CombinedIsTightest(a + b);
    CombinedIsTightest([Combined(a), Combined(b)]);
    assert forall c :: c in a + b <==> c in a || c in b;
  }

  // ---------- the log ----------

  datatype Event = Event(id: nat, at: int)

  /** Events by ascending seq; `head` is the last seq given out, `mark` the ship high-water mark,
      `checkpoint` the seq the latest checkpoint anchors (0: none). */
  datatype State = State(events: seq<Event>, head: nat, mark: int, checkpoint: nat)

  ghost predicate Ascending(es: seq<Event>) { forall i, j :: 0 <= i < j < |es| ==> es[i].id < es[j].id }

  ghost predicate Valid(st: State) {
    Ascending(st.events) && (forall e :: e in st.events ==> 1 <= e.id <= st.head) && st.checkpoint <= st.head
  }

  /** The minimum-retention floor; a setting that is not positive is off. */
  datatype Floor = Floor(days: int, events: int)

  const DAY := 86400

  /** The highest seq among the events older than `cutoff`, 0 if none is. */
  function SeqOlderThan(es: seq<Event>, cutoff: int): nat {
    if es == [] then 0
    else if es[|es| - 1].at < cutoff then es[|es| - 1].id
    else SeqOlderThan(es[..|es| - 1], cutoff)
  }

  /** One below the lowest of the newest `n`. */
  function SeqRetainingNewest(es: seq<Event>, n: nat): nat {
    if es == [] || n == 0 then 0
    else
      var oldest := es[if n < |es| then |es| - n else 0].id;
      if oldest <= 1 then 0 else oldest - 1
  }

  function ShipCeiling(st: State): int { if st.mark <= 0 then UNBOUNDED else st.mark }

  function RetentionCeiling(st: State, floor: Floor, now: int): int {
    Combined([if floor.days > 0 then SeqOlderThan(st.events, now - floor.days * DAY) else UNBOUNDED,
              if floor.events > 0 then SeqRetainingNewest(st.events, floor.events) else UNBOUNDED])
  }

  /** How many events a prune through `t` removes: a prefix. */
  function Doomed(es: seq<Event>, t: int): (n: nat)
    ensures n <= |es|
  {
    if es == [] || es[0].id > t then 0 else 1 + Doomed(es[1..], t)
  }

  function PruneThrough(es: seq<Event>, t: int): seq<Event> { es[Doomed(es, t)..] }

  function Append(st: State, at: int): State {
    st.(events := st.events + [Event(st.head + 1, at)], head := st.head + 1)
  }

  datatype Reply = Pruned | Conflict | NoCheckpoint | Broken

  /** The prune point: the checkpoint, clamped to the combined ceiling. */
  function PrunePoint(st: State, ceiling: int): int {
    if 0 <= ceiling < st.checkpoint then ceiling else st.checkpoint
  }

  /** The prune is itself recorded after the delete; if that write fails the delete stays. */
  function PruneStep(st: State, floor: Floor, now: int, anchored: bool, auditOk: bool): (State, Reply) {
    var retention := RetentionCeiling(st, floor, now);
    if retention == 0 then (st, Conflict)
    else if st.checkpoint == 0 then (st, NoCheckpoint)
    else if !anchored then (st, Broken)
    else
      var point := PrunePoint(st, Combined([ShipCeiling(st), retention]));
      if point < 1 then (st, Conflict)
      else
        var st1 := st.(events := PruneThrough(st.events, point));
        (if auditOk then Append(st1, now) else st1, Pruned)
  }

  class Audit {
    var st: State

    constructor (s: State)
      ensures st == s
    {
      st := s;
    }

    method RetentionPruneCeiling(floor: Floor, now: int) returns (ceiling: int)
      ensures ceiling == RetentionCeiling(st, floor, now)
    {
      if floor.days <= 0 && floor.events <= 0 {
        assert RetentionCeiling(st, floor, now) == Combined([UNBOUNDED, UNBOUNDED]);
        CombinedIsTightest([UNBOUNDED, UNBOUNDED]);
        return UNBOUNDED;
      }
      var byDays, byEvents := UNBOUNDED, UNBOUNDED;
      if floor.days > 0 {
        byDays := SeqOlderThan(st.events, now - floor.days * DAY);
      }
      if floor.events > 0 {
        byEvents := SeqRetainingNewest(st.events, floor.events);
      }
      ceiling := CombinePruneCeilings([byDays, byEvents]);
    }

    method Prune(floor: Floor, now: int, anchored: bool, auditOk: bool) returns (reply: Reply)
      modifies this
      ensures (st, reply) == PruneStep(old(st), floor, now, anchored, auditOk)
    {
      var ship := UNBOUNDED;
      if st.mark > 0 {
        ship := st.mark;
      }
      var retention := RetentionPruneCeiling(floor, now);
      if retention == 0 {
        return Conflict;
      }
      var ceiling := CombinePruneCeilings([ship, retention]);
      if st.checkpoint == 0 {
        return NoCheckpoint;
      }
      if !anchored {
        return Broken;
      }
      var point: int := st.checkpoint;
      if ceiling >= 0 && ceiling < point {
        point := ceiling;
      }
      if point < 1 {
        return Conflict;
      }
      st := st.(events := PruneThrough(st.events, point));
      if auditOk {
        st := Append(st, now);
      }
      return Pruned;
    }
  }

  // ---------- what one prune removes ----------

  lemma {:induction false} DoomedIs(es: seq<Event>, t: int, i: nat)
    requires Ascending(es) && i < |es|
    ensures i < Doomed(es, t) <==> es[i].id <= t
  {
    if es[0].id > t {
      assert i > 0 ==> es[0].id < es[i].id;
    } else if i > 0 {
      assert es[1..][i - 1] == es[i];
      DoomedIs(es[1..], t, i - 1);
    }
  }

  lemma Survivors(es: seq<Event>, t: int, e: Event)
    requires Ascending(es)
    ensures e in PruneThrough(es, t) <==> e in es && e.id > t
  {
    hide Doomed, Ascending;
    var d := Doomed(es, t);
    if e in es {
      var i :| 0 <= i < |es| && es[i] == e;
      DoomedIs(es, t, i);
      if d <= i { assert es[d..][i - d] == e; }
    }
    if e in es[d..] {
      var j :| 0 <= j < |es[d..]| && es[d..][j] == e;
      DoomedIs(es, t, d + j);
    }
  }

  /** The event goes: it is at or below the checkpoint and within every active ceiling. */
  ghost predicate Removable(st: State, floor: Floor, now: int, e: Event) {
    && e.id <= st.checkpoint
    && (st.mark > 0 ==> e.id <= st.mark)
    && (floor.days > 0 ==> e.id <= SeqOlderThan(st.events, now - floor.days * DAY))
    && (floor.events > 0 ==> e.id <= SeqRetainingNewest(st.events, floor.events))
  }

  /** A prune that goes through removes exactly the events that every ceiling in force lets go. */
  lemma PruneRemovesExactly(st: State, floor: Floor, now: int, anchored: bool, auditOk: bool, e: Event)
    requires Valid(st) && e in st.events && PruneStep(st, floor, now, anchored, auditOk).1 == Pruned
    ensures e in PruneStep(st, floor, now, anchored, auditOk).0.events <==> !Removable(st, floor, now, e)
  {
    var retention := RetentionCeiling(st, floor, now);
    var ceiling := Combined([ShipCeiling(st), retention]);
    var point := PrunePoint(st, ceiling);
    Survivors(st.events, point, e);
    WithinAll(st, floor, now, e);
    var after := PruneStep(st, floor, now, anchored, auditOk).0.events;
    assert e in after <==> e in PruneThrough(st.events, point) by {
      assert e.id <= st.head;
    }
  }

  lemma WithinAll(st: State, floor: Floor, now: int, e: Event)
    requires e.id >= 1
    ensures Within(e.id, Combined([ShipCeiling(st), RetentionCeiling(st, floor, now)])) <==>
      && (st.mark > 0 ==> e.id <= st.mark)
      && (floor.days > 0 ==> e.id <= SeqOlderThan(st.events, now - floor.days * DAY))
      && (floor.events > 0 ==> e.id <= SeqRetainingNewest(st.events, floor.events))
  {
    hide SeqOlderThan, SeqRetainingNewest, Combined;
    var byDays: int := if floor.days > 0 then SeqOlderThan(st.events, now - floor.days * DAY) else UNBOUNDED;
    var byEvents: int := if floor.events > 0 then SeqRetainingNewest(st.events, floor.events) else UNBOUNDED;
    var retention := RetentionCeiling(st, floor, now);
    assert retention == Combined([byDays, byEvents]);
    var inner, outer := [byDays, byEvents], [ShipCeiling(st), retention];
    WithinCombined(inner, e.id);
    WithinCombined(outer, e.id);
    assert inner[0] in inner && inner[1] in inner && outer[0] in outer && outer[1] in outer;
    assert forall c :: c in inner ==> c == byDays || c == byEvents;
    assert forall c :: c in outer ==> c == ShipCeiling(st) || c == retention;
  }

  /** A prune goes through exactly if there is a checkpoint, its anchor holds, and each floor that is on leaves
      something to go: an event older than the days, more than the newest events -- counting the seqs an earlier
      prune left out. Otherwise nothing changes. If it goes through and can be recorded, that is the newest event. */
  lemma PruneGoesThroughIff(st: State, floor: Floor, now: int, anchored: bool, auditOk: bool)
    requires Valid(st)
    ensures var (after, reply) := PruneStep(st, floor, now, anchored, auditOk);
      && (reply == Pruned <==>
            && st.checkpoint > 0 && anchored
            && (floor.days > 0 ==> exists e :: e in st.events && e.at < now - floor.days * 86400)
            && (floor.events > 0 ==>
                  && st.events != []
                  && st.events[if floor.events < |st.events| then |st.events| - floor.events else 0].id > 1))
      && (reply != Pruned ==> after == st)
      && (reply == Conflict <==>
            || (floor.days > 0 && forall e :: e in st.events ==> e.at >= now - floor.days * 86400)
            || (floor.events > 0 && SeqRetainingNewest(st.events, floor.events) == 0))
      && (reply == NoCheckpoint ==> st.checkpoint == 0) && (reply == Broken ==> !anchored)
      && (reply == Pruned && auditOk ==>
            after.events != [] && after.events[|after.events| - 1] == Event(st.head + 1, now) &&
                after.head == st.head + 1)
      && (reply == Pruned && !auditOk ==> after.head == st.head)
  {
    hide SeqOlderThan, Combined;
    OlderThanIs(st.events, now - floor.days * DAY, 1);
    var byDays: int := if floor.days > 0 then SeqOlderThan(st.events, now - floor.days * DAY) else UNBOUNDED;
    var byEvents: int := if floor.events > 0 then SeqRetainingNewest(st.events, floor.events) else UNBOUNDED;
    var retention := RetentionCeiling(st, floor, now);
    assert retention == Combined([byDays, byEvents]);
    TwoCombined(byDays, byEvents);
    TwoCombined(ShipCeiling(st), retention);
    assert forall e :: e in st.events && e.at < now - floor.days * DAY ==> 1 <= e.id;
  }

  lemma TwoCombined(a: int, b: int)
    requires a >= UNBOUNDED && b >= UNBOUNDED
    ensures Combined([a, b]) == 0 <==> a == 0 || b == 0
    ensures Combined([a, b]) >= UNBOUNDED && (Combined([a, b]) == UNBOUNDED <==> a == UNBOUNDED && b == UNBOUNDED)
  {
    CombinedIsTightest([a, b]);
    assert a in [a, b] && b in [a, b];
  }

  // ---------- the floors ----------

  /** The floor on numbers draws the line exactly before the newest `n`. */
  lemma NewestIff(st: State, n: nat, i: nat)
    requires Valid(st) && n > 0 && i < |st.events|
    ensures st.events[i].id <= SeqRetainingNewest(st.events, n) <==> i < |st.events| - n
  {
    var j := if n < |st.events| then |st.events| - n else 0;
    assert st.events[i] in st.events && st.events[j] in st.events;
  }

  /** The floor on numbers: the newest `n` events are out of reach, whatever gaps earlier prunes left. */
  lemma NewestAreKept(st: State, floor: Floor, now: int, i: nat)
    requires Valid(st) && floor.events > 0 && i < |st.events| && |st.events| - floor.events <= i
    ensures !Removable(st, floor, now, st.events[i])
  {
  }

  lemma {:induction false} OlderThanIs(es: seq<Event>, cutoff: int, s: nat)
    requires Ascending(es) && s >= 1 && forall e :: e in es ==> e.id >= 1
    ensures s <= SeqOlderThan(es, cutoff) <==> exists e :: e in es && e.at < cutoff && s <= e.id
  {
    if es != [] {
      var rest, last := es[..|es| - 1], es[|es| - 1];
      assert forall e :: e in es <==> e in rest || e == last;
      if last.at < cutoff {
        forall e | e in rest ensures e.id < last.id { }
      } else {
        OlderThanIs(rest, cutoff, s);
      }
    }
  }

  /** The event is young enough to keep, but an older event was recorded after it. */
  ghost predicate Inverted(st: State, floor: Floor, now: int, e: Event) {
    e.at >= now - floor.days * DAY && exists o :: o in st.events && o.at < now - floor.days * DAY && e.id < o.id
  }

  /** The floor on days keeps a young event unless the recorded times are out of order behind it: then,
      and only then, the days do not protect it and the other ceilings decide. */
  lemma YoungAreKeptUnlessInverted(st: State, floor: Floor, now: int, e: Event)
    requires Valid(st) && floor.days > 0 && e in st.events && e.at >= now - floor.days * DAY
    ensures Removable(st, floor, now, e) <==>
      && Inverted(st, floor, now, e)
      && e.id <= st.checkpoint && (st.mark > 0 ==> e.id <= st.mark)
      && (floor.events > 0 ==> e.id <= SeqRetainingNewest(st.events, floor.events))
  {
    hide SeqOlderThan, SeqRetainingNewest;
    var cutoff := now - floor.days * DAY;
    OlderThanIs(st.events, cutoff, e.id);
    forall o | o in st.events && o.at < cutoff && e.id <= o.id ensures e.id < o.id {
      var i :| 0 <= i < |st.events| && st.events[i] == e;
      var j :| 0 <= j < |st.events| && st.events[j] == o;
      assert i != j;
    }
  }

  /** While times do not run backwards along the log, every young event is kept. */
  lemma DaysFloorHolds(st: State, floor: Floor, now: int, e: Event)
    requires Valid(st) && floor.days > 0 && e in st.events && e.at >= now - floor.days * DAY
    requires forall i, j :: 0 <= i < j < |st.events| ==> st.events[i].at <= st.events[j].at
    ensures !Removable(st, floor, now, e)
  {
    YoungAreKeptUnlessInverted(st, floor, now, e);
    forall o | o in st.events && e.id < o.id ensures e.at <= o.at {
      var i :| 0 <= i < |st.events| && st.events[i] == e;
      var j :| 0 <= j < |st.events| && st.events[j] == o;
      assert i < j;
    }
  }

  // ---------- whole runs ----------

  datatype Step =
    | Record(at: int)
    | Ship(upTo: int)
    | Checkpoint
    | Prune(floor: Floor, now: int, anchored: bool, auditOk: bool)

  function Apply(st: State, step: Step): State {
    match step
    case Record(at) => Append(st, at)
    case Ship(n) => if st.mark < n <= st.head then st.(mark := n) else st
    case Checkpoint => if st.events == [] then st else st.(checkpoint := st.events[|st.events| - 1].id)
    case Prune(floor, now, anchored, auditOk) => PruneStep(st, floor, now, anchored, auditOk).0
  }

  function Run(st: State, steps: seq<Step>): State
    decreases |steps|
  {
    if steps == [] then st else Run(Apply(st, steps[0]), steps[1..])
  }

  /** Recording gives out the next seq; shipping moves the mark forward to what exists and never back; a checkpoint
      anchors the newest event. */
  lemma RecordShipCheckpoint(st: State, n: int)
    ensures Apply(st, Record(n)) == st.(events := st.events + [Event(st.head + 1, n)], head := st.head + 1)
    ensures Apply(st, Ship(n)) == st.(mark := if st.mark < n && n <= st.head then n else st.mark)
    ensures st.events != [] ==> Apply(st, Checkpoint) == st.(checkpoint := st.events[|st.events| - 1].id)
    ensures st.events == [] ==> Apply(st, Checkpoint) == st
  {
  }

  lemma PruneIsSlice(st: State, step: Step)
    requires step.Prune?
    ensures var after := Apply(st, step);
      exists d: nat, tail: seq<Event> :: d <= |st.events| && after == st.(events := st.events[d..] + tail,
          head := st.head + |tail|)
        && (tail == [] || tail == [Event(st.head + 1, step.now)])
  {
    hide Combined, RetentionCeiling, Doomed;
    var after := Apply(st, step);
    if after == st {
      var tail: seq<Event> := [];
      assert st.events[0..] + tail == st.events;
      assert after == st.(events := st.events[0..] + tail, head := st.head + |tail|);
    } else {
      var point := PrunePoint(st, Combined([ShipCeiling(st), RetentionCeiling(st, step.floor, step.now)]));
      var d := Doomed(st.events, point);
      var tail: seq<Event> := if step.auditOk then [Event(st.head + 1, step.now)] else [];
      assert st.events[d..] + [] == st.events[d..];
      assert after == st.(events := st.events[d..] + tail, head := st.head + |tail|);
    }
  }

  lemma SliceValid(st: State, d: nat, tail: seq<Event>)
    requires Valid(st) && d <= |st.events| && (tail == [] || (|tail| == 1 && tail[0].id == st.head + 1))
    ensures Valid(st.(events := st.events[d..] + tail, head := st.head + |tail|))
  {
  }

  lemma StepValid(st: State, step: Step)
    requires Valid(st)
    ensures Valid(Apply(st, step))
    ensures st.head <= Apply(st, step).head && st.mark <= Apply(st, step).mark
  {
    hide PruneStep;
    if step.Prune? {
      PruneIsSlice(st, step);
      var d: nat, tail :| d <= |st.events| && Apply(st, step) == st.(events := st.events[d..] + tail,
          head := st.head + |tail|)
        && (tail == [] || tail == [Event(st.head + 1, step.now)]);
      hide Apply;
      SliceValid(st, d, tail);
    }
  }

  /** A step loses no event above a positive mark, and adds every seq it gives out. */
  lemma StepKeepsUnshipped(st: State, step: Step, s: nat)
    requires Valid(st) && st.mark > 0 && s > st.mark
    requires Has(st, s) || s > st.head
    ensures Has(Apply(st, step), s) || s > Apply(st, step).head
  {
    var after := Apply(st, step);
    if s == st.head + 1 && after.head == s {
      NewestIsThere(st, step);
    } else if s <= st.head {
      var e :| e in st.events && e.id == s;
      if step.Prune? && after.events != st.events && PruneStep(st, step.floor, step.now, step.anchored,
          step.auditOk).1 == Pruned {
        PruneRemovesExactly(st, step.floor, step.now, step.anchored, step.auditOk, e);
        assert e in after.events;
      } else {
        hide RetentionCeiling, Combined, Doomed;
        assert e in after.events;
      }
    } else {
      hide RetentionCeiling, Combined, Doomed;
    }
  }

  ghost predicate Has(st: State, s: nat) { exists e :: e in st.events && e.id == s }

  lemma NewestIsThere(st: State, step: Step)
    requires Apply(st, step).head == st.head + 1
    ensures Has(Apply(st, step), st.head + 1)
  {
  }

  lemma {:induction false} RunKeepsUnshipped(st: State, steps: seq<Step>, s: nat)
    requires Valid(st) && st.mark > 0 && s > Run(st, steps).mark
    requires Has(st, s) || s > st.head
    ensures Has(Run(st, steps), s) || s > Run(st, steps).head
    decreases |steps|
  {
    hide Apply, Has, Valid;
    if steps != [] {
      StepValid(st, steps[0]);
      MarkOnlyRises(Apply(st, steps[0]), steps[1..]);
      StepKeepsUnshipped(st, steps[0], s);
      RunKeepsUnshipped(Apply(st, steps[0]), steps[1..], s);
    }
  }

  lemma {:induction false} MarkOnlyRises(st: State, steps: seq<Step>)
    requires Valid(st)
    ensures st.mark <= Run(st, steps).mark && st.head <= Run(st, steps).head
    decreases |steps|
  {
    hide Apply, Valid;
    if steps != [] {
      StepValid(st, steps[0]);
      MarkOnlyRises(Apply(st, steps[0]), steps[1..]);
    }
  }

  /** Once anything has been shipped: over any run of recording, shipping, checkpointing and pruning, under
      whatever floors, every event above the mark -- there at the start or recorded on the way -- is still
      in the log. */
  lemma NothingUnshippedIsLost(st: State, steps: seq<Step>, s: nat)
    requires Valid(st) && st.mark > 0
    requires s > Run(st, steps).mark && (Has(st, s) || st.head < s <= Run(st, steps).head)
    ensures Has(Run(st, steps), s)
  {
    MarkOnlyRises(st, steps);
    RunKeepsUnshipped(st, steps, s);
    hide *;
    HasIsBelowHead(st, steps, s);
  }

  lemma HasIsBelowHead(st: State, steps: seq<Step>, s: nat)
    requires Valid(st) && (Has(st, s) || st.head < s <= Run(st, steps).head)
    ensures s <= Run(st, steps).head
  {
    MarkOnlyRises(st, steps);
  }

  lemma {:induction false} RunValid(st: State, steps: seq<Step>)
    requires Valid(st)
    ensures Valid(Run(st, steps))
    decreases |steps|
  {
    hide Apply, Valid;
    if steps != [] {
      StepValid(st, steps[0]);
      RunValid(Apply(st, steps[0]), steps[1..]);
    }
  }

  /** After any run, a prune keeps what the ceilings then in force protect: everything above a positive
      mark, the newest events of the floor, and the young ones that no older event was recorded after. */
  lemma FloorsHoldInEveryRun(st: State, steps: seq<Step>, floor: Floor, now: int, anchored: bool, auditOk: bool, i: nat)
    requires Valid(st) && i < |Run(st, steps).events|
    ensures var mid := Run(st, steps);
      var e := mid.events[i];
      || (mid.mark > 0 && e.id > mid.mark)
      || (floor.events > 0 && |mid.events| - floor.events <= i)
      || (floor.days > 0 && e.at >= now - floor.days * DAY && !Inverted(mid, floor, now, e))
      ==> e in PruneStep(mid, floor, now, anchored, auditOk).0.events
  {
    hide Run, Valid, Removable, Inverted, SeqOlderThan, SeqRetainingNewest, RetentionCeiling, Doomed, Combined;
    var mid := Run(st, steps);
    var e := mid.events[i];
    RunValid(st, steps);
    assert e in mid.events;
    if PruneStep(mid, floor, now, anchored, auditOk).1 == Pruned {
      PruneRemovesExactly(mid, floor, now, anchored, auditOk, e);
      if mid.mark > 0 && e.id > mid.mark {
        UnshippedAreKept(mid, floor, now, e);
      } else if floor.events > 0 && |mid.events| - floor.events <= i {
        NewestAreKept(mid, floor, now, i);
      } else if floor.days > 0 && e.at >= now - floor.days * DAY {
        YoungAreKeptUnlessInverted(mid, floor, now, e);
      }
    }
  }

  lemma UnshippedAreKept(st: State, floor: Floor, now: int, e: Event)
    requires st.mark > 0 && e.id > st.mark
    ensures !Removable(st, floor, now, e)
  {
  }

  /** The query's comment promises 0 for a table of at most `n` events. It answers 0 exactly if the table is
      empty or still holds the very first event; after an earlier prune it answers with a positive seq. Either
      way none of the events can be removed. */
  lemma FewEventsAnswer(st: State, floor: Floor, now: int)
    requires Valid(st) && floor.events > 0 && |st.events| <= floor.events
    ensures SeqRetainingNewest(st.events, floor.events) == 0 <==> st.events == [] || st.events[0].id == 1
    ensures st.events != [] ==> SeqRetainingNewest(st.events, floor.events) == st.events[0].id - 1
    ensures forall e :: e in st.events ==> !Removable(st, floor, now, e)
  {
    forall e | e in st.events ensures !Removable(st, floor, now, e) {
      var i :| 0 <= i < |st.events| && st.events[i] == e;
      NewestAreKept(st, floor, now, i);
    }
    if st.events != [] { assert st.events[0] in st.events; }
  }
}
