/** The per-client token bucket of internal/api/ratelimit.go, which forgets buckets idle for over an
    hour, against one that never forgets.

    Time and tokens are reals. One call of `allow` takes one reading of the clock. The bucket itself is
    golang.org/x/time/rate's: it refills on use and spends a token only when it grants one.
 */
module RateLimit {

  type Host = string

  const SCAN_INTERVAL: real := 600.0
  const IDLE_LIMIT: real := 3600.0

  /** Sustained rate in tokens per second, and the capacity. */
  datatype Config = Config(rate: real, burst: nat) {
    predicate Valid() { rate >= 0.0 }
  }

  datatype Limiter = Limiter(tokens: real, last: real)
  datatype Bucket = Bucket(lim: Limiter, lastSeen: real)

  /** Tokens earned in `t` seconds; over an interval, the difference of its ends. */
  function Earned(c: Config, t: real): real { c.rate * t }

  /** Tokens in hand at time `t`: what was left plus the refill, never above the burst. */
  function Refill(c: Config, l: Limiter, t: real): real {
    var from := if t < l.last then t else l.last;
    var tokens := l.tokens + (Earned(c, t) - Earned(c, from));
    if tokens > c.burst as real then c.burst as real else tokens
  }

  /** `rate.Limiter.Allow`: a refused request leaves the bucket as it was. */
  function Take(c: Config, l: Limiter, t: real): (Limiter, bool) {
    var tokens := Refill(c, l, t);
    if tokens >= 1.0 then (Limiter(tokens - 1.0, t), true) else (l, false)
  }

  function NewLimiter(c: Config, t: real): Limiter { Limiter(c.burst as real, t) }

  // ---------- the limiter that forgets ----------

  datatype State = State(buckets: map<Host, Bucket>, lastScan: real)

  function Pruned(s: State, t: real): State {
    if t - s.lastScan > SCAN_INTERVAL then
      State(map h | h in s.buckets && t - s.buckets[h].lastSeen <= IDLE_LIMIT :: s.buckets[h], t)
    else s
  }

  function Step(c: Config, s: State, h: Host, t: real): (State, bool) {
    var p := Pruned(s, t);
    var lim := if h in p.buckets then p.buckets[h].lim else NewLimiter(c, t);
    var (lim', ok) := Take(c, lim, t);
    (p.(buckets := p.buckets[h := Bucket(lim', t)]), ok)
  }

  class IpRateLimiter {
    const cfg: Config
    var buckets: map<Host, Bucket>
    var lastScan: real

    ghost function View(): State
      reads this
    {
      State(buckets, lastScan)
    }

    constructor (cfg: Config, now: real)
      ensures this.cfg == cfg && View() == State(map[], now)
    {
      this.cfg := cfg;
      buckets := map[];
      lastScan := now;
    }

    method Allow(host: Host, now: real) returns (ok: bool)
      modifies this
      ensures (View(), ok) == Step(cfg, old(View()), host, now)
    {
      if now - lastScan > SCAN_INTERVAL {
        Prune(now);
        lastScan := now;
      }
      if host !in buckets {
        buckets := buckets[host := Bucket(NewLimiter(cfg, now), now)];
      }
      var taken := Take(cfg, buckets[host].lim, now);
      buckets := buckets[host := Bucket(taken.0, now)];
      ok := taken.1;
      assert View().buckets == Step(cfg, old(View()), host, now).0.buckets;
    }

    /** The range loop over the buckets, in any order. */
    method Prune(now: real)
      modifies this`buckets
      ensures buckets == map h | h in old(buckets) && now - old(buckets)[h].lastSeen <= IDLE_LIMIT :: old(buckets)[h]
    {
      var todo := buckets.Keys;
      while todo != {}
        invariant todo <= buckets.Keys <= old(buckets).Keys
        invariant forall h :: h in buckets ==> buckets[h] == old(buckets)[h]
        invariant forall h :: h in old(buckets) && h !in todo ==>
                    (h in buckets <==> now - old(buckets)[h].lastSeen <= IDLE_LIMIT)
        decreases |todo|
      {
        var h :| h in todo;
        todo := todo - {h};
        if now - buckets[h].lastSeen > IDLE_LIMIT {
          buckets := buckets - {h};
        }
      }
    }
  }

  // ---------- the limiter that never forgets ----------

  type Memory = map<Host, Limiter>

  function Lookup(c: Config, m: Memory, h: Host, t: real): Limiter {
    if h in m then m[h] else NewLimiter(c, t)
  }

  function PlainStep(c: Config, m: Memory, h: Host, t: real): (Memory, bool) {
    var (lim', ok) := Take(c, Lookup(c, m, h, t), t);
    (m[h := lim'], ok)
  }

  // ---------- runs ----------

  datatype Request = Request(host: Host, at: real)

  /** Requests in the order the mutex admits them, none before `from`. */
  predicate TimeOrdered(reqs: seq<Request>, from: real) {
    reqs == [] || (from <= reqs[0].at && TimeOrdered(reqs[1..], reqs[0].at))
  }

  function Answers(c: Config, s: State, reqs: seq<Request>): (r: seq<bool>)
    ensures |r| == |reqs|
    decreases |reqs|
  {
    if reqs == [] then []
    else
      var (s', ok) := Step(c, s, reqs[0].host, reqs[0].at);
      [ok] + Answers(c, s', reqs[1..])
  }

  function PlainAnswers(c: Config, m: Memory, reqs: seq<Request>): (r: seq<bool>)
    ensures |r| == |reqs|
    decreases |reqs|
  {
    if reqs == [] then []
    else
      var (m', ok) := PlainStep(c, m, reqs[0].host, reqs[0].at);
      [ok] + PlainAnswers(c, m', reqs[1..])
  }

  // ---------- pruning is unobservable when an idle hour refills the bucket ----------

  /** An hour of refill covers the whole burst. */
  predicate RefillsWithinIdleLimit(c: Config) { c.burst as real <= Earned(c, IDLE_LIMIT) }

  predicate Full(c: Config, l: Limiter, t: real) {
    l.last <= t && l.tokens + (Earned(c, t) - Earned(c, l.last)) >= c.burst as real
  }

  /** What each side remembers about one host is indistinguishable from now on. */
  ghost predicate HostMatches(c: Config, s: State, m: Memory, h: Host, now: real) {
    if h in s.buckets then
      && s.buckets[h].lastSeen <= now
      && s.buckets[h].lim.last <= s.buckets[h].lastSeen
      && s.buckets[h].lim.tokens >= 0.0
      && (h in m && (m[h] == s.buckets[h].lim || (Full(c, m[h], now) && Full(c, s.buckets[h].lim, now))))
    else
      h in m ==> Full(c, m[h], now)
  }

  ghost predicate Matches(c: Config, s: State, m: Memory, now: real) {
    s.lastScan <= now && forall h :: HostMatches(c, s, m, h, now)
  }

  lemma EarnedMonotone(c: Config, x: real, y: real)
    requires c.Valid() && x <= y
    ensures Earned(c, x) <= Earned(c, y)
  {
  }

  lemma EarnedOverGap(c: Config, x: real, y: real, gap: real)
    requires c.Valid() && y - x >= gap
    ensures Earned(c, y) - Earned(c, x) >= Earned(c, gap)
  {
  }

  lemma FullStaysFull(c: Config, l: Limiter, t: real, t': real)
    requires c.Valid() && Full(c, l, t) && t <= t'
    ensures Full(c, l, t')
  {
    hide Earned;
    EarnedMonotone(c, t, t');
  }

  lemma IdleIsFull(c: Config, l: Limiter, seen: real, t: real)
    requires c.Valid() && RefillsWithinIdleLimit(c)
    requires l.last <= seen && l.tokens >= 0.0 && t - seen > IDLE_LIMIT
    ensures Full(c, l, t)
  {
    hide Earned;
    EarnedOverGap(c, l.last, t, IDLE_LIMIT);
  }

  lemma TakeKeepsNonNegative(c: Config, l: Limiter, t: real)
    requires c.Valid() && l.tokens >= 0.0 && l.last <= t
    ensures Take(c, l, t).0.tokens >= 0.0 && Take(c, l, t).0.last <= t
  {
  }

  lemma FullLimitersAgree(c: Config, l: Limiter, k: Limiter, t: real)
    requires Full(c, l, t) && Full(c, k, t)
    ensures Take(c, l, t).1 == Take(c, k, t).1
    ensures Take(c, l, t).0 == Take(c, k, t).0 || (Take(c, l, t).0 == l && Take(c, k, t).0 == k)
  {
  }

  lemma PruneMatches(c: Config, s: State, m: Memory, now: real, t: real)
    requires c.Valid() && RefillsWithinIdleLimit(c)
    requires Matches(c, s, m, now) && now <= t
    ensures Matches(c, Pruned(s, t), m, t)
  {
    hide Earned;
    forall h ensures HostMatches(c, Pruned(s, t), m, h, t) {
      assert HostMatches(c, s, m, h, now);
      if h in s.buckets {
        var b := s.buckets[h];
        if m[h] != b.lim {
          FullStaysFull(c, m[h], now, t);
          FullStaysFull(c, b.lim, now, t);
        }
        if t - b.lastSeen > IDLE_LIMIT {
          IdleIsFull(c, b.lim, b.lastSeen, t);
        }
      } else if h in m {
        FullStaysFull(c, m[h], now, t);
      }
    }
  }

  /** One request: same answer, and the two sides match again. */
  lemma StepMatches(c: Config, s: State, m: Memory, now: real, h: Host, t: real)
    requires c.Valid() && RefillsWithinIdleLimit(c)
    requires Matches(c, s, m, now) && now <= t
    ensures Step(c, s, h, t).1 == PlainStep(c, m, h, t).1
    ensures Matches(c, Step(c, s, h, t).0, PlainStep(c, m, h, t).0, t)
  {
    hide Earned;
    PruneMatches(c, s, m, now, t);
    var p := Pruned(s, t);
    var s', m' := Step(c, s, h, t).0, PlainStep(c, m, h, t).0;
    assert HostMatches(c, p, m, h, t);
    var lim := if h in p.buckets then p.buckets[h].lim else NewLimiter(c, t);
    var mem := Lookup(c, m, h, t);
    TakeKeepsNonNegative(c, lim, t);
    if lim != mem {
      FullLimitersAgree(c, lim, mem, t);
    }
    forall g ensures HostMatches(c, s', m', g, t) {
      assert HostMatches(c, p, m, g, t);
    }
  }

  lemma {:induction false} SameAnswers(c: Config, s: State, m: Memory, now: real, reqs: seq<Request>)
    requires c.Valid() && RefillsWithinIdleLimit(c)
    requires Matches(c, s, m, now) && TimeOrdered(reqs, now)
    ensures Answers(c, s, reqs) == PlainAnswers(c, m, reqs)
    decreases |reqs|
  {
    hide Earned, Step, PlainStep, Matches;
    if reqs != [] {
      var r := reqs[0];
      StepMatches(c, s, m, now, r.host, r.at);
      SameAnswers(c, Step(c, s, r.host, r.at).0, PlainStep(c, m, r.host, r.at).0, r.at, reqs[1..]);
    }
  }

  // ---------- ... and only then ----------

  function After(c: Config, s: State, reqs: seq<Request>): State
    decreases |reqs|
  {
    if reqs == [] then s else After(c, Step(c, s, reqs[0].host, reqs[0].at).0, reqs[1..])
  }

  function PlainAfter(c: Config, m: Memory, reqs: seq<Request>): Memory
    decreases |reqs|
  {
    if reqs == [] then m else PlainAfter(c, PlainStep(c, m, reqs[0].host, reqs[0].at).0, reqs[1..])
  }

  predicate AllGranted(answers: seq<bool>) { forall i :: 0 <= i < |answers| ==> answers[i] }

  lemma {:induction false} AnswersConcat(c: Config, s: State, m: Memory, xs: seq<Request>, ys: seq<Request>)
    ensures Answers(c, s, xs + ys) == Answers(c, s, xs) + Answers(c, After(c, s, xs), ys)
    ensures PlainAnswers(c, m, xs + ys) == PlainAnswers(c, m, xs) + PlainAnswers(c, PlainAfter(c, m, xs), ys)
    decreases |xs|
  {
    hide Step, PlainStep;
    if xs == [] {
      assert xs + ys == ys;
    } else {
      assert (xs + ys)[1..] == xs[1..] + ys;
      var r := xs[0];
      AnswersConcat(c, Step(c, s, r.host, r.at).0, PlainStep(c, m, r.host, r.at).0, xs[1..], ys);
    }
  }

  function Repeat(h: Host, t: real, n: nat): (r: seq<Request>)
    ensures |r| == n
  {
    if n == 0 then [] else [Request(h, t)] + Repeat(h, t, n - 1)
  }

  lemma {:induction false} RepeatOrdered(h: Host, t: real, n: nat, rest: seq<Request>, from: real)
    requires from <= t && TimeOrdered(rest, t)
    ensures TimeOrdered(Repeat(h, t, n) + rest, from)
    decreases n
  {
    if n == 0 {
      assert Repeat(h, t, n) + rest == rest;
      assert rest == [] || from <= rest[0].at;
    } else {
      RepeatOrdered(h, t, n - 1, rest, t);
      assert (Repeat(h, t, n) + rest)[1..] == Repeat(h, t, n - 1) + rest;
    }
  }

  /** Tokens the never-forgetting limiter has for `h` at time `t`. */
  function InHand(c: Config, m: Memory, h: Host, t: real): real { Refill(c, Lookup(c, m, h, t), t) }

  lemma AllGrantedCons(ok: bool, tail: seq<bool>)
    ensures AllGranted([ok] + tail) <==> ok && AllGranted(tail)
  {
    var all := [ok] + tail;
    assert all[0] == ok && forall i :: 0 <= i < |tail| ==> tail[i] == all[i + 1];
  }

  /** A burst at one instant is granted in full exactly when the bucket holds that many tokens. */
  lemma {:induction false} PlainBurst(c: Config, m: Memory, h: Host, t: real, n: nat)
    ensures AllGranted(PlainAnswers(c, m, Repeat(h, t, n))) <==> n == 0 || n as real <= InHand(c, m, h, t)
    ensures 0 < n && n as real <= InHand(c, m, h, t) ==>
              PlainAfter(c, m, Repeat(h, t, n)) == m[h := Limiter(InHand(c, m, h, t) - n as real, t)]
    decreases n
  {
    hide Earned;
    if n > 0 {
      var reqs := Repeat(h, t, n);
      assert reqs[0] == Request(h, t) && reqs[1..] == Repeat(h, t, n - 1);
      var (m1, ok) := PlainStep(c, m, h, t);
      AllGrantedCons(ok, PlainAnswers(c, m1, reqs[1..]));
      PlainBurst(c, m1, h, t, n - 1);
      if ok {
        assert InHand(c, m1, h, t) == InHand(c, m, h, t) - 1.0;
      }
    }
  }

  function ForgetfulInHand(c: Config, s: State, h: Host, t: real): real {
    var p := Pruned(s, t);
    Refill(c, if h in p.buckets then p.buckets[h].lim else NewLimiter(c, t), t)
  }

  lemma {:induction false} ForgetfulBurst(c: Config, s: State, h: Host, t: real, n: nat)
    requires n as real <= ForgetfulInHand(c, s, h, t)
    ensures AllGranted(Answers(c, s, Repeat(h, t, n)))
    ensures n > 0 ==>
              var s' := After(c, s, Repeat(h, t, n));
              h in s'.buckets && s'.buckets[h].lastSeen == t && s'.lastScan == Pruned(s, t).lastScan
    decreases n
  {
    hide Earned;
    if n > 0 {
      var reqs := Repeat(h, t, n);
      assert reqs[0] == Request(h, t) && reqs[1..] == Repeat(h, t, n - 1);
      var (s1, ok) := Step(c, s, h, t);
      assert Pruned(s1, t) == s1;
      assert ForgetfulInHand(c, s1, h, t) == ForgetfulInHand(c, s, h, t) - 1.0;
      ForgetfulBurst(c, s1, h, t, n - 1);
      AllGrantedCons(ok, Answers(c, s1, reqs[1..]));
    }
  }

  lemma EmptiedBucket(c: Config, h: Host, n: nat)
    requires n == c.burst && n > 0
    ensures AllGranted(Answers(c, State(map[], 0.0), Repeat(h, 0.0, n)))
    ensures var s1 := After(c, State(map[], 0.0), Repeat(h, 0.0, n));
            h in s1.buckets && s1.buckets[h].lastSeen == 0.0 && s1.lastScan == 0.0
    ensures PlainAfter(c, map[], Repeat(h, 0.0, n)) == map[h := Limiter(0.0, 0.0)]
  {
    hide Earned, After, Answers, PlainAfter;
    ForgetfulBurst(c, State(map[], 0.0), h, 0.0, n);
    PlainBurst(c, map[], h, 0.0, n);
    assert map[][h := Limiter(0.0, 0.0)] == map[h := Limiter(0.0, 0.0)];
  }

  lemma ComeBackTooSoon(c: Config, s: State, h: Host, t: real, n: nat)
    requires n == c.burst && n > 0
    requires h in s.buckets && s.buckets[h].lastSeen == 0.0 && s.lastScan == 0.0
    requires t > IDLE_LIMIT && Earned(c, t) - Earned(c, 0.0) < c.burst as real
    ensures AllGranted(Answers(c, s, Repeat(h, t, n)))
    ensures !AllGranted(PlainAnswers(c, map[h := Limiter(0.0, 0.0)], Repeat(h, t, n)))
  {
    hide Earned, Answers, PlainAnswers;
    assert h !in Pruned(s, t).buckets;
    ForgetfulBurst(c, s, h, t, n);
    PlainBurst(c, map[h := Limiter(0.0, 0.0)], h, t, n);
  }

  /** Empty the bucket, stay away for just over an hour, come back with a full burst: the limiter that
      forgot grants all of it. */
  lemma TwoBursts(c: Config) returns (reqs: seq<Request>, t: real)
    requires c.Valid() && !RefillsWithinIdleLimit(c)
    ensures reqs == Repeat("h", 0.0, c.burst) + Repeat("h", t, c.burst) && TimeOrdered(reqs, 0.0)
    ensures c.burst > 0 && Earned(c, t) - Earned(c, 0.0) < c.burst as real
    ensures AllGranted(Answers(c, State(map[], 0.0), reqs)) && !AllGranted(PlainAnswers(c, map[], reqs))
  {
    hide Earned, Step, PlainStep;
    var h: Host, n := "h", c.burst;
    t := JustOverAnHour(c);
    var first, second := Repeat(h, 0.0, n), Repeat(h, t, n);
    RepeatOrdered(h, t, n, [], 0.0);
    assert second + [] == second;
    RepeatOrdered(h, 0.0, n, second, 0.0);
    reqs := first + second;
    var s0, m0: Memory := State(map[], 0.0), map[];
    EmptiedBucket(c, h, n);
    var s1, m1 := After(c, s0, first), PlainAfter(c, m0, first);
    ComeBackTooSoon(c, s1, h, t, n);
    AnswersConcat(c, s0, m0, first, second);
    assert PlainAnswers(c, m1, second) == PlainAnswers(c, m0, reqs)[n..];
  }

  /** ... and the one that remembers does not. */
  lemma ForgettingShows(c: Config) returns (reqs: seq<Request>)
    requires c.Valid() && !RefillsWithinIdleLimit(c)
    ensures TimeOrdered(reqs, 0.0)
    ensures Answers(c, State(map[], 0.0), reqs) != PlainAnswers(c, map[], reqs)
  {
    hide Earned, Answers, PlainAnswers, Repeat;
    var t;
    reqs, t := TwoBursts(c);
  }

  lemma JustOverAnHour(c: Config) returns (t: real)
    requires c.Valid() && !RefillsWithinIdleLimit(c)
    ensures t > IDLE_LIMIT && Earned(c, t) - Earned(c, 0.0) < c.burst as real
    ensures c.burst > 0
  {
    var spare := c.burst as real - c.rate * IDLE_LIMIT;
    if c.rate == 0.0 {
      t := IDLE_LIMIT + 1.0;
    } else {
      var extra := spare / (2.0 * c.rate);
      assert c.rate * extra == spare / 2.0;
      t := IDLE_LIMIT + extra;
      assert c.rate * t == c.rate * IDLE_LIMIT + c.rate * extra;
    }
    EarnedMonotone(c, 0.0, IDLE_LIMIT);
  }

  /** Forgetting idle buckets is invisible on every time-ordered sequence of requests exactly when an
      idle hour refills the whole burst. */
  lemma PruningUnobservableIff(c: Config)
    requires c.Valid()
    ensures c.burst as real <= c.rate * 3600.0 <==>
            forall reqs, start :: TimeOrdered(reqs, start) ==>
              Answers(c, State(map[], start), reqs) == PlainAnswers(c, map[], reqs)
  {
    if RefillsWithinIdleLimit(c) {
      forall reqs, start | TimeOrdered(reqs, start)
        ensures Answers(c, State(map[], start), reqs) == PlainAnswers(c, map[], reqs)
      {
        SameAnswers(c, State(map[], start), map[], start, reqs);
      }
    } else {
      var reqs := ForgettingShows(c);
    }
  }

  /** The three limiters the server configures: password login, passkeys and status probes. */
  const LOGIN := Config(10.0 / 60.0, 5)
  const PASSKEY := Config(60.0 / 60.0, 24)
  const PROBE := Config(120.0 / 60.0, 40)

  lemma ConfiguredLimitersQualify(c: Config, reqs: seq<Request>, start: real)
    requires c == LOGIN || c == PASSKEY || c == PROBE
    requires TimeOrdered(reqs, start)
    ensures Answers(c, State(map[], start), reqs) == PlainAnswers(c, map[], reqs)
  {
    assert c.Valid() && RefillsWithinIdleLimit(c);
    hide Earned, Step, PlainStep;
    SameAnswers(c, State(map[], start), map[], start, reqs);
  }

  // ---------- tokens, one by one ----------

  /** A request is granted exactly if a whole token is in hand; a grant spends one, a refusal none, and neither touches
      any other host. */
  lemma GrantsSpendOne(c: Config, m: Memory, h: Host, t: real)
    requires c.Valid()
    ensures var (m1, ok) := PlainStep(c, m, h, t);
      && (ok <==> InHand(c, m, h, t) >= 1.0)
      && InHand(c, m1, h, t) == InHand(c, m, h, t) - (if ok then 1.0 else 0.0)
      && (forall g, t1 :: g != h ==> InHand(c, m1, g, t1) == InHand(c, m, g, t1))
  {
    hide Earned;
  }

  /** Between requests tokens come in at the rate, up to the burst; a host not seen before has all of it. */
  lemma TokensAccrue(c: Config, m: Memory, h: Host, t: real, t1: real)
    requires c.Valid() && t <= t1
    ensures h !in m ==> InHand(c, m, h, t) == c.burst as real
    ensures h in m && m[h].last <= t ==>
      InHand(c, m, h, t1) ==
        (if InHand(c, m, h, t) + c.rate * (t1 - t) > c.burst as real then c.burst as real
         else InHand(c, m, h, t) + c.rate * (t1 - t))
  {
    assert c.rate * (t1 - t) == Earned(c, t1 - t);
    EarnedDifference(c, t, t1);
    EarnedMonotone(c, t, t1);
    hide Earned;
  }

  /** A refusal changes nothing about the bucket. */
  lemma RefusalKeepsMemory(c: Config, m: Memory, h: Host, t: real)
    requires c.burst > 0 && !PlainStep(c, m, h, t).1
    ensures PlainStep(c, m, h, t).0 == m
  {
    hide Earned;
    assert h in m;
    assert m[h := m[h]] == m;
  }

  lemma {:induction false} NothingWithoutBurst(c: Config, m: Memory, reqs: seq<Request>)
    requires c.burst == 0
    ensures forall i :: 0 <= i < |reqs| ==> !PlainAnswers(c, m, reqs)[i]
    decreases |reqs|
  {
    hide Earned;
    if reqs != [] {
      NothingWithoutBurst(c, PlainStep(c, m, reqs[0].host, reqs[0].at).0, reqs[1..]);
    }
  }

  /** A refused request leaves no trace: without it, every other request gets the same answer. */
  lemma RefusalsLeaveNoTrace(c: Config, xs: seq<Request>, r: Request, ys: seq<Request>)
    requires !PlainAnswers(c, map[], xs + [r] + ys)[|xs|]
    ensures var all := PlainAnswers(c, map[], xs + [r] + ys);
      PlainAnswers(c, map[], xs + ys) == all[..|xs|] + all[|xs| + 1..]
  {
    hide PlainStep, PlainAnswers, Answers, PlainAfter;
    var m0: Memory, s0 := map[], State(map[], 0.0);
    var m1 := PlainAfter(c, m0, xs);
    var all := PlainAnswers(c, m0, xs + [r] + ys);
    assert xs + [r] + ys == xs + ([r] + ys);
    AnswersConcat(c, s0, m0, xs, [r] + ys);
    AnswersConcat(c, s0, m0, xs, ys);
    OneAnswer(c, m1, r, ys);
    if c.burst == 0 {
      NothingWithoutBurst(c, m0, xs + [r] + ys);
      NothingWithoutBurst(c, m0, xs + ys);
    } else {
      RefusalKeepsMemory(c, m1, r.host, r.at);
    }
  }

  lemma OneAnswer(c: Config, m: Memory, r: Request, ys: seq<Request>)
    ensures PlainAnswers(c, m, [r] + ys) ==
      [PlainStep(c, m, r.host, r.at).1] + PlainAnswers(c, PlainStep(c, m, r.host, r.at).0, ys)
  {
    hide PlainStep;
    assert ([r] + ys)[1..] == ys;
  }

  lemma {:induction false} OrderedWithout(xs: seq<Request>, r: Request, ys: seq<Request>, from: real)
    requires TimeOrdered(xs + [r] + ys, from)
    ensures TimeOrdered(xs + ys, from)
    decreases |xs|
  {
    var all := xs + [r] + ys;
    if xs == [] {
      assert all[1..] == ys && xs + ys == ys;
      OrderedEarlier(ys, r.at, from);
    } else {
      assert all[1..] == xs[1..] + [r] + ys && (xs + ys)[1..] == xs[1..] + ys;
      OrderedWithout(xs[1..], r, ys, xs[0].at);
    }
  }

  lemma OrderedEarlier(reqs: seq<Request>, late: real, early: real)
    requires TimeOrdered(reqs, late) && early <= late
    ensures TimeOrdered(reqs, early)
  {
  }

  /** ... nor with the limiter that forgets, if an hour refills the burst. */
  lemma ForgetfulRefusalsLeaveNoTrace(c: Config, start: real, xs: seq<Request>, r: Request, ys: seq<Request>)
    requires c.Valid() && RefillsWithinIdleLimit(c) && TimeOrdered(xs + [r] + ys, start)
    requires !Answers(c, State(map[], start), xs + [r] + ys)[|xs|]
    ensures var all := Answers(c, State(map[], start), xs + [r] + ys);
      Answers(c, State(map[], start), xs + ys) == all[..|xs|] + all[|xs| + 1..]
  {
    OrderedWithout(xs, r, ys, start);
    SameAnswers(c, State(map[], start), map[], start, xs + [r] + ys);
    SameAnswers(c, State(map[], start), map[], start, xs + ys);
    hide Answers, PlainAnswers, TimeOrdered, RefillsWithinIdleLimit;
    RefusalsLeaveNoTrace(c, xs, r, ys);
  }

  /** Every ten minutes, buckets not seen for an hour go; no others ever do. */
  lemma ForgottenIff(s: State, t: real, h: Host)
    ensures h in Pruned(s, t).buckets <==>
      h in s.buckets && (t - s.lastScan <= 600.0 || t - s.buckets[h].lastSeen <= 3600.0)
    ensures h in Pruned(s, t).buckets ==> Pruned(s, t).buckets[h] == s.buckets[h]
  {
  }

  // ---------- how much any window lets through ----------

  function One(b: bool): nat { if b then 1 else 0 }

  function Granted(h: Host, reqs: seq<Request>, answers: seq<bool>): nat
    requires |reqs| == |answers|
  {
    if reqs == [] then 0
    else One(reqs[0].host == h && answers[0]) + Granted(h, reqs[1..], answers[1..])
  }

  ghost predicate Sane(m: Memory, t: real) {
    forall g :: g in m ==> m[g].last <= t && 0.0 <= m[g].tokens
  }

  lemma SaneStep(c: Config, m: Memory, r: Request, from: real)
    requires c.Valid() && Sane(m, from) && from <= r.at
    ensures Sane(PlainStep(c, m, r.host, r.at).0, r.at)
  {
  }

  lemma InHandBounds(c: Config, m: Memory, h: Host, t: real)
    requires c.Valid() && Sane(m, t)
    ensures 0.0 <= InHand(c, m, h, t) <= c.burst as real
  {
  }

  /** One request: a token granted and the tokens left afterwards were in hand or were earned meanwhile. */
  lemma StepConservation(c: Config, m: Memory, h: Host, r: Request, from: real)
    requires c.Valid() && Sane(m, from) && from <= r.at
    ensures var (m1, ok) := PlainStep(c, m, r.host, r.at);
            One(r.host == h && ok) as real + InHand(c, m1, h, r.at)
            <= InHand(c, m, h, from) + (Earned(c, r.at) - Earned(c, from))
  {
    hide Earned;
    EarnedMonotone(c, from, r.at);
  }

  lemma GrantedCons(c: Config, m: Memory, h: Host, reqs: seq<Request>)
    requires reqs != []
    ensures var (m1, ok) := PlainStep(c, m, reqs[0].host, reqs[0].at);
            Granted(h, reqs, PlainAnswers(c, m, reqs))
            == One(reqs[0].host == h && ok) + Granted(h, reqs[1..], PlainAnswers(c, m1, reqs[1..]))
  {
  }

  /** Tokens are conserved over any stretch of requests. */
  lemma {:induction false} Conservation(c: Config, m: Memory, h: Host, reqs: seq<Request>, from: real, to: real)
    requires c.Valid() && TimeOrdered(reqs, from) && from <= to
    requires reqs == [] || reqs[|reqs| - 1].at <= to
    requires Sane(m, from)
    ensures Granted(h, reqs, PlainAnswers(c, m, reqs)) as real <= InHand(c, m, h,
        from) + (Earned(c, to) - Earned(c, from))
    decreases |reqs|
  {
    hide Earned, PlainStep, InHand;
    if reqs == [] {
      EarnedMonotone(c, from, to);
      InHandBounds(c, m, h, from);
    } else {
      var r, rest := reqs[0], reqs[1..];
      var m1 := PlainStep(c, m, r.host, r.at).0;
      LastNotBefore(reqs, from);
      SaneStep(c, m, r, from);
      Conservation(c, m1, h, rest, r.at, to);
      StepConservation(c, m, h, r, from);
      GrantedCons(c, m, h, reqs);
    }
  }

  lemma {:induction false} LastNotBefore(reqs: seq<Request>, from: real)
    requires reqs != [] && TimeOrdered(reqs, from)
    ensures from <= reqs[0].at <= reqs[|reqs| - 1].at
    decreases |reqs|
  {
    if |reqs| > 1 {
      LastNotBefore(reqs[1..], reqs[0].at);
    }
  }

  lemma {:induction false} SaneAfter(c: Config, m: Memory, reqs: seq<Request>, i: nat, from: real)
    requires c.Valid() && TimeOrdered(reqs, from) && i < |reqs| && Sane(m, from)
    ensures TimeOrdered(reqs[i..], reqs[i].at)
    ensures Sane(PlainAfter(c, m, reqs[..i]), reqs[i].at)
    decreases i
  {
    hide Earned, PlainStep;
    var r := reqs[0];
    if i == 0 {
      assert reqs[i..] == reqs;
    } else {
      SaneStep(c, m, r, from);
      SaneAfter(c, PlainStep(c, m, r.host, r.at).0, reqs[1..], i - 1, r.at);
      assert reqs[1..][i - 1..] == reqs[i..];
      assert reqs[..i][1..] == reqs[1..][..i - 1];
    }
  }

  lemma {:induction false} OrderedPrefix(reqs: seq<Request>, n: nat, from: real)
    requires TimeOrdered(reqs, from) && n <= |reqs|
    ensures TimeOrdered(reqs[..n], from)
    decreases n
  {
    if n > 0 {
      OrderedPrefix(reqs[1..], n - 1, reqs[0].at);
      assert reqs[..n][1..] == reqs[1..][..n - 1];
    }
  }

  lemma WindowOrdered(reqs: seq<Request>, i: nat, j: nat, from: real)
    requires i < j <= |reqs| && TimeOrdered(reqs[i..], from)
    ensures TimeOrdered(reqs[i..j], from) && from <= reqs[j - 1].at
  {
    assert reqs[i..j] == reqs[i..][..j - i];
    OrderedPrefix(reqs[i..], j - i, from);
    LastNotBefore(reqs[i..j], from);
  }

  lemma WindowAnswers(c: Config, m: Memory, reqs: seq<Request>, i: nat, j: nat)
    requires i <= j <= |reqs|
    ensures PlainAnswers(c, m, reqs)[i..j] == PlainAnswers(c, PlainAfter(c, m, reqs[..i]), reqs[i..j])
  {
    hide Answers, PlainAnswers, PlainAfter;
    var m1, head, tail, window := PlainAfter(c, m, reqs[..i]), reqs[..i], reqs[i..], reqs[i..j];
    assert reqs == head + tail && tail == window + reqs[j..];
    AnswersConcat(c, State(map[], 0.0), m, head, tail);
    AnswersConcat(c, State(map[], 0.0), m1, window, reqs[j..]);
  }

  /** The never-forgetting limiter over any window of a run. */
  lemma PlainWindowBound(c: Config, start: real, reqs: seq<Request>, i: nat, j: nat, h: Host)
    requires c.Valid() && TimeOrdered(reqs, start) && i < j <= |reqs|
    ensures Granted(h, reqs[i..j], PlainAnswers(c, map[], reqs)[i..j]) as real
            <= c.burst as real + (Earned(c, reqs[j - 1].at) - Earned(c, reqs[i].at))
  {
    hide Earned, PlainStep, InHand, PlainAnswers, PlainAfter, Granted;
    WindowAnswers(c, map[], reqs, i, j);
    var m, from, window := PlainAfter(c, map[], reqs[..i]), reqs[i].at, reqs[i..j];
    SaneAfter(c, map[], reqs, i, start);
    WindowOrdered(reqs, i, j, from);
    Conservation(c, m, h, window, from, reqs[j - 1].at);
    InHandBounds(c, m, h, from);
  }

  lemma EarnedDifference(c: Config, x: real, y: real)
    ensures Earned(c, y) - Earned(c, x) == Earned(c, y - x)
  {
  }

  /** Whatever the window of requests, and however many prunes fall inside it, one host is granted at
      most its burst plus the refill of the window. */
  lemma WindowBound(c: Config, start: real, reqs: seq<Request>, i: nat, j: nat, h: Host)
    requires c.Valid() && RefillsWithinIdleLimit(c)
    requires TimeOrdered(reqs, start) && i < j <= |reqs|
    ensures WithinBound(c, start, reqs, i, j, h)
  {
    hide Earned, Step, PlainStep, PlainAnswers, Answers, Granted;
    SameAnswers(c, State(map[], start), map[], start, reqs);
    PlainWindowBound(c, start, reqs, i, j, h);
    EarnedDifference(c, reqs[i].at, reqs[j - 1].at);
  }

  ghost predicate WithinBound(c: Config, start: real, reqs: seq<Request>, i: nat, j: nat, h: Host)
    requires i < j <= |reqs|
  {
    Granted(h, reqs[i..j], Answers(c, State(map[], start), reqs)[i..j]) as real
      <= c.burst as real + Earned(c, reqs[j - 1].at - reqs[i].at)
  }

  lemma {:induction false} AllOfThemGranted(h: Host, reqs: seq<Request>, answers: seq<bool>)
    requires |reqs| == |answers| && AllGranted(answers) && forall i :: 0 <= i < |reqs| ==> reqs[i].host == h
    ensures Granted(h, reqs, answers) == |reqs|
    decreases |reqs|
  {
    if reqs != [] {
      AllOfThemGranted(h, reqs[1..], answers[1..]);
    }
  }

  lemma {:induction false} RepeatHas(h: Host, t: real, n: nat)
    ensures forall i :: 0 <= i < n ==> Repeat(h, t, n)[i] == Request(h, t)
    decreases n
  {
    if n > 0 { RepeatHas(h, t, n - 1); }
  }

  /** Two bursts in a window worth less than one. */
  lemma BoundIsBroken(c: Config) returns (reqs: seq<Request>)
    requires c.Valid() && !RefillsWithinIdleLimit(c)
    ensures |reqs| > 0 && TimeOrdered(reqs, 0.0) && !WithinBound(c, 0.0, reqs, 0, |reqs|, "h")
  {
    hide Earned, Answers, PlainAnswers, Repeat, Granted;
    var t;
    reqs, t := TwoBursts(c);
    var n := c.burst;
    RepeatHas("h", 0.0, n);
    RepeatHas("h", t, n);
    var answers := Answers(c, State(map[], 0.0), reqs);
    assert reqs[0..|reqs|] == reqs && answers[0..|answers|] == answers;
    AllOfThemGranted("h", reqs, answers);
    assert reqs[0].at == 0.0 && reqs[|reqs| - 1].at == t;
    EarnedDifference(c, 0.0, t);
  }

  /** The bound holds of every window of every time-ordered run exactly when an idle hour refills the whole
      burst: for other configurations forgetting gives a second burst away. */
  lemma WindowBoundIff(c: Config)
    requires c.Valid()
    ensures c.burst as real <= c.rate * 3600.0 <==>
      forall start, reqs, i: nat, j: nat, h :: TimeOrdered(reqs, start) && i < j <= |reqs| ==>
          WithinBound(c, start, reqs, i, j, h)
  {
    hide WithinBound, TimeOrdered;
    if RefillsWithinIdleLimit(c) {
      forall start, reqs, i: nat, j: nat, h | TimeOrdered(reqs, start) &&
          i < j <= |reqs| ensures WithinBound(c, start, reqs, i, j, h) {
        WindowBound(c, start, reqs, i, j, h);
      }
    } else {
      var reqs := BoundIsBroken(c);
    }
  }
}
