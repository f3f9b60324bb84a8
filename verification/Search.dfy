/** Key search: matches filtered by what the caller may read, with one decision per config remembered, against
    the list of visible matches; and what the cap on raw matches does to it.
 */
module Search {

  type Id = string

  datatype Match = Match(key: string, config: Id)

  /** The decision for one config, with the names to show. */
  datatype Display = Display(allowed: bool, project: Id, projectName: string, env: Id, envSlug: string,
      configName: string)

  datatype Hit = Hit(key: string, config: Id, display: Display)

  datatype Response = Response(results: seq<Hit>, truncated: bool)

  const STORE_CAP := 200

  // ---------- what the caller may see ----------

  function Visible(ms: seq<Match>, resolve: Id -> Display): seq<Hit> {
    if ms == [] then []
    else
      var rest, m := Visible(ms[..|ms| - 1], resolve), ms[|ms| - 1];
      if resolve(m.config).allowed then rest + [Hit(m.key, m.config, resolve(m.config))] else rest
  }

  /** The answer as a function of the visible matches alone. */
  function Answer(visible: seq<Hit>, limit: nat): Response {
    if |visible| > limit then Response(visible[..limit], true) else Response(visible, false)
  }

  lemma {:induction false} VisibleAppend(a: seq<Match>, b: seq<Match>, resolve: Id -> Display)
    ensures Visible(a + b, resolve) == Visible(a, resolve) + Visible(b, resolve)
    decreases |b|
  {
    if b == [] {
      assert a + b == a;
    } else {
      assert (a + b)[..|a + b| - 1] == a + b[..|b| - 1];
      VisibleAppend(a, b[..|b| - 1], resolve);
    }
  }

  /** A single match is visible exactly if its config may be read, under its own key and names. */
  lemma VisibleOne(m: Match, resolve: Id -> Display)
    ensures Visible([m], resolve) ==
      if resolve(m.config).allowed then [Hit(m.key, m.config, resolve(m.config))] else []
  {
  }

  /** The answer is as many of the first visible matches as fit, and says whether there are more. */
  lemma AnswerIs(visible: seq<Hit>, limit: nat)
    ensures Answer(visible, limit).results <= visible
    ensures |Answer(visible, limit).results| == if |visible| < limit then |visible| else limit
    ensures Answer(visible, limit).truncated <==> |visible| > limit
  {
  }

  // ---------- the handler's loop ----------

  /** One pass with a memo of the decisions, stopping at the first visible match past the page: exactly the
      first `limit` visible matches, and truncated exactly if there are more. */
  method SearchKeys(ms: seq<Match>, resolve: Id -> Display, limit: nat) returns (r: Response)
    ensures r == Answer(Visible(ms, resolve), limit)
  {
    var cache: map<Id, Display> := map[];
    var results: seq<Hit> := [];
    for i := 0 to |ms|
      invariant forall c :: c in cache ==> cache[c] == resolve(c)
      invariant results == Visible(ms[..i], resolve) && |results| <= limit
    {
      assert ms[..i + 1][..i] == ms[..i];
      var m := ms[i];
      if m.config !in cache {
        cache := cache[m.config := resolve(m.config)];
      }
      var disp := cache[m.config];
      if !disp.allowed {
        continue;
      }
      if |results| >= limit {
        assert ms == ms[..i + 1] + ms[i + 1..];
        VisibleAppend(ms[..i + 1], ms[i + 1..], resolve);
        return Response(results, true);
      }
      results := results + [Hit(m.key, m.config, disp)];
    }
    assert ms[..|ms|] == ms;
    return Response(results, false);
  }

  // ---------- nothing hidden shows ----------

  /** A match the caller may not read can be added or removed anywhere without a trace. */
  lemma HiddenMatchesDoNotShow(a: seq<Match>, m: Match, b: seq<Match>, resolve: Id -> Display, limit: nat)
    requires !resolve(m.config).allowed
    ensures Answer(Visible(a + [m] + b, resolve), limit) == Answer(Visible(a + b, resolve), limit)
  {
    VisibleAppend(a + [m], b, resolve);
    VisibleAppend(a, [m], resolve);
    VisibleAppend(a, b, resolve);
    assert Visible([m], resolve) == [];
  }

  /** Two systems, each with its own matches and its own decisions, that agree on what the caller may see give
      the same answer, whatever else they hold -- and only those do for every limit. */
  lemma OnlyTheVisibleMatters(ms: seq<Match>, ns: seq<Match>, f: Id -> Display, g: Id -> Display)
    ensures Visible(ms, f) == Visible(ns, g) <==> forall limit: nat ::
        Answer(Visible(ms, f), limit) == Answer(Visible(ns, g), limit)
  {
    var x, y := Visible(ms, f), Visible(ns, g);
    if forall limit: nat :: Answer(x, limit) == Answer(y, limit) {
      assert Answer(x, |x| + |y|) == Answer(y, |x| + |y|);
    }
  }

  // ---------- the store's cap comes before the decisions ----------

  function Capped(ms: seq<Match>): seq<Match> { if |ms| > STORE_CAP then ms[..STORE_CAP] else ms }

  /** The store hands over at most so many raw matches, readable or not. The answer is still the one for all
      of them exactly if no readable match was cut off or the page was overfull without it: beyond the cap,
      matches the caller may not read can push readable ones out. */
  lemma CapShowsIff(ms: seq<Match>, resolve: Id -> Display, limit: nat)
    ensures Answer(Visible(Capped(ms), resolve), limit) == Answer(Visible(ms, resolve), limit) <==>
      |ms| <= STORE_CAP || |Visible(ms[..STORE_CAP], resolve)| > limit || Visible(ms[STORE_CAP..], resolve) == []
  {
    if |ms| > STORE_CAP {
      var front, back := Visible(ms[..STORE_CAP], resolve), Visible(ms[STORE_CAP..], resolve);
      assert ms == ms[..STORE_CAP] + ms[STORE_CAP..];
      VisibleAppend(ms[..STORE_CAP], ms[STORE_CAP..], resolve);
      assert Visible(ms, resolve) == front + back;
      if |front| > limit {
        assert (front + back)[..limit] == front[..limit];
      } else if back == [] {
        assert front + back == front;
      } else if |front| < limit {
        assert |Answer(front + back, limit).results| > |front|;
      }
    }
  }
}
