/** Levenshtein distance as `janus doctor` computes it (cmd/janus/doctor.go), against the length of the
    shortest chain of single-character edits, with the laws of a metric.

    Go indexes strings by byte, so a text is a sequence of bytes.
 */
module EditDistance {

  newtype byte = x: int | 0 <= x < 256
  type Text = seq<byte>

  // ---------- reference: chains of single edits ----------

  /** One keystroke-sized change, at any position of the text. */
  datatype Edit =
    | Insert(at: nat, c: byte)
    | Delete(at: nat)
    | Substitute(at: nat, c: byte)

  predicate Enabled(e: Edit, s: Text) {
    if e.Insert? then e.at <= |s| else e.at < |s|
  }

  function ApplyEdit(e: Edit, s: Text): Text
    requires Enabled(e, s)
  {
    match e
    case Insert(i, c) => s[..i] + [c] + s[i..]
    case Delete(i) => s[..i] + s[i + 1..]
    case Substitute(i, c) => s[..i] + [c] + s[i + 1..]
  }

  /** `edits`, applied one after the other, turn `a` into `b`. */
  predicate Rewrites(a: Text, edits: seq<Edit>, b: Text)
    decreases |edits|
  {
    if edits == [] then a == b
    else Enabled(edits[0], a) && Rewrites(ApplyEdit(edits[0], a), edits[1..], b)
  }

  // ---------- the recurrence behind the table ----------

  function Min3(a: int, b: int, c: int): (r: int)
    ensures r <= a && r <= b && r <= c
    ensures r == a || r == b || r == c
  {
    var m := if b < a then b else a;
    if c < m then c else m
  }

  function Cost(x: byte, y: byte): nat { if x == y then 0 else 1 }

  function Init(s: Text): Text
    requires s != []
  {
    s[..|s| - 1]
  }

  function Last(s: Text): byte
    requires s != []
  {
    s[|s| - 1]
  }

  /** Entry (|a|, |b|) of the full dynamic-programming table. */
  function Lev(a: Text, b: Text): nat
    decreases |a| + |b|
  {
    if a == [] then |b|
    else if b == [] then |a|
    else
      Min3(Lev(a, Init(b)) + 1, Lev(Init(a), b) + 1, Lev(Init(a), Init(b)) + Cost(Last(a), Last(b)))
  }

  lemma {:induction false} LevBounds(a: Text, b: Text)
    ensures |a| - |b| <= Lev(a, b) && |b| - |a| <= Lev(a, b) && Lev(a, b) <= |a| + |b|
    decreases |a| + |b|
  {
    if a != [] && b != [] {
      LevBounds(a, Init(b));
      LevBounds(Init(a), b);
      LevBounds(Init(a), Init(b));
    }
  }

  /** The distance is zero exactly on equal texts. */
  lemma {:induction false} LevZeroIffEqual(a: Text, b: Text)
    ensures Lev(a, b) == 0 <==> a == b
    decreases |a| + |b|
  {
    if a != [] && b != [] {
      LevZeroIffEqual(Init(a), Init(b));
      assert a == Init(a) + [Last(a)] && b == Init(b) + [Last(b)];
    }
  }

  lemma {:induction false} LevSymmetric(a: Text, b: Text)
    ensures Lev(a, b) == Lev(b, a)
    decreases |a| + |b|
  {
    if a != [] && b != [] {
      LevSymmetric(a, Init(b));
      LevSymmetric(Init(a), b);
      LevSymmetric(Init(a), Init(b));
    }
  }

  /** Passing through any third text never shortens the way. */
  lemma {:induction false} LevTriangle(a: Text, b: Text, c: Text)
    ensures Lev(a, c) <= Lev(a, b) + Lev(b, c)
    decreases |a| + |b| + |c|
  {
    if a == [] || b == [] || c == [] {
      LevBounds(a, b);
      LevBounds(b, c);
      LevBounds(a, c);
    } else if Lev(a, b) == Lev(Init(a), b) + 1 {
      LevTriangle(Init(a), b, c);
    } else if Lev(b, c) == Lev(b, Init(c)) + 1 {
      LevTriangle(a, b, Init(c));
    } else if Lev(a, b) == Lev(a, Init(b)) + 1 {
      if Lev(b, c) == Lev(Init(b), c) + 1 {
        LevTriangle(a, Init(b), c);
      } else {
        LevTriangle(a, Init(b), Init(c));
      }
    } else if Lev(b, c) == Lev(Init(b), c) + 1 {
      LevTriangle(Init(a), Init(b), c);
    } else {
      LevTriangle(Init(a), Init(b), Init(c));
    }
  }

  // ---------- the recurrence is the length of the shortest chain ----------

  lemma {:induction false} LevCommonSuffix(p: Text, r: Text, q: Text)
    ensures Lev(p + q, r + q) <= Lev(p, r)
    decreases |q|
  {
    if q == [] {
      assert p + q == p && r + q == r;
    } else {
      assert Init(p + q) == p + Init(q) && Init(r + q) == r + Init(q);
      LevCommonSuffix(p, r, Init(q));
    }
  }

  lemma OneLetterApart(p: Text, r: Text)
    requires (p != [] && Init(p) == r) || (r != [] && Init(r) == p) ||
             (p != [] && r != [] && Init(p) == Init(r))
    ensures Lev(p, r) <= 1
  {
    LevZeroIffEqual(p, p);
    LevZeroIffEqual(r, r);
    if p != [] && r != [] && Init(p) == Init(r) {
      LevZeroIffEqual(Init(p), Init(r));
    }
  }

  /** One edit is at distance at most one. */
  lemma OneEdit(e: Edit, s: Text)
    requires Enabled(e, s)
    ensures Lev(s, ApplyEdit(e, s)) <= 1
  {
    var p := s[..e.at];
    var before := if e.Insert? then p else p + [s[e.at]];
    var after := if e.Delete? then p else p + [e.c];
    var rest := if e.Insert? then s[e.at..] else s[e.at + 1..];
    assert before + rest == s;
    assert after + rest == ApplyEdit(e, s);
    OneLetterApart(before, after);
    LevCommonSuffix(before, after, rest);
  }

  /** No chain of edits is shorter than the distance. */
  lemma {:induction false} ChainsAreNoShorter(a: Text, edits: seq<Edit>, b: Text)
    requires Rewrites(a, edits, b)
    ensures Lev(a, b) <= |edits|
    decreases |edits|
  {
    if edits == [] {
      LevZeroIffEqual(a, b);
    } else {
      var a1 := ApplyEdit(edits[0], a);
      OneEdit(edits[0], a);
      ChainsAreNoShorter(a1, edits[1..], b);
      LevTriangle(a, a1, b);
    }
  }

  lemma {:induction false} ChainsCompose(a: Text, es: seq<Edit>, b: Text, fs: seq<Edit>, c: Text)
    requires Rewrites(a, es, b) && Rewrites(b, fs, c)
    ensures Rewrites(a, es + fs, c)
    decreases |es|
  {
    hide ApplyEdit;
    if es == [] {
      assert es + fs == fs;
    } else {
      ChainsCompose(ApplyEdit(es[0], a), es[1..], b, fs, c);
      assert (es + fs)[1..] == es[1..] + fs;
    }
  }

  lemma EditKeepsSuffix(e: Edit, a: Text, t: Text)
    requires Enabled(e, a)
    ensures Enabled(e, a + t) && ApplyEdit(e, a + t) == ApplyEdit(e, a) + t
  {
    assert (a + t)[..e.at] == a[..e.at];
    match e
    case Insert(i, c) => assert (a + t)[i..] == a[i..] + t;
    case Delete(i) => assert (a + t)[i + 1..] == a[i + 1..] + t;
    case Substitute(i, c) => assert (a + t)[i + 1..] == a[i + 1..] + t;
  }

  lemma {:induction false} ChainsKeepSuffix(a: Text, es: seq<Edit>, b: Text, t: Text)
    requires Rewrites(a, es, b)
    ensures Rewrites(a + t, es, b + t)
    decreases |es|
  {
    hide ApplyEdit;
    if es != [] {
      var e := es[0];
      EditKeepsSuffix(e, a, t);
      ChainsKeepSuffix(ApplyEdit(e, a), es[1..], b, t);
    }
  }

  /** A chain as long as the distance exists: the table can be read back into edits. */
  lemma {:induction false} ShortestChain(a: Text, b: Text) returns (es: seq<Edit>)
    ensures Rewrites(a, es, b) && |es| == Lev(a, b)
    decreases |a| + |b|
  {
    if a == [] && b == [] {
      es := [];
    } else if b != [] && (a == [] || Lev(a, b) == Lev(a, Init(b)) + 1) {
      var front := ShortestChain(a, Init(b));
      es := AppendInsert(a, front, b);
    } else if a != [] && (b == [] || Lev(a, b) == Lev(Init(a), b) + 1) {
      var rest := ShortestChain(Init(a), b);
      var e := Delete(|a| - 1);
      assert ApplyEdit(e, a) == Init(a);
      es := [e] + rest;
      assert es[1..] == rest;
    } else {
      var front := ShortestChain(Init(a), Init(b));
      es := AppendSubstitute(a, front, b);
    }
  }

  lemma ChainOfOne(a: Text, e: Edit, b: Text)
    requires Enabled(e, a) && ApplyEdit(e, a) == b
    ensures Rewrites(a, [e], b)
  {
  }

  lemma AppendInsert(a: Text, front: seq<Edit>, b: Text) returns (es: seq<Edit>)
    requires b != [] && Rewrites(a, front, Init(b))
    ensures Rewrites(a, es, b) && |es| == |front| + 1
  {
    hide Rewrites;
    var e := Insert(|b| - 1, Last(b));
    assert ApplyEdit(e, Init(b)) == b;
    ChainOfOne(Init(b), e, b);
    ChainsCompose(a, front, Init(b), [e], b);
    es := front + [e];
  }

  lemma AppendSubstitute(a: Text, front: seq<Edit>, b: Text) returns (es: seq<Edit>)
    requires a != [] && b != [] && Rewrites(Init(a), front, Init(b))
    ensures Rewrites(a, es, b) && |es| == |front| + Cost(Last(a), Last(b))
  {
    hide Rewrites;
    var t := [Last(a)];
    ChainsKeepSuffix(Init(a), front, Init(b), t);
    assert Init(a) + t == a;
    if Last(a) == Last(b) {
      assert Init(b) + t == b;
      es := front;
    } else {
      var e := Substitute(|b| - 1, Last(b));
      SubstituteLast(Init(b), Last(a), b);
      ChainOfOne(Init(b) + t, e, b);
      ChainsCompose(a, front, Init(b) + t, [e], b);
      es := front + [e];
    }
  }

  lemma SubstituteLast(p: Text, c: byte, b: Text)
    requires b != [] && p == Init(b)
    ensures ApplyEdit(Substitute(|b| - 1, Last(b)), p + [c]) == b
  {
  }

  // ---------- the two-row loop ----------

  /** The distance: two rows of the table, swapped after every character of `a`. The result is the
      length of the shortest chain of edits from `a` to `b`. */
  method Distance(a: Text, b: Text) returns (d: nat)
    ensures d == Lev(a, b)
    ensures exists es :: Rewrites(a, es, b) && |es| == d
    ensures forall es :: Rewrites(a, es, b) ==> d <= |es|
  {
    if a == b {
      LevZeroIffEqual(a, b);
      d := 0;
    } else {
      d := TwoRows(a, b);
    }
    var es := ShortestChain(a, b);
    forall fs | Rewrites(a, fs, b) ensures d <= |fs| {
      ChainsAreNoShorter(a, fs, b);
    }
  }

  /** Entry (i, j) of the table. */
  function Entry(a: Text, b: Text, i: nat, j: nat): nat
    requires i <= |a| && j <= |b|
  {
    Lev(a[..i], b[..j])
  }

  lemma EntryEdges(a: Text, b: Text)
    ensures forall j :: 0 <= j <= |b| ==> Entry(a, b, 0, j) == j
    ensures forall i :: 0 <= i <= |a| ==> Entry(a, b, i, 0) == i
    ensures Entry(a, b, |a|, |b|) == Lev(a, b)
  {
    assert a[..|a|] == a && b[..|b|] == b;
  }

  lemma EntryStep(a: Text, b: Text, i: nat, j: nat)
    requires 1 <= i <= |a| && 1 <= j <= |b|
    ensures Entry(a, b, i, j) ==
            Min3(Entry(a, b, i, j - 1) + 1, Entry(a, b, i - 1, j) + 1,
                Entry(a, b, i - 1, j - 1) + Cost(a[i - 1], b[j - 1]))
  {
    var x, y := a[..i], b[..j];
    assert Init(x) == a[..i - 1] && Init(y) == b[..j - 1] && Last(x) == a[i - 1] && Last(y) == b[j - 1];
  }

  method TwoRows(a: Text, b: Text) returns (d: nat)
    ensures d == Lev(a, b)
  {
    EntryEdges(a, b);
    hide Entry, Lev;
    var prev := new nat[|b| + 1](_ => 0);
    var cur := new nat[|b| + 1](_ => 0);
    for j := 0 to |b| + 1
      invariant forall k :: 0 <= k < j ==> prev[k] == k
    {
      prev[j] := j;
    }
    for i := 1 to |a| + 1
      invariant prev != cur && prev.Length == cur.Length == |b| + 1
      invariant fresh(prev) && fresh(cur)
      invariant forall k :: 0 <= k <= |b| ==> prev[k] == Entry(a, b, i - 1, k)
    {
      FillRow(a, b, i, prev, cur);
      prev, cur := cur, prev;
    }
    d := prev[|b|];
  }

  /** The inner loop: row `i` of the table from row `i - 1`. */
  method FillRow(a: Text, b: Text, i: nat, prev: array<nat>, cur: array<nat>)
    requires 1 <= i <= |a|
    requires prev != cur && prev.Length == cur.Length == |b| + 1
    requires forall k :: 0 <= k <= |b| ==> prev[k] == Entry(a, b, i - 1, k)
    modifies cur
    ensures forall k :: 0 <= k <= |b| ==> cur[k] == Entry(a, b, i, k)
  {
    EntryEdges(a, b);
    hide Entry;
    cur[0] := i;
    for j := 1 to |b| + 1
      invariant forall k :: 0 <= k < j ==> cur[k] == Entry(a, b, i, k)
    {
      var cost := if a[i - 1] == b[j - 1] then 0 else 1;
      EntryStep(a, b, i, j);
      cur[j] := Min3(cur[j - 1] + 1, prev[j] + 1, prev[j - 1] + cost);
    }
  }

  // ---------- the suggestion for a misspelled variable ----------

  /** One edit per eight characters, at least one and at most three. */
  function Budget(k: Text): (n: nat)
    ensures 1 <= n <= 3 && (n >= 2 <==> |k| >= 16) && (n == 3 <==> |k| >= 24)
  {
    var n := |k| / 8;
    if n < 1 then 1 else if n > 3 then 3 else n
  }

  /** The closest known name, in whatever order the map is walked; "" when none is within budget. */
  method NearestKnownEnv(k: Text, known: set<Text>) returns (best: Text)
    ensures (exists n :: n in known && Lev(k, n) <= Budget(k)) ==>
              best in known && Lev(k, best) <= Budget(k) && forall n :: n in known ==> Lev(k, best) <= Lev(k, n)
    ensures (forall n :: n in known ==> Lev(k, n) > Budget(k)) ==> best == []
  {
    best := [];
    var bestDist: int := 0x4000_0000;
    var todo := known;
    while todo != {}
      invariant todo <= known
      invariant bestDist <= 0x4000_0000
      invariant bestDist < 0x4000_0000 ==> best in known && Lev(k, best) == bestDist
      invariant forall n :: n in known && n !in todo ==> bestDist <= Lev(k, n)
      decreases |todo|
    {
      var n :| n in todo;
      todo := todo - {n};
      var d := Distance(k, n);
      if d < bestDist {
        best, bestDist := n, d;
      }
    }
    if bestDist > Budget(k) {
      best := [];
    }
  }
}
