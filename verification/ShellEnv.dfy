/** The .env printer against a strict reader of shell assignments: quoting by single quotes and backslash,
    comments, and newlines as in section 2.2 and 2.3 of POSIX.1-2017 XCU. The reader refuses any unquoted
    character the shell could give a meaning to.
 */
module ShellEnv {

  // ---------- names and values ----------

  predicate Letter(c: char) { 'A' <= c <= 'Z' || 'a' <= c <= 'z' || c == '_' }

  predicate Digit(c: char) { '0' <= c <= '9' }

  predicate IsEnvVarName(k: string) {
    |k| > 0 && Letter(k[0]) && forall i :: 0 < i < |k| ==> Letter(k[i]) || Digit(k[i])
  }

  predicate SafeChar(c: char) { Letter(c) || Digit(c) || c == '-' || c == '.' || c == '/' || c == ':' || c == '@' }

  /** Each quote closes the quoted stretch, adds an escaped quote, and opens it again. */
  function Escaped(v: string): string {
    if v == "" then "" else (if v[0] == '\'' then "'\\''" else [v[0]]) + Escaped(v[1..])
  }

  predicate Safe(v: string) { v != "" && forall i :: 0 <= i < |v| ==> SafeChar(v[i]) }

  function ShellQuote(v: string): string {
    if Safe(v) then v else "'" + Escaped(v) + "'"
  }

  /** A value is printed as it is exactly if it is not empty and made of letters, digits and `_-./:@` alone. */
  lemma BareIff(v: string)
    ensures ShellQuote(v) == v <==>
      && v != ""
      && forall i :: 0 <= i < |v| ==>
           || 'A' <= v[i] <= 'Z' || 'a' <= v[i] <= 'z' || '0' <= v[i] <= '9'
           || v[i] == '_' || v[i] == '-' || v[i] == '.' || v[i] == '/' || v[i] == ':' || v[i] == '@'
  {
    if !Safe(v) {
      EscapedIsNoShorter(v);
      assert |ShellQuote(v)| > |v|;
    }
  }

  lemma {:induction false} EscapedIsNoShorter(v: string)
    ensures |Escaped(v)| >= |v|
  {
    if v != "" { EscapedIsNoShorter(v[1..]); }
  }

  /** Names start with a letter or an underscore and go on with those or digits. */
  lemma NamesGrow(k: string, c: char)
    ensures !IsEnvVarName("")
    ensures IsEnvVarName([c]) <==> 'A' <= c <= 'Z' || 'a' <= c <= 'z' || c == '_'
    ensures k != "" ==>
      (IsEnvVarName(k + [c]) <==>
         IsEnvVarName(k) && ('A' <= c <= 'Z' || 'a' <= c <= 'z' || c == '_' || '0' <= c <= '9'))
  {
    var more := k + [c];
    if k != "" {
      assert more[|k|] == c && forall i :: 0 <= i < |k| ==> more[i] == k[i];
    }
  }

  // ---------- the printer ----------

  function Assignment(k: string, v: string): string { k + "=" + ShellQuote(v) + "\n" }

  function Skipped(): (r: string)
    ensures |r| > 0 && r[0] == '#' && forall i :: 0 <= i < |r| ==> r[i] != '\n'
  {
    "# skipped: "
  }

  function Remark(k: string): string { Skipped() + k + "\n" }

  function Assignments(m: map<string, string>, keys: seq<string>): string
    requires forall k :: k in keys ==> k in m
  {
    if keys == [] then ""
    else (if IsEnvVarName(keys[0]) then Assignment(keys[0], m[keys[0]]) else "") + Assignments(m, keys[1..])
  }

  function Remarks(keys: seq<string>): string {
    if keys == [] then "" else (if IsEnvVarName(keys[0]) then "" else Remark(keys[0])) + Remarks(keys[1..])
  }

  lemma {:induction false} AssignmentsSnoc(m: map<string, string>, keys: seq<string>, k: string)
    requires k in m && forall k :: k in keys ==> k in m
    ensures Assignments(m, keys + [k]) == Assignments(m, keys) + if IsEnvVarName(k) then Assignment(k, m[k]) else ""
  {
    hide Assignment, IsEnvVarName;
    if keys == [] {
      assert keys + [k] == [k];
    } else {
      assert (keys + [k])[1..] == keys[1..] + [k];
      AssignmentsSnoc(m, keys[1..], k);
      var head := if IsEnvVarName(keys[0]) then Assignment(keys[0], m[keys[0]]) else "";
      Assoc(head, Assignments(m, keys[1..]), if IsEnvVarName(k) then Assignment(k, m[k]) else "");
    }
  }

  lemma {:induction false} RemarksSnoc(keys: seq<string>, k: string)
    ensures Remarks(keys + [k]) == Remarks(keys) + if IsEnvVarName(k) then "" else Remark(k)
  {
    hide Remark, IsEnvVarName;
    if keys == [] {
      assert keys + [k] == [k];
    } else {
      assert (keys + [k])[1..] == keys[1..] + [k];
      RemarksSnoc(keys[1..], k);
      var head, last := if IsEnvVarName(keys[0]) then "" else Remark(keys[0]), if IsEnvVarName(k)
          then "" else Remark(k);
      Assoc(head, Remarks(keys[1..]), last);
    }
  }

  /** Every key that is left out is named in a comment of its own. */
  lemma {:induction false} SkippedKeysAreNamed(keys: seq<string>, k: string) returns (before: string, after: string)
    requires k in keys && !IsEnvVarName(k)
    ensures Remarks(keys) == before + Remark(k) + after
    ensures Remark(k) == "# skipped: " + k + "\n"
  {
    assert Remark(k) == "# skipped: " + k + "\n";
    hide IsEnvVarName, Remark;
    if keys[0] == k {
      before, after := "", Remarks(keys[1..]);
    } else {
      var head := if IsEnvVarName(keys[0]) then "" else Remark(keys[0]);
      before, after := SkippedKeysAreNamed(keys[1..], k);
      Assoc(head, before + Remark(k), after);
      Assoc(head, before, Remark(k));
      before := head + before;
    }
  }

  lemma NothingPrinted(m: map<string, string>)
    ensures Assignments(m, []) == "" && Remarks([]) == ""
  {
  }

  method AppendRemarks(before: string, skipped: seq<string>) returns (out: string)
    requires forall k :: k in skipped ==> !IsEnvVarName(k)
    ensures out == before + Remarks(skipped)
  {
    NothingPrinted(map[]);
    hide Remark, Remarks, IsEnvVarName;
    out := before;
    for i := 0 to |skipped|
      invariant out == before + Remarks(skipped[..i])
    {
      assert skipped[..i + 1] == skipped[..i] + [skipped[i]];
      RemarksSnoc(skipped[..i], skipped[i]);
      Assoc(before, Remarks(skipped[..i]), Remark(skipped[i]));
      out := out + Remark(skipped[i]);
    }
    assert skipped[..|skipped|] == skipped;
  }

  /** The keys come in some order; assignments first, then a remark for every key left out. */
  method FormatEnv(m: map<string, string>, keys: seq<string>) returns (out: string)
    requires forall k :: k in keys ==> k in m
    ensures out == Assignments(m, keys) + Remarks(keys)
    ensures (forall k :: k in m ==> k in keys) && (forall k :: k in m && !IsEnvVarName(k) ==> OneLine(k)) ==>
      Read(out) == Env(map k | k in m && IsEnvVarName(k) :: m[k])
  {
    NothingPrinted(m);
    hide Assignment, Assignments, Remark, Remarks, IsEnvVarName, Read, OneLine;
    out := "";
    var skipped: seq<string> := [];
    for i := 0 to |keys|
      invariant out == Assignments(m, keys[..i])
      invariant forall k :: k in skipped ==> !IsEnvVarName(k)
      invariant Remarks(skipped) == Remarks(keys[..i])
    {
      var k := keys[i];
      assert keys[..i + 1] == keys[..i] + [k];
      AssignmentsSnoc(m, keys[..i], k);
      RemarksSnoc(keys[..i], k);
      if IsEnvVarName(k) {
        out := out + Assignment(k, m[k]);
      } else {
        RemarksSnoc(skipped, k);
        skipped := skipped + [k];
      }
    }
    assert keys[..|keys|] == keys;
    out := AppendRemarks(out, skipped);
    if (forall k :: k in m ==> k in keys) && (forall k :: k in m && !IsEnvVarName(k) ==> OneLine(k)) {
      RoundTrip(m, keys);
    }
  }

  // ---------- the reader ----------

  /** Characters that mean something to the shell when they are not quoted. */
  predicate Special(c: char) {
    || c == '|' || c == '&' || c == ';' || c == '<' || c == '>' || c == '(' || c == ')' || c == '$' || c == '`'
    || c == '\\' || c == '\"' || c == '\'' || c == ' ' || c == '\t' || c == '\n'
    || c == '*' || c == '?' || c == '[' || c == '#' || c == '~' || c == '=' || c == '%'
  }

  datatype Word = Bad | Word(value: string, rest: string)

  function Prepend(c: char, w: Word): Word { if w.Bad? then Bad else Word([c] + w.value, w.rest) }

  /** The rest of a word, outside quotes; a newline or the end of the text ends it. */
  function Unquoted(s: string): (w: Word)
    ensures w.Word? ==> |w.rest| <= |s|
    decreases |s|
  {
    if s == "" then Word("", "")
    else if s[0] == '\n' then Word("", s[1..])
    else if s[0] == '\'' then Quoted(s[1..])
    else if s[0] == '\\' then
      if |s| == 1 then Bad
      else if s[1] == '\n' then Unquoted(s[2..])
      else Prepend(s[1], Unquoted(s[2..]))
    else if Special(s[0]) then Bad
    else Prepend(s[0], Unquoted(s[1..]))
  }

  /** ... inside quotes, where everything up to the next quote stands for itself. */
  function Quoted(s: string): (w: Word)
    ensures w.Word? ==> |w.rest| <= |s|
    decreases |s|
  {
    if s == "" then Bad
    else if s[0] == '\'' then Unquoted(s[1..])
    else Prepend(s[0], Quoted(s[1..]))
  }

  /** The name in front of the first `=`. */
  function NameOf(s: string): (k: string)
    ensures |k| <= |s| && k == s[..|k|]
  {
    if s == "" || s[0] == '=' then "" else [s[0]] + NameOf(s[1..])
  }

  function AfterLine(s: string): (r: string)
    ensures |r| <= |s| && (s != "" ==> |r| < |s|)
  {
    if s == "" then "" else if s[0] == '\n' then s[1..] else AfterLine(s[1..])
  }

  datatype Env = Unreadable | Env(vars: map<string, string>)

  /** Assign before whatever follows: a later assignment of the same name wins. */
  function Assign(k: string, v: string, later: Env): Env {
    if later.Unreadable? || k in later.vars then later else Env(later.vars[k := v])
  }

  function Read(s: string): Env
    decreases |s|
  {
    if s == "" then Env(map[])
    else if s[0] == '\n' then Read(s[1..])
    else if s[0] == '#' then Read(AfterLine(s))
    else
      var k := NameOf(s);
      if !IsEnvVarName(k) || |k| == |s| then Unreadable
      else
        var w := Unquoted(s[|k| + 1..]);
        if w.Bad? then Unreadable else Assign(k, w.value, Read(w.rest))
  }

  // ---------- reading undoes printing ----------

  function PrependAll(v: string, w: Word): Word { if w.Bad? then Bad else Word(v + w.value, w.rest) }

  lemma Assoc<T>(a: seq<T>, b: seq<T>, c: seq<T>)
    ensures a + b + c == a + (b + c)
  {
  }

  lemma Front<T>(a: seq<T>, b: seq<T>)
    requires |a| > 0
    ensures (a + b)[0] == a[0] && (a + b)[1..] == a[1..] + b
  {
  }

  lemma QuotedCons(c: char, rest: string)
    ensures Quoted([c] + rest) == if c == '\'' then Unquoted(rest) else Prepend(c, Quoted(rest))
  {
  }

  lemma UnquotedCons(c: char, rest: string)
    ensures c == '\n' ==> Unquoted([c] + rest) == Word("", rest)
    ensures c == '\'' ==> Unquoted([c] + rest) == Quoted(rest)
    ensures !Special(c) ==> Unquoted([c] + rest) == Prepend(c, Unquoted(rest))
  {
  }

  lemma EscapeCons(rest: string)
    ensures Unquoted(['\\'] + (['\''] + rest)) == Prepend('\'', Unquoted(rest))
  {
    hide Quoted, Special;
    var s := ['\\'] + (['\''] + rest);
    assert s[1] == '\'' && s[2..] == rest;
  }

  lemma QuoteReads(rest: string)
    ensures Quoted("'\\''" + rest) == Prepend('\'', Quoted(rest))
  {
    hide Quoted, Unquoted;
    var r1 := ['\''] + rest;
    var r2 := ['\\'] + (['\''] + r1);
    assert "'\\''" + rest == ['\''] + r2;
    QuotedCons('\'', r2);
    EscapeCons(r1);
    UnquotedCons('\'', rest);
  }

  /** Reading a quoted stretch gives back exactly what was escaped. */
  lemma {:induction false} EscapedReads(v: string, tail: string)
    ensures Quoted(Escaped(v) + (['\''] + tail)) == PrependAll(v, Unquoted(tail))
  {
    hide Quoted, Unquoted;
    var close := ['\''] + tail;
    if v == "" {
      assert Escaped(v) + close == close;
      QuotedCons('\'', tail);
    } else {
      var rest := Escaped(v[1..]) + close;
      EscapedReads(v[1..], tail);
      assert [v[0]] + v[1..] == v;
      if v[0] == '\'' {
        Assoc("'\\''", Escaped(v[1..]), close);
        QuoteReads(rest);
      } else {
        Assoc([v[0]], Escaped(v[1..]), close);
        QuotedCons(v[0], rest);
      }
      PrependMore(v, Unquoted(tail));
    }
  }

  lemma PrependMore(v: string, w: Word)
    requires v != ""
    ensures Prepend(v[0], PrependAll(v[1..], w)) == PrependAll(v, w)
  {
  }

  lemma {:induction false} SafeReads(v: string, tail: string)
    requires forall i :: 0 <= i < |v| ==> SafeChar(v[i])
    ensures Unquoted(v + tail) == PrependAll(v, Unquoted(tail))
  {
    if v == "" {
      assert v + tail == tail;
    } else {
      assert SafeChar(v[0]) && !Special(v[0]);
      hide Unquoted;
      SafeReads(v[1..], tail);
      assert v + tail == [v[0]] + (v[1..] + tail);
      UnquotedCons(v[0], v[1..] + tail);
      PrependMore(v, Unquoted(tail));
    }
  }

  /** The core: the shell reads a printed value back as itself, whatever it holds. */
  lemma UnquoteUndoesQuote(v: string, rest: string)
    ensures Unquoted(ShellQuote(v) + (['\n'] + rest)) == Word(v, rest)
  {
    hide Unquoted, Quoted, Escaped, Special;
    var tail := ['\n'] + rest;
    UnquotedCons('\n', rest);
    if Safe(v) {
      SafeReads(v, tail);
    } else {
      var close := ['\''] + tail;
      assert ShellQuote(v) + tail == ['\''] + (Escaped(v) + close);
      UnquotedCons('\'', Escaped(v) + close);
      EscapedReads(v, tail);
    }
  }

  lemma {:induction false} NameReads(k: string, tail: string)
    requires forall i :: 0 <= i < |k| ==> k[i] != '='
    ensures NameOf(k + (['='] + tail)) == k
  {
    var rest := ['='] + tail;
    if k == "" {
      assert k + rest == rest;
    } else {
      Front(k, rest);
      NameReads(k[1..], tail);
      assert [k[0]] + k[1..] == k;
    }
  }

  lemma AssignmentReads(k: string, v: string, rest: string)
    requires IsEnvVarName(k)
    ensures Read(Assignment(k, v) + rest) == Assign(k, v, Read(rest))
  {
    hide Unquoted, NameOf, ShellQuote;
    var tail := ShellQuote(v) + (['\n'] + rest);
    var s := k + (['='] + tail);
    assert Assignment(k, v) + rest == s;
    NameReads(k, tail);
    assert s[|k| + 1..] == tail;
    UnquoteUndoesQuote(v, rest);
    assert s[0] == k[0] && |k| < |s|;
  }

  lemma {:induction false} LineEnds(a: string, rest: string)
    requires forall i :: 0 <= i < |a| ==> a[i] != '\n'
    ensures AfterLine(a + (['\n'] + rest)) == rest
  {
    var tail := ['\n'] + rest;
    if a == "" {
      assert a + tail == tail && tail[1..] == rest;
    } else {
      Front(a, tail);
      LineEnds(a[1..], rest);
    }
  }

  predicate OneLine(k: string) { forall i :: 0 <= i < |k| ==> k[i] != '\n' }

  lemma RemarkReads(k: string, rest: string)
    requires OneLine(k)
    ensures Read(Remark(k) + rest) == Read(rest)
  {
    hide Skipped, AfterLine;
    var head := Skipped() + k;
    assert Remark(k) + rest == head + (['\n'] + rest);
    LineEnds(head, rest);
  }

  lemma {:induction false} RemarksRead(keys: seq<string>)
    requires forall k :: k in keys && !IsEnvVarName(k) ==> OneLine(k)
    ensures Read(Remarks(keys)) == Env(map[])
  {
    hide Remark, OneLine, IsEnvVarName;
    if keys != [] {
      RemarksRead(keys[1..]);
      hide Read;
      if IsEnvVarName(keys[0]) {
        assert Remarks(keys) == Remarks(keys[1..]);
      } else {
        assert keys[0] in keys;
        RemarkReads(keys[0], Remarks(keys[1..]));
      }
    }
  }

  function Exported(m: map<string, string>, keys: seq<string>): map<string, string> {
    map k | k in m && k in keys && IsEnvVarName(k) :: m[k]
  }

  /** Assignments before whatever can be read: what follows wins. */
  lemma {:induction false} AssignmentsRead(m: map<string, string>, keys: seq<string>, rest: string)
    requires forall k :: k in keys ==> k in m
    ensures Read(Assignments(m, keys) + rest) ==
      if Read(rest).Unreadable? then Unreadable else Env(Exported(m, keys) + Read(rest).vars)
  {
    hide Read, Assignment, IsEnvVarName;
    if keys == [] {
      assert Assignments(m, keys) + rest == rest;
      assert Read(rest).Env? ==> Exported(m, keys) + Read(rest).vars == Read(rest).vars;
    } else {
      var k := keys[0];
      AssignmentsRead(m, keys[1..], rest);
      var tail := Assignments(m, keys[1..]) + rest;
      if IsEnvVarName(k) {
        Assoc(Assignment(k, m[k]), Assignments(m, keys[1..]), rest);
        AssignmentReads(k, m[k], tail);
        if Read(rest).Env? { ExportedCons(m, keys, Read(rest).vars); }
      } else {
        assert Assignments(m, keys) == Assignments(m, keys[1..]);
        assert Exported(m, keys) == Exported(m, keys[1..]);
      }
    }
  }

  lemma ExportedCons(m: map<string, string>, keys: seq<string>, later: map<string, string>)
    requires keys != [] && keys[0] in m && IsEnvVarName(keys[0])
    ensures Assign(keys[0], m[keys[0]], Env(Exported(m, keys[1..]) + later)) == Env(Exported(m, keys) + later)
  {
    hide IsEnvVarName;
    assert forall k :: k in keys <==> k == keys[0] || k in keys[1..];
    assert Assign(keys[0], m[keys[0]], Env(Exported(m, keys[1..]) + later)).vars == Exported(m, keys) + later;
  }

  /** Reading what was printed gives exactly the map, restricted to the valid names -- for all values and in any
      order of the keys -- if and only if the remarks can be read and assign nothing that was not exported as
      it is. */
  lemma RoundTripIff(m: map<string, string>, keys: seq<string>)
    requires forall k :: k in keys <==> k in m
    ensures var remarks, exported := Read(Remarks(keys)), (map k | k in m && IsEnvVarName(k) :: m[k]);
      Read(Assignments(m, keys) + Remarks(keys)) == Env(exported) <==>
      remarks.Env? && forall k :: k in remarks.vars ==> k in exported && exported[k] == remarks.vars[k]
  {
    hide Read, Assignments, Remarks, IsEnvVarName;
    var remarks, exported := Read(Remarks(keys)), (map k | k in m && IsEnvVarName(k) :: m[k]);
    AssignmentsRead(m, keys, Remarks(keys));
    assert Exported(m, keys) == exported;
    if remarks.Env? {
      var all := exported + remarks.vars;
      if forall k :: k in remarks.vars ==> k in exported && exported[k] == remarks.vars[k] {
        assert all == exported;
      } else {
        var k :| k in remarks.vars && !(k in exported && exported[k] == remarks.vars[k]);
        assert k in all && all[k] == remarks.vars[k];
      }
    }
  }

  /** In particular if no key that is only remarked on holds a newline. */
  lemma RoundTrip(m: map<string, string>, keys: seq<string>)
    requires forall k :: k in keys <==> k in m
    requires forall k :: k in m && !IsEnvVarName(k) ==> OneLine(k)
    ensures Read(Assignments(m, keys) + Remarks(keys)) == Env(map k | k in m && IsEnvVarName(k) :: m[k])
  {
    hide Read, Assignments, Remarks, IsEnvVarName, OneLine;
    RemarksRead(keys);
    RoundTripIff(m, keys);
  }

  /** What the server lets through as a key. */
  predicate IsSecretKey(k: string) {
    0 < |k| <= 255 && k != "." && k != ".." && forall i :: 0 <= i < |k| ==>
        Letter(k[i]) || Digit(k[i]) || k[i] == '.' || k[i] == '-'
  }

  /** So every set of secrets the server can hand out comes back whole. */
  lemma SecretsRoundTrip(m: map<string, string>, keys: seq<string>)
    requires (forall k :: k in keys <==> k in m) && forall k :: k in m ==> IsSecretKey(k)
    ensures Read(Assignments(m, keys) + Remarks(keys)) == Env(map k | k in m && IsEnvVarName(k) :: m[k])
  {
    forall k | k in m ensures OneLine(k) { assert IsSecretKey(k); }
    hide Read, Assignments, Remarks, IsEnvVarName, OneLine;
    RoundTrip(m, keys);
  }

  /** A newline in a key that is only remarked on ends the remark: what follows is read as a line of its
      own, whatever it is. */
  lemma NewlineEndsRemark(head: string, line: string, rest: seq<string>)
    requires OneLine(head) && !IsEnvVarName(head + ['\n'] + line)
    ensures Read(Remarks([head + ['\n'] + line] + rest)) == Read(line + "\n" + Remarks(rest))
  {
    hide IsEnvVarName, AfterLine, Skipped;
    var k := head + ['\n'] + line;
    var keys := [k] + rest;
    assert keys[1..] == rest;
    var all, tail := Skipped() + head, line + "\n" + Remarks(rest);
    assert Remarks(keys) == all + (['\n'] + tail);
    LineEnds(all, tail);
  }
}
