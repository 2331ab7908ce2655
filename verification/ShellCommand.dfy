/** The command line for a remote script, and a reader for it: the token recognition of
    section 2.3 and the quoting of sections 2.2.1 and 2.2.2 of the Shell Command Language
    in POSIX.1-2017. Where an unquoted character would start something that the reader
    does not know (an expansion, a pattern, another operator), it refuses the text. */
module ShellCommand {

  datatype Option<T> = None | Some(value: T)

  // ----- the writer -----

  const QUOTE: char := '\''
  const BACKSLASH: char := '\\'

  /** strings.ReplaceAll(s, "'", `'\''`) */
  function Replaced(s: string): string {
    if s == "" then ""
    else (if s[0] == QUOTE then [QUOTE, BACKSLASH, QUOTE, QUOTE] else [s[0]]) + Replaced(s[1..])
  }

  function ShellEscape(s: string): string { [QUOTE] + Replaced(s) + [QUOTE] }

  function CdPrefix(workDir: string): string {
    if workDir == "" then "" else "cd " + ShellEscape(workDir) + " && "
  }

  predicate IsNameStart(c: char) { 'A' <= c <= 'Z' || 'a' <= c <= 'z' || c == '_' }

  predicate IsNameChar(c: char) { IsNameStart(c) || '0' <= c <= '9' }

  /** ^[A-Za-z_][A-Za-z0-9_]*$ */
  predicate IsName(k: string) {
    k != "" && IsNameStart(k[0]) && forall i :: 0 < i < |k| ==> IsNameChar(k[i])
  }

  function EnvPrefix(keys: seq<string>, env: map<string, string>): string
    requires forall k :: k in keys ==> k in env
  {
    if keys == [] then ""
    else EnvPrefix(keys[..|keys| - 1], env) + Assignment(keys[|keys| - 1], env[keys[|keys| - 1]])
  }

  function Assignment(k: string, v: string): string { k + "=" + ShellEscape(v) + " " }

  function Flags(interpreter: string): string { if interpreter == "python3" then " -" else " -s --" }

  function Arguments(args: seq<string>): string {
    if args == [] then "" else Arguments(args[..|args| - 1]) + " " + ShellEscape(args[|args| - 1])
  }

  function CommandText(interpreter: string, args: seq<string>, keys: seq<string>, env: map<string, string>, workDir: string): string
    requires forall k :: k in keys ==> k in env
  {
    CdPrefix(workDir) + EnvPrefix(keys, env) + interpreter + Flags(interpreter) + Arguments(args)
  }

  // ----- the order of the keys -----

  predicate Less(a: string, b: string) {
    if b == "" then false
    else if a == "" then true
    else a[0] < b[0] || (a[0] == b[0] && Less(a[1..], b[1..]))
  }

  lemma {:induction false} LessIsIrreflexive(a: string)
    ensures !Less(a, a)
    decreases |a|
  {
    if a != "" { LessIsIrreflexive(a[1..]); }
  }

  lemma {:induction false} LessIsTotal(a: string, b: string)
    ensures (Less(a, b) || Less(b, a) || a == b) && !(Less(a, b) && Less(b, a)) && !Less(a, a)
    decreases |a| + |b|
  {
    LessIsIrreflexive(a);
    if a != "" && b != "" {
      LessIsTotal(a[1..], b[1..]);
      assert a == [a[0]] + a[1..] && b == [b[0]] + b[1..];
    }
  }

  /** The order is the one of strings: by the first character that differs, a prefix first. */
  lemma {:induction false} LessIsLexicographic(a: string, b: string)
    ensures Less(a, b) <==> exists n: nat :: AgreeUpTo(a, b, n) && n < |b| && (n == |a| || a[n] < b[n])
    decreases |a|
  {
    if a != "" && b != "" && a[0] == b[0] {
      LessIsLexicographic(a[1..], b[1..]);
      if Less(a, b) {
        var n: nat :| AgreeUpTo(a[1..], b[1..], n) && n < |b[1..]| && (n == |a[1..]| || a[1..][n] < b[1..][n]);
        AgreeOnce(a, b, n + 1);
      }
      if n: nat :| AgreeUpTo(a, b, n) && n < |b| && (n == |a| || a[n] < b[n]) {
        AgreeOnce(a, b, n);
      }
    } else {
      assert AgreeUpTo(a, b, 0);
      if n: nat :| AgreeUpTo(a, b, n) && n < |b| && (n == |a| || a[n] < b[n]) {
        if n > 0 { HeadsAgree(a, b, n); }
      }
    }
  }

  predicate AgreeUpTo(a: string, b: string, n: nat) {
    n <= |a| && n <= |b| && a[..n] == b[..n]
  }

  lemma HeadsAgree(a: string, b: string, n: nat)
    requires AgreeUpTo(a, b, n) && n > 0
    ensures a != "" && b != "" && a[0] == b[0]
  {
    assert a[..n][0] == a[0] && b[..n][0] == b[0];
  }

  lemma AgreeOnce(a: string, b: string, n: nat)
    requires 0 < n && a != "" && b != "" && a[0] == b[0]
    ensures AgreeUpTo(a, b, n) <==> AgreeUpTo(a[1..], b[1..], n - 1)
  {
    if n <= |a| && n <= |b| {
      assert a[..n] == [a[0]] + a[1..][..n - 1] && b[..n] == [b[0]] + b[1..][..n - 1];
      assert a[..n][1..] == a[1..][..n - 1] && b[..n][1..] == b[1..][..n - 1];
    }
  }

  /** A name is what the pattern ^[A-Za-z_][A-Za-z0-9_]*$ matches. */
  lemma NameIsThePattern(k: string)
    ensures IsName(k) <==>
              && k != ""
              && ('A' <= k[0] <= 'Z' || 'a' <= k[0] <= 'z' || k[0] == '_')
              && forall i :: 0 < i < |k| ==> 'A' <= k[i] <= 'Z' || 'a' <= k[i] <= 'z' || k[i] == '_' || '0' <= k[i] <= '9'
  {
  }

  lemma {:induction false} LessIsTransitive(a: string, b: string, c: string)
    requires Less(a, b) && Less(b, c)
    ensures Less(a, c)
    decreases |a|
  {
    if a != "" && a[0] == b[0] == c[0] { LessIsTransitive(a[1..], b[1..], c[1..]); }
  }

  ghost predicate Ascending(keys: seq<string>) {
    forall i, j :: 0 <= i < j < |keys| ==> Less(keys[i], keys[j])
  }

  /** The valid keys of an environment, each once, in ascending order. */
  ghost predicate IsKeyList(keys: seq<string>, env: map<string, string>) {
    Ascending(keys) && forall k :: k in keys <==> k in env && IsName(k)
  }

  /** There is only one such list, whatever order a map is walked in. */
  lemma {:induction false} KeyListIsUnique(a: seq<string>, b: seq<string>)
    requires Ascending(a) && Ascending(b) && forall k :: k in a <==> k in b
    ensures a == b
    decreases |a|
  {
    if b != [] { SharesKeys(a, b); }
    if a != [] {
      SharesKeys(b, a);
      assert a[0] in b;
      assert b[0] in a;
      LessIsTotal(a[0], b[0]);
      assert a[0] == b[0];
      forall k ensures k in a[1..] <==> k in b[1..] {
        RestHasIt(a, k);
        RestHasIt(b, k);
      }
      KeyListIsUnique(a[1..], b[1..]);
    }
  }

  lemma SharesKeys(a: seq<string>, b: seq<string>)
    requires b != [] && forall k :: k in a <==> k in b
    ensures a != []
  {
    assert b[0] in a;
  }

  lemma RestHasIt(a: seq<string>, k: string)
    requires a != [] && Ascending(a)
    ensures k in a[1..] <==> k in a && k != a[0]
  {
    LessIsTotal(a[0], a[0]);
  }

  /** sort.Strings, by inserting. */
  function Insert(k: string, keys: seq<string>): seq<string> {
    if keys == [] || Less(k, keys[0]) then [k] + keys else [keys[0]] + Insert(k, keys[1..])
  }

  function Sorted(keys: seq<string>): seq<string> {
    if keys == [] then [] else Insert(keys[|keys| - 1], Sorted(keys[..|keys| - 1]))
  }

  lemma {:induction false} InsertKeepsOrder(k: string, keys: seq<string>)
    requires Ascending(keys) && k !in keys
    ensures Ascending(Insert(k, keys))
    ensures forall x :: x in Insert(k, keys) <==> x == k || x in keys
    decreases |keys|
  {
    if keys == [] {
    } else if Less(k, keys[0]) {
      forall j | 0 <= j < |keys| ensures Less(k, keys[j]) {
        if j > 0 { LessIsTransitive(k, keys[0], keys[j]); }
      }
    } else {
      InsertKeepsOrder(k, keys[1..]);
      LessIsTotal(k, keys[0]);
      var rest := Insert(k, keys[1..]);
      forall j | 0 <= j < |rest| ensures Less(keys[0], rest[j]) {
        assert rest[j] in rest;
        if rest[j] != k {
          var i :| 0 <= i < |keys[1..]| && keys[1..][i] == rest[j];
          assert keys[i + 1] == rest[j];
        }
      }
    }
  }

  lemma {:induction false} SortedIsAscending(keys: seq<string>)
    requires forall i, j :: 0 <= i < j < |keys| ==> keys[i] != keys[j]
    ensures Ascending(Sorted(keys))
    ensures forall x :: x in Sorted(keys) <==> x in keys
    decreases |keys|
  {
    if keys != [] {
      var init := keys[..|keys| - 1];
      SortedIsAscending(init);
      assert keys == init + [keys[|keys| - 1]];
      InsertKeepsOrder(keys[|keys| - 1], Sorted(init));
    }
  }

  /** sortedEnvKeys: the map is walked in any order. */
  method SortedEnvKeys(env: map<string, string>) returns (keys: seq<string>)
    ensures IsKeyList(keys, env)
  {
    keys := [];
    var rest := env.Keys;
    while rest != {}
      invariant rest <= env.Keys
      invariant forall k :: k in keys <==> k in env && k !in rest && IsName(k)
      invariant forall i, j :: 0 <= i < j < |keys| ==> keys[i] != keys[j]
      decreases |rest|
    {
      var k :| k in rest;
      if IsName(k) {
        keys := keys + [k];
      }
      rest := rest - {k};
    }
    SortedIsAscending(keys);
    keys := Sorted(keys);
  }

  // ----- the reader -----

  /** A character of a word, and whether it was quoted. */
  datatype Mark = Mark(c: char, quoted: bool)

  datatype Token = Word(marks: seq<Mark>) | AndIf

  datatype Mode =
    | Between
    | InWord(w: seq<Mark>)
    | InQuotes(w: seq<Mark>)
    | Escaped(w: seq<Mark>)
    | EscapedFirst
    | SawAmpersand
    | InComment

  predicate IsBlank(c: char) { c == ' ' || c == '\t' }

  /** Characters that mean something unquoted which the reader does not know. */
  predicate IsForeign(c: char) {
    c == '|' || c == ';' || c == '<' || c == '>' || c == '(' || c == ')' || c == '$' || c == '`' || c == '"'
    || c == '*' || c == '?' || c == '[' || c == '~' || c == '\n'
  }

  /** Token recognition, one character at a time. */
  function Tokens(s: string, mode: Mode, done: seq<Token>): Option<seq<Token>>
    decreases |s|
  {
    if s == "" then
      match mode
      case Between => Some(done)
      case InComment => Some(done)
      case InWord(w) => Some(done + [Word(w)])
      case _ => None
    else
      var c, rest := s[0], s[1..];
      match mode
      case InQuotes(w) => Tokens(rest, if c == QUOTE then InWord(w) else InQuotes(w + [Mark(c, true)]), done)
      case Escaped(w) => Tokens(rest, if c == '\n' then InWord(w) else InWord(w + [Mark(c, true)]), done)
      case EscapedFirst => Tokens(rest, if c == '\n' then Between else InWord([Mark(c, true)]), done)
      case SawAmpersand => if c == '&' then Tokens(rest, Between, done + [AndIf]) else None
      case InComment => if c == '\n' then None else Tokens(rest, InComment, done)
      case Between =>
        if IsBlank(c) then Tokens(rest, Between, done)
        else if c == '#' then Tokens(rest, InComment, done)
        else if c == QUOTE then Tokens(rest, InQuotes([]), done)
        else if c == BACKSLASH then Tokens(rest, EscapedFirst, done)
        else if c == '&' then Tokens(rest, SawAmpersand, done)
        else if IsForeign(c) then None
        else Tokens(rest, InWord([Mark(c, false)]), done)
      case InWord(w) =>
        if IsBlank(c) then Tokens(rest, Between, done + [Word(w)])
        else if c == QUOTE then Tokens(rest, InQuotes(w), done)
        else if c == BACKSLASH then Tokens(rest, Escaped(w), done)
        else if c == '&' then Tokens(rest, SawAmpersand, done + [Word(w)])
        else if IsForeign(c) then None
        else Tokens(rest, InWord(w + [Mark(c, false)]), done)
  }

  datatype Reading = Assign(name: string, value: string) | Plain(text: string) | Then

  function Text(marks: seq<Mark>): string {
    if marks == [] then "" else Text(marks[..|marks| - 1]) + [marks[|marks| - 1].c]
  }

  /** The position of the first unquoted equals sign. */
  function EqualsAt(marks: seq<Mark>): (n: nat)
    ensures n <= |marks|
  {
    if marks == [] || marks[0] == Mark('=', false) then 0 else 1 + EqualsAt(marks[1..])
  }

  ghost predicate Unquoted(marks: seq<Mark>) {
    forall i :: 0 <= i < |marks| ==> !marks[i].quoted
  }

  /** Whether a word has the form of an assignment: an unquoted name and equals sign. */
  ghost predicate IsAssignment(marks: seq<Mark>) {
    var n := EqualsAt(marks);
    n < |marks| && Unquoted(marks[..n]) && IsName(Text(marks[..n]))
  }

  /** What the tokens say: assignments only count ahead of the command's own words. */
  ghost function Meaning(tokens: seq<Token>, ahead: bool): seq<Reading>
    decreases |tokens|
  {
    if tokens == [] then []
    else
      match tokens[0]
      case AndIf => [Then] + Meaning(tokens[1..], true)
      case Word(w) =>
        if ahead && IsAssignment(w)
        then [Assign(Text(w[..EqualsAt(w)]), Text(w[EqualsAt(w) + 1..]))] + Meaning(tokens[1..], true)
        else [Plain(Text(w))] + Meaning(tokens[1..], false)
  }

  /** Reading a command line back. */
  ghost function ReadBack(s: string): Option<seq<Reading>> {
    match Tokens(s, Between, [])
    case None => None
    case Some(tokens) => Some(Meaning(tokens, true))
  }

  // ----- reading back what was written -----

  function Marks(s: string, quoted: bool): (m: seq<Mark>)
    ensures |m| == |s| && forall i :: 0 <= i < |s| ==> m[i] == Mark(s[i], quoted)
  {
    if s == "" then [] else Marks(s[..|s| - 1], quoted) + [Mark(s[|s| - 1], quoted)]
  }

  lemma {:induction false} TextOfMarks(s: string, quoted: bool)
    ensures Text(Marks(s, quoted)) == s
    decreases |s|
  {
    if s != "" {
      TextOfMarks(s[..|s| - 1], quoted);
      assert Marks(s, quoted)[..|s| - 1] == Marks(s[..|s| - 1], quoted);
    }
  }

  lemma {:induction false} ReadReplaced(s: string, rest: string, w: seq<Mark>, done: seq<Token>)
    ensures Tokens(Replaced(s) + [QUOTE] + rest, InQuotes(w), done) == Tokens(rest, InWord(w + Marks(s, true)), done)
    decreases |s|
  {
    var text := Replaced(s) + [QUOTE] + rest;
    if s == "" {
      assert text == [QUOTE] + rest && text[1..] == rest;
      assert w + Marks(s, true) == w;
    } else {
      var more := Replaced(s[1..]) + [QUOTE] + rest;
      var next := w + [Mark(s[0], true)];
      ReadReplaced(s[1..], rest, next, done);
      assert next + Marks(s[1..], true) == w + Marks(s, true);
      if s[0] == QUOTE {
        assert text == [QUOTE, BACKSLASH, QUOTE, QUOTE] + more;
        ReadQuotedQuote(more, w, done);
      } else {
        assert text == [s[0]] + more && text[1..] == more;
      }
    }
  }

  lemma ReadQuotedQuote(more: string, w: seq<Mark>, done: seq<Token>)
    ensures Tokens([QUOTE, BACKSLASH, QUOTE, QUOTE] + more, InQuotes(w), done)
         == Tokens(more, InQuotes(w + [Mark(QUOTE, true)]), done)
  {
    var t := [QUOTE, BACKSLASH, QUOTE, QUOTE] + more;
    var t1, t2, t3 := [BACKSLASH, QUOTE, QUOTE] + more, [QUOTE, QUOTE] + more, [QUOTE] + more;
    assert t[1..] == t1 && t1[1..] == t2 && t2[1..] == t3 && t3[1..] == more;
    var v := w + [Mark(QUOTE, true)];
    assert Tokens(t, InQuotes(w), done) == Tokens(t1, InWord(w), done);
    assert Tokens(t1, InWord(w), done) == Tokens(t2, Escaped(w), done);
    assert Tokens(t2, Escaped(w), done) == Tokens(t3, InWord(v), done);
    assert Tokens(t3, InWord(v), done) == Tokens(more, InQuotes(v), done);
  }

  lemma ReadEscaped(s: string, rest: string, mode: Mode, w: seq<Mark>, done: seq<Token>)
    requires mode == InWord(w) || (mode == Between && w == [])
    ensures Tokens(ShellEscape(s) + rest, mode, done) == Tokens(rest, InWord(w + Marks(s, true)), done)
  {
    var more := Replaced(s) + [QUOTE] + rest;
    assert ShellEscape(s) + rest == [QUOTE] + more;
    assert ([QUOTE] + more)[1..] == more;
    ReadReplaced(s, rest, w, done);
  }

  /** A character that stands for itself in the middle of a word. */
  predicate IsOrdinary(c: char) {
    !IsBlank(c) && c != QUOTE && c != BACKSLASH && c != '&' && !IsForeign(c)
  }

  predicate AllOrdinary(s: string) { forall i :: 0 <= i < |s| ==> IsOrdinary(s[i]) }

  lemma {:induction false} ReadOrdinary(s: string, rest: string, w: seq<Mark>, done: seq<Token>)
    requires AllOrdinary(s)
    ensures Tokens(s + rest, InWord(w), done) == Tokens(rest, InWord(w + Marks(s, false)), done)
    decreases |s|
  {
    if s == "" {
      assert s + rest == rest && w + Marks(s, false) == w;
    } else {
      var next := w + [Mark(s[0], false)];
      assert (s + rest)[0] == s[0] && (s + rest)[1..] == s[1..] + rest;
      ReadOrdinary(s[1..], rest, next, done);
      assert next + Marks(s[1..], false) == w + Marks(s, false);
    }
  }

  lemma ReadWord(s: string, rest: string, done: seq<Token>)
    requires s != "" && AllOrdinary(s) && s[0] != '#'
    ensures Tokens(s + rest, Between, done) == Tokens(rest, InWord(Marks(s, false)), done)
  {
    assert (s + rest)[0] == s[0] && (s + rest)[1..] == s[1..] + rest;
    ReadOrdinary(s[1..], rest, [Mark(s[0], false)], done);
    assert [Mark(s[0], false)] + Marks(s[1..], false) == Marks(s, false);
  }

  lemma ReadBlank(rest: string, w: seq<Mark>, done: seq<Token>)
    ensures Tokens(" " + rest, InWord(w), done) == Tokens(rest, Between, done + [Word(w)])
  {
    assert (" " + rest)[1..] == rest;
  }

  function CdTokens(workDir: string): seq<Token> {
    if workDir == "" then [] else [Word(Marks("cd", false)), Word(Marks(workDir, true)), AndIf]
  }

  lemma ReadCd(workDir: string, rest: string)
    ensures Tokens(CdPrefix(workDir) + rest, Between, []) == Tokens(rest, Between, CdTokens(workDir))
  {
    if workDir == "" {
      assert CdPrefix(workDir) + rest == rest;
    } else {
      var t := " && " + rest;
      ReadCdWords(workDir, t);
      assert CdPrefix(workDir) + rest == "cd " + ShellEscape(workDir) + t;
      ReadAndIf(rest, Marks(workDir, true), [Word(Marks("cd", false))]);
      assert [Word(Marks("cd", false))] + [Word(Marks(workDir, true)), AndIf] == CdTokens(workDir);
    }
  }

  lemma ReadCdWords(workDir: string, rest: string)
    ensures Tokens("cd " + ShellEscape(workDir) + rest, Between, [])
         == Tokens(rest, InWord(Marks(workDir, true)), [Word(Marks("cd", false))])
  {
    var t2 := ShellEscape(workDir) + rest;
    var t1 := " " + t2;
    assert "cd " + ShellEscape(workDir) + rest == "cd" + t1;
    ReadWord("cd", t1, []);
    ReadBlank(t2, Marks("cd", false), []);
    assert [] + [Word(Marks("cd", false))] == [Word(Marks("cd", false))];
    ReadEscaped(workDir, rest, Between, [], [Word(Marks("cd", false))]);
    assert [] + Marks(workDir, true) == Marks(workDir, true);
  }

  lemma ReadAndIf(rest: string, w: seq<Mark>, done: seq<Token>)
    ensures Tokens(" && " + rest, InWord(w), done) == Tokens(rest, Between, done + [Word(w), AndIf])
  {
    var t, t1, t2, t3 := " && " + rest, "&& " + rest, "& " + rest, " " + rest;
    assert t[1..] == t1 && t1[1..] == t2 && t2[1..] == t3 && t3[1..] == rest;
    var more := done + [Word(w)];
    assert Tokens(t, InWord(w), done) == Tokens(t1, Between, more);
    assert Tokens(t1, Between, more) == Tokens(t2, SawAmpersand, more);
    assert Tokens(t2, SawAmpersand, more) == Tokens(t3, Between, more + [AndIf]);
    assert more + [AndIf] == done + [Word(w), AndIf];
  }

  function AssignMarks(k: string, v: string): seq<Mark> { Marks(k + "=", false) + Marks(v, true) }

  lemma ReadAssignment(k: string, v: string, rest: string, done: seq<Token>)
    requires IsName(k)
    ensures Tokens(Assignment(k, v) + rest, Between, done) == Tokens(rest, Between, done + [Word(AssignMarks(k, v))])
  {
    var t2 := " " + rest;
    var t1 := ShellEscape(v) + t2;
    assert Assignment(k, v) + rest == (k + "=") + t1;
    ReadWord(k + "=", t1, done);
    ReadEscaped(v, t2, InWord(Marks(k + "=", false)), Marks(k + "=", false), done);
    ReadBlank(rest, AssignMarks(k, v), done);
  }

  function EnvTokens(keys: seq<string>, env: map<string, string>): seq<Token>
    requires forall k :: k in keys ==> k in env
  {
    if keys == [] then []
    else EnvTokens(keys[..|keys| - 1], env) + [Word(AssignMarks(keys[|keys| - 1], env[keys[|keys| - 1]]))]
  }

  lemma {:induction false} ReadEnv(keys: seq<string>, env: map<string, string>, rest: string, done: seq<Token>)
    requires forall k :: k in keys ==> k in env && IsName(k)
    ensures Tokens(EnvPrefix(keys, env) + rest, Between, done) == Tokens(rest, Between, done + EnvTokens(keys, env))
    decreases |keys|
  {
    if keys == [] {
      assert EnvPrefix(keys, env) + rest == rest && done + [] == done;
    } else {
      var init, k := keys[..|keys| - 1], keys[|keys| - 1];
      var last := Assignment(k, env[k]);
      assert EnvPrefix(keys, env) + rest == EnvPrefix(init, env) + (last + rest);
      ReadEnv(init, env, last + rest, done);
      ReadAssignment(k, env[k], rest, done + EnvTokens(init, env));
      assert done + EnvTokens(keys, env) == done + EnvTokens(init, env) + [Word(AssignMarks(k, env[k]))];
    }
  }

  function ArgTokens(args: seq<string>): (ts: seq<Token>)
    ensures |ts| == |args| && forall i :: 0 <= i < |args| ==> ts[i] == Word(Marks(args[i], true))
  {
    if args == [] then [] else ArgTokens(args[..|args| - 1]) + [Word(Marks(args[|args| - 1], true))]
  }

  /** Behind an unfinished word the arguments follow, and the last of them is unfinished. */
  lemma {:induction false} ReadArguments(args: seq<string>, rest: string, w: seq<Mark>, done: seq<Token>)
    ensures var all := [Word(w)] + ArgTokens(args);
            Tokens(Arguments(args) + rest, InWord(w), done)
            == Tokens(rest, InWord(all[|args|].marks), done + all[..|args|])
    decreases |args|
  {
    var all := [Word(w)] + ArgTokens(args);
    if args == [] {
      assert Arguments(args) + rest == rest && done + all[..0] == done;
    } else {
      var n := |args| - 1;
      var init, a := args[..n], args[n];
      var before := [Word(w)] + ArgTokens(init);
      var last := " " + ShellEscape(a) + rest;
      assert Arguments(args) + rest == Arguments(init) + last;
      ReadArguments(init, last, w, done);
      assert before == all[..n + 1];
      SplitAtLast(done, all, n);
      ReadOneArgument(a, rest, before[n].marks, done + before[..n]);
    }
  }

  lemma SplitAtLast(done: seq<Token>, all: seq<Token>, n: nat)
    requires n < |all|
    ensures done + all[..n + 1][..n] + [all[n]] == done + all[..n + 1]
  {
  }

  lemma ReadOneArgument(a: string, rest: string, w: seq<Mark>, done: seq<Token>)
    ensures Tokens(" " + ShellEscape(a) + rest, InWord(w), done) == Tokens(rest, InWord(Marks(a, true)), done + [Word(w)])
  {
    assert " " + ShellEscape(a) + rest == " " + (ShellEscape(a) + rest);
    ReadBlank(ShellEscape(a) + rest, w, done);
    ReadEscaped(a, rest, Between, [], done + [Word(w)]);
    assert [] + Marks(a, true) == Marks(a, true);
  }

  function FlagWords(interpreter: string): seq<string> {
    if interpreter == "python3" then ["-"] else ["-s", "--"]
  }

  function LastFlag(interpreter: string): seq<Mark> {
    if interpreter == "python3" then Marks("-", false) else Marks("--", false)
  }

  function FlagTokens(interpreter: string): seq<Token> {
    (if interpreter == "python3" then [] else [Word(Marks("-s", false))]) + [Word(LastFlag(interpreter))]
  }

  /** Names of commands that stand for themselves, ahead of everything else. */
  predicate IsCommandName(s: string) {
    s != "" && AllOrdinary(s) && s[0] != '#' && '=' !in s
  }

  lemma ReadFlag(flag: string, rest: string, w: seq<Mark>, done: seq<Token>)
    requires flag != "" && AllOrdinary(flag) && flag[0] != '#'
    ensures Tokens(" " + flag + rest, InWord(w), done) == Tokens(rest, InWord(Marks(flag, false)), done + [Word(w)])
  {
    assert " " + flag + rest == " " + (flag + rest);
    ReadBlank(flag + rest, w, done);
    ReadWord(flag, rest, done + [Word(w)]);
  }

  lemma ReadFlags(interpreter: string, rest: string, w: seq<Mark>, done: seq<Token>)
    ensures Tokens(Flags(interpreter) + rest, InWord(w), done)
         == Tokens(rest, InWord(LastFlag(interpreter)),
                   done + [Word(w)] + (if interpreter == "python3" then [] else [Word(Marks("-s", false))]))
  {
    if interpreter == "python3" {
      ReadFlag("-", rest, w, done);
      assert done + [Word(w)] + [] == done + [Word(w)];
    } else {
      assert " -s --" + rest == " " + "-s" + (" --" + rest);
      assert " --" + rest == " " + "--" + rest;
      ReadFlag("-s", " --" + rest, w, done);
      ReadFlag("--", rest, Marks("-s", false), done + [Word(w)]);
    }
  }

  lemma InterpretersAreCommandNames()
    ensures IsCommandName("bash") && IsCommandName("sh") && IsCommandName("python3")
  {
  }

  /** From the interpreter to the end of the line. */
  lemma ReadInvocation(interpreter: string, args: seq<string>, done: seq<Token>)
    requires IsCommandName(interpreter)
    ensures Tokens(interpreter + (Flags(interpreter) + Arguments(args)), Between, done)
         == Some(done + ([Word(Marks(interpreter, false))] + (FlagTokens(interpreter) + ArgTokens(args))))
  {
    var name := Marks(interpreter, false);
    var dashS := if interpreter == "python3" then [] else [Word(Marks("-s", false))];
    ReadWord(interpreter, Flags(interpreter) + Arguments(args), done);
    ReadFlags(interpreter, Arguments(args), name, done);
    ReadLast(args, LastFlag(interpreter), done + [Word(name)] + dashS);
    FiveParts(done, [Word(name)], dashS, [Word(LastFlag(interpreter))], ArgTokens(args));
  }

  lemma FiveParts<T>(a: seq<T>, b: seq<T>, c: seq<T>, d: seq<T>, e: seq<T>)
    ensures a + b + c + d + e == a + (b + ((c + d) + e))
    ensures a + b + c + d + e == a + (b + (c + (d + e)))
  {
  }

  lemma ReadLast(args: seq<string>, w: seq<Mark>, done: seq<Token>)
    ensures Tokens(Arguments(args), InWord(w), done) == Some(done + [Word(w)] + ArgTokens(args))
  {
    assert Arguments(args) + "" == Arguments(args);
    ReadArguments(args, "", w, done);
    var all := [Word(w)] + ArgTokens(args);
    assert Word(all[|args|].marks) == all[|args|];
    assert done + all[..|args|] + [all[|args|]] == done + [Word(w)] + ArgTokens(args);
  }

  lemma ReadCommand(interpreter: string, args: seq<string>, keys: seq<string>, env: map<string, string>, workDir: string)
    requires IsCommandName(interpreter) && forall k :: k in keys ==> k in env && IsName(k)
    ensures Tokens(CommandText(interpreter, args, keys, env, workDir), Between, [])
         == Some(CdTokens(workDir) + (EnvTokens(keys, env) + ([Word(Marks(interpreter, false))]
                 + (FlagTokens(interpreter) + ArgTokens(args)))))
  {
    var invocation := interpreter + (Flags(interpreter) + Arguments(args));
    FiveParts(CdPrefix(workDir), EnvPrefix(keys, env), interpreter, Flags(interpreter), Arguments(args));
    ReadCd(workDir, EnvPrefix(keys, env) + invocation);
    ReadEnv(keys, env, invocation, CdTokens(workDir));
    ReadInvocation(interpreter, args, CdTokens(workDir) + EnvTokens(keys, env));
    ThreeParts(CdTokens(workDir), EnvTokens(keys, env),
               [Word(Marks(interpreter, false))] + (FlagTokens(interpreter) + ArgTokens(args)));
  }

  lemma ThreeParts<T>(a: seq<T>, b: seq<T>, c: seq<T>)
    ensures a + b + c == a + (b + c)
  {
  }

  // ----- what it means -----

  function Plains(words: seq<string>): (r: seq<Reading>)
    ensures |r| == |words| && forall i :: 0 <= i < |words| ==> r[i] == Plain(words[i])
  {
    seq(|words|, i requires 0 <= i < |words| => Plain(words[i]))
  }

  function Assigns(keys: seq<string>, env: map<string, string>): (r: seq<Reading>)
    requires forall k :: k in keys ==> k in env
    ensures |r| == |keys| && forall i :: 0 <= i < |keys| ==> r[i] == Assign(keys[i], env[keys[i]])
  {
    seq(|keys|, i requires 0 <= i < |keys| => Assign(keys[i], env[keys[i]]))
  }

  /** What the line is meant to say. */
  function Intended(interpreter: string, args: seq<string>, keys: seq<string>, env: map<string, string>, workDir: string): seq<Reading>
    requires forall k :: k in keys ==> k in env
  {
    (if workDir == "" then [] else [Plain("cd"), Plain(workDir), Then])
    + Assigns(keys, env)
    + [Plain(interpreter)] + Plains(FlagWords(interpreter))
    + Plains(args)
  }

  lemma {:induction false} NoEquals(m: seq<Mark>)
    requires forall i :: 0 <= i < |m| ==> m[i] != Mark('=', false)
    ensures EqualsAt(m) == |m|
    decreases |m|
  {
    if m != [] { NoEquals(m[1..]); }
  }

  lemma {:induction false} FirstEquals(a: seq<Mark>, b: seq<Mark>)
    requires forall i :: 0 <= i < |a| ==> a[i] != Mark('=', false)
    ensures EqualsAt(a + [Mark('=', false)] + b) == |a|
    decreases |a|
  {
    var m := a + [Mark('=', false)] + b;
    if a != [] {
      assert m[1..] == a[1..] + [Mark('=', false)] + b;
      FirstEquals(a[1..], b);
    }
  }

  lemma AssignmentIsRead(k: string, v: string)
    requires IsName(k)
    ensures var m := AssignMarks(k, v);
            && IsAssignment(m)
            && Text(m[..EqualsAt(m)]) == k && Text(m[EqualsAt(m) + 1..]) == v
  {
    var m := AssignMarks(k, v);
    var name := Marks(k, false);
    assert m == name + [Mark('=', false)] + Marks(v, true);
    FirstEquals(name, Marks(v, true));
    assert m[..|k|] == name && m[|k| + 1..] == Marks(v, true);
    TextOfMarks(k, false);
    TextOfMarks(v, true);
  }

  lemma {:induction false} MeaningOfAssigns(keys: seq<string>, env: map<string, string>, rest: seq<Token>)
    requires forall k :: k in keys ==> k in env && IsName(k)
    ensures Meaning(EnvTokens(keys, env) + rest, true) == Assigns(keys, env) + Meaning(rest, true)
    decreases |keys|
  {
    if keys == [] {
      assert EnvTokens(keys, env) + rest == rest;
    } else {
      var init, k := keys[..|keys| - 1], keys[|keys| - 1];
      var last := Word(AssignMarks(k, env[k]));
      ThreeParts(EnvTokens(init, env), [last], rest);
      MeaningOfAssigns(init, env, [last] + rest);
      MeaningOfAssign(k, env[k], rest);
      ThreeParts(Assigns(init, env), [Assign(k, env[k])], Meaning(rest, true));
      assert Assigns(keys, env) == Assigns(init, env) + [Assign(k, env[k])];
    }
  }

  lemma MeaningOfAssign(k: string, v: string, rest: seq<Token>)
    requires IsName(k)
    ensures Meaning([Word(AssignMarks(k, v))] + rest, true) == [Assign(k, v)] + Meaning(rest, true)
  {
    AssignmentIsRead(k, v);
    assert ([Word(AssignMarks(k, v))] + rest)[1..] == rest;
  }

  lemma {:induction false} MeaningOfWords(words: seq<string>, tokens: seq<Token>)
    requires Say(tokens, words)
    ensures Meaning(tokens, false) == Plains(words)
    decreases |words|
  {
    if words != [] {
      MeaningOfWords(words[1..], tokens[1..]);
      assert Plains(words) == [Plain(words[0])] + Plains(words[1..]);
    }
  }

  lemma MeaningOfInvocation(interpreter: string, args: seq<string>)
    requires IsCommandName(interpreter)
    ensures Meaning([Word(Marks(interpreter, false))] + (FlagTokens(interpreter) + ArgTokens(args)), true)
         == [Plain(interpreter)] + (Plains(FlagWords(interpreter)) + Plains(args))
  {
    MeaningOfName(interpreter, FlagTokens(interpreter) + ArgTokens(args));
    MeaningOfTail(interpreter, args);
  }

  lemma MeaningOfName(name: string, rest: seq<Token>)
    requires IsCommandName(name)
    ensures Meaning([Word(Marks(name, false))] + rest, true) == [Plain(name)] + Meaning(rest, false)
  {
    NoEquals(Marks(name, false));
    TextOfMarks(name, false);
    assert ([Word(Marks(name, false))] + rest)[1..] == rest;
  }

  lemma MeaningOfTail(interpreter: string, args: seq<string>)
    ensures Meaning(FlagTokens(interpreter) + ArgTokens(args), false) == Plains(FlagWords(interpreter)) + Plains(args)
  {
    FlagsSay(interpreter);
    ArgumentsSay(args);
    MeaningOfBoth(FlagWords(interpreter), args, FlagTokens(interpreter), ArgTokens(args));
  }

  ghost predicate Say(tokens: seq<Token>, words: seq<string>) {
    |tokens| == |words| && forall i :: 0 <= i < |words| ==> tokens[i].Word? && Text(tokens[i].marks) == words[i]
  }

  lemma FlagsSay(interpreter: string)
    ensures Say(FlagTokens(interpreter), FlagWords(interpreter))
  {
    WordSays("-");
    WordSays("-s");
    WordSays("--");
    if interpreter == "python3" {
      assert [] + [Word(Marks("-", false))] == [Word(Marks("-", false))];
    } else {
      SayBoth(["-s"], ["--"], [Word(Marks("-s", false))], [Word(Marks("--", false))]);
      assert ["-s"] + ["--"] == ["-s", "--"];
    }
  }

  lemma WordSays(text: string)
    ensures Say([Word(Marks(text, false))], [text])
  {
    TextOfMarks(text, false);
  }

  lemma SayBoth(a: seq<string>, b: seq<string>, s: seq<Token>, t: seq<Token>)
    requires Say(s, a) && Say(t, b)
    ensures Say(s + t, a + b)
  {
  }

  lemma ArgumentsSay(args: seq<string>)
    ensures Say(ArgTokens(args), args)
  {
    forall i | 0 <= i < |args| ensures Text(ArgTokens(args)[i].marks) == args[i] { TextOfMarks(args[i], true); }
  }

  lemma MeaningOfBoth(a: seq<string>, b: seq<string>, s: seq<Token>, t: seq<Token>)
    requires Say(s, a) && Say(t, b)
    ensures Meaning(s + t, false) == Plains(a) + Plains(b)
  {
    MeaningOfWords(a + b, s + t);
    assert Plains(a + b) == Plains(a) + Plains(b);
  }

  lemma MeaningOfCd(workDir: string, rest: seq<Token>)
    requires workDir != ""
    ensures Meaning(CdTokens(workDir) + rest, true) == [Plain("cd"), Plain(workDir), Then] + Meaning(rest, true)
  {
    var cd, dir := Word(Marks("cd", false)), Word(Marks(workDir, true));
    OneByOne(cd, dir, AndIf, rest);
    MeaningOfName("cd", [dir] + ([AndIf] + rest));
    MeaningOfPlainWord(workDir, [AndIf] + rest);
    MeaningOfAndIf(rest);
    OneByOne(Plain("cd"), Plain(workDir), Then, Meaning(rest, true));
  }

  lemma OneByOne<T>(a: T, b: T, c: T, rest: seq<T>)
    ensures [a, b, c] + rest == [a] + ([b] + ([c] + rest))
  {
  }

  lemma MeaningOfPlainWord(text: string, rest: seq<Token>)
    ensures Meaning([Word(Marks(text, true))] + rest, false) == [Plain(text)] + Meaning(rest, false)
  {
    TextOfMarks(text, true);
    assert ([Word(Marks(text, true))] + rest)[1..] == rest;
  }

  lemma MeaningOfAndIf(rest: seq<Token>)
    ensures Meaning([AndIf] + rest, false) == [Then] + Meaning(rest, true)
  {
    assert ([AndIf] + rest)[1..] == rest;
  }

  /** A shell reads the line as exactly what was meant, whatever characters the arguments,
      the values and the directory contain. */
  lemma CommandReadsBack(interpreter: string, args: seq<string>, keys: seq<string>, env: map<string, string>, workDir: string)
    requires IsCommandName(interpreter) && forall k :: k in keys ==> k in env && IsName(k)
    ensures ReadBack(CommandText(interpreter, args, keys, env, workDir)) == Some(Intended(interpreter, args, keys, env, workDir))
  {
    var invocation := [Word(Marks(interpreter, false))] + (FlagTokens(interpreter) + ArgTokens(args));
    var cd := if workDir == "" then [] else [Plain("cd"), Plain(workDir), Then];
    ReadCommand(interpreter, args, keys, env, workDir);
    MeaningOfCdIfAny(workDir, cd, EnvTokens(keys, env) + invocation);
    MeaningOfAssigns(keys, env, invocation);
    MeaningOfInvocation(interpreter, args);
    FiveParts(cd, Assigns(keys, env), [Plain(interpreter)], Plains(FlagWords(interpreter)), Plains(args));
  }

  lemma MeaningOfCdIfAny(workDir: string, cd: seq<Reading>, rest: seq<Token>)
    requires cd == if workDir == "" then [] else [Plain("cd"), Plain(workDir), Then]
    ensures Meaning(CdTokens(workDir) + rest, true) == cd + Meaning(rest, true)
  {
    if workDir == "" {
      assert CdTokens(workDir) + rest == rest && cd + Meaning(rest, true) == Meaning(rest, true);
    } else {
      MeaningOfCd(workDir, rest);
    }
  }

  /** sshScriptCommand: the text does not depend on the order in which the map is walked,
      and reads back as what was meant. */
  method SshScriptCommand(interpreter: string, args: seq<string>, env: map<string, string>, workDir: string) returns (b: string)
    ensures exists keys :: IsKeyList(keys, env)
    ensures forall keys | IsKeyList(keys, env) ::
      && b == CommandText(interpreter, args, keys, env, workDir)
      && (IsCommandName(interpreter) ==> ReadBack(b) == Some(Intended(interpreter, args, keys, env, workDir)))
  {
    var keys := SortedEnvKeys(env);
    b := Render(interpreter, args, keys, env, workDir);
    forall other | IsKeyList(other, env) ensures other == keys { KeyListIsUnique(other, keys); }
    if IsCommandName(interpreter) { CommandReadsBack(interpreter, args, keys, env, workDir); }
  }

  /** The builder. */
  method Render(interpreter: string, args: seq<string>, keys: seq<string>, env: map<string, string>, workDir: string) returns (b: string)
    requires forall k :: k in keys ==> k in env
    ensures b == CommandText(interpreter, args, keys, env, workDir)
  {
    b := CdPrefix(workDir);
    var prefix := WriteEnv(keys, env);
    b := b + prefix + interpreter;
    if interpreter == "python3" {
      b := b + " -";
    } else {
      b := b + " -s --";
    }
    ghost var head := b;
    for i := 0 to |args|
      invariant b == head + Arguments(args[..i])
    {
      assert args[..i + 1][..i] == args[..i];
      b := b + " ";
      b := b + ShellEscape(args[i]);
    }
    assert args[..|args|] == args;
  }

  /** envPrefix, behind the sorting of the keys. */
  method WriteEnv(keys: seq<string>, env: map<string, string>) returns (b: string)
    requires forall k :: k in keys ==> k in env
    ensures b == EnvPrefix(keys, env)
  {
    b := "";
    for i := 0 to |keys|
      invariant b == EnvPrefix(keys[..i], env)
    {
      assert keys[..i + 1][..i] == keys[..i];
      b := b + keys[i];
      b := b + "=";
      b := b + ShellEscape(env[keys[i]]);
      b := b + " ";
    }
    assert keys[..|keys|] == keys;
  }
}
