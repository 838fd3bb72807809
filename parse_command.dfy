/** The two-pass template substitution of one command line.

    Pass one (`UpdatePath`) replaces the reserved token `PathToAtomicsFolder`
    with a path; pass two (`GetVars`) replaces `#{name}` placeholders with
    values from the argument map. Both passes are left-to-right scanners
    that repeat, until the input is used up, the first alternative that
    applies of: a run of ordinary characters, the thing being replaced, or a
    single character taken literally. */
module Substitution {
  import opened Base
  import opened ArrErrors

  /** The reserved path token. */
  const Token: string := "PathToAtomicsFolder"

  /** `t` occurs in `s` at position `i`. */
  predicate OccursAt(s: string, t: string, i: nat) {
    i + |t| <= |s| && s[i..i + |t|] == t
  }

  /** `t` occurs somewhere in `s`. */
  predicate Occurs(s: string, t: string) {
    exists i :: 0 <= i <= |s| && OccursAt(s, t, i)
  }

  /** `Token` occurs in `s` at position `i`. */
  predicate TokenAt(s: string, i: nat) {
    OccursAt(s, Token, i)
  }

  predicate HasToken(s: string) {
    Occurs(s, Token)
  }

  // ---------------------------------------------------------------------
  // Pass one: the reserved path token

  /** The path pass as the scanner runs it: a run of characters other than
      `P`, else the token (replaced by `artPath`), else one character. When
      the path is the token itself, every piece is copied back as it was. */
  function UpdatePath(s: string, artPath: string): (r: string)
    ensures artPath == Token ==> r == s
    decreases |s|
  {
    if s == [] then []
    else if s[0] != 'P' then
      var run := TakeUntil(s, 'P');
      run + UpdatePath(s[|run|..], artPath)
    else if StartsWith(s, Token) then
      artPath + UpdatePath(s[|Token|..], artPath)
    else
      [s[0]] + UpdatePath(s[1..], artPath)
  }

  /** Reference definition of the path pass, one character at a time:
      the token where it starts, otherwise the character itself. */
  function ReplaceToken(s: string, artPath: string): string
    decreases |s|
  {
    if s == [] then []
    else if TokenAt(s, 0) then artPath + ReplaceToken(s[|Token|..], artPath)
    else [s[0]] + ReplaceToken(s[1..], artPath)
  }

  /** Characters other than `P` are copied by the reference definition. */
  lemma {:induction false} ReplaceTokenPlainPrefix(s: string, k: nat, artPath: string)
    requires k <= |s| && 'P' !in s[..k]
    ensures ReplaceToken(s, artPath) == s[..k] + ReplaceToken(s[k..], artPath)
  {
    if k > 0 {
      assert s[0] == s[..k][0];
      assert s[..k][0] != Token[0];
      assert s[1..][..k - 1] == s[..k][1..];
      ReplaceTokenPlainPrefix(s[1..], k - 1, artPath);
      assert s[..k] == [s[0]] + s[1..][..k - 1];
      assert s[1..][k - 1..] == s[k..];
    }
  }

  /** The run-based scanner computes the reference definition. */
  lemma {:induction false} UpdatePathIsReplaceToken(s: string, artPath: string)
    ensures UpdatePath(s, artPath) == ReplaceToken(s, artPath)
    decreases |s|
  {
    if s == [] {
    } else if s[0] != 'P' {
      var run := TakeUntil(s, 'P');
      assert s[..|run|] == run;
      ReplaceTokenPlainPrefix(s, |run|, artPath);
      UpdatePathIsReplaceToken(s[|run|..], artPath);
    } else if StartsWith(s, Token) {
      assert TokenAt(s, 0);
      UpdatePathIsReplaceToken(s[|Token|..], artPath);
    } else {
      assert !TokenAt(s, 0);
      UpdatePathIsReplaceToken(s[1..], artPath);
    }
  }

  /** An occurrence in `s[1..]` is an occurrence in `s`. */
  lemma TokenShift(s: string, i: nat)
    requires 0 < |s| && TokenAt(s[1..], i)
    ensures TokenAt(s, i + 1)
  {
    assert s[1..][i..i + |Token|] == s[i + 1..i + 1 + |Token|];
  }

  /** `P` is the first character of the token and appears nowhere else in it. */
  lemma TokenHasOneP()
    ensures Token[0] == 'P' && 'P' !in Token[1..]
  {
    assert Token[1..] == "athToAtomicsFolder";
  }

  /** Dropping the first character keeps a text free of the token. */
  lemma NoTokenTail(s: string)
    requires s != [] && !HasToken(s)
    ensures !HasToken(s[1..])
  {
    forall i | 0 <= i <= |s[1..]| ensures !OccursAt(s[1..], Token, i) {
      if TokenAt(s[1..], i) {
        TokenShift(s, i);
      }
    }
  }

  /** Text without the token passes through the path pass unchanged. */
  lemma {:induction false} ReplaceTokenIdentity(s: string, artPath: string)
    requires !HasToken(s)
    ensures ReplaceToken(s, artPath) == s
    decreases |s|
  {
    if s != [] {
      assert !TokenAt(s, 0);
      NoTokenTail(s);
      ReplaceTokenIdentity(s[1..], artPath);
    }
  }

  /** No occurrence of the token starts in a token-free `a` and runs into a
      token that follows it, because `P` appears in the token only at its front. */
  lemma NoTokenBefore(a: string, b: string)
    requires a != [] && !HasToken(a)
    ensures !TokenAt(a + Token + b, 0)
  {
    var s := a + Token + b;
    TokenHasOneP();
    if |a| >= |Token| {
      assert s[..|Token|] == a[..|Token|];
      assert !TokenAt(a, 0);
    } else {
      assert s[|a|] == 'P';
      assert Token[|a|] == Token[1..][|a| - 1];
      assert s[..|Token|][|a|] != Token[|a|];
    }
  }

  /** The first occurrence of the token is replaced, and the text before it
      is copied as it is. */
  lemma {:induction false} ReplaceTokenFirst(a: string, b: string, artPath: string)
    requires !HasToken(a)
    ensures ReplaceToken(a + Token + b, artPath) == a + artPath + ReplaceToken(b, artPath)
    decreases |a|
  {
    if a == [] {
      assert a + Token + b == Token + b;
      ReplaceTokenAtFront(b, artPath);
    } else {
      NoTokenBefore(a, b);
      NoTokenTail(a);
      ReplaceTokenFirst(a[1..], b, artPath);
      var m := Token + b;
      assert a + Token + b == a + m && a[1..] + Token + b == a[1..] + m;
      ReplaceTokenFirstStep(a, m, artPath, ReplaceToken(b, artPath));
    }
  }

  /** One step of `ReplaceTokenFirst`: a first character that does not
      start the token is copied in front of the rest's result. */
  lemma ReplaceTokenFirstStep(a: string, m: string, artPath: string, tail: string)
    requires a != [] && !TokenAt(a + m, 0)
    requires ReplaceToken(a[1..] + m, artPath) == a[1..] + artPath + tail
    ensures ReplaceToken(a + m, artPath) == a + artPath + tail
  {
    var s := a + m;
    ReplaceTokenCons(s, artPath);
    assert s[0] == a[0] && s[1..] == a[1..] + m;
    assert a + artPath + tail == [a[0]] + (a[1..] + artPath + tail);
  }

  /** A token at the front is replaced. */
  lemma ReplaceTokenAtFront(b: string, artPath: string)
    ensures ReplaceToken(Token + b, artPath) == artPath + ReplaceToken(b, artPath)
  {
    var s := Token + b;
    assert TokenAt(s, 0);
    assert s[|Token|..] == b;
  }

  /** A character that does not start the token is copied. */
  lemma ReplaceTokenCons(s: string, artPath: string)
    requires s != [] && !TokenAt(s, 0)
    ensures ReplaceToken(s, artPath) == [s[0]] + ReplaceToken(s[1..], artPath)
  {
  }

  /** The path pass never fails and leaves text without the token as it is. */
  lemma UpdatePathIdentity(s: string, artPath: string)
    requires !HasToken(s)
    ensures UpdatePath(s, artPath) == s
  {
    UpdatePathIsReplaceToken(s, artPath);
    ReplaceTokenIdentity(s, artPath);
  }

  /** The path pass replaces the first token by `artPath`, copies what comes
      before it and goes on after it; with `UpdatePathIdentity` this fixes the
      result on every input: every token replaced, every other character kept. */
  lemma UpdatePathReplacesFirst(a: string, b: string, artPath: string)
    requires !HasToken(a)
    ensures UpdatePath(a + Token + b, artPath) == a + artPath + UpdatePath(b, artPath)
  {
    UpdatePathIsReplaceToken(a + Token + b, artPath);
    UpdatePathIsReplaceToken(b, artPath);
    ReplaceTokenFirst(a, b, artPath);
  }

  /** Text made of characters that cannot start the token holds no token. */
  lemma NoTokenWithoutP(s: string)
    requires 'P' !in s
    ensures !HasToken(s)
  {
    forall i | 0 <= i <= |s| ensures !OccursAt(s, Token, i) {
      if i + |Token| <= |s| {
        assert s[i..i + |Token|][0] == s[i];
      }
    }
  }

  /** The repository's own example of the path pass. */
  lemma UpdatePathExample()
    ensures UpdatePath("___PathToAtomicsFolder/LOL/123", "yolo") == "___yolo/LOL/123"
  {
    var a, b := "___", "/LOL/123";
    assert "___PathToAtomicsFolder/LOL/123" == a + Token + b;
    assert a + "yolo" + b == "___yolo/LOL/123";
    NoTokenWithoutP(a);
    NoTokenWithoutP(b);
    UpdatePathReplacesFirst(a, b, "yolo");
    UpdatePathIdentity(b, "yolo");
  }

  // ---------------------------------------------------------------------
  // Pass two: `#{name}` placeholders

  /** A name the placeholder scanner can read: at least one character, and
      no closing brace. */
  predicate ValidName(n: string) {
    |n| > 0 && '}' !in n
  }

  function Placeholder(n: string): string {
    "#{" + n + "}"
  }

  /** A complete placeholder at the front of `s`: the opener, a non-empty
      run without `}`, and the closing brace. */
  function MatchPlaceholder(s: string): (r: Option<string>)
    ensures r.Some? ==> ValidName(r.value) && StartsWith(s, Placeholder(r.value))
    ensures r.Some? ==> s[|r.value| + 2] == '}'
  {
    if StartsWith(s, "#{") then
      var name := TakeUntil(s[2..], '}');
      if 0 < |name| < |s| - 2 then
        assert s[..|name| + 3] == "#{" + name + "}";
        Some(name)
      else None
    else None
  }

  /** A placeholder is recognised whatever follows it. */
  lemma MatchPlaceholderOf(n: string, t: string)
    requires ValidName(n)
    ensures MatchPlaceholder(Placeholder(n) + t) == Some(n)
  {
    var s := Placeholder(n) + t;
    assert s[..2] == "#{";
    assert s[2..] == n + "}" + t;
    TakeUntilUnique(s[2..], '}', n);
  }

  /** `lookup_value`: the name's value, or a failure that carries the name. */
  function LookupValue(args: map<string, string>, name: string): (r: Result<string, string>)
    ensures r.Ok? <==> name in args
    ensures r.Ok? ==> r.value == args[name]
    ensures r.Err? ==> r.error == name
  {
    if name in args then Ok(args[name]) else Err(name)
  }

  /** `p` in front of a successful scan; a failure is passed on. */
  function Prefixed(p: string, r: Result<string, string>): Result<string, string> {
    match r
    case Ok(t) => Ok(p + t)
    case Err(n) => Err(n)
  }

  /** The placeholder pass as the scanner runs it: a run of characters other
      than `#`, else a complete placeholder (replaced by its value, failing
      outright when the name is missing), else one character taken
      literally. A failure carries the name that was not found. */
  function GetVars(s: string, args: map<string, string>): (r: Result<string, string>)
    ensures r.Err? ==> ValidName(r.error) && r.error !in args
    decreases |s|
  {
    if s == [] then Ok([])
    else if s[0] != '#' then
      var run := TakeUntil(s, '#');
      Prefixed(run, GetVars(s[|run|..], args))
    else
      match MatchPlaceholder(s)
      case Some(name) =>
        (match LookupValue(args, name)
         case Ok(value) => Prefixed(value, GetVars(s[|name| + 3..], args))
         case Err(missing) => Err(missing))
      case None => Prefixed("#", GetVars(s[1..], args))
  }

  lemma PrefixedTwice(a: string, b: string, r: Result<string, string>)
    ensures Prefixed(a, Prefixed(b, r)) == Prefixed(a + b, r)
  {
    if r.Ok? {
      assert a + (b + r.value) == (a + b) + r.value;
    }
  }

  lemma PrefixedEmpty(r: Result<string, string>)
    ensures Prefixed([], r) == r
  {
    if r.Ok? {
      assert [] + r.value == r.value;
    }
  }

  /** A prefix without `#` is copied to the output, whatever follows it. */
  lemma {:induction false} GetVarsLiteralPrefix(s: string, k: nat, args: map<string, string>)
    requires k <= |s| && '#' !in s[..k]
    ensures GetVars(s, args) == Prefixed(s[..k], GetVars(s[k..], args))
  {
    if k > 0 {
      assert s[..k - 1] == s[..k][..k - 1];
      GetVarsLiteralPrefix(s, k - 1, args);
      var t := s[k - 1..];
      assert t[0] == s[..k][k - 1] && t[1..] == s[k..];
      GetVarsStep(t, args);
      PrefixedTwice(s[..k - 1], [t[0]], GetVars(s[k..], args));
      assert s[..k - 1] + [t[0]] == s[..k];
    } else {
      assert s[k..] == s;
      PrefixedEmpty(GetVars(s, args));
    }
  }

  /** A character other than `#` at the front is copied. */
  lemma GetVarsStep(t: string, args: map<string, string>)
    requires t != [] && t[0] != '#'
    ensures GetVars(t, args) == Prefixed([t[0]], GetVars(t[1..], args))
  {
    var run := TakeUntil(t, '#');
    if |run| == 1 {
      GetVarsRun(t, args);
      assert run == [t[0]];
    } else {
      GetVarsStepInRun(t, args);
    }
  }

  /** `GetVarsStep` when the run of characters other than `#` goes on. */
  lemma GetVarsStepInRun(t: string, args: map<string, string>)
    requires t != [] && |TakeUntil(t, '#')| > 1
    ensures GetVars(t, args) == Prefixed([t[0]], GetVars(t[1..], args))
  {
    var run := TakeUntil(t, '#');
    var tail := GetVars(t[|run|..], args);
    GetVarsRun(t, args);
    TakeUntilDrop(t, '#', 1);
    assert t[1..][0] == run[1] && run[1] in run;
    GetVarsRun(t[1..], args);
    assert t[1..][|run| - 1..] == t[|run|..];
    PrefixedTwice([t[0]], run[1..], tail);
    assert [t[0]] + run[1..] == run;
  }

  /** Text that starts without `#` copies its first run of such characters. */
  lemma GetVarsRun(s: string, args: map<string, string>)
    requires s != [] && s[0] != '#'
    ensures GetVars(s, args) == Prefixed(TakeUntil(s, '#'), GetVars(s[|TakeUntil(s, '#')|..], args))
  {
  }

  /** Text without `#` is returned unchanged. */
  lemma GetVarsNoHash(s: string, args: map<string, string>)
    requires '#' !in s
    ensures GetVars(s, args) == Ok(s)
  {
    GetVarsLiteralPrefix(s, |s|, args);
    assert s[..|s|] == s && s[|s|..] == [] && s + [] == s;
  }

  /** A placeholder at the front is replaced by its value, or fails with its
      name when the name is missing. */
  lemma GetVarsPlaceholder(n: string, t: string, args: map<string, string>)
    requires ValidName(n)
    ensures GetVars(Placeholder(n) + t, args)
         == if n in args then Prefixed(args[n], GetVars(t, args)) else Err(n)
  {
    MatchPlaceholderOf(n, t);
    assert (Placeholder(n) + t)[|n| + 3..] == t;
  }

  /** `pre + #{n} + post` with no `#` in `pre`: the placeholder is the first
      one, so a missing `n` fails the whole scan with `n`; otherwise `pre`
      is kept, the value takes the placeholder's place, and the scan goes on
      in `post`. */
  lemma GetVarsSubstitutes(pre: string, n: string, post: string, args: map<string, string>)
    requires '#' !in pre && ValidName(n)
    ensures GetVars(pre + Placeholder(n) + post, args)
         == if n in args then Prefixed(pre + args[n], GetVars(post, args)) else Err(n)
  {
    var s := pre + Placeholder(n) + post;
    assert s[..|pre|] == pre;
    assert s[|pre|..] == Placeholder(n) + post;
    GetVarsLiteralPrefix(s, |pre|, args);
    GetVarsPlaceholder(n, post, args);
    if n in args {
      PrefixedTwice(pre, args[n], GetVars(post, args));
    }
  }

  /** Without a closing brace nothing can be a placeholder, and the text is
      returned unchanged: an opener without its `}` is passed through. */
  lemma {:induction false} GetVarsNoClose(s: string, args: map<string, string>)
    requires '}' !in s
    ensures GetVars(s, args) == Ok(s)
    decreases |s|
  {
    if s != [] {
      if s[0] != '#' {
        var run := TakeUntil(s, '#');
        GetVarsRun(s, args);
        GetVarsNoClose(s[|run|..], args);
        assert s == run + s[|run|..];
      } else {
        GetVarsLiteralHash(s, args);
        GetVarsNoClose(s[1..], args);
        assert s == "#" + s[1..];
      }
    }
  }

  /** A `#` that opens no placeholder, for want of a closing brace, is copied. */
  lemma GetVarsLiteralHash(s: string, args: map<string, string>)
    requires s != [] && s[0] == '#' && '}' !in s
    ensures GetVars(s, args) == Prefixed("#", GetVars(s[1..], args))
  {
    assert MatchPlaceholder(s).None?;
  }

  /** An empty `#{}` is not a placeholder: it is kept literally. */
  lemma GetVarsEmptyBraces(t: string, args: map<string, string>)
    ensures GetVars("#{}" + t, args) == Prefixed("#{}", GetVars(t, args))
  {
    var s := "#{}" + t;
    assert s[2..][0] == '}';
    assert MatchPlaceholder(s) == None;
    assert s[1..] == "{}" + t;
    GetVarsLiteralPrefix(s[1..], 2, args);
    assert s[1..][..2] == "{}";
    assert s[1..][2..] == t;
    PrefixedTwice("#", "{}", GetVars(t, args));
    assert "#" + "{}" == "#{}";
  }

  /** A `#` that does not open a complete placeholder is kept literally. */
  lemma GetVarsFalseStart(t: string, args: map<string, string>)
    requires t == [] || t[0] != '{'
    ensures GetVars("#" + t, args) == Prefixed("#", GetVars(t, args))
  {
    var s := "#" + t;
    assert !StartsWith(s, "#{") by {
      if |s| >= 2 {
        assert s[..2][1] == t[0] != '{';
      }
    }
    assert MatchPlaceholder(s) == None;
    assert s[1..] == t;
  }

  /** No `#` in the text is directly followed by `{`, so nothing in it can
      open a placeholder. */
  predicate NoOpener(s: string) {
    forall i :: 0 <= i < |s| - 1 ==> !(s[i] == '#' && s[i + 1] == '{')
  }

  /** Dropping characters from the front keeps a text free of openers. */
  lemma NoOpenerSuffix(s: string, k: nat)
    requires NoOpener(s) && k <= |s|
    ensures NoOpener(s[k..])
  {
    var t := s[k..];
    forall i | 0 <= i < |t| - 1 ensures !(t[i] == '#' && t[i + 1] == '{') {
      assert t[i] == s[k + i] && t[i + 1] == s[k + i + 1];
    }
  }

  /** Text free of openers starts with a piece that is copied literally:
      a run without `#`, or a single `#`. */
  lemma NoOpenerHead(s: string, args: map<string, string>) returns (k: nat)
    requires s != [] && NoOpener(s)
    ensures 0 < k <= |s|
    ensures GetVars(s, args) == Prefixed(s[..k], GetVars(s[k..], args))
  {
    if s[0] != '#' {
      var run := TakeUntil(s, '#');
      assert |run| > 0 by { assert StartsWith(s, run); }
      GetVarsRun(s, args);
      k := |run|;
      assert s[..k] == run;
    } else {
      var t := s[1..];
      assert t == [] || t[0] != '{' by {
        if t != [] {
          assert s[0] == '#' && s[1] == t[0];
        }
      }
      assert "#" + t == s;
      GetVarsFalseStart(t, args);
      k := 1;
      assert s[..k] == "#";
    }
  }

  /** Text in which no `#` opens a placeholder is returned unchanged: every
      `#`, even a run of them, is kept literally. */
  lemma {:induction false} GetVarsNoOpener(s: string, args: map<string, string>)
    requires NoOpener(s)
    ensures GetVars(s, args) == Ok(s)
    decreases |s|
  {
    if s != [] {
      var k := NoOpenerHead(s, args);
      NoOpenerSuffix(s, k);
      GetVarsNoOpener(s[k..], args);
      assert s[..k] + s[k..] == s;
    }
  }


  // ---------------------------------------------------------------------
  // A reference definition: templates built from literal text and variables

  datatype Segment = Lit(text: string) | Var(name: string)

  /** Literal text holds no `#` and every variable name is readable. */
  predicate WellFormed(segs: seq<Segment>) {
    forall i :: 0 <= i < |segs| ==>
      match segs[i]
      case Lit(text) => '#' !in text
      case Var(name) => ValidName(name)
  }

  /** The template text of a list of segments. */
  function Render(segs: seq<Segment>): string {
    if segs == [] then []
    else
      match segs[0]
      case Lit(text) => text + Render(segs[1..])
      case Var(name) => Placeholder(name) + Render(segs[1..])
  }

  /** What substitution should produce: each variable replaced by its
      value from left to right, failing with the first missing name. */
  function Substitute(segs: seq<Segment>, args: map<string, string>): Result<string, string> {
    if segs == [] then Ok([])
    else
      match segs[0]
      case Lit(text) => Prefixed(text, Substitute(segs[1..], args))
      case Var(name) =>
        if name in args then Prefixed(args[name], Substitute(segs[1..], args))
        else Err(name)
  }

  /** The scanner meets the reference definition on every well-formed
      template: all placeholders replaced in order, the surrounding text
      kept, and the first missing name reported. */
  lemma {:induction false} GetVarsRender(segs: seq<Segment>, args: map<string, string>)
    requires WellFormed(segs)
    ensures GetVars(Render(segs), args) == Substitute(segs, args)
  {
    if segs != [] {
      assert WellFormed(segs[1..]) by {
        forall i | 0 <= i < |segs[1..]| ensures segs[1..][i] == segs[i + 1] { }
      }
      GetVarsRender(segs[1..], args);
      match segs[0]
      case Lit(text) =>
        var s := Render(segs);
        assert '#' !in text by { assert segs[0] == segs[0]; }
        assert s[..|text|] == text;
        assert s[|text|..] == Render(segs[1..]);
        GetVarsLiteralPrefix(s, |text|, args);
      case Var(name) =>
        assert ValidName(name);
        GetVarsPlaceholder(name, Render(segs[1..]), args);
    }
  }

  /** An occurrence in a suffix is an occurrence. */
  lemma OccursInSuffix(s: string, t: string, k: nat)
    requires k <= |s| && Occurs(s[k..], t)
    ensures Occurs(s, t)
  {
    var i :| 0 <= i <= |s[k..]| && OccursAt(s[k..], t, i);
    assert s[k..][i..i + |t|] == s[k + i..k + i + |t|];
    assert OccursAt(s, t, k + i);
  }

  /** A scan fails only on a complete placeholder, which appears in the
      input, whose name is missing. */
  lemma {:induction false} GetVarsErrOccurs(s: string, args: map<string, string>)
    requires GetVars(s, args).Err?
    ensures Occurs(s, Placeholder(GetVars(s, args).error))
    decreases |s|
  {
    var n := GetVars(s, args).error;
    var m := MatchPlaceholder(s);
    if s[0] == '#' && m.Some? && m.value !in args {
      assert n == m.value;
      assert OccursAt(s, Placeholder(n), 0);
    } else {
      var k: nat := if s[0] != '#' then |TakeUntil(s, '#')| else if m.Some? then |m.value| + 3 else 1;
      assert 0 < k <= |s|;
      assert GetVars(s[k..], args).Err? && GetVars(s[k..], args).error == n;
      GetVarsErrOccurs(s[k..], args);
      OccursInSuffix(s, Placeholder(n), k);
    }
  }

  // ---------------------------------------------------------------------
  // Both passes

  /** One command line: the path pass, then the placeholder pass. A missing
      name becomes `ArgValueNotFound` carrying that name. */
  function ParseCommand(command: string, artPath: string, args: map<string, string>)
    : (r: Result<string, ArrError>)
    ensures r.Err? ==> r.error.ArgValueNotFound? && r.error.name !in args
  {
    match GetVars(UpdatePath(command, artPath), args)
    case Ok(c) => Ok(c)
    case Err(name) => Err(ArgValueNotFound(name))
  }

  /** A placeholder holds no token if its name holds none. */
  lemma PlaceholderNoToken(n: string)
    requires !HasToken(n)
    ensures !HasToken(Placeholder(n))
  {
    var s := Placeholder(n);
    forall i | 0 <= i <= |s| ensures !OccursAt(s, Token, i) {
      if i + |Token| <= |s| {
        if i < 2 {
          assert s[i..i + |Token|][0] == s[i];
        } else if i + |Token| < |s| {
          assert s[i..i + |Token|] == n[i - 2..i - 2 + |Token|];
          assert !OccursAt(n, Token, i - 2);
        } else {
          assert s[i..i + |Token|][|Token| - 1] == '}';
        }
      }
    }
  }

  /** A line with neither the token nor a `#{` is returned as it is, so a
      fully resolved line is a fixed point of substitution; stray `#`s
      survive it. */
  lemma ParseCommandPlain(command: string, artPath: string, args: map<string, string>)
    requires !HasToken(command) && NoOpener(command)
    ensures ParseCommand(command, artPath, args) == Ok(command)
  {
    UpdatePathIdentity(command, artPath);
    GetVarsNoOpener(command, args);
  }

  /** A substituted value is inserted as it is and never scanned again: even
      a value holding the token or a placeholder comes out literally. */
  lemma ParseCommandValueLiteral(n: string, artPath: string, args: map<string, string>)
    requires ValidName(n) && !HasToken(n) && n in args
    ensures ParseCommand(Placeholder(n), artPath, args) == Ok(args[n])
  {
    PlaceholderNoToken(n);
    UpdatePathIdentity(Placeholder(n), artPath);
    GetVarsPlaceholder(n, [], args);
    assert Placeholder(n) + [] == Placeholder(n);
    assert args[n] + [] == args[n];
  }

  /** A placeholder whose name is missing fails the line with that name. */
  lemma ParseCommandMissing(n: string, artPath: string, args: map<string, string>)
    requires ValidName(n) && !HasToken(n) && n !in args
    ensures ParseCommand(Placeholder(n), artPath, args) == Err(ArgValueNotFound(n))
  {
    PlaceholderNoToken(n);
    UpdatePathIdentity(Placeholder(n), artPath);
    GetVarsPlaceholder(n, [], args);
    assert Placeholder(n) + [] == Placeholder(n);
  }

  /** The path is put in before placeholders are looked at, so a path goes
      through the placeholder pass just as if it were the command itself
      (its placeholders are replaced, a missing name fails the line). */
  lemma ParseCommandPathFirst(artPath: string, other: string, args: map<string, string>)
    requires !HasToken(artPath)
    ensures ParseCommand(Token, artPath, args) == ParseCommand(artPath, other, args)
  {
    NoTokenWithoutP([]);
    assert [] + Token + [] == Token;
    UpdatePathReplacesFirst([], [], artPath);
    assert artPath + [] == artPath;
    UpdatePathIdentity(artPath, other);
  }
}
