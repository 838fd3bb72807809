/** Small value types and string helpers shared by every other module:
    the Rust `Option`/`Result` pair, a unit-valued outcome, and the handful
    of `str` operations (`is_not`, `split`, `lines`, `join`) the program uses. */
module Base {

  datatype Option<+T> = None | Some(value: T)

  datatype Result<+T, +E> = Ok(value: T) | Err(error: E)

  /** `Result<(), E>`: a step that either passes or fails with an error. */
  datatype Outcome<+E> = Pass | Fail(error: E)

  /** `s` starts with `p`. */
  predicate StartsWith<T(==)>(s: seq<T>, p: seq<T>) {
    |p| <= |s| && s[..|p|] == p
  }

  /** The longest prefix of `s` holding no `c`: nom's `is_not` with a
      one-character set, before its "at least one character" check. */
  function TakeUntil<T(==)>(s: seq<T>, c: T): (r: seq<T>)
    ensures StartsWith(s, r)
    ensures c !in r
    ensures |r| == |s| || s[|r|] == c
  {
    if s == [] || s[0] == c then [] else [s[0]] + TakeUntil(s[1..], c)
  }

  /** The three clauses of `TakeUntil` determine its result. */
  lemma {:induction false} TakeUntilUnique<T>(s: seq<T>, c: T, p: seq<T>)
    requires StartsWith(s, p) && c !in p && (|p| == |s| || s[|p|] == c)
    ensures TakeUntil(s, c) == p
  {
    if s != [] && s[0] != c {
      assert p != [] && p[0] == s[0];
      TakeUntilUnique(s[1..], c, p[1..]);
      assert p == [s[0]] + p[1..];
    }
  }

  /** Cutting `k` characters off a run that holds no `c` leaves the rest of the run. */
  lemma TakeUntilDrop<T>(s: seq<T>, c: T, k: nat)
    requires k <= |TakeUntil(s, c)|
    ensures TakeUntil(s[k..], c) == TakeUntil(s, c)[k..]
  {
    var r := TakeUntil(s, c);
    TakeUntilUnique(s[k..], c, r[k..]);
  }

  /** A prefix free of `c` is part of the run `TakeUntil` takes. */
  lemma {:induction false} TakeUntilCovers<T>(s: seq<T>, c: T, k: nat)
    requires k <= |s| && c !in s[..k]
    ensures k <= |TakeUntil(s, c)|
  {
    if k > 0 {
      assert s[0] == s[..k][0];
      assert s[1..][..k - 1] == s[..k][1..];
      TakeUntilCovers(s[1..], c, k - 1);
    }
  }

  /** `f` applied to each element in order, stopping at the first failure:
      the list of results when every element succeeds, otherwise the error
      of the first element that fails. */
  function AllOk<A, B, E>(xs: seq<A>, f: A -> Result<B, E>): (r: Result<seq<B>, E>)
    ensures r.Ok? <==> forall i :: 0 <= i < |xs| ==> f(xs[i]).Ok?
    ensures r.Ok? ==> |r.value| == |xs| && forall i :: 0 <= i < |xs| ==> Ok(r.value[i]) == f(xs[i])
    ensures r.Err? ==> exists i :: 0 <= i < |xs| && f(xs[i]) == Err(r.error)
                                   && forall j :: 0 <= j < i ==> f(xs[j]).Ok?
  {
    if xs == [] then Ok([])
    else
      assert forall i :: 1 <= i < |xs| ==> xs[i] == xs[1..][i - 1];
      match f(xs[0])
      case Err(e) => Err(e)
      case Ok(first) =>
        match AllOk(xs[1..], f)
        case Err(e) =>
          ghost var i :| 0 <= i < |xs| - 1 && f(xs[1..][i]) == Err(e)
                        && forall j :: 0 <= j < i ==> f(xs[1..][j]).Ok?;
          assert f(xs[i + 1]) == Err(e) && forall j :: 1 <= j < i + 1 ==> f(xs[j]).Ok?;
          Err(e)
        case Ok(rest) =>
          var r := [first] + rest;
          assert forall i :: 1 <= i < |xs| ==> r[i] == rest[i - 1];
          Ok(r)
  }

  /** `pieces.join(sep)`. */
  function Join(pieces: seq<string>, sep: string): (r: string)
    ensures |pieces| == 1 ==> r == pieces[0]
    ensures pieces == [] ==> r == []
  {
    if |pieces| == 0 then []
    else if |pieces| == 1 then pieces[0]
    else pieces[0] + sep + Join(pieces[1..], sep)
  }

  /** `s.split(c)`: the text between consecutive `c`s, so there is always
      one more piece than there are separators; `SplitJoin` shows it is
      undone by joining with `c`. */
  function Split(s: string, c: char): (r: seq<string>)
    ensures |r| >= 1 && r[0] == TakeUntil(s, c)
    decreases |s|
  {
    var head := TakeUntil(s, c);
    if |head| == |s| then [s]
    else [head] + Split(s[|head| + 1..], c)
  }

  /** No piece holds the separator. */
  lemma {:induction false} SplitPieces(s: string, c: char)
    ensures forall i :: 0 <= i < |Split(s, c)| ==> c !in Split(s, c)[i]
    decreases |s|
  {
    var head := TakeUntil(s, c);
    if |head| < |s| {
      SplitUnfold(s, c);
      SplitPieces(s[|head| + 1..], c);
    }
  }

  /** Joining the pieces with the separator gives the text back. */
  lemma {:induction false} SplitJoin(s: string, c: char)
    ensures Join(Split(s, c), [c]) == s
    decreases |s|
  {
    var head := TakeUntil(s, c);
    if |head| == |s| {
      assert head == s[..|head|];
    } else {
      var rest := s[|head| + 1..];
      SplitUnfold(s, c);
      SplitJoin(rest, c);
      JoinCons(head, Split(rest, c), [c]);
    }
  }

  /** A text with a separator is its first piece, the separator and the rest. */
  lemma SplitUnfold(s: string, c: char)
    requires |TakeUntil(s, c)| < |s|
    ensures var head := TakeUntil(s, c);
            && Split(s, c) == [head] + Split(s[|head| + 1..], c)
            && s == head + [c] + s[|head| + 1..]
  {
    var head := TakeUntil(s, c);
    assert s[..|head|] == head;
    assert s == s[..|head|] + [s[|head|]] + s[|head| + 1..];
  }

  lemma JoinCons(head: string, tail: seq<string>, sep: string)
    requires tail != []
    ensures Join([head] + tail, sep) == head + sep + Join(tail, sep)
  {
    var r := [head] + tail;
    assert r[0] == head && r[1..] == tail;
  }

  /** With a separator in the text, the second piece runs from just after
      the first separator up to the next one. */
  lemma SplitSecond(s: string, c: char)
    requires c in s
    ensures |Split(s, c)| >= 2
    ensures Split(s, c)[1] == TakeUntil(s[|TakeUntil(s, c)| + 1..], c)
  {
  }

  /** Drops one trailing carriage return. */
  function StripCr(line: string): (r: string)
    ensures r == line || r + "\r" == line
  {
    if |line| > 0 && line[|line| - 1] == '\r' then line[..|line| - 1] else line
  }

  /** `s.lines()`: pieces ended by "\n" or "\r\n"; the last line needs no
      ending, and an ending at the very end does not start an empty line. */
  function Lines(s: string): (r: seq<string>)
    ensures forall i :: 0 <= i < |r| ==> '\n' !in r[i]
    ensures s == [] <==> r == []
    decreases |s|
  {
    if s == [] then []
    else
      var head := TakeUntil(s, '\n');
      if |head| == |s| then [s]
      else [StripCr(head)] + Lines(s[|head| + 1..])
  }

  /** A text with no line ending is a single line. */
  lemma LinesOfOneLine(s: string)
    requires s != [] && '\n' !in s
    ensures Lines(s) == [s]
  {
    TakeUntilUnique(s, '\n', s);
  }

  /** Each line ended by "\n" (and holding no "\r") comes out as it was. */
  lemma {:induction false} LinesOfJoined(ls: seq<string>)
    requires forall i :: 0 <= i < |ls| ==> '\n' !in ls[i] && '\r' !in ls[i]
    ensures Lines(JoinTerminated(ls)) == ls
  {
    if ls != [] {
      var s := JoinTerminated(ls);
      assert s == ls[0] + "\n" + JoinTerminated(ls[1..]);
      TakeUntilUnique(s, '\n', ls[0]);
      assert s[|ls[0]| + 1..] == JoinTerminated(ls[1..]);
      if |ls[0]| > 0 {
        assert ls[0][|ls[0]| - 1] in ls[0];
      }
      assert StripCr(ls[0]) == ls[0];
      LinesOfJoined(ls[1..]);
    }
  }

  /** A line ended by "\n" comes out with one trailing "\r" dropped, and
      the rest of the text is split on its own. */
  lemma LinesCons(a: string, b: string)
    requires '\n' !in a
    ensures Lines(a + "\n" + b) == [StripCr(a)] + Lines(b)
  {
    var s := a + "\n" + b;
    TakeUntilUnique(s, '\n', a);
    assert s[|a| + 1..] == b;
  }

  /** A line ended by "\r\n" comes out without either character. */
  lemma LinesCrLf(a: string, b: string)
    requires '\n' !in a
    ensures Lines(a + "\r\n" + b) == [a] + Lines(b)
  {
    assert a + "\r\n" + b == (a + "\r") + "\n" + b;
    LinesCons(a + "\r", b);
    assert (a + "\r")[..|a|] == a;
  }

  /** Every line followed by "\n". */
  function JoinTerminated(ls: seq<string>): string {
    if ls == [] then [] else ls[0] + "\n" + JoinTerminated(ls[1..])
  }
}
