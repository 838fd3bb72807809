/** The command line front end: `--set-var NAME=VALUE` pairs, the
    override map built from them, and the one-based test number. */
module Cli {
  import opened Base
  import opened Lib

  const VarFormatMessage: string :=
    "Please specify variables using the VARIABLE=VALUE format (no spaces around '=')"

  /** `parse_vars`: the text before the first `=` is the name, the text
      between the first and the second `=` (or the end) is the value;
      `ParseVarsIsSplit` shows these are the first two pieces of `split`. */
  function ParseVars(s: string): (r: Result<(string, string), string>)
    ensures r.Err? <==> '=' !in s
    ensures r.Err? ==> r.error == VarFormatMessage
    ensures r.Ok? ==> var (name, value) := r.value;
              && '=' !in name && '=' !in value
              && StartsWith(s, name + "=" + value)
              && (|name| + 1 + |value| == |s| || s[|name| + 1 + |value|] == '=')
  {
    if '=' !in s then Err(VarFormatMessage)
    else
      var name := TakeUntil(s, '=');
      assert |name| < |s|;
      var rest := s[|name| + 1..];
      var value := TakeUntil(rest, '=');
      assert s[..|name| + 1 + |value|] == name + "=" + value by {
        assert s[..|name| + 1 + |value|] == s[..|name|] + [s[|name|]] + rest[..|value|];
      }
      Ok((name, value))
  }

  /** The pair is the first two pieces of `s.split('=')`. */
  lemma ParseVarsIsSplit(s: string)
    requires '=' in s
    ensures ParseVars(s) == Ok((Split(s, '=')[0], Split(s, '=')[1]))
  {
    SplitSecond(s, '=');
  }

  /** A pair written as `NAME=VALUE` parses back to itself. */
  lemma ParseVarsRoundTrip(name: string, value: string)
    requires '=' !in name && '=' !in value
    ensures ParseVars(name + "=" + value) == Ok((name, value))
  {
    var s := name + "=" + value;
    assert s[|name|] == '=';
    ParseVarsDetermined(s, name, value);
  }

  /** A value is cut at its first `=`: whatever follows is dropped. */
  lemma ParseVarsDropsRest(name: string, value: string, rest: string)
    requires '=' !in name && '=' !in value
    ensures ParseVars(name + "=" + value + "=" + rest) == Ok((name, value))
  {
    var s := name + "=" + value + "=" + rest;
    assert s[|name|] == '=';
    assert s[..|name| + 1 + |value|] == name + "=" + value;
    assert s[|name| + 1 + |value|] == '=';
    ParseVarsDetermined(s, name, value);
  }

  /** What `ParseVars` promises of a successful parse determines its result. */
  lemma ParseVarsDetermined(s: string, name: string, value: string)
    requires '=' !in name && '=' !in value && StartsWith(s, name + "=" + value)
    requires |name| + 1 + |value| == |s| || s[|name| + 1 + |value|] == '='
    ensures ParseVars(s) == Ok((name, value))
  {
    assert s[|name|] == (name + "=" + value)[|name|] == '=';
    assert s[..|name|] == (name + "=" + value)[..|name|] == name;
    TakeUntilUnique(s, '=', name);
    var rest := s[|name| + 1..];
    assert rest[..|value|] == (name + "=" + value)[|name| + 1..] == value;
    TakeUntilUnique(rest, '=', value);
  }

  lemma ParseVarsExamples()
    ensures ParseVars("a=b=c") == Ok(("a", "b"))
    ensures ParseVars("=v") == Ok(("", "v"))
    ensures ParseVars("k=") == Ok(("k", ""))
  {
    assert "a=b=c" == "a" + "=" + "b" + "=" + "c";
    ParseVarsDropsRest("a", "b", "c");
    assert "=v" == "" + "=" + "v";
    ParseVarsRoundTrip("", "v");
    assert "k=" == "k" + "=" + "";
    ParseVarsRoundTrip("k", "");
  }

  lemma ParseVarsNoEquals()
    ensures ParseVars("abc") == Err(VarFormatMessage)
  {
  }

  /** Every argument given to `--set-var` is parsed, in order; the first
      one that fails decides the error. */
  function ParseAllVars(raw: seq<string>): (r: Result<seq<(string, string)>, string>)
    ensures r.Ok? <==> forall i :: 0 <= i < |raw| ==> ParseVars(raw[i]).Ok?
    ensures r.Ok? ==> |r.value| == |raw| && forall i :: 0 <= i < |raw| ==> Ok(r.value[i]) == ParseVars(raw[i])
    ensures r.Err? ==> r.error == VarFormatMessage
  {
    AllOk(raw, ParseVars)
  }

  /** The list is accepted exactly when every argument holds `=`, and the
      error is the format message. */
  lemma ParseAllVarsAccepts(raw: seq<string>)
    ensures ParseAllVars(raw).Ok? <==> forall i :: 0 <= i < |raw| ==> '=' in raw[i]
    ensures ParseAllVars(raw).Err? ==> ParseAllVars(raw).error == VarFormatMessage
  {
  }

  /** `into_iter().collect()` into a map: a later pair for the same name
      replaces an earlier one. */
  function CollectVars(pairs: seq<(string, string)>): (m: map<string, string>)
    ensures m.Keys == set i | 0 <= i < |pairs| :: pairs[i].0
  {
    if pairs == [] then map[]
    else
      var front := pairs[..|pairs| - 1];
      var last := pairs[|pairs| - 1];
      assert forall i :: 0 <= i < |front| ==> front[i] == pairs[i];
      var keys := set i | 0 <= i < |pairs| :: pairs[i].0;
      assert keys == (set i | 0 <= i < |front| :: front[i].0) + {last.0} by {
        forall k | k in keys
          ensures k in (set i | 0 <= i < |front| :: front[i].0) + {last.0}
        {
          var i :| 0 <= i < |pairs| && pairs[i].0 == k;
          if i < |front| {
            assert front[i].0 == k;
          }
        }
      }
      CollectVars(front)[last.0 := last.1]
  }

  /** The value kept for a name is the one of its last pair. */
  lemma {:induction false} CollectVarsLastWins(pairs: seq<(string, string)>, i: nat)
    requires i < |pairs|
    requires forall j :: i < j < |pairs| ==> pairs[j].0 != pairs[i].0
    ensures CollectVars(pairs)[pairs[i].0] == pairs[i].1
  {
    if i < |pairs| - 1 {
      var front := pairs[..|pairs| - 1];
      assert front[i] == pairs[i];
      assert forall j :: i < j < |front| ==> front[j] == pairs[j];
      CollectVarsLastWins(front, i);
    }
  }

  lemma CollectVarsExample()
    ensures CollectVars([("a", "1"), ("b", "2"), ("a", "3")]) == map["a" := "3", "b" := "2"]
  {
    var pairs := [("a", "1"), ("b", "2"), ("a", "3")];
    assert pairs[..2][..1] == [("a", "1")] && pairs[..2] == [("a", "1"), ("b", "2")];
    assert [("a", "1")][..0] == [];
  }

  /** The largest test number the one-byte argument holds. */
  const MaxTestNumber: int := 255

  /** `Arr::new` from the `run` arguments: the test number is one-based on
      the command line (at least 1, at most 255) and zero-based in `Arr`. */
  function NewArr(technique: string, pairs: seq<(string, string)>, testNumber: int, path: string): (arr: Arr)
    requires 1 <= testNumber <= MaxTestNumber
    ensures arr.testNum + 1 == testNumber && arr.testNum < MaxTestNumber
    ensures arr.vars == CollectVars(pairs)
    ensures arr.vars.Keys == set i | 0 <= i < |pairs| :: pairs[i].0
    ensures arr.technique == technique && arr.artPath == path
  {
    Arr(technique, CollectVars(pairs), testNumber - 1, path)
  }
}
