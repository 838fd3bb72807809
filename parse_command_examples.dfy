/** The repository's unit tests of the placeholder pass, restated as lemmas
    over the argument map `var1 -> 1, var2 -> 2, var3 -> 3`. */
module SubstitutionExamples {
  import opened Base
  import opened Substitution

  function TestArgs(): map<string, string> {
    map["var1" := "1", "var2" := "2", "var3" := "3"]
  }

  /** The names differ in their last character, so each lookup is decided. */
  lemma TestArgsLookup()
    ensures "var1" in TestArgs() && TestArgs()["var1"] == "1"
    ensures "var2" in TestArgs() && TestArgs()["var2"] == "2"
    ensures "var3" in TestArgs() && TestArgs()["var3"] == "3"
    ensures "var9" !in TestArgs()
  {
    assert "var1"[3] != "var2"[3] && "var1"[3] != "var3"[3] && "var2"[3] != "var3"[3];
    assert "var9"[3] != "var1"[3] && "var9"[3] != "var2"[3] && "var9"[3] != "var3"[3];
  }

  lemma NoVars()
    ensures GetVars("abc_123_b_c", TestArgs()) == Ok("abc_123_b_c")
  {
    GetVarsNoHash("abc_123_b_c", TestArgs());
  }

  lemma VarInMiddle()
    ensures GetVars("abc_#{var1}_b_c", TestArgs()) == Ok("abc_1_b_c")
  {
    assert "abc_#{var1}_b_c" == "abc_" + Placeholder("var1") + "_b_c";
    assert "abc_1_b_c" == ("abc_" + "1") + "_b_c";
    GetVarsSubstitutes("abc_", "var1", "_b_c", TestArgs());
    GetVarsNoHash("_b_c", TestArgs());
  }

  lemma VarAtBeginning()
    ensures GetVars("#{var1}_b_c", TestArgs()) == Ok("1_b_c")
  {
    assert "#{var1}_b_c" == Placeholder("var1") + "_b_c";
    assert "1_b_c" == "1" + "_b_c";
    GetVarsPlaceholder("var1", "_b_c", TestArgs());
    GetVarsNoHash("_b_c", TestArgs());
  }

  lemma JustVar()
    ensures GetVars("#{var1}", TestArgs()) == Ok("1")
  {
    assert "#{var1}" == Placeholder("var1") + "";
    assert "1" == "1" + "";
    GetVarsPlaceholder("var1", "", TestArgs());
  }

  /** An opener without its closing brace is passed through. */
  lemma FakeOutVar()
    ensures GetVars("#{var1", TestArgs()) == Ok("#{var1")
  {
    GetVarsNoClose("#{var1", TestArgs());
  }

  /** `_#{var3}`, the last placeholder of several. */
  lemma Var3Tail()
    ensures GetVars("_" + Placeholder("var3") + "", TestArgs()) == Ok("_3")
  {
    assert ("_" + "3") + "" == "_3";
    TestArgsLookup();
    GetVarsNoHash("", TestArgs());
    GetVarsSubstitutes("_", "var3", "", TestArgs());
  }

  /** `_#{var2}_#{var3}`: two placeholders in a row. */
  lemma Var2Var3Tail()
    ensures GetVars("_" + Placeholder("var2") + ("_" + Placeholder("var3") + ""), TestArgs()) == Ok("_2_3")
  {
    assert ("_" + "2") + "_3" == "_2_3";
    TestArgsLookup();
    Var3Tail();
    GetVarsSubstitutes("_", "var2", "_" + Placeholder("var3") + "", TestArgs());
  }

  /** The tail of `TrickyVars`: a `#` before `_` is literal. */
  lemma TrickyTail()
    ensures GetVars("#_#{var2}_#{var3}", TestArgs()) == Ok("#_2_3")
  {
    var s4 := "_" + Placeholder("var2") + ("_" + Placeholder("var3") + "");
    assert "#" + "_2_3" == "#_2_3";
    assert s4[0] == '_';
    TrickyTailShape();
    Var2Var3Tail();
    GetVarsFalseStart(s4, TestArgs());
  }

  lemma TrickyTailShape()
    ensures "#_#{var2}_#{var3}" == "#" + ("_" + Placeholder("var2") + ("_" + Placeholder("var3") + ""))
  {
  }

  /** `#{var1}#_#{var2}_#{var3}`: a placeholder followed by a literal `#`. */
  lemma Var1Tricky()
    ensures GetVars(Placeholder("var1") + "#_#{var2}_#{var3}", TestArgs()) == Ok("1#_2_3")
  {
    assert "1" + "#_2_3" == "1#_2_3";
    TestArgsLookup();
    GetVarsPlaceholder("var1", "#_#{var2}_#{var3}", TestArgs());
    TrickyTail();
  }

  /** The middle of `TrickyVars`: a `#` before `#{` is literal. */
  lemma TrickyMiddle()
    ensures GetVars("##{var1}#_#{var2}_#{var3}", TestArgs()) == Ok("#1#_2_3")
  {
    var s2 := Placeholder("var1") + "#_#{var2}_#{var3}";
    assert "#" + "1#_2_3" == "#1#_2_3";
    assert s2[0] == '#';
    TrickyMiddleShape();
    Var1Tricky();
    GetVarsFalseStart(s2, TestArgs());
  }

  lemma TrickyMiddleShape()
    ensures "##{var1}#_#{var2}_#{var3}" == "#" + (Placeholder("var1") + "#_#{var2}_#{var3}")
  {
  }

  /** Doubled and trailing `#` characters that start no placeholder stay. */
  lemma TrickyVars()
    ensures GetVars("abc_##{var1}#_#{var2}_#{var3}", TestArgs()) == Ok("abc_#1#_2_3")
  {
    var t := "##{var1}#_#{var2}_#{var3}";
    var s := "abc_" + t;
    assert "abc_#1#_2_3" == "abc_" + "#1#_2_3";
    assert s[..4] == "abc_" && s[4..] == t;
    TrickyVarsShape();
    GetVarsLiteralPrefix(s, 4, TestArgs());
    TrickyMiddle();
  }

  lemma TrickyVarsShape()
    ensures "abc_##{var1}#_#{var2}_#{var3}" == "abc_" + "##{var1}#_#{var2}_#{var3}"
  {
  }

  /** The output of `TrickyVars` holds stray `#`s but no `#{`, so
      substituting it again changes nothing. */
  lemma TrickyVarsResolved()
    ensures GetVars("abc_#1#_2_3", TestArgs()) == Ok("abc_#1#_2_3")
  {
    GetVarsNoOpener("abc_#1#_2_3", TestArgs());
  }

  /** Several placeholders are replaced from left to right. */
  lemma MultipleVars()
    ensures GetVars("abc_#{var1}_#{var2}_#{var3}", TestArgs()) == Ok("abc_1_2_3")
  {
    var rest := "_" + Placeholder("var2") + ("_" + Placeholder("var3") + "");
    assert ("abc_" + "1") + "_2_3" == "abc_1_2_3";
    MultipleVarsShape();
    TestArgsLookup();
    Var2Var3Tail();
    GetVarsSubstitutes("abc_", "var1", rest, TestArgs());
  }

  lemma MultipleVarsShape()
    ensures "abc_#{var1}_#{var2}_#{var3}"
         == "abc_" + Placeholder("var1") + ("_" + Placeholder("var2") + ("_" + Placeholder("var3") + ""))
  {
  }

  /** `_#{var9}_#{var3}`: a missing name fails the scan. */
  lemma Var9Missing()
    ensures GetVars("_" + Placeholder("var9") + "_#{var3}", TestArgs()) == Err("var9")
  {
    TestArgsLookup();
    GetVarsSubstitutes("_", "var9", "_#{var3}", TestArgs());
  }

  /** The first missing name fails the whole scan and is reported. */
  lemma ValueNotFound()
    ensures GetVars("abc_#{var1}_#{var9}_#{var3}", TestArgs()) == Err("var9")
  {
    var rest := "_" + Placeholder("var9") + "_#{var3}";
    ValueNotFoundShape();
    TestArgsLookup();
    Var9Missing();
    GetVarsSubstitutes("abc_", "var1", rest, TestArgs());
  }

  lemma ValueNotFoundShape()
    ensures "abc_#{var1}_#{var9}_#{var3}" == "abc_" + Placeholder("var1") + ("_" + Placeholder("var9") + "_#{var3}")
  {
  }
}
