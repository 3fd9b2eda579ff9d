/**
 * The cases the tests in `src/main.rs` pin down, stated as lemmas about the
 * model.
 *
 * Each file case is proved in three layers. One lemma per distinct line
 * gives that line's summary; a lemma `...Summarized` gathers them for the
 * whole file; a lemma `...Result` follows the scan over any summaries equal
 * to those, line by line, to its result. `Summary.ReportedAgrees` carries
 * the result back to the lines, and the lemma named after the case states
 * it for the lines of the test file. The lemma `...Content` states it for
 * the text itself, once every line is known to hold no line break.
 */
module Examples {
  import opened Text
  import opened Patterns
  import opened Decorators
  import opened Scopes
  import opened Scanner
  import opened Summary

  // ---------------------------------------------------------------- summaries of lines

  /** Each line of an example is written as its indentation followed by its text. */
  const Spaces0: string := ""
  const Spaces4: string := "    "
  const Spaces8: string := "        "

  lemma IndentsAreSpace()
    ensures AllSpace(Spaces0) && AllSpace(Spaces4) && AllSpace(Spaces8)
  {
  }

  predicate IsBracket(c: char)
  {
    c == '(' || c == ')' || c == '[' || c == ']' || c == '{' || c == '}'
  }

  /** Text without any bracket. */
  predicate NoBrackets(t: string)
  {
    forall k :: 0 <= k < |t| ==> !IsBracket(t[k])
  }

  lemma {:induction false} NoBracketsDelta(t: string)
    requires NoBrackets(t)
    ensures Delta(t) == Depths(0, 0, 0)
    decreases |t|
  {
    if t != [] {
      assert !IsBracket(t[0]);
      assert NoBrackets(t[1..]) by {
        forall k | 0 <= k < |t[1..]|
          ensures !IsBracket(t[1..][k])
        {
          assert t[1..][k] == t[k + 1];
        }
      }
      NoBracketsDelta(t[1..]);
    }
  }

  lemma WordNoBrackets(w: string)
    requires AllWord(w)
    ensures NoBrackets(w)
  {
    forall k | 0 <= k < |w|
      ensures !IsBracket(w[k])
    {
      assert IsWordChar(w[k]);
    }
  }

  /** The balance of two pieces of text, from the balance of each. */
  lemma DeltaSum(p: string, q: string, dp: Depths, dq: Depths)
    requires Delta(p) == dp && Delta(q) == dq
    ensures Delta(p + q) == Depths(dp.paren + dq.paren, dp.bracket + dq.bracket, dp.brace + dq.brace)
  {
    DeltaConcat(p, q);
  }

  lemma OpenParenDelta()
    ensures Delta("(") == Depths(1, 0, 0)
  {
  }

  lemma CloseParenDelta()
    ensures Delta(")") == Depths(-1, 0, 0)
  {
  }

  lemma OpenBracketDelta()
    ensures Delta("[") == Depths(0, 1, 0)
  {
  }

  lemma CloseBracketDelta()
    ensures Delta("],") == Depths(0, -1, 0)
  {
    assert Delta("]") == Depths(0, -1, 0);
    NoBracketsDelta(",");
    DeltaSum("]", ",", Depths(0, -1, 0), Depths(0, 0, 0));
    assert "]" + "," == "],";
  }

  /** Text with no brackets, then `(`, `args` and `)`, then text with no brackets, is balanced. */
  lemma CallDelta(head: string, args: string, tail: string)
    requires NoBrackets(head) && NoBrackets(args) && NoBrackets(tail)
    ensures Delta(head + "(" + args + ")" + tail) == Depths(0, 0, 0)
  {
    NoBracketsDelta(head);
    OpenParenDelta();
    DeltaSum(head, "(", Depths(0, 0, 0), Depths(1, 0, 0));
    NoBracketsDelta(args);
    NoBracketsDelta(tail);
    CloseParenDelta();
    DeltaSum(head + "(", args, Depths(1, 0, 0), Depths(0, 0, 0));
    DeltaSum(head + "(" + args, ")", Depths(1, 0, 0), Depths(-1, 0, 0));
    DeltaSum(head + "(" + args + ")", tail, Depths(0, 0, 0), Depths(0, 0, 0));
  }

  /** An empty line. */
  lemma BlankInfo(line: string)
    requires line == []
    ensures InfoOf(line) == LineInfo(None, None, Blank)
  {
    OtherLineIsNoHeader(line, [], []);
  }

  /** An indented line of code that starts with neither `c`, `d` nor `@`. */
  lemma CodeInfo(line: string, ind: string, body: string, d: Depths)
    requires line == ind + body && AllSpace(ind) && Delta(body) == d
    requires body != [] && !IsSpace(body[0]) && !IsSpace(body[|body| - 1])
    requires body[0] != 'c' && body[0] != 'd' && body[0] != '@'
    ensures InfoOf(line) == LineInfo(None, None, Code(d))
  {
    OtherLineIsNoHeader(line, ind, body);
    TrimIndented(line, ind, body);
  }

  /** An indented `@pytest.mark.<w>` decorator, possibly followed by arguments. */
  lemma DecoratorInfo(line: string, ind: string, body: string, w: string, args: string, d: Depths)
    requires line == ind + body && body == "@" + MarkPrefix + w + args
    requires AllSpace(ind) && w != [] && AllWord(w) && Delta(body) == d
    requires args == [] || (!IsWordChar(args[0]) && !IsSpace(args[|args| - 1]))
    ensures InfoOf(line) == LineInfo(None, None, Decorator({w}, d))
  {
    OtherLineIsNoHeader(line, ind, body);
    assert IsWordChar(w[|w| - 1]);
    assert body[|body| - 1] == if args == [] then w[|w| - 1] else args[|args| - 1];
    TrimIndented(line, ind, body);
    NamespacedMarker(w, args);
  }

  lemma CloseHeaderDelta()
    ensures Delta("):") == Depths(-1, 0, 0)
  {
    CloseParenDelta();
    NoBracketsDelta(":");
    DeltaSum(")", ":", Depths(-1, 0, 0), Depths(0, 0, 0));
    assert ")" + ":" == "):";
  }

  /** Two balanced pieces make a balanced text. */
  lemma BalancedParts(t: string, head: string, tail: string)
    requires t == head + tail && Delta(head) == Depths(0, 0, 0) && Delta(tail) == Depths(0, 0, 0)
    ensures Delta(t) == Depths(0, 0, 0)
  {
    DeltaSum(head, tail, Depths(0, 0, 0), Depths(0, 0, 0));
  }

  lemma ParenArgsDelta(args: string)
    requires NoBrackets(args)
    ensures Delta("(" + args + "):") == Depths(0, 0, 0)
  {
    NoBracketsDelta(args);
    OpenParenDelta();
    CloseHeaderDelta();
    DeltaSum("(", args, Depths(1, 0, 0), Depths(0, 0, 0));
    DeltaSum("(" + args, "):", Depths(1, 0, 0), Depths(-1, 0, 0));
  }

  lemma KeywordNameDelta(keyword: string, name: string)
    requires NoBrackets(keyword) && AllWord(name)
    ensures Delta(keyword + name) == Depths(0, 0, 0)
  {
    WordNoBrackets(name);
    assert NoBrackets(keyword + name);
    NoBracketsDelta(keyword + name);
  }

  /** `def <name>(<args>):` is balanced when the arguments hold no brackets. */
  lemma DefDelta(body: string, name: string, args: string)
    requires body == "def " + name + ("(" + args + "):") && AllWord(name) && NoBrackets(args)
    ensures Delta(body) == Depths(0, 0, 0)
  {
    KeywordNameDelta("def ", name);
    ParenArgsDelta(args);
    BalancedParts(body, "def " + name, "(" + args + "):");
  }

  /** An indented `def <name>(<args>):` header with a test name. */
  lemma DefInfo(line: string, ind: string, body: string, name: string, args: string)
    requires line == ind + body && body == "def " + name + ("(" + args + "):")
    requires AllSpace(ind) && IsTestName(name) && NoBrackets(args)
    ensures InfoOf(line) == LineInfo(None, Some(TestHeaderMatch(|ind|, name)), Code(Depths(0, 0, 0)))
  {
    HeadersExclusive(line);
    TrimIndented(line, ind, body);
    DefLineIsHeader(line, ind, body, name, "(" + args + "):");
    DefDelta(body, name, args);
  }

  lemma ClassDelta(body: string, name: string)
    requires body == "class " + name + ":" && AllWord(name)
    ensures Delta(body) == Depths(0, 0, 0)
  {
    KeywordNameDelta("class ", name);
    NoBracketsDelta(":");
    BalancedParts(body, "class " + name, ":");
  }

  /** An indented `class <name>:` header. */
  lemma ClassInfo(line: string, ind: string, body: string, name: string)
    requires line == ind + body && body == "class " + name + ":"
    requires AllSpace(ind) && name != [] && AllWord(name)
    ensures InfoOf(line) == LineInfo(Some(|ind|), None, Code(Depths(0, 0, 0)))
  {
    ClassLineIsHeader(line, ind, body, name, ":");
    TrimIndented(line, ind, body);
    ClassDelta(body, name);
  }

  /** A decorator without arguments is balanced. */
  lemma BareDecoratorDelta(body: string, w: string)
    requires body == "@" + MarkPrefix + w + "" && AllWord(w)
    ensures Delta(body) == Depths(0, 0, 0)
  {
    KeywordNameDelta("@" + MarkPrefix, w);
    assert body == "@" + MarkPrefix + w;
  }

  /** A decorator whose arguments start on the next line opens one parenthesis. */
  lemma OpenDecoratorDelta(body: string, w: string)
    requires body == "@" + MarkPrefix + w + "(" && AllWord(w)
    ensures Delta(body) == Depths(1, 0, 0)
  {
    KeywordNameDelta("@" + MarkPrefix, w);
    OpenParenDelta();
    DeltaSum("@" + MarkPrefix + w, "(", Depths(0, 0, 0), Depths(1, 0, 0));
  }

  // ---------------------------------------------------------------- the scan over summaries, one line at a time

  /** A line that is neither a class header nor a test-function header changes neither the stack nor the result. */
  lemma OtherLine(infos: seq<LineInfo>, excluded: set<string>, n: nat)
    requires 0 < n <= |infos| && infos[n - 1].classIndent.None? && infos[n - 1].test.None?
    ensures InfoStack(infos, n) == InfoStack(infos, n - 1)
    ensures InfoReported(infos, excluded, n) == InfoReported(infos, excluded, n - 1)
  {
  }

  /** A class header enters the class and adds nothing to the result. */
  lemma ClassLine(infos: seq<LineInfo>, excluded: set<string>, n: nat, indent: nat)
    requires 0 < n <= |infos| && infos[n - 1].classIndent == Some(indent) && infos[n - 1].test.None?
    ensures InfoStack(infos, n) == EnterClass(InfoStack(infos, n - 1), indent, InfoScan(infos, n - 1, Depths(0, 0, 0)))
    ensures InfoReported(infos, excluded, n) == InfoReported(infos, excluded, n - 1)
  {
  }

  /** A test-function header keeps the stack and adds its name unless it is left out. */
  lemma TestLine(infos: seq<LineInfo>, excluded: set<string>, n: nat, indent: nat, name: string)
    requires 0 < n <= |infos| && infos[n - 1].classIndent.None? && infos[n - 1].test == Some(TestHeaderMatch(indent, name))
    ensures InfoStack(infos, n) == InfoStack(infos, n - 1)
    ensures InfoReported(infos, excluded, n) == InfoReported(infos, excluded, n - 1) +
      (if ClassExcludes(InfoStack(infos, n - 1), indent, excluded) || InfoScan(infos, n - 1, Depths(0, 0, 0)) * excluded != {}
       then [] else [name])
  {
  }

  /** A class header over an empty stack. */
  lemma EnterEmpty(indent: nat, markers: set<string>)
    ensures EnterClass([], indent, markers) == if markers == {} then [] else [ClassScope(indent, markers)]
  {
  }

  /** A class header at the indentation of the one entry, or shallower, closes it. */
  lemma EnterOver(e: ClassScope, indent: nat, markers: set<string>)
    requires indent <= e.indent
    ensures EnterClass([e], indent, markers) == if markers == {} then [] else [ClassScope(indent, markers)]
  {
    assert Retain([e][1..], indent) == [];
  }

  /** A deeper function under the one entry is left out when the entry carries an excluded marker. */
  lemma ExcludedBy(e: ClassScope, indent: nat, excluded: set<string>, m: string)
    requires e.indent < indent && m in e.markers && m in excluded
    ensures ClassExcludes([e], indent, excluded)
  {
    assert m in [e][0].markers * excluded;
  }

  // ---------------------------------------------------------------- marker examples

  lemma MarkerUnit()
    ensures ExtractMarker("@pytest.mark.unit") == Some("unit")
  {
    assert "@pytest.mark.unit" == "@" + MarkPrefix + "unit" + "";
    NamespacedMarker("unit", "");
  }

  lemma MarkerSlow()
    ensures ExtractMarker("@pytest.mark.slow") == Some("slow")
  {
    assert "@pytest.mark.slow" == "@" + MarkPrefix + "slow" + "";
    NamespacedMarker("slow", "");
  }

  lemma MarkerBareUnit()
    ensures ExtractMarker("@unit") == Some("unit")
  {
    assert "@unit" == "@" + "unit" + "";
    BareMarker("unit", "");
  }

  lemma MarkerBareSkip()
    ensures ExtractMarker("@skip") == Some("skip")
  {
    assert "@skip" == "@" + "skip" + "";
    BareMarker("skip", "");
  }

  lemma MarkerParametrize()
    ensures ExtractMarker("@pytest.mark.parametrize('x', [1, 2])") == Some("parametrize")
  {
    var args := "(" + "'x', [1, 2])";
    MarkParametrizeArgsText(args);
    NamespacedMarker("parametrize", args);
  }

  lemma MarkParametrizeArgsText(args: string)
    requires args == "(" + "'x', [1, 2])"
    ensures "@pytest.mark.parametrize('x', [1, 2])" == "@" + MarkPrefix + "parametrize" + args
  {
  }

  /** The marker examples: namespaced and bare spellings give the word after `@`, and call arguments are ignored. */
  lemma ExtractMarkerExamples()
    ensures ExtractMarker("@pytest.mark.unit") == Some("unit")
    ensures ExtractMarker("@pytest.mark.slow") == Some("slow")
    ensures ExtractMarker("@unit") == Some("unit")
    ensures ExtractMarker("@skip") == Some("skip")
    ensures ExtractMarker("@pytest.mark.parametrize('x', [1, 2])") == Some("parametrize")
  {
    MarkerUnit();
    MarkerSlow();
    MarkerBareUnit();
    MarkerBareSkip();
    MarkerParametrize();
  }

  // ---------------------------------------------------------------- the text of the examples

  /** `s` holds no line feed and no carriage return: it is one line as `str::lines` gives it back. */
  predicate Unbroken(s: string)
  {
    forall k :: 0 <= k < |s| ==> s[k] != '\n' && s[k] != '\r'
  }

  lemma IndentedUnbroken(line: string, ind: string, body: string)
    requires line == ind + body && Unbroken(ind) && Unbroken(body)
    ensures Unbroken(line)
  {
    forall k | 0 <= k < |line|
      ensures line[k] != '\n' && line[k] != '\r'
    {
      if k >= |ind| {
        assert line[k] == body[k - |ind|];
      }
    }
  }

  /** Text made of unbroken lines, each ended by a line feed, splits back into those lines. */
  lemma SplitsIntoLines(ls: seq<string>)
    requires forall k :: 0 <= k < |ls| ==> Unbroken(ls[k])
    ensures Lines(JoinLf(ls)) == ls
  {
    forall k | 0 <= k < |ls|
      ensures '\n' !in ls[k] && (ls[k] == [] || ls[k][|ls[k]| - 1] != '\r')
    {
      assert Unbroken(ls[k]);
    }
    LinesOfJoinLf(ls);
  }


  // ---------------------------------------------------------------- the lines of the examples

  lemma ImportPytestText()
    ensures "import pytest" != [] && !IsSpace("import pytest"[0]) && !IsSpace("import pytest"[12])
    ensures "import pytest"[0] != 'c' && "import pytest"[0] != 'd' && "import pytest"[0] != '@'
    ensures NoBrackets("import pytest")
  {
  }

  lemma UnitWord()
    ensures "unit" != [] && AllWord("unit")
  {
  }

  lemma MarkUnitText()
    ensures "@pytest.mark.unit" == "@" + MarkPrefix + "unit" + ""
  {
  }

  lemma TestMarkedFunctionName()
    ensures IsTestName("test_marked_function")
  {
    assert AllWord("test_marked_function");
  }

  lemma DefTestMarkedFunctionText()
    ensures "def test_marked_function():" == "def " + "test_marked_function" + ("(" + "" + "):")
  {
  }

  lemma PassText()
    ensures "pass" != [] && !IsSpace("pass"[0]) && !IsSpace("pass"[3])
    ensures "pass"[0] != 'c' && "pass"[0] != 'd' && "pass"[0] != '@'
    ensures NoBrackets("pass")
  {
  }

  lemma TestUnmarkedFunctionName()
    ensures IsTestName("test_unmarked_function")
  {
    assert AllWord("test_unmarked_function");
  }

  lemma DefTestUnmarkedFunctionText()
    ensures "def test_unmarked_function():" == "def " + "test_unmarked_function" + ("(" + "" + "):")
  {
  }

  lemma SkipWord()
    ensures "skip" != [] && AllWord("skip")
  {
  }

  lemma MarkSkipText()
    ensures "@pytest.mark.skip" == "@" + MarkPrefix + "skip" + ""
  {
  }

  lemma TestSkippedFunctionName()
    ensures IsTestName("test_skipped_function")
  {
    assert AllWord("test_skipped_function");
  }

  lemma DefTestSkippedFunctionText()
    ensures "def test_skipped_function():" == "def " + "test_skipped_function" + ("(" + "" + "):")
  {
  }

  lemma TestAnotherUnmarkedName()
    ensures IsTestName("test_another_unmarked")
  {
    assert AllWord("test_another_unmarked");
  }

  lemma DefTestAnotherUnmarkedText()
    ensures "def test_another_unmarked():" == "def " + "test_another_unmarked" + ("(" + "" + "):")
  {
  }

  lemma ParametrizeWord()
    ensures "parametrize" != [] && AllWord("parametrize")
  {
  }

  lemma MarkParametrizeCallText()
    ensures "@pytest.mark.parametrize(" == "@" + MarkPrefix + "parametrize" + "("
  {
  }

  lemma ArgNamesText()
    ensures "\"arg1, arg2\"," != [] && !IsSpace("\"arg1, arg2\","[0]) && !IsSpace("\"arg1, arg2\","[12])
    ensures "\"arg1, arg2\","[0] != 'c' && "\"arg1, arg2\","[0] != 'd' && "\"arg1, arg2\","[0] != '@'
    ensures NoBrackets("\"arg1, arg2\",")
  {
  }

  lemma OpenBracketText()
    ensures "[" != [] && !IsSpace("["[0]) && !IsSpace("["[0])
    ensures "["[0] != 'c' && "["[0] != 'd' && "["[0] != '@'
  {
  }

  lemma ParamABText()
    ensures "pytest.param(\"a\", \"b\")," != [] && !IsSpace("pytest.param(\"a\", \"b\"),"[0]) && !IsSpace("pytest.param(\"a\", \"b\"),"[22])
    ensures "pytest.param(\"a\", \"b\"),"[0] != 'c' && "pytest.param(\"a\", \"b\"),"[0] != 'd' && "pytest.param(\"a\", \"b\"),"[0] != '@'
    ensures NoBrackets("\"a\", \"b\"")
    ensures NoBrackets("pytest.param") && NoBrackets(",")
    ensures "pytest.param(\"a\", \"b\")," == "pytest.param" + "(" + "\"a\", \"b\"" + ")" + ","
  {
  }

  lemma ParamCDText()
    ensures "pytest.param(\"c\", \"d\")," != [] && !IsSpace("pytest.param(\"c\", \"d\"),"[0]) && !IsSpace("pytest.param(\"c\", \"d\"),"[22])
    ensures "pytest.param(\"c\", \"d\"),"[0] != 'c' && "pytest.param(\"c\", \"d\"),"[0] != 'd' && "pytest.param(\"c\", \"d\"),"[0] != '@'
    ensures NoBrackets("\"c\", \"d\"")
    ensures NoBrackets("pytest.param") && NoBrackets(",")
    ensures "pytest.param(\"c\", \"d\")," == "pytest.param" + "(" + "\"c\", \"d\"" + ")" + ","
  {
  }

  lemma CloseBracketText()
    ensures "]," != [] && !IsSpace("],"[0]) && !IsSpace("],"[1])
    ensures "],"[0] != 'c' && "],"[0] != 'd' && "],"[0] != '@'
  {
  }

  lemma CloseParenText()
    ensures ")" != [] && !IsSpace(")"[0]) && !IsSpace(")"[0])
    ensures ")"[0] != 'c' && ")"[0] != 'd' && ")"[0] != '@'
  {
  }

  lemma TestWithMultilineDecoratorName()
    ensures IsTestName("test_with_multiline_decorator")
  {
    assert AllWord("test_with_multiline_decorator");
  }

  lemma DefTestWithMultilineDecoratorText()
    ensures "def test_with_multiline_decorator():" == "def " + "test_with_multiline_decorator" + ("(" + "" + "):")
  {
  }

  lemma TestUnmarkedName()
    ensures IsTestName("test_unmarked")
  {
    assert AllWord("test_unmarked");
  }

  lemma DefTestUnmarkedText()
    ensures "def test_unmarked():" == "def " + "test_unmarked" + ("(" + "" + "):")
  {
  }

  lemma TestExampleWord()
    ensures "TestExample" != [] && AllWord("TestExample")
  {
  }

  lemma ClassTestExampleText()
    ensures "class TestExample:" == "class " + "TestExample" + ":"
  {
  }

  lemma TestMarkedMethodName()
    ensures IsTestName("test_marked_method")
  {
    assert AllWord("test_marked_method");
  }

  lemma DefTestMarkedMethodText()
    ensures "def test_marked_method(self):" == "def " + "test_marked_method" + ("(" + "self" + "):")
  {
  }

  lemma TestUnmarkedMethodName()
    ensures IsTestName("test_unmarked_method")
  {
    assert AllWord("test_unmarked_method");
  }

  lemma DefTestUnmarkedMethodText()
    ensures "def test_unmarked_method(self):" == "def " + "test_unmarked_method" + ("(" + "self" + "):")
  {
  }

  lemma IntegrationWord()
    ensures "integration" != [] && AllWord("integration")
  {
  }

  lemma MarkIntegrationText()
    ensures "@pytest.mark.integration" == "@" + MarkPrefix + "integration" + ""
  {
  }

  lemma TestAnotherMarkedMethodName()
    ensures IsTestName("test_another_marked_method")
  {
    assert AllWord("test_another_marked_method");
  }

  lemma DefTestAnotherMarkedMethodText()
    ensures "def test_another_marked_method(self):" == "def " + "test_another_marked_method" + ("(" + "self" + "):")
  {
  }

  lemma TestFunctionLevelName()
    ensures IsTestName("test_function_level")
  {
    assert AllWord("test_function_level");
  }

  lemma DefTestFunctionLevelText()
    ensures "def test_function_level():" == "def " + "test_function_level" + ("(" + "" + "):")
  {
  }

  lemma TestAnotherWord()
    ensures "TestAnother" != [] && AllWord("TestAnother")
  {
  }

  lemma ClassTestAnotherText()
    ensures "class TestAnother:" == "class " + "TestAnother" + ":"
  {
  }

  lemma TestUnmarkedInClassName()
    ensures IsTestName("test_unmarked_in_class")
  {
    assert AllWord("test_unmarked_in_class");
  }

  lemma DefTestUnmarkedInClassText()
    ensures "def test_unmarked_in_class(self):" == "def " + "test_unmarked_in_class" + ("(" + "self" + "):")
  {
  }

  lemma TestMarkedClassWord()
    ensures "TestMarkedClass" != [] && AllWord("TestMarkedClass")
  {
  }

  lemma ClassTestMarkedClassText()
    ensures "class TestMarkedClass:" == "class " + "TestMarkedClass" + ":"
  {
  }

  lemma TestMethodInMarkedClassName()
    ensures IsTestName("test_method_in_marked_class")
  {
    assert AllWord("test_method_in_marked_class");
  }

  lemma DefTestMethodInMarkedClassText()
    ensures "def test_method_in_marked_class(self):" == "def " + "test_method_in_marked_class" + ("(" + "self" + "):")
  {
  }

  lemma TestMethodWithOwnMarkerName()
    ensures IsTestName("test_method_with_own_marker")
  {
    assert AllWord("test_method_with_own_marker");
  }

  lemma DefTestMethodWithOwnMarkerText()
    ensures "def test_method_with_own_marker(self):" == "def " + "test_method_with_own_marker" + ("(" + "self" + "):")
  {
  }

  lemma TestUnmarkedClassWord()
    ensures "TestUnmarkedClass" != [] && AllWord("TestUnmarkedClass")
  {
  }

  lemma ClassTestUnmarkedClassText()
    ensures "class TestUnmarkedClass:" == "class " + "TestUnmarkedClass" + ":"
  {
  }

  lemma TestMethodInUnmarkedClassName()
    ensures IsTestName("test_method_in_unmarked_class")
  {
    assert AllWord("test_method_in_unmarked_class");
  }

  lemma DefTestMethodInUnmarkedClassText()
    ensures "def test_method_in_unmarked_class(self):" == "def " + "test_method_in_unmarked_class" + ("(" + "self" + "):")
  {
  }

  lemma EmptyLine(line: string)
    requires line == ""
    ensures InfoOf(line) == LineInfo(None, None, Blank)
  {
    BlankInfo(line);
  }

  lemma ImportPytestLine(line: string)
    requires line == Spaces0 + "import pytest"
    ensures InfoOf(line) == LineInfo(None, None, Code(Depths(0, 0, 0)))
  {
    var ind := Spaces0;
    IndentsAreSpace();
    var body := "import pytest";
    ImportPytestText();
    NoBracketsDelta(body);
    CodeInfo(line, ind, body, Depths(0, 0, 0));
  }

  lemma ImportPytestUnbroken(line: string)
    requires line == Spaces0 + "import pytest"
    ensures Unbroken(line)
  {
    IndentedUnbroken(line, Spaces0, "import pytest");
  }

  lemma MarkUnitLine(line: string)
    requires line == Spaces0 + "@pytest.mark.unit"
    ensures InfoOf(line) == LineInfo(None, None, Decorator({"unit"}, Depths(0, 0, 0)))
  {
    var ind := Spaces0;
    IndentsAreSpace();
    var w := "unit";
    var body := "@" + MarkPrefix + w + "";
    UnitWord();
    MarkUnitText();
    BareDecoratorDelta(body, w);
    DecoratorInfo(line, ind, body, w, "", Depths(0, 0, 0));
  }

  lemma MarkUnitUnbroken(line: string)
    requires line == Spaces0 + "@pytest.mark.unit"
    ensures Unbroken(line)
  {
    IndentedUnbroken(line, Spaces0, "@pytest.mark.unit");
  }

  lemma DefTestMarkedFunctionLine(line: string)
    requires line == Spaces0 + "def test_marked_function():"
    ensures InfoOf(line) == LineInfo(None, Some(TestHeaderMatch(0, "test_marked_function")), Code(Depths(0, 0, 0)))
  {
    var ind := Spaces0;
    IndentsAreSpace();
    var name := "test_marked_function";
    var body := "def " + name + ("(" + "" + "):");
    TestMarkedFunctionName();
    DefTestMarkedFunctionText();
    DefInfo(line, ind, body, name, "");
  }

  lemma DefTestMarkedFunctionUnbroken(line: string)
    requires line == Spaces0 + "def test_marked_function():"
    ensures Unbroken(line)
  {
    IndentedUnbroken(line, Spaces0, "def test_marked_function():");
  }

  lemma PassLineAt4(line: string)
    requires line == Spaces4 + "pass"
    ensures InfoOf(line) == LineInfo(None, None, Code(Depths(0, 0, 0)))
  {
    var ind := Spaces4;
    IndentsAreSpace();
    var body := "pass";
    PassText();
    NoBracketsDelta(body);
    CodeInfo(line, ind, body, Depths(0, 0, 0));
  }

  lemma PassUnbrokenAt4(line: string)
    requires line == Spaces4 + "pass"
    ensures Unbroken(line)
  {
    IndentedUnbroken(line, Spaces4, "pass");
  }

  lemma DefTestUnmarkedFunctionLine(line: string)
    requires line == Spaces0 + "def test_unmarked_function():"
    ensures InfoOf(line) == LineInfo(None, Some(TestHeaderMatch(0, "test_unmarked_function")), Code(Depths(0, 0, 0)))
  {
    var ind := Spaces0;
    IndentsAreSpace();
    var name := "test_unmarked_function";
    var body := "def " + name + ("(" + "" + "):");
    TestUnmarkedFunctionName();
    DefTestUnmarkedFunctionText();
    DefInfo(line, ind, body, name, "");
  }

  lemma DefTestUnmarkedFunctionUnbroken(line: string)
    requires line == Spaces0 + "def test_unmarked_function():"
    ensures Unbroken(line)
  {
    IndentedUnbroken(line, Spaces0, "def test_unmarked_function():");
  }

  lemma MarkSkipLine(line: string)
    requires line == Spaces0 + "@pytest.mark.skip"
    ensures InfoOf(line) == LineInfo(None, None, Decorator({"skip"}, Depths(0, 0, 0)))
  {
    var ind := Spaces0;
    IndentsAreSpace();
    var w := "skip";
    var body := "@" + MarkPrefix + w + "";
    SkipWord();
    MarkSkipText();
    BareDecoratorDelta(body, w);
    DecoratorInfo(line, ind, body, w, "", Depths(0, 0, 0));
  }

  lemma MarkSkipUnbroken(line: string)
    requires line == Spaces0 + "@pytest.mark.skip"
    ensures Unbroken(line)
  {
    IndentedUnbroken(line, Spaces0, "@pytest.mark.skip");
  }

  lemma DefTestSkippedFunctionLine(line: string)
    requires line == Spaces0 + "def test_skipped_function():"
    ensures InfoOf(line) == LineInfo(None, Some(TestHeaderMatch(0, "test_skipped_function")), Code(Depths(0, 0, 0)))
  {
    var ind := Spaces0;
    IndentsAreSpace();
    var name := "test_skipped_function";
    var body := "def " + name + ("(" + "" + "):");
    TestSkippedFunctionName();
    DefTestSkippedFunctionText();
    DefInfo(line, ind, body, name, "");
  }

  lemma DefTestSkippedFunctionUnbroken(line: string)
    requires line == Spaces0 + "def test_skipped_function():"
    ensures Unbroken(line)
  {
    IndentedUnbroken(line, Spaces0, "def test_skipped_function():");
  }

  lemma DefTestAnotherUnmarkedLine(line: string)
    requires line == Spaces0 + "def test_another_unmarked():"
    ensures InfoOf(line) == LineInfo(None, Some(TestHeaderMatch(0, "test_another_unmarked")), Code(Depths(0, 0, 0)))
  {
    var ind := Spaces0;
    IndentsAreSpace();
    var name := "test_another_unmarked";
    var body := "def " + name + ("(" + "" + "):");
    TestAnotherUnmarkedName();
    DefTestAnotherUnmarkedText();
    DefInfo(line, ind, body, name, "");
  }

  lemma DefTestAnotherUnmarkedUnbroken(line: string)
    requires line == Spaces0 + "def test_another_unmarked():"
    ensures Unbroken(line)
  {
    IndentedUnbroken(line, Spaces0, "def test_another_unmarked():");
  }

  lemma MarkParametrizeCallLine(line: string)
    requires line == Spaces0 + "@pytest.mark.parametrize("
    ensures InfoOf(line) == LineInfo(None, None, Decorator({"parametrize"}, Depths(1, 0, 0)))
  {
    var ind := Spaces0;
    IndentsAreSpace();
    var w := "parametrize";
    var body := "@" + MarkPrefix + w + "(";
    ParametrizeWord();
    MarkParametrizeCallText();
    OpenDecoratorDelta(body, w);
    DecoratorInfo(line, ind, body, w, "(", Depths(1, 0, 0));
  }

  lemma MarkParametrizeCallUnbroken(line: string)
    requires line == Spaces0 + "@pytest.mark.parametrize("
    ensures Unbroken(line)
  {
    IndentedUnbroken(line, Spaces0, "@pytest.mark.parametrize(");
  }

  lemma ArgNamesLineAt4(line: string)
    requires line == Spaces4 + "\"arg1, arg2\","
    ensures InfoOf(line) == LineInfo(None, None, Code(Depths(0, 0, 0)))
  {
    var ind := Spaces4;
    IndentsAreSpace();
    var body := "\"arg1, arg2\",";
    ArgNamesText();
    NoBracketsDelta(body);
    CodeInfo(line, ind, body, Depths(0, 0, 0));
  }

  lemma ArgNamesUnbrokenAt4(line: string)
    requires line == Spaces4 + "\"arg1, arg2\","
    ensures Unbroken(line)
  {
    IndentedUnbroken(line, Spaces4, "\"arg1, arg2\",");
  }

  lemma OpenBracketLineAt4(line: string)
    requires line == Spaces4 + "["
    ensures InfoOf(line) == LineInfo(None, None, Code(Depths(0, 1, 0)))
  {
    var ind := Spaces4;
    IndentsAreSpace();
    var body := "[";
    OpenBracketText();
    OpenBracketDelta();
    CodeInfo(line, ind, body, Depths(0, 1, 0));
  }

  lemma OpenBracketUnbrokenAt4(line: string)
    requires line == Spaces4 + "["
    ensures Unbroken(line)
  {
    IndentedUnbroken(line, Spaces4, "[");
  }

  lemma ParamABLineAt8(line: string)
    requires line == Spaces8 + "pytest.param(\"a\", \"b\"),"
    ensures InfoOf(line) == LineInfo(None, None, Code(Depths(0, 0, 0)))
  {
    var ind := Spaces8;
    IndentsAreSpace();
    var body := "pytest.param(\"a\", \"b\"),";
    ParamABText();
    CallDelta("pytest.param", "\"a\", \"b\"", ",");
    CodeInfo(line, ind, body, Depths(0, 0, 0));
  }

  lemma ParamABUnbrokenAt8(line: string)
    requires line == Spaces8 + "pytest.param(\"a\", \"b\"),"
    ensures Unbroken(line)
  {
    IndentedUnbroken(line, Spaces8, "pytest.param(\"a\", \"b\"),");
  }

  lemma ParamCDLineAt8(line: string)
    requires line == Spaces8 + "pytest.param(\"c\", \"d\"),"
    ensures InfoOf(line) == LineInfo(None, None, Code(Depths(0, 0, 0)))
  {
    var ind := Spaces8;
    IndentsAreSpace();
    var body := "pytest.param(\"c\", \"d\"),";
    ParamCDText();
    CallDelta("pytest.param", "\"c\", \"d\"", ",");
    CodeInfo(line, ind, body, Depths(0, 0, 0));
  }

  lemma ParamCDUnbrokenAt8(line: string)
    requires line == Spaces8 + "pytest.param(\"c\", \"d\"),"
    ensures Unbroken(line)
  {
    IndentedUnbroken(line, Spaces8, "pytest.param(\"c\", \"d\"),");
  }

  lemma CloseBracketLineAt4(line: string)
    requires line == Spaces4 + "],"
    ensures InfoOf(line) == LineInfo(None, None, Code(Depths(0, -1, 0)))
  {
    var ind := Spaces4;
    IndentsAreSpace();
    var body := "],";
    CloseBracketText();
    CloseBracketDelta();
    CodeInfo(line, ind, body, Depths(0, -1, 0));
  }

  lemma CloseBracketUnbrokenAt4(line: string)
    requires line == Spaces4 + "],"
    ensures Unbroken(line)
  {
    IndentedUnbroken(line, Spaces4, "],");
  }

  lemma CloseParenLine(line: string)
    requires line == Spaces0 + ")"
    ensures InfoOf(line) == LineInfo(None, None, Code(Depths(-1, 0, 0)))
  {
    var ind := Spaces0;
    IndentsAreSpace();
    var body := ")";
    CloseParenText();
    CloseParenDelta();
    CodeInfo(line, ind, body, Depths(-1, 0, 0));
  }

  lemma CloseParenUnbroken(line: string)
    requires line == Spaces0 + ")"
    ensures Unbroken(line)
  {
    IndentedUnbroken(line, Spaces0, ")");
  }

  lemma DefTestWithMultilineDecoratorLine(line: string)
    requires line == Spaces0 + "def test_with_multiline_decorator():"
    ensures InfoOf(line) == LineInfo(None, Some(TestHeaderMatch(0, "test_with_multiline_decorator")), Code(Depths(0, 0, 0)))
  {
    var ind := Spaces0;
    IndentsAreSpace();
    var name := "test_with_multiline_decorator";
    var body := "def " + name + ("(" + "" + "):");
    TestWithMultilineDecoratorName();
    DefTestWithMultilineDecoratorText();
    DefInfo(line, ind, body, name, "");
  }

  lemma DefTestWithMultilineDecoratorUnbroken(line: string)
    requires line == Spaces0 + "def test_with_multiline_decorator():"
    ensures Unbroken(line)
  {
    IndentedUnbroken(line, Spaces0, "def test_with_multiline_decorator():");
  }

  lemma DefTestUnmarkedLine(line: string)
    requires line == Spaces0 + "def test_unmarked():"
    ensures InfoOf(line) == LineInfo(None, Some(TestHeaderMatch(0, "test_unmarked")), Code(Depths(0, 0, 0)))
  {
    var ind := Spaces0;
    IndentsAreSpace();
    var name := "test_unmarked";
    var body := "def " + name + ("(" + "" + "):");
    TestUnmarkedName();
    DefTestUnmarkedText();
    DefInfo(line, ind, body, name, "");
  }

  lemma DefTestUnmarkedUnbroken(line: string)
    requires line == Spaces0 + "def test_unmarked():"
    ensures Unbroken(line)
  {
    IndentedUnbroken(line, Spaces0, "def test_unmarked():");
  }

  lemma ClassTestExampleLine(line: string)
    requires line == Spaces0 + "class TestExample:"
    ensures InfoOf(line) == LineInfo(Some(0), None, Code(Depths(0, 0, 0)))
  {
    var ind := Spaces0;
    IndentsAreSpace();
    var name := "TestExample";
    var body := "class " + name + ":";
    TestExampleWord();
    ClassTestExampleText();
    ClassInfo(line, ind, body, name);
  }

  lemma ClassTestExampleUnbroken(line: string)
    requires line == Spaces0 + "class TestExample:"
    ensures Unbroken(line)
  {
    IndentedUnbroken(line, Spaces0, "class TestExample:");
  }

  lemma MarkUnitLineAt4(line: string)
    requires line == Spaces4 + "@pytest.mark.unit"
    ensures InfoOf(line) == LineInfo(None, None, Decorator({"unit"}, Depths(0, 0, 0)))
  {
    var ind := Spaces4;
    IndentsAreSpace();
    var w := "unit";
    var body := "@" + MarkPrefix + w + "";
    UnitWord();
    MarkUnitText();
    BareDecoratorDelta(body, w);
    DecoratorInfo(line, ind, body, w, "", Depths(0, 0, 0));
  }

  lemma MarkUnitUnbrokenAt4(line: string)
    requires line == Spaces4 + "@pytest.mark.unit"
    ensures Unbroken(line)
  {
    IndentedUnbroken(line, Spaces4, "@pytest.mark.unit");
  }

  lemma DefTestMarkedMethodLine(line: string)
    requires line == Spaces4 + "def test_marked_method(self):"
    ensures InfoOf(line) == LineInfo(None, Some(TestHeaderMatch(4, "test_marked_method")), Code(Depths(0, 0, 0)))
  {
    var ind := Spaces4;
    IndentsAreSpace();
    var name := "test_marked_method";
    var body := "def " + name + ("(" + "self" + "):");
    TestMarkedMethodName();
    DefTestMarkedMethodText();
    DefInfo(line, ind, body, name, "self");
  }

  lemma DefTestMarkedMethodUnbroken(line: string)
    requires line == Spaces4 + "def test_marked_method(self):"
    ensures Unbroken(line)
  {
    IndentedUnbroken(line, Spaces4, "def test_marked_method(self):");
  }

  lemma PassLineAt8(line: string)
    requires line == Spaces8 + "pass"
    ensures InfoOf(line) == LineInfo(None, None, Code(Depths(0, 0, 0)))
  {
    var ind := Spaces8;
    IndentsAreSpace();
    var body := "pass";
    PassText();
    NoBracketsDelta(body);
    CodeInfo(line, ind, body, Depths(0, 0, 0));
  }

  lemma PassUnbrokenAt8(line: string)
    requires line == Spaces8 + "pass"
    ensures Unbroken(line)
  {
    IndentedUnbroken(line, Spaces8, "pass");
  }

  lemma DefTestUnmarkedMethodLine(line: string)
    requires line == Spaces4 + "def test_unmarked_method(self):"
    ensures InfoOf(line) == LineInfo(None, Some(TestHeaderMatch(4, "test_unmarked_method")), Code(Depths(0, 0, 0)))
  {
    var ind := Spaces4;
    IndentsAreSpace();
    var name := "test_unmarked_method";
    var body := "def " + name + ("(" + "self" + "):");
    TestUnmarkedMethodName();
    DefTestUnmarkedMethodText();
    DefInfo(line, ind, body, name, "self");
  }

  lemma DefTestUnmarkedMethodUnbroken(line: string)
    requires line == Spaces4 + "def test_unmarked_method(self):"
    ensures Unbroken(line)
  {
    IndentedUnbroken(line, Spaces4, "def test_unmarked_method(self):");
  }

  lemma MarkIntegrationLineAt4(line: string)
    requires line == Spaces4 + "@pytest.mark.integration"
    ensures InfoOf(line) == LineInfo(None, None, Decorator({"integration"}, Depths(0, 0, 0)))
  {
    var ind := Spaces4;
    IndentsAreSpace();
    var w := "integration";
    var body := "@" + MarkPrefix + w + "";
    IntegrationWord();
    MarkIntegrationText();
    BareDecoratorDelta(body, w);
    DecoratorInfo(line, ind, body, w, "", Depths(0, 0, 0));
  }

  lemma MarkIntegrationUnbrokenAt4(line: string)
    requires line == Spaces4 + "@pytest.mark.integration"
    ensures Unbroken(line)
  {
    IndentedUnbroken(line, Spaces4, "@pytest.mark.integration");
  }

  lemma DefTestAnotherMarkedMethodLine(line: string)
    requires line == Spaces4 + "def test_another_marked_method(self):"
    ensures InfoOf(line) == LineInfo(None, Some(TestHeaderMatch(4, "test_another_marked_method")), Code(Depths(0, 0, 0)))
  {
    var ind := Spaces4;
    IndentsAreSpace();
    var name := "test_another_marked_method";
    var body := "def " + name + ("(" + "self" + "):");
    TestAnotherMarkedMethodName();
    DefTestAnotherMarkedMethodText();
    DefInfo(line, ind, body, name, "self");
  }

  lemma DefTestAnotherMarkedMethodUnbroken(line: string)
    requires line == Spaces4 + "def test_another_marked_method(self):"
    ensures Unbroken(line)
  {
    IndentedUnbroken(line, Spaces4, "def test_another_marked_method(self):");
  }

  lemma DefTestFunctionLevelLine(line: string)
    requires line == Spaces0 + "def test_function_level():"
    ensures InfoOf(line) == LineInfo(None, Some(TestHeaderMatch(0, "test_function_level")), Code(Depths(0, 0, 0)))
  {
    var ind := Spaces0;
    IndentsAreSpace();
    var name := "test_function_level";
    var body := "def " + name + ("(" + "" + "):");
    TestFunctionLevelName();
    DefTestFunctionLevelText();
    DefInfo(line, ind, body, name, "");
  }

  lemma DefTestFunctionLevelUnbroken(line: string)
    requires line == Spaces0 + "def test_function_level():"
    ensures Unbroken(line)
  {
    IndentedUnbroken(line, Spaces0, "def test_function_level():");
  }

  lemma ClassTestAnotherLine(line: string)
    requires line == Spaces0 + "class TestAnother:"
    ensures InfoOf(line) == LineInfo(Some(0), None, Code(Depths(0, 0, 0)))
  {
    var ind := Spaces0;
    IndentsAreSpace();
    var name := "TestAnother";
    var body := "class " + name + ":";
    TestAnotherWord();
    ClassTestAnotherText();
    ClassInfo(line, ind, body, name);
  }

  lemma ClassTestAnotherUnbroken(line: string)
    requires line == Spaces0 + "class TestAnother:"
    ensures Unbroken(line)
  {
    IndentedUnbroken(line, Spaces0, "class TestAnother:");
  }

  lemma DefTestUnmarkedInClassLine(line: string)
    requires line == Spaces4 + "def test_unmarked_in_class(self):"
    ensures InfoOf(line) == LineInfo(None, Some(TestHeaderMatch(4, "test_unmarked_in_class")), Code(Depths(0, 0, 0)))
  {
    var ind := Spaces4;
    IndentsAreSpace();
    var name := "test_unmarked_in_class";
    var body := "def " + name + ("(" + "self" + "):");
    TestUnmarkedInClassName();
    DefTestUnmarkedInClassText();
    DefInfo(line, ind, body, name, "self");
  }

  lemma DefTestUnmarkedInClassUnbroken(line: string)
    requires line == Spaces4 + "def test_unmarked_in_class(self):"
    ensures Unbroken(line)
  {
    IndentedUnbroken(line, Spaces4, "def test_unmarked_in_class(self):");
  }

  lemma ClassTestMarkedClassLine(line: string)
    requires line == Spaces0 + "class TestMarkedClass:"
    ensures InfoOf(line) == LineInfo(Some(0), None, Code(Depths(0, 0, 0)))
  {
    var ind := Spaces0;
    IndentsAreSpace();
    var name := "TestMarkedClass";
    var body := "class " + name + ":";
    TestMarkedClassWord();
    ClassTestMarkedClassText();
    ClassInfo(line, ind, body, name);
  }

  lemma ClassTestMarkedClassUnbroken(line: string)
    requires line == Spaces0 + "class TestMarkedClass:"
    ensures Unbroken(line)
  {
    IndentedUnbroken(line, Spaces0, "class TestMarkedClass:");
  }

  lemma DefTestMethodInMarkedClassLine(line: string)
    requires line == Spaces4 + "def test_method_in_marked_class(self):"
    ensures InfoOf(line) == LineInfo(None, Some(TestHeaderMatch(4, "test_method_in_marked_class")), Code(Depths(0, 0, 0)))
  {
    var ind := Spaces4;
    IndentsAreSpace();
    var name := "test_method_in_marked_class";
    var body := "def " + name + ("(" + "self" + "):");
    TestMethodInMarkedClassName();
    DefTestMethodInMarkedClassText();
    DefInfo(line, ind, body, name, "self");
  }

  lemma DefTestMethodInMarkedClassUnbroken(line: string)
    requires line == Spaces4 + "def test_method_in_marked_class(self):"
    ensures Unbroken(line)
  {
    IndentedUnbroken(line, Spaces4, "def test_method_in_marked_class(self):");
  }

  lemma DefTestMethodWithOwnMarkerLine(line: string)
    requires line == Spaces4 + "def test_method_with_own_marker(self):"
    ensures InfoOf(line) == LineInfo(None, Some(TestHeaderMatch(4, "test_method_with_own_marker")), Code(Depths(0, 0, 0)))
  {
    var ind := Spaces4;
    IndentsAreSpace();
    var name := "test_method_with_own_marker";
    var body := "def " + name + ("(" + "self" + "):");
    TestMethodWithOwnMarkerName();
    DefTestMethodWithOwnMarkerText();
    DefInfo(line, ind, body, name, "self");
  }

  lemma DefTestMethodWithOwnMarkerUnbroken(line: string)
    requires line == Spaces4 + "def test_method_with_own_marker(self):"
    ensures Unbroken(line)
  {
    IndentedUnbroken(line, Spaces4, "def test_method_with_own_marker(self):");
  }

  lemma ClassTestUnmarkedClassLine(line: string)
    requires line == Spaces0 + "class TestUnmarkedClass:"
    ensures InfoOf(line) == LineInfo(Some(0), None, Code(Depths(0, 0, 0)))
  {
    var ind := Spaces0;
    IndentsAreSpace();
    var name := "TestUnmarkedClass";
    var body := "class " + name + ":";
    TestUnmarkedClassWord();
    ClassTestUnmarkedClassText();
    ClassInfo(line, ind, body, name);
  }

  lemma ClassTestUnmarkedClassUnbroken(line: string)
    requires line == Spaces0 + "class TestUnmarkedClass:"
    ensures Unbroken(line)
  {
    IndentedUnbroken(line, Spaces0, "class TestUnmarkedClass:");
  }

  lemma DefTestMethodInUnmarkedClassLine(line: string)
    requires line == Spaces4 + "def test_method_in_unmarked_class(self):"
    ensures InfoOf(line) == LineInfo(None, Some(TestHeaderMatch(4, "test_method_in_unmarked_class")), Code(Depths(0, 0, 0)))
  {
    var ind := Spaces4;
    IndentsAreSpace();
    var name := "test_method_in_unmarked_class";
    var body := "def " + name + ("(" + "self" + "):");
    TestMethodInUnmarkedClassName();
    DefTestMethodInUnmarkedClassText();
    DefInfo(line, ind, body, name, "self");
  }

  lemma DefTestMethodInUnmarkedClassUnbroken(line: string)
    requires line == Spaces4 + "def test_method_in_unmarked_class(self):"
    ensures Unbroken(line)
  {
    IndentedUnbroken(line, Spaces4, "def test_method_in_unmarked_class(self):");
  }

  // ---------------------------------------------------------------- the examples

  /** The test file of src/main.rs:280-307, one string per line. */
  const PlainFunctionsFile: seq<string> := [
    "",
    Spaces0 + "import pytest",
    "",
    Spaces0 + "@pytest.mark.unit",
    Spaces0 + "def test_marked_function():",
    Spaces4 + "pass",
    "",
    Spaces0 + "def test_unmarked_function():",
    Spaces4 + "pass",
    "",
    Spaces0 + "@pytest.mark.skip",
    Spaces0 + "def test_skipped_function():",
    Spaces4 + "pass",
    "",
    Spaces0 + "def test_another_unmarked():",
    Spaces4 + "pass"
  ]

  /** The summaries of the lines of `PlainFunctionsFile`. */
  const PlainFunctionsInfos: seq<LineInfo> := [
    LineInfo(None, None, Blank),
    LineInfo(None, None, Code(Depths(0, 0, 0))),
    LineInfo(None, None, Blank),
    LineInfo(None, None, Decorator({"unit"}, Depths(0, 0, 0))),
    LineInfo(None, Some(TestHeaderMatch(0, "test_marked_function")), Code(Depths(0, 0, 0))),
    LineInfo(None, None, Code(Depths(0, 0, 0))),
    LineInfo(None, None, Blank),
    LineInfo(None, Some(TestHeaderMatch(0, "test_unmarked_function")), Code(Depths(0, 0, 0))),
    LineInfo(None, None, Code(Depths(0, 0, 0))),
    LineInfo(None, None, Blank),
    LineInfo(None, None, Decorator({"skip"}, Depths(0, 0, 0))),
    LineInfo(None, Some(TestHeaderMatch(0, "test_skipped_function")), Code(Depths(0, 0, 0))),
    LineInfo(None, None, Code(Depths(0, 0, 0))),
    LineInfo(None, None, Blank),
    LineInfo(None, Some(TestHeaderMatch(0, "test_another_unmarked")), Code(Depths(0, 0, 0))),
    LineInfo(None, None, Code(Depths(0, 0, 0)))
  ]

  /** Lines 0 to 5 of `PlainFunctionsFile` have the summaries of lines 0 to 5 of `PlainFunctionsInfos`. */
  ghost predicate PlainFunctionsShape0(infos: seq<LineInfo>)
  {
    && |infos| == 16
    && infos[0] == LineInfo(None, None, Blank)
    && infos[1] == LineInfo(None, None, Code(Depths(0, 0, 0)))
    && infos[2] == LineInfo(None, None, Blank)
    && infos[3] == LineInfo(None, None, Decorator({"unit"}, Depths(0, 0, 0)))
    && infos[4] == LineInfo(None, Some(TestHeaderMatch(0, "test_marked_function")), Code(Depths(0, 0, 0)))
    && infos[5] == LineInfo(None, None, Code(Depths(0, 0, 0)))
  }

  lemma PlainFunctionsShaped0(infos: seq<LineInfo>)
    requires infos == PlainFunctionsInfos
    ensures PlainFunctionsShape0(infos)
  {
  }

  lemma PlainFunctionsLines0(lines: seq<string>, infos: seq<LineInfo>, k: nat)
    requires lines == PlainFunctionsFile && PlainFunctionsShape0(infos) && 0 <= k < 6
    ensures InfoOf(lines[k]) == infos[k]
  {
    if k == 0 {
      EmptyLine(lines[k]);
    } else if k == 1 {
      ImportPytestLine(lines[k]);
    } else if k == 2 {
      EmptyLine(lines[k]);
    } else if k == 3 {
      MarkUnitLine(lines[k]);
    } else if k == 4 {
      DefTestMarkedFunctionLine(lines[k]);
    } else {
      PassLineAt4(lines[k]);
    }
  }

  /** Lines 6 to 11 of `PlainFunctionsFile` have the summaries of lines 6 to 11 of `PlainFunctionsInfos`. */
  ghost predicate PlainFunctionsShape6(infos: seq<LineInfo>)
  {
    && |infos| == 16
    && infos[6] == LineInfo(None, None, Blank)
    && infos[7] == LineInfo(None, Some(TestHeaderMatch(0, "test_unmarked_function")), Code(Depths(0, 0, 0)))
    && infos[8] == LineInfo(None, None, Code(Depths(0, 0, 0)))
    && infos[9] == LineInfo(None, None, Blank)
    && infos[10] == LineInfo(None, None, Decorator({"skip"}, Depths(0, 0, 0)))
    && infos[11] == LineInfo(None, Some(TestHeaderMatch(0, "test_skipped_function")), Code(Depths(0, 0, 0)))
  }

  lemma PlainFunctionsShaped6(infos: seq<LineInfo>)
    requires infos == PlainFunctionsInfos
    ensures PlainFunctionsShape6(infos)
  {
  }

  lemma PlainFunctionsLines6(lines: seq<string>, infos: seq<LineInfo>, k: nat)
    requires lines == PlainFunctionsFile && PlainFunctionsShape6(infos) && 6 <= k < 12
    ensures InfoOf(lines[k]) == infos[k]
  {
    if k == 6 {
      EmptyLine(lines[k]);
    } else if k == 7 {
      DefTestUnmarkedFunctionLine(lines[k]);
    } else if k == 8 {
      PassLineAt4(lines[k]);
    } else if k == 9 {
      EmptyLine(lines[k]);
    } else if k == 10 {
      MarkSkipLine(lines[k]);
    } else {
      DefTestSkippedFunctionLine(lines[k]);
    }
  }

  /** Lines 12 to 15 of `PlainFunctionsFile` have the summaries of lines 12 to 15 of `PlainFunctionsInfos`. */
  ghost predicate PlainFunctionsShape12(infos: seq<LineInfo>)
  {
    && |infos| == 16
    && infos[12] == LineInfo(None, None, Code(Depths(0, 0, 0)))
    && infos[13] == LineInfo(None, None, Blank)
    && infos[14] == LineInfo(None, Some(TestHeaderMatch(0, "test_another_unmarked")), Code(Depths(0, 0, 0)))
    && infos[15] == LineInfo(None, None, Code(Depths(0, 0, 0)))
  }

  lemma PlainFunctionsShaped12(infos: seq<LineInfo>)
    requires infos == PlainFunctionsInfos
    ensures PlainFunctionsShape12(infos)
  {
  }

  lemma PlainFunctionsLines12(lines: seq<string>, infos: seq<LineInfo>, k: nat)
    requires lines == PlainFunctionsFile && PlainFunctionsShape12(infos) && 12 <= k < 16
    ensures InfoOf(lines[k]) == infos[k]
  {
    if k == 12 {
      PassLineAt4(lines[k]);
    } else if k == 13 {
      EmptyLine(lines[k]);
    } else if k == 14 {
      DefTestAnotherUnmarkedLine(lines[k]);
    } else {
      PassLineAt4(lines[k]);
    }
  }

  /** Summaries equal to those of `PlainFunctionsFile`, line by line. */
  ghost predicate PlainFunctionsShape(infos: seq<LineInfo>)
  {
    && PlainFunctionsShape0(infos)
    && PlainFunctionsShape6(infos)
    && PlainFunctionsShape12(infos)
  }

  /** The lines of `PlainFunctionsFile` have summaries equal to `PlainFunctionsInfos`. */
  lemma PlainFunctionsSummarized(lines: seq<string>) returns (infos: seq<LineInfo>)
    requires lines == PlainFunctionsFile
    ensures Summarizes(lines, infos) && PlainFunctionsShape(infos)
  {
    infos := PlainFunctionsInfos;
    PlainFunctionsShaped0(infos);
    PlainFunctionsShaped6(infos);
    PlainFunctionsShaped12(infos);
    forall k | 0 <= k < |lines|
      ensures InfoOf(lines[k]) == infos[k]
    {
      if k < 6 {
        PlainFunctionsLines0(lines, infos, k);
      } else if k < 12 {
        PlainFunctionsLines6(lines, infos, k);
      } else {
        PlainFunctionsLines12(lines, infos, k);
      }
    }
  }

  lemma {:induction false} PlainFunctionsMarkers4(infos: seq<LineInfo>)
    requires PlainFunctionsShape(infos)
    ensures InfoScan(infos, 4, Depths(0, 0, 0)) == {"unit"}
  {
    assert InfoScan(infos, 4, Depths(0, 0, 0)) == {"unit"} + InfoScan(infos, 3, Depths(0, 0, 0));
    assert InfoScan(infos, 3, Depths(0, 0, 0)) == InfoScan(infos, 2, Depths(0, 0, 0));
    assert InfoScan(infos, 2, Depths(0, 0, 0)) == {};
  }

  lemma {:induction false} PlainFunctionsMarkers7(infos: seq<LineInfo>)
    requires PlainFunctionsShape(infos)
    ensures InfoScan(infos, 7, Depths(0, 0, 0)) == {}
  {
    assert InfoScan(infos, 7, Depths(0, 0, 0)) == InfoScan(infos, 6, Depths(0, 0, 0));
    assert InfoScan(infos, 6, Depths(0, 0, 0)) == {};
  }

  lemma {:induction false} PlainFunctionsMarkers11(infos: seq<LineInfo>)
    requires PlainFunctionsShape(infos)
    ensures InfoScan(infos, 11, Depths(0, 0, 0)) == {"skip"}
  {
    assert InfoScan(infos, 11, Depths(0, 0, 0)) == {"skip"} + InfoScan(infos, 10, Depths(0, 0, 0));
    assert InfoScan(infos, 10, Depths(0, 0, 0)) == InfoScan(infos, 9, Depths(0, 0, 0));
    assert InfoScan(infos, 9, Depths(0, 0, 0)) == {};
  }

  lemma {:induction false} PlainFunctionsMarkers14(infos: seq<LineInfo>)
    requires PlainFunctionsShape(infos)
    ensures InfoScan(infos, 14, Depths(0, 0, 0)) == {}
  {
    assert InfoScan(infos, 14, Depths(0, 0, 0)) == InfoScan(infos, 13, Depths(0, 0, 0));
    assert InfoScan(infos, 13, Depths(0, 0, 0)) == {};
  }

  lemma {:induction false} PlainFunctionsUpTo4(infos: seq<LineInfo>, excluded: set<string>)
    requires PlainFunctionsShape(infos) && excluded == {"skip", "unit"}
    ensures InfoStack(infos, 4) == []
    ensures InfoReported(infos, excluded, 4) == []
  {
    OtherLine(infos, excluded, 1);
    OtherLine(infos, excluded, 2);
    OtherLine(infos, excluded, 3);
    OtherLine(infos, excluded, 4);
  }

  lemma {:induction false} PlainFunctionsUpTo8(infos: seq<LineInfo>, excluded: set<string>)
    requires PlainFunctionsShape(infos) && excluded == {"skip", "unit"}
    ensures InfoStack(infos, 8) == []
    ensures InfoReported(infos, excluded, 8) == ["test_unmarked_function"]
  {
    PlainFunctionsUpTo4(infos, excluded);
    PlainFunctionsMarkers4(infos);
    assert "unit" in InfoScan(infos, 4, Depths(0, 0, 0)) * excluded;
    TestLine(infos, excluded, 5, 0, "test_marked_function");
    OtherLine(infos, excluded, 6);
    OtherLine(infos, excluded, 7);
    PlainFunctionsMarkers7(infos);
    TestLine(infos, excluded, 8, 0, "test_unmarked_function");
  }

  lemma {:induction false} PlainFunctionsUpTo12(infos: seq<LineInfo>, excluded: set<string>)
    requires PlainFunctionsShape(infos) && excluded == {"skip", "unit"}
    ensures InfoStack(infos, 12) == []
    ensures InfoReported(infos, excluded, 12) == ["test_unmarked_function"]
  {
    PlainFunctionsUpTo8(infos, excluded);
    OtherLine(infos, excluded, 9);
    OtherLine(infos, excluded, 10);
    OtherLine(infos, excluded, 11);
    PlainFunctionsMarkers11(infos);
    assert "skip" in InfoScan(infos, 11, Depths(0, 0, 0)) * excluded;
    TestLine(infos, excluded, 12, 0, "test_skipped_function");
  }

  lemma {:induction false} PlainFunctionsUpTo16(infos: seq<LineInfo>, excluded: set<string>)
    requires PlainFunctionsShape(infos) && excluded == {"skip", "unit"}
    ensures InfoStack(infos, 16) == []
    ensures InfoReported(infos, excluded, 16) == ["test_unmarked_function", "test_another_unmarked"]
  {
    PlainFunctionsUpTo12(infos, excluded);
    OtherLine(infos, excluded, 13);
    OtherLine(infos, excluded, 14);
    PlainFunctionsMarkers14(infos);
    TestLine(infos, excluded, 15, 0, "test_another_unmarked");
    OtherLine(infos, excluded, 16);
  }

  /** Any summaries equal to those of `PlainFunctionsFile` yield [`test_unmarked_function`, `test_another_unmarked`] when {`skip`, `unit`} are excluded. */
  lemma PlainFunctionsResult(infos: seq<LineInfo>)
    requires PlainFunctionsShape(infos)
    ensures InfoReported(infos, {"skip", "unit"}, |infos|) == ["test_unmarked_function", "test_another_unmarked"]
  {
    PlainFunctionsUpTo16(infos, {"skip", "unit"});
  }

  /** Marked module-level functions are left out (src/main.rs:280-307). */
  lemma PlainFunctions(lines: seq<string>)
    requires lines == PlainFunctionsFile
    ensures Reported(lines, {"skip", "unit"}, |lines|) == ["test_unmarked_function", "test_another_unmarked"]
  {
    var infos := PlainFunctionsSummarized(lines);
    ReportedAgrees(lines, infos, {"skip", "unit"});
    PlainFunctionsResult(infos);
  }

  lemma PlainFunctionsUnbroken0(lines: seq<string>, k: nat)
    requires lines == PlainFunctionsFile && 0 <= k < 6
    ensures Unbroken(lines[k])
  {
    if k == 1 {
      ImportPytestUnbroken(lines[k]);
    } else if k == 3 {
      MarkUnitUnbroken(lines[k]);
    } else if k == 4 {
      DefTestMarkedFunctionUnbroken(lines[k]);
    } else if k == 5 {
      PassUnbrokenAt4(lines[k]);
    }
  }

  lemma PlainFunctionsUnbroken6(lines: seq<string>, k: nat)
    requires lines == PlainFunctionsFile && 6 <= k < 12
    ensures Unbroken(lines[k])
  {
    if k == 7 {
      DefTestUnmarkedFunctionUnbroken(lines[k]);
    } else if k == 8 {
      PassUnbrokenAt4(lines[k]);
    } else if k == 10 {
      MarkSkipUnbroken(lines[k]);
    } else if k == 11 {
      DefTestSkippedFunctionUnbroken(lines[k]);
    }
  }

  lemma PlainFunctionsUnbroken12(lines: seq<string>, k: nat)
    requires lines == PlainFunctionsFile && 12 <= k < 16
    ensures Unbroken(lines[k])
  {
    if k == 12 {
      PassUnbrokenAt4(lines[k]);
    } else if k == 14 {
      DefTestAnotherUnmarkedUnbroken(lines[k]);
    } else if k == 15 {
      PassUnbrokenAt4(lines[k]);
    }
  }

  /** `find_python_test_functions` on the text of the test (src/main.rs:280-307): each line of `PlainFunctionsFile` ended by a line feed. */
  lemma PlainFunctionsContent()
    ensures UnmarkedTests(JoinLf(PlainFunctionsFile), {"skip", "unit"}) == ["test_unmarked_function", "test_another_unmarked"]
  {
    var lines := PlainFunctionsFile;
    forall k | 0 <= k < |lines|
      ensures Unbroken(lines[k])
    {
      if k < 6 {
        PlainFunctionsUnbroken0(lines, k);
      } else if k < 12 {
        PlainFunctionsUnbroken6(lines, k);
      } else {
        PlainFunctionsUnbroken12(lines, k);
      }
    }
    SplitsIntoLines(lines);
    PlainFunctions(lines);
  }

  /** The test file of src/main.rs:310-333, one string per line. */
  const MultilineDecoratorFile: seq<string> := [
    "",
    Spaces0 + "import pytest",
    "",
    Spaces0 + "@pytest.mark.unit",
    Spaces0 + "@pytest.mark.parametrize(",
    Spaces4 + "\"arg1, arg2\",",
    Spaces4 + "[",
    Spaces8 + "pytest.param(\"a\", \"b\"),",
    Spaces8 + "pytest.param(\"c\", \"d\"),",
    Spaces4 + "],",
    Spaces0 + ")",
    Spaces0 + "def test_with_multiline_decorator():",
    Spaces4 + "pass",
    "",
    Spaces0 + "def test_unmarked():",
    Spaces4 + "pass"
  ]

  /** The summaries of the lines of `MultilineDecoratorFile`. */
  const MultilineDecoratorInfos: seq<LineInfo> := [
    LineInfo(None, None, Blank),
    LineInfo(None, None, Code(Depths(0, 0, 0))),
    LineInfo(None, None, Blank),
    LineInfo(None, None, Decorator({"unit"}, Depths(0, 0, 0))),
    LineInfo(None, None, Decorator({"parametrize"}, Depths(1, 0, 0))),
    LineInfo(None, None, Code(Depths(0, 0, 0))),
    LineInfo(None, None, Code(Depths(0, 1, 0))),
    LineInfo(None, None, Code(Depths(0, 0, 0))),
    LineInfo(None, None, Code(Depths(0, 0, 0))),
    LineInfo(None, None, Code(Depths(0, -1, 0))),
    LineInfo(None, None, Code(Depths(-1, 0, 0))),
    LineInfo(None, Some(TestHeaderMatch(0, "test_with_multiline_decorator")), Code(Depths(0, 0, 0))),
    LineInfo(None, None, Code(Depths(0, 0, 0))),
    LineInfo(None, None, Blank),
    LineInfo(None, Some(TestHeaderMatch(0, "test_unmarked")), Code(Depths(0, 0, 0))),
    LineInfo(None, None, Code(Depths(0, 0, 0)))
  ]

  /** Lines 0 to 5 of `MultilineDecoratorFile` have the summaries of lines 0 to 5 of `MultilineDecoratorInfos`. */
  ghost predicate MultilineDecoratorShape0(infos: seq<LineInfo>)
  {
    && |infos| == 16
    && infos[0] == LineInfo(None, None, Blank)
    && infos[1] == LineInfo(None, None, Code(Depths(0, 0, 0)))
    && infos[2] == LineInfo(None, None, Blank)
    && infos[3] == LineInfo(None, None, Decorator({"unit"}, Depths(0, 0, 0)))
    && infos[4] == LineInfo(None, None, Decorator({"parametrize"}, Depths(1, 0, 0)))
    && infos[5] == LineInfo(None, None, Code(Depths(0, 0, 0)))
  }

  lemma MultilineDecoratorShaped0(infos: seq<LineInfo>)
    requires infos == MultilineDecoratorInfos
    ensures MultilineDecoratorShape0(infos)
  {
  }

  lemma MultilineDecoratorLines0(lines: seq<string>, infos: seq<LineInfo>, k: nat)
    requires lines == MultilineDecoratorFile && MultilineDecoratorShape0(infos) && 0 <= k < 6
    ensures InfoOf(lines[k]) == infos[k]
  {
    if k == 0 {
      EmptyLine(lines[k]);
    } else if k == 1 {
      ImportPytestLine(lines[k]);
    } else if k == 2 {
      EmptyLine(lines[k]);
    } else if k == 3 {
      MarkUnitLine(lines[k]);
    } else if k == 4 {
      MarkParametrizeCallLine(lines[k]);
    } else {
      ArgNamesLineAt4(lines[k]);
    }
  }

  /** Lines 6 to 11 of `MultilineDecoratorFile` have the summaries of lines 6 to 11 of `MultilineDecoratorInfos`. */
  ghost predicate MultilineDecoratorShape6(infos: seq<LineInfo>)
  {
    && |infos| == 16
    && infos[6] == LineInfo(None, None, Code(Depths(0, 1, 0)))
    && infos[7] == LineInfo(None, None, Code(Depths(0, 0, 0)))
    && infos[8] == LineInfo(None, None, Code(Depths(0, 0, 0)))
    && infos[9] == LineInfo(None, None, Code(Depths(0, -1, 0)))
    && infos[10] == LineInfo(None, None, Code(Depths(-1, 0, 0)))
    && infos[11] == LineInfo(None, Some(TestHeaderMatch(0, "test_with_multiline_decorator")), Code(Depths(0, 0, 0)))
  }

  lemma MultilineDecoratorShaped6(infos: seq<LineInfo>)
    requires infos == MultilineDecoratorInfos
    ensures MultilineDecoratorShape6(infos)
  {
  }

  lemma MultilineDecoratorLines6(lines: seq<string>, infos: seq<LineInfo>, k: nat)
    requires lines == MultilineDecoratorFile && MultilineDecoratorShape6(infos) && 6 <= k < 12
    ensures InfoOf(lines[k]) == infos[k]
  {
    if k == 6 {
      OpenBracketLineAt4(lines[k]);
    } else if k == 7 {
      ParamABLineAt8(lines[k]);
    } else if k == 8 {
      ParamCDLineAt8(lines[k]);
    } else if k == 9 {
      CloseBracketLineAt4(lines[k]);
    } else if k == 10 {
      CloseParenLine(lines[k]);
    } else {
      DefTestWithMultilineDecoratorLine(lines[k]);
    }
  }

  /** Lines 12 to 15 of `MultilineDecoratorFile` have the summaries of lines 12 to 15 of `MultilineDecoratorInfos`. */
  ghost predicate MultilineDecoratorShape12(infos: seq<LineInfo>)
  {
    && |infos| == 16
    && infos[12] == LineInfo(None, None, Code(Depths(0, 0, 0)))
    && infos[13] == LineInfo(None, None, Blank)
    && infos[14] == LineInfo(None, Some(TestHeaderMatch(0, "test_unmarked")), Code(Depths(0, 0, 0)))
    && infos[15] == LineInfo(None, None, Code(Depths(0, 0, 0)))
  }

  lemma MultilineDecoratorShaped12(infos: seq<LineInfo>)
    requires infos == MultilineDecoratorInfos
    ensures MultilineDecoratorShape12(infos)
  {
  }

  lemma MultilineDecoratorLines12(lines: seq<string>, infos: seq<LineInfo>, k: nat)
    requires lines == MultilineDecoratorFile && MultilineDecoratorShape12(infos) && 12 <= k < 16
    ensures InfoOf(lines[k]) == infos[k]
  {
    if k == 12 {
      PassLineAt4(lines[k]);
    } else if k == 13 {
      EmptyLine(lines[k]);
    } else if k == 14 {
      DefTestUnmarkedLine(lines[k]);
    } else {
      PassLineAt4(lines[k]);
    }
  }

  /** Summaries equal to those of `MultilineDecoratorFile`, line by line. */
  ghost predicate MultilineDecoratorShape(infos: seq<LineInfo>)
  {
    && MultilineDecoratorShape0(infos)
    && MultilineDecoratorShape6(infos)
    && MultilineDecoratorShape12(infos)
  }

  /** The lines of `MultilineDecoratorFile` have summaries equal to `MultilineDecoratorInfos`. */
  lemma MultilineDecoratorSummarized(lines: seq<string>) returns (infos: seq<LineInfo>)
    requires lines == MultilineDecoratorFile
    ensures Summarizes(lines, infos) && MultilineDecoratorShape(infos)
  {
    infos := MultilineDecoratorInfos;
    MultilineDecoratorShaped0(infos);
    MultilineDecoratorShaped6(infos);
    MultilineDecoratorShaped12(infos);
    forall k | 0 <= k < |lines|
      ensures InfoOf(lines[k]) == infos[k]
    {
      if k < 6 {
        MultilineDecoratorLines0(lines, infos, k);
      } else if k < 12 {
        MultilineDecoratorLines6(lines, infos, k);
      } else {
        MultilineDecoratorLines12(lines, infos, k);
      }
    }
  }

  lemma {:induction false} MultilineDecoratorMarkers11(infos: seq<LineInfo>)
    requires MultilineDecoratorShape(infos)
    ensures InfoScan(infos, 11, Depths(0, 0, 0)) == {"parametrize", "unit"}
  {
    assert InfoScan(infos, 11, Depths(0, 0, 0)) == InfoScan(infos, 10, Depths(-1, 0, 0));
    assert InfoScan(infos, 10, Depths(-1, 0, 0)) == InfoScan(infos, 9, Depths(-1, -1, 0));
    assert InfoScan(infos, 9, Depths(-1, -1, 0)) == InfoScan(infos, 8, Depths(-1, -1, 0));
    assert InfoScan(infos, 8, Depths(-1, -1, 0)) == InfoScan(infos, 7, Depths(-1, -1, 0));
    assert InfoScan(infos, 7, Depths(-1, -1, 0)) == InfoScan(infos, 6, Depths(-1, 0, 0));
    assert InfoScan(infos, 6, Depths(-1, 0, 0)) == InfoScan(infos, 5, Depths(-1, 0, 0));
    assert InfoScan(infos, 5, Depths(-1, 0, 0)) == {"parametrize"} + InfoScan(infos, 4, Depths(0, 0, 0));
    assert InfoScan(infos, 4, Depths(0, 0, 0)) == {"unit"} + InfoScan(infos, 3, Depths(0, 0, 0));
    assert InfoScan(infos, 3, Depths(0, 0, 0)) == InfoScan(infos, 2, Depths(0, 0, 0));
    assert InfoScan(infos, 2, Depths(0, 0, 0)) == {};
  }

  lemma {:induction false} MultilineDecoratorMarkers14(infos: seq<LineInfo>)
    requires MultilineDecoratorShape(infos)
    ensures InfoScan(infos, 14, Depths(0, 0, 0)) == {}
  {
    assert InfoScan(infos, 14, Depths(0, 0, 0)) == InfoScan(infos, 13, Depths(0, 0, 0));
    assert InfoScan(infos, 13, Depths(0, 0, 0)) == {};
  }

  lemma {:induction false} MultilineDecoratorUpTo4(infos: seq<LineInfo>, excluded: set<string>)
    requires MultilineDecoratorShape(infos) && excluded == {"unit"}
    ensures InfoStack(infos, 4) == []
    ensures InfoReported(infos, excluded, 4) == []
  {
    OtherLine(infos, excluded, 1);
    OtherLine(infos, excluded, 2);
    OtherLine(infos, excluded, 3);
    OtherLine(infos, excluded, 4);
  }

  lemma {:induction false} MultilineDecoratorUpTo8(infos: seq<LineInfo>, excluded: set<string>)
    requires MultilineDecoratorShape(infos) && excluded == {"unit"}
    ensures InfoStack(infos, 8) == []
    ensures InfoReported(infos, excluded, 8) == []
  {
    MultilineDecoratorUpTo4(infos, excluded);
    OtherLine(infos, excluded, 5);
    OtherLine(infos, excluded, 6);
    OtherLine(infos, excluded, 7);
    OtherLine(infos, excluded, 8);
  }

  lemma {:induction false} MultilineDecoratorUpTo12(infos: seq<LineInfo>, excluded: set<string>)
    requires MultilineDecoratorShape(infos) && excluded == {"unit"}
    ensures InfoStack(infos, 12) == []
    ensures InfoReported(infos, excluded, 12) == []
  {
    MultilineDecoratorUpTo8(infos, excluded);
    OtherLine(infos, excluded, 9);
    OtherLine(infos, excluded, 10);
    OtherLine(infos, excluded, 11);
    MultilineDecoratorMarkers11(infos);
    assert "unit" in InfoScan(infos, 11, Depths(0, 0, 0)) * excluded;
    TestLine(infos, excluded, 12, 0, "test_with_multiline_decorator");
  }

  lemma {:induction false} MultilineDecoratorUpTo16(infos: seq<LineInfo>, excluded: set<string>)
    requires MultilineDecoratorShape(infos) && excluded == {"unit"}
    ensures InfoStack(infos, 16) == []
    ensures InfoReported(infos, excluded, 16) == ["test_unmarked"]
  {
    MultilineDecoratorUpTo12(infos, excluded);
    OtherLine(infos, excluded, 13);
    OtherLine(infos, excluded, 14);
    MultilineDecoratorMarkers14(infos);
    TestLine(infos, excluded, 15, 0, "test_unmarked");
    OtherLine(infos, excluded, 16);
  }

  /** Any summaries equal to those of `MultilineDecoratorFile` yield [`test_unmarked`] when {`unit`} are excluded. */
  lemma MultilineDecoratorResult(infos: seq<LineInfo>)
    requires MultilineDecoratorShape(infos)
    ensures InfoReported(infos, {"unit"}, |infos|) == ["test_unmarked"]
  {
    MultilineDecoratorUpTo16(infos, {"unit"});
  }

  /** A decorator whose arguments span several lines is read as one block (src/main.rs:310-333). */
  lemma MultilineDecorator(lines: seq<string>)
    requires lines == MultilineDecoratorFile
    ensures Reported(lines, {"unit"}, |lines|) == ["test_unmarked"]
  {
    var infos := MultilineDecoratorSummarized(lines);
    ReportedAgrees(lines, infos, {"unit"});
    MultilineDecoratorResult(infos);
  }

  lemma MultilineDecoratorUnbroken0(lines: seq<string>, k: nat)
    requires lines == MultilineDecoratorFile && 0 <= k < 6
    ensures Unbroken(lines[k])
  {
    if k == 1 {
      ImportPytestUnbroken(lines[k]);
    } else if k == 3 {
      MarkUnitUnbroken(lines[k]);
    } else if k == 4 {
      MarkParametrizeCallUnbroken(lines[k]);
    } else if k == 5 {
      ArgNamesUnbrokenAt4(lines[k]);
    }
  }

  lemma MultilineDecoratorUnbroken6(lines: seq<string>, k: nat)
    requires lines == MultilineDecoratorFile && 6 <= k < 12
    ensures Unbroken(lines[k])
  {
    if k == 6 {
      OpenBracketUnbrokenAt4(lines[k]);
    } else if k == 7 {
      ParamABUnbrokenAt8(lines[k]);
    } else if k == 8 {
      ParamCDUnbrokenAt8(lines[k]);
    } else if k == 9 {
      CloseBracketUnbrokenAt4(lines[k]);
    } else if k == 10 {
      CloseParenUnbroken(lines[k]);
    } else if k == 11 {
      DefTestWithMultilineDecoratorUnbroken(lines[k]);
    }
  }

  lemma MultilineDecoratorUnbroken12(lines: seq<string>, k: nat)
    requires lines == MultilineDecoratorFile && 12 <= k < 16
    ensures Unbroken(lines[k])
  {
    if k == 12 {
      PassUnbrokenAt4(lines[k]);
    } else if k == 14 {
      DefTestUnmarkedUnbroken(lines[k]);
    } else if k == 15 {
      PassUnbrokenAt4(lines[k]);
    }
  }

  /** `find_python_test_functions` on the text of the test (src/main.rs:310-333): each line of `MultilineDecoratorFile` ended by a line feed. */
  lemma MultilineDecoratorContent()
    ensures UnmarkedTests(JoinLf(MultilineDecoratorFile), {"unit"}) == ["test_unmarked"]
  {
    var lines := MultilineDecoratorFile;
    forall k | 0 <= k < |lines|
      ensures Unbroken(lines[k])
    {
      if k < 6 {
        MultilineDecoratorUnbroken0(lines, k);
      } else if k < 12 {
        MultilineDecoratorUnbroken6(lines, k);
      } else {
        MultilineDecoratorUnbroken12(lines, k);
      }
    }
    SplitsIntoLines(lines);
    MultilineDecorator(lines);
  }

  /** The test file of src/main.rs:336-374, one string per line. */
  const ClassMethodsFile: seq<string> := [
    "",
    Spaces0 + "import pytest",
    "",
    Spaces0 + "class TestExample:",
    Spaces4 + "@pytest.mark.unit",
    Spaces4 + "def test_marked_method(self):",
    Spaces8 + "pass",
    "",
    Spaces4 + "def test_unmarked_method(self):",
    Spaces8 + "pass",
    "",
    Spaces4 + "@pytest.mark.integration",
    Spaces4 + "def test_another_marked_method(self):",
    Spaces8 + "pass",
    "",
    Spaces0 + "def test_function_level():",
    Spaces4 + "pass",
    "",
    Spaces0 + "class TestAnother:",
    Spaces4 + "def test_unmarked_in_class(self):",
    Spaces8 + "pass"
  ]

  /** The summaries of the lines of `ClassMethodsFile`. */
  const ClassMethodsInfos: seq<LineInfo> := [
    LineInfo(None, None, Blank),
    LineInfo(None, None, Code(Depths(0, 0, 0))),
    LineInfo(None, None, Blank),
    LineInfo(Some(0), None, Code(Depths(0, 0, 0))),
    LineInfo(None, None, Decorator({"unit"}, Depths(0, 0, 0))),
    LineInfo(None, Some(TestHeaderMatch(4, "test_marked_method")), Code(Depths(0, 0, 0))),
    LineInfo(None, None, Code(Depths(0, 0, 0))),
    LineInfo(None, None, Blank),
    LineInfo(None, Some(TestHeaderMatch(4, "test_unmarked_method")), Code(Depths(0, 0, 0))),
    LineInfo(None, None, Code(Depths(0, 0, 0))),
    LineInfo(None, None, Blank),
    LineInfo(None, None, Decorator({"integration"}, Depths(0, 0, 0))),
    LineInfo(None, Some(TestHeaderMatch(4, "test_another_marked_method")), Code(Depths(0, 0, 0))),
    LineInfo(None, None, Code(Depths(0, 0, 0))),
    LineInfo(None, None, Blank),
    LineInfo(None, Some(TestHeaderMatch(0, "test_function_level")), Code(Depths(0, 0, 0))),
    LineInfo(None, None, Code(Depths(0, 0, 0))),
    LineInfo(None, None, Blank),
    LineInfo(Some(0), None, Code(Depths(0, 0, 0))),
    LineInfo(None, Some(TestHeaderMatch(4, "test_unmarked_in_class")), Code(Depths(0, 0, 0))),
    LineInfo(None, None, Code(Depths(0, 0, 0)))
  ]

  /** Lines 0 to 5 of `ClassMethodsFile` have the summaries of lines 0 to 5 of `ClassMethodsInfos`. */
  ghost predicate ClassMethodsShape0(infos: seq<LineInfo>)
  {
    && |infos| == 21
    && infos[0] == LineInfo(None, None, Blank)
    && infos[1] == LineInfo(None, None, Code(Depths(0, 0, 0)))
    && infos[2] == LineInfo(None, None, Blank)
    && infos[3] == LineInfo(Some(0), None, Code(Depths(0, 0, 0)))
    && infos[4] == LineInfo(None, None, Decorator({"unit"}, Depths(0, 0, 0)))
    && infos[5] == LineInfo(None, Some(TestHeaderMatch(4, "test_marked_method")), Code(Depths(0, 0, 0)))
  }

  lemma ClassMethodsShaped0(infos: seq<LineInfo>)
    requires infos == ClassMethodsInfos
    ensures ClassMethodsShape0(infos)
  {
  }

  lemma ClassMethodsLines0(lines: seq<string>, infos: seq<LineInfo>, k: nat)
    requires lines == ClassMethodsFile && ClassMethodsShape0(infos) && 0 <= k < 6
    ensures InfoOf(lines[k]) == infos[k]
  {
    if k == 0 {
      EmptyLine(lines[k]);
    } else if k == 1 {
      ImportPytestLine(lines[k]);
    } else if k == 2 {
      EmptyLine(lines[k]);
    } else if k == 3 {
      ClassTestExampleLine(lines[k]);
    } else if k == 4 {
      MarkUnitLineAt4(lines[k]);
    } else {
      DefTestMarkedMethodLine(lines[k]);
    }
  }

  /** Lines 6 to 11 of `ClassMethodsFile` have the summaries of lines 6 to 11 of `ClassMethodsInfos`. */
  ghost predicate ClassMethodsShape6(infos: seq<LineInfo>)
  {
    && |infos| == 21
    && infos[6] == LineInfo(None, None, Code(Depths(0, 0, 0)))
    && infos[7] == LineInfo(None, None, Blank)
    && infos[8] == LineInfo(None, Some(TestHeaderMatch(4, "test_unmarked_method")), Code(Depths(0, 0, 0)))
    && infos[9] == LineInfo(None, None, Code(Depths(0, 0, 0)))
    && infos[10] == LineInfo(None, None, Blank)
    && infos[11] == LineInfo(None, None, Decorator({"integration"}, Depths(0, 0, 0)))
  }

  lemma ClassMethodsShaped6(infos: seq<LineInfo>)
    requires infos == ClassMethodsInfos
    ensures ClassMethodsShape6(infos)
  {
  }

  lemma ClassMethodsLines6(lines: seq<string>, infos: seq<LineInfo>, k: nat)
    requires lines == ClassMethodsFile && ClassMethodsShape6(infos) && 6 <= k < 12
    ensures InfoOf(lines[k]) == infos[k]
  {
    if k == 6 {
      PassLineAt8(lines[k]);
    } else if k == 7 {
      EmptyLine(lines[k]);
    } else if k == 8 {
      DefTestUnmarkedMethodLine(lines[k]);
    } else if k == 9 {
      PassLineAt8(lines[k]);
    } else if k == 10 {
      EmptyLine(lines[k]);
    } else {
      MarkIntegrationLineAt4(lines[k]);
    }
  }

  /** Lines 12 to 17 of `ClassMethodsFile` have the summaries of lines 12 to 17 of `ClassMethodsInfos`. */
  ghost predicate ClassMethodsShape12(infos: seq<LineInfo>)
  {
    && |infos| == 21
    && infos[12] == LineInfo(None, Some(TestHeaderMatch(4, "test_another_marked_method")), Code(Depths(0, 0, 0)))
    && infos[13] == LineInfo(None, None, Code(Depths(0, 0, 0)))
    && infos[14] == LineInfo(None, None, Blank)
    && infos[15] == LineInfo(None, Some(TestHeaderMatch(0, "test_function_level")), Code(Depths(0, 0, 0)))
    && infos[16] == LineInfo(None, None, Code(Depths(0, 0, 0)))
    && infos[17] == LineInfo(None, None, Blank)
  }

  lemma ClassMethodsShaped12(infos: seq<LineInfo>)
    requires infos == ClassMethodsInfos
    ensures ClassMethodsShape12(infos)
  {
  }

  lemma ClassMethodsLines12(lines: seq<string>, infos: seq<LineInfo>, k: nat)
    requires lines == ClassMethodsFile && ClassMethodsShape12(infos) && 12 <= k < 18
    ensures InfoOf(lines[k]) == infos[k]
  {
    if k == 12 {
      DefTestAnotherMarkedMethodLine(lines[k]);
    } else if k == 13 {
      PassLineAt8(lines[k]);
    } else if k == 14 {
      EmptyLine(lines[k]);
    } else if k == 15 {
      DefTestFunctionLevelLine(lines[k]);
    } else if k == 16 {
      PassLineAt4(lines[k]);
    } else {
      EmptyLine(lines[k]);
    }
  }

  /** Lines 18 to 20 of `ClassMethodsFile` have the summaries of lines 18 to 20 of `ClassMethodsInfos`. */
  ghost predicate ClassMethodsShape18(infos: seq<LineInfo>)
  {
    && |infos| == 21
    && infos[18] == LineInfo(Some(0), None, Code(Depths(0, 0, 0)))
    && infos[19] == LineInfo(None, Some(TestHeaderMatch(4, "test_unmarked_in_class")), Code(Depths(0, 0, 0)))
    && infos[20] == LineInfo(None, None, Code(Depths(0, 0, 0)))
  }

  lemma ClassMethodsShaped18(infos: seq<LineInfo>)
    requires infos == ClassMethodsInfos
    ensures ClassMethodsShape18(infos)
  {
  }

  lemma ClassMethodsLines18(lines: seq<string>, infos: seq<LineInfo>, k: nat)
    requires lines == ClassMethodsFile && ClassMethodsShape18(infos) && 18 <= k < 21
    ensures InfoOf(lines[k]) == infos[k]
  {
    if k == 18 {
      ClassTestAnotherLine(lines[k]);
    } else if k == 19 {
      DefTestUnmarkedInClassLine(lines[k]);
    } else {
      PassLineAt8(lines[k]);
    }
  }

  /** Summaries equal to those of `ClassMethodsFile`, line by line. */
  ghost predicate ClassMethodsShape(infos: seq<LineInfo>)
  {
    && ClassMethodsShape0(infos)
    && ClassMethodsShape6(infos)
    && ClassMethodsShape12(infos)
    && ClassMethodsShape18(infos)
  }

  /** The lines of `ClassMethodsFile` have summaries equal to `ClassMethodsInfos`. */
  lemma ClassMethodsSummarized(lines: seq<string>) returns (infos: seq<LineInfo>)
    requires lines == ClassMethodsFile
    ensures Summarizes(lines, infos) && ClassMethodsShape(infos)
  {
    infos := ClassMethodsInfos;
    ClassMethodsShaped0(infos);
    ClassMethodsShaped6(infos);
    ClassMethodsShaped12(infos);
    ClassMethodsShaped18(infos);
    forall k | 0 <= k < |lines|
      ensures InfoOf(lines[k]) == infos[k]
    {
      if k < 6 {
        ClassMethodsLines0(lines, infos, k);
      } else if k < 12 {
        ClassMethodsLines6(lines, infos, k);
      } else if k < 18 {
        ClassMethodsLines12(lines, infos, k);
      } else {
        ClassMethodsLines18(lines, infos, k);
      }
    }
  }

  lemma {:induction false} ClassMethodsMarkers3(infos: seq<LineInfo>)
    requires ClassMethodsShape(infos)
    ensures InfoScan(infos, 3, Depths(0, 0, 0)) == {}
  {
    assert InfoScan(infos, 3, Depths(0, 0, 0)) == InfoScan(infos, 2, Depths(0, 0, 0));
    assert InfoScan(infos, 2, Depths(0, 0, 0)) == {};
  }

  lemma {:induction false} ClassMethodsMarkers5(infos: seq<LineInfo>)
    requires ClassMethodsShape(infos)
    ensures InfoScan(infos, 5, Depths(0, 0, 0)) == {"unit"}
  {
    assert InfoScan(infos, 5, Depths(0, 0, 0)) == {"unit"} + InfoScan(infos, 4, Depths(0, 0, 0));
    assert InfoScan(infos, 4, Depths(0, 0, 0)) == {};
  }

  lemma {:induction false} ClassMethodsMarkers8(infos: seq<LineInfo>)
    requires ClassMethodsShape(infos)
    ensures InfoScan(infos, 8, Depths(0, 0, 0)) == {}
  {
    assert InfoScan(infos, 8, Depths(0, 0, 0)) == InfoScan(infos, 7, Depths(0, 0, 0));
    assert InfoScan(infos, 7, Depths(0, 0, 0)) == {};
  }

  lemma {:induction false} ClassMethodsMarkers12(infos: seq<LineInfo>)
    requires ClassMethodsShape(infos)
    ensures InfoScan(infos, 12, Depths(0, 0, 0)) == {"integration"}
  {
    assert InfoScan(infos, 12, Depths(0, 0, 0)) == {"integration"} + InfoScan(infos, 11, Depths(0, 0, 0));
    assert InfoScan(infos, 11, Depths(0, 0, 0)) == InfoScan(infos, 10, Depths(0, 0, 0));
    assert InfoScan(infos, 10, Depths(0, 0, 0)) == {};
  }

  lemma {:induction false} ClassMethodsMarkers15(infos: seq<LineInfo>)
    requires ClassMethodsShape(infos)
    ensures InfoScan(infos, 15, Depths(0, 0, 0)) == {}
  {
    assert InfoScan(infos, 15, Depths(0, 0, 0)) == InfoScan(infos, 14, Depths(0, 0, 0));
    assert InfoScan(infos, 14, Depths(0, 0, 0)) == {};
  }

  lemma {:induction false} ClassMethodsMarkers18(infos: seq<LineInfo>)
    requires ClassMethodsShape(infos)
    ensures InfoScan(infos, 18, Depths(0, 0, 0)) == {}
  {
    assert InfoScan(infos, 18, Depths(0, 0, 0)) == InfoScan(infos, 17, Depths(0, 0, 0));
    assert InfoScan(infos, 17, Depths(0, 0, 0)) == {};
  }

  lemma {:induction false} ClassMethodsMarkers19(infos: seq<LineInfo>)
    requires ClassMethodsShape(infos)
    ensures InfoScan(infos, 19, Depths(0, 0, 0)) == {}
  {
    assert InfoScan(infos, 19, Depths(0, 0, 0)) == {};
  }

  lemma {:induction false} ClassMethodsUpTo4(infos: seq<LineInfo>, excluded: set<string>)
    requires ClassMethodsShape(infos) && excluded == {"integration", "unit"}
    ensures InfoStack(infos, 4) == []
    ensures InfoReported(infos, excluded, 4) == []
  {
    OtherLine(infos, excluded, 1);
    OtherLine(infos, excluded, 2);
    OtherLine(infos, excluded, 3);
    ClassMethodsMarkers3(infos);
    EnterEmpty(0, {});
    ClassLine(infos, excluded, 4, 0);
  }

  lemma {:induction false} ClassMethodsUpTo8(infos: seq<LineInfo>, excluded: set<string>)
    requires ClassMethodsShape(infos) && excluded == {"integration", "unit"}
    ensures InfoStack(infos, 8) == []
    ensures InfoReported(infos, excluded, 8) == []
  {
    ClassMethodsUpTo4(infos, excluded);
    OtherLine(infos, excluded, 5);
    ClassMethodsMarkers5(infos);
    assert "unit" in InfoScan(infos, 5, Depths(0, 0, 0)) * excluded;
    TestLine(infos, excluded, 6, 4, "test_marked_method");
    OtherLine(infos, excluded, 7);
    OtherLine(infos, excluded, 8);
  }

  lemma {:induction false} ClassMethodsUpTo12(infos: seq<LineInfo>, excluded: set<string>)
    requires ClassMethodsShape(infos) && excluded == {"integration", "unit"}
    ensures InfoStack(infos, 12) == []
    ensures InfoReported(infos, excluded, 12) == ["test_unmarked_method"]
  {
    ClassMethodsUpTo8(infos, excluded);
    ClassMethodsMarkers8(infos);
    TestLine(infos, excluded, 9, 4, "test_unmarked_method");
    OtherLine(infos, excluded, 10);
    OtherLine(infos, excluded, 11);
    OtherLine(infos, excluded, 12);
  }

  lemma {:induction false} ClassMethodsUpTo16(infos: seq<LineInfo>, excluded: set<string>)
    requires ClassMethodsShape(infos) && excluded == {"integration", "unit"}
    ensures InfoStack(infos, 16) == []
    ensures InfoReported(infos, excluded, 16) == ["test_unmarked_method", "test_function_level"]
  {
    ClassMethodsUpTo12(infos, excluded);
    ClassMethodsMarkers12(infos);
    assert "integration" in InfoScan(infos, 12, Depths(0, 0, 0)) * excluded;
    TestLine(infos, excluded, 13, 4, "test_another_marked_method");
    OtherLine(infos, excluded, 14);
    OtherLine(infos, excluded, 15);
    ClassMethodsMarkers15(infos);
    TestLine(infos, excluded, 16, 0, "test_function_level");
  }

  lemma {:induction false} ClassMethodsUpTo20(infos: seq<LineInfo>, excluded: set<string>)
    requires ClassMethodsShape(infos) && excluded == {"integration", "unit"}
    ensures InfoStack(infos, 20) == []
    ensures InfoReported(infos, excluded, 20) == ["test_unmarked_method", "test_function_level", "test_unmarked_in_class"]
  {
    ClassMethodsUpTo16(infos, excluded);
    OtherLine(infos, excluded, 17);
    OtherLine(infos, excluded, 18);
    ClassMethodsMarkers18(infos);
    EnterEmpty(0, {});
    ClassLine(infos, excluded, 19, 0);
    ClassMethodsMarkers19(infos);
    TestLine(infos, excluded, 20, 4, "test_unmarked_in_class");
  }

  lemma {:induction false} ClassMethodsUpTo21(infos: seq<LineInfo>, excluded: set<string>)
    requires ClassMethodsShape(infos) && excluded == {"integration", "unit"}
    ensures InfoStack(infos, 21) == []
    ensures InfoReported(infos, excluded, 21) == ["test_unmarked_method", "test_function_level", "test_unmarked_in_class"]
  {
    ClassMethodsUpTo20(infos, excluded);
    OtherLine(infos, excluded, 21);
  }

  /** Any summaries equal to those of `ClassMethodsFile` yield [`test_unmarked_method`, `test_function_level`, `test_unmarked_in_class`] when {`integration`, `unit`} are excluded. */
  lemma ClassMethodsResult(infos: seq<LineInfo>)
    requires ClassMethodsShape(infos)
    ensures InfoReported(infos, {"integration", "unit"}, |infos|) == ["test_unmarked_method", "test_function_level", "test_unmarked_in_class"]
  {
    ClassMethodsUpTo21(infos, {"integration", "unit"});
  }

  /** Marked methods are left out and a dedented function closes the class (src/main.rs:336-374). */
  lemma ClassMethods(lines: seq<string>)
    requires lines == ClassMethodsFile
    ensures Reported(lines, {"integration", "unit"}, |lines|) == ["test_unmarked_method", "test_function_level", "test_unmarked_in_class"]
  {
    var infos := ClassMethodsSummarized(lines);
    ReportedAgrees(lines, infos, {"integration", "unit"});
    ClassMethodsResult(infos);
  }

  lemma ClassMethodsUnbroken0(lines: seq<string>, k: nat)
    requires lines == ClassMethodsFile && 0 <= k < 6
    ensures Unbroken(lines[k])
  {
    if k == 1 {
      ImportPytestUnbroken(lines[k]);
    } else if k == 3 {
      ClassTestExampleUnbroken(lines[k]);
    } else if k == 4 {
      MarkUnitUnbrokenAt4(lines[k]);
    } else if k == 5 {
      DefTestMarkedMethodUnbroken(lines[k]);
    }
  }

  lemma ClassMethodsUnbroken6(lines: seq<string>, k: nat)
    requires lines == ClassMethodsFile && 6 <= k < 12
    ensures Unbroken(lines[k])
  {
    if k == 6 {
      PassUnbrokenAt8(lines[k]);
    } else if k == 8 {
      DefTestUnmarkedMethodUnbroken(lines[k]);
    } else if k == 9 {
      PassUnbrokenAt8(lines[k]);
    } else if k == 11 {
      MarkIntegrationUnbrokenAt4(lines[k]);
    }
  }

  lemma ClassMethodsUnbroken12(lines: seq<string>, k: nat)
    requires lines == ClassMethodsFile && 12 <= k < 18
    ensures Unbroken(lines[k])
  {
    if k == 12 {
      DefTestAnotherMarkedMethodUnbroken(lines[k]);
    } else if k == 13 {
      PassUnbrokenAt8(lines[k]);
    } else if k == 15 {
      DefTestFunctionLevelUnbroken(lines[k]);
    } else if k == 16 {
      PassUnbrokenAt4(lines[k]);
    }
  }

  lemma ClassMethodsUnbroken18(lines: seq<string>, k: nat)
    requires lines == ClassMethodsFile && 18 <= k < 21
    ensures Unbroken(lines[k])
  {
    if k == 18 {
      ClassTestAnotherUnbroken(lines[k]);
    } else if k == 19 {
      DefTestUnmarkedInClassUnbroken(lines[k]);
    } else if k == 20 {
      PassUnbrokenAt8(lines[k]);
    }
  }

  /** `find_python_test_functions` on the text of the test (src/main.rs:336-374): each line of `ClassMethodsFile` ended by a line feed. */
  lemma ClassMethodsContent()
    ensures UnmarkedTests(JoinLf(ClassMethodsFile), {"integration", "unit"}) == ["test_unmarked_method", "test_function_level", "test_unmarked_in_class"]
  {
    var lines := ClassMethodsFile;
    forall k | 0 <= k < |lines|
      ensures Unbroken(lines[k])
    {
      if k < 6 {
        ClassMethodsUnbroken0(lines, k);
      } else if k < 12 {
        ClassMethodsUnbroken6(lines, k);
      } else if k < 18 {
        ClassMethodsUnbroken12(lines, k);
      } else {
        ClassMethodsUnbroken18(lines, k);
      }
    }
    SplitsIntoLines(lines);
    ClassMethods(lines);
  }

  /** The test file of src/main.rs:377-408, one string per line. */
  const ClassLevelMarkersFile: seq<string> := [
    "",
    Spaces0 + "import pytest",
    "",
    Spaces0 + "@pytest.mark.unit",
    Spaces0 + "class TestMarkedClass:",
    Spaces4 + "def test_method_in_marked_class(self):",
    Spaces8 + "pass",
    "",
    Spaces4 + "@pytest.mark.integration",
    Spaces4 + "def test_method_with_own_marker(self):",
    Spaces8 + "pass",
    "",
    Spaces0 + "class TestUnmarkedClass:",
    Spaces4 + "def test_method_in_unmarked_class(self):",
    Spaces8 + "pass",
    "",
    Spaces0 + "def test_function_level():",
    Spaces4 + "pass"
  ]

  /** The summaries of the lines of `ClassLevelMarkersFile`. */
  const ClassLevelMarkersInfos: seq<LineInfo> := [
    LineInfo(None, None, Blank),
    LineInfo(None, None, Code(Depths(0, 0, 0))),
    LineInfo(None, None, Blank),
    LineInfo(None, None, Decorator({"unit"}, Depths(0, 0, 0))),
    LineInfo(Some(0), None, Code(Depths(0, 0, 0))),
    LineInfo(None, Some(TestHeaderMatch(4, "test_method_in_marked_class")), Code(Depths(0, 0, 0))),
    LineInfo(None, None, Code(Depths(0, 0, 0))),
    LineInfo(None, None, Blank),
    LineInfo(None, None, Decorator({"integration"}, Depths(0, 0, 0))),
    LineInfo(None, Some(TestHeaderMatch(4, "test_method_with_own_marker")), Code(Depths(0, 0, 0))),
    LineInfo(None, None, Code(Depths(0, 0, 0))),
    LineInfo(None, None, Blank),
    LineInfo(Some(0), None, Code(Depths(0, 0, 0))),
    LineInfo(None, Some(TestHeaderMatch(4, "test_method_in_unmarked_class")), Code(Depths(0, 0, 0))),
    LineInfo(None, None, Code(Depths(0, 0, 0))),
    LineInfo(None, None, Blank),
    LineInfo(None, Some(TestHeaderMatch(0, "test_function_level")), Code(Depths(0, 0, 0))),
    LineInfo(None, None, Code(Depths(0, 0, 0)))
  ]

  /** Lines 0 to 5 of `ClassLevelMarkersFile` have the summaries of lines 0 to 5 of `ClassLevelMarkersInfos`. */
  ghost predicate ClassLevelMarkersShape0(infos: seq<LineInfo>)
  {
    && |infos| == 18
    && infos[0] == LineInfo(None, None, Blank)
    && infos[1] == LineInfo(None, None, Code(Depths(0, 0, 0)))
    && infos[2] == LineInfo(None, None, Blank)
    && infos[3] == LineInfo(None, None, Decorator({"unit"}, Depths(0, 0, 0)))
    && infos[4] == LineInfo(Some(0), None, Code(Depths(0, 0, 0)))
    && infos[5] == LineInfo(None, Some(TestHeaderMatch(4, "test_method_in_marked_class")), Code(Depths(0, 0, 0)))
  }

  lemma ClassLevelMarkersShaped0(infos: seq<LineInfo>)
    requires infos == ClassLevelMarkersInfos
    ensures ClassLevelMarkersShape0(infos)
  {
  }

  lemma ClassLevelMarkersLines0(lines: seq<string>, infos: seq<LineInfo>, k: nat)
    requires lines == ClassLevelMarkersFile && ClassLevelMarkersShape0(infos) && 0 <= k < 6
    ensures InfoOf(lines[k]) == infos[k]
  {
    if k == 0 {
      EmptyLine(lines[k]);
    } else if k == 1 {
      ImportPytestLine(lines[k]);
    } else if k == 2 {
      EmptyLine(lines[k]);
    } else if k == 3 {
      MarkUnitLine(lines[k]);
    } else if k == 4 {
      ClassTestMarkedClassLine(lines[k]);
    } else {
      DefTestMethodInMarkedClassLine(lines[k]);
    }
  }

  /** Lines 6 to 11 of `ClassLevelMarkersFile` have the summaries of lines 6 to 11 of `ClassLevelMarkersInfos`. */
  ghost predicate ClassLevelMarkersShape6(infos: seq<LineInfo>)
  {
    && |infos| == 18
    && infos[6] == LineInfo(None, None, Code(Depths(0, 0, 0)))
    && infos[7] == LineInfo(None, None, Blank)
    && infos[8] == LineInfo(None, None, Decorator({"integration"}, Depths(0, 0, 0)))
    && infos[9] == LineInfo(None, Some(TestHeaderMatch(4, "test_method_with_own_marker")), Code(Depths(0, 0, 0)))
    && infos[10] == LineInfo(None, None, Code(Depths(0, 0, 0)))
    && infos[11] == LineInfo(None, None, Blank)
  }

  lemma ClassLevelMarkersShaped6(infos: seq<LineInfo>)
    requires infos == ClassLevelMarkersInfos
    ensures ClassLevelMarkersShape6(infos)
  {
  }

  lemma ClassLevelMarkersLines6(lines: seq<string>, infos: seq<LineInfo>, k: nat)
    requires lines == ClassLevelMarkersFile && ClassLevelMarkersShape6(infos) && 6 <= k < 12
    ensures InfoOf(lines[k]) == infos[k]
  {
    if k == 6 {
      PassLineAt8(lines[k]);
    } else if k == 7 {
      EmptyLine(lines[k]);
    } else if k == 8 {
      MarkIntegrationLineAt4(lines[k]);
    } else if k == 9 {
      DefTestMethodWithOwnMarkerLine(lines[k]);
    } else if k == 10 {
      PassLineAt8(lines[k]);
    } else {
      EmptyLine(lines[k]);
    }
  }

  /** Lines 12 to 17 of `ClassLevelMarkersFile` have the summaries of lines 12 to 17 of `ClassLevelMarkersInfos`. */
  ghost predicate ClassLevelMarkersShape12(infos: seq<LineInfo>)
  {
    && |infos| == 18
    && infos[12] == LineInfo(Some(0), None, Code(Depths(0, 0, 0)))
    && infos[13] == LineInfo(None, Some(TestHeaderMatch(4, "test_method_in_unmarked_class")), Code(Depths(0, 0, 0)))
    && infos[14] == LineInfo(None, None, Code(Depths(0, 0, 0)))
    && infos[15] == LineInfo(None, None, Blank)
    && infos[16] == LineInfo(None, Some(TestHeaderMatch(0, "test_function_level")), Code(Depths(0, 0, 0)))
    && infos[17] == LineInfo(None, None, Code(Depths(0, 0, 0)))
  }

  lemma ClassLevelMarkersShaped12(infos: seq<LineInfo>)
    requires infos == ClassLevelMarkersInfos
    ensures ClassLevelMarkersShape12(infos)
  {
  }

  lemma ClassLevelMarkersLines12(lines: seq<string>, infos: seq<LineInfo>, k: nat)
    requires lines == ClassLevelMarkersFile && ClassLevelMarkersShape12(infos) && 12 <= k < 18
    ensures InfoOf(lines[k]) == infos[k]
  {
    if k == 12 {
      ClassTestUnmarkedClassLine(lines[k]);
    } else if k == 13 {
      DefTestMethodInUnmarkedClassLine(lines[k]);
    } else if k == 14 {
      PassLineAt8(lines[k]);
    } else if k == 15 {
      EmptyLine(lines[k]);
    } else if k == 16 {
      DefTestFunctionLevelLine(lines[k]);
    } else {
      PassLineAt4(lines[k]);
    }
  }

  /** Summaries equal to those of `ClassLevelMarkersFile`, line by line. */
  ghost predicate ClassLevelMarkersShape(infos: seq<LineInfo>)
  {
    && ClassLevelMarkersShape0(infos)
    && ClassLevelMarkersShape6(infos)
    && ClassLevelMarkersShape12(infos)
  }

  /** The lines of `ClassLevelMarkersFile` have summaries equal to `ClassLevelMarkersInfos`. */
  lemma ClassLevelMarkersSummarized(lines: seq<string>) returns (infos: seq<LineInfo>)
    requires lines == ClassLevelMarkersFile
    ensures Summarizes(lines, infos) && ClassLevelMarkersShape(infos)
  {
    infos := ClassLevelMarkersInfos;
    ClassLevelMarkersShaped0(infos);
    ClassLevelMarkersShaped6(infos);
    ClassLevelMarkersShaped12(infos);
    forall k | 0 <= k < |lines|
      ensures InfoOf(lines[k]) == infos[k]
    {
      if k < 6 {
        ClassLevelMarkersLines0(lines, infos, k);
      } else if k < 12 {
        ClassLevelMarkersLines6(lines, infos, k);
      } else {
        ClassLevelMarkersLines12(lines, infos, k);
      }
    }
  }

  lemma {:induction false} ClassLevelMarkersMarkers4(infos: seq<LineInfo>)
    requires ClassLevelMarkersShape(infos)
    ensures InfoScan(infos, 4, Depths(0, 0, 0)) == {"unit"}
  {
    assert InfoScan(infos, 4, Depths(0, 0, 0)) == {"unit"} + InfoScan(infos, 3, Depths(0, 0, 0));
    assert InfoScan(infos, 3, Depths(0, 0, 0)) == InfoScan(infos, 2, Depths(0, 0, 0));
    assert InfoScan(infos, 2, Depths(0, 0, 0)) == {};
  }

  lemma {:induction false} ClassLevelMarkersMarkers5(infos: seq<LineInfo>)
    requires ClassLevelMarkersShape(infos)
    ensures InfoScan(infos, 5, Depths(0, 0, 0)) == {}
  {
    assert InfoScan(infos, 5, Depths(0, 0, 0)) == {};
  }

  lemma {:induction false} ClassLevelMarkersMarkers9(infos: seq<LineInfo>)
    requires ClassLevelMarkersShape(infos)
    ensures InfoScan(infos, 9, Depths(0, 0, 0)) == {"integration"}
  {
    assert InfoScan(infos, 9, Depths(0, 0, 0)) == {"integration"} + InfoScan(infos, 8, Depths(0, 0, 0));
    assert InfoScan(infos, 8, Depths(0, 0, 0)) == InfoScan(infos, 7, Depths(0, 0, 0));
    assert InfoScan(infos, 7, Depths(0, 0, 0)) == {};
  }

  lemma {:induction false} ClassLevelMarkersMarkers12(infos: seq<LineInfo>)
    requires ClassLevelMarkersShape(infos)
    ensures InfoScan(infos, 12, Depths(0, 0, 0)) == {}
  {
    assert InfoScan(infos, 12, Depths(0, 0, 0)) == InfoScan(infos, 11, Depths(0, 0, 0));
    assert InfoScan(infos, 11, Depths(0, 0, 0)) == {};
  }

  lemma {:induction false} ClassLevelMarkersMarkers13(infos: seq<LineInfo>)
    requires ClassLevelMarkersShape(infos)
    ensures InfoScan(infos, 13, Depths(0, 0, 0)) == {}
  {
    assert InfoScan(infos, 13, Depths(0, 0, 0)) == {};
  }

  lemma {:induction false} ClassLevelMarkersMarkers16(infos: seq<LineInfo>)
    requires ClassLevelMarkersShape(infos)
    ensures InfoScan(infos, 16, Depths(0, 0, 0)) == {}
  {
    assert InfoScan(infos, 16, Depths(0, 0, 0)) == InfoScan(infos, 15, Depths(0, 0, 0));
    assert InfoScan(infos, 15, Depths(0, 0, 0)) == {};
  }

  lemma {:induction false} ClassLevelMarkersUpTo4(infos: seq<LineInfo>, excluded: set<string>)
    requires ClassLevelMarkersShape(infos) && excluded == {"integration", "unit"}
    ensures InfoStack(infos, 4) == []
    ensures InfoReported(infos, excluded, 4) == []
  {
    OtherLine(infos, excluded, 1);
    OtherLine(infos, excluded, 2);
    OtherLine(infos, excluded, 3);
    OtherLine(infos, excluded, 4);
  }

  lemma {:induction false} ClassLevelMarkersUpTo8(infos: seq<LineInfo>, excluded: set<string>)
    requires ClassLevelMarkersShape(infos) && excluded == {"integration", "unit"}
    ensures InfoStack(infos, 8) == [ClassScope(0, {"unit"})]
    ensures InfoReported(infos, excluded, 8) == []
  {
    ClassLevelMarkersUpTo4(infos, excluded);
    ClassLevelMarkersMarkers4(infos);
    EnterEmpty(0, {"unit"});
    ClassLine(infos, excluded, 5, 0);
    ClassLevelMarkersMarkers5(infos);
    ExcludedBy(ClassScope(0, {"unit"}), 4, excluded, "unit");
    TestLine(infos, excluded, 6, 4, "test_method_in_marked_class");
    OtherLine(infos, excluded, 7);
    OtherLine(infos, excluded, 8);
  }

  lemma {:induction false} ClassLevelMarkersUpTo12(infos: seq<LineInfo>, excluded: set<string>)
    requires ClassLevelMarkersShape(infos) && excluded == {"integration", "unit"}
    ensures InfoStack(infos, 12) == [ClassScope(0, {"unit"})]
    ensures InfoReported(infos, excluded, 12) == []
  {
    ClassLevelMarkersUpTo8(infos, excluded);
    OtherLine(infos, excluded, 9);
    ClassLevelMarkersMarkers9(infos);
    ExcludedBy(ClassScope(0, {"unit"}), 4, excluded, "unit");
    assert "integration" in InfoScan(infos, 9, Depths(0, 0, 0)) * excluded;
    TestLine(infos, excluded, 10, 4, "test_method_with_own_marker");
    OtherLine(infos, excluded, 11);
    OtherLine(infos, excluded, 12);
  }

  lemma {:induction false} ClassLevelMarkersUpTo16(infos: seq<LineInfo>, excluded: set<string>)
    requires ClassLevelMarkersShape(infos) && excluded == {"integration", "unit"}
    ensures InfoStack(infos, 16) == []
    ensures InfoReported(infos, excluded, 16) == ["test_method_in_unmarked_class"]
  {
    ClassLevelMarkersUpTo12(infos, excluded);
    ClassLevelMarkersMarkers12(infos);
    EnterOver(ClassScope(0, {"unit"}), 0, {});
    ClassLine(infos, excluded, 13, 0);
    ClassLevelMarkersMarkers13(infos);
    TestLine(infos, excluded, 14, 4, "test_method_in_unmarked_class");
    OtherLine(infos, excluded, 15);
    OtherLine(infos, excluded, 16);
  }

  lemma {:induction false} ClassLevelMarkersUpTo18(infos: seq<LineInfo>, excluded: set<string>)
    requires ClassLevelMarkersShape(infos) && excluded == {"integration", "unit"}
    ensures InfoStack(infos, 18) == []
    ensures InfoReported(infos, excluded, 18) == ["test_method_in_unmarked_class", "test_function_level"]
  {
    ClassLevelMarkersUpTo16(infos, excluded);
    ClassLevelMarkersMarkers16(infos);
    TestLine(infos, excluded, 17, 0, "test_function_level");
    OtherLine(infos, excluded, 18);
  }

  /** Any summaries equal to those of `ClassLevelMarkersFile` yield [`test_method_in_unmarked_class`, `test_function_level`] when {`integration`, `unit`} are excluded. */
  lemma ClassLevelMarkersResult(infos: seq<LineInfo>)
    requires ClassLevelMarkersShape(infos)
    ensures InfoReported(infos, {"integration", "unit"}, |infos|) == ["test_method_in_unmarked_class", "test_function_level"]
  {
    ClassLevelMarkersUpTo18(infos, {"integration", "unit"});
  }

  /** A marked class leaves out all its methods (src/main.rs:377-408). */
  lemma ClassLevelMarkers(lines: seq<string>)
    requires lines == ClassLevelMarkersFile
    ensures Reported(lines, {"integration", "unit"}, |lines|) == ["test_method_in_unmarked_class", "test_function_level"]
  {
    var infos := ClassLevelMarkersSummarized(lines);
    ReportedAgrees(lines, infos, {"integration", "unit"});
    ClassLevelMarkersResult(infos);
  }

  lemma ClassLevelMarkersUnbroken0(lines: seq<string>, k: nat)
    requires lines == ClassLevelMarkersFile && 0 <= k < 6
    ensures Unbroken(lines[k])
  {
    if k == 1 {
      ImportPytestUnbroken(lines[k]);
    } else if k == 3 {
      MarkUnitUnbroken(lines[k]);
    } else if k == 4 {
      ClassTestMarkedClassUnbroken(lines[k]);
    } else if k == 5 {
      DefTestMethodInMarkedClassUnbroken(lines[k]);
    }
  }

  lemma ClassLevelMarkersUnbroken6(lines: seq<string>, k: nat)
    requires lines == ClassLevelMarkersFile && 6 <= k < 12
    ensures Unbroken(lines[k])
  {
    if k == 6 {
      PassUnbrokenAt8(lines[k]);
    } else if k == 8 {
      MarkIntegrationUnbrokenAt4(lines[k]);
    } else if k == 9 {
      DefTestMethodWithOwnMarkerUnbroken(lines[k]);
    } else if k == 10 {
      PassUnbrokenAt8(lines[k]);
    }
  }

  lemma ClassLevelMarkersUnbroken12(lines: seq<string>, k: nat)
    requires lines == ClassLevelMarkersFile && 12 <= k < 18
    ensures Unbroken(lines[k])
  {
    if k == 12 {
      ClassTestUnmarkedClassUnbroken(lines[k]);
    } else if k == 13 {
      DefTestMethodInUnmarkedClassUnbroken(lines[k]);
    } else if k == 14 {
      PassUnbrokenAt8(lines[k]);
    } else if k == 16 {
      DefTestFunctionLevelUnbroken(lines[k]);
    } else if k == 17 {
      PassUnbrokenAt4(lines[k]);
    }
  }

  /** `find_python_test_functions` on the text of the test (src/main.rs:377-408): each line of `ClassLevelMarkersFile` ended by a line feed. */
  lemma ClassLevelMarkersContent()
    ensures UnmarkedTests(JoinLf(ClassLevelMarkersFile), {"integration", "unit"}) == ["test_method_in_unmarked_class", "test_function_level"]
  {
    var lines := ClassLevelMarkersFile;
    forall k | 0 <= k < |lines|
      ensures Unbroken(lines[k])
    {
      if k < 6 {
        ClassLevelMarkersUnbroken0(lines, k);
      } else if k < 12 {
        ClassLevelMarkersUnbroken6(lines, k);
      } else {
        ClassLevelMarkersUnbroken12(lines, k);
      }
    }
    SplitsIntoLines(lines);
    ClassLevelMarkers(lines);
  }
}
