/**
 * The three fixed regular expressions of the scanner, written out as greedy
 * matchers over ASCII text, each with a declarative description of the
 * strings the expression accepts and a lemma that the two agree.
 *
 *   class header     ^(\s*)class\s+(\w+)
 *   test function    ^(\s*)def\s+(test_\w+)\s*\(
 *   pytest marker    @(?:pytest\.mark\.)?(\w+)      (unanchored, leftmost match)
 */
module Patterns {
  import opened Text

  /** The captures of a test-function header: the indentation and the function name. */
  datatype TestHeaderMatch = TestHeaderMatch(indent: nat, name: string)

  /** A name the test-function pattern can capture: `test_` and at least one more word character. */
  predicate IsTestName(name: string)
  {
    |name| > 5 && name[..5] == "test_" && AllWord(name)
  }

  // ---------------------------------------------------------------- class header

  /** `^(\s*)class\s+(\w+)`: the indentation (length of group 1) when the line is a class header. */
  function ClassHeader(line: string): (r: Option<nat>)
    ensures r.Some? ==> r.value == Indent(line) && HasAt(line, Indent(line), "class")
  {
    var w := Indent(line);
    if HasAt(line, w, "class") then
      var s := SpaceRun(line, w + 5);
      if s >= 1 && w + 5 + s < |line| && IsWordChar(line[w + 5 + s]) then Some(w) else None
    else None
  }

  /** `line` matches the class pattern with groups and gaps of these lengths: `w` spaces, `class`, `s` spaces, an `n`-character word. */
  ghost predicate ClassSplit(line: string, w: nat, s: nat, n: nat)
  {
    && w + 5 + s + n <= |line|
    && AllSpace(line[..w])
    && line[w..w + 5] == "class"
    && s >= 1 && AllSpace(line[w + 5..w + 5 + s])
    && n >= 1 && AllWord(line[w + 5 + s..w + 5 + s + n])
  }

  /** The class matcher accepts exactly the lines the pattern describes, and captures the leading whitespace. */
  lemma ClassHeaderIsPattern(line: string)
    ensures ClassHeader(line).Some? <==> exists w: nat, s: nat, n: nat :: ClassSplit(line, w, s, n)
    ensures forall w: nat, s: nat, n: nat :: ClassSplit(line, w, s, n) ==> ClassHeader(line) == Some(w)
  {
    forall w: nat, s: nat, n: nat | ClassSplit(line, w, s, n)
      ensures ClassHeader(line) == Some(w)
    {
      ClassSplitDetermined(line, w, s, n);
    }
    if ClassHeader(line).Some? {
      var w, s, n := ClassHeaderSplit(line);
    }
  }

  lemma ClassHeaderSplit(line: string) returns (w: nat, s: nat, n: nat)
    requires ClassHeader(line).Some?
    ensures ClassSplit(line, w, s, n)
  {
    w := Indent(line);
    s := SpaceRun(line, w + 5);
    n := 1;
    var q := w + 5 + s;
    assert AllWord(line[q..q + 1]);
  }

  lemma ClassSplitDetermined(line: string, w: nat, s: nat, n: nat)
    requires ClassSplit(line, w, s, n)
    ensures ClassHeader(line) == Some(w)
  {
    assert line[w] == line[w..w + 5][0] == 'c';
    LeadingSpaceIs(line, w);
    var q := w + 5 + s;
    assert IsWordChar(line[q]) by { assert line[q] == line[q..q + n][0]; }
    SpaceRunIs(line, w + 5, s);
    ClassHeaderIs(line, w, s);
  }

  /** `ClassHeader` read off from the indentation and the gap after `class`. */
  lemma ClassHeaderIs(line: string, w: nat, s: nat)
    requires Indent(line) == w && HasAt(line, w, "class")
    requires SpaceRun(line, w + 5) == s && s >= 1 && w + 5 + s < |line| && IsWordChar(line[w + 5 + s])
    ensures ClassHeader(line) == Some(w)
  {
  }

  // ---------------------------------------------------------------- test-function header

  /** `(test_\w+)\s*\(` at index `p`: the captured name when the rest of the test-function pattern matches there. */
  function TestNameAt(line: string, p: nat): (r: Option<string>)
    requires p <= |line|
    ensures r.Some? ==> IsTestName(r.value) && HasAt(line, p, r.value)
  {
    if HasAt(line, p, "test_") then
      var n := WordRun(line, p + 5);
      var q := p + 5 + n;
      var s2 := SpaceRun(line, q);
      if n >= 1 && q + s2 < |line| && line[q + s2] == '(' then
        var name := line[p..q];
        assert AllWord(name) by {
          forall k | 0 <= k < |name| ensures IsWordChar(name[k]) {
            if k >= 5 { assert name[k] == line[p + 5..q][k - 5]; }
            else {
              assert name[k] == line[p..p + 5][k];
              assert "test_"[k] in "test_";
            }
          }
        }
        Some(name)
      else None
    else None
  }

  /** `^(\s*)def\s+(test_\w+)\s*\(`: the indentation and the function name when the line is a test-function header. */
  function TestHeader(line: string): (r: Option<TestHeaderMatch>)
    ensures r.Some? ==> r.value.indent == Indent(line) && IsTestName(r.value.name)
    ensures r.Some? ==> HasAt(line, Indent(line), "def")
  {
    var w := Indent(line);
    if HasAt(line, w, "def") then
      var s := SpaceRun(line, w + 3);
      if s >= 1 then
        match TestNameAt(line, w + 3 + s)
        case Some(name) => Some(TestHeaderMatch(w, name))
        case None => None
      else None
    else None
  }

  /** No line is both a class header and a test-function header. */
  lemma HeadersExclusive(line: string)
    ensures ClassHeader(line).None? || TestHeader(line).None?
  {
    var w := Indent(line);
    if HasAt(line, w, "class") {
      assert line[w] == line[w..w + 5][0] == 'c';
    }
    if HasAt(line, w, "def") {
      assert line[w] == line[w..w + 3][0] == 'd';
    }
  }

  /** `line` matches `(test_\w+)\s*\(` at index `p` with an `n`-character word after `test_` and `s2` spaces before `(`. */
  ghost predicate TestNameSplit(line: string, p: nat, n: nat, s2: nat)
  {
    && p + 5 + n + s2 < |line|
    && line[p..p + 5] == "test_"
    && n >= 1 && AllWord(line[p + 5..p + 5 + n])
    && AllSpace(line[p + 5 + n..p + 5 + n + s2])
    && line[p + 5 + n + s2] == '('
  }

  /** `line` matches the test-function pattern: `w` spaces, `def`, `s` spaces, then a name split as above. */
  ghost predicate TestSplit(line: string, w: nat, s: nat, n: nat, s2: nat)
  {
    && w + 3 + s <= |line|
    && AllSpace(line[..w])
    && line[w..w + 3] == "def"
    && s >= 1 && AllSpace(line[w + 3..w + 3 + s])
    && TestNameSplit(line, w + 3 + s, n, s2)
  }

  /**
   * The test-function matcher accepts exactly the lines the pattern
   * describes, and what it captures is the leading whitespace and the whole
   * word that starts with `test_`.
   */
  lemma TestHeaderIsPattern(line: string)
    ensures TestHeader(line).Some? <==> exists w: nat, s: nat, n: nat, s2: nat :: TestSplit(line, w, s, n, s2)
    ensures forall w: nat, s: nat, n: nat, s2: nat :: TestSplit(line, w, s, n, s2) ==>
      TestHeader(line) == Some(TestHeaderMatch(w, line[w + 3 + s..w + 3 + s + 5 + n]))
  {
    forall w: nat, s: nat, n: nat, s2: nat | TestSplit(line, w, s, n, s2)
      ensures TestHeader(line) == Some(TestHeaderMatch(w, line[w + 3 + s..w + 3 + s + 5 + n]))
    {
      TestSplitDetermined(line, w, s, n, s2);
    }
    if TestHeader(line).Some? {
      var w, s, n, s2 := TestHeaderSplit(line);
    }
  }

  lemma TestHeaderSplit(line: string) returns (w: nat, s: nat, n: nat, s2: nat)
    requires TestHeader(line).Some?
    ensures TestSplit(line, w, s, n, s2)
  {
    w, s := TestHeaderParts(line);
    n, s2 := TestNameAtSplit(line, w + 3 + s);
    TestSplitOfParts(line, w, s, n, s2);
  }

  lemma TestSplitOfParts(line: string, w: nat, s: nat, n: nat, s2: nat)
    requires w <= |line| && AllSpace(line[..w]) && HasAt(line, w, "def")
    requires w + 3 + s <= |line| && s >= 1 && AllSpace(line[w + 3..w + 3 + s])
    requires TestNameSplit(line, w + 3 + s, n, s2)
    ensures TestSplit(line, w, s, n, s2)
  {
  }

  /** The pieces a successful `TestHeader` has found. */
  lemma TestHeaderParts(line: string) returns (w: nat, s: nat)
    requires TestHeader(line).Some?
    ensures w <= |line| && AllSpace(line[..w]) && HasAt(line, w, "def")
    ensures w + 3 + s <= |line| && s >= 1 && AllSpace(line[w + 3..w + 3 + s])
    ensures TestNameAt(line, w + 3 + s).Some?
  {
    w := Indent(line);
    s := SpaceRun(line, w + 3);
  }

  lemma TestNameAtSplit(line: string, p: nat) returns (n: nat, s2: nat)
    requires p <= |line| && TestNameAt(line, p).Some?
    ensures TestNameSplit(line, p, n, s2)
  {
    n := WordRun(line, p + 5);
    s2 := SpaceRun(line, p + 5 + n);
  }

  lemma TestNameSplitDetermined(line: string, p: nat, n: nat, s2: nat)
    requires TestNameSplit(line, p, n, s2)
    ensures TestNameAt(line, p) == Some(line[p..p + 5 + n])
  {
    var q := p + 5 + n;
    if s2 > 0 {
      assert line[q] == line[q..q + s2][0];
    }
    WordRunIs(line, p + 5, n);
    SpaceRunIs(line, q, s2);
    TestNameAtIs(line, p, n, s2);
  }

  /** `TestNameAt` read off from the lengths of its two runs. */
  lemma TestNameAtIs(line: string, p: nat, n: nat, s2: nat)
    requires p + 5 <= |line| && HasAt(line, p, "test_")
    requires WordRun(line, p + 5) == n && n >= 1
    requires SpaceRun(line, p + 5 + n) == s2 && p + 5 + n + s2 < |line| && line[p + 5 + n + s2] == '('
    ensures TestNameAt(line, p) == Some(line[p..p + 5 + n])
  {
  }

  lemma TestSplitDetermined(line: string, w: nat, s: nat, n: nat, s2: nat)
    requires TestSplit(line, w, s, n, s2)
    ensures TestHeader(line) == Some(TestHeaderMatch(w, line[w + 3 + s..w + 3 + s + 5 + n]))
  {
    var p := w + 3 + s;
    assert line[w] == line[w..w + 3][0];
    LeadingSpaceIs(line, w);
    assert line[p] == line[p..p + 5][0];
    SpaceRunIs(line, w + 3, s);
    TestNameSplitDetermined(line, p, n, s2);
    TestHeaderIs(line, w, s, line[w + 3 + s..w + 3 + s + 5 + n]);
  }

  /** `TestHeader` read off from the indentation, the gap after `def` and the name found after it. */
  lemma TestHeaderIs(line: string, w: nat, s: nat, name: string)
    requires Indent(line) == w && HasAt(line, w, "def")
    requires SpaceRun(line, w + 3) == s && s >= 1 && w + 3 + s <= |line|
    requires TestNameAt(line, w + 3 + s) == Some(name)
    ensures TestHeader(line) == Some(TestHeaderMatch(w, name))
  {
  }

  // ---------------------------------------------------------------- lines by shape

  /** A line made of whitespace, `class `, a word and anything after it is a class header at the width of that whitespace. */
  lemma ClassLineIsHeader(line: string, ind: string, body: string, name: string, rest: string)
    requires line == ind + body && body == "class " + name + rest
    requires AllSpace(ind) && name != [] && AllWord(name)
    ensures ClassHeader(line) == Some(|ind|)
    ensures TestHeader(line).None?
  {
    ClassLineSplit(line, ind, body, name, rest);
    ClassSplitDetermined(line, |ind|, 1, |name|);
    HeadersExclusive(line);
  }

  lemma ClassLineSplit(line: string, ind: string, body: string, name: string, rest: string)
    requires line == ind + body && body == "class " + name + rest
    requires AllSpace(ind) && name != [] && AllWord(name)
    ensures ClassSplit(line, |ind|, 1, |name|)
  {
    var w := |ind|;
    assert line[w..] == body;
    assert line[..w] == ind;
    assert line[w..w + 5] == "class";
    assert line[w + 5..w + 6] == " ";
    assert line[w + 6..w + 6 + |name|] == name;
  }

  /** A line made of whitespace, `def `, a test name and `(` onwards is a test-function header with that indentation and name. */
  lemma DefLineIsHeader(line: string, ind: string, body: string, name: string, rest: string)
    requires line == ind + body && body == "def " + name + rest
    requires AllSpace(ind) && IsTestName(name) && rest != [] && rest[0] == '('
    ensures TestHeader(line) == Some(TestHeaderMatch(|ind|, name))
  {
    DefLineSplit(line, ind, body, name, rest);
    TestHeaderOfSplit(line, |ind|, name);
  }

  lemma TestHeaderOfSplit(line: string, w: nat, name: string)
    requires |name| > 5 && TestSplit(line, w, 1, |name| - 5, 0)
    requires line[w + 4..w + 4 + |name|] == name
    ensures TestHeader(line) == Some(TestHeaderMatch(w, name))
  {
    TestSplitDetermined(line, w, 1, |name| - 5, 0);
  }

  lemma DefLineSplit(line: string, ind: string, body: string, name: string, rest: string)
    requires line == ind + body && body == "def " + name + rest
    requires AllSpace(ind) && IsTestName(name) && rest != [] && rest[0] == '('
    ensures TestSplit(line, |ind|, 1, |name| - 5, 0)
    ensures line[|ind| + 4..|ind| + 4 + |name|] == name
  {
    var w := |ind|;
    assert line[w..] == body;
    var p := w + 4;
    assert line[..w] == ind;
    assert line[w..w + 3] == "def";
    assert line[w + 3..w + 4] == " ";
    assert line[p..p + |name|] == name;
    assert line[p..p + 5] == name[..5];
    assert line[p + 5..p + |name|] == name[5..];
    assert line[p + |name|] == '(';
  }

  /** A line whose first character after its indentation is neither `c` nor `d` (or that has none) is no header of either kind. */
  lemma OtherLineIsNoHeader(line: string, ind: string, body: string)
    requires line == ind + body && AllSpace(ind)
    requires body == [] || (!IsSpace(body[0]) && body[0] != 'c' && body[0] != 'd')
    ensures ClassHeader(line).None? && TestHeader(line).None?
  {
    var w := |ind|;
    assert line[..w] == ind;
    if body != [] {
      assert line[w] == body[0];
    }
    LeadingSpaceIs(line, w);
    if w + 5 <= |line| {
      assert line[w..w + 5][0] == line[w];
    }
    if w + 3 <= |line| {
      assert line[w..w + 3][0] == line[w];
    }
  }

  // ---------------------------------------------------------------- marker

  const MarkPrefix: string := "pytest.mark."

  /**
   * The capture of a match of `@(?:pytest\.mark\.)?(\w+)` whose `@` is
   * followed by `u`, if a match starts there. The optional group is greedy,
   * so the namespaced reading is tried first; when no word character follows
   * the prefix the matcher backtracks to the bare reading.
   */
  function MarkerAfter(u: string): (r: Option<string>)
    ensures r.Some? <==> u != [] && IsWordChar(u[0])
    ensures r.Some? ==> r.value != [] && AllWord(r.value)
  {
    if HasAt(u, 0, MarkPrefix) && LeadingWord(u[12..]) >= 1 then
      assert u[0] == MarkPrefix[0];
      Some(u[12..][..LeadingWord(u[12..])])
    else if LeadingWord(u) >= 1 then
      Some(u[..LeadingWord(u)])
    else None
  }

  /**
   * Leftmost match of the marker pattern in `t`. There is one exactly when
   * some `@` in `t` is followed by a word character, and what it captures is
   * a non-empty word.
   */
  function FirstMarker(t: string): (r: Option<string>)
    ensures r.None? <==> forall k :: 0 < k < |t| && t[k - 1] == '@' ==> !IsWordChar(t[k])
    ensures r.Some? ==> r.value != [] && AllWord(r.value)
    decreases |t|
  {
    if t == [] then None
    else if t[0] == '@' && MarkerAfter(t[1..]).Some? then
      MarkerAfter(t[1..])
    else
      var r := FirstMarker(t[1..]);
      assert forall j :: 0 <= j < |t| - 1 ==> t[1..][j] == t[j + 1];
      r
  }

  /** `extract_pytest_marker`: the marker a decorator line names, if any. */
  function ExtractMarker(line: string): (r: Option<string>)
    ensures r.None? <==> forall k :: 0 < k < |line| && line[k - 1] == '@' ==> !IsWordChar(line[k])
    ensures r.Some? ==> r.value != [] && AllWord(r.value)
  {
    FirstMarker(line)
  }

  /**
   * The namespaced and the bare spellings name the same marker, and call
   * arguments after it are ignored: `@pytest.mark.unit(...)` and
   * `@unit(...)` both give `unit`.
   */
  lemma MarkerSpellingsAgree(w: string, args: string)
    requires w != [] && AllWord(w)
    requires args == [] || (!IsWordChar(args[0]) && args[0] != '.')
    ensures ExtractMarker("@" + MarkPrefix + w + args) == Some(w)
    ensures ExtractMarker("@" + w + args) == Some(w)
  {
    NamespacedMarker(w, args);
    BareMarker(w, args);
  }

  lemma NamespacedMarker(w: string, args: string)
    requires w != [] && AllWord(w)
    requires args == [] || !IsWordChar(args[0])
    ensures ExtractMarker("@" + MarkPrefix + w + args) == Some(w)
  {
    var line := "@" + MarkPrefix + w + args;
    var u := line[1..];
    assert u == MarkPrefix + w + args;
    assert u[..12] == MarkPrefix;
    var v := u[12..];
    assert v == w + args;
    assert v[..|w|] == w;
    if args != [] {
      assert v[|w|] == args[0];
    }
    LeadingWordIs(v, |w|);
    assert MarkerAfter(u) == Some(w);
  }

  lemma BareMarker(w: string, args: string)
    requires w != [] && AllWord(w)
    requires args == [] || (!IsWordChar(args[0]) && args[0] != '.')
    ensures ExtractMarker("@" + w + args) == Some(w)
  {
    var line := "@" + w + args;
    var u := line[1..];
    assert u == w + args;
    assert u[..|w|] == w;
    if args != [] {
      assert u[|w|] == args[0];
    }
    LeadingWordIs(u, |w|);
    // The prefix has a '.' at index 6, where the word or the arguments have none.
    assert !HasAt(u, 0, MarkPrefix) by {
      if |u| >= 12 {
        if |w| >= 7 {
          assert u[..12][6] == w[6];
        } else {
          assert u[..12][|w|] == args[0];
          assert MarkPrefix[|w|] in "pytest.";
        }
      }
    }
    assert MarkerAfter(u) == Some(w);
  }

  /**
   * With no word character after the prefix, the optional group gives way
   * and the capture is the `pytest` of the prefix itself.
   */
  lemma DanglingPrefixMarker(rest: string)
    requires rest == [] || !IsWordChar(rest[0])
    ensures ExtractMarker("@" + MarkPrefix + rest) == Some("pytest")
  {
    var line := "@" + MarkPrefix + rest;
    var u := line[1..];
    assert u == MarkPrefix + rest;
    assert u[12..] == rest;
    LeadingWordIs(rest, 0);
    assert u[..6] == "pytest" && u[6] == '.';
    LeadingWordIs(u, 6);
    assert MarkerAfter(u) == Some("pytest");
  }

  /**
   * The leftmost match wins: when the `@` at index `k` is the first `@` in
   * `t` that a word character follows, the marker is what the pattern
   * captures after that `@`.
   */
  lemma ExtractMarkerIsLeftmost(t: string, k: nat)
    requires k + 1 < |t| && t[k] == '@' && IsWordChar(t[k + 1])
    requires forall j :: 0 < j <= k && t[j - 1] == '@' ==> !IsWordChar(t[j])
    ensures ExtractMarker(t) == MarkerAfter(t[k + 1..])
  {
    FirstMarkerAt(t, k);
  }

  lemma {:induction false} FirstMarkerAt(t: string, k: nat)
    requires k + 1 < |t| && t[k] == '@' && IsWordChar(t[k + 1])
    requires forall j :: 0 < j <= k && t[j - 1] == '@' ==> !IsWordChar(t[j])
    ensures FirstMarker(t) == MarkerAfter(t[k + 1..])
    decreases k
  {
    if k > 0 {
      var t' := t[1..];
      assert t[0] == '@' ==> !IsWordChar(t[1]);
      forall j | 0 < j <= k - 1 && t'[j - 1] == '@'
        ensures !IsWordChar(t'[j])
      {
        assert t[j] == '@' && t'[j] == t[j + 1];
      }
      FirstMarkerAt(t', k - 1);
      assert t'[k..] == t[k + 1..];
    }
  }

  /**
   * A bare word after `@` is the marker, whatever follows it, unless the
   * namespaced reading applies: the word is `pytest` followed by `.mark.`
   * and a word character. So `@pytest.fixture`, `@pytest.mark` and
   * `@mock.patch("x")` give `pytest`, `pytest` and `mock`.
   */
  lemma BareWordMarker(w: string, rest: string)
    requires w != [] && AllWord(w)
    requires rest == [] || !IsWordChar(rest[0])
    requires !(w == "pytest" && |rest| > 6 && rest[..6] == ".mark." && IsWordChar(rest[6]))
    ensures ExtractMarker("@" + w + rest) == Some(w)
  {
    var line := "@" + w + rest;
    var u := line[1..];
    assert u == w + rest;
    assert u[..|w|] == w;
    if rest != [] {
      assert u[|w|] == rest[0];
    }
    LeadingWordIs(u, |w|);
    if HasAt(u, 0, MarkPrefix) {
      PrefixReading(u, w, rest);
    }
    assert MarkerAfter(u) == Some(w);
  }

  /** When `u` starts with the prefix, its leading word is `pytest` and `.mark.` follows. */
  lemma PrefixReading(u: string, w: string, rest: string)
    requires u == w + rest && LeadingWord(u) == |w| && HasAt(u, 0, MarkPrefix)
    ensures w == "pytest" && |rest| >= 6 && rest[..6] == ".mark." && u[12..] == rest[6..]
  {
    assert u[..12] == MarkPrefix;
    assert u[..6] == "pytest" && u[6] == '.';
    LeadingWordIs(u, 6);
    assert w == u[..6];
    assert rest == u[6..];
    assert rest[..6] == u[6..12];
  }

  /** `def test_` with no word character after it is no test-function header: the name needs a character after `test_`. */
  lemma DefTestUnderscoreIsNoHeader(ind: string, rest: string)
    requires AllSpace(ind) && (rest == [] || !IsWordChar(rest[0]))
    ensures TestHeader(ind + "def test_" + rest).None?
  {
    var line := ind + "def test_" + rest;
    var i := |ind|;
    assert line[..i] == ind && line[i..i + 9] == "def test_";
    assert line[i] == 'd' && line[i + 3] == ' ' && line[i + 4] == 't';
    assert line[i + 3..i + 4] == " ";
    LeadingSpaceIs(line, i);
    SpaceRunIs(line, i + 3, 1);
    if rest != [] {
      assert line[i + 9] == rest[0];
    }
    WordRunIs(line, i + 9, 0);
  }
}
