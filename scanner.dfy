/**
 * `find_python_test_functions`: the forward scan over the lines of a file.
 *
 * A class header runs the class-level decorator scan and updates the
 * class-marker stack; a test-function header is reported unless an
 * enclosing stacked class or its own decorator block carries an excluded
 * marker. `Reported` states the result line by line; the method is proved
 * against it, and the lemmas below say what it means without the stack.
 */
module Scanner {
  import opened Text
  import opened Patterns
  import opened Decorators
  import opened Scopes

  /** The class-marker stack once the scan has passed lines 0 to n-1. */
  function StackAfter(lines: seq<string>, n: nat): seq<ClassScope>
    requires n <= |lines|
    decreases n
  {
    if n == 0 then []
    else
      var stack := StackAfter(lines, n - 1);
      match ClassHeader(lines[n - 1])
      case Some(indent) => EnterClass(stack, indent, DecoratorMarkers(lines, n - 1))
      case None => stack
  }

  /** A test function at line `i` with indentation `indent` is left out: a stacked class or its own decorators carry an excluded marker. */
  predicate IsExcluded(lines: seq<string>, i: nat, indent: nat, excluded: set<string>)
    requires i < |lines|
  {
    ClassExcludes(StackAfter(lines, i), indent, excluded) || DecoratorMarkers(lines, i) * excluded != {}
  }

  /** What line `i` adds to the result: the test name of a header that is not left out, or nothing. */
  function ReportedAt(lines: seq<string>, excluded: set<string>, i: nat): seq<string>
    requires i < |lines|
  {
    if ClassHeader(lines[i]).Some? then []
    else
      match TestHeader(lines[i])
      case Some(h) => if IsExcluded(lines, i, h.indent, excluded) then [] else [h.name]
      case None => []
  }

  /** What each of the lines 0 to n-1 adds to the result. */
  function PerLine(lines: seq<string>, excluded: set<string>, n: nat): (r: seq<seq<string>>)
    requires n <= |lines|
    ensures |r| == n
  {
    seq(n, i requires 0 <= i < n => ReportedAt(lines, excluded, i))
  }

  /** The parts one after the other. */
  function Flatten(parts: seq<seq<string>>): seq<string>
  {
    if parts == [] then [] else Flatten(parts[..|parts| - 1]) + parts[|parts| - 1]
  }

  /** The names reported from lines 0 to n-1, in the order of the lines. */
  function Reported(lines: seq<string>, excluded: set<string>, n: nat): seq<string>
    requires n <= |lines|
  {
    Flatten(PerLine(lines, excluded, n))
  }

  /** Passing one more line appends what that line adds. */
  lemma ReportedStep(lines: seq<string>, excluded: set<string>, n: nat)
    requires n < |lines|
    ensures Reported(lines, excluded, n + 1) == Reported(lines, excluded, n) + ReportedAt(lines, excluded, n)
  {
    var p := PerLine(lines, excluded, n + 1);
    assert p[..n] == PerLine(lines, excluded, n);
  }

  /** The names of the unmarked test functions of a file. */
  function UnmarkedTests(content: string, excluded: set<string>): seq<string>
  {
    var lines := Lines(content);
    Reported(lines, excluded, |lines|)
  }

  /** `find_python_test_functions`: the unmarked test functions of a file, in order. */
  method FindPythonTestFunctions(content: string, excluded: set<string>) returns (tests: seq<string>)
    ensures tests == UnmarkedTests(content, excluded)
  {
    var lines := Lines(content);
    tests := [];
    var classMarkers: seq<ClassScope> := [];
    for i := 0 to |lines|
      invariant tests == Reported(lines, excluded, i)
      invariant classMarkers == StackAfter(lines, i)
    {
      var line := lines[i];
      ReportedStep(lines, excluded, i);
      match ClassHeader(line) {
        case Some(classIndent) =>
          var classLevelMarkers := ScanClassDecorators(lines, i);
          classMarkers := Retain(classMarkers, classIndent);
          if classLevelMarkers != {} {
            classMarkers := classMarkers + [ClassScope(classIndent, classLevelMarkers)];
          }
          continue;
        case None =>
      }
      match TestHeader(line) {
        case Some(header) =>
          var hasExcludedMarker := ExcludedByClass(classMarkers, header.indent, excluded);
          if !hasExcludedMarker {
            hasExcludedMarker := HasExcludedDecorator(lines, i, excluded);
          }
          if !hasExcludedMarker {
            tests := tests + [header.name];
          }
        case None =>
      }
    }
  }

  // ---------------------------------------------------------------- the stack

  /** After every line, and so after every class header, the stack's indentations strictly increase and its marker sets are non-empty. */
  lemma {:induction false} StackWellFormed(lines: seq<string>, n: nat)
    requires n <= |lines|
    ensures WellFormed(StackAfter(lines, n))
  {
    if n > 0 {
      StackWellFormed(lines, n - 1);
      var stack := StackAfter(lines, n - 1);
      match ClassHeader(lines[n - 1])
      case Some(indent) =>
        var r := EnterClass(stack, indent, DecoratorMarkers(lines, n - 1));
        assert StackAfter(lines, n) == r;
      case None =>
    }
  }

  /**
   * The class at line `c` is still open at line `n`: it is a class header
   * with markers and no class header between it and `n` has the same or a
   * smaller indentation.
   */
  ghost predicate OpenClass(lines: seq<string>, c: nat, n: nat)
    requires n <= |lines|
  {
    && c < n
    && ClassHeader(lines[c]).Some?
    && DecoratorMarkers(lines, c) != {}
    && forall c' :: c < c' < n && ClassHeader(lines[c']).Some? ==> ClassHeader(lines[c']).value > ClassHeader(lines[c]).value
  }

  /** The stack entry of the class at line `c`. */
  function ScopeOf(lines: seq<string>, c: nat): ClassScope
    requires c < |lines| && ClassHeader(lines[c]).Some?
  {
    ClassScope(ClassHeader(lines[c]).value, DecoratorMarkers(lines, c))
  }

  /** A line that is no class header closes no class and opens none. */
  lemma OpenClassAfterOther(lines: seq<string>, c: nat, n: nat)
    requires 0 < n <= |lines| && ClassHeader(lines[n - 1]).None?
    ensures OpenClass(lines, c, n) <==> OpenClass(lines, c, n - 1)
  {
  }

  /** A class header closes the open classes at its own or a deeper indentation and opens itself when it has markers. */
  lemma OpenClassAfterClass(lines: seq<string>, c: nat, n: nat)
    requires 0 < n <= |lines| && ClassHeader(lines[n - 1]).Some?
    ensures OpenClass(lines, c, n) <==>
      (c == n - 1 && DecoratorMarkers(lines, c) != {}) ||
      (OpenClass(lines, c, n - 1) && ClassHeader(lines[c]).value < ClassHeader(lines[n - 1]).value)
  {
  }

  /** The entries of `stack` are those of the classes open at line `n`. */
  ghost predicate HoldsOpenClasses(lines: seq<string>, stack: seq<ClassScope>, n: nat)
    requires n <= |lines|
  {
    forall e :: e in stack <==> exists c :: OpenClass(lines, c, n) && e == ScopeOf(lines, c)
  }

  /** The stack at line `n` holds exactly the entries of the classes that are open there. */
  lemma {:induction false} StackIsOpenClasses(lines: seq<string>, n: nat)
    requires n <= |lines|
    ensures forall e :: e in StackAfter(lines, n) <==> exists c :: OpenClass(lines, c, n) && e == ScopeOf(lines, c)
  {
    if n > 0 {
      StackIsOpenClasses(lines, n - 1);
      var stack := StackAfter(lines, n - 1);
      match ClassHeader(lines[n - 1])
      case None =>
        OtherKeepsOpenClasses(lines, stack, n);
      case Some(indent) =>
        ClassUpdatesOpenClasses(lines, stack, n);
    }
  }

  lemma OtherKeepsOpenClasses(lines: seq<string>, stack: seq<ClassScope>, n: nat)
    requires 0 < n <= |lines| && ClassHeader(lines[n - 1]).None?
    requires HoldsOpenClasses(lines, stack, n - 1)
    ensures HoldsOpenClasses(lines, stack, n)
  {
    forall c: nat
      ensures OpenClass(lines, c, n) <==> OpenClass(lines, c, n - 1)
    {
      OpenClassAfterOther(lines, c, n);
    }
  }

  lemma ClassUpdatesOpenClasses(lines: seq<string>, stack: seq<ClassScope>, n: nat)
    requires 0 < n <= |lines| && ClassHeader(lines[n - 1]).Some?
    requires HoldsOpenClasses(lines, stack, n - 1)
    ensures HoldsOpenClasses(lines, EnterClass(stack, ClassHeader(lines[n - 1]).value, DecoratorMarkers(lines, n - 1)), n)
  {
    var r := EnterClass(stack, ClassHeader(lines[n - 1]).value, DecoratorMarkers(lines, n - 1));
    forall e | e in r
      ensures exists c :: OpenClass(lines, c, n) && e == ScopeOf(lines, c)
    {
      EntryIsOpenClass(lines, stack, n, e);
    }
    forall e, c: nat | OpenClass(lines, c, n) && e == ScopeOf(lines, c)
      ensures e in r
    {
      OpenClassIsEntry(lines, stack, n, c);
    }
  }

  lemma EntryIsOpenClass(lines: seq<string>, stack: seq<ClassScope>, n: nat, e: ClassScope)
    requires 0 < n <= |lines| && ClassHeader(lines[n - 1]).Some?
    requires HoldsOpenClasses(lines, stack, n - 1)
    requires e in EnterClass(stack, ClassHeader(lines[n - 1]).value, DecoratorMarkers(lines, n - 1))
    ensures exists c :: OpenClass(lines, c, n) && e == ScopeOf(lines, c)
  {
    var indent := ClassHeader(lines[n - 1]).value;
    var markers := DecoratorMarkers(lines, n - 1);
    if e in stack && e.indent < indent {
      var c :| OpenClass(lines, c, n - 1) && e == ScopeOf(lines, c);
      OpenClassAfterClass(lines, c, n);
      assert OpenClass(lines, c, n);
    } else {
      assert markers != {} && e == ClassScope(indent, markers);
      OpenClassAfterClass(lines, n - 1, n);
      assert OpenClass(lines, n - 1, n) && e == ScopeOf(lines, n - 1);
    }
  }

  lemma OpenClassIsEntry(lines: seq<string>, stack: seq<ClassScope>, n: nat, c: nat)
    requires 0 < n <= |lines| && ClassHeader(lines[n - 1]).Some?
    requires HoldsOpenClasses(lines, stack, n - 1)
    requires OpenClass(lines, c, n)
    ensures ScopeOf(lines, c) in EnterClass(stack, ClassHeader(lines[n - 1]).value, DecoratorMarkers(lines, n - 1))
  {
    OpenClassAfterClass(lines, c, n);
    if c < n - 1 {
      assert OpenClass(lines, c, n - 1);
    }
  }

  /** A class at line `c` passes an excluded marker to the function at line `f` with indentation `indent`. */
  ghost predicate InheritsExcluded(lines: seq<string>, c: nat, f: nat, indent: nat, excluded: set<string>)
    requires f <= |lines|
  {
    OpenClass(lines, c, f) && ClassHeader(lines[c]).value < indent && DecoratorMarkers(lines, c) * excluded != {}
  }

  /** The stack check finds an excluded marker exactly when an open, less indented class carries one. */
  lemma ClassExcludesIsInherited(lines: seq<string>, f: nat, indent: nat, excluded: set<string>)
    requires f < |lines|
    ensures ClassExcludes(StackAfter(lines, f), indent, excluded) <==>
      exists c :: InheritsExcluded(lines, c, f, indent, excluded)
  {
    var stack := StackAfter(lines, f);
    StackIsOpenClasses(lines, f);
    if ClassExcludes(stack, indent, excluded) {
      var k :| 0 <= k < |stack| && stack[k].indent < indent && stack[k].markers * excluded != {};
      assert stack[k] in stack;
      var c :| OpenClass(lines, c, f) && stack[k] == ScopeOf(lines, c);
      assert InheritsExcluded(lines, c, f, indent, excluded);
    }
    if exists c :: InheritsExcluded(lines, c, f, indent, excluded) {
      var c :| InheritsExcluded(lines, c, f, indent, excluded);
      var e := ScopeOf(lines, c);
      assert e in stack;
      var k :| 0 <= k < |stack| && stack[k] == e;
    }
  }

  // ---------------------------------------------------------------- what is reported

  /**
   * The class at line `c` passes an excluded marker to the function at line
   * `f` with indentation `indent`, stated with the class's decorator block
   * instead of the scan: no class header between them has the same or a
   * smaller indentation, the class is less indented than the function, and
   * a decorator line of its block names an excluded marker.
   */
  ghost predicate EnclosedByExcluding(lines: seq<string>, c: nat, f: nat, indent: nat, excluded: set<string>)
    requires f <= |lines|
  {
    && c < f
    && ClassHeader(lines[c]).Some?
    && (forall c' :: c < c' < f && ClassHeader(lines[c']).Some? ==> ClassHeader(lines[c']).value > ClassHeader(lines[c]).value)
    && ClassHeader(lines[c]).value < indent
    && BlockMarkers(lines, BlockTop(lines, c), c) * excluded != {}
  }

  /** The two statements of a class passing on an excluded marker agree. */
  lemma InheritsExcludedIsBlock(lines: seq<string>, c: nat, f: nat, indent: nat, excluded: set<string>)
    requires f <= |lines|
    ensures InheritsExcluded(lines, c, f, indent, excluded) <==> EnclosedByExcluding(lines, c, f, indent, excluded)
  {
    if c < f {
      DecoratorMarkersAreBlock(lines, BlockTop(lines, c), c);
    }
  }

  /**
   * Whether the header at line `f` is reported, stated without the stack
   * and without the step-by-step scan: it is a test-function header, no
   * open class with a smaller indentation has a decorator block naming an
   * excluded marker, and no decorator line of its own block names one.
   */
  lemma ReportedAtIsDeclarative(lines: seq<string>, excluded: set<string>, f: nat, b: nat)
    requires f < |lines| && IsBlock(lines, b, f)
    ensures ReportedAt(lines, excluded, f) ==
      match TestHeader(lines[f])
      case None => []
      case Some(h) =>
        if (exists c :: EnclosedByExcluding(lines, c, f, h.indent, excluded)) || BlockMarkers(lines, b, f) * excluded != {}
        then [] else [h.name]
  {
    DecoratorMarkersAreBlock(lines, b, f);
    match TestHeader(lines[f])
    case None =>
    case Some(h) =>
      HeadersExclusive(lines[f]);
      ClassExcludesIsInherited(lines, f, h.indent, excluded);
      forall c
        ensures InheritsExcluded(lines, c, f, h.indent, excluded) <==> EnclosedByExcluding(lines, c, f, h.indent, excluded)
      {
        InheritsExcludedIsBlock(lines, c, f, h.indent, excluded);
      }
  }

  /**
   * A test function inside a class whose decorators carry an excluded
   * marker is left out, whatever its own decorators say.
   */
  lemma ClassMarkerExcludesMethod(lines: seq<string>, excluded: set<string>, c: nat, f: nat)
    requires f < |lines| && TestHeader(lines[f]).Some?
    requires EnclosedByExcluding(lines, c, f, TestHeader(lines[f]).value.indent, excluded)
    ensures ReportedAt(lines, excluded, f) == []
  {
    HeadersExclusive(lines[f]);
    InheritsExcludedIsBlock(lines, c, f, TestHeader(lines[f]).value.indent, excluded);
    ClassExcludesIsInherited(lines, f, TestHeader(lines[f]).value.indent, excluded);
  }

  /** The name a test-function header declares, or nothing for any other line. */
  function HeaderName(line: string): (r: seq<string>)
    ensures |r| <= 1
    ensures r != [] <==> TestHeader(line).Some?
  {
    match TestHeader(line)
    case Some(h) => [h.name]
    case None => []
  }

  /** The names of all test-function headers among lines 0 to n-1, in order. */
  function TestNames(lines: seq<string>, n: nat): seq<string>
    requires n <= |lines|
  {
    Flatten(seq(n, i requires 0 <= i < n => HeaderName(lines[i])))
  }

  /** `xs` can be obtained from `ys` by leaving elements out. */
  predicate IsSubsequence(xs: seq<string>, ys: seq<string>)
    decreases |ys|
  {
    if xs == [] then true
    else if ys == [] then false
    else
      (xs[|xs| - 1] == ys[|ys| - 1] && IsSubsequence(xs[..|xs| - 1], ys[..|ys| - 1]))
      || IsSubsequence(xs, ys[..|ys| - 1])
  }

  lemma {:induction false} SubsequenceElements(xs: seq<string>, ys: seq<string>)
    requires IsSubsequence(xs, ys)
    ensures |xs| <= |ys|
    ensures forall x :: x in xs ==> x in ys
    decreases |ys|
  {
    if xs != [] {
      var xs', ys' := xs[..|xs| - 1], ys[..|ys| - 1];
      if xs[|xs| - 1] == ys[|ys| - 1] && IsSubsequence(xs', ys') {
        SubsequenceElements(xs', ys');
        assert xs == xs' + [ys[|ys| - 1]];
        assert ys == ys' + [ys[|ys| - 1]];
      } else {
        SubsequenceElements(xs, ys');
        assert ys == ys' + [ys[|ys| - 1]];
      }
    }
  }

  /** Appending the same element to both sides, or a new element to the longer side only, keeps a subsequence. */
  lemma SubsequenceStep(xs: seq<string>, ys: seq<string>, a: seq<string>, b: seq<string>)
    requires IsSubsequence(xs, ys)
    requires |b| <= 1 && (a == [] || a == b)
    ensures IsSubsequence(xs + a, ys + b)
  {
    if b == [] {
      assert xs + a == xs && ys + b == ys;
    } else {
      var ys' := ys + b;
      assert ys'[..|ys'| - 1] == ys;
      if a == [] {
        assert xs + a == xs;
      } else {
        var xs' := xs + a;
        assert xs'[..|xs'| - 1] == xs;
      }
    }
  }

  /** Keeping, part by part, either nothing or the whole of a part of at most one element gives a subsequence. */
  lemma {:induction false} FlattenSubsequence(p: seq<seq<string>>, q: seq<seq<string>>)
    requires |p| == |q|
    requires forall i :: 0 <= i < |p| ==> |q[i]| <= 1 && (p[i] == [] || p[i] == q[i])
    ensures IsSubsequence(Flatten(p), Flatten(q))
  {
    if p != [] {
      var k := |p| - 1;
      FlattenSubsequence(p[..k], q[..k]);
      SubsequenceStep(Flatten(p[..k]), Flatten(q[..k]), p[k], q[k]);
    }
  }

  /** Every element of the flattened parts comes from one of the parts. */
  lemma {:induction false} FlattenMembers(p: seq<seq<string>>)
    ensures forall x :: x in Flatten(p) ==> exists i :: 0 <= i < |p| && x in p[i]
  {
    if p != [] {
      var k := |p| - 1;
      FlattenMembers(p[..k]);
      forall x | x in Flatten(p)
        ensures exists i :: 0 <= i < |p| && x in p[i]
      {
        assert Flatten(p) == Flatten(p[..k]) + p[k];
        if x !in p[k] {
          assert x in Flatten(p[..k]);
          var i :| 0 <= i < |p[..k]| && x in p[..k][i];
          assert x in p[i];
        }
      }
    }
  }

  /** What line `i` adds to the result is nothing or the name of its header. */
  lemma ReportedAtIsNameOrNothing(lines: seq<string>, excluded: set<string>, i: nat)
    requires i < |lines|
    ensures ReportedAt(lines, excluded, i) == [] || ReportedAt(lines, excluded, i) == HeaderName(lines[i])
  {
  }

  /** The result is the test names of the file in order, some left out: nothing is invented, reordered or repeated. */
  lemma ReportedIsSubsequence(lines: seq<string>, excluded: set<string>, n: nat)
    requires n <= |lines|
    ensures IsSubsequence(Reported(lines, excluded, n), TestNames(lines, n))
  {
    var p := PerLine(lines, excluded, n);
    var q := seq(n, i requires 0 <= i < n => HeaderName(lines[i]));
    forall i | 0 <= i < n
      ensures |q[i]| <= 1 && (p[i] == [] || p[i] == q[i])
    {
      ReportedAtIsNameOrNothing(lines, excluded, i);
    }
    FlattenSubsequence(p, q);
  }

  /** Every reported name is the name of some test-function header of the file, and there are no more reported names than headers. */
  lemma ReportedNamesAppear(lines: seq<string>, excluded: set<string>, n: nat)
    requires n <= |lines|
    ensures |Reported(lines, excluded, n)| <= |TestNames(lines, n)|
    ensures forall x :: x in Reported(lines, excluded, n) ==> x in TestNames(lines, n)
  {
    ReportedIsSubsequence(lines, excluded, n);
    SubsequenceElements(Reported(lines, excluded, n), TestNames(lines, n));
  }

  /** Every reported name is `test_` followed by at least one word character. */
  lemma ReportedNamesAreTestNames(lines: seq<string>, excluded: set<string>, n: nat)
    requires n <= |lines|
    ensures forall x :: x in Reported(lines, excluded, n) ==> IsTestName(x)
  {
    var p := PerLine(lines, excluded, n);
    FlattenMembers(p);
    forall x | x in Reported(lines, excluded, n)
      ensures IsTestName(x)
    {
      var i :| 0 <= i < n && x in p[i];
      ReportedAtIsNameOrNothing(lines, excluded, i);
    }
  }

  /** With no excluded markers every test-function header is reported. */
  lemma NothingExcludedReportsAll(lines: seq<string>, n: nat)
    requires n <= |lines|
    ensures Reported(lines, {}, n) == TestNames(lines, n)
  {
    var p := PerLine(lines, {}, n);
    var q := seq(n, i requires 0 <= i < n => HeaderName(lines[i]));
    forall i | 0 <= i < n
      ensures p[i] == q[i]
    {
      HeadersExclusive(lines[i]);
      match TestHeader(lines[i])
      case Some(h) =>
        assert !ClassExcludes(StackAfter(lines, i), h.indent, {});
      case None =>
    }
    assert p == q;
  }

  /** A function left out for some markers is left out for every larger set of markers. */
  lemma ExclusionMonotone(lines: seq<string>, fewer: set<string>, more: set<string>, i: nat)
    requires i < |lines| && fewer <= more
    ensures ReportedAt(lines, more, i) == [] || ReportedAt(lines, more, i) == ReportedAt(lines, fewer, i)
    ensures |ReportedAt(lines, fewer, i)| <= 1
  {
    match TestHeader(lines[i])
    case Some(h) =>
      var stack := StackAfter(lines, i);
      if ClassExcludes(stack, h.indent, fewer) {
        var k :| 0 <= k < |stack| && stack[k].indent < h.indent && stack[k].markers * fewer != {};
        assert stack[k].markers * more != {};
      }
      assert DecoratorMarkers(lines, i) * fewer <= DecoratorMarkers(lines, i) * more;
    case None =>
  }

  /** Excluding more markers only leaves more functions out. */
  lemma MoreExcludedReportsLess(lines: seq<string>, fewer: set<string>, more: set<string>, n: nat)
    requires n <= |lines| && fewer <= more
    ensures IsSubsequence(Reported(lines, more, n), Reported(lines, fewer, n))
  {
    var p, q := PerLine(lines, more, n), PerLine(lines, fewer, n);
    forall i | 0 <= i < n
      ensures |q[i]| <= 1 && (p[i] == [] || p[i] == q[i])
    {
      ExclusionMonotone(lines, fewer, more, i);
    }
    FlattenSubsequence(p, q);
  }
}
