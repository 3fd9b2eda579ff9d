/**
 * The backward decorator scan of `find_python_test_functions`.
 *
 * From the line above a class or test-function header the scan walks up,
 * skips blank lines, adds the brackets of every other line to three depth
 * counters, collects the marker of every line that starts with `@`, and
 * stops at the first other line it reaches while all three depths are zero.
 *
 * `ScanFrom` states the scan step by step; the two scan methods of the
 * source (the class scan, which collects every marker, and the function
 * scan, which stops at the first excluded one) are proved against it, and
 * `DecoratorMarkersAreBlock` describes its result without the step-by-step
 * reading: the markers of the decorator lines in the block above the header.
 */
module Decorators {
  import opened Text
  import opened Patterns

  /** The three bracket depths: `()`, `[]` and `{}`. They are never clamped and may go negative. */
  datatype Depths = Depths(paren: int, bracket: int, brace: int)
  {
    predicate Balanced()
    {
      paren == 0 && bracket == 0 && brace == 0
    }

    function Plus(d: Depths): Depths
    {
      Depths(paren + d.paren, bracket + d.bracket, brace + d.brace)
    }
  }

  /** Number of times `c` occurs in `s`. */
  function Occurrences(s: string, c: char): nat
    decreases |s|
  {
    if s == [] then 0 else (if s[0] == c then 1 else 0) + Occurrences(s[1..], c)
  }

  /** `Occurrences` is the multiplicity of `c` in the multiset of the characters of `s`. */
  lemma {:induction false} OccurrencesIsCount(s: string, c: char)
    ensures Occurrences(s, c) == multiset(s)[c]
    decreases |s|
  {
    if s != [] {
      OccurrencesIsCount(s[1..], c);
      assert s == [s[0]] + s[1..];
      assert multiset(s) == multiset{s[0]} + multiset(s[1..]);
    }
  }

  /** What one character adds to the depths. */
  function CharDelta(c: char): Depths
  {
    match c
    case '(' => Depths(1, 0, 0)
    case ')' => Depths(-1, 0, 0)
    case '[' => Depths(0, 1, 0)
    case ']' => Depths(0, -1, 0)
    case '{' => Depths(0, 0, 1)
    case '}' => Depths(0, 0, -1)
    case _ => Depths(0, 0, 0)
  }

  /** What a line adds to the depths, character by character. */
  function Delta(t: string): Depths
    decreases |t|
  {
    if t == [] then Depths(0, 0, 0)
    else
      var c, r := CharDelta(t[0]), Delta(t[1..]);
      Depths(c.paren + r.paren, c.bracket + r.bracket, c.brace + r.brace)
  }

  lemma {:induction false} ParenCount(t: string)
    ensures Delta(t).paren == Occurrences(t, '(') - Occurrences(t, ')')
    decreases |t|
  {
    if t != [] {
      ParenCount(t[1..]);
    }
  }

  lemma {:induction false} BracketCount(t: string)
    ensures Delta(t).bracket == Occurrences(t, '[') - Occurrences(t, ']')
    decreases |t|
  {
    if t != [] {
      BracketCount(t[1..]);
    }
  }

  lemma {:induction false} BraceCount(t: string)
    ensures Delta(t).brace == Occurrences(t, '{') - Occurrences(t, '}')
    decreases |t|
  {
    if t != [] {
      BraceCount(t[1..]);
    }
  }

  /** For each kind of bracket, a line adds its openings minus its closings. */
  lemma DeltaCounts(t: string)
    ensures Delta(t) == Depths(Occurrences(t, '(') - Occurrences(t, ')'),
                               Occurrences(t, '[') - Occurrences(t, ']'),
                               Occurrences(t, '{') - Occurrences(t, '}'))
  {
    ParenCount(t);
    BracketCount(t);
    BraceCount(t);
  }

  /** The brackets of two pieces of text add up. */
  lemma {:induction false} DeltaConcat(a: string, b: string)
    ensures Delta(a + b) == Delta(a).Plus(Delta(b))
    decreases |a|
  {
    if a == [] {
      assert a + b == b;
    } else {
      assert (a + b)[1..] == a[1..] + b;
      DeltaConcat(a[1..], b);
    }
  }

  lemma PlusAssoc(a: Depths, b: Depths, c: Depths)
    ensures a.Plus(b).Plus(c) == a.Plus(b.Plus(c))
  {
  }

  /** Appending one character adds what that character adds. */
  lemma DeltaSnoc(s: string, c: char)
    ensures Delta(s + [c]) == Delta(s).Plus(CharDelta(c))
  {
    DeltaConcat(s, [c]);
    assert [c][1..] == [];
  }

  /** The bracket-counting loop over the characters of a trimmed line. */
  method CountDelimiters(t: string, d: Depths) returns (r: Depths)
    ensures r == d.Plus(Delta(t))
  {
    r := d;
    for k := 0 to |t|
      invariant r == d.Plus(Delta(t[..k]))
    {
      ghost var before := r;
      match t[k] {
      case '(' => r := r.(paren := r.paren + 1);
      case ')' => r := r.(paren := r.paren - 1);
      case '[' => r := r.(bracket := r.bracket + 1);
      case ']' => r := r.(bracket := r.bracket - 1);
      case '{' => r := r.(brace := r.brace + 1);
      case '}' => r := r.(brace := r.brace - 1);
      case _ =>
      }
      assert r == before.Plus(CharDelta(t[k]));
      CountStep(t, k, d, before, r);
    }
    assert t[..|t|] == t;
  }

  /** One more character read: the depths move by that character's delta. */
  lemma CountStep(t: string, k: nat, d: Depths, before: Depths, r: Depths)
    requires k < |t|
    requires before == d.Plus(Delta(t[..k])) && r == before.Plus(CharDelta(t[k]))
    ensures r == d.Plus(Delta(t[..k + 1]))
  {
    DeltaPrefix(t, k);
    PlusAssoc(d, Delta(t[..k]), CharDelta(t[k]));
  }

  /** A prefix one character longer adds what that character adds. */
  lemma DeltaPrefix(t: string, k: nat)
    requires k < |t|
    ensures Delta(t[..k + 1]) == Delta(t[..k]).Plus(CharDelta(t[k]))
  {
    assert t[..k + 1] == t[..k] + [t[k]];
    DeltaSnoc(t[..k], t[k]);
  }

  /** A trimmed line that starts with `@`. */
  predicate IsDecorator(t: string)
  {
    t != [] && t[0] == '@'
  }

  /** The marker a trimmed line contributes, as a set of at most one element. */
  function MarkersOf(t: string): set<string>
  {
    match ExtractMarker(t)
    case Some(m) => {m}
    case None => {}
  }

  /**
   * The scan, one step per line: the markers collected when the scan goes on
   * from the line above index `j` with depths `d`.
   */
  function ScanFrom(lines: seq<string>, j: nat, d: Depths): set<string>
    requires j <= |lines|
    decreases j
  {
    if j == 0 then {}
    else
      var t := Trim(lines[j - 1]);
      if t == [] then ScanFrom(lines, j - 1, d)
      else
        var d' := d.Plus(Delta(t));
        if IsDecorator(t) then MarkersOf(t) + ScanFrom(lines, j - 1, d')
        else if d'.Balanced() then {}
        else ScanFrom(lines, j - 1, d')
  }

  /** The markers of the decorators above the header at index `i`. */
  function DecoratorMarkers(lines: seq<string>, i: nat): set<string>
    requires i <= |lines|
  {
    ScanFrom(lines, i, Depths(0, 0, 0))
  }

  /** The class-level scan: collects every marker of the decorator block above line `i`. */
  method ScanClassDecorators(lines: seq<string>, i: nat) returns (markers: set<string>)
    requires i <= |lines|
    ensures markers == DecoratorMarkers(lines, i)
  {
    markers := {};
    var j: nat := i;
    var depths := Depths(0, 0, 0);
    while j > 0
      invariant j <= i
      invariant DecoratorMarkers(lines, i) == markers + ScanFrom(lines, j, depths)
    {
      j := j - 1;
      var trimmed := Trim(lines[j]);
      if trimmed == [] {
        continue;
      }
      depths := CountDelimiters(trimmed, depths);
      if trimmed[0] == '@' {
        match ExtractMarker(trimmed)
        case Some(m) => markers := markers + {m};
        case None =>
      } else if depths.Balanced() {
        break;
      }
    }
  }

  /**
   * The function-level scan: walks the same block but stops at the first
   * marker in `excluded`. Its answer is whether the block's markers meet
   * `excluded`, the same answer the class-level scan gives.
   */
  method HasExcludedDecorator(lines: seq<string>, i: nat, excluded: set<string>) returns (found: bool)
    requires i <= |lines|
    ensures found <==> DecoratorMarkers(lines, i) * excluded != {}
  {
    found := false;
    var j: nat := i;
    var depths := Depths(0, 0, 0);
    ghost var seen: set<string> := {};
    while j > 0
      invariant j <= i
      invariant seen * excluded == {}
      invariant DecoratorMarkers(lines, i) == seen + ScanFrom(lines, j, depths)
    {
      j := j - 1;
      var trimmed := Trim(lines[j]);
      if trimmed == [] {
        continue;
      }
      depths := CountDelimiters(trimmed, depths);
      if trimmed[0] == '@' {
        var marker := ExtractMarker(trimmed);
        if marker.Some? && marker.value in excluded {
          found := true;
          break;
        }
        seen := seen + MarkersOf(trimmed);
      } else if depths.Balanced() {
        break;
      }
    }
  }

  // ---------------------------------------------------------------- the scan without steps

  /** The depths the scan from header `i` holds after visiting lines `i-1` down to `k`. */
  function Depth(lines: seq<string>, k: nat, i: nat): Depths
    requires k <= i <= |lines|
    decreases i - k
  {
    if k == i then Depths(0, 0, 0) else Depth(lines, k + 1, i).Plus(Delta(Trim(lines[k])))
  }

  /** Line `k` ends the scan from header `i`: it is neither blank nor a decorator and the brackets from it to the header balance. */
  ghost predicate EndsScan(lines: seq<string>, k: nat, i: nat)
    requires k < i <= |lines|
  {
    var t := Trim(lines[k]);
    t != [] && !IsDecorator(t) && Depth(lines, k, i).Balanced()
  }

  /** Lines `b` to `i-1` are the decorator block of header `i`: no line in it ends the scan, and the line above it does (or it reaches the top). */
  ghost predicate IsBlock(lines: seq<string>, b: nat, i: nat)
  {
    && b <= i <= |lines|
    && (b == 0 || EndsScan(lines, b - 1, i))
    && forall k :: b <= k < i ==> !EndsScan(lines, k, i)
  }

  /** The markers of the decorator lines among lines `b` to `j-1`. */
  ghost function BlockMarkers(lines: seq<string>, b: nat, j: nat): set<string>
    requires b <= j <= |lines|
  {
    set k | b <= k < j && IsDecorator(Trim(lines[k])) && ExtractMarker(Trim(lines[k])).Some?
      :: ExtractMarker(Trim(lines[k])).value
  }

  lemma BlockMarkersStep(lines: seq<string>, b: nat, j: nat)
    requires b < j <= |lines|
    ensures BlockMarkers(lines, b, j) ==
      BlockMarkers(lines, b, j - 1) + (if IsDecorator(Trim(lines[j - 1])) then MarkersOf(Trim(lines[j - 1])) else {})
  {
  }

  /** Every header has a decorator block. */
  lemma BlockExists(lines: seq<string>, i: nat) returns (b: nat)
    requires i <= |lines|
    ensures IsBlock(lines, b, i)
  {
    b := BlockBelow(lines, i, i);
  }

  lemma SomeBlock(lines: seq<string>, i: nat)
    requires i <= |lines|
    ensures exists b :: IsBlock(lines, b, i)
  {
    var b := BlockExists(lines, i);
  }

  /** The first line of the decorator block of header `i`. */
  ghost function BlockTop(lines: seq<string>, i: nat): (b: nat)
    requires i <= |lines|
    ensures IsBlock(lines, b, i)
  {
    SomeBlock(lines, i);
    var b :| IsBlock(lines, b, i);
    b
  }

  lemma {:induction false} BlockBelow(lines: seq<string>, j: nat, i: nat) returns (b: nat)
    requires j <= i <= |lines|
    requires forall k :: j <= k < i ==> !EndsScan(lines, k, i)
    ensures IsBlock(lines, b, i)
    decreases j
  {
    if j == 0 || EndsScan(lines, j - 1, i) {
      b := j;
    } else {
      b := BlockBelow(lines, j - 1, i);
    }
  }

  /** A header has only one decorator block. */
  lemma BlockUnique(lines: seq<string>, b1: nat, b2: nat, i: nat)
    requires IsBlock(lines, b1, i) && IsBlock(lines, b2, i)
    ensures b1 == b2
  {
    if b1 < b2 {
    } else if b2 < b1 {
    }
  }

  lemma {:induction false} ScanFromBlock(lines: seq<string>, b: nat, j: nat, i: nat)
    requires IsBlock(lines, b, i) && b <= j <= i
    ensures ScanFrom(lines, j, Depth(lines, j, i)) == BlockMarkers(lines, b, j)
    decreases j
  {
    if j == b {
      ScanAtBlockTop(lines, b, i);
    } else {
      ScanFromBlock(lines, b, j - 1, i);
      ScanBlockStep(lines, b, j, i);
    }
  }

  lemma ScanBlockStep(lines: seq<string>, b: nat, j: nat, i: nat)
    requires IsBlock(lines, b, i) && b < j <= i
    requires ScanFrom(lines, j - 1, Depth(lines, j - 1, i)) == BlockMarkers(lines, b, j - 1)
    ensures ScanFrom(lines, j, Depth(lines, j, i)) == BlockMarkers(lines, b, j)
  {
    assert !EndsScan(lines, j - 1, i);
    BlockMarkersStep(lines, b, j);
    ScanStep(lines, j, i);
  }

  /** At the top of its block the scan has nothing left to collect. */
  lemma ScanAtBlockTop(lines: seq<string>, b: nat, i: nat)
    requires IsBlock(lines, b, i)
    ensures ScanFrom(lines, b, Depth(lines, b, i)) == {}
    ensures BlockMarkers(lines, b, b) == {}
  {
    if b > 0 {
      assert EndsScan(lines, b - 1, i);
    }
  }

  /** One step of the scan inside the block: the line is taken in and the scan goes on with the depths below it. */
  lemma ScanStep(lines: seq<string>, j: nat, i: nat)
    requires 0 < j <= i <= |lines| && !EndsScan(lines, j - 1, i)
    ensures ScanFrom(lines, j, Depth(lines, j, i)) ==
      (if IsDecorator(Trim(lines[j - 1])) then MarkersOf(Trim(lines[j - 1])) else {})
      + ScanFrom(lines, j - 1, Depth(lines, j - 1, i))
  {
    var t := Trim(lines[j - 1]);
    var d := Depth(lines, j, i);
    assert Depth(lines, j - 1, i) == d.Plus(Delta(t));
    if t == [] {
      assert d.Plus(Delta(t)) == d;
    }
  }

  /**
   * What the scan from header `i` collects: the markers of the decorator
   * lines of its block. Blank lines, continuation lines inside an unclosed
   * bracket and the line that ends the scan contribute nothing.
   */
  lemma DecoratorMarkersAreBlock(lines: seq<string>, b: nat, i: nat)
    requires IsBlock(lines, b, i)
    ensures DecoratorMarkers(lines, i) == BlockMarkers(lines, b, i)
  {
    ScanFromBlock(lines, b, i, i);
  }

  lemma {:induction false} ScanFromLocal(lines: seq<string>, other: seq<string>, j: nat, d: Depths)
    requires j <= |lines| && j <= |other| && lines[..j] == other[..j]
    ensures ScanFrom(lines, j, d) == ScanFrom(other, j, d)
    decreases j
  {
    if j > 0 {
      assert lines[j - 1] == lines[..j][j - 1] == other[j - 1];
      assert lines[..j - 1] == lines[..j][..j - 1];
      assert other[..j - 1] == other[..j][..j - 1];
      var t := Trim(lines[j - 1]);
      ScanFromLocal(lines, other, j - 1, d);
      ScanFromLocal(lines, other, j - 1, d.Plus(Delta(t)));
    }
  }

  /** The scan from header `i` reads only the lines above it. */
  lemma DecoratorMarkersLocal(lines: seq<string>, other: seq<string>, i: nat)
    requires i <= |lines| && i <= |other| && lines[..i] == other[..i]
    ensures DecoratorMarkers(lines, i) == DecoratorMarkers(other, i)
  {
    ScanFromLocal(lines, other, i, Depths(0, 0, 0));
  }
}
