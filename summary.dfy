/**
 * The scan sees each line only through a small summary: whether it is a
 * class header and at which indentation, whether it is a test-function
 * header and what it captures, and what its trimmed text is to the
 * backward scan (blank, a decorator with its markers and bracket balance,
 * or other text with its bracket balance). This module restates the scan
 * over summaries and proves that it gives the same stack and the same
 * result as the scan over the lines, for every file.
 */
module Summary {
  import opened Text
  import opened Patterns
  import opened Decorators
  import opened Scopes
  import opened Scanner

  /** What the backward scan reads from a trimmed line. */
  datatype Trimmed = Blank | Decorator(markers: set<string>, delta: Depths) | Code(delta: Depths)

  /** What the forward and the backward scan read from a line. */
  datatype LineInfo = LineInfo(classIndent: Option<nat>, test: Option<TestHeaderMatch>, trimmed: Trimmed)

  /** The summary of one line. */
  function InfoOf(line: string): (r: LineInfo)
    ensures r.classIndent == ClassHeader(line) && r.test == TestHeader(line)
    ensures r.trimmed.Blank? <==> Trim(line) == []
    ensures r.trimmed.Decorator? <==> IsDecorator(Trim(line))
    ensures !r.trimmed.Blank? ==> r.trimmed.delta == Delta(Trim(line))
    ensures r.trimmed.Decorator? ==> r.trimmed.markers == MarkersOf(Trim(line))
  {
    var t := Trim(line);
    var trimmed :=
      if t == [] then Blank
      else if IsDecorator(t) then Decorator(MarkersOf(t), Delta(t))
      else Code(Delta(t));
    LineInfo(ClassHeader(line), TestHeader(line), trimmed)
  }

  /** `infos` summarises `lines`, line by line. */
  ghost predicate Summarizes(lines: seq<string>, infos: seq<LineInfo>)
  {
    |lines| == |infos| && forall k {:trigger InfoOf(lines[k])} :: 0 <= k < |lines| ==> InfoOf(lines[k]) == infos[k]
  }

  /** `ScanFrom` over summaries. */
  function InfoScan(infos: seq<LineInfo>, j: nat, d: Depths): set<string>
    requires j <= |infos|
    decreases j, infos
  {
    if j == 0 then {}
    else
      match infos[j - 1].trimmed
      case Blank => InfoScan(infos, j - 1, d)
      case Decorator(markers, delta) => markers + InfoScan(infos, j - 1, Depths(d.paren + delta.paren, d.bracket + delta.bracket, d.brace + delta.brace))
      case Code(delta) =>
        var d' := Depths(d.paren + delta.paren, d.bracket + delta.bracket, d.brace + delta.brace);
        if d'.Balanced() then {} else InfoScan(infos, j - 1, d')
  }

  /** `StackAfter` over summaries. */
  function InfoStack(infos: seq<LineInfo>, n: nat): seq<ClassScope>
    requires n <= |infos|
    decreases n, infos
  {
    if n == 0 then []
    else
      var stack := InfoStack(infos, n - 1);
      match infos[n - 1].classIndent
      case Some(indent) => EnterClass(stack, indent, InfoScan(infos, n - 1, Depths(0, 0, 0)))
      case None => stack
  }

  /** `ReportedAt` over summaries. */
  function InfoReportedAt(infos: seq<LineInfo>, excluded: set<string>, i: nat): seq<string>
    requires i < |infos|
  {
    if infos[i].classIndent.Some? then []
    else
      match infos[i].test
      case Some(h) =>
        if ClassExcludes(InfoStack(infos, i), h.indent, excluded) || InfoScan(infos, i, Depths(0, 0, 0)) * excluded != {}
        then [] else [h.name]
      case None => []
  }

  /** `Reported` over summaries. */
  function InfoReported(infos: seq<LineInfo>, excluded: set<string>, n: nat): seq<string>
    requires n <= |infos|
    decreases n, infos
  {
    if n == 0 then [] else InfoReported(infos, excluded, n - 1) + InfoReportedAt(infos, excluded, n - 1)
  }

  /** After lines 0 to k-1 the scans over the lines and over the summaries agree: the backward scan from k, the stack and the result. */
  ghost predicate Agree(lines: seq<string>, infos: seq<LineInfo>, excluded: set<string>, k: nat)
    requires k <= |lines| == |infos|
  {
    && (forall d :: ScanFrom(lines, k, d) == InfoScan(infos, k, d))
    && StackAfter(lines, k) == InfoStack(infos, k)
    && Reported(lines, excluded, k) == InfoReported(infos, excluded, k)
  }

  /** The scan over the lines and the scan over their summaries give the same result. */
  lemma ReportedAgrees(lines: seq<string>, infos: seq<LineInfo>, excluded: set<string>)
    requires Summarizes(lines, infos)
    ensures Reported(lines, excluded, |lines|) == InfoReported(infos, excluded, |infos|)
  {
    AgreeUpTo(lines, infos, excluded, |lines|);
  }

  lemma {:induction false} AgreeUpTo(lines: seq<string>, infos: seq<LineInfo>, excluded: set<string>, n: nat)
    requires Summarizes(lines, infos) && n <= |lines|
    ensures Agree(lines, infos, excluded, n)
  {
    if n > 0 {
      AgreeUpTo(lines, infos, excluded, n - 1);
      assert InfoOf(lines[n - 1]) == infos[n - 1];
      AgreeStep(lines, infos, excluded, n - 1);
    }
  }

  lemma AgreeStep(lines: seq<string>, infos: seq<LineInfo>, excluded: set<string>, k: nat)
    requires k < |lines| == |infos| && InfoOf(lines[k]) == infos[k]
    requires Agree(lines, infos, excluded, k)
    ensures Agree(lines, infos, excluded, k + 1)
  {
    ReportedStep(lines, excluded, k);
    LineAgrees(lines, infos, excluded, k);
    var k' := k + 1;
    forall d: Depths
      ensures ScanFrom(lines, k', d) == InfoScan(infos, k', d)
    {
      ScanStepAgrees(lines, infos, k, d);
    }
  }

  /** One more line: the stack and what the line adds agree when the markers above it and the stack before it agree. */
  lemma LineAgrees(lines: seq<string>, infos: seq<LineInfo>, excluded: set<string>, i: nat)
    requires i < |lines| == |infos|
    requires ClassHeader(lines[i]) == infos[i].classIndent && TestHeader(lines[i]) == infos[i].test
    requires DecoratorMarkers(lines, i) == InfoScan(infos, i, Depths(0, 0, 0))
    requires StackAfter(lines, i) == InfoStack(infos, i)
    ensures StackAfter(lines, i + 1) == InfoStack(infos, i + 1)
    ensures ReportedAt(lines, excluded, i) == InfoReportedAt(infos, excluded, i)
  {
  }

  /** One more line for the backward scan, from every starting depth. */
  lemma ScanStepAgrees(lines: seq<string>, infos: seq<LineInfo>, j: nat, d: Depths)
    requires j < |lines| == |infos|
    requires InfoOf(lines[j]) == infos[j]
    requires forall d :: ScanFrom(lines, j, d) == InfoScan(infos, j, d)
    ensures ScanFrom(lines, j + 1, d) == InfoScan(infos, j + 1, d)
  {
    var t := Trim(lines[j]);
    if t != [] {
      var e := infos[j].trimmed.delta;
      var d' := d.Plus(Delta(t));
      assert d' == Depths(d.paren + e.paren, d.bracket + e.bracket, d.brace + e.brace);
      assert ScanFrom(lines, j, d') == InfoScan(infos, j, d');
      ScanFromText(lines, j, d, t, d');
      InfoScanText(infos, j, d, e, d');
    } else {
      assert ScanFrom(lines, j, d) == InfoScan(infos, j, d);
    }
  }

  /** One more non-blank line for the backward scan over the lines. */
  lemma ScanFromText(lines: seq<string>, j: nat, d: Depths, t: string, d': Depths)
    requires j < |lines| && t == Trim(lines[j]) && t != [] && d' == d.Plus(Delta(t))
    ensures ScanFrom(lines, j + 1, d) ==
      if IsDecorator(t) then MarkersOf(t) + ScanFrom(lines, j, d')
      else if d'.Balanced() then {} else ScanFrom(lines, j, d')
  {
  }

  /** One more non-blank line for the backward scan over the summaries. */
  lemma InfoScanText(infos: seq<LineInfo>, j: nat, d: Depths, e: Depths, d': Depths)
    requires j < |infos| && !infos[j].trimmed.Blank? && infos[j].trimmed.delta == e
    requires d' == Depths(d.paren + e.paren, d.bracket + e.bracket, d.brace + e.brace)
    ensures InfoScan(infos, j + 1, d) ==
      if infos[j].trimmed.Decorator? then infos[j].trimmed.markers + InfoScan(infos, j, d')
      else if d'.Balanced() then {} else InfoScan(infos, j, d')
  {
  }
}
