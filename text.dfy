/**
 * Character classes, runs, `str::trim` and `str::lines`, restricted to ASCII.
 *
 * Whitespace is what both the regex class `\s` and `char::is_whitespace`
 * accept among ASCII characters: tab, line feed, vertical tab, form feed,
 * carriage return and space. A word character (`\w`) is `[A-Za-z0-9_]`.
 */
module Text {

  datatype Option<T> = None | Some(value: T)

  predicate IsSpace(c: char)
  {
    c == ' ' || c == '\t' || c == '\n' || c == '\U{B}' || c == '\U{C}' || c == '\r'
  }

  predicate IsWordChar(c: char)
  {
    ('a' <= c <= 'z') || ('A' <= c <= 'Z') || ('0' <= c <= '9') || c == '_'
  }

  predicate AllSpace(s: string)
  {
    forall k :: 0 <= k < |s| ==> IsSpace(s[k])
  }

  predicate AllWord(s: string)
  {
    forall k :: 0 <= k < |s| ==> IsWordChar(s[k])
  }

  /** `p` occurs in `s` at index `i`. */
  predicate HasAt(s: string, i: nat, p: string)
  {
    i + |p| <= |s| && s[i..i + |p|] == p
  }

  /** Number of whitespace characters at the start of `s`. */
  function LeadingSpace(s: string): (n: nat)
    ensures n <= |s| && AllSpace(s[..n])
    ensures n == |s| || !IsSpace(s[n])
    decreases |s|
  {
    if s != [] && IsSpace(s[0]) then
      var m := LeadingSpace(s[1..]);
      assert s[..1 + m] == [s[0]] + s[1..][..m];
      1 + m
    else 0
  }

  /** Number of word characters at the start of `s`. */
  function LeadingWord(s: string): (n: nat)
    ensures n <= |s| && AllWord(s[..n])
    ensures n == |s| || !IsWordChar(s[n])
    decreases |s|
  {
    if s != [] && IsWordChar(s[0]) then
      var m := LeadingWord(s[1..]);
      assert s[..1 + m] == [s[0]] + s[1..][..m];
      1 + m
    else 0
  }

  /** Length of the longest run of whitespace in `s` starting at index `i` (a greedy `\s*`). */
  function SpaceRun(s: string, i: nat): (n: nat)
    requires i <= |s|
    ensures i + n <= |s|
    ensures AllSpace(s[i..i + n])
    ensures i + n == |s| || !IsSpace(s[i + n])
    decreases |s| - i
  {
    if i < |s| && IsSpace(s[i]) then
      var m := SpaceRun(s, i + 1);
      assert s[i..i + 1 + m] == [s[i]] + s[i + 1..i + 1 + m];
      1 + m
    else 0
  }

  /** Length of the longest run of word characters in `s` starting at index `i` (a greedy `\w*`). */
  function WordRun(s: string, i: nat): (n: nat)
    requires i <= |s|
    ensures i + n <= |s|
    ensures AllWord(s[i..i + n])
    ensures i + n == |s| || !IsWordChar(s[i + n])
    decreases |s| - i
  {
    if i < |s| && IsWordChar(s[i]) then
      var m := WordRun(s, i + 1);
      assert s[i..i + 1 + m] == [s[i]] + s[i + 1..i + 1 + m];
      1 + m
    else 0
  }

  /** A greedy run is determined by where it stops: any all-space stretch that ends at a non-space is the run. */
  lemma SpaceRunIs(s: string, i: nat, n: nat)
    requires i + n <= |s|
    requires AllSpace(s[i..i + n])
    requires i + n == |s| || !IsSpace(s[i + n])
    ensures SpaceRun(s, i) == n
  {
    var m := SpaceRun(s, i);
    var u, v := s[i..i + n], s[i..i + m];
    assert forall k :: 0 <= k < n ==> u[k] == s[i + k];
    assert forall k :: 0 <= k < m ==> v[k] == s[i + k];
  }

  lemma WordRunIs(s: string, i: nat, n: nat)
    requires i + n <= |s|
    requires AllWord(s[i..i + n])
    requires i + n == |s| || !IsWordChar(s[i + n])
    ensures WordRun(s, i) == n
  {
    var m := WordRun(s, i);
    var u, v := s[i..i + n], s[i..i + m];
    assert forall k :: 0 <= k < n ==> u[k] == s[i + k];
    assert forall k :: 0 <= k < m ==> v[k] == s[i + k];
  }

  lemma LeadingSpaceIs(s: string, n: nat)
    requires n <= |s| && AllSpace(s[..n])
    requires n == |s| || !IsSpace(s[n])
    ensures LeadingSpace(s) == n
  {
    var m := LeadingSpace(s);
    assert forall k :: 0 <= k < n ==> s[..n][k] == s[k];
    assert forall k :: 0 <= k < m ==> s[..m][k] == s[k];
  }

  lemma LeadingWordIs(s: string, n: nat)
    requires n <= |s| && AllWord(s[..n])
    requires n == |s| || !IsWordChar(s[n])
    ensures LeadingWord(s) == n
  {
    var m := LeadingWord(s);
    assert forall k :: 0 <= k < n ==> s[..n][k] == s[k];
    assert forall k :: 0 <= k < m ==> s[..m][k] == s[k];
  }

  /** Indentation of a line: the number of leading whitespace characters. */
  function Indent(line: string): (n: nat)
    ensures n <= |line| && AllSpace(line[..n])
    ensures n == |line| || !IsSpace(line[n])
  {
    LeadingSpace(line)
  }

  /** Number of whitespace characters at the end of `s`. */
  function TrailingSpace(s: string): (n: nat)
    ensures n <= |s|
    ensures AllSpace(s[|s| - n..])
    ensures n == |s| || !IsSpace(s[|s| - n - 1])
    decreases |s|
  {
    if s != [] && IsSpace(s[|s| - 1]) then
      var m := TrailingSpace(s[..|s| - 1]);
      assert s[..|s| - 1][|s| - 1 - m..] + [s[|s| - 1]] == s[|s| - 1 - m..];
      1 + m
    else 0
  }

  /** `s` without its leading whitespace. */
  function TrimStart(s: string): string
    decreases |s|
  {
    if s != [] && IsSpace(s[0]) then TrimStart(s[1..]) else s
  }

  /** `s` without its trailing whitespace. */
  function TrimEnd(s: string): string
    decreases |s|
  {
    if s != [] && IsSpace(s[|s| - 1]) then TrimEnd(s[..|s| - 1]) else s
  }

  /** `str::trim`: the line without its leading and trailing whitespace. */
  function Trim(s: string): string
  {
    TrimEnd(TrimStart(s))
  }

  lemma {:induction false} TrimStartIs(s: string, n: nat)
    requires n <= |s| && AllSpace(s[..n]) && (n == |s| || !IsSpace(s[n]))
    ensures TrimStart(s) == s[n..]
    decreases n
  {
    if n > 0 {
      assert IsSpace(s[..n][0]);
      assert s[1..][..n - 1] == s[1..n];
      TrimStartIs(s[1..], n - 1);
      assert s[1..][n - 1..] == s[n..];
    }
  }

  lemma {:induction false} TrimEndIs(s: string, n: nat)
    requires n <= |s| && AllSpace(s[|s| - n..]) && (n == |s| || !IsSpace(s[|s| - n - 1]))
    ensures TrimEnd(s) == s[..|s| - n]
    decreases n
  {
    if n > 0 {
      assert IsSpace(s[|s| - n..][n - 1]);
      var u := s[..|s| - 1];
      assert u[|u| - (n - 1)..] == s[|s| - n..|s| - 1];
      TrimEndIs(u, n - 1);
      assert u[..|u| - (n - 1)] == s[..|s| - n];
    } else {
      assert s[..|s|] == s;
    }
  }

  /**
   * What `Trim` leaves: the stretch of `s` that starts after the
   * indentation, such that everything after it is whitespace and it neither
   * starts nor ends with whitespace. It is empty exactly when `s` is all
   * whitespace.
   */
  lemma TrimIsStretch(s: string)
    ensures Indent(s) + |Trim(s)| <= |s|
    ensures s[Indent(s)..Indent(s) + |Trim(s)|] == Trim(s)
    ensures AllSpace(s[Indent(s) + |Trim(s)|..])
    ensures Trim(s) != [] ==> !IsSpace(Trim(s)[0]) && !IsSpace(Trim(s)[|Trim(s)| - 1])
    ensures Trim(s) == [] <==> AllSpace(s)
  {
    var a := Indent(s);
    TrimStartIs(s, a);
    var u := s[a..];
    var b := TrailingSpace(u);
    TrimEndIs(u, b);
    var t := u[..|u| - b];
    assert Trim(s) == t;
    if a == |s| {
      assert s[..a] == s;
    } else {
      assert u[0] == s[a];
      assert !AllSpace(s) by { assert !IsSpace(s[a]); }
      assert b < |u| by {
        if b == |u| {
        }
      }
      assert t[0] == u[0];
      assert u[|u| - b..] == s[a + |t|..];
    }
  }

  /** Trimming an indented line whose text neither starts nor ends with whitespace leaves that text. */
  lemma TrimIndented(line: string, ind: string, body: string)
    requires line == ind + body
    requires AllSpace(ind) && body != [] && !IsSpace(body[0]) && !IsSpace(body[|body| - 1])
    ensures Trim(line) == body
  {
    assert line[..|ind|] == ind;
    assert line[|ind|] == body[0];
    TrimStartIs(line, |ind|);
    assert line[|ind|..] == body;
  }

  /** Index of the first line feed in `s`, or `|s|` when there is none. */
  function NewlineIndex(s: string): (k: nat)
    ensures k <= |s|
    ensures '\n' !in s[..k]
    ensures k < |s| ==> s[k] == '\n'
    decreases |s|
  {
    if s == [] then 0
    else if s[0] == '\n' then 0
    else
      var k := 1 + NewlineIndex(s[1..]);
      assert s[..k] == [s[0]] + s[1..][..k - 1];
      k
  }

  /** Drops one carriage return that ended a line before its line feed. */
  function StripCr(line: string): string
  {
    if line != [] && line[|line| - 1] == '\r' then line[..|line| - 1] else line
  }

  /**
   * `str::lines`: splits after every line feed, removes the line feed and
   * one carriage return just before it. A final line feed does not start an
   * empty last line, and a carriage return at the very end of the text with
   * no line feed after it stays in the last line.
   */
  function Lines(content: string): (ls: seq<string>)
    ensures forall k :: 0 <= k < |ls| ==> '\n' !in ls[k]
    ensures |ls| <= |content|
    decreases |content|
  {
    if content == [] then []
    else
      var k := NewlineIndex(content);
      if k == |content| then
        assert content[..k] == content;
        [content]
      else
        var first := StripCr(content[..k]);
        assert forall c :: c in first ==> c in content[..k];
        [first] + Lines(content[k + 1..])
  }

  /** Lines each terminated by a line feed. */
  function JoinLf(ls: seq<string>): string
  {
    if ls == [] then [] else ls[0] + "\n" + JoinLf(ls[1..])
  }

  /** Lines each terminated by a carriage return and a line feed. */
  function JoinCrLf(ls: seq<string>): string
  {
    if ls == [] then [] else ls[0] + "\r\n" + JoinCrLf(ls[1..])
  }

  lemma NewlineIndexIs(s: string, k: nat)
    requires k < |s| && s[k] == '\n' && '\n' !in s[..k]
    ensures NewlineIndex(s) == k
  {
    var m := NewlineIndex(s);
    if m < k {
    } else if m > k {
    }
  }

  lemma NewlineIndexAfter(line: string, rest: string)
    requires '\n' !in line
    ensures NewlineIndex(line + "\n" + rest) == |line|
  {
    var s := line + "\n" + rest;
    assert s[..|line|] == line;
    NewlineIndexIs(s, |line|);
  }

  /** Splitting text whose lines all end in a line feed gives the lines back, when no line ends in a carriage return. */
  lemma {:induction false} LinesOfJoinLf(ls: seq<string>)
    requires forall k :: 0 <= k < |ls| ==> '\n' !in ls[k]
    requires forall k :: 0 <= k < |ls| ==> ls[k] == [] || ls[k][|ls[k]| - 1] != '\r'
    ensures Lines(JoinLf(ls)) == ls
  {
    if ls != [] {
      var rest := JoinLf(ls[1..]);
      var s := ls[0] + "\n" + rest;
      NewlineIndexAfter(ls[0], rest);
      assert s[..|ls[0]|] == ls[0];
      assert s[|ls[0]| + 1..] == rest;
      LinesOfJoinLf(ls[1..]);
    }
  }

  /** When the last line has no line feed after it, splitting still gives every line, the last one included. */
  lemma {:induction false} LinesOfUnterminated(ls: seq<string>, last: string)
    requires forall k :: 0 <= k < |ls| ==> '\n' !in ls[k]
    requires forall k :: 0 <= k < |ls| ==> ls[k] == [] || ls[k][|ls[k]| - 1] != '\r'
    requires last != [] && '\n' !in last
    ensures Lines(JoinLf(ls) + last) == ls + [last]
  {
    if ls == [] {
      assert JoinLf(ls) + last == last;
      LinesOfLast(last);
    } else {
      var tail := ls[1..];
      assert forall k :: 0 <= k < |tail| ==> tail[k] == ls[k + 1];
      LinesOfUnterminated(tail, last);
      JoinLfStep(ls, last);
      LinesOfFirst(ls[0], JoinLf(tail) + last);
      SnocOfCons(ls, last);
    }
  }

  /** Appending after a non-empty sequence leaves its head in front. */
  lemma SnocOfCons<T>(xs: seq<T>, y: T)
    requires xs != []
    ensures xs + [y] == [xs[0]] + (xs[1..] + [y])
  {
    assert xs == [xs[0]] + xs[1..];
  }

  /** One step of `JoinLf` with text after it. */
  lemma JoinLfStep(ls: seq<string>, last: string)
    requires ls != []
    ensures JoinLf(ls) + last == ls[0] + "\n" + (JoinLf(ls[1..]) + last)
  { }

  /** Text with no line feed is one line. */
  lemma LinesOfLast(last: string)
    requires last != [] && '\n' !in last
    ensures Lines(last) == [last]
  {
  }

  /** A line ended by a line feed, and not by a carriage return before it, is split off as it is. */
  lemma LinesOfFirst(line: string, rest: string)
    requires '\n' !in line && (line == [] || line[|line| - 1] != '\r')
    ensures Lines(line + "\n" + rest) == [line] + Lines(rest)
  {
    var s := line + "\n" + rest;
    NewlineIndexAfter(line, rest);
    assert s[..|line|] == line;
    assert s[|line| + 1..] == rest;
  }

  /** Splitting text whose lines all end in CR LF gives the lines back, whatever carriage returns they hold. */
  lemma {:induction false} LinesOfJoinCrLf(ls: seq<string>)
    requires forall k :: 0 <= k < |ls| ==> '\n' !in ls[k]
    ensures Lines(JoinCrLf(ls)) == ls
  {
    if ls != [] {
      var rest := JoinCrLf(ls[1..]);
      var s := ls[0] + "\r\n" + rest;
      assert s == (ls[0] + "\r") + "\n" + rest;
      assert '\n' !in ls[0] + "\r";
      NewlineIndexAfter(ls[0] + "\r", rest);
      assert s[..|ls[0]| + 1] == ls[0] + "\r";
      assert s[|ls[0]| + 2..] == rest;
      LinesOfJoinCrLf(ls[1..]);
    }
  }
}
