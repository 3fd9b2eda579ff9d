# collect-unmarked-tests: the test scanner, modelled in Dafny

`collect-unmarked-tests` lists the Python test functions that carry none of
a set of excluded pytest markers. It works on one file at a time, in
`find_python_test_functions` (`src/main.rs`). That function does the
following:

- It splits the file into lines.
- It walks the lines forward and recognises class headers
  (`^(\s*)class\s+(\w+)`) and test-function headers
  (`^(\s*)def\s+(test_\w+)\s*\(`).
- For each header it scans backwards over the decorator block above it. The
  scan skips blank lines and keeps three bracket depths, one each for
  `()`, `[]` and `{}`. It collects the marker of every line that starts
  with `@`. It stops at the first other line it reaches while all three
  depths are zero.
- It keeps a stack of enclosing classes that carry markers, with their
  indentation.
- It reports a test function unless an enclosing, less indented stacked
  class or its own decorator block names an excluded marker.

`extract_pytest_marker` reads the marker of a decorator line with
`@(?:pytest\.mark\.)?(\w+)`.

The model is organised by the program's structure:

- `text.dfy` (`Text`): ASCII character classes, leading-whitespace runs,
  `str::trim` and `str::lines`.
- `patterns.dfy` (`Patterns`): the three regular expressions, written as
  greedy matchers. The two header patterns each have a declarative
  description of the strings they accept and a lemma that the two agree.
  Marker extraction is here. Lemmas pin its result: the leftmost `@`
  followed by a word character wins, and after it comes either the
  namespaced reading or the bare word.
- `decorators.dfy` (`Decorators`): the backward decorator scan.
  - `ScanFrom` states it one line at a time.
  - The two loops of the source are methods proved against it: the
    class-level scan, which collects every marker, and the function-level
    scan, which stops at the first excluded one.
  - `IsBlock` and `BlockMarkers` describe the block and its markers
    without the steps.
- `scopes.dfy` (`Scopes`): the class-marker stack, its `retain`/`push`
  update, its invariant, and the nested loop that asks whether an
  enclosing class excludes a function.
- `scanner.dfy` (`Scanner`): `find_python_test_functions` as a method with
  a loop. It is proved equal to `UnmarkedTests`, a line-by-line
  definition. The lemmas state what the result means: it is an in-order
  subsequence of the test names, and it shrinks as more markers are
  excluded.
- `summary.dfy` (`Summary`): proof machinery. It restates the scan over a
  per-line summary and proves the two agree for every file. The concrete
  examples use it.
- `examples.dfy` (`Examples`): the cases the unit tests at the end of
  `src/main.rs` fix, stated as lemmas.

Two representation choices apply throughout:

- Strings are sequences of characters.
- Whitespace is the six ASCII characters that both the regex class `\s`
  and `char::is_whitespace` accept: tab, line feed, vertical tab, form feed,
  carriage return and space. A word character is `[A-Za-z0-9_]`.

## Model

| member | source | states |
|---|---|---|
| Text.Indent | src/main.rs:109 | the indentation of a header is the length of its leading whitespace: all of it is whitespace and the next character is not |
| Text.SpaceRun | src/main.rs:97 | `\s*` taken greedily at an index: the run is whitespace and is followed by a non-space or the end |
| Text.WordRun | src/main.rs:99 | the longest run of word characters at an index (`\w*`; the matchers ask it for at least one to read `\w+`): the run is word characters and is followed by a non-word character or the end |
| Text.TrimIsStretch | src/main.rs:121 | `trim()` gives the stretch between the leading and the trailing whitespace; it is empty exactly when the line is all whitespace, and otherwise neither starts nor ends with whitespace |
| Text.TrimIndented | src/main.rs:194 | an indented line whose body neither starts nor ends with whitespace trims to that body |
| Text.Lines | src/main.rs:101 | `content.lines()` gives lines that hold no line feed and are no more numerous than the characters |
| Text.LinesOfUnterminated | src/main.rs:101 | a last line with no line feed after it is still a line of its own, so the final line ending is optional |
| Text.LinesOfJoinLf | src/main.rs:101 | splitting text made of lines each ended by a line feed gives those lines back, when no line ends in a carriage return |
| Text.LinesOfJoinCrLf | src/main.rs:101 | splitting text whose lines each end in CR LF gives the lines back, so the carriage return is dropped |
| Patterns.ClassHeader | src/main.rs:99 | a class header's captured indentation is the line's leading whitespace, followed by `class` |
| Patterns.ClassHeaderIsPattern | src/main.rs:99 | the class matcher accepts a line exactly when it splits as whitespace, `class`, at least one space, a word character, and then the capture is the whitespace's length |
| Patterns.TestNameAt | src/main.rs:97 | `(test_\w+)\s*\(` at an index captures a name `test_` plus at least one word character that occurs there |
| Patterns.TestHeader | src/main.rs:97 | a test-function header's captures are the leading whitespace's length and a test name, after `def` |
| Patterns.TestHeaderIsPattern | src/main.rs:97 | the test-function matcher accepts a line exactly when it splits as whitespace, `def`, spaces, `test_`, word characters, spaces and `(`, and then the captures are the indentation and the name |
| Patterns.HeadersExclusive | src/main.rs:108-162 | no line is both a class header and a test-function header, so the class branch and its `continue` never hide a test |
| Patterns.ClassLineIsHeader | src/main.rs:99 | whitespace, `class `, a word and anything after is a class header at that indentation and not a test header |
| Patterns.DefLineIsHeader | src/main.rs:97 | whitespace, `def `, a test name and `(` onward is a test-function header with that indentation and name |
| Patterns.DefTestUnderscoreIsNoHeader | src/main.rs:97 | `def test_` followed by no word character, as in `def test_(`, is no test-function header, since `\w+` needs a character after `test_` |
| Patterns.OtherLineIsNoHeader | src/main.rs:97-99 | a line whose first non-space character is neither `c` nor `d` is no header |
| Patterns.MarkerAfter | src/main.rs:250 | a match starts at an `@` exactly when a word character follows it, and it captures a non-empty word |
| Patterns.ExtractMarker | src/main.rs:244-255 | `None` exactly when no `@` in the line is followed by a word character; any marker is a non-empty run of word characters |
| Patterns.MarkerSpellingsAgree | src/main.rs:245-250 | `@pytest.mark.w…` and `@w…` both give `w`, and call arguments after it are ignored |
| Patterns.NamespacedMarker | src/main.rs:250 | `@pytest.mark.` followed by a word and then a non-word character or the end gives that word |
| Patterns.ExtractMarkerIsLeftmost | src/main.rs:250-254 | when the `@` at index `k` is the first `@` that a word character follows, the marker is what the pattern captures after that `@` (so `@ x @bar` gives `bar`) |
| Patterns.BareWordMarker | src/main.rs:250 | `@` followed by a word and then a non-word character or the end gives that word, unless it reads as `@pytest.mark.` and a word; so `@pytest.fixture`, `@pytest.mark` and `@mock.patch("x")` give `pytest`, `pytest` and `mock` |
| Patterns.BareMarker | src/main.rs:250 | `@` followed by a word and then neither a word character nor `.` gives that word |
| Patterns.DanglingPrefixMarker | src/main.rs:250 | `@pytest.mark.` with no word character after it backtracks and gives `pytest` |
| Decorators.CountDelimiters | src/main.rs:128-138 | the character loop adds the bracket balance of the trimmed line to the depths |
| Decorators.DeltaCounts | src/main.rs:128-138 | a line's effect on each depth is its number of openers minus its number of closers, never clamped |
| Decorators.DeltaConcat | src/main.rs:128-138 | the effect of two pieces of text is the sum of their effects |
| Decorators.OccurrencesIsCount | src/main.rs:128-138 | the counted occurrences of a character are its multiplicity in the text |
| Decorators.ScanClassDecorators | src/main.rs:112-150 | the class-level backward scan returns exactly the markers of the decorator block (`DecoratorMarkers`) |
| Decorators.HasExcludedDecorator | src/main.rs:185-232 | the function-level scan, which breaks at the first excluded marker, answers whether the block's markers meet the excluded set |
| Decorators.DecoratorMarkersAreBlock | src/main.rs:118-149 | the scan collects the markers of the decorator lines of the block above the header, the block being the lines below the first non-blank, non-`@` line at which all depths balance |
| Decorators.BlockExists | src/main.rs:118-149 | every header has a decorator block, which may reach the top of the file |
| Decorators.BlockUnique | src/main.rs:118-149 | the decorator block of a header is unique |
| Decorators.ScanStep | src/main.rs:118-149 | a line inside the block adds its marker when it is a decorator and nothing otherwise, so blank lines and continuation lines at non-zero depth add nothing and do not stop the scan |
| Decorators.DecoratorMarkersLocal | src/main.rs:118-120 | the scan reads only lines strictly above the header |
| Scopes.Retain | src/main.rs:153 | `retain` keeps exactly the entries with indentation below the new class's |
| Scopes.RetainKeepsPrefix | src/main.rs:153 | on a well-formed stack `retain` keeps a prefix and leaves the stack well formed |
| Scopes.EnterClass | src/main.rs:152-158 | after a class header the stack stays well formed; it holds the shallower entries and the class's own entry on top exactly when it has markers; no deeper or equal entry survives |
| Scopes.ExcludedByClass | src/main.rs:166-181 | the nested loops find an excluded marker exactly when some entry with a smaller indentation carries one |
| Scanner.FindPythonTestFunctions | src/main.rs:93-242 | the scanner returns `UnmarkedTests`: per line, the name of a test header that neither a stacked class nor its own decorator block excludes, in line order |
| Scanner.ReportedStep | src/main.rs:235-236 | passing a line appends what that line reports |
| Scanner.StackWellFormed | src/main.rs:104 | after every line the stack's indentations strictly increase and no stored marker set is empty |
| Scanner.OpenClassAfterOther | src/main.rs:106-108 | a line that is no class header neither opens nor closes a class, so the stack is never popped by other lines |
| Scanner.OpenClassAfterClass | src/main.rs:152-158 | a class header closes the open classes at its own or a deeper indentation and opens itself when it has markers |
| Scanner.StackIsOpenClasses | src/main.rs:152-158 | the stack holds exactly the entries of the marked classes still open at that line |
| Scanner.ClassExcludesIsInherited | src/main.rs:166-181 | the stack check fires exactly when an open, less indented class's decorators name an excluded marker |
| Scanner.InheritsExcludedIsBlock | src/main.rs:166-181 | a class passes on an excluded marker exactly when a decorator line of its own block names one, with the class open and less indented than the function |
| Scanner.ReportedAtIsDeclarative | src/main.rs:162-237 | a line reports its test name exactly when it is a test header, no open, less indented class has a decorator block naming an excluded marker, and no decorator line of its own block names one, all stated with blocks instead of the stack or the scan |
| Scanner.ClassMarkerExcludesMethod | src/main.rs:166-184 | a test function inside a class whose decorator block names an excluded marker is left out whatever its own decorators are |
| Scanner.HeaderName | src/main.rs:162-163 | a line declares at most one name, and one exactly when it is a test-function header |
| Scanner.ReportedAtIsNameOrNothing | src/main.rs:159-237 | a line reports nothing or its own header's name |
| Scanner.ReportedNamesAppear | src/main.rs:235-236 | every reported name is the name of a test header of the file, and there are no more of them than headers |
| Scanner.ReportedIsSubsequence | src/main.rs:235-236 | the result is an in-order subsequence of the test names of the file: nothing invented, reordered or repeated |
| Scanner.ReportedNamesAreTestNames | src/main.rs:97 | every reported name is `test_` followed by at least one word character |
| Scanner.NothingExcludedReportsAll | src/main.rs:235-236 | with no excluded markers every test-function header is reported |
| Scanner.ExclusionMonotone | src/main.rs:172 | a function left out for some markers is left out for any larger set |
| Scanner.MoreExcludedReportsLess | src/main.rs:166-236 | the result for a larger excluded set is a subsequence of the result for a smaller one |
| Examples.MarkerUnit | src/main.rs:263-266 | `@pytest.mark.unit` gives `unit` |
| Examples.MarkerSlow | src/main.rs:267-270 | `@pytest.mark.slow` gives `slow` |
| Examples.MarkerBareUnit | src/main.rs:271 | `@unit` gives `unit` |
| Examples.MarkerBareSkip | src/main.rs:272 | `@skip` gives `skip` |
| Examples.MarkerParametrize | src/main.rs:273-276 | `@pytest.mark.parametrize('x', [1, 2])` gives `parametrize` |
| Examples.ExtractMarkerExamples | src/main.rs:262-276 | all five marker cases of the unit test |
| Examples.PlainFunctions | src/main.rs:280-307 | on the lines of the test file, excluding `unit` and `skip`, the result is `test_unmarked_function`, `test_another_unmarked` |
| Examples.PlainFunctionsContent | src/main.rs:280-307 | the same result for the file's text, split by `lines()` |
| Examples.MultilineDecorator | src/main.rs:310-333 | a multi-line `parametrize` below an excluded marker hides its function; the result is `test_unmarked` |
| Examples.MultilineDecoratorContent | src/main.rs:310-333 | the same result for the file's text |
| Examples.ClassMethods | src/main.rs:336-374 | marked methods are left out and unmarked ones kept; the result is `test_unmarked_method`, `test_function_level`, `test_unmarked_in_class` |
| Examples.ClassMethodsContent | src/main.rs:336-374 | the same result for the file's text |
| Examples.ClassLevelMarkers | src/main.rs:377-408 | a class marker hides every method of the class; the result is `test_method_in_unmarked_class`, `test_function_level` |
| Examples.ClassLevelMarkersContent | src/main.rs:377-408 | the same result for the file's text |

## Left out

- `main` (src/main.rs:24-56) is not part of this model: argument parsing, the default marker list, printing and the exit code are command-line plumbing.
- `collect_unmarked_tests` (src/main.rs:74-91) is not part of this model: directory walking, the `.py` filter, reading files and formatting `path::name` are file-system I/O.
- `collect_unmarked_tests_for_packages` (src/main.rs:58-72) is not part of this model: it checks that directories exist and concatenates results.
- The three depth counters are `i32` in the source (src/main.rs:114-116, src/main.rs:187-189) and are unbounded integers here. Overflow, which would need more than 2^31 net brackets above one header, is not modelled.
- The `regex` crate is replaced by hand-written matchers for the three fixed patterns.
- Unicode: `\s`, `\w` and `trim()` are modelled on ASCII only. A non-ASCII character counts as neither whitespace nor a word character, and the indentation counts characters where the source counts bytes (the same on ASCII).
- `HashSet` and `Vec` become Dafny sets and sequences. The iteration order of a `HashSet` in the nested loops over a class's markers is a free choice in `Scopes.ExcludedByClass`, and the answer does not depend on it.
- The examples are proved on the text built from each test file's lines, each ended by a line feed. The raw string of each test begins and ends with a line break, so this text is exactly the test's string; the model does not read the raw string literal itself.
