/**
 * The class-marker stack of `find_python_test_functions`: one entry per
 * enclosing class that carries markers, with the indentation of its header.
 * A class header closes every entry at its own or a deeper indentation and
 * pushes its own entry when its decorators name any marker.
 */
module Scopes {

  /** An entry of the stack: the indentation of a class header and the markers of its decorators. */
  datatype ClassScope = ClassScope(indent: nat, markers: set<string>)

  /** The stack invariant: indentations strictly increase from the bottom up and no stored marker set is empty. */
  predicate WellFormed(stack: seq<ClassScope>)
  {
    && (forall k :: 0 <= k < |stack| ==> stack[k].markers != {})
    && (forall k, l :: 0 <= k < l < |stack| ==> stack[k].indent < stack[l].indent)
  }

  /** `retain(|(indent, _)| *indent < limit)`: the entries whose indentation is below `limit`, in their order. */
  function Retain(stack: seq<ClassScope>, limit: nat): (r: seq<ClassScope>)
    ensures forall e :: e in r <==> e in stack && e.indent < limit
    ensures |r| <= |stack|
  {
    if stack == [] then []
    else
      var rest := Retain(stack[1..], limit);
      assert forall e :: e in stack <==> e == stack[0] || e in stack[1..];
      if stack[0].indent < limit then [stack[0]] + rest else rest
  }

  lemma PrefixWellFormed(stack: seq<ClassScope>, n: nat)
    requires WellFormed(stack) && n <= |stack|
    ensures WellFormed(stack[..n])
  {
  }

  /** On a well-formed stack, `Retain` keeps a prefix, so the stack stays well formed. */
  lemma {:induction false} RetainKeepsPrefix(stack: seq<ClassScope>, limit: nat)
    requires WellFormed(stack)
    ensures Retain(stack, limit) == stack[..|Retain(stack, limit)|]
    ensures WellFormed(Retain(stack, limit))
  {
    if stack != [] {
      var rest := Retain(stack[1..], limit);
      assert WellFormed(stack[1..]);
      RetainKeepsPrefix(stack[1..], limit);
      if stack[0].indent < limit {
        assert [stack[0]] + rest == stack[..1 + |rest|];
      } else if rest != [] {
        assert false;
      }
      PrefixWellFormed(stack, |Retain(stack, limit)|);
    }
  }

  /**
   * The stack after a class header at indentation `indent` whose decorators
   * name `markers`: every entry at the same or a deeper indentation is gone,
   * the shallower ones stay in order, and the class's own entry is on top
   * exactly when it has markers.
   */
  function EnterClass(stack: seq<ClassScope>, indent: nat, markers: set<string>): (r: seq<ClassScope>)
    ensures WellFormed(stack) ==> WellFormed(r)
    ensures forall e :: e in r <==> (e in stack && e.indent < indent) || (markers != {} && e == ClassScope(indent, markers))
    ensures markers != {} ==> r != [] && r[|r| - 1] == ClassScope(indent, markers)
    ensures forall k :: 0 <= k < |r| - 1 ==> r[k].indent < indent
    ensures markers == {} ==> forall k :: 0 <= k < |r| ==> r[k].indent < indent
  {
    var kept := Retain(stack, indent);
    assert forall k :: 0 <= k < |kept| ==> kept[k] in kept;
    assert WellFormed(stack) ==> WellFormed(kept) by {
      if WellFormed(stack) {
        RetainKeepsPrefix(stack, indent);
      }
    }
    if markers != {} then kept + [ClassScope(indent, markers)] else kept
  }

  /** Some entry of the stack encloses a function at indentation `indent` (its own is smaller) and carries a marker of `excluded`. */
  predicate ClassExcludes(stack: seq<ClassScope>, indent: nat, excluded: set<string>)
  {
    exists k :: 0 <= k < |stack| && stack[k].indent < indent && stack[k].markers * excluded != {}
  }

  /** The nested loops over the stack and each entry's markers, both left at the first excluded marker. */
  method ExcludedByClass(stack: seq<ClassScope>, indent: nat, excluded: set<string>) returns (found: bool)
    ensures found <==> ClassExcludes(stack, indent, excluded)
  {
    found := false;
    for k := 0 to |stack|
      invariant !found
      invariant forall l :: 0 <= l < k ==> !(stack[l].indent < indent && stack[l].markers * excluded != {})
    {
      if indent > stack[k].indent {
        var rest := stack[k].markers;
        while rest != {}
          invariant !found
          invariant rest <= stack[k].markers
          invariant (stack[k].markers - rest) * excluded == {}
          decreases |rest|
        {
          var marker :| marker in rest;
          if marker in excluded {
            found := true;
            break;
          }
          rest := rest - {marker};
        }
        if found {
          break;
        }
      }
    }
  }
}
