/**
 * Evaluation of WHERE conditions (main.go:957-1013): each condition reads a
 * field (the item itself or a metadata value shown with `%v`), applies its
 * function, is negated by NOT, and the results are folded left to right with
 * the operator each condition carries, with no precedence between AND and OR.
 */
module Conditions {
  import opened GoStrings
  import opened Values
  import opened Ast

  /** The text a condition inspects: the item, or the `%v` form of a metadata value ("" when the key is absent). */
  function FieldValue(item: string, md: Metadata, c: Condition): string {
    if c.isMetadata then (if c.field in md then Stringify(md[c.field]) else "") else item
  }

  /** Whether condition `c` is met, before NOT is applied (main.go:977-986). */
  predicate Met(item: string, md: Metadata, c: Condition) {
    var f := FieldValue(item, md, c);
    if c.fn == "CONTAINS" then Contains(ToLower(f), ToLower(c.value))
    else if c.fn == "IS" then f == c.value
    else if c.fn == "CHECKED" then Contains(f, "[x]") || Contains(f, "[X]")
    else false
  }

  /** Whether condition `c` holds for an item, NOT included (main.go:988-990). */
  function Holds(item: string, md: Metadata, c: Condition): (r: bool)
    ensures c.fn != "CONTAINS" && c.fn != "IS" && c.fn != "CHECKED" ==> r == c.negated
    ensures !c.negated ==> (r <==> Met(item, md, c))
  {
    if c.negated then !Met(item, md, c) else Met(item, md, c)
  }

  /** Folding one more result into the running one: OR is `||`, any other operator is `&&`. */
  function Combine(acc: bool, op: string, met: bool): bool {
    if op == "OR" then acc || met else acc && met
  }

  /**
   * applyConditions as a left fold: no conditions hold for every item, the
   * first condition's operator is ignored, and each later one is combined with
   * the result so far.
   */
  function Eval(item: string, md: Metadata, cs: seq<Condition>): bool {
    Fold(HoldsFor(item, md), cs)
  }

  /** Holds, for one item and its metadata. */
  function HoldsFor(item: string, md: Metadata): Condition -> bool {
    c => Holds(item, md, c)
  }

  /** The left fold of applyConditions, for the per-condition results `holds`. */
  function Fold(holds: Condition -> bool, cs: seq<Condition>): bool
    decreases |cs|
  {
    if |cs| == 0 then true
    else if |cs| == 1 then holds(cs[0])
    else Combine(Fold(holds, cs[..|cs| - 1]), cs[|cs| - 1].logicalOp, holds(cs[|cs| - 1]))
  }

  /** applyConditions, with the loop of main.go:966-997. */
  method ApplyConditions(item: string, md: Metadata, cs: seq<Condition>) returns (result: bool)
    ensures result == Eval(item, md, cs)
  {
    if |cs| == 0 {
      return true;
    }
    result := true;
    var i := 0;
    while i < |cs|
      invariant 0 <= i <= |cs|
      invariant result == Eval(item, md, cs[..i])
    {
      var met := ConditionMet(item, md, cs[i]);
      FoldSnoc(HoldsFor(item, md), cs, i);
      if i == 0 {
        result := met;
      } else if cs[i].logicalOp == "OR" {
        result := result || met;
      } else {
        result := result && met;
      }
      i := i + 1;
    }
    assert cs[..i] == cs;
  }

  /** The body of the loop of main.go:966-997 for one condition: its field, its function, then NOT. */
  method ConditionMet(item: string, md: Metadata, c: Condition) returns (met: bool)
    ensures met == Holds(item, md, c)
  {
    met := false;
    var fieldValue := "";
    if c.isMetadata {
      if c.field in md {
        fieldValue := Stringify(md[c.field]);
      }
    } else {
      fieldValue := item;
    }
    if c.fn == "CONTAINS" {
      met := Contains(ToLower(fieldValue), ToLower(c.value));
    } else if c.fn == "IS" {
      met := fieldValue == c.value;
    } else if c.fn == "CHECKED" {
      met := Contains(fieldValue, "[x]") || Contains(fieldValue, "[X]");
    }
    if c.negated {
      met := !met;
    }
  }

  /** One more condition folded into the result so far. */
  lemma FoldSnoc(holds: Condition -> bool, cs: seq<Condition>, i: nat)
    requires i < |cs|
    ensures Fold(holds, cs[..i + 1]) ==
      if i == 0 then holds(cs[0]) else Combine(Fold(holds, cs[..i]), cs[i].logicalOp, holds(cs[i]))
  {
    assert cs[..i + 1][..i] == cs[..i];
  }

  // ---------------------------------------------------------------------------
  // Properties of a single condition

  /** NOT inverts a condition, whatever its function. */
  lemma HoldsNegated(item: string, md: Metadata, c: Condition)
    ensures Holds(item, md, c.(negated := !c.negated)) == !Holds(item, md, c)
  {
  }

  /** A metadata condition on an absent key reads the field as the empty string. */
  lemma MissingFieldIsEmpty(item: string, md: Metadata, c: Condition)
    requires c.isMetadata && c.field !in md
    ensures Holds(item, md, c) == Holds("", map[], c.(isMetadata := false))
  {
  }

  lemma {:induction false} LowerUpper(s: string)
    ensures ToLower(ToUpper(s)) == ToLower(s)
  {
    assert forall k :: 0 <= k < |s| ==> ToLower(ToUpper(s))[k] == ToLower(s)[k];
  }

  /** CONTAINS ignores the case of the value searched for and of the item searched. */
  lemma ContainsIgnoresCase(item: string, md: Metadata, c: Condition)
    requires c.fn == "CONTAINS"
    ensures Holds(item, md, c.(value := ToUpper(c.value))) == Holds(item, md, c)
    ensures Holds(ToUpper(item), md, c) == Holds(item, md, c)
  {
    LowerUpper(c.value);
    LowerUpper(item);
  }

  /** IS compares exactly: a value differing only in case does not match. */
  lemma IsMatchesCase()
    ensures var c := Condition(false, false, "", "IS", "Done", "");
      Holds("Done", map[], c) && !Holds("done", map[], c)
  {
    assert "Done" != "done" by {
      assert "Done"[0] != "done"[0];
    }
  }

  // ---------------------------------------------------------------------------
  // Properties of the fold

  /** The operator of the first condition is never consulted. */
  lemma EvalFirstOperatorIgnored(item: string, md: Metadata, cs: seq<Condition>, op: string)
    requires |cs| > 0
    ensures Eval(item, md, cs[0 := cs[0].(logicalOp := op)]) == Eval(item, md, cs)
  {
    assert HoldsFor(item, md)(cs[0].(logicalOp := op)) == HoldsFor(item, md)(cs[0]);
    FoldFirstOperatorIgnored(HoldsFor(item, md), cs, op);
  }

  lemma {:induction false} FoldFirstOperatorIgnored(holds: Condition -> bool, cs: seq<Condition>, op: string)
    requires |cs| > 0 && holds(cs[0].(logicalOp := op)) == holds(cs[0])
    ensures Fold(holds, cs[0 := cs[0].(logicalOp := op)]) == Fold(holds, cs)
    decreases |cs|
  {
    var cs' := cs[0 := cs[0].(logicalOp := op)];
    if |cs| > 1 {
      assert cs'[..|cs| - 1] == cs[..|cs| - 1][0 := cs[0].(logicalOp := op)];
      FoldFirstOperatorIgnored(holds, cs[..|cs| - 1], op);
    }
  }

  /** When every later condition is joined by OR, the conditions hold iff one of them does. */
  lemma EvalAllOr(item: string, md: Metadata, cs: seq<Condition>)
    requires |cs| > 0
    requires forall k :: 1 <= k < |cs| ==> cs[k].logicalOp == "OR"
    ensures Eval(item, md, cs) <==> exists k :: 0 <= k < |cs| && Holds(item, md, cs[k])
  {
    var holds := HoldsFor(item, md);
    FoldAllOr(holds, cs);
    assert forall k :: 0 <= k < |cs| ==> holds(cs[k]) == Holds(item, md, cs[k]);
  }

  lemma {:induction false} FoldAllOr(holds: Condition -> bool, cs: seq<Condition>)
    requires |cs| > 0
    requires forall k :: 1 <= k < |cs| ==> cs[k].logicalOp == "OR"
    ensures Fold(holds, cs) <==> exists k :: 0 <= k < |cs| && holds(cs[k])
    decreases |cs|
  {
    if |cs| > 1 {
      var init := cs[..|cs| - 1];
      FoldAllOr(holds, init);
      if Fold(holds, init) {
        var k :| 0 <= k < |init| && holds(init[k]);
        assert holds(cs[k]);
      }
      if exists k :: 0 <= k < |cs| && holds(cs[k]) {
        var k :| 0 <= k < |cs| && holds(cs[k]);
        if k < |init| {
          assert holds(init[k]);
        }
      }
    } else {
      assert holds(cs[0]) ==> exists k :: 0 <= k < |cs| && holds(cs[k]);
    }
  }

  /** When no later condition is joined by OR, the conditions hold iff all of them do. */
  lemma EvalAllAnd(item: string, md: Metadata, cs: seq<Condition>)
    requires forall k :: 1 <= k < |cs| ==> cs[k].logicalOp != "OR"
    ensures Eval(item, md, cs) <==> forall k :: 0 <= k < |cs| ==> Holds(item, md, cs[k])
  {
    var holds := HoldsFor(item, md);
    FoldAllAnd(holds, cs);
    assert forall k :: 0 <= k < |cs| ==> holds(cs[k]) == Holds(item, md, cs[k]);
  }

  lemma {:induction false} FoldAllAnd(holds: Condition -> bool, cs: seq<Condition>)
    requires forall k :: 1 <= k < |cs| ==> cs[k].logicalOp != "OR"
    ensures Fold(holds, cs) <==> forall k :: 0 <= k < |cs| ==> holds(cs[k])
    decreases |cs|
  {
    if |cs| > 1 {
      var init := cs[..|cs| - 1];
      FoldAllAnd(holds, init);
      if !Fold(holds, cs) {
        if Fold(holds, init) {
          assert !holds(cs[|cs| - 1]);
        } else {
          var k :| 0 <= k < |init| && !holds(init[k]);
          assert !holds(cs[k]);
        }
      }
    }
  }

  /** There is no precedence: `a OR b AND c` is read as `(a OR b) AND c`. */
  lemma EvalLeftToRight(item: string, md: Metadata, a: Condition, b: Condition, c: Condition)
    requires b.logicalOp == "OR" && c.logicalOp == "AND"
    ensures Eval(item, md, [a, b, c]) == ((Holds(item, md, a) || Holds(item, md, b)) && Holds(item, md, c))
  {
    assert c.logicalOp != "OR" by {
      assert c.logicalOp[0] != "OR"[0];
    }
    var cs, holds := [a, b, c], HoldsFor(item, md);
    FoldSnoc(holds, cs, 0);
    FoldSnoc(holds, cs, 1);
    FoldSnoc(holds, cs, 2);
    assert cs[..1] == [a] && cs[..2] == [a, b] && cs[..3] == cs;
  }

  // ---------------------------------------------------------------------------
  // filterContent

  /** The items (and their metadata) for which the conditions hold, in their original order. */
  function Filter(items: seq<string>, mds: seq<Metadata>, cs: seq<Condition>): (r: (seq<string>, seq<Metadata>))
    requires |items| <= |mds|
    ensures |r.0| == |r.1| <= |items|
    decreases |items|
  {
    if items == [] then ([], [])
    else
      var n := |items| - 1;
      var prev := Filter(items[..n], mds, cs);
      if Eval(items[n], mds[n], cs) then (prev.0 + [items[n]], prev.1 + [mds[n]]) else prev
  }

  /** filterContent (main.go:1001-1013); the metadata list must cover every item. */
  method FilterContent(content: seq<string>, metadata: seq<Metadata>, cs: seq<Condition>)
    returns (filteredContent: seq<string>, filteredMetadata: seq<Metadata>)
    requires |content| <= |metadata|
    ensures (filteredContent, filteredMetadata) == Filter(content, metadata, cs)
  {
    filteredContent, filteredMetadata := [], [];
    var i := 0;
    while i < |content|
      invariant 0 <= i <= |content|
      invariant (filteredContent, filteredMetadata) == Filter(content[..i], metadata, cs)
    {
      assert content[..i + 1][..i] == content[..i];
      var keep := ApplyConditions(content[i], metadata[i], cs);
      if keep {
        filteredContent := filteredContent + [content[i]];
        filteredMetadata := filteredMetadata + [metadata[i]];
      }
      i := i + 1;
    }
    assert content[..i] == content;
  }

  /**
   * The filter keeps exactly the items whose conditions hold: it picks them at
   * increasing positions, each with the metadata at the same position.
   */
  lemma {:induction false} FilterIndices(items: seq<string>, mds: seq<Metadata>, cs: seq<Condition>) returns (idx: seq<nat>)
    requires |items| <= |mds|
    ensures var r := Filter(items, mds, cs);
      |idx| == |r.0| &&
      (forall k :: 0 <= k < |idx| ==> idx[k] < |items| && r.0[k] == items[idx[k]] && r.1[k] == mds[idx[k]]) &&
      (forall k, l :: 0 <= k < l < |idx| ==> idx[k] < idx[l]) &&
      (forall j :: 0 <= j < |items| ==> (Eval(items[j], mds[j], cs) <==> j in idx))
    decreases |items|
  {
    if items == [] {
      idx := [];
    } else {
      var n := |items| - 1;
      var init := items[..n];
      var prev := FilterIndices(init, mds, cs);
      assert forall j :: 0 <= j < n ==> items[j] == init[j];
      if Eval(items[n], mds[n], cs) {
        idx := prev + [n];
      } else {
        idx := prev;
      }
    }
  }

  /** Every kept item satisfies the conditions with its own metadata. */
  lemma FilterSound(items: seq<string>, mds: seq<Metadata>, cs: seq<Condition>)
    requires |items| <= |mds|
    ensures forall k :: 0 <= k < |Filter(items, mds, cs).0| ==>
      Eval(Filter(items, mds, cs).0[k], Filter(items, mds, cs).1[k], cs)
  {
    var idx := FilterIndices(items, mds, cs);
    var r := Filter(items, mds, cs);
    forall k | 0 <= k < |r.0|
      ensures Eval(r.0[k], r.1[k], cs)
    {
      assert idx[k] in idx;
    }
  }

  /** When every item satisfies the conditions, nothing is dropped. */
  lemma {:induction false} FilterKeepsAll(items: seq<string>, mds: seq<Metadata>, cs: seq<Condition>)
    requires |items| <= |mds|
    requires forall j :: 0 <= j < |items| ==> Eval(items[j], mds[j], cs)
    ensures Filter(items, mds, cs) == (items, mds[..|items|])
    decreases |items|
  {
    if items != [] {
      var n := |items| - 1;
      FilterKeepsAll(items[..n], mds, cs);
      assert items[..n] + [items[n]] == items;
      assert mds[..n] + [mds[n]] == mds[..|items|];
    }
  }

  /** Filtering twice with the same conditions changes nothing more. */
  lemma FilterIdempotent(items: seq<string>, mds: seq<Metadata>, cs: seq<Condition>)
    requires |items| <= |mds|
    ensures var r := Filter(items, mds, cs);
      Filter(r.0, r.1, cs) == r
  {
    var r := Filter(items, mds, cs);
    FilterSound(items, mds, cs);
    assert forall k :: 0 <= k < |r.0| ==> Eval(r.0[k], r.1[k], cs);
    FilterKeepsAll(r.0, r.1, cs);
    assert r.1[..|r.0|] == r.1;
  }

  /** An empty WHERE clause keeps every item. */
  lemma FilterNoConditions(items: seq<string>, mds: seq<Metadata>)
    requires |items| <= |mds|
    ensures Filter(items, mds, []) == (items, mds[..|items|])
  {
    FilterKeepsAll(items, mds, []);
  }
}
