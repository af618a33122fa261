/**
 * The list extractors (main.go:793-877). Each collects the lines of the
 * current item and emits the item, joined with newlines, when the next item
 * starts or the list ends.
 */
module Lists {
  import opened GoStrings
  import opened Extract

  /** The items as Go emits them: each group of lines joined with newlines. */
  function JoinAll(groups: seq<seq<string>>): (r: seq<string>)
    ensures |r| == |groups|
    decreases |groups|
  {
    if groups == [] then [] else JoinAll(groups[..|groups| - 1]) + [Join(groups[|groups| - 1], "\n")]
  }

  lemma {:induction false} JoinAllSnoc(groups: seq<seq<string>>, g: seq<string>)
    ensures JoinAll(groups + [g]) == JoinAll(groups) + [Join(g, "\n")]
  {
    assert (groups + [g])[..|groups|] == groups;
  }

  lemma {:induction false} JoinAllAt(groups: seq<seq<string>>, k: nat)
    requires k < |groups|
    ensures JoinAll(groups)[k] == Join(groups[k], "\n")
    decreases |groups|
  {
    if k < |groups| - 1 {
      JoinAllAt(groups[..|groups| - 1], k);
    }
  }

  /** A joined item starts with its first line. */
  lemma {:induction false} JoinStartsWith(g: seq<string>)
    requires |g| > 0
    ensures HasPrefix(Join(g, "\n"), g[0])
    decreases |g|
  {
    if |g| > 1 {
      JoinStartsWith(g[..|g| - 1]);
      assert g[..|g| - 1][0] == g[0];
    }
  }

  // ---------------------------------------------------------------------------
  // parseUnorderedLists (main.go:793-835)

  /** A line whose trimmed text opens an unordered item: a dash, but not a checkbox and not `---`. */
  predicate IsBulletLine(trimmed: string) {
    HasPrefix(trimmed, "-") && !HasPrefix(trimmed, "- [") && trimmed != "---"
  }

  /**
   * The scanner state; the last `trailing` lines of `current` are the blank
   * lines seen since the last line of the item.
   */
  datatype BulletState = BulletState(items: seq<seq<string>>, current: seq<string>, inList: bool, indent: int, trailing: nat)

  /** The current item without its pending blank lines. */
  function Body(st: BulletState): seq<string>
    requires st.trailing <= |st.current|
  {
    st.current[..|st.current| - st.trailing]
  }

  /** The items with the current one emitted, when there is one. */
  function BulletFlush(st: BulletState): seq<seq<string>>
    requires st.trailing <= |st.current|
  {
    if |st.current| > 0 then st.items + [Body(st)] else st.items
  }

  /** One iteration of the loop of main.go:800-832, before the end-of-input check. */
  function BulletStep(st: BulletState, line: string): (r: BulletState)
    requires st.trailing <= |st.current|
    ensures r.trailing <= |r.current|
  {
    var trimmed := TrimSpace(line);
    if IsBulletLine(trimmed) then
      BulletState(BulletFlush(st), [line], true, |line| - |trimmed|, 0)
    else if st.inList && (HasPrefix(trimmed, "-") || LeadingBlanks(line) > st.indent) then
      st.(current := Body(st) + [line], trailing := 0)
    else if st.inList && trimmed == "" then
      st.(current := st.current + [line], trailing := st.trailing + 1)
    else
      BulletState(BulletFlush(st), [], false, 0, 0)
  }

  function BulletRun(lines: seq<string>): (r: BulletState)
    ensures r.trailing <= |r.current|
    decreases |lines|
  {
    if lines == [] then BulletState([], [], false, 0, 0)
    else BulletStep(BulletRun(lines[..|lines| - 1]), lines[|lines| - 1])
  }

  lemma BulletRunSnoc(lines: seq<string>, i: nat)
    requires i < |lines|
    ensures BulletRun(lines[..i + 1]) == BulletStep(BulletRun(lines[..i]), lines[i])
  {
    assert lines[..i + 1][..i] == lines[..i];
  }

  /** The line groups of the items parseUnorderedLists returns: the last item is emitted at the end of the input. */
  function BulletGroups(lines: seq<string>): seq<seq<string>> {
    BulletFlush(BulletRun(lines))
  }

  /** parseUnorderedLists. */
  method ParseUnorderedLists(lines: seq<string>) returns (items: seq<string>)
    ensures items == JoinAll(BulletGroups(lines))
  {
    items := [];
    var currentItem: seq<string> := [];
    var inList := false;
    var indentLevel := 0;
    var trailingEmptyLines: nat := 0;
    ghost var st := BulletState([], [], false, 0, 0);
    assert lines[..0] == [];
    var i := 0;
    while i < |lines|
      invariant 0 <= i <= |lines|
      invariant st == BulletRun(lines[..i])
      invariant currentItem == st.current && inList == st.inList && indentLevel == st.indent && trailingEmptyLines == st.trailing
      invariant items == JoinAll(if i == |lines| && i > 0 then BulletFlush(st) else st.items)
    {
      BulletRunSnoc(lines, i);
      items, currentItem, inList, indentLevel, trailingEmptyLines :=
        BulletLine(items, st, currentItem, inList, indentLevel, trailingEmptyLines, lines[i]);
      st := BulletStep(st, lines[i]);
      items := EndOfInput(items, st, currentItem, trailingEmptyLines, i == |lines| - 1);
      i := i + 1;
    }
    assert lines[..i] == lines;
  }

  /** The end-of-input check of main.go:826-829: after the last line, the current item is emitted. */
  method EndOfInput(items: seq<string>, ghost st: BulletState, currentItem: seq<string>, trailingEmptyLines: nat, last: bool)
    returns (items': seq<string>)
    requires st.trailing <= |st.current| && currentItem == st.current && trailingEmptyLines == st.trailing
    requires items == JoinAll(st.items)
    ensures items' == JoinAll(if last then BulletFlush(st) else st.items)
  {
    items' := items;
    if last && |currentItem| > 0 {
      JoinAllSnoc(st.items, Body(st));
      items' := items + [Join(currentItem[..|currentItem| - trailingEmptyLines], "\n")];
    }
  }

  /**
   * The body of the loop of main.go:801-824 for one line: a bullet line opens
   * a new item, a continuation or blank line inside a list extends the current
   * one, and any other line ends the list.
   */
  method BulletLine(items: seq<string>, ghost st: BulletState, currentItem: seq<string>, inList: bool, indentLevel: int, trailingEmptyLines: nat, line: string)
    returns (items': seq<string>, currentItem': seq<string>, inList': bool, indentLevel': int, trailingEmptyLines': nat)
    requires currentItem == st.current && inList == st.inList && indentLevel == st.indent && trailingEmptyLines == st.trailing
    requires trailingEmptyLines <= |currentItem| && items == JoinAll(st.items)
    ensures var next := BulletStep(st, line);
      currentItem' == next.current && inList' == next.inList && indentLevel' == next.indent &&
      trailingEmptyLines' == next.trailing && items' == JoinAll(next.items)
  {
    var trimmedLine := TrimSpace(line);
    if HasPrefix(trimmedLine, "-") && !HasPrefix(trimmedLine, "- [") && trimmedLine != "---" {
      assert BulletStep(st, line) == BulletState(BulletFlush(st), [line], true, |line| - |trimmedLine|, 0);
      items', currentItem', trailingEmptyLines' := FlushBullet(items, st, currentItem, trailingEmptyLines);
      currentItem' := currentItem' + [line];
      inList' := true;
      indentLevel' := |line| - |trimmedLine|;
    } else if inList && (HasPrefix(trimmedLine, "-") || LeadingBlanks(line) > indentLevel || trimmedLine == "") {
      items' := items;
      currentItem', trailingEmptyLines' := ExtendItem(st, currentItem, indentLevel, trailingEmptyLines, line, trimmedLine);
      inList', indentLevel' := inList, indentLevel;
    } else {
      assert BulletStep(st, line) == BulletState(BulletFlush(st), [], false, 0, 0);
      items', currentItem', trailingEmptyLines' := FlushBullet(items, st, currentItem, trailingEmptyLines);
      inList' := false;
      indentLevel' := 0;
    }
  }

  /**
   * A continuation line drops the pending blank lines and joins the current
   * item; a blank line joins it as pending (main.go:811-817).
   */
  method ExtendItem(ghost st: BulletState, currentItem: seq<string>, indentLevel: int, trailingEmptyLines: nat, line: string, trimmedLine: string)
    returns (currentItem': seq<string>, trailingEmptyLines': nat)
    requires currentItem == st.current && indentLevel == st.indent && trailingEmptyLines == st.trailing
    requires trailingEmptyLines <= |currentItem|
    requires trimmedLine == TrimSpace(line) && !IsBulletLine(trimmedLine) && st.inList
    requires HasPrefix(trimmedLine, "-") || LeadingBlanks(line) > indentLevel || trimmedLine == ""
    ensures var next := BulletStep(st, line);
      next.items == st.items && next.inList && next.indent == st.indent &&
      currentItem' == next.current && trailingEmptyLines' == next.trailing
  {
    if HasPrefix(trimmedLine, "-") || LeadingBlanks(line) > indentLevel {
      currentItem' := currentItem[..|currentItem| - trailingEmptyLines] + [line];
      trailingEmptyLines' := 0;
    } else {
      currentItem' := currentItem + [line];
      trailingEmptyLines' := trailingEmptyLines + 1;
    }
  }

  /** Emits the current item, without its pending blank lines, when there is one (main.go:803-807 and 818-822). */
  method FlushBullet(items: seq<string>, ghost st: BulletState, currentItem: seq<string>, trailingEmptyLines: nat)
    returns (items': seq<string>, currentItem': seq<string>, trailingEmptyLines': nat)
    requires currentItem == st.current && trailingEmptyLines == st.trailing
    requires trailingEmptyLines <= |currentItem| && items == JoinAll(st.items)
    ensures items' == JoinAll(BulletFlush(st))
    ensures |currentItem| > 0 ==> currentItem' == [] && trailingEmptyLines' == 0
    ensures |currentItem| == 0 ==> currentItem' == currentItem && trailingEmptyLines' == trailingEmptyLines
  {
    items', currentItem', trailingEmptyLines' := items, currentItem, trailingEmptyLines;
    if |currentItem| > 0 {
      JoinAllSnoc(st.items, Body(st));
      items' := items + [Join(currentItem[..|currentItem| - trailingEmptyLines], "\n")];
      currentItem' := [];
      trailingEmptyLines' := 0;
    }
  }

  /** A finished unordered item: it opens with a bullet line and has no empty line. */
  predicate BulletItem(g: seq<string>) {
    |g| > 0 && IsBulletLine(TrimSpace(g[0])) && forall k :: 0 <= k < |g| ==> g[k] != ""
  }

  /** What the scanner keeps true after every line. */
  predicate BulletInv(st: BulletState) {
    && st.trailing <= |st.current|
    && st.indent >= 0
    && (forall j :: 0 <= j < |st.items| ==> BulletItem(st.items[j]))
    && (st.inList ==> st.trailing < |st.current| && BulletItem(Body(st)))
    && (!st.inList ==> st.current == [] && st.trailing == 0)
  }

  /** Emitting the current item keeps every emitted item well formed. */
  lemma BulletFlushInv(st: BulletState)
    requires BulletInv(st)
    ensures forall j :: 0 <= j < |BulletFlush(st)| ==> BulletItem(BulletFlush(st)[j])
  {
  }

  lemma BulletStepInv(st: BulletState, line: string)
    requires BulletInv(st)
    ensures BulletInv(BulletStep(st, line))
  {
    var trimmed := TrimSpace(line);
    if IsBulletLine(trimmed) {
      BulletOpenInv(st, line);
    } else if st.inList && (HasPrefix(trimmed, "-") || LeadingBlanks(line) > st.indent) {
      BulletContinueInv(st, line);
    } else if st.inList && trimmed == "" {
      BulletBlankInv(st, line);
    } else {
      BulletFlushInv(st);
      assert BulletStep(st, line) == BulletState(BulletFlush(st), [], false, 0, 0);
    }
  }

  /** A bullet line emits the current item and opens a new one. */
  lemma BulletOpenInv(st: BulletState, line: string)
    requires BulletInv(st) && IsBulletLine(TrimSpace(line))
    ensures BulletInv(BulletStep(st, line))
  {
    var trimmed := TrimSpace(line);
    BulletFlushInv(st);
    var r := BulletState(BulletFlush(st), [line], true, |line| - |trimmed|, 0);
    assert BulletStep(st, line) == r;
    assert Body(r) == [line];
    assert BulletItem([line]);
  }

  /** A continuation line drops the pending blank lines and joins the item. */
  lemma BulletContinueInv(st: BulletState, line: string)
    requires BulletInv(st) && !IsBulletLine(TrimSpace(line)) && st.inList
    requires HasPrefix(TrimSpace(line), "-") || LeadingBlanks(line) > st.indent
    ensures BulletInv(BulletStep(st, line))
  {
    assert BulletStep(st, line) == st.(current := Body(st) + [line], trailing := 0);
    assert line != "" by {
      assert TrimSpace("") == "" && LeadingBlanks("") == 0;
    }
    BulletExtendInv(st, line);
  }

  lemma BulletExtendInv(st: BulletState, line: string)
    requires BulletInv(st) && st.inList && line != ""
    ensures BulletInv(st.(current := Body(st) + [line], trailing := 0))
  {
    var r := st.(current := Body(st) + [line], trailing := 0);
    assert Body(r) == Body(st) + [line];
    assert (Body(st) + [line])[0] == Body(st)[0];
  }

  /** A blank line inside a list is kept pending. */
  lemma BulletBlankInv(st: BulletState, line: string)
    requires BulletInv(st) && st.inList && TrimSpace(line) == "" && LeadingBlanks(line) <= st.indent
    ensures BulletInv(BulletStep(st, line))
  {
    var r := st.(current := st.current + [line], trailing := st.trailing + 1);
    assert BulletStep(st, line) == r;
    assert Body(r) == Body(st);
  }

  lemma {:induction false} BulletRunInv(lines: seq<string>)
    ensures BulletInv(BulletRun(lines))
    decreases |lines|
  {
    if lines != [] {
      BulletRunInv(lines[..|lines| - 1]);
      BulletStepInv(BulletRun(lines[..|lines| - 1]), lines[|lines| - 1]);
    }
  }

  /**
   * Every item parseUnorderedLists returns starts with a bullet line and holds
   * no empty line: blank lines between the parts of an item are dropped when the
   * item continues, and blank lines at its end are dropped when it is emitted.
   */
  lemma BulletItems(lines: seq<string>)
    ensures forall j :: 0 <= j < |BulletGroups(lines)| ==> BulletItem(BulletGroups(lines)[j])
  {
    BulletRunInv(lines);
    BulletFlushInv(BulletRun(lines));
  }

  /** Every returned item text starts with its bullet line. */
  lemma BulletItemTexts(lines: seq<string>, j: nat)
    requires j < |BulletGroups(lines)|
    ensures var g := BulletGroups(lines)[j];
      |g| > 0 && HasPrefix(JoinAll(BulletGroups(lines))[j], g[0]) && IsBulletLine(TrimSpace(g[0]))
  {
    BulletItems(lines);
    JoinAllAt(BulletGroups(lines), j);
    JoinStartsWith(BulletGroups(lines)[j]);
  }

  // ---------------------------------------------------------------------------
  // parseOrderedLists (main.go:837-877)

  datatype NumberedState = NumberedState(items: seq<seq<string>>, current: seq<string>, inList: bool, indent: int)

  function NumberedFlush(st: NumberedState): seq<seq<string>> {
    if |st.current| > 0 then st.items + [st.current] else st.items
  }

  /** One iteration of the loop of main.go:843-870. */
  function NumberedStep(st: NumberedState, line: string): NumberedState {
    var trimmed := TrimSpace(line);
    if IsOrderedItem(trimmed) && (!st.inList || LeadingBlanks(line) <= st.indent) then
      NumberedState(NumberedFlush(st), [line], true, |line| - |trimmed|)
    else if trimmed == "" && st.inList then
      NumberedState(NumberedFlush(st), [], false, 0)
    else if st.inList && (HasPrefix(trimmed, "") || LeadingBlanks(line) > st.indent) then
      st.(current := st.current + [line])
    else
      NumberedState(NumberedFlush(st), [], false, 0)
  }

  function NumberedRun(lines: seq<string>): NumberedState
    decreases |lines|
  {
    if lines == [] then NumberedState([], [], false, 0)
    else NumberedStep(NumberedRun(lines[..|lines| - 1]), lines[|lines| - 1])
  }

  /** The line groups of the items parseOrderedLists returns. */
  function NumberedGroups(lines: seq<string>): seq<seq<string>> {
    NumberedFlush(NumberedRun(lines))
  }

  /** parseOrderedLists. */
  method ParseOrderedLists(lines: seq<string>) returns (items: seq<string>)
    ensures items == JoinAll(NumberedGroups(lines))
  {
    items := [];
    var currentItem: seq<string> := [];
    var inList := false;
    var indentLevel := 0;
    ghost var st := NumberedState([], [], false, 0);
    assert lines[..0] == [];
    var i := 0;
    while i < |lines|
      invariant 0 <= i <= |lines|
      invariant st == NumberedRun(lines[..i])
      invariant currentItem == st.current && inList == st.inList && indentLevel == st.indent
      invariant items == JoinAll(st.items)
    {
      ghost var next := NumberedStep(st, lines[i]);
      assert next == NumberedRun(lines[..i + 1]) by {
        assert lines[..i + 1][..i] == lines[..i];
      }
      items, currentItem, inList, indentLevel := NumberedLine(items, st.items, currentItem, inList, indentLevel, lines[i]);
      st := next;
      i := i + 1;
    }
    assert lines[..i] == lines;
    items, currentItem := FlushNumbered(items, st, currentItem);
  }

  /** The body of the loop of main.go:844-869 for one line: the four cases of the line. */
  method NumberedLine(items: seq<string>, ghost groups: seq<seq<string>>, currentItem: seq<string>, inList: bool, indentLevel: int, line: string)
    returns (items': seq<string>, currentItem': seq<string>, inList': bool, indentLevel': int)
    requires items == JoinAll(groups)
    ensures var next := NumberedStep(NumberedState(groups, currentItem, inList, indentLevel), line);
      currentItem' == next.current && inList' == next.inList && indentLevel' == next.indent &&
      items' == JoinAll(next.items)
  {
    ghost var st := NumberedState(groups, currentItem, inList, indentLevel);
    ghost var next := NumberedStep(st, line);
    var trimmedLine := TrimSpace(line);
    if IsOrderedItem(trimmedLine) && (!inList || LeadingBlanks(line) <= indentLevel) {
      assert next == NumberedState(NumberedFlush(st), [line], true, |line| - |trimmedLine|);
      items', currentItem' := FlushNumbered(items, st, currentItem);
      currentItem' := currentItem' + [line];
      inList' := true;
      indentLevel' := |line| - |trimmedLine|;
    } else if trimmedLine == "" && inList {
      assert next == NumberedState(NumberedFlush(st), [], false, 0);
      items', currentItem' := FlushNumbered(items, st, currentItem);
      inList' := false;
      indentLevel' := 0;
    } else if inList && (HasPrefix(trimmedLine, "") || LeadingBlanks(line) > indentLevel) {
      assert next == st.(current := st.current + [line]);
      assert next.items == groups;
      items', inList', indentLevel' := items, inList, indentLevel;
      currentItem' := currentItem + [line];
    } else {
      assert next == NumberedState(NumberedFlush(st), [], false, 0);
      items', currentItem' := FlushNumbered(items, st, currentItem);
      inList' := false;
      indentLevel' := 0;
    }
  }

  /** Emits the current item when there is one (main.go:846-849, 854-857, 862-865 and 873-875). */
  method FlushNumbered(items: seq<string>, ghost st: NumberedState, currentItem: seq<string>)
    returns (items': seq<string>, currentItem': seq<string>)
    requires currentItem == st.current && items == JoinAll(st.items)
    ensures items' == JoinAll(NumberedFlush(st))
    ensures currentItem' == []
  {
    items', currentItem' := items, currentItem;
    if |currentItem| > 0 {
      JoinAllSnoc(st.items, currentItem);
      items' := items + [Join(currentItem, "\n")];
      currentItem' := [];
    }
  }

  /** A finished ordered item: it opens with a numbered line and has no blank line. */
  predicate NumberedItem(g: seq<string>) {
    |g| > 0 && IsOrderedItem(TrimSpace(g[0])) && forall k :: 0 <= k < |g| ==> TrimSpace(g[k]) != ""
  }

  predicate NumberedInv(st: NumberedState) {
    && (forall j :: 0 <= j < |st.items| ==> NumberedItem(st.items[j]))
    && (st.inList ==> NumberedItem(st.current))
    && (!st.inList ==> st.current == [])
  }

  lemma NumberedStepInv(st: NumberedState, line: string)
    requires NumberedInv(st)
    ensures NumberedInv(NumberedStep(st, line))
  {
    var trimmed := TrimSpace(line);
    if IsOrderedItem(trimmed) && (!st.inList || LeadingBlanks(line) <= st.indent) {
      assert NumberedStep(st, line) == NumberedState(NumberedFlush(st), [line], true, |line| - |trimmed|);
      NumberedOpenInv(st, line, |line| - |trimmed|);
    } else if trimmed == "" && st.inList {
      assert NumberedStep(st, line) == NumberedState(NumberedFlush(st), [], false, 0);
      NumberedCloseInv(st);
    } else if st.inList && (HasPrefix(trimmed, "") || LeadingBlanks(line) > st.indent) {
      NumberedContinueInv(st, line);
    } else {
      assert NumberedStep(st, line) == NumberedState(NumberedFlush(st), [], false, 0);
      NumberedCloseInv(st);
    }
  }

  /** A numbered line emits the current item and opens a new one. */
  lemma NumberedOpenInv(st: NumberedState, line: string, indent: int)
    requires NumberedInv(st) && IsOrderedItem(TrimSpace(line))
    ensures NumberedInv(NumberedState(NumberedFlush(st), [line], true, indent))
  {
    NumberedFlushInv(st);
    assert TrimSpace(line) != "";
  }

  /** A line that ends the list emits the current item. */
  lemma NumberedCloseInv(st: NumberedState)
    requires NumberedInv(st)
    ensures NumberedInv(NumberedState(NumberedFlush(st), [], false, 0))
  {
    NumberedFlushInv(st);
  }

  /** Emitting the current item keeps every emitted item well formed. */
  lemma NumberedFlushInv(st: NumberedState)
    requires NumberedInv(st)
    ensures forall j :: 0 <= j < |NumberedFlush(st)| ==> NumberedItem(NumberedFlush(st)[j])
  {
  }

  /** A line that is neither blank nor a new item at the item's indent joins the current item. */
  lemma NumberedContinueInv(st: NumberedState, line: string)
    requires NumberedInv(st) && st.inList && TrimSpace(line) != ""
    requires !(IsOrderedItem(TrimSpace(line)) && LeadingBlanks(line) <= st.indent)
    ensures NumberedInv(NumberedStep(st, line))
  {
    var r := st.(current := st.current + [line]);
    assert NumberedStep(st, line) == r by {
      NumberedContinuation(st, line);
    }
    assert r.current[0] == st.current[0];
  }

  lemma {:induction false} NumberedRunInv(lines: seq<string>)
    ensures NumberedInv(NumberedRun(lines))
    decreases |lines|
  {
    if lines != [] {
      NumberedRunInv(lines[..|lines| - 1]);
      NumberedStepInv(NumberedRun(lines[..|lines| - 1]), lines[|lines| - 1]);
    }
  }

  /** Every item parseOrderedLists returns starts with a `^\d+\.\s` line and holds no blank line. */
  lemma NumberedItems(lines: seq<string>)
    ensures forall j :: 0 <= j < |NumberedGroups(lines)| ==> NumberedItem(NumberedGroups(lines)[j])
  {
    NumberedRunInv(lines);
    NumberedFlushInv(NumberedRun(lines));
  }

  /**
   * Inside a list, a line that is not blank and does not open a new item at the
   * same or a shallower indent is always added to the current item, however it
   * is indented: the prefix test of main.go:859 accepts every line.
   */
  lemma NumberedContinuation(st: NumberedState, line: string)
    requires st.inList && TrimSpace(line) != ""
    requires !(IsOrderedItem(TrimSpace(line)) && LeadingBlanks(line) <= st.indent)
    ensures NumberedStep(st, line) == st.(current := st.current + [line])
  {
    assert TrimSpace(line)[..0] == "";
  }
}
