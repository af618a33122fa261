/**
 * parseWhereClause (main.go:348-391): a flat accumulator over the tokens after
 * WHERE. Field, NOT and function tokens fill in the current condition, an
 * AND/OR token is remembered, and a STRING token or the CHECKED keyword closes
 * the condition. The scan stops at the first GROUP token or the first token
 * whose text is LIMIT.
 */
module Where {
  import opened Lexer
  import opened Ast

  /** The tokens that end the WHERE clause (main.go:357, 383-385). */
  predicate StopsWhere(t: Token) {
    t.value == "LIMIT" || t.kind == Group
  }

  /** The tokens that close the current condition (main.go:367-381). */
  predicate ClosesCondition(t: Token) {
    t.kind == String || (t.kind == Keyword && t.value == "CHECKED")
  }

  /** The closed conditions, the open one, and the last AND/OR since the last close. */
  datatype WhereState = WhereState(conds: seq<Condition>, current: Condition, logicalOp: string)

  const WhereStart := WhereState([], EmptyCondition, "")

  /** One iteration of the switch of main.go:358-382. */
  function WhereStep(ws: WhereState, t: Token): WhereState {
    var c := ws.current;
    match t.kind
    case Metadata => ws.(current := c.(isMetadata := true, field := t.value))
    case Not => ws.(current := c.(negated := true))
    case Function => ws.(current := c.(fn := t.value))
    case String => WhereState(ws.conds + [c.(value := t.value, logicalOp := ws.logicalOp)], EmptyCondition, "")
    case LogicalOp => ws.(logicalOp := t.value)
    case Keyword =>
      if t.value == "CHECKED" then WhereState(ws.conds + [c.(fn := "CHECKED", logicalOp := ws.logicalOp)], EmptyCondition, "")
      else ws
    case _ => ws
  }

  /** The accumulator after the tokens `ts`. */
  function WhereRun(ts: seq<Token>): WhereState
    decreases |ts|
  {
    if ts == [] then WhereStart else WhereStep(WhereRun(ts[..|ts| - 1]), ts[|ts| - 1])
  }

  /** The index of the first token that ends the clause, or the length of the slice. */
  function WhereStop(ts: seq<Token>): (k: nat)
    ensures k <= |ts|
    ensures forall j :: 0 <= j < k ==> !StopsWhere(ts[j])
    ensures k < |ts| ==> StopsWhere(ts[k])
    decreases |ts|
  {
    if ts == [] || StopsWhere(ts[0]) then 0 else 1 + WhereStop(ts[1..])
  }

  /** What parseWhereClause returns: the closed conditions and the index where it stopped. */
  function WhereClause(ts: seq<Token>): (seq<Condition>, nat) {
    var k := WhereStop(ts);
    (WhereRun(ts[..k]).conds, k)
  }

  /** parseWhereClause: never fails; it returns the conditions closed before the stop token and that token's index. */
  method ParseWhereClause(tokens: seq<Token>) returns (conds: seq<Condition>, stop: nat)
    ensures stop <= |tokens|
    ensures forall j :: 0 <= j < stop ==> !StopsWhere(tokens[j])
    ensures stop < |tokens| ==> StopsWhere(tokens[stop])
    ensures (conds, stop) == WhereClause(tokens)
  {
    var i := 0;
    var current := EmptyCondition;
    var logicalOp := "";
    conds := [];
    while i < |tokens| && tokens[i].value != "LIMIT"
      invariant i <= |tokens|
      invariant forall j :: 0 <= j < i ==> !StopsWhere(tokens[j])
      invariant WhereState(conds, current, logicalOp) == WhereRun(tokens[..i])
    {
      var t := tokens[i];
      var gotGroup := false;
      assert tokens[..i + 1][..i] == tokens[..i];
      match t.kind {
        case Group =>
          gotGroup := true;
        case Metadata =>
          current := current.(isMetadata := true, field := t.value);
        case Not =>
          current := current.(negated := true);
        case Function =>
          current := current.(fn := t.value);
        case String =>
          conds := conds + [current.(value := t.value, logicalOp := logicalOp)];
          current := EmptyCondition;
          logicalOp := "";
        case LogicalOp =>
          logicalOp := t.value;
        case Keyword =>
          if t.value == "CHECKED" {
            conds := conds + [current.(fn := "CHECKED", logicalOp := logicalOp)];
            current := EmptyCondition;
            logicalOp := "";
          }
        case _ =>
      }
      if gotGroup {
        break;
      }
      i := i + 1;
    }
    stop := i;
    WhereStopIs(tokens, stop);
  }

  lemma {:induction false} WhereStopIs(ts: seq<Token>, k: nat)
    requires k <= |ts|
    requires forall j :: 0 <= j < k ==> !StopsWhere(ts[j])
    requires k < |ts| ==> StopsWhere(ts[k])
    ensures WhereStop(ts) == k
    decreases k
  {
    if k > 0 {
      WhereStopIs(ts[1..], k - 1);
    }
  }

  // ---------------------------------------------------------------------------
  // Independent descriptions of the accumulator

  /** The number of tokens in `ts` that close a condition. */
  function CountClosers(ts: seq<Token>): nat
    decreases |ts|
  {
    if ts == [] then 0
    else CountClosers(ts[..|ts| - 1]) + (if ClosesCondition(ts[|ts| - 1]) then 1 else 0)
  }

  /** The tokens after the last closing token (all of `ts` when none closes). */
  function SinceClose(ts: seq<Token>): (seg: seq<Token>)
    ensures forall k :: 0 <= k < |seg| ==> !ClosesCondition(seg[k])
    decreases |ts|
  {
    if ts == [] then []
    else if ClosesCondition(ts[|ts| - 1]) then []
    else SinceClose(ts[..|ts| - 1]) + [ts[|ts| - 1]]
  }

  predicate HasKind(seg: seq<Token>, kind: TokenType) {
    exists k :: 0 <= k < |seg| && seg[k].kind == kind
  }

  /** The text of the last token of `kind` in `seg`, or "" when there is none. */
  function LastValue(seg: seq<Token>, kind: TokenType): string
    decreases |seg|
  {
    if seg == [] then ""
    else if seg[|seg| - 1].kind == kind then seg[|seg| - 1].value
    else LastValue(seg[..|seg| - 1], kind)
  }

  /** The open condition as the tokens since the last close describe it. */
  function Pending(seg: seq<Token>): Condition {
    Condition(HasKind(seg, Not), HasKind(seg, Metadata), LastValue(seg, Metadata), LastValue(seg, Function), "", "")
  }

  /** The condition that closing token `t` produces after the tokens `ts`. */
  function Closed(ts: seq<Token>, t: Token): Condition {
    var seg := SinceClose(ts);
    var c := Pending(seg);
    if t.kind == String then c.(value := t.value, logicalOp := LastValue(seg, LogicalOp))
    else c.(fn := "CHECKED", logicalOp := LastValue(seg, LogicalOp))
  }

  lemma {:induction false} HasKindSnoc(seg: seq<Token>, t: Token, kind: TokenType)
    ensures HasKind(seg + [t], kind) == (HasKind(seg, kind) || t.kind == kind)
  {
    if HasKind(seg + [t], kind) && t.kind != kind {
      var k :| 0 <= k < |seg + [t]| && (seg + [t])[k].kind == kind;
      assert seg[k].kind == kind;
    }
    if HasKind(seg, kind) {
      var k :| 0 <= k < |seg| && seg[k].kind == kind;
      assert (seg + [t])[k].kind == kind;
    }
    if t.kind == kind {
      assert (seg + [t])[|seg|].kind == kind;
    }
  }

  lemma {:induction false} LastValueSnoc(seg: seq<Token>, t: Token, kind: TokenType)
    ensures LastValue(seg + [t], kind) == if t.kind == kind then t.value else LastValue(seg, kind)
  {
    assert (seg + [t])[..|seg|] == seg;
  }

  /**
   * The open condition is negated iff a NOT token came since the last close,
   * is a metadata condition iff a field token came, and carries the last field,
   * the last function and the last AND/OR seen since then.
   */
  lemma {:induction false} WhereOpen(ts: seq<Token>)
    ensures WhereRun(ts).current == Pending(SinceClose(ts))
    ensures WhereRun(ts).logicalOp == LastValue(SinceClose(ts), LogicalOp)
    decreases |ts|
  {
    if ts != [] {
      var init, t := ts[..|ts| - 1], ts[|ts| - 1];
      WhereOpen(init);
      assert WhereRun(ts) == WhereStep(WhereRun(init), t);
      if !ClosesCondition(t) {
        assert SinceClose(ts) == SinceClose(init) + [t];
        WhereOpenStep(WhereRun(init), SinceClose(init), t);
      } else {
        var none: seq<Token> := [];
        assert SinceClose(ts) == none;
        assert !HasKind(none, Not) && !HasKind(none, Metadata);
      }
    }
  }

  /** A token that does not close the condition extends the tokens since the last close. */
  lemma WhereOpenStep(ws: WhereState, seg: seq<Token>, t: Token)
    requires ws.current == Pending(seg) && ws.logicalOp == LastValue(seg, LogicalOp)
    requires !ClosesCondition(t)
    ensures WhereStep(ws, t).current == Pending(seg + [t])
    ensures WhereStep(ws, t).logicalOp == LastValue(seg + [t], LogicalOp)
  {
    HasKindSnoc(seg, t, Not);
    HasKindSnoc(seg, t, Metadata);
    LastValueSnoc(seg, t, Metadata);
    LastValueSnoc(seg, t, Function);
    LastValueSnoc(seg, t, LogicalOp);
  }

  /** A closing token appends exactly one condition, built from the tokens since the previous close. */
  lemma {:induction false} WhereClose(ts: seq<Token>, t: Token)
    requires ClosesCondition(t)
    ensures WhereRun(ts + [t]).conds == WhereRun(ts).conds + [Closed(ts, t)]
  {
    assert (ts + [t])[..|ts|] == ts;
    WhereOpen(ts);
  }

  /** Any other token leaves the closed conditions alone. */
  lemma {:induction false} WhereNoClose(ts: seq<Token>, t: Token)
    requires !ClosesCondition(t)
    ensures WhereRun(ts + [t]).conds == WhereRun(ts).conds
  {
    assert (ts + [t])[..|ts|] == ts;
  }

  /** One condition per closing token: an unclosed trailing condition is dropped. */
  lemma {:induction false} WhereCount(ts: seq<Token>)
    ensures |WhereRun(ts).conds| == CountClosers(ts)
    decreases |ts|
  {
    if ts != [] {
      var init := ts[..|ts| - 1];
      WhereCount(init);
      assert init + [ts[|ts| - 1]] == ts;
      if ClosesCondition(ts[|ts| - 1]) {
        WhereClose(init, ts[|ts| - 1]);
      } else {
        WhereNoClose(init, ts[|ts| - 1]);
      }
    }
  }

  /** The clause has as many conditions as closing tokens before its stop token. */
  lemma WhereClauseCount(ts: seq<Token>)
    ensures |WhereClause(ts).0| == CountClosers(ts[..WhereStop(ts)])
  {
    WhereCount(ts[..WhereStop(ts)]);
  }
}
