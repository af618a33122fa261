/**
 * What Parse promises about the queries it accepts and the errors it reports
 * (main.go:207-325), stated over token streams as Lex produces them.
 */
module ParserFacts {
  import opened Common
  import opened GoStrings
  import opened Lexer
  import opened Ast
  import opened Parser

  // ---------------------------------------------------------------------------
  // Sources: only STRING tokens count

  /** The texts of the STRING tokens of `ts`, in order. */
  function StringValues(ts: seq<Token>): seq<string>
    decreases |ts|
  {
    if ts == [] then []
    else (if ts[0].kind == String then [ts[0].value] else []) + StringValues(ts[1..])
  }

  /**
   * The source loop collects the texts of the STRING tokens up to the first
   * keyword or GROUP token and skips every other token.
   */
  lemma {:induction false} SourcesRun(tokens: seq<Token>, i: nat, j: nat, acc: seq<string>)
    requires i <= j <= |tokens|
    requires forall k :: i <= k < j ==> !EndsSources(tokens[k])
    requires j == |tokens| || EndsSources(tokens[j])
    ensures SourcesFrom(tokens, i, acc) == (acc + StringValues(tokens[i..j]), j)
    decreases j - i
  {
    if i < j {
      var piece := if tokens[i].kind == String then [tokens[i].value] else [];
      var next := if tokens[i].kind == String then acc + [tokens[i].value] else acc;
      assert next == acc + piece;
      SourcesRun(tokens, i + 1, j, next);
      assert tokens[i..j][0] == tokens[i] && tokens[i..j][1..] == tokens[i + 1..j];
      assert StringValues(tokens[i..j]) == piece + StringValues(tokens[i + 1..j]);
      assert acc + piece + StringValues(tokens[i + 1..j]) == acc + (piece + StringValues(tokens[i + 1..j]));
    } else {
      assert tokens[i..j] == [];
      assert acc + [] == acc;
    }
  }

  // ---------------------------------------------------------------------------
  // Facts about every accepted query

  /** A query is only accepted when some token reads FROM. */
  lemma ParseNeedsFrom(tokens: seq<Token>)
    requires EndsWithSingleEof(tokens)
    requires ParseQuery(tokens).Ok?
    ensures exists k :: 0 <= k < |tokens| && tokens[k].value == "FROM"
  {
    var (qtype, i0) := ParseHead(tokens).value;
    var cols := if qtype == TableQuery || qtype == TableNoIdQuery then ColumnsFrom(tokens, i0, []) else Ok(([], i0));
    var i1 := cols.value.1;
    assert tokens[i1].value == "FROM";
  }

  /** The cursor at which an accepted query's LIMIT clause was read. */
  lemma LimitCursor(tokens: seq<Token>) returns (j: nat)
    requires EndsWithSingleEof(tokens)
    requires ParseQuery(tokens).Ok?
    ensures j <= |tokens| && ParseLimit(tokens, j) == Ok(ParseQuery(tokens).value.limit)
  {
    var (qtype, i0) := ParseHead(tokens).value;
    var cols := if qtype == TableQuery || qtype == TableNoIdQuery then ColumnsFrom(tokens, i0, []) else Ok(([], i0));
    var (columns, i1) := cols.value;
    assert ParseQuery(tokens) == ParseRest(tokens, i1, qtype, columns);
    j := RestCursor(tokens, i1, qtype, columns);
  }

  /** LimitCursor from the FROM keyword on. */
  lemma RestCursor(tokens: seq<Token>, i: nat, qtype: QueryType, columns: seq<Column>) returns (j: nat)
    requires EndsWithSingleEof(tokens) && i < |tokens|
    requires ParseRest(tokens, i, qtype, columns).Ok?
    ensures j <= |tokens| && ParseLimit(tokens, j) == Ok(ParseRest(tokens, i, qtype, columns).value.limit)
  {
    var (from, i2) := SourcesFrom(tokens, i + 1, []);
    var (where, i3) := ParseWhere(tokens, i2);
    j := TailCursor(tokens, i3, Initial(qtype, columns).(from := from, where := where));
  }

  /** LimitCursor from the GROUP BY clause on. */
  lemma TailCursor(tokens: seq<Token>, i: nat, q: Query) returns (j: nat)
    requires EndsWithSingleEof(tokens) && i <= |tokens|
    requires ParseTail(tokens, i, q).Ok?
    ensures j <= |tokens| && ParseLimit(tokens, j) == Ok(ParseTail(tokens, i, q).value.limit)
  {
    j := ParseGroup(tokens, i).value.2;
  }

  /** Without a token reading LIMIT, the limit stays -1. */
  lemma ParseLimitDefault(tokens: seq<Token>)
    requires EndsWithSingleEof(tokens)
    requires forall k :: 0 <= k < |tokens| ==> tokens[k].value != "LIMIT"
    requires ParseQuery(tokens).Ok?
    ensures ParseQuery(tokens).value.limit == -1
  {
    var j := LimitCursor(tokens);
  }

  /** Any other limit is the value of a NUMBER token right after a token reading LIMIT. */
  lemma ParseLimitValue(tokens: seq<Token>)
    requires EndsWithSingleEof(tokens)
    requires ParseQuery(tokens).Ok? && ParseQuery(tokens).value.limit != -1
    ensures exists k :: (0 <= k < |tokens| - 1 && tokens[k].value == "LIMIT"
      && tokens[k + 1].kind == Number && Atoi(tokens[k + 1].value) == Some(ParseQuery(tokens).value.limit))
  {
    var j := LimitCursor(tokens);
    assert j < |tokens| - 1 && tokens[j].value == "LIMIT";
  }

  // ---------------------------------------------------------------------------
  // Column aliases

  /** Every column's alias is its own name, or the STRING of a `name AS "alias"` run of tokens. */
  predicate AliasesFromTokens(tokens: seq<Token>, cols: seq<Column>) {
    forall c :: c in cols ==>
      c.alias == c.name
      || exists k :: 0 <= k < |tokens| - 2 && tokens[k] == Token(Identifier, c.name)
          && tokens[k + 1].kind == As && tokens[k + 2] == Token(String, c.alias)
  }

  lemma AliasesSnoc(tokens: seq<Token>, acc: seq<Column>, c: Column)
    requires AliasesFromTokens(tokens, acc)
    requires c.alias == c.name
      || exists k :: 0 <= k < |tokens| - 2 && tokens[k] == Token(Identifier, c.name)
          && tokens[k + 1].kind == As && tokens[k + 2] == Token(String, c.alias)
    ensures AliasesFromTokens(tokens, acc + [c])
  {
    forall x | x in acc + [c]
      ensures x.alias == x.name
        || exists k :: 0 <= k < |tokens| - 2 && tokens[k] == Token(Identifier, x.name)
            && tokens[k + 1].kind == As && tokens[k + 2] == Token(String, x.alias)
    {
      if x !in acc {
        assert x == c;
      }
    }
  }

  /** A column alias defaults to the column name unless AS gives one. */
  lemma {:induction false} ColumnAliases(tokens: seq<Token>, i: nat, acc: seq<Column>)
    requires EndsWithSingleEof(tokens) && i < |tokens|
    requires AliasesFromTokens(tokens, acc)
    requires ColumnsFrom(tokens, i, acc).Ok?
    ensures AliasesFromTokens(tokens, ColumnsFrom(tokens, i, acc).value.0)
    decreases |tokens| - i
  {
    var t := tokens[i];
    if t.kind == Identifier {
      NotLast(tokens, i);
      if tokens[i + 1].kind == As {
        NotLast(tokens, i + 1);
        NotLast(tokens, i + 2);
        var c := Column(t.value, tokens[i + 2].value);
        assert tokens[i] == Token(Identifier, c.name) && tokens[i + 2] == Token(String, c.alias);
        AliasesSnoc(tokens, acc, c);
        ColumnAliases(tokens, i + 3, acc + [c]);
      } else {
        AliasesSnoc(tokens, acc, Column(t.value, t.value));
        ColumnAliases(tokens, i + 1, acc + [Column(t.value, t.value)]);
      }
    } else if t.kind == Comma {
      NotLast(tokens, i);
      ColumnAliases(tokens, i + 1, acc);
    }
  }

  /** The columns of an accepted TABLE query name their aliases as the tokens do. */
  lemma ParseColumnAliases(tokens: seq<Token>)
    requires EndsWithSingleEof(tokens)
    requires ParseQuery(tokens).Ok?
    ensures AliasesFromTokens(tokens, ParseQuery(tokens).value.columns)
  {
    var (qtype, i0) := ParseHead(tokens).value;
    var cols := if qtype == TableQuery || qtype == TableNoIdQuery then ColumnsFrom(tokens, i0, []) else Ok(([], i0));
    var (columns, i1) := cols.value;
    assert ParseQuery(tokens).value.columns == columns by {
      assert ParseQuery(tokens) == ParseRest(tokens, i1, qtype, columns);
      RestColumns(tokens, i1, qtype, columns);
    }
    if qtype == TableQuery || qtype == TableNoIdQuery {
      ColumnAliases(tokens, i0, []);
    }
  }

  /** The clauses after the columns leave the columns alone. */
  lemma RestColumns(tokens: seq<Token>, i: nat, qtype: QueryType, columns: seq<Column>)
    requires EndsWithSingleEof(tokens) && i < |tokens|
    requires ParseRest(tokens, i, qtype, columns).Ok?
    ensures ParseRest(tokens, i, qtype, columns).value.columns == columns
  {
  }

  // ---------------------------------------------------------------------------
  // Queries of the shape  <type> FROM <sources> <rest>

  /** A query-type keyword other than TABLE. */
  predicate ListHead(head: Token) {
    head.kind == Keyword && ParseQueryType(head.value) != TableQuery
  }

  /** Source tokens: none of them ends the source list. */
  predicate PlainSources(srcs: seq<Token>) {
    forall k :: 0 <= k < |srcs| ==> !EndsSources(srcs[k])
  }

  const FromToken := Token(Keyword, "FROM")

  /** After `<type> FROM` and the sources up to `j`, parsing goes on with GROUP BY and LIMIT. */
  lemma {:induction false} QueryAfterSources(tokens: seq<Token>, j: nat)
    requires EndsWithSingleEof(tokens) && 2 <= j <= |tokens|
    requires ListHead(tokens[0]) && tokens[1] == FromToken
    requires forall k :: 2 <= k < j ==> !EndsSources(tokens[k])
    requires j == |tokens| || (EndsSources(tokens[j]) && tokens[j].value != "WHERE")
    ensures ParseQuery(tokens)
      == ParseTail(tokens, j, Initial(ParseQueryType(tokens[0].value), []).(from := StringValues(tokens[2..j])))
  {
    var qt := ParseQueryType(tokens[0].value);
    assert ParseHead(tokens) == Ok((qt, 1));
    assert ParseQuery(tokens) == ParseRest(tokens, 1, qt, []);
    SourcesRun(tokens, 2, j, []);
    var from := StringValues(tokens[2..j]);
    assert [] + from == from;
    assert tokens[1].value == "FROM" && SourcesFrom(tokens, 2, []) == (from, j);
    assert ParseWhere(tokens, j) == (None, j);
  }

  /** After `<type> FROM <sources>`, the sources are the STRING texts and parsing goes on with GROUP BY and LIMIT. */
  lemma {:induction false} SourcesThenTail(head: Token, srcs: seq<Token>, rest: seq<Token>)
    requires ListHead(head) && PlainSources(srcs)
    requires rest == [] || (EndsSources(rest[0]) && rest[0].value != "WHERE")
    requires EndsWithSingleEof([head, FromToken] + srcs + rest)
    ensures var tokens := [head, FromToken] + srcs + rest;
      ParseQuery(tokens)
      == ParseTail(tokens, 2 + |srcs|, Initial(ParseQueryType(head.value), []).(from := StringValues(srcs)))
  {
    var tokens := [head, FromToken] + srcs + rest;
    var j := 2 + |srcs|;
    assert tokens[0] == head && tokens[1] == FromToken;
    assert tokens[2..j] == srcs;
    forall k | 2 <= k < j
      ensures !EndsSources(tokens[k])
    {
      assert tokens[k] == srcs[k - 2];
    }
    assert j < |tokens| ==> tokens[j] == rest[0];
    QueryAfterSources(tokens, j);
  }

  /** `<type> FROM <sources>` with nothing after the sources: all defaults, LIMIT -1. */
  lemma ParseSimpleQuery(head: Token, srcs: seq<Token>)
    requires ListHead(head) && PlainSources(srcs)
    requires EndsWithSingleEof([head, FromToken] + srcs)
    ensures ParseQuery([head, FromToken] + srcs)
      == Ok(Query(ParseQueryType(head.value), StringValues(srcs), None, "", 0, -1, []))
  {
    assert [head, FromToken] + srcs + [] == [head, FromToken] + srcs;
    SourcesThenTail(head, srcs, []);
  }

  // ---------------------------------------------------------------------------
  // Where GROUP BY and LIMIT are read, for every query type

  /** The column loop only passes over tokens that are not keywords. */
  lemma {:induction false} ColumnsStop(tokens: seq<Token>, i: nat, acc: seq<Column>)
    requires EndsWithSingleEof(tokens) && i < |tokens|
    requires ColumnsFrom(tokens, i, acc).Ok?
    ensures forall k :: i <= k < ColumnsFrom(tokens, i, acc).value.1 ==> tokens[k].kind != Keyword
    decreases |tokens| - i
  {
    var t := tokens[i];
    if t.kind == Identifier {
      NotLast(tokens, i);
      if tokens[i + 1].kind == As {
        NotLast(tokens, i + 1);
        NotLast(tokens, i + 2);
        ColumnsStop(tokens, i + 3, acc + [Column(t.value, tokens[i + 2].value)]);
      } else {
        ColumnsStop(tokens, i + 1, acc + [Column(t.value, t.value)]);
      }
    } else if t.kind == Comma {
      NotLast(tokens, i);
      ColumnsStop(tokens, i + 1, acc);
    }
  }

  /** The source loop stops at the first token that ends the sources. */
  lemma {:induction false} SourcesStop(tokens: seq<Token>, i: nat, acc: seq<string>)
    requires i <= |tokens|
    ensures forall k :: i <= k < SourcesFrom(tokens, i, acc).1 ==> !EndsSources(tokens[k])
    decreases |tokens| - i
  {
    if i < |tokens| && !EndsSources(tokens[i]) {
      SourcesStop(tokens, i + 1, if tokens[i].kind == String then acc + [tokens[i].value] else acc);
    }
  }

  /** RestFront reads the sources up to the first token that ends them, then the WHERE clause. */
  lemma RestFrontCursor(tokens: seq<Token>, i: nat, qtype: QueryType, columns: seq<Column>) returns (s: nat)
    requires EndsWithSingleEof(tokens) && i < |tokens|
    requires RestFront(tokens, i, qtype, columns).Ok?
    ensures i < s <= |tokens| && tokens[i].value == "FROM"
    ensures forall k :: i < k < s ==> !EndsSources(tokens[k])
    ensures s == |tokens| || EndsSources(tokens[s])
    ensures var (q, j) := RestFront(tokens, i, qtype, columns).value;
      q == Initial(qtype, columns).(from := StringValues(tokens[i + 1..s]), where := q.where)
      && (q.where, j) == ParseWhere(tokens, s)
  {
    s := SourcesFrom(tokens, i + 1, []).1;
    SourcesStop(tokens, i + 1, []);
    SourcesRun(tokens, i + 1, s, []);
    assert [] + StringValues(tokens[i + 1..s]) == StringValues(tokens[i + 1..s]);
  }

  /**
   * For every query type, TABLE with its columns included, ParseQuery reads
   * GROUP BY and LIMIT from the first token after the sources, or from where
   * the WHERE clause stops when that token reads WHERE. `f` is the FROM token:
   * the token after the query type, or for TABLE the first keyword after it.
   */
  lemma FrontCursor(tokens: seq<Token>) returns (f: nat, s: nat)
    requires EndsWithSingleEof(tokens) && ParseFront(tokens).Ok?
    ensures ParseHead(tokens).Ok?
    ensures f < s <= |tokens| && tokens[f].value == "FROM"
    ensures var (qtype, i0) := ParseHead(tokens).value;
      i0 <= f && (if qtype == TableQuery || qtype == TableNoIdQuery
        then tokens[f].kind == Keyword && forall k :: i0 <= k < f ==> tokens[k].kind != Keyword
        else f == i0)
    ensures forall k :: f < k < s ==> !EndsSources(tokens[k])
    ensures s == |tokens| || EndsSources(tokens[s])
    ensures var (q, j) := ParseFront(tokens).value;
      q.qtype == ParseHead(tokens).value.0 && q.from == StringValues(tokens[f + 1..s])
      && (q.where, j) == ParseWhere(tokens, s) && q.groupBy == "" && q.groupLimit == 0 && q.limit == -1
  {
    var (qtype, i0) := ParseHead(tokens).value;
    var cols := if qtype == TableQuery || qtype == TableNoIdQuery then ColumnsFrom(tokens, i0, []) else Ok(([], i0));
    var columns;
    columns, f := cols.value.0, cols.value.1;
    if qtype == TableQuery || qtype == TableNoIdQuery {
      ColumnsStop(tokens, i0, []);
    }
    assert ParseFront(tokens) == RestFront(tokens, f, qtype, columns);
    s := RestFrontCursor(tokens, f, qtype, columns);
  }

  // ---------------------------------------------------------------------------
  // GROUP BY and LIMIT at any cursor

  /** GROUP not followed by BY is an error. */
  lemma TailGroupWithoutBy(tokens: seq<Token>, i: nat, q: Query)
    requires EndsWithSingleEof(tokens) && i + 1 < |tokens|
    requires tokens[i].kind == Group && tokens[i + 1].kind != By
    ensures ParseTail(tokens, i, q) == Err("expected BY after GROUP, got " + tokens[i + 1].value)
  {
  }

  /** GROUP BY followed by neither a number nor a field is an error. */
  lemma TailGroupWithoutField(tokens: seq<Token>, i: nat, q: Query)
    requires EndsWithSingleEof(tokens) && i + 2 < |tokens|
    requires tokens[i].kind == Group && tokens[i + 1].kind == By
    requires tokens[i + 2].kind != Number && tokens[i + 2].kind != Metadata
    ensures ParseTail(tokens, i, q) == Err("expected metadata field after GROUP BY, got " + tokens[i + 2].value)
  {
  }

  /** GROUP BY n followed by anything but a field is an error that names the number. */
  lemma TailGroupNumberWithoutField(tokens: seq<Token>, i: nat, q: Query)
    requires EndsWithSingleEof(tokens) && i + 3 < |tokens|
    requires tokens[i].kind == Group && tokens[i + 1].kind == By
    requires tokens[i + 2].kind == Number && tokens[i + 3].kind != Metadata
    ensures ParseTail(tokens, i, q)
      == Err("expected metadata field after GROUP BY " + tokens[i + 2].value + ", got " + tokens[i + 3].value)
  {
  }

  /** Without GROUP at the cursor there is no grouping, and LIMIT is read from the cursor itself. */
  lemma TailNoGroup(tokens: seq<Token>, i: nat, q: Query)
    requires EndsWithSingleEof(tokens) && i <= |tokens|
    requires i == |tokens| || tokens[i].kind != Group
    ensures ParseGroup(tokens, i) == Ok(("", 0, i))
    ensures ParseTail(tokens, i, q).Ok? ==>
      (ParseTail(tokens, i, q).value.groupBy == "" && ParseTail(tokens, i, q).value.groupLimit == 0)
  {
  }

  /** `GROUP BY [f]` groups by `f` with no group limit, and LIMIT is read from the token after the field. */
  lemma TailGroupField(tokens: seq<Token>, i: nat, q: Query)
    requires EndsWithSingleEof(tokens) && i + 2 < |tokens|
    requires tokens[i].kind == Group && tokens[i + 1].kind == By && tokens[i + 2].kind == Metadata
    ensures ParseGroup(tokens, i) == Ok((tokens[i + 2].value, 0, i + 3))
    ensures ParseTail(tokens, i, q).Ok? ==>
      (ParseTail(tokens, i, q).value.groupBy == tokens[i + 2].value && ParseTail(tokens, i, q).value.groupLimit == 0)
  {
  }

  /** `GROUP BY n [f]` groups by `f` with group limit n, and LIMIT is read from the token after the field. */
  lemma TailGroupNumberField(tokens: seq<Token>, i: nat, q: Query, n: int)
    requires EndsWithSingleEof(tokens) && i + 3 < |tokens|
    requires tokens[i].kind == Group && tokens[i + 1].kind == By && tokens[i + 2].kind == Number
    requires Atoi(tokens[i + 2].value) == Some(n) && tokens[i + 3].kind == Metadata
    ensures ParseGroup(tokens, i) == Ok((tokens[i + 3].value, n, i + 4))
    ensures ParseTail(tokens, i, q).Ok? ==>
      (ParseTail(tokens, i, q).value.groupBy == tokens[i + 3].value && ParseTail(tokens, i, q).value.groupLimit == n)
  {
  }

  /** The cursor LIMIT is read from: after the GROUP BY clause, or where it would start. */
  function LimitAt(tokens: seq<Token>, i: nat): (l: nat)
    requires EndsWithSingleEof(tokens) && i <= |tokens| && ParseGroup(tokens, i).Ok?
    ensures i <= l <= |tokens|
  {
    ParseGroup(tokens, i).value.2
  }

  /** Without LIMIT after GROUP BY, the limit stays -1 and the query takes the grouping. */
  lemma TailNoLimit(tokens: seq<Token>, i: nat, q: Query)
    requires EndsWithSingleEof(tokens) && i <= |tokens| && ParseGroup(tokens, i).Ok?
    requires LimitAt(tokens, i) == |tokens| || tokens[LimitAt(tokens, i)].value != "LIMIT"
    ensures var (groupBy, groupLimit, _) := ParseGroup(tokens, i).value;
      ParseTail(tokens, i, q) == Ok(q.(groupBy := groupBy, groupLimit := groupLimit, limit := -1))
  {
  }

  /** LIMIT followed by anything but a NUMBER token, or by nothing, is an error. */
  lemma TailLimitWithoutNumber(tokens: seq<Token>, i: nat, q: Query)
    requires EndsWithSingleEof(tokens) && i <= |tokens| && ParseGroup(tokens, i).Ok?
    requires LimitAt(tokens, i) < |tokens| && tokens[LimitAt(tokens, i)].value == "LIMIT"
    requires LimitAt(tokens, i) + 1 == |tokens| || tokens[LimitAt(tokens, i) + 1].kind != Number
    ensures ParseTail(tokens, i, q) == Err("invalid LIMIT clause")
  {
  }

  /** LIMIT followed by a NUMBER token that strconv.Atoi rejects is an error that quotes it. */
  lemma TailLimitBadNumber(tokens: seq<Token>, i: nat, q: Query)
    requires EndsWithSingleEof(tokens) && i <= |tokens| && ParseGroup(tokens, i).Ok?
    requires LimitAt(tokens, i) + 1 < |tokens| && tokens[LimitAt(tokens, i)].value == "LIMIT"
    requires tokens[LimitAt(tokens, i) + 1].kind == Number && Atoi(tokens[LimitAt(tokens, i) + 1].value).None?
    ensures ParseTail(tokens, i, q)
      == Err("invalid LIMIT value: strconv.Atoi: parsing \"" + tokens[LimitAt(tokens, i) + 1].value + "\": invalid syntax")
  {
    var l := LimitAt(tokens, i);
    assert ParseLimit(tokens, l) == Err("invalid LIMIT value: strconv.Atoi: parsing \"" + tokens[l + 1].value + "\": invalid syntax");
  }

  /** `LIMIT n` sets the limit to n, with or without GROUP BY before it; the rest of the query keeps the grouping. */
  lemma TailLimitNumber(tokens: seq<Token>, i: nat, q: Query, n: int)
    requires EndsWithSingleEof(tokens) && i <= |tokens| && ParseGroup(tokens, i).Ok?
    requires LimitAt(tokens, i) + 1 < |tokens| && tokens[LimitAt(tokens, i)].value == "LIMIT"
    requires tokens[LimitAt(tokens, i) + 1].kind == Number && Atoi(tokens[LimitAt(tokens, i) + 1].value) == Some(n)
    ensures var (groupBy, groupLimit, _) := ParseGroup(tokens, i).value;
      ParseTail(tokens, i, q) == Ok(q.(groupBy := groupBy, groupLimit := groupLimit, limit := n))
  {
  }

  // ---------------------------------------------------------------------------
  // The same for whole queries

  /**
   * The converse of ParseLimitValue, for every query type and with or without
   * WHERE and GROUP BY: `LIMIT n` at the cursor after the GROUP BY clause sets
   * the limit to n, for every integer n written as Itoa writes it.
   */
  lemma ParseLimitNumber(tokens: seq<Token>, n: int)
    requires EndsWithSingleEof(tokens) && ParseFront(tokens).Ok?
    requires ParseGroup(tokens, ParseFront(tokens).value.1).Ok?
    requires var l := LimitAt(tokens, ParseFront(tokens).value.1);
      l + 1 < |tokens| && tokens[l].value == "LIMIT" && tokens[l + 1] == Token(Number, Itoa(n))
    ensures ParseQuery(tokens).Ok? && ParseQuery(tokens).value.limit == n
  {
    var (q, j) := ParseFront(tokens).value;
    assert ParseQuery(tokens) == ParseTail(tokens, j, q);
    AtoiItoa(n);
    TailLimitNumber(tokens, j, q, n);
  }
}
