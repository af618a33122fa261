/**
 * Parse (main.go:207-325): one cursor moves forward over the token stream
 * through the query type, the TABLE columns, FROM and its sources, an
 * optional WHERE clause, an optional GROUP BY and an optional LIMIT. Tokens
 * after the last clause it recognises are ignored.
 *
 * Parse is only applied to the output of Lex, which ends with exactly one EOF
 * token; with that, none of the cursor reads of the original can fall off the
 * end of the stream.
 */
module Parser {
  import opened Common
  import opened GoStrings
  import opened Lexer
  import opened Ast
  import opened Where

  /** A token that is not the last one of a Lex stream leaves room for one more. */
  lemma NotLast(tokens: seq<Token>, i: nat)
    requires EndsWithSingleEof(tokens) && i < |tokens| && tokens[i].kind != Eof
    ensures i + 1 < |tokens|
  {
  }

  /** The query type and the cursor after it (main.go:212-233). */
  function ParseHead(tokens: seq<Token>): (r: Result<(QueryType, nat)>)
    requires EndsWithSingleEof(tokens)
    ensures r.Ok? ==> 1 <= r.value.1 < |tokens|
  {
    var t := tokens[0];
    if t.kind == Table then
      if 2 < |tokens| && tokens[1].kind == Identifier && tokens[1].value == "NO"
        && tokens[2].kind == Identifier && tokens[2].value == "ID"
      then
        NotLast(tokens, 2);
        Ok((TableNoIdQuery, 3))
      else
        NotLast(tokens, 0);
        Ok((TableQuery, 1))
    else if t.kind == TableNoId then
      NotLast(tokens, 0);
      Ok((TableNoIdQuery, 1))
    else if t.kind != Keyword then Err("expected valid query type, got " + t.value)
    else
      NotLast(tokens, 0);
      Ok((ParseQueryType(t.value), 1))
  }

  /** The column list of a TABLE query (main.go:236-265), from cursor `i` on, after the columns `acc`. */
  function ColumnsFrom(tokens: seq<Token>, i: nat, acc: seq<Column>): (r: Result<(seq<Column>, nat)>)
    requires EndsWithSingleEof(tokens) && i < |tokens|
    ensures r.Ok? ==> i <= r.value.1 < |tokens| && tokens[r.value.1].kind == Keyword
    decreases |tokens| - i
  {
    var t := tokens[i];
    if t.kind == Keyword then Ok((acc, i))
    else if t.kind == Identifier then
      NotLast(tokens, i);
      if tokens[i + 1].kind == As then
        NotLast(tokens, i + 1);
        if tokens[i + 2].kind != String then Err("expected column alias, got " + tokens[i + 2].value)
        else
          NotLast(tokens, i + 2);
          ColumnsFrom(tokens, i + 3, acc + [Column(t.value, tokens[i + 2].value)])
      else ColumnsFrom(tokens, i + 1, acc + [Column(t.value, t.value)])
    else if t.kind == Comma then
      NotLast(tokens, i);
      ColumnsFrom(tokens, i + 1, acc)
    else Err("expected column name or comma, got " + t.value)
  }

  /** The tokens that end the list of sources after FROM (main.go:271-274). */
  predicate EndsSources(t: Token) {
    t.kind == Keyword || t.kind == Group
  }

  /** The sources after FROM (main.go:271-278), from cursor `i` on, after the sources `acc`. */
  function SourcesFrom(tokens: seq<Token>, i: nat, acc: seq<string>): (r: (seq<string>, nat))
    requires i <= |tokens|
    ensures i <= r.1 <= |tokens|
    ensures r.1 < |tokens| ==> EndsSources(tokens[r.1])
    decreases |tokens| - i
  {
    if i == |tokens| || EndsSources(tokens[i]) then (acc, i)
    else SourcesFrom(tokens, i + 1, if tokens[i].kind == String then acc + [tokens[i].value] else acc)
  }

  /** strconv.Atoi with its error ignored: 0 for a text it rejects. */
  function AtoiOrZero(s: string): int {
    match Atoi(s)
    case Some(n) => n
    case None => 0
  }

  /** The GROUP BY clause (main.go:291-311): the field, the group limit and the cursor after it. */
  function ParseGroup(tokens: seq<Token>, i: nat): (r: Result<(string, int, int)>)
    requires EndsWithSingleEof(tokens) && i <= |tokens|
    ensures r.Ok? ==> i <= r.value.2 <= |tokens|
  {
    if i < |tokens| && tokens[i].kind == Group then
      NotLast(tokens, i);
      if tokens[i + 1].kind == By then
        NotLast(tokens, i + 1);
        var j := i + 2;
        if tokens[j].kind == Number then
          NotLast(tokens, j);
          if tokens[j + 1].kind == Metadata then Ok((tokens[j + 1].value, AtoiOrZero(tokens[j].value), j + 2))
          else Err("expected metadata field after GROUP BY " + tokens[j].value + ", got " + tokens[j + 1].value)
        else if tokens[j].kind == Metadata then Ok((tokens[j].value, 0, j + 1))
        else Err("expected metadata field after GROUP BY, got " + tokens[j].value)
      else Err("expected BY after GROUP, got " + tokens[i + 1].value)
    else Ok(("", 0, i))
  }

  /** The LIMIT clause (main.go:314-322): -1 when the cursor is not at a token whose text is LIMIT. */
  function ParseLimit(tokens: seq<Token>, i: nat): Result<int>
    requires i <= |tokens|
  {
    if i < |tokens| && tokens[i].value == "LIMIT" then
      if i + 1 >= |tokens| || tokens[i + 1].kind != Number then Err("invalid LIMIT clause")
      else
        match Atoi(tokens[i + 1].value)
        case Some(n) => Ok(n)
        case None => Err("invalid LIMIT value: strconv.Atoi: parsing \"" + tokens[i + 1].value + "\": invalid syntax")
    else Ok(-1)
  }

  /** The WHERE clause (main.go:281-288): the conditions and the cursor after them. */
  function ParseWhere(tokens: seq<Token>, i: nat): (r: (Option<seq<Condition>>, nat))
    requires i <= |tokens|
    ensures i <= r.1 <= |tokens|
  {
    if i < |tokens| && tokens[i].value == "WHERE" then
      var (conds, k) := WhereClause(tokens[i + 1..]);
      (Some(conds), i + 1 + k)
    else (None, i)
  }

  /**
   * What Parse returns for a Lex token stream: the clauses up to the sources
   * and the WHERE clause fill in the query, and GROUP BY and LIMIT are read
   * from the cursor where those stop.
   */
  function ParseQuery(tokens: seq<Token>): Result<Query>
    requires EndsWithSingleEof(tokens)
  {
    match ParseFront(tokens)
    case Err(m) => Err(m)
    case Ok((q, i)) => ParseTail(tokens, i, q)
  }

  /** Parse up to GROUP BY (main.go:207-288): the query so far and the cursor after the sources or the WHERE clause. */
  function ParseFront(tokens: seq<Token>): (r: Result<(Query, nat)>)
    requires EndsWithSingleEof(tokens)
    ensures r.Ok? ==> r.value.1 <= |tokens|
  {
    match ParseHead(tokens)
    case Err(m) => Err(m)
    case Ok((qtype, i0)) =>
      var cols := if qtype == TableQuery || qtype == TableNoIdQuery then ColumnsFrom(tokens, i0, []) else Ok(([], i0));
      match cols
      case Err(m) => Err(m)
      case Ok((columns, i1)) => RestFront(tokens, i1, qtype, columns)
  }

  /** The query as it stands after the columns: no sources, no WHERE, no GROUP BY, LIMIT -1 (main.go:208). */
  function Initial(qtype: QueryType, columns: seq<Column>): Query {
    Query(qtype, [], None, "", 0, -1, columns)
  }

  /** From the FROM keyword at cursor `i` up to GROUP BY (main.go:268-288): the query so far and the cursor. */
  function RestFront(tokens: seq<Token>, i: nat, qtype: QueryType, columns: seq<Column>): (r: Result<(Query, nat)>)
    requires EndsWithSingleEof(tokens) && i < |tokens|
    ensures r.Ok? ==> r.value.1 <= |tokens|
  {
    if tokens[i].value != "FROM" then Err("expected FROM, got " + tokens[i].value)
    else
      var (from, i2) := SourcesFrom(tokens, i + 1, []);
      var (where, i3) := ParseWhere(tokens, i2);
      Ok((Initial(qtype, columns).(from := from, where := where), i3))
  }

  /** From the FROM keyword at cursor `i` on (main.go:268-324). */
  function ParseRest(tokens: seq<Token>, i: nat, qtype: QueryType, columns: seq<Column>): Result<Query>
    requires EndsWithSingleEof(tokens) && i < |tokens|
  {
    match RestFront(tokens, i, qtype, columns)
    case Err(m) => Err(m)
    case Ok((q, j)) => ParseTail(tokens, j, q)
  }

  /** The GROUP BY and LIMIT clauses from cursor `i` on (main.go:291-324), filling in `q`. */
  function ParseTail(tokens: seq<Token>, i: nat, q: Query): Result<Query>
    requires EndsWithSingleEof(tokens) && i <= |tokens|
  {
    match ParseGroup(tokens, i)
    case Err(m) => Err(m)
    case Ok((groupBy, groupLimit, j)) =>
      match ParseLimit(tokens, j)
      case Err(m) => Err(m)
      case Ok(limit) => Ok(q.(groupBy := groupBy, groupLimit := groupLimit, limit := limit))
  }

  // ---------------------------------------------------------------------------
  // The imperative parser

  /** The column loop of Parse (main.go:236-265). */
  method ParseColumns(tokens: seq<Token>, start: nat) returns (r: Result<(seq<Column>, nat)>)
    requires EndsWithSingleEof(tokens) && start < |tokens|
    ensures r == ColumnsFrom(tokens, start, [])
  {
    var columns: seq<Column> := [];
    var i := start;
    while i < |tokens| && tokens[i].kind != Keyword
      invariant start <= i < |tokens|
      invariant ColumnsFrom(tokens, i, columns) == ColumnsFrom(tokens, start, [])
      decreases |tokens| - i
    {
      if tokens[i].kind == Identifier {
        NotLast(tokens, i);
        var columnName := tokens[i].value;
        i := i + 1;
        if i < |tokens| && tokens[i].kind == As {
          NotLast(tokens, i);
          i := i + 1;
          if i >= |tokens| || tokens[i].kind != String {
            return Err("expected column alias, got " + tokens[i].value);
          }
          NotLast(tokens, i);
          columns := columns + [Column(columnName, tokens[i].value)];
          i := i + 1;
        } else {
          columns := columns + [Column(columnName, columnName)];
        }
      } else if tokens[i].kind == Comma {
        NotLast(tokens, i);
        i := i + 1;
      } else {
        return Err("expected column name or comma, got " + tokens[i].value);
      }
    }
    return Ok((columns, i));
  }

  /** The source loop after FROM (main.go:271-278); tokens other than STRING are skipped. */
  method ParseSources(tokens: seq<Token>, start: nat) returns (from: seq<string>, i: nat)
    requires start <= |tokens|
    ensures (from, i) == SourcesFrom(tokens, start, [])
  {
    from := [];
    i := start;
    while i < |tokens| && tokens[i].kind != Keyword
      invariant start <= i <= |tokens|
      invariant SourcesFrom(tokens, i, from) == SourcesFrom(tokens, start, [])
      decreases |tokens| - i
    {
      if tokens[i].kind == Group {
        break;
      } else if tokens[i].kind == String {
        from := from + [tokens[i].value];
      }
      i := i + 1;
    }
  }

  /** The GROUP BY part of Parse (main.go:291-311). */
  method ParseGroupClause(tokens: seq<Token>, start: nat) returns (r: Result<(string, int, int)>)
    requires EndsWithSingleEof(tokens) && start <= |tokens|
    ensures r == ParseGroup(tokens, start)
  {
    var i := start;
    var groupBy, groupLimit := "", 0;
    if i < |tokens| && tokens[i].kind == Group {
      NotLast(tokens, i);
      i := i + 1;
      if i < |tokens| && tokens[i].kind == By {
        NotLast(tokens, i);
        i := i + 1;
        if i < |tokens| && tokens[i].kind == Number {
          NotLast(tokens, i);
          groupLimit := AtoiOrZero(tokens[i].value);
          i := i + 1;
          if i < |tokens| && tokens[i].kind != Metadata {
            return Err("expected metadata field after GROUP BY " + tokens[i - 1].value + ", got " + tokens[i].value);
          }
        }
        if i < |tokens| && tokens[i].kind == Metadata {
          groupBy := tokens[i].value;
          i := i + 1;
        } else {
          return Err("expected metadata field after GROUP BY, got " + tokens[i].value);
        }
      } else {
        return Err("expected BY after GROUP, got " + tokens[i].value);
      }
    }
    return Ok((groupBy, groupLimit, i));
  }

  /** The query-type part of Parse (main.go:212-233). */
  method ParseQueryHead(tokens: seq<Token>) returns (r: Result<(QueryType, nat)>)
    requires EndsWithSingleEof(tokens)
    ensures r == ParseHead(tokens)
  {
    var qtype: QueryType;
    var i := 0;
    if tokens[i].kind == Table {
      qtype := TableQuery;
      if i + 2 < |tokens| && tokens[i + 1].kind == Identifier && tokens[i + 1].value == "NO"
        && tokens[i + 2].kind == Identifier && tokens[i + 2].value == "ID"
      {
        qtype := TableNoIdQuery;
        i := i + 3;
      } else {
        i := i + 1;
      }
    } else if tokens[i].kind == TableNoId {
      qtype := TableNoIdQuery;
      i := i + 1;
    } else {
      if tokens[i].kind != Keyword {
        return Err("expected valid query type, got " + tokens[i].value);
      }
      qtype := ParseQueryType(tokens[i].value);
      i := i + 1;
    }
    return Ok((qtype, i));
  }

  /** The LIMIT part of Parse (main.go:314-322). */
  method ParseLimitClause(tokens: seq<Token>, i: nat) returns (r: Result<int>)
    requires i <= |tokens|
    ensures r == ParseLimit(tokens, i)
  {
    var limit := -1;
    if i < |tokens| && tokens[i].value == "LIMIT" {
      if i + 1 >= |tokens| || tokens[i + 1].kind != Number {
        return Err("invalid LIMIT clause");
      }
      var n := Atoi(tokens[i + 1].value);
      if n.None? {
        return Err("invalid LIMIT value: strconv.Atoi: parsing \"" + tokens[i + 1].value + "\": invalid syntax");
      }
      limit := n.value;
    }
    return Ok(limit);
  }

  /** Parse from the FROM keyword on (main.go:268-324). */
  method ParseClauses(tokens: seq<Token>, start: nat, qtype: QueryType, columns: seq<Column>) returns (r: Result<Query>)
    requires EndsWithSingleEof(tokens) && start < |tokens|
    ensures r == ParseRest(tokens, start, qtype, columns)
  {
    var i := start;
    if tokens[i].value != "FROM" {
      return Err("expected FROM, got " + tokens[i].value);
    }
    i := i + 1;
    var from;
    from, i := ParseSources(tokens, i);
    var where;
    where, i := ParseOptionalWhere(tokens, i);
    var q := Initial(qtype, columns).(from := from, where := where);
    assert ParseRest(tokens, start, qtype, columns) == ParseTail(tokens, i, q);
    r := ParseGroupAndLimit(tokens, i, q);
  }

  /** The optional WHERE clause of Parse (main.go:281-288). */
  method ParseOptionalWhere(tokens: seq<Token>, start: nat) returns (where: Option<seq<Condition>>, i: nat)
    requires start <= |tokens|
    ensures (where, i) == ParseWhere(tokens, start)
  {
    where, i := None, start;
    if i < |tokens| && tokens[i].value == "WHERE" {
      var conds, newIndex := ParseWhereClause(tokens[i + 1..]);
      where := Some(conds);
      i := i + newIndex + 1;
    }
  }

  /** The GROUP BY and LIMIT clauses of Parse (main.go:291-324), filling in the query `q`. */
  method ParseGroupAndLimit(tokens: seq<Token>, start: nat, q: Query) returns (r: Result<Query>)
    requires EndsWithSingleEof(tokens) && start <= |tokens|
    ensures r == ParseTail(tokens, start, q)
  {
    var group := ParseGroupClause(tokens, start);
    if group.Err? {
      return Err(group.msg);
    }
    var (groupBy, groupLimit, next) := group.value;
    var limit := ParseLimitClause(tokens, next);
    if limit.Err? {
      return Err(limit.msg);
    }
    return Ok(q.(groupBy := groupBy, groupLimit := groupLimit, limit := limit.value));
  }

  /** Parse (main.go:207-325). */
  method Parse(tokens: seq<Token>) returns (r: Result<Query>)
    requires EndsWithSingleEof(tokens)
    ensures r == ParseQuery(tokens)
  {
    var head := ParseQueryHead(tokens);
    if head.Err? {
      return Err(head.msg);
    }
    var (qtype, i) := head.value;

    var columns: seq<Column> := [];
    if qtype == TableQuery || qtype == TableNoIdQuery {
      var cols := ParseColumns(tokens, i);
      if cols.Err? {
        return Err(cols.msg);
      }
      columns, i := cols.value.0, cols.value.1;
    }

    r := ParseClauses(tokens, i, qtype, columns);
  }
}
