/**
 * Interpret (main.go:503-526) once the files are loaded: TABLE queries go to
 * the table renderer; the other queries filter the loaded items by the WHERE
 * conditions, then either group them or keep the first LIMIT of them and join
 * them with newlines.
 */
module Interpret {
  import opened Common
  import opened GoStrings
  import opened Values
  import opened Ast
  import opened Conditions
  import opened Grouping
  import opened Table

  /** `content[:Limit]` when `0 <= Limit < len(content)`, all of `content` otherwise (main.go:522-524). */
  function Limited(content: seq<string>, limit: int): (r: seq<string>)
    ensures r <= content
    ensures |r| == if 0 <= limit < |content| then limit else |content|
  {
    if 0 <= limit < |content| then content[..limit] else content
  }

  /** The items and metadata left after the WHERE clause (main.go:514-516). */
  function Kept(q: Query, content: seq<string>, mds: seq<Metadata>): (r: (seq<string>, seq<Metadata>))
    requires |content| <= |mds|
    ensures |r.0| <= |r.1|
  {
    if q.where.Some? then Filter(content, mds, q.where.value) else (content, mds)
  }

  predicate IsTable(q: Query) {
    q.qtype == TableQuery || q.qtype == TableNoIdQuery
  }

  /**
   * The outputs Interpret can return. `content` and `mds` are the loaded items
   * and their metadata, `docs` the resolved files a TABLE query reads.
   */
  ghost predicate InterpretsAs(out: string, q: Query, content: seq<string>, mds: seq<Metadata>, docs: seq<Doc>)
    requires |content| <= |mds|
  {
    if IsTable(q) then out == TableText(q, docs)
    else
      var kept := Kept(q, content, mds);
      if q.groupBy != "" then GroupedAs(out, q.qtype, Buckets(kept.0, kept.1, q.groupBy, q.limit), q.groupLimit)
      else out == Join(Limited(kept.0, q.limit), "\n")
  }

  /** Interpret, after parseMarkdownFiles or the file walk of the table renderer. */
  method Interpret(q: Query, content: seq<string>, mds: seq<Metadata>, docs: seq<Doc>) returns (out: string)
    requires |content| <= |mds|
    ensures InterpretsAs(out, q, content, mds, docs)
  {
    if q.qtype == TableQuery || q.qtype == TableNoIdQuery {
      out := InterpretTableQuery(q, docs);
      return;
    }
    var items, metadata := content, mds;
    if q.where.Some? {
      items, metadata := FilterContent(content, mds, q.where.value);
    }
    if q.groupBy != "" {
      out := GroupContent(items, metadata, q);
      return;
    }
    if q.limit >= 0 && q.limit < |items| {
      items := items[..q.limit];
    }
    out := Join(items, "\n");
  }

  /** The number of newline-separated parts of a joined result. */
  lemma {:induction false} JoinCount(parts: seq<string>)
    requires forall k :: 0 <= k < |parts| ==> '\n' !in parts[k]
    ensures |parts| > 0 ==> multiset(Join(parts, "\n"))['\n'] == |parts| - 1
    decreases |parts|
  {
    if |parts| > 1 {
      var init := parts[..|parts| - 1];
      JoinCount(init);
      assert '\n' !in parts[|parts| - 1];
      assert multiset(parts[|parts| - 1])['\n'] == 0;
    } else if |parts| == 1 {
      assert multiset(parts[0])['\n'] == 0;
    }
  }

  /**
   * Without GROUP BY, a non-negative LIMIT caps the number of items printed:
   * single-line items that pass the WHERE clause yield at most LIMIT lines.
   */
  lemma UngroupedLimit(out: string, q: Query, content: seq<string>, mds: seq<Metadata>, docs: seq<Doc>)
    requires |content| <= |mds| && InterpretsAs(out, q, content, mds, docs)
    requires !IsTable(q) && q.groupBy == "" && q.limit > 0
    requires forall k :: 0 <= k < |content| ==> '\n' !in content[k]
    ensures multiset(out)['\n'] < q.limit
  {
    var kept := Kept(q, content, mds);
    if q.where.Some? {
      var idx := FilterIndices(content, mds, q.where.value);
      assert forall k :: 0 <= k < |kept.0| ==> kept.0[k] == content[idx[k]];
    }
    var parts := Limited(kept.0, q.limit);
    JoinCount(parts);
  }

  /** An empty WHERE clause selects what no WHERE clause selects. */
  lemma EmptyWhere(out: string, q: Query, content: seq<string>, mds: seq<Metadata>, docs: seq<Doc>)
    requires |content| == |mds|
    ensures InterpretsAs(out, q.(where := Some([])), content, mds, docs) <==> InterpretsAs(out, q.(where := None), content, mds, docs)
  {
    FilterNoConditions(content, mds);
    assert mds[..|content|] == mds;
    assert Kept(q.(where := Some([])), content, mds) == Kept(q.(where := None), content, mds);
    EmptyWhereTable(q, docs);
  }

  /** For TABLE queries, an empty WHERE clause also selects every file. */
  lemma {:induction false} EmptyWhereTable(q: Query, docs: seq<Doc>)
    ensures TableRows(q.(where := Some([])), docs) == TableRows(q.(where := None), docs)
    decreases |docs|
  {
    if docs != [] {
      EmptyWhereTable(q, docs[..|docs| - 1]);
    }
  }
}
