/**
 * The syntax tree the parser builds (main.go:67-112): the query type, the
 * table columns, the flat list of WHERE conditions and the query itself.
 */
module Ast {
  import opened Common

  /** A query type; `NoQueryType` is the empty QueryType that parseQueryType returns for other words. */
  datatype QueryType =
    | ListQuery | TaskQuery | ParagraphQuery | OrderedListQuery | UnorderedListQuery
    | FencedCodeQuery | TableQuery | TableNoIdQuery | NoQueryType

  /** The string value of each QueryType constant (main.go:73-82). */
  function QueryTypeName(t: QueryType): string {
    match t
    case ListQuery => "LIST"
    case TaskQuery => "TASK"
    case ParagraphQuery => "PARAGRAPH"
    case OrderedListQuery => "ORDEREDLIST"
    case UnorderedListQuery => "UNORDEREDLIST"
    case FencedCodeQuery => "FENCEDCODE"
    case TableQuery => "TABLE"
    case TableNoIdQuery => "TABLE_NO_ID"
    case NoQueryType => ""
  }

  /**
   * parseQueryType (main.go:327-346): the query type a keyword names.
   * TABLE_NO_ID is not among the names it knows.
   */
  function ParseQueryType(value: string): (t: QueryType)
    ensures t != NoQueryType ==> QueryTypeName(t) == value
    ensures t != TableNoIdQuery
  {
    if value == "LIST" then ListQuery
    else if value == "TASK" then TaskQuery
    else if value == "PARAGRAPH" then ParagraphQuery
    else if value == "ORDEREDLIST" then OrderedListQuery
    else if value == "UNORDEREDLIST" then UnorderedListQuery
    else if value == "FENCEDCODE" then FencedCodeQuery
    else if value == "TABLE" then TableQuery
    else NoQueryType
  }

  /** Every query type other than TABLE_NO_ID and the empty one is read back from its own name. */
  lemma QueryTypeRoundTrip(t: QueryType)
    requires t != TableNoIdQuery && t != NoQueryType
    ensures ParseQueryType(QueryTypeName(t)) == t
  {
  }

  datatype Column = Column(name: string, alias: string)

  /** One WHERE condition; `fn` is the condition's function (CONTAINS, IS, CHECKED or empty). */
  datatype Condition = Condition(negated: bool, isMetadata: bool, field: string, fn: string, value: string, logicalOp: string)

  const EmptyCondition := Condition(false, false, "", "", "", "")

  /** The parsed query; `where` is None when the query has no WHERE clause. */
  datatype Query = Query(
    qtype: QueryType,
    from: seq<string>,
    where: Option<seq<Condition>>,
    groupBy: string,
    groupLimit: int,
    limit: int,
    columns: seq<Column>)
}
