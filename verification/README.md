# dynomark, modelled in Dafny

dynomark answers queries over a folder of Markdown notes. A query reads like

    TASK FROM "notes/" WHERE [status] IS "open" AND NOT CHECKED GROUP BY [project] LIMIT 10

This project models the pipeline that answers one query, and proves properties of each stage:

- the lexer, which turns the query text into tokens;
- the parser, which builds the query tree, including the WHERE conditions;
- the extraction of items from a note: tasks, paragraphs, ordered and unordered list items, and fenced code blocks;
- the reading of a note's metadata: YAML front matter, `key:: value` lines, and the `file.*` keys;
- the evaluation of the WHERE conditions;
- grouping with the natural sort of group keys;
- LIMIT;
- the TABLE renderer.

The model follows the Go code.

- Each function that works by looping over tokens, words, lines or items is a Dafny `method` with a `while` loop.
- Each such method is proved equal to a specification function that recurses over the input.
- Properties are then proved about those specification functions as lemmas.
- The Go functions build slices with `append` and write into the metadata map they are handed. The model passes `seq` and `map` values in and returns the new value.
- `Parse` fills in a query node that no other code sees before it returns, so the query is a value too.
- Some loop bodies are factored into methods of their own (`SpliceWord`, `LexWord`, `BulletLine`, `ConditionMet` and others). Each such method is proved to perform one step of its loop's specification.

The modules follow the stages:

| module | file | what it holds |
|---|---|---|
| GoStrings | gostrings.dfy | the parts of Go's `strings` and `strconv` that the program uses |
| Values | values.dfy | metadata values and their coercion |
| Ast | ast.dfy | tokens, query types, conditions and the query tree |
| Lexer | lexer.dfy | `Lex` |
| Where | where.dfy | `parseWhereClause` |
| `Parser`, `ParserFacts` | parser.dfy, parser_facts.dfy | `Parse`, and what a parsed query says about its tokens |
| Conditions | conditions.dfy | `applyConditions`, `filterContent` |
| Sorting | sorting.dfy | `NaturalSort`, `extractNumber` |
| Grouping | grouping.dfy | `groupContent` |
| `Extract`, `Lists` | extract.dfy, lists.dfy | the item extractors |
| MetaParse | metadata.dfy | front matter, metadata lines, `addFileMetadata` |
| Document | document.dfy | `parseMarkdownContent` |
| Table | table.dfy | `InterpretTableQuery`, `tablePadString` |
| Interpret | interpret.dfy | `Interpret` |

## Model

| member | source | states |
|---|---|---|
| GoStrings.Index | main.go:674-675 | `strings.Index`: the result is -1 exactly when `sub` occurs nowhere; otherwise `sub` occurs at the result and at no earlier position |
| GoStrings.Fields | main.go:116 | `strings.Fields` never yields an empty word |
| GoStrings.AtoiItoa | main.go:692-698 | an integer printed in decimal is read back as the same integer by `strconv.Atoi` |
| Values.Coerce | main.go:692-698 | a metadata value is a boolean exactly when `strconv.ParseBool` accepts the text; it is an integer exactly when ParseBool rejects the text and `strconv.Atoi` accepts it; otherwise it is the text itself |
| Values.CoerceBoolFirst | main.go:692-695 | ParseBool is tried before Atoi: `1` and `0` become booleans, so the integer 1 does not survive printing and re-reading |
| Values.CoerceStringify | main.go:692-698 | printing a value and coercing the text gives the value back, except for the integers 0 and 1 and for texts that look like booleans or integers |
| Ast.ParseQueryType | main.go:327-346 | a recognised keyword names its query type; `TABLE_NO_ID` is never returned |
| Ast.QueryTypeRoundTrip | main.go:327-346 | every query type except `TABLE_NO_ID` and the empty type is recovered from its own name |
| Lexer.Lex | main.go:114-205 | the tokens are the classification pass over the comma-split `strings.Fields` of the input, followed by exactly one EOF token, and no EOF token comes earlier |
| Lexer.SpliceTrailingCommas | main.go:118-125 | the in-place splice replaces each word that ends in `,` by the word without the comma and a separate `,` word; the inserted `,` is skipped, so `a,,` gives `a,` and `,` |
| Lexer.SpliceWord | main.go:119-124 | one iteration replaces the next unprocessed word by its comma pieces, leaves the words after it untouched, and moves the cursor past the pieces |
| Lexer.LexWord | main.go:132-200 | one iteration of the word loop is one `Step` of the lexer state (quote flag, quoted text, FROM and WHERE flags, tokens) |
| Lexer.Classify | main.go:153-199 | outside quotes each word appends exactly one token, which is not EOF, keeps the earlier tokens and leaves the quote state alone |
| Lexer.WordToken | main.go:154-198 | the switch on the upper-cased word never produces an EOF token |
| Lexer.LexEof | main.go:203-204 | every lexed input ends with exactly one EOF token |
| Lexer.LexKeyword | main.go:154-184 | outside quotes, a keyword in any letter case yields one token of its kind whose value is the upper-cased word |
| Lexer.LexKeywordLowerCase | main.go:165-167 | `from` lexes to the keyword `FROM` and sets the FROM flag |
| Lexer.LexMetadataWord | main.go:133-135 | `[x]` yields a METADATA token `x` with the brackets trimmed, inside quotes as well as outside |
| Lexer.LexQuotedWord | main.go:137-144 | a one-word quote `"a"` yields the STRING token `a` and leaves no quote open |
| Lexer.LexQuotedRun | main.go:137-152 | a quote spread over several words yields one STRING token: the words joined with single spaces, without the quotes |
| Lexer.LexUnterminatedQuote | main.go:145-152 | words inside a quote that is never closed add no token, and the quote stays open to the end |
| Lexer.LexCommaWord | main.go:175-176 | a lone `,` outside quotes yields a COMMA token |
| Lexer.LexBareWord | main.go:185-198 | a word that is not a keyword becomes a NUMBER when Atoi accepts it; otherwise `NO` after TABLE, or `ID` after TABLE NO, becomes an IDENTIFIER; otherwise a STRING between FROM and WHERE; otherwise an IDENTIFIER |
| Lexer.SpliceTrailingComma | main.go:119-124 | appending a word with a trailing comma appends the word without it and a separate `,` |
| Lexer.RunAppend | main.go:132-201 | classifying `a + b` is classifying `b` from the state `a` leaves behind |
| Where.ParseWhereClause | main.go:348-391 | never fails; the stop index is the first `LIMIT` or GROUP token, or the end; the conditions are those the accumulator closed before it |
| Where.WhereOpen | main.go:360-374 | the open condition holds NOT if a NOT token came since the last close, and the last metadata field, function and AND/OR seen since then |
| Where.WhereClose | main.go:367-381 | a STRING token or the keyword `CHECKED` appends exactly one condition, built from the tokens since the previous close |
| Where.WhereNoClose | main.go:355-388 | every other token appends no condition |
| Where.WhereCount | main.go:367-381 | the number of conditions is the number of closing tokens |
| Where.WhereClauseCount | main.go:348-391 | the clause has one condition per closing token before the stop index |
| Parser.Parse | main.go:207-325 | the loop-by-loop parser equals the specification `ParseQuery` |
| Parser.ParseQueryHead | main.go:210-233 | the query type and the cursor after it: `TABLE`, `TABLE NO ID`, `TABLE_NO_ID` or a keyword; any other first token is an error |
| Parser.ParseColumns | main.go:236-263 | the column loop equals `ColumnsFrom`: identifiers with an optional `AS "alias"`, commas skipped, anything else an error, stopping at the first keyword |
| Parser.ParseSources | main.go:270-278 | the source loop equals `SourcesFrom`: STRING tokens are collected up to the first keyword or GROUP token |
| Parser.ParseOptionalWhere | main.go:280-288 | a WHERE keyword at the cursor hands the rest of the tokens to parseWhereClause, and the cursor moves past the stop index |
| Parser.ParseGroupClause | main.go:290-310 | `GROUP BY [n] [field]` gives the field, the group limit (0 when absent) and the cursor after it, with the three error messages of the source |
| Parser.ParseLimitClause | main.go:312-322 | `LIMIT n` gives n; LIMIT without a NUMBER token after it is `invalid LIMIT clause`; a NUMBER that Atoi rejects is `invalid LIMIT value`; no LIMIT at the cursor gives -1 |
| Parser.ParseGroupAndLimit | main.go:290-324 | the GROUP BY and LIMIT clauses update the query as `ParseTail` does |
| Parser.ParseClauses | main.go:265-324 | from the FROM check on, the parser equals `ParseRest` |
| ParserFacts.SourcesRun | main.go:271-278 | the sources are the values of the STRING tokens before the first keyword or GROUP token |
| ParserFacts.ParseNeedsFrom | main.go:265-268 | a query that parses contains a `FROM` token |
| ParserFacts.ParseLimitDefault | main.go:208 | with no `LIMIT` token the limit is -1 |
| ParserFacts.ParseLimitValue | main.go:312-322 | a limit other than -1 comes from a `LIMIT` token followed by a NUMBER token whose Atoi value it is |
| ParserFacts.ParseColumnAliases | main.go:237-262 | every parsed column either is its own alias or comes from `name AS "alias"` in the tokens |
| ParserFacts.QueryAfterSources | main.go:265-288 | after `<type> FROM` and plain sources, with no WHERE, parsing goes on with GROUP BY and LIMIT from the first token that ends the sources |
| ParserFacts.ParseSimpleQuery | main.go:207-324 | `<type> FROM <sources>` parses to that type and those sources, with no WHERE, no grouping and limit -1 |
| ParserFacts.ColumnsStop | main.go:236-263 | the column loop passes over no keyword before the keyword it stops at |
| ParserFacts.SourcesStop | main.go:271-278 | the source loop passes over no keyword and no GROUP token before the token it stops at |
| ParserFacts.RestFrontCursor | main.go:266-288 | from FROM on, the sources are the STRING texts up to the first keyword or GROUP token, and GROUP BY is read from that token or, when it reads WHERE, from the index where the WHERE clause stops |
| ParserFacts.FrontCursor | main.go:207-288 | for every query type, TABLE with its columns included: FROM must be the token after the type (for TABLE, the first keyword after it); GROUP BY and LIMIT are read from the first token after the sources, or from the WHERE clause's stop index; the query so far carries the type, the sources and the conditions, no grouping and limit -1 |
| ParserFacts.TailGroupWithoutBy | main.go:290-308 | at any cursor, GROUP not followed by BY is the error `expected BY after GROUP, got <t>` |
| ParserFacts.TailGroupWithoutField | main.go:290-306 | at any cursor, GROUP BY followed by neither a number nor a field is the error `expected metadata field after GROUP BY, got <t>` |
| ParserFacts.TailGroupNumberWithoutField | main.go:290-299 | at any cursor, GROUP BY n followed by anything but a field is the error that names both n and the token |
| ParserFacts.TailNoGroup | main.go:290 | without GROUP at the cursor there is no grouping field, the group limit is 0 and LIMIT is read from the same cursor |
| ParserFacts.TailGroupField | main.go:290-303 | at any cursor, `GROUP BY [f]` sets the grouping field `f`, leaves the group limit at 0, and LIMIT is read from the token after the field |
| ParserFacts.TailGroupNumberField | main.go:290-303 | at any cursor, `GROUP BY n [f]` sets the grouping field `f` and the group limit n, and LIMIT is read from the token after the field |
| ParserFacts.TailNoLimit | main.go:312-324 | with no LIMIT after the GROUP BY clause the limit stays -1 and the query gets the grouping field and group limit |
| ParserFacts.TailLimitWithoutNumber | main.go:313-316 | LIMIT followed by anything but a NUMBER token, or by nothing, is `invalid LIMIT clause`, with or without GROUP BY before it |
| ParserFacts.TailLimitBadNumber | main.go:317-320 | LIMIT followed by a NUMBER token that Atoi rejects is `invalid LIMIT value` quoting the token |
| ParserFacts.TailLimitNumber | main.go:313-324 | `LIMIT n` sets the limit to the Atoi value n, with or without GROUP BY before it, and keeps the grouping |
| ParserFacts.ParseLimitNumber | main.go:207-324 | for every query type, with or without WHERE and GROUP BY, `LIMIT n` after the GROUP BY clause makes the parsed limit n, for every integer n (the converse of `ParseLimitValue`) |
| Conditions.Holds | main.go:964-987 | a condition with an unknown function holds exactly when it is negated; a condition that is not negated holds exactly when it is met |
| Conditions.ConditionMet | main.go:964-987 | the per-condition code computes `Holds`: the field value (item or metadata, "" when missing), then CONTAINS, IS or CHECKED, then NOT |
| Conditions.ApplyConditions | main.go:957-999 | the loop computes the left fold `Eval`: true with no conditions, the first condition's result, then each later one joined by OR or else AND |
| Conditions.HoldsNegated | main.go:985-987 | NOT flips the outcome of every condition |
| Conditions.MissingFieldIsEmpty | main.go:967-973 | a metadata field the note lacks is compared as the empty string |
| Conditions.ContainsIgnoresCase | main.go:976-977 | CONTAINS ignores the letter case of both the value and the field |
| Conditions.IsMatchesCase | main.go:978-979 | IS compares exactly: `Done` is not `done` |
| Conditions.EvalFirstOperatorIgnored | main.go:989-990 | the AND/OR of the first condition does not matter |
| Conditions.EvalAllOr | main.go:989-995 | when every later operator is OR, the conditions hold exactly when some condition holds |
| Conditions.EvalAllAnd | main.go:989-995 | when no later operator is OR, the conditions hold exactly when every condition holds |
| Conditions.EvalLeftToRight | main.go:989-995 | there is no precedence: `a OR b AND c` is `(a OR b) AND c` |
| Conditions.FilterContent | main.go:1001-1013 | the filter loop equals `Filter` |
| Conditions.FilterIndices | main.go:1005-1010 | the kept items are, in their original order and with their own metadata, exactly the items whose conditions hold |
| Conditions.FilterSound | main.go:1005-1010 | every kept item satisfies the conditions |
| Conditions.FilterKeepsAll | main.go:1005-1010 | when every item satisfies the conditions, all are kept |
| Conditions.FilterIdempotent | main.go:1001-1013 | filtering twice keeps what filtering once keeps |
| Conditions.FilterNoConditions | main.go:958-960 | an empty condition list keeps every item |
| Sorting.ExtractNumber | sorting.go:34-41 | the end of the maximal digit run that starts at the index, and the decimal value of that run |
| Sorting.NaturalSort | sorting.go:8-32 | the comparison loop computes `NaturalLess` |
| Sorting.NaturalIrreflexive | sorting.go:8-32 | no string is less than itself |
| Sorting.NaturalAsymmetric | sorting.go:8-32 | two strings are never each less than the other |
| Sorting.NaturalNumericRun | sorting.go:13-18 | after a shared prefix, digit runs of different value decide by their numeric value, whatever follows them |
| Sorting.NaturalEqualRuns | sorting.go:16-19 | digit runs of equal value are skipped, and the comparison resumes after each run even when the runs differ in length |
| Sorting.NaturalItemExample | sorting.go:8-32 | `item2` comes before `item10` |
| Sorting.NaturalLeadingZeroExample | sorting.go:29-31 | `1` comes before `01`: equal numbers, then the shorter whole string first |
| Sorting.NaturalLexicographic | sorting.go:20-31 | when one string has no digits, the order is lexicographic by character, a proper prefix first |
| Sorting.NaturalNotTransitive | sorting.go:8-32 | the order is not transitive: `1b` < `0001` < `0001a` < `1b` |
| Grouping.BucketItems | main.go:531-542 | the bucketing loop computes `Buckets` |
| Grouping.BucketsHold | main.go:532-542 | a key has a bucket exactly when some item has that group value ("Unknown" when the field is missing); its bucket is the first LIMIT of those items in order, or all of them when LIMIT is not positive |
| Grouping.BucketCap | main.go:538-540 | with a positive LIMIT no bucket holds more than LIMIT items |
| Grouping.Take | main.go:538-541 | a prefix of the items, which is shorter than all of them only when it has exactly LIMIT items, for a positive LIMIT |
| Grouping.CollectKeys | main.go:545-548 | every bucket key exactly once |
| Grouping.SortKeys | main.go:550-552 | a permutation of the keys in which no key is NaturalSort-less than the key before it |
| Grouping.CapGroups | main.go:554-556 | the first GroupLimit keys when 0 < GroupLimit < the number of keys, all keys otherwise |
| Grouping.RenderItems | main.go:560-567 | the item loop writes `ItemLines`: four spaces, the item and one newline for TASK and the list types, two newlines for PARAGRAPH and FENCEDCODE, nothing for the others |
| Grouping.RenderGroups | main.go:558-569 | the key loop writes `Render`: for each key a `- key` line, its items, and a blank line |
| Grouping.GroupContent | main.go:529-572 | the output is the rendering of the buckets under some sorted order of their keys, capped at GroupLimit keys |
| Grouping.ListItemsHidden | main.go:561-566 | a LIST query prints each group's `- key` header and no items under it |
| Grouping.RenderAppend | main.go:558-569 | rendering two runs of keys is rendering each and concatenating |
| Grouping.TaskItemLines | main.go:562-563 | for TASK queries each item is printed on its own line, indented by four spaces |
| Interpret.Limited | main.go:522-524 | a prefix of the items: LIMIT of them when 0 <= LIMIT < their number, all of them otherwise |
| Interpret.Interpret | main.go:503-526 | TABLE queries are rendered as tables; otherwise WHERE filters the items, then GROUP BY groups them, or else LIMIT cuts them and they are joined with newlines |
| Interpret.JoinCount | main.go:526 | joining n single-line items with newlines gives n - 1 newlines |
| Interpret.UngroupedLimit | main.go:517-526 | without GROUP BY, a positive LIMIT bounds the output to at most LIMIT lines when items are single lines |
| Interpret.EmptyWhere | main.go:513-515 | an empty WHERE clause gives the same output as no WHERE clause |
| Interpret.EmptyWhereTable | main.go:446-450 | for TABLE queries an empty WHERE clause keeps the same rows as no WHERE clause |
| Table.TablePad | main.go:499-501 | the string followed by spaces up to exactly the given width |
| Table.HeaderCells | main.go:396-403 | one header per column, plus one for `File` in a TABLE query |
| Table.RowCells | main.go:452-464 | each row has as many cells as there are headers, and a TABLE row starts with the file's base name |
| Table.RowsOfSelected | main.go:439-474 | the rows are, in file order, exactly the rows of the files whose metadata satisfies WHERE |
| Table.AllRowsWithoutWhere | main.go:445-450 | without WHERE there is one row per file |
| Table.ColumnWidthIsMax | main.go:405-471 | a column's width is the length of its longest cell, the header included |
| Table.WidthsFit | main.go:466-471 | every header and every cell fits its column's width |
| Table.LinesAligned | main.go:476-494 | every header and row line has the same length as the separator line |
| Table.BuildHeaders | main.go:397-403 | the header loop computes `HeaderCells` |
| Table.BuildRow | main.go:452-464 | the row loop computes `RowCells`: missing metadata gives an empty cell |
| Table.Widen | main.go:466-471 | after a row, each width is the column width over all rows so far |
| Table.WriteLine | main.go:477-480 | one line of padded cells |
| Table.WriteSeparator | main.go:483-486 | the separator: `|` and width + 2 dashes per column, then `|` |
| Table.WriteRows | main.go:489-494 | one line per row |
| Table.InterpretTableQuery | main.go:393-497 | the output is the header line, the separator and the row lines, with the widths of the widest cells |
| Extract.Stripped | main.go:718-732 | the lines are changed exactly when the first line is `---` and a later line is `---`; then what remains starts just after the first such later line |
| Extract.StripYAMLFrontmatter | main.go:718-732 | the loop computes `Stripped` |
| Extract.ParseTasks | main.go:734-742 | the loop computes `Tasks` |
| Extract.TasksPicked | main.go:736-740 | the tasks are, in order, exactly the lines that start with `- [ ]`, `- [x]` or `- [X]` |
| Extract.IndentedTaskIgnored | main.go:737 | an indented task line is not a task |
| Extract.ParseParagraphs | main.go:744-791 | the loop computes `ParaRun` |
| Extract.ParaFence | main.go:751-754 | a line is inside a code block exactly when an odd number of fence lines came before it |
| Extract.ParaStepAppends | main.go:749-788 | each line adds itself or nothing, and adds itself only when it is not a fence line, a line in a code block, a heading or a list item |
| Extract.ParagraphsPicked | main.go:749-788 | the paragraphs are lines of the note in order, each outside code blocks and neither a fence, a heading nor a list item |
| Extract.ParseFencedCode | main.go:878-898 | the loop computes `FenceRun` |
| Extract.FenceBlocks | main.go:883-895 | there is one block per pair of fence lines, and a block is open exactly after an odd number of fence lines |
| Lists.ParseUnorderedLists | main.go:793-834 | the loop computes the joined `BulletGroups` |
| Lists.BulletLine | main.go:801-825 | one iteration is `BulletStep` |
| Lists.ExtendItem | main.go:811-816 | a continuation line drops the pending blank lines and joins the item; a blank line is held as pending |
| Lists.FlushBullet | main.go:803-807 | the current item is emitted without its trailing blank lines |
| Lists.EndOfInput | main.go:827-830 | at the last line, the current item is emitted |
| Lists.BulletStepInv | main.go:800-831 | each line keeps the scanner invariant: emitted items start with a bullet line and hold no empty line |
| Lists.BulletItems | main.go:793-834 | every item starts with a bullet line and contains no empty line |
| Lists.BulletItemTexts | main.go:804 | each joined item starts with its bullet line |
| Lists.ParseOrderedLists | main.go:836-876 | the loop computes the joined `NumberedGroups` |
| Lists.NumberedLine | main.go:843-868 | one iteration is `NumberedStep` |
| Lists.FlushNumbered | main.go:871-873 | the current item is emitted when it is not empty |
| Lists.NumberedStepInv | main.go:842-869 | each line keeps the scanner invariant: items start with a numbered line and hold no blank line |
| Lists.NumberedItems | main.go:836-876 | every item starts with a `n. ` line and contains no blank line |
| Lists.NumberedContinuation | main.go:859-860 | the prefix test there always succeeds, so any non-blank line that does not start a new item joins the current one |
| MetaParse.ParseMetadataLine | main.go:657-685 | the method computes `MetadataLine` |
| MetaParse.WritePairs | main.go:668-671 | each part is written as a pair, left to right |
| MetaParse.WriteInline | main.go:672-684 | the loop computes `InlineRun` |
| MetaParse.PairRoundTrip | main.go:687-700 | `key::text` writes the lower-cased key with the coerced text |
| MetaParse.KeyLineRoundTrip | main.go:660-662 | a line `key::text` with a word key writes that key and value |
| MetaParse.InlineFirst | main.go:673-683 | the first bracketed pair is written, and scanning resumes after its `]` |
| MetaParse.MetadataLineExtends | main.go:657-700 | a line keeps every key, and the keys it adds or changes are lower-case |
| MetaParse.NoSeparatorNoWrite | main.go:660-684 | a line without `::` writes nothing |
| MetaParse.ScanMetadata | main.go:583-620 | the line loop computes `ScanRun` |
| MetaParse.ApplyFrontMatter | main.go:596-610 | the front matter lines are written in order |
| MetaParse.ApplyFrontLine | main.go:597-609 | a line with `:` writes its trimmed, lower-cased key and its trimmed value without quotes, coerced |
| MetaParse.ScannedKeysLower | main.go:587-620 | every key the lines write is lower-case |
| MetaParse.FrontEntryRoundTrip | main.go:597-608 | `key: text` gives the lower-cased key and the coerced text |
| MetaParse.FrontLinesKept | main.go:615-616 | collected front matter lines are never dropped |
| MetaParse.EmptyBlockReplays | main.go:592-611 | an empty `---` block writes again every front matter line collected before it |
| MetaParse.FileMetadata | main.go:702-716 | without file information nothing changes; otherwise the ten `file.*` keys are added and every other key is kept |
| MetaParse.ShortName | main.go:708 | the base name without its last three characters |
| MetaParse.FileKeysWin | main.go:704-715 | the `file.*` values do not depend on what the note wrote |
| MetaParse.FileMetadataIdempotent | main.go:702-716 | adding the file metadata twice equals adding it once |
| MetaParse.ShortNameDropsExtension | main.go:708 | for a `.md` name the short name is the name without `.md` |
| MetaParse.FileMetadataExtends | main.go:702-716 | every earlier key is kept, and the added keys are lower-case |
| Document.Items | main.go:638-651 | no items exactly for LIST, TABLE, TABLE_NO_ID and the empty type |
| Document.Content | main.go:574-654 | an error exactly for LIST and the empty type, with the source's message; otherwise the note's metadata, no items for the table types, and the extracted items of the stripped lines for the others |
| Document.ParseMarkdownContent | main.go:574-654 | the method computes `Content` |
| Document.AddFileMetadata | main.go:702-716 | the method computes `FileMetadata` |
| Document.ContentKeysLower | main.go:583-627 | every metadata key of a note is lower-case |
| Document.FileKeysFromFile | main.go:626-627 | the `file.*` keys are always present and cannot be set from inside a note |
| Document.MetadataIgnoresQueryType | main.go:583-633 | a note's metadata does not depend on the query type |
| Document.FrontMatterSkipped | main.go:635-636 | items never come from a leading front matter block |
| Document.StrippedFrontMatter | main.go:718-731 | a leading block up to its closing `---` is dropped |

## Where the code and the documentation differ

dynomark's documentation and its code disagree in a few places. The model follows the code.

- Metadata values are tried as booleans (`strconv.ParseBool`) before integers, so a value `1` becomes `true` (`Values.CoerceBoolFirst`).
- Inline `[key:: value]` keys keep their spaces; they are not turned into hyphens.
- There is no SORT clause.
- Front matter is toggled by every line that trims to `---`, anywhere in the note. Each closing `---` writes again every front matter line collected since the start of the note (`MetaParse.EmptyBlockReplays`).
- In an unordered list item, blank lines are dropped when a continuation line follows them, and trailing blank lines are dropped when the item ends.
- Tasks are recognised only by the three prefixes `- [ ]`, `- [x]` and `- [X]`, at the very start of the line.
- Paragraphs are single lines; consecutive lines are not merged and blank lines are kept as they are.

## Left out

- Reading files: the file walk, glob and `~` expansion of `parseMarkdownFiles` (main.go:900-955) and the `os.Stat`/`filepath.Walk` loop of `InterpretTableQuery` are not part of this model. `Interpret` takes the loaded items and their metadata as inputs, and `InterpretTableQuery` takes the notes' base names and metadata. Errors from opening, walking or scanning files are not modelled.
- `bufio.Scanner` splitting a note into lines, including its line-length limit: each note is given as its sequence of lines.
- `os.Stat`, `filepath.Dir`, `filepath.Base` and time formatting: `addFileMetadata` receives the folder, path, base name, size and formatted modification time as a `FileInfo` value, or nothing when `os.Stat` failed.
- MetaParse.FileMetadata: requires a base name of at least three characters, because the Go slice for `file.shortname` panics on shorter names.
- Parser.Parse: requires a token list that ends with exactly one EOF token, which is what `Lex` returns. On other lists the Go code can index past the end.
- `executeQuery`, `main`, `printTokens`, the command-line flags and the deprecation warning that `Lex` prints for `TABLE_NO_ID` on standard error are left out: they only do I/O.
- GoStrings.Atoi: does not reject numbers outside the 64-bit range, as `strconv.Atoi` does, because the model's integers are unbounded.
- Sorting.ExtractNumber: gives the exact value of a digit run. `extractNumber` (sorting.go:39) ignores the range error of `strconv.Atoi` and keeps the clamped value 9223372036854775807, so in Go NaturalSort treats any two digit runs whose values exceed that as equal, while `Sorting.ExtractNumber` and `Sorting.NaturalLess` order them by their exact values.
- GoStrings.ToLower: only ASCII letters are mapped, and likewise in `ToUpper`. Go maps every Unicode letter.
- Strings are sequences of characters. Go's `len` counts bytes, so for non-ASCII text the final length test of `NaturalSort` (sorting.go:31) and the indentation counts of the list parsers can differ from the model.
- Regular expressions are replaced by the predicates they define: `^\w+ *::` by `MetaParse.IsKeyLine`, and `^\d+\.\s` by `Extract.IsOrderedItem`.
- Grouping.CollectKeys: states only that each bucket key appears once, because Go's map iteration order is unspecified.
- Grouping.SortKeys: follows the insertion sort that `sort.Slice` runs on at most 12 elements, and states that the keys come out as a permutation with no neighbouring pair out of NaturalSort order. With more than 12 groups `sort.Slice` switches to pattern-defeating quicksort, whose equal-element partitioning and heapsort fallback can, because NaturalSort is not transitive (`Sorting.NaturalNotTransitive`; for instance `1a` and `1b` both tie with `01` while `1a` sorts before `1b`), leave a neighbouring pair out of order. Those orders are not modelled.
- Grouping.GroupContent: states that the output renders the buckets under some order allowed by `SortKeys`. That is exact for at most 12 groups, up to the order in which the map hands out the keys; with more groups, an output whose key order has a neighbouring pair out of NaturalSort order, which Go can produce, falls outside `GroupedAs`.
