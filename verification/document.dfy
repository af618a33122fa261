/**
 * parseMarkdownContent (main.go:574-654): one note's lines yield its metadata
 * (front matter, metadata lines, then the `file.*` keys) and, for the query
 * types that read content, the items extracted from the lines after the front
 * matter.
 */
module Document {
  import opened Common
  import opened GoStrings
  import opened Values
  import opened Ast
  import opened Extract
  import opened Lists
  import opened MetaParse

  /**
   * The items a query type takes from a note's lines (the front matter already
   * stripped), or None for the types the switch of main.go:638-651 rejects.
   */
  function Items(qtype: QueryType, lines: seq<string>): (r: Option<seq<string>>)
    ensures r.None? <==> qtype in {ListQuery, TableQuery, TableNoIdQuery, NoQueryType}
  {
    match qtype
    case TaskQuery => Some(Tasks(lines))
    case ParagraphQuery => Some(ParaRun(lines).paragraphs)
    case OrderedListQuery => Some(JoinAll(NumberedGroups(lines)))
    case UnorderedListQuery => Some(JoinAll(BulletGroups(lines)))
    case FencedCodeQuery => Some(FenceRun(lines).blocks)
    case _ => None
  }

  /** The metadata of a note: what its lines define, then the `file.*` keys. */
  function NoteMetadata(lines: seq<string>, info: Option<FileInfo>): Metadata
    requires info.Some? ==> |info.value.base| >= 3
  {
    FileMetadata(ScanRun(lines).md, info)
  }

  predicate IsTableType(qtype: QueryType) {
    qtype == TableQuery || qtype == TableNoIdQuery
  }

  /**
   * What parseMarkdownContent returns for a note: an error exactly for the
   * query types it does not support (LIST and the empty type), and otherwise
   * the note's metadata with no items for the table types and the extracted
   * items for the others.
   */
  function Content(lines: seq<string>, qtype: QueryType, info: Option<FileInfo>): (r: Result<(seq<string>, Metadata)>)
    requires info.Some? ==> |info.value.base| >= 3
    ensures r.Err? <==> qtype == ListQuery || qtype == NoQueryType
    ensures r.Err? ==> r.msg == "unsupported query type: " + QueryTypeName(qtype)
    ensures r.Ok? ==> r.value.1 == NoteMetadata(lines, info)
    ensures r.Ok? && IsTableType(qtype) ==> r.value.0 == []
    ensures r.Ok? && !IsTableType(qtype) ==> Items(qtype, Stripped(lines)) == Some(r.value.0)
  {
    var md := NoteMetadata(lines, info);
    if IsTableType(qtype) then Ok(([], md))
    else
      match Items(qtype, Stripped(lines))
      case None => Err("unsupported query type: " + QueryTypeName(qtype))
      case Some(items) => Ok((items, md))
  }

  /**
   * parseMarkdownContent on the lines of a note that could be opened and read;
   * `info` is what os.Stat returned for it.
   */
  method ParseMarkdownContent(lines: seq<string>, qtype: QueryType, info: Option<FileInfo>)
    returns (r: Result<(seq<string>, Metadata)>)
    requires info.Some? ==> |info.value.base| >= 3
    ensures r == Content(lines, qtype, info)
  {
    var metadata := ScanMetadata(lines);
    metadata := AddFileMetadata(metadata, info);
    if qtype == TableQuery || qtype == TableNoIdQuery {
      return Ok(([], metadata));
    }
    var body := StripYAMLFrontmatter(lines);
    var parsedContent: seq<string>;
    match qtype {
      case TaskQuery =>
        parsedContent := ParseTasks(body);
      case ParagraphQuery =>
        parsedContent := ParseParagraphs(body);
      case OrderedListQuery =>
        parsedContent := ParseOrderedLists(body);
      case UnorderedListQuery =>
        parsedContent := ParseUnorderedLists(body);
      case FencedCodeQuery =>
        parsedContent := ParseFencedCode(body);
      case _ =>
        return Err("unsupported query type: " + QueryTypeName(qtype));
    }
    return Ok((parsedContent, metadata));
  }

  /** addFileMetadata, writing into the metadata map of the note. */
  method AddFileMetadata(md: Metadata, info: Option<FileInfo>) returns (metadata: Metadata)
    requires info.Some? ==> |info.value.base| >= 3
    ensures metadata == FileMetadata(md, info)
  {
    metadata := md;
    if info.Some? {
      var f := info.value;
      metadata := metadata["file.folder" := Str(f.dir)];
      metadata := metadata["file.path" := Str(f.path)];
      metadata := metadata["file.name" := Str(f.base)];
      metadata := metadata["file.shortname" := Str(f.base[..|f.base| - 3])];
      metadata := metadata["file.link" := Str("[" + f.base + "](" + f.path + ")")];
      metadata := metadata["file.size" := Int(f.size)];
      metadata := metadata["file.ctime" := Str(f.modTime)];
      metadata := metadata["file.cday" := Str(f.modDay)];
      metadata := metadata["file.mtime" := Str(f.modTime)];
      metadata := metadata["file.mday" := Str(f.modDay)];
    }
  }

  // ---------------------------------------------------------------------------
  // Properties of a parsed note

  /** Every metadata key of a parsed note is lower-case. */
  lemma ContentKeysLower(lines: seq<string>, qtype: QueryType, info: Option<FileInfo>)
    requires info.Some? ==> |info.value.base| >= 3
    requires Content(lines, qtype, info).Ok?
    ensures forall k :: k in Content(lines, qtype, info).value.1 ==> ToLower(k) == k
  {
    ScannedKeysLower(lines);
    FileMetadataExtends(ScanRun(lines).md, info);
  }

  /**
   * The `file.*` keys cannot be overridden from inside a note: two notes with
   * the same file information agree on them whatever their lines say.
   */
  lemma FileKeysFromFile(lines1: seq<string>, lines2: seq<string>, qtype: QueryType, info: FileInfo)
    requires |info.base| >= 3
    requires Content(lines1, qtype, Some(info)).Ok?
    ensures Content(lines2, qtype, Some(info)).Ok?
    ensures forall k :: k in FileKeys ==> k in Content(lines1, qtype, Some(info)).value.1
    ensures forall k :: k in FileKeys ==>
      Content(lines1, qtype, Some(info)).value.1[k] == Content(lines2, qtype, Some(info)).value.1[k]
  {
    FileKeysWin(ScanRun(lines1).md, ScanRun(lines2).md, info);
  }

  /** The metadata of a note does not depend on the query type that reads it. */
  lemma MetadataIgnoresQueryType(lines: seq<string>, q1: QueryType, q2: QueryType, info: Option<FileInfo>)
    requires info.Some? ==> |info.value.base| >= 3
    requires Content(lines, q1, info).Ok? && Content(lines, q2, info).Ok?
    ensures Content(lines, q1, info).value.1 == Content(lines, q2, info).value.1
  {
  }

  /**
   * A leading front matter block (no `---` inside it) is never searched for
   * items: they come from the lines after its closing `---` alone.
   */
  lemma FrontMatterSkipped(fm: seq<string>, body: seq<string>, qtype: QueryType, info: Option<FileInfo>)
    requires info.Some? ==> |info.value.base| >= 3
    requires forall k :: 0 <= k < |fm| ==> fm[k] != "---"
    requires Content(["---"] + fm + ["---"] + body, qtype, info).Ok? && !IsTableType(qtype)
    ensures Items(qtype, body) == Some(Content(["---"] + fm + ["---"] + body, qtype, info).value.0)
  {
    StrippedFrontMatter(fm, body);
  }

  /** stripYAMLFrontmatter drops a leading block up to its closing `---`. */
  lemma StrippedFrontMatter(fm: seq<string>, body: seq<string>)
    requires forall k :: 0 <= k < |fm| ==> fm[k] != "---"
    ensures Stripped(["---"] + fm + ["---"] + body) == body
  {
    var lines := ["---"] + fm + ["---"] + body;
    var e := |fm| + 1;
    assert lines[e] == "---";
    assert forall k :: 1 <= k < e ==> lines[k] == fm[k - 1];
    FirstDelimiterAt(lines, 1, e);
    assert lines[e + 1..] == body;
  }
}
