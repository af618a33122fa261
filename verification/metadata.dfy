/**
 * Metadata extraction (main.go:587-716): the front-matter block, the inline
 * `key:: value` forms of parseMetadataLine and parseMetadataPair, and the
 * `file.*` keys of addFileMetadata. Go writes into one map in place; here each
 * step takes the map and returns the updated one.
 */
module MetaParse {
  import opened Common
  import opened GoStrings
  import opened Values

  // ---------------------------------------------------------------------------
  // parseMetadataPair (main.go:687-700)

  /** The key and value a `key:: value` pair writes, if it holds a `::`. */
  function PairEntry(pair: string): Option<(string, Value)> {
    match Cut(pair, "::")
    case None => None
    case Some((before, after)) => Some((ToLower(TrimSpace(TrimSet(before, {'*'}))), Coerce(TrimSpace(after))))
  }

  /** parseMetadataPair: the map after writing one pair. */
  function WithPair(md: Metadata, pair: string): Metadata {
    match PairEntry(pair)
    case None => md
    case Some((key, value)) => md[key := value]
  }

  /** The pairs of a `[a:: 1] | [b:: 2]` line, written left to right. */
  function WithPairs(md: Metadata, parts: seq<string>): Metadata
    decreases |parts|
  {
    if parts == [] then md else WithPair(WithPairs(md, parts[..|parts| - 1]), parts[|parts| - 1])
  }

  // ---------------------------------------------------------------------------
  // parseMetadataLine (main.go:656-685)

  /** The number of leading `\w` characters. */
  function WordRun(s: string): (n: nat)
    ensures n <= |s|
    ensures forall k :: 0 <= k < n ==> IsWordChar(s[k])
    ensures n == |s| || !IsWordChar(s[n])
    decreases |s|
  {
    if |s| > 0 && IsWordChar(s[0]) then 1 + WordRun(s[1..]) else 0
  }

  /** The regular expression `^\w+ *::`: a word, optional blanks, then `::`. */
  predicate IsKeyLine(line: string) {
    var n := WordRun(line);
    n >= 1 && HasPrefix(TrimLeftSet(line[n..], {' '}), "::")
  }

  /**
   * One round of the loop of main.go:673-683: while the rest holds a `[` and a
   * `::`, the text between the first `[` and the first `]` is a pair and
   * scanning resumes after that `]`. None when the loop stops, including when
   * a `]` comes before the first `[`.
   */
  function InlinePair(line: string): (r: Option<(string, string)>)
    ensures r.Some? ==> |r.value.1| < |line|
  {
    if Contains(line, "[") && Contains(line, "::") then
      var start := Index(line, "[");
      var end := Index(line, "]");
      if start != -1 && end != -1 && start < end then Some((line[start + 1..end], line[end + 1..]))
      else None
    else None
  }

  /** The map after the whole loop of main.go:673-683. */
  function InlineRun(line: string, md: Metadata): Metadata
    decreases |line|
  {
    match InlinePair(line)
    case None => md
    case Some((pair, rest)) => InlineRun(rest, WithPair(md, pair))
  }

  /** The separator between the pairs of a bracketed line. */
  const PartSeparator := "] | ["

  /** parseMetadataLine: the map after one trimmed line outside the front matter, by the first form that applies. */
  function MetadataLine(line: string, md: Metadata): Metadata {
    if IsKeyLine(line) then WithPair(md, TrimSet(line, {' '}))
    else if HasPrefix(line, "**") && Contains(line, "::") then WithPair(md, TrimSet(line, {'*', ' '}))
    else if HasPrefix(line, "[") && Contains(line, "::") then WithPairs(md, Split(TrimSet(line, {'[', ']', ' '}), PartSeparator))
    else if Contains(line, "[") && Contains(line, "::") then InlineRun(line, md)
    else md
  }

  /** parseMetadataLine. */
  method ParseMetadataLine(line: string, md: Metadata) returns (metadata: Metadata)
    ensures metadata == MetadataLine(line, md)
  {
    metadata := md;
    if IsKeyLine(line) {
      metadata := WithPair(metadata, TrimSet(line, {' '}));
    } else if HasPrefix(line, "**") && Contains(line, "::") {
      metadata := WithPair(metadata, TrimSet(line, {'*', ' '}));
    } else if HasPrefix(line, "[") && Contains(line, "::") {
      var parts := Split(TrimSet(line, {'[', ']', ' '}), PartSeparator);
      metadata := WritePairs(parts, metadata);
    } else if Contains(line, "[") && Contains(line, "::") {
      metadata := WriteInline(line, metadata);
    }
  }

  /** The loop of main.go:670-672. */
  method WritePairs(parts: seq<string>, md: Metadata) returns (metadata: Metadata)
    ensures metadata == WithPairs(md, parts)
  {
    metadata := md;
    var i := 0;
    while i < |parts|
      invariant 0 <= i <= |parts|
      invariant metadata == WithPairs(md, parts[..i])
    {
      assert parts[..i + 1][..i] == parts[..i];
      metadata := WithPair(metadata, parts[i]);
      i := i + 1;
    }
    assert parts[..i] == parts;
  }

  /** The loop of main.go:674-683. */
  method WriteInline(line: string, md: Metadata) returns (metadata: Metadata)
    ensures metadata == InlineRun(line, md)
  {
    metadata := md;
    var rest := line;
    while Contains(rest, "[") && Contains(rest, "::")
      invariant InlineRun(rest, metadata) == InlineRun(line, md)
      decreases |rest|
    {
      var start := Index(rest, "[");
      var end := Index(rest, "]");
      if start != -1 && end != -1 && start < end {
        assert InlinePair(rest) == Some((rest[start + 1..end], rest[end + 1..]));
        metadata := WithPair(metadata, rest[start + 1..end]);
        rest := rest[end + 1..];
      } else {
        assert InlinePair(rest) == None;
        break;
      }
    }
  }

  // ---------------------------------------------------------------------------
  // What the pair and line forms write

  /** Index finds the first occurrence. */
  lemma IndexAt(s: string, sub: string, k: nat)
    requires OccursAt(s, sub, k)
    requires forall j :: 0 <= j < k ==> !OccursAt(s, sub, j)
    ensures Index(s, sub) == k
  {
  }

  /** A separator that occurs somewhere is contained. */
  lemma OccursContains(s: string, sub: string, k: nat)
    requires OccursAt(s, sub, k)
    ensures Contains(s, sub)
  {
  }

  /** The first position of a one-character separator. */
  lemma CharIndex(s: string, c: char, k: nat)
    requires k < |s| && s[k] == c
    requires forall j :: 0 <= j < k ==> s[j] != c
    ensures Index(s, [c]) == k
  {
    forall j | 0 <= j < k
      ensures !OccursAt(s, [c], j)
    {
      assert s[j] != c;
    }
    assert s[k..k + 1] == [c];
    IndexAt(s, [c], k);
  }

  /** A key made of `\w` characters only. */
  predicate WordKey(key: string) {
    forall k :: 0 <= k < |key| ==> IsWordChar(key[k])
  }

  /** A `\\w` character is neither a blank nor an asterisk. */
  lemma WordCharPlain(c: char)
    requires IsWordChar(c)
    ensures !IsSpace(c) && c != '*' && c != ' ' && c != ':'
  {
  }

  /** A trim leaves alone a string whose ends are outside its cut set. */
  lemma TrimSetNoop(s: string, cut: set<char>)
    requires s != [] ==> s[0] !in cut && s[|s| - 1] !in cut
    ensures TrimSet(s, cut) == s
  {
    assert TrimLeftSet(s, cut) == s;
  }

  /** TrimSpace leaves alone a string whose ends are not spaces. */
  lemma TrimSpaceNoop(s: string)
    requires s != [] ==> !IsSpace(s[0]) && !IsSpace(s[|s| - 1])
    ensures TrimSpace(s) == s
  {
    assert TrimLeftSpace(s) == s;
  }

  /** A word key is left alone by the trims around it. */
  lemma WordKeyTrims(key: string)
    requires WordKey(key)
    ensures TrimSet(key, {'*'}) == key && TrimSpace(key) == key
  {
    if key != [] {
      WordCharPlain(key[0]);
      WordCharPlain(key[|key| - 1]);
    }
    TrimSetNoop(key, {'*'});
    TrimSpaceNoop(key);
  }

  /** The first `::` of `key + "::" + text` is the one after the key. */
  lemma FirstSeparator(key: string, text: string)
    requires ':' !in key
    ensures Index(key + "::" + text, "::") == |key|
  {
    var s := key + "::" + text;
    forall j | 0 <= j < |key|
      ensures !OccursAt(s, "::", j)
    {
      assert s[j] == key[j];
    }
    assert s[|key|..|key| + 2] == "::";
    IndexAt(s, "::", |key|);
  }

  /** A trimmed text does not start or end with a space. */
  lemma TrimmedEnds(text: string)
    requires TrimSpace(text) == text && text != ""
    ensures !IsSpace(text[0]) && !IsSpace(text[|text| - 1])
  {
  }

  /** parseMetadataPair inverts the `key::value` form: the lower-cased key gets the coerced value. */
  lemma PairRoundTrip(md: Metadata, key: string, text: string)
    requires WordKey(key) && TrimSpace(text) == text
    ensures PairEntry(key + "::" + text) == Some((ToLower(key), Coerce(text)))
    ensures WithPair(md, key + "::" + text) == md[ToLower(key) := Coerce(text)]
  {
    var pair := key + "::" + text;
    assert PairEntry(pair) == Some((ToLower(key), Coerce(text))) by {
      KeyCut(key, text);
      WordKeyTrims(key);
      PairEntryOf(pair, key, text);
    }
  }

  /** The entry of a pair whose halves need no trimming. */
  lemma PairEntryOf(pair: string, key: string, text: string)
    requires Cut(pair, "::") == Some((key, text))
    requires TrimSet(key, {'*'}) == key && TrimSpace(key) == key && TrimSpace(text) == text
    ensures PairEntry(pair) == Some((ToLower(key), Coerce(text)))
  {
  }

  /** The pair splits at the `::` after a word key. */
  lemma KeyCut(key: string, text: string)
    requires WordKey(key)
    ensures Cut(key + "::" + text, "::") == Some((key, text))
  {
    var s := key + "::" + text;
    assert ':' !in key by {
      forall k | 0 <= k < |key| ensures key[k] != ':' {
        assert IsWordChar(key[k]);
      }
    }
    FirstSeparator(key, text);
    assert s[..|key|] == key && s[|key| + 2..] == text;
  }

  /** `key::value` matches `^\\w+ *::`. */
  lemma KeyLineMatches(key: string, text: string)
    requires |key| >= 1 && WordKey(key)
    ensures IsKeyLine(key + "::" + text)
  {
    var s := key + "::" + text;
    assert forall k :: 0 <= k < |key| ==> s[k] == key[k];
    assert s[|key|] == ':';
    assert WordRun(s) == |key|;
    assert s[|key|..] == "::" + text;
    assert TrimLeftSet(s[|key|..], {' '}) == s[|key|..];
  }

  /** Trimming blanks leaves `key::value` alone. */
  lemma KeyLineTrimmed(key: string, text: string)
    requires |key| >= 1 && WordKey(key) && TrimSpace(text) == text
    ensures TrimSet(key + "::" + text, {' '}) == key + "::" + text
  {
    var s := key + "::" + text;
    assert s[0] != ' ' by {
      WordCharPlain(key[0]);
      assert s[0] == key[0];
    }
    assert s[|s| - 1] != ' ' by {
      if text != "" {
        TrimmedEnds(text);
        assert s[|s| - 1] == text[|text| - 1];
      }
    }
    TrimSetNoop(s, {' '});
  }

  /** A `key::value` line writes its pair (the form of main.go:660-662). */
  lemma KeyLineRoundTrip(md: Metadata, key: string, text: string)
    requires |key| >= 1 && WordKey(key) && TrimSpace(text) == text
    ensures MetadataLine(key + "::" + text, md) == md[ToLower(key) := Coerce(text)]
  {
    KeyLineMatches(key, text);
    KeyLineTrimmed(key, text);
    PairRoundTrip(md, key, text);
  }

  /**
   * An inline `[key:: value]` is read by the bracket loop: the first pair
   * enclosed by the first `[` and the first `]` is written before the rest of
   * the line is scanned.
   */
  lemma InlineFirst(a: string, p: string, rest: string, md: Metadata)
    requires '[' !in a && ']' !in a && ']' !in p && Contains(p, "::")
    ensures InlineRun(a + "[" + p + "]" + rest, md) == InlineRun(rest, WithPair(md, p))
  {
    InlinePairFound(a, p, rest);
    InlineRunStep(a + "[" + p + "]" + rest, md, p, rest);
  }

  /** One round of the bracket loop writes its pair and goes on with the rest. */
  lemma InlineRunStep(line: string, md: Metadata, pair: string, rest: string)
    requires InlinePair(line) == Some((pair, rest))
    ensures InlineRun(line, md) == InlineRun(rest, WithPair(md, pair))
  {
  }

  lemma InlinePairFound(a: string, p: string, rest: string)
    requires '[' !in a && ']' !in a && ']' !in p && Contains(p, "::")
    ensures InlinePair(a + "[" + p + "]" + rest) == Some((p, rest))
  {
    InlineBrackets(a, p, rest);
  }

  /** Where the bracket loop finds its first pair. */
  lemma InlineBrackets(a: string, p: string, rest: string)
    requires '[' !in a && ']' !in a && ']' !in p && Contains(p, "::")
    ensures var s := a + "[" + p + "]" + rest;
      Index(s, "[") == |a| && Index(s, "]") == |a| + 1 + |p| && Contains(s, "[") && Contains(s, "::") &&
      s[|a| + 1..|a| + 1 + |p|] == p && s[|a| + 2 + |p|..] == rest
  {
    var s := a + "[" + p + "]" + rest;
    assert Index(s, "[") == |a| && Contains(s, "[") by {
      OpenBracket(a, p + "]" + rest);
      assert s == a + "[" + (p + "]" + rest);
    }
    assert Index(s, "]") == |a| + 1 + |p| by { CloseBracket(a, p, rest); }
    assert Contains(s, "::") by { SeparatorInside(a, p, rest); }
    assert s[|a| + 1..|a| + 1 + |p|] == p && s[|a| + 2 + |p|..] == rest;
  }

  lemma OpenBracket(a: string, t: string)
    requires '[' !in a
    ensures Index(a + "[" + t, "[") == |a| && Contains(a + "[" + t, "[")
  {
    var s := a + "[" + t;
    CharIndex(s, '[', |a|);
  }

  lemma CloseBracket(a: string, p: string, rest: string)
    requires ']' !in a && ']' !in p
    ensures Index(a + "[" + p + "]" + rest, "]") == |a| + 1 + |p|
  {
    var s := a + "[" + p + "]" + rest;
    var e := |a| + 1 + |p|;
    forall j | 0 <= j < e
      ensures s[j] != ']'
    {
      if j < |a| {
        assert s[j] == a[j];
      } else if j > |a| {
        assert s[j] == p[j - |a| - 1];
      }
    }
    CharIndex(s, ']', e);
  }

  lemma SeparatorInside(a: string, p: string, rest: string)
    requires Contains(p, "::")
    ensures Contains(a + "[" + p + "]" + rest, "::")
  {
    var s := a + "[" + p + "]" + rest;
    var k := Index(p, "::");
    assert s[|a| + 1 + k..|a| + 1 + k + 2] == p[k..k + 2];
    OccursContains(s, "::", |a| + 1 + k);
  }

  // ---------------------------------------------------------------------------
  // Keys are stored lower-cased, and a line adds or replaces keys only

  /** Lower-casing twice is lower-casing once. */
  lemma LowerIdempotent(s: string)
    ensures ToLower(ToLower(s)) == ToLower(s)
  {
    assert forall i :: 0 <= i < |s| ==> ToLower(ToLower(s))[i] == ToLower(s)[i];
  }

  /** `r` keeps every key of `md`, and every key it adds or changes is lower-case. */
  predicate Extends(md: Metadata, r: Metadata) {
    && (forall k :: k in md ==> k in r)
    && (forall k :: k in r && (k !in md || r[k] != md[k]) ==> ToLower(k) == k)
  }

  lemma ExtendsTrans(a: Metadata, b: Metadata, c: Metadata)
    requires Extends(a, b) && Extends(b, c)
    ensures Extends(a, c)
  {
  }

  lemma WithPairExtends(md: Metadata, pair: string)
    ensures Extends(md, WithPair(md, pair))
  {
    match PairEntry(pair)
    case None =>
    case Some((key, value)) =>
      var before := Cut(pair, "::").value.0;
      LowerIdempotent(TrimSpace(TrimSet(before, {'*'})));
  }

  lemma {:induction false} WithPairsExtends(md: Metadata, parts: seq<string>)
    ensures Extends(md, WithPairs(md, parts))
    decreases |parts|
  {
    if parts != [] {
      var init := WithPairs(md, parts[..|parts| - 1]);
      WithPairsExtends(md, parts[..|parts| - 1]);
      WithPairExtends(init, parts[|parts| - 1]);
      ExtendsTrans(md, init, WithPairs(md, parts));
    }
  }

  lemma {:induction false} InlineRunExtends(line: string, md: Metadata)
    ensures Extends(md, InlineRun(line, md))
    decreases |line|
  {
    match InlinePair(line)
    case None =>
    case Some((pair, rest)) =>
      var next := WithPair(md, pair);
      assert Extends(md, next) by { WithPairExtends(md, pair); }
      assert Extends(next, InlineRun(rest, next)) by { InlineRunExtends(rest, next); }
      ExtendsTrans(md, next, InlineRun(rest, next));
  }

  /**
   * A metadata line never removes a key or touches a key it does not name, and
   * every key it writes is lower-case.
   */
  lemma MetadataLineExtends(line: string, md: Metadata)
    ensures Extends(md, MetadataLine(line, md))
  {
    if IsKeyLine(line) {
      WithPairExtends(md, TrimSet(line, {' '}));
    } else if HasPrefix(line, "**") && Contains(line, "::") {
      WithPairExtends(md, TrimSet(line, {'*', ' '}));
    } else if HasPrefix(line, "[") && Contains(line, "::") {
      WithPairsExtends(md, Split(TrimSet(line, {'[', ']', ' '}), PartSeparator));
    } else if Contains(line, "[") && Contains(line, "::") {
      InlineRunExtends(line, md);
    }
  }

  /** The `^\\w+ *::` form holds a `::`. */
  lemma KeyLineHasSeparator(line: string)
    requires IsKeyLine(line)
    ensures Contains(line, "::")
  {
    var n := WordRun(line);
    var t := TrimLeftSet(line[n..], {' '});
    var k := |line| - |t|;
    assert OccursAt(line, "::", k) by {
      assert t == line[k..];
      assert line[k..k + 2] == t[..2];
    }
    OccursContains(line, "::", k);
  }

  /** A line without `::` writes nothing, whatever brackets or asterisks it has. */
  lemma NoSeparatorNoWrite(line: string, md: Metadata)
    requires !Contains(line, "::")
    ensures MetadataLine(line, md) == md
  {
    if IsKeyLine(line) {
      KeyLineHasSeparator(line);
    }
  }

  // ---------------------------------------------------------------------------
  // The front-matter loop of parseMarkdownContent (main.go:587-620)

  /** The key and value of one `key: value` front-matter line (main.go:596-599), if it holds a `:`. */
  function FrontEntry(fmLine: string): Option<(string, Value)> {
    match Cut(fmLine, ":")
    case None => None
    case Some((before, after)) => Some((ToLower(TrimSpace(before)), Coerce(TrimSet(TrimSpace(after), {'"'}))))
  }

  function WithFrontLine(md: Metadata, fmLine: string): Metadata {
    match FrontEntry(fmLine)
    case None => md
    case Some((key, value)) => md[key := value]
  }

  /** The loop of main.go:595-609: every front-matter line collected so far, in order. */
  function FrontPairs(md: Metadata, fmLines: seq<string>): Metadata
    decreases |fmLines|
  {
    if fmLines == [] then md else WithFrontLine(FrontPairs(md, fmLines[..|fmLines| - 1]), fmLines[|fmLines| - 1])
  }

  /**
   * The scanner state: the metadata so far, whether the last `---` opened a
   * block, and the trimmed lines collected inside every block so far (the list
   * is never cleared).
   */
  datatype ScanState = ScanState(md: Metadata, inFrontMatter: bool, frontMatterLines: seq<string>)

  /** One line of the loop of main.go:587-620. */
  function ScanStep(st: ScanState, line: string): ScanState {
    var trimmed := TrimSpace(line);
    if trimmed == "---" then
      if st.inFrontMatter then ScanState(FrontPairs(st.md, st.frontMatterLines), false, st.frontMatterLines)
      else st.(inFrontMatter := true)
    else if st.inFrontMatter then st.(frontMatterLines := st.frontMatterLines + [trimmed])
    else st.(md := MetadataLine(trimmed, st.md))
  }

  function ScanRun(lines: seq<string>): ScanState
    decreases |lines|
  {
    if lines == [] then ScanState(map[], false, []) else ScanStep(ScanRun(lines[..|lines| - 1]), lines[|lines| - 1])
  }

  /** The metadata loop of parseMarkdownContent over the lines of one file. */
  method ScanMetadata(lines: seq<string>) returns (metadata: Metadata)
    ensures metadata == ScanRun(lines).md
  {
    metadata := map[];
    var inFrontMatter := false;
    var frontMatterLines: seq<string> := [];
    assert lines[..0] == [];
    var i := 0;
    while i < |lines|
      invariant 0 <= i <= |lines|
      invariant ScanState(metadata, inFrontMatter, frontMatterLines) == ScanRun(lines[..i])
    {
      ghost var next := ScanStep(ScanRun(lines[..i]), lines[i]);
      assert ScanRun(lines[..i + 1]) == next by {
        assert lines[..i + 1][..i] == lines[..i];
      }
      var trimmedLine := TrimSpace(lines[i]);
      if trimmedLine == "---" {
        inFrontMatter := !inFrontMatter;
        if !inFrontMatter {
          metadata := ApplyFrontMatter(frontMatterLines, metadata);
        }
      } else if inFrontMatter {
        frontMatterLines := frontMatterLines + [trimmedLine];
      } else {
        metadata := ParseMetadataLine(trimmedLine, metadata);
      }
      i := i + 1;
    }
    assert lines[..i] == lines;
  }

  /** The loop of main.go:595-609. */
  method ApplyFrontMatter(fmLines: seq<string>, md: Metadata) returns (metadata: Metadata)
    ensures metadata == FrontPairs(md, fmLines)
  {
    metadata := md;
    var i := 0;
    while i < |fmLines|
      invariant 0 <= i <= |fmLines|
      invariant metadata == FrontPairs(md, fmLines[..i])
    {
      FrontPairsSnoc(md, fmLines, i);
      metadata := ApplyFrontLine(fmLines[i], metadata);
      i := i + 1;
    }
    assert fmLines[..i] == fmLines;
  }

  /** The body of the loop of main.go:595-609 for one collected line. */
  method ApplyFrontLine(fmLine: string, md: Metadata) returns (metadata: Metadata)
    ensures metadata == WithFrontLine(md, fmLine)
  {
    metadata := md;
    if Contains(fmLine, ":") {
      var parts := Cut(fmLine, ":").value;
      var key := ToLower(TrimSpace(parts.0));
      var value := TrimSet(TrimSpace(parts.1), {'"'});
      FrontLineWrites(md, fmLine, key, Coerce(value));
      metadata := metadata[key := Coerce(value)];
    }
  }

  lemma FrontLineWrites(md: Metadata, fmLine: string, key: string, value: Value)
    requires FrontEntry(fmLine) == Some((key, value))
    ensures WithFrontLine(md, fmLine) == md[key := value]
  {
  }

  lemma FrontPairsSnoc(md: Metadata, fmLines: seq<string>, i: nat)
    requires i < |fmLines|
    ensures FrontPairs(md, fmLines[..i + 1]) == WithFrontLine(FrontPairs(md, fmLines[..i]), fmLines[i])
  {
    assert fmLines[..i + 1][..i] == fmLines[..i];
  }

  lemma WithFrontLineExtends(md: Metadata, fmLine: string)
    ensures Extends(md, WithFrontLine(md, fmLine))
  {
    match FrontEntry(fmLine)
    case None =>
    case Some((key, value)) =>
      LowerIdempotent(TrimSpace(Cut(fmLine, ":").value.0));
  }

  lemma {:induction false} FrontPairsExtends(md: Metadata, fmLines: seq<string>)
    ensures Extends(md, FrontPairs(md, fmLines))
    decreases |fmLines|
  {
    if fmLines != [] {
      var init := FrontPairs(md, fmLines[..|fmLines| - 1]);
      FrontPairsExtends(md, fmLines[..|fmLines| - 1]);
      WithFrontLineExtends(init, fmLines[|fmLines| - 1]);
      ExtendsTrans(md, init, FrontPairs(md, fmLines));
    }
  }

  /** Every key a file's lines define is lower-case, whether it comes from the front matter or from a metadata line. */
  lemma {:induction false} ScannedKeysLower(lines: seq<string>)
    ensures forall k :: k in ScanRun(lines).md ==> ToLower(k) == k
    decreases |lines|
  {
    if lines != [] {
      var st := ScanRun(lines[..|lines| - 1]);
      ScannedKeysLower(lines[..|lines| - 1]);
      var trimmed := TrimSpace(lines[|lines| - 1]);
      if trimmed == "---" {
        if st.inFrontMatter {
          FrontPairsExtends(st.md, st.frontMatterLines);
        }
      } else if !st.inFrontMatter {
        MetadataLineExtends(trimmed, st.md);
      }
    }
  }

  /** A blank after the separator is trimmed away. */
  lemma TrimSpaceLeadingBlank(text: string)
    requires TrimSpace(text) == text
    ensures TrimSpace(" " + text) == text
  {
    assert (" " + text)[1..] == text;
    assert TrimLeftSpace(" " + text) == TrimLeftSpace(text);
  }

  /** A `key: value` front-matter line reads as the lower-cased key and the coerced, unquoted value. */
  lemma FrontEntryRoundTrip(key: string, text: string)
    requires ':' !in key && TrimSpace(key) == key
    requires TrimSpace(text) == text && TrimSet(text, {'"'}) == text
    ensures FrontEntry(key + ": " + text) == Some((ToLower(key), Coerce(text)))
  {
    FrontLineCut(key, text);
    TrimSpaceLeadingBlank(text);
  }

  /** A front-matter line splits at the colon after its key. */
  lemma FrontLineCut(key: string, text: string)
    requires ':' !in key
    ensures Cut(key + ": " + text, ":") == Some((key, " " + text))
  {
    var s := key + ": " + text;
    CharIndex(s, ':', |key|);
    assert s[..|key|] == key && s[|key| + 1..] == " " + text;
  }

  /**
   * The collected front-matter lines are never cleared: the lines of every
   * earlier block stay in the list.
   */
  lemma {:induction false} FrontLinesKept(lines: seq<string>, more: seq<string>)
    ensures ScanRun(lines).frontMatterLines <= ScanRun(lines + more).frontMatterLines
    decreases |more|
  {
    if more == [] {
      assert lines + more == lines;
    } else {
      var init := more[..|more| - 1];
      FrontLinesKept(lines, init);
      assert (lines + more)[..|lines + more| - 1] == lines + init;
    }
  }

  /**
   * So an empty `---` pair after the front matter applies every collected line
   * again, overwriting what metadata lines wrote since.
   */
  lemma EmptyBlockReplays(lines: seq<string>)
    requires !ScanRun(lines).inFrontMatter
    ensures ScanRun(lines + ["---", "---"]).md == FrontPairs(ScanRun(lines).md, ScanRun(lines).frontMatterLines)
  {
    var st := ScanRun(lines);
    ScanSnoc(lines, "---");
    OpenStep(st);
    ScanSnoc(lines + ["---"], "---");
    CloseStep(st.(inFrontMatter := true));
    assert lines + ["---"] + ["---"] == lines + ["---", "---"];
  }

  /** A `---` line outside a block opens one. */
  lemma OpenStep(st: ScanState)
    requires !st.inFrontMatter
    ensures ScanStep(st, "---") == st.(inFrontMatter := true)
  {
    TrimSpaceNoop("---");
  }

  /** A `---` line inside a block closes it and applies every collected line. */
  lemma CloseStep(st: ScanState)
    requires st.inFrontMatter
    ensures ScanStep(st, "---") == ScanState(FrontPairs(st.md, st.frontMatterLines), false, st.frontMatterLines)
  {
    TrimSpaceNoop("---");
  }

  lemma ScanSnoc(lines: seq<string>, line: string)
    ensures ScanRun(lines + [line]) == ScanStep(ScanRun(lines), line)
  {
    assert (lines + [line])[..|lines|] == lines;
  }

  /**
   * What os.Stat and package filepath tell addFileMetadata (main.go:702-716)
   * about a note: the path as given, filepath.Dir and filepath.Base of it, the
   * size in bytes, and the modification time formatted as RFC 3339 and as a
   * `2006-01-02` day.
   */
  datatype FileInfo = FileInfo(path: string, dir: string, base: string, size: int, modTime: string, modDay: string)

  /** The keys addFileMetadata writes. */
  const FileKeys: set<string> := {"file.folder", "file.path", "file.name", "file.shortname", "file.link",
                                  "file.size", "file.ctime", "file.cday", "file.mtime", "file.mday"}

  /** The base name without its last three characters, meant to drop `.md`. */
  function ShortName(base: string): (r: string)
    requires |base| >= 3
    ensures |r| + 3 == |base| && r <= base
  {
    base[..|base| - 3]
  }

  /**
   * addFileMetadata: with no file information (os.Stat failed) the metadata is
   * unchanged; otherwise the ten `file.*` keys are written over whatever the
   * note itself set. `file.ctime` and `file.cday` also come from the
   * modification time. The slice for `file.shortname` panics on base names
   * shorter than three characters, hence the precondition.
   */
  function FileMetadata(md: Metadata, info: Option<FileInfo>): (r: Metadata)
    requires info.Some? ==> |info.value.base| >= 3
    ensures info.None? ==> r == md
    ensures info.Some? ==> r.Keys == md.Keys + FileKeys
    ensures forall k :: k in md && k !in FileKeys ==> r[k] == md[k]
  {
    match info
    case None => md
    case Some(f) =>
      md["file.folder" := Str(f.dir)]["file.path" := Str(f.path)]["file.name" := Str(f.base)]
        ["file.shortname" := Str(ShortName(f.base))]["file.link" := Str("[" + f.base + "](" + f.path + ")")]
        ["file.size" := Int(f.size)]["file.ctime" := Str(f.modTime)]["file.cday" := Str(f.modDay)]
        ["file.mtime" := Str(f.modTime)]["file.mday" := Str(f.modDay)]
  }

  /** The `file.*` entries do not depend on what the note wrote before them. */
  lemma FileKeysWin(md1: Metadata, md2: Metadata, info: FileInfo)
    requires |info.base| >= 3
    ensures forall k :: k in FileKeys ==> FileMetadata(md1, Some(info))[k] == FileMetadata(md2, Some(info))[k]
  {
    var m1, m2 := FileMetadata(md1, Some(info)), FileMetadata(md2, Some(info));
    forall k | k in FileKeys
      ensures m1[k] == m2[k]
    {
      assert k in m1 && k in m2;
    }
  }

  /** Adding the file metadata twice is the same as adding it once. */
  lemma FileMetadataIdempotent(md: Metadata, info: Option<FileInfo>)
    requires info.Some? ==> |info.value.base| >= 3
    ensures FileMetadata(FileMetadata(md, info), info) == FileMetadata(md, info)
  {
  }

  /** For a `.md` note, `file.shortname` is the name without its extension. */
  lemma ShortNameDropsExtension(base: string)
    requires HasSuffix(base, ".md")
    ensures ShortName(base) + ".md" == base
  {
  }

  /** A string without upper-case ASCII letters is its own lower-case form. */
  lemma LowerNoop(s: string)
    requires forall i :: 0 <= i < |s| ==> !('A' <= s[i] <= 'Z')
    ensures ToLower(s) == s
  {
  }

  lemma FileKeysLower()
    ensures forall k :: k in FileKeys ==> ToLower(k) == k
  {
    forall k | k in FileKeys
      ensures ToLower(k) == k
    {
      LowerNoop(k);
    }
  }

  /** Every `file.*` key is lower-case, so adding them keeps metadata keys lower-case. */
  lemma FileMetadataExtends(md: Metadata, info: Option<FileInfo>)
    requires info.Some? ==> |info.value.base| >= 3
    ensures Extends(md, FileMetadata(md, info))
  {
    FileKeysLower();
    var r := FileMetadata(md, info);
    forall k | k in r && (k !in md || r[k] != md[k])
      ensures ToLower(k) == k
    {
      assert k in FileKeys;
    }
  }
}
