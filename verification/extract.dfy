/**
 * The line extractors for front matter, tasks, paragraphs and fenced code
 * (main.go:718-791, 879-898). Each scans the lines of a document once,
 * keeping a little state, and returns the pieces the query type asks for.
 */
module Extract {
  import opened GoStrings

  /** `out` is the lines of `lines` at the strictly increasing positions `idx`. */
  predicate Picks(out: seq<string>, lines: seq<string>, idx: seq<nat>) {
    && |idx| == |out|
    && (forall k :: 0 <= k < |idx| ==> idx[k] < |lines| && out[k] == lines[idx[k]])
    && (forall k, l :: 0 <= k < l < |idx| ==> idx[k] < idx[l])
  }

  /** The number of leading ASCII digits. */
  function DigitRun(s: string): (n: nat)
    ensures n <= |s|
    ensures forall k :: 0 <= k < n ==> IsDigit(s[k])
    ensures n == |s| || !IsDigit(s[n])
    decreases |s|
  {
    if |s| > 0 && IsDigit(s[0]) then 1 + DigitRun(s[1..]) else 0
  }

  /** The regular expression `^\d+\.\s` (main.go:772, 844): digits, a dot and a blank. */
  predicate IsOrderedItem(s: string) {
    var n := DigitRun(s);
    n >= 1 && n + 1 < |s| && s[n] == '.' && IsRegexSpace(s[n + 1])
  }

  /** A line that opens or closes a fenced block. */
  predicate IsFenceLine(line: string) {
    HasPrefix(line, "```")
  }

  /** The number of fence lines in `lines`. */
  function CountFences(lines: seq<string>): nat
    decreases |lines|
  {
    if lines == [] then 0
    else CountFences(lines[..|lines| - 1]) + (if IsFenceLine(lines[|lines| - 1]) then 1 else 0)
  }

  // ---------------------------------------------------------------------------
  // stripYAMLFrontmatter (main.go:718-731)

  /** The first line at or after `i` that is exactly `---`, or -1. */
  function FirstDelimiter(lines: seq<string>, i: nat): (r: int)
    requires i <= |lines|
    ensures r == -1 || (i <= r < |lines| && lines[r] == "---")
    ensures forall k :: i <= k < |lines| && (r == -1 || k < r) ==> lines[k] != "---"
    decreases |lines| - i
  {
    if i == |lines| then -1 else if lines[i] == "---" then i else FirstDelimiter(lines, i + 1)
  }

  /** The first `---` at or after `i` is found wherever it is. */
  lemma {:induction false} FirstDelimiterAt(lines: seq<string>, i: nat, e: nat)
    requires i <= e < |lines| && lines[e] == "---"
    requires forall k :: i <= k < e ==> lines[k] != "---"
    ensures FirstDelimiter(lines, i) == e
    decreases e - i
  {
    if i < e {
      FirstDelimiterAt(lines, i + 1, e);
    }
  }

  /**
   * The lines after the front matter. The result is a suffix of the input; it
   * differs from the input exactly when the first line is `---` and a later
   * line is `---`, and then it starts after the first such later line.
   */
  function Stripped(lines: seq<string>): (r: seq<string>)
    ensures |r| <= |lines| && r == lines[|lines| - |r|..]
    ensures r != lines <==> |lines| > 0 && lines[0] == "---" && exists j :: 1 <= j < |lines| && lines[j] == "---"
    ensures r != lines ==> var e := |lines| - |r| - 1;
      1 <= e && lines[e] == "---" && forall k :: 1 <= k < e ==> lines[k] != "---"
  {
    if |lines| > 0 && lines[0] == "---" then
      var e := FirstDelimiter(lines, 1);
      if e != -1 then lines[e + 1..] else lines
    else lines
  }

  /** stripYAMLFrontmatter. */
  method StripYAMLFrontmatter(lines: seq<string>) returns (r: seq<string>)
    ensures r == Stripped(lines)
  {
    if |lines| > 0 && lines[0] == "---" {
      var endIndex := -1;
      var i := 1;
      while i < |lines|
        invariant 1 <= i <= |lines|
        invariant FirstDelimiter(lines, i) == FirstDelimiter(lines, 1)
      {
        if lines[i] == "---" {
          endIndex := i;
          break;
        }
        i := i + 1;
      }
      if endIndex != -1 {
        return lines[endIndex + 1..];
      }
    }
    return lines;
  }

  // ---------------------------------------------------------------------------
  // parseTasks (main.go:733-741)

  /** A task line: it starts with one of the three checkbox markers, with no leading blanks allowed. */
  predicate IsTaskLine(line: string) {
    HasPrefix(line, "- [ ]") || HasPrefix(line, "- [x]") || HasPrefix(line, "- [X]")
  }

  function Tasks(lines: seq<string>): seq<string>
    decreases |lines|
  {
    if lines == [] then []
    else
      var n := |lines| - 1;
      Tasks(lines[..n]) + (if IsTaskLine(lines[n]) then [lines[n]] else [])
  }

  /** parseTasks. */
  method ParseTasks(lines: seq<string>) returns (tasks: seq<string>)
    ensures tasks == Tasks(lines)
  {
    tasks := [];
    var i := 0;
    while i < |lines|
      invariant 0 <= i <= |lines|
      invariant tasks == Tasks(lines[..i])
    {
      assert lines[..i + 1][..i] == lines[..i];
      var line := lines[i];
      if HasPrefix(line, "- [ ]") || HasPrefix(line, "- [x]") || HasPrefix(line, "- [X]") {
        tasks := tasks + [line];
      }
      i := i + 1;
    }
    assert lines[..i] == lines;
  }

  /** parseTasks keeps exactly the task lines, in order. */
  lemma {:induction false} TasksPicked(lines: seq<string>) returns (idx: seq<nat>)
    ensures Picks(Tasks(lines), lines, idx)
    ensures forall j :: 0 <= j < |lines| ==> (IsTaskLine(lines[j]) <==> j in idx)
    decreases |lines|
  {
    if lines == [] {
      idx := [];
    } else {
      var n := |lines| - 1;
      var init := lines[..n];
      var prev := TasksPicked(init);
      assert forall j :: 0 <= j < n ==> init[j] == lines[j];
      if IsTaskLine(lines[n]) {
        idx := prev + [n];
      } else {
        idx := prev;
      }
    }
  }

  /** An indented checkbox is not a task. */
  lemma IndentedTaskIgnored()
    ensures Tasks(["  - [ ] todo"]) == []
  {
    var line := "  - [ ] todo";
    assert line[..5] != "- [ ]" && line[..5] != "- [x]" && line[..5] != "- [X]" by {
      assert line[0] == ' ';
    }
    assert ["  - [ ] todo"][..0] == [];
  }

  // ---------------------------------------------------------------------------
  // parseParagraphs (main.go:743-791)

  datatype ParaState = ParaState(paragraphs: seq<string>, inCodeBlock: bool, inList: bool)

  /** One iteration of the loop of main.go:748-788. */
  function ParaStep(st: ParaState, line: string): ParaState {
    if IsFenceLine(line) then st.(inCodeBlock := !st.inCodeBlock)
    else if st.inCodeBlock then st
    else if HasPrefix(line, "#") then st
    else if HasPrefix(line, "- ") || HasPrefix(line, "* ") then st.(inList := true)
    else if IsOrderedItem(line) then st.(inList := true)
    else
      var inList := st.inList && TrimSpace(line) != "";
      if inList && LeadingBlanks(line) > 0 then st
      else ParaState(st.paragraphs + [line], st.inCodeBlock, inList)
  }

  function ParaRun(lines: seq<string>): ParaState
    decreases |lines|
  {
    if lines == [] then ParaState([], false, false) else ParaStep(ParaRun(lines[..|lines| - 1]), lines[|lines| - 1])
  }

  /** parseParagraphs. */
  method ParseParagraphs(lines: seq<string>) returns (paragraphs: seq<string>)
    ensures paragraphs == ParaRun(lines).paragraphs
  {
    paragraphs := [];
    var inCodeBlock := false;
    var inList := false;
    var i := 0;
    while i < |lines|
      invariant 0 <= i <= |lines|
      invariant ParaState(paragraphs, inCodeBlock, inList) == ParaRun(lines[..i])
    {
      assert lines[..i + 1][..i] == lines[..i];
      var line := lines[i];
      i := i + 1;
      if HasPrefix(line, "```") {
        inCodeBlock := !inCodeBlock;
        continue;
      }
      if inCodeBlock {
        continue;
      }
      if HasPrefix(line, "#") {
        continue;
      }
      if HasPrefix(line, "- ") || HasPrefix(line, "* ") {
        inList := true;
        continue;
      }
      if IsOrderedItem(line) {
        inList := true;
        continue;
      }
      if inList && TrimSpace(line) == "" {
        inList := false;
      }
      if inList && LeadingBlanks(line) > 0 {
        continue;
      }
      paragraphs := paragraphs + [line];
    }
    assert lines[..i] == lines;
  }

  /** Inside a fence pair exactly when an odd number of fence lines came before. */
  lemma {:induction false} ParaFence(lines: seq<string>)
    ensures ParaRun(lines).inCodeBlock <==> CountFences(lines) % 2 == 1
    decreases |lines|
  {
    if lines != [] {
      ParaFence(lines[..|lines| - 1]);
    }
  }

  /** A paragraph line is none of: a fence line, a line inside a fence pair, a heading, a list item or task. */
  predicate PlainLine(lines: seq<string>, j: nat)
    requires j < |lines|
  {
    var l := lines[j];
    && !IsFenceLine(l)
    && CountFences(lines[..j]) % 2 == 0
    && !HasPrefix(l, "#")
    && !HasPrefix(l, "- ") && !HasPrefix(l, "* ")
    && !IsOrderedItem(l)
  }

  /** One line either leaves the paragraphs alone or appends itself, and only a plain line outside a fence pair appends itself. */
  lemma ParaStepAppends(st: ParaState, line: string)
    ensures var r := ParaStep(st, line).paragraphs;
      r == st.paragraphs ||
      (r == st.paragraphs + [line] && !IsFenceLine(line) && !st.inCodeBlock && !HasPrefix(line, "#") &&
       !HasPrefix(line, "- ") && !HasPrefix(line, "* ") && !IsOrderedItem(line))
  {
  }

  /** parseParagraphs returns some of its input lines, in order, and every one of them is a plain line. */
  lemma {:induction false} ParagraphsPicked(lines: seq<string>) returns (idx: seq<nat>)
    ensures Picks(ParaRun(lines).paragraphs, lines, idx)
    ensures forall k :: 0 <= k < |idx| ==> idx[k] < |lines| && PlainLine(lines, idx[k])
    decreases |lines|
  {
    if lines == [] {
      idx := [];
    } else {
      var n := |lines| - 1;
      var init := lines[..n];
      var prev := ParagraphsPicked(init);
      assert forall j :: 0 <= j < n ==> init[j] == lines[j] && init[..j] == lines[..j];
      assert forall k :: 0 <= k < |prev| ==> PlainLine(lines, prev[k]);
      ParaStepAppends(ParaRun(init), lines[n]);
      assert ParaRun(lines) == ParaStep(ParaRun(init), lines[n]);
      if ParaRun(lines).paragraphs == ParaRun(init).paragraphs {
        idx := prev;
      } else {
        ParaFence(init);
        assert lines[..n] == init;
        idx := prev + [n];
      }
    }
  }

  // ---------------------------------------------------------------------------
  // parseFencedCode (main.go:879-898)

  datatype FenceState = FenceState(blocks: seq<string>, current: seq<string>, inCodeBlock: bool)

  function FenceStep(st: FenceState, line: string): FenceState {
    if IsFenceLine(line) then
      if st.inCodeBlock then FenceState(st.blocks + [Join(st.current, "\n")], [], false)
      else st.(inCodeBlock := true)
    else if st.inCodeBlock then st.(current := st.current + [line])
    else st
  }

  function FenceRun(lines: seq<string>): FenceState
    decreases |lines|
  {
    if lines == [] then FenceState([], [], false) else FenceStep(FenceRun(lines[..|lines| - 1]), lines[|lines| - 1])
  }

  /** parseFencedCode. */
  method ParseFencedCode(lines: seq<string>) returns (fencedCode: seq<string>)
    ensures fencedCode == FenceRun(lines).blocks
  {
    fencedCode := [];
    var currentCode: seq<string> := [];
    var inCodeBlock := false;
    var i := 0;
    while i < |lines|
      invariant 0 <= i <= |lines|
      invariant FenceState(fencedCode, currentCode, inCodeBlock) == FenceRun(lines[..i])
    {
      assert lines[..i + 1][..i] == lines[..i];
      var line := lines[i];
      if HasPrefix(line, "```") {
        if inCodeBlock {
          fencedCode := fencedCode + [Join(currentCode, "\n")];
          currentCode := [];
          inCodeBlock := false;
        } else {
          inCodeBlock := true;
        }
      } else if inCodeBlock {
        currentCode := currentCode + [line];
      }
      i := i + 1;
    }
    assert lines[..i] == lines;
  }

  /** One block per closed fence pair: an unclosed final block is dropped. */
  lemma {:induction false} FenceBlocks(lines: seq<string>)
    ensures |FenceRun(lines).blocks| == CountFences(lines) / 2
    ensures FenceRun(lines).inCodeBlock <==> CountFences(lines) % 2 == 1
    decreases |lines|
  {
    if lines != [] {
      FenceBlocks(lines[..|lines| - 1]);
    }
  }
}
