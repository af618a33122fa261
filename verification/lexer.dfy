/**
 * The lexer of the query language (`Lex`, main.go:114-205). A first pass splits
 * each trailing comma off its word; a second pass classifies the words, with
 * three flags: whether FROM was seen, whether WHERE was seen, and whether a
 * double-quoted string is open.
 */
module Lexer {
  import opened Common
  import opened GoStrings

  datatype TokenType =
    | Keyword | Identifier | Function | Not | LogicalOp | String | Number | Comma | Eof
    | Table | TableNoId | As | Metadata | Group | By

  datatype Token = Token(kind: TokenType, value: string)

  const EofToken := Token(Eof, "")

  /** A token stream as Lex produces it: exactly one EOF, at the end. */
  predicate EndsWithSingleEof(tokens: seq<Token>) {
    && |tokens| >= 1
    && tokens[|tokens| - 1] == EofToken
    && forall k :: 0 <= k < |tokens| - 1 ==> tokens[k].kind != Eof
  }

  /** What the first pass makes of one word: a trailing comma becomes a word of its own. */
  function CommaPiece(word: string): seq<string> {
    if HasSuffix(word, ",") then [TrimSuffix(word, ","), ","] else [word]
  }

  /** The first pass of Lex (main.go:119-125): the inserted "," is skipped, so "a,," gives "a," and ",". */
  function SpliceCommas(words: seq<string>): seq<string>
    decreases |words|
  {
    if words == [] then [] else SpliceCommas(words[..|words| - 1]) + CommaPiece(words[|words| - 1])
  }

  /** The state of the classification pass. */
  datatype LexState = LexState(gotFrom: bool, gotWhere: bool, insideQuotes: bool, quoted: string, tokens: seq<Token>)

  const Start := LexState(false, false, false, "", [])

  const UnitKeywords: set<string> := {"LIST", "TASK", "PARAGRAPH", "ORDEREDLIST", "UNORDEREDLIST", "FENCEDCODE", "LIMIT", "CHECKED"}

  /** The token kind of an upper-cased word that the switch of main.go:154-184 names. */
  function KeywordKind(up: string): Option<TokenType> {
    if up == "TABLE" then Some(Table)
    else if up == "TABLE_NO_ID" then Some(TableNoId)
    else if up == "AS" then Some(As)
    else if up in UnitKeywords || up == "FROM" || up == "WHERE" then Some(Keyword)
    else if up == "GROUP" then Some(Group)
    else if up == "BY" then Some(By)
    else if up == "," then Some(Comma)
    else if up == "CONTAINS" || up == "IS" then Some(Function)
    else if up == "NOT" then Some(Not)
    else if up == "AND" || up == "OR" then Some(LogicalOp)
    else None
  }

  /** A word that main.go:134 takes for a metadata field, whatever the quote state. */
  predicate IsBracketWord(word: string) {
    HasPrefix(word, "[") && HasSuffix(word, "]")
  }

  /**
   * The classification of a word outside quotes (the switch of main.go:154-199).
   * The switch's cases are distinct upper-cased words, so they are looked up
   * through KeywordKind; a keyword's token carries the upper-cased word.
   */
  function Classify(st: LexState, word: string): (r: LexState)
    ensures r.insideQuotes == st.insideQuotes && r.quoted == st.quoted
    ensures |r.tokens| == |st.tokens| + 1 && r.tokens[..|st.tokens|] == st.tokens
    ensures r.tokens[|st.tokens|].kind != Eof
  {
    var up := ToUpper(word);
    st.(gotFrom := st.gotFrom || up == "FROM", gotWhere := st.gotWhere || up == "WHERE",
        tokens := st.tokens + [WordToken(st.tokens, st.gotFrom && !st.gotWhere, word)])
  }

  /**
   * The token of a word outside quotes, after the tokens `toks`; `inSources`
   * says whether FROM came and WHERE did not.
   */
  function WordToken(toks: seq<Token>, inSources: bool, word: string): (t: Token)
    ensures t.kind != Eof
  {
    var up := ToUpper(word);
    match KeywordKind(up)
    case Some(kind) => Token(kind, up)
    case None =>
      if Atoi(word).Some? then Token(Number, word)
      else if |toks| > 0 && toks[|toks| - 1].kind == Table && up == "NO" then Token(Identifier, "NO")
      else if |toks| > 1 && toks[|toks| - 2].kind == Table && toks[|toks| - 1].kind == Identifier && up == "ID" then
        Token(Identifier, "ID")
      else if inSources then Token(String, word)
      else Token(Identifier, word)
  }

  /** One iteration of the classification loop (main.go:132-201). */
  function Step(st: LexState, word: string): LexState {
    if IsBracketWord(word) then
      st.(tokens := st.tokens + [Token(Metadata, TrimSet(word, {'[', ']'}))])
    else if HasPrefix(word, "\"") && !st.insideQuotes then
      if HasSuffix(word, "\"") && |word| > 1 then
        var q := word[1..|word| - 1];
        st.(quoted := q, tokens := st.tokens + [Token(String, q)])
      else
        st.(insideQuotes := true, quoted := word[1..])
    else if st.insideQuotes then
      if HasSuffix(word, "\"") then
        var q := st.quoted + " " + word[..|word| - 1];
        st.(insideQuotes := false, quoted := q, tokens := st.tokens + [Token(String, q)])
      else
        st.(quoted := st.quoted + " " + word)
    else
      Classify(st, word)
  }

  /** The classification pass over `words`, starting in state `st`. */
  function Run(st: LexState, words: seq<string>): LexState
    decreases |words|
  {
    if words == [] then st else Step(Run(st, words[..|words| - 1]), words[|words| - 1])
  }

  /** The tokens of a query already split into whitespace-separated words. */
  function LexWords(words: seq<string>): seq<Token> {
    Run(Start, SpliceCommas(words)).tokens + [EofToken]
  }

  /** The first loop of Lex (main.go:119-125), which inserts each "," word into the slice in place. */
  method SpliceTrailingCommas(original: seq<string>) returns (words: seq<string>)
    ensures words == SpliceCommas(original)
  {
    words := original;
    ghost var done := 0;
    ghost var prefix: seq<string> := [];
    assert original[..0] == [];
    var i: nat := 0;
    while i < |words|
      invariant Spliced(original, done, prefix, words, i)
      decreases |original| - done
    {
      words, i, done, prefix := SpliceWord(words, i, original, done, prefix);
    }
    assert original[..done] == original;
  }

  /**
   * The loop state of SpliceTrailingCommas: the first `done` words of
   * `original` are split into `prefix`, the others are still as they were,
   * and the cursor `i` stands right after `prefix`.
   */
  ghost predicate Spliced(original: seq<string>, done: nat, prefix: seq<string>, words: seq<string>, i: nat) {
    done <= |original| && prefix == SpliceCommas(original[..done])
    && words == prefix + original[done..] && i == |prefix|
  }

  /** One iteration of main.go:119-125: a word with a trailing comma is split in place. */
  method SpliceWord(words: seq<string>, i: nat, ghost original: seq<string>, ghost done: nat, ghost prefix: seq<string>)
    returns (words': seq<string>, i': nat, ghost done': nat, ghost prefix': seq<string>)
    requires Spliced(original, done, prefix, words, i) && i < |words|
    ensures Spliced(original, done', prefix', words', i') && done' == done + 1
    ensures words' == prefix + CommaPiece(original[done]) + original[done + 1..]
  {
    assert done < |original| by {
      assert |words| == |prefix| + |original| - done;
    }
    ghost var w, rest := original[done], original[done + 1..];
    assert words == prefix + [w] + rest by {
      assert original[done..] == [w] + rest;
    }
    assert words[i] == w;
    words', i' := words, i;
    if HasSuffix(words[i], ",") {
      InsertComma(prefix, w, rest);
      words' := words[..i + 1] + [","] + words[i + 1..];
      words' := words'[i := TrimSuffix(words'[i], ",")];
      i' := i + 1;
    }
    i' := i' + 1;
    done', prefix' := done + 1, prefix + CommaPiece(w);
    assert prefix' == SpliceCommas(original[..done']) by {
      SpliceStep(original, done);
    }
  }

  lemma {:induction false} SpliceStep(original: seq<string>, done: nat)
    requires done < |original|
    ensures SpliceCommas(original[..done + 1]) == SpliceCommas(original[..done]) + CommaPiece(original[done])
    ensures original[done..] == [original[done]] + original[done + 1..]
  {
    assert original[..done + 1][..done] == original[..done];
  }

  lemma {:induction false} InsertComma(p: seq<string>, w: string, rest: seq<string>)
    requires HasSuffix(w, ",")
    ensures var ws := p + [w] + rest;
      (ws[..|p| + 1] + [","] + ws[|p| + 1..])[|p| := TrimSuffix(w, ",")] == p + CommaPiece(w) + rest
  {
    var ws := p + [w] + rest;
    assert ws[..|p| + 1] == p + [w];
    assert ws[|p| + 1..] == rest;
  }

  /** Lex (main.go:114-205): splits the query on whitespace, splices out trailing commas, then classifies word by word. */
  method Lex(input: string) returns (tokens: seq<Token>)
    ensures tokens == LexWords(Fields(input))
    ensures EndsWithSingleEof(tokens)
  {
    var words := SpliceTrailingCommas(Fields(input));
    var gotFrom, gotWhere, insideQuotes := false, false, false;
    var quoted := "";
    tokens := [];
    var n := 0;
    while n < |words|
      invariant n <= |words|
      invariant LexState(gotFrom, gotWhere, insideQuotes, quoted, tokens) == Run(Start, words[..n])
    {
      RunPrefix(Start, words, n);
      gotFrom, gotWhere, insideQuotes, quoted, tokens := LexWord(gotFrom, gotWhere, insideQuotes, quoted, tokens, words[n]);
      n := n + 1;
    }
    assert words[..n] == words;
    tokens := tokens + [EofToken];
    LexEof(Fields(input));
  }

  /** The body of the classification loop (main.go:133-200) for one word. */
  method LexWord(gotFrom: bool, gotWhere: bool, insideQuotes: bool, quoted: string, tokens: seq<Token>, word: string)
    returns (gotFrom': bool, gotWhere': bool, insideQuotes': bool, quoted': string, tokens': seq<Token>)
    ensures LexState(gotFrom', gotWhere', insideQuotes', quoted', tokens') == Step(LexState(gotFrom, gotWhere, insideQuotes, quoted, tokens), word)
  {
    gotFrom', gotWhere', insideQuotes', quoted', tokens' := gotFrom, gotWhere, insideQuotes, quoted, tokens;
    if HasPrefix(word, "[") && HasSuffix(word, "]") {
      tokens' := tokens + [Token(Metadata, TrimSet(word, {'[', ']'}))];
    } else if HasPrefix(word, "\"") && !insideQuotes {
      insideQuotes' := true;
      quoted' := word[1..];
      if HasSuffix(word, "\"") && |word| > 1 {
        insideQuotes' := false;
        quoted' := word[1..|word| - 1];
        tokens' := tokens + [Token(String, quoted')];
      }
    } else if insideQuotes {
      if HasSuffix(word, "\"") {
        insideQuotes' := false;
        quoted' := quoted + " " + word[..|word| - 1];
        tokens' := tokens + [Token(String, quoted')];
      } else {
        quoted' := quoted + " " + word;
      }
    } else {
      var next := Classify(LexState(gotFrom, gotWhere, insideQuotes, quoted, tokens), word);
      gotFrom', tokens', gotWhere' := next.gotFrom, next.tokens, next.gotWhere;
    }
  }

  // ---------------------------------------------------------------------------
  // Properties of the lexer

  lemma {:induction false} RunAppend(st: LexState, a: seq<string>, b: seq<string>)
    ensures Run(st, a + b) == Run(Run(st, a), b)
    decreases |b|
  {
    if b == [] {
      assert a + b == a;
    } else {
      assert (a + b)[..|a + b| - 1] == a + b[..|b| - 1];
      RunAppend(st, a, b[..|b| - 1]);
    }
  }

  lemma {:induction false} RunPrefix(st: LexState, words: seq<string>, n: nat)
    requires n < |words|
    ensures Run(st, words[..n + 1]) == Step(Run(st, words[..n]), words[n])
  {
    assert words[..n + 1][..n] == words[..n];
  }

  predicate NoEof(tokens: seq<Token>) {
    forall k :: 0 <= k < |tokens| ==> tokens[k].kind != Eof
  }

  lemma {:induction false} StepNoEof(st: LexState, word: string)
    requires NoEof(st.tokens)
    ensures NoEof(Step(st, word).tokens)
  {
    var r := Step(st, word);
    if r.tokens != st.tokens {
      assert |r.tokens| == |st.tokens| + 1 && r.tokens[..|st.tokens|] == st.tokens;
      assert forall k :: 0 <= k < |st.tokens| ==> r.tokens[k] == r.tokens[..|st.tokens|][k];
    }
  }

  lemma {:induction false} RunNoEof(st: LexState, words: seq<string>)
    requires NoEof(st.tokens)
    ensures NoEof(Run(st, words).tokens)
    decreases |words|
  {
    if words != [] {
      RunNoEof(st, words[..|words| - 1]);
      StepNoEof(Run(st, words[..|words| - 1]), words[|words| - 1]);
    }
  }

  /** The token stream ends with exactly one EOF token and holds no other. */
  lemma {:induction false} LexEof(words: seq<string>)
    ensures EndsWithSingleEof(LexWords(words))
  {
    RunNoEof(Start, SpliceCommas(words));
  }

  /** A recognised keyword matches in any letter case and its token carries the upper-cased text. */
  lemma {:induction false} LexKeyword(st: LexState, word: string)
    requires !st.insideQuotes && !IsBracketWord(word) && !HasPrefix(word, "\"")
    requires KeywordKind(ToUpper(word)).Some?
    ensures Step(st, word).tokens == st.tokens + [Token(KeywordKind(ToUpper(word)).value, ToUpper(word))]
    ensures Step(st, word).insideQuotes == st.insideQuotes
  {
    var up := ToUpper(word);
    if up == "," {
      assert |word| == 1 && ToUpper(word)[0] == UpperChar(word[0]);
      assert word == ",";
    }
  }

  /** "from" is recognised as the FROM keyword: the match ignores letter case. */
  lemma {:induction false} LexKeywordLowerCase()
    ensures Step(Start, "from").tokens == [Token(Keyword, "FROM")]
    ensures Step(Start, "from").gotFrom
  {
    assert ToUpper("from") == "FROM";
  }

  lemma {:induction false} TrimBetween(l: char, x: string, r: char, cut: set<char>)
    requires l in cut && r in cut
    requires x == [] || (x[0] !in cut && x[|x| - 1] !in cut)
    ensures TrimSet([l] + x + [r], cut) == x
  {
    assert TrimLeftSet([l] + x + [r], cut) == TrimLeftSet(x + [r], cut) by {
      assert [l] + x + [r] == [l] + (x + [r]);
      TrimLeftOne(l, x + [r], cut);
    }
    if x == [] {
      assert TrimLeftSet(x + [r], cut) == [] by {
        assert x + [r] == [r] + x;
        TrimLeftOne(r, x, cut);
      }
    } else {
      assert TrimLeftSet(x + [r], cut) == x + [r] by {
        assert (x + [r])[0] == x[0];
      }
      TrimRightOne(x, r, cut);
    }
  }

  /** A `[x]` word becomes a METADATA token carrying `x`, even while a quote is open. */
  lemma {:induction false} LexMetadataWord(st: LexState, x: string)
    requires x == [] || (x[0] !in {'[', ']'} && x[|x| - 1] !in {'[', ']'})
    ensures Step(st, "[" + x + "]") == st.(tokens := st.tokens + [Token(Metadata, x)])
  {
    var w := "[" + x + "]";
    assert HasPrefix(w, "[") && HasSuffix(w, "]");
    TrimBetween('[', x, ']', {'[', ']'});
  }

  /** A word both opening and closing a quote, `"a"`, becomes the STRING `a`. */
  lemma {:induction false} LexQuotedWord(st: LexState, a: string)
    requires !st.insideQuotes
    ensures Step(st, "\"" + a + "\"").tokens == st.tokens + [Token(String, a)]
    ensures !Step(st, "\"" + a + "\"").insideQuotes
  {
    var w := "\"" + a + "\"";
    assert w[1..|w| - 1] == a;
    assert HasPrefix(w, "\"") && HasSuffix(w, "\"");
  }

  /** The words that may stand inside an open quote without closing it. */
  predicate QuoteInterior(words: seq<string>) {
    forall k :: 0 <= k < |words| ==> !IsBracketWord(words[k]) && !HasSuffix(words[k], "\"")
  }

  /** Each word inside an open quote is added to the quoted text after one space. */
  function SpacedConcat(words: seq<string>): string
    decreases |words|
  {
    if words == [] then "" else SpacedConcat(words[..|words| - 1]) + " " + words[|words| - 1]
  }

  lemma {:induction false} RunInsideQuote(st: LexState, words: seq<string>)
    requires st.insideQuotes && QuoteInterior(words)
    ensures Run(st, words) == st.(quoted := st.quoted + SpacedConcat(words))
    decreases |words|
  {
    if words != [] {
      var init := words[..|words| - 1];
      assert QuoteInterior(init) by {
        forall k | 0 <= k < |init| ensures !IsBracketWord(init[k]) && !HasSuffix(init[k], "\"") {
          assert init[k] == words[k];
        }
      }
      RunInsideQuote(st, init);
      assert !IsBracketWord(words[|words| - 1]);
    }
  }

  lemma {:induction false} JoinSpaced(a: string, words: seq<string>)
    ensures Join([a] + words, " ") == a + SpacedConcat(words)
    decreases |words|
  {
    if words != [] {
      var init := words[..|words| - 1];
      assert ([a] + words)[..|[a] + words| - 1] == [a] + init;
      JoinSpaced(a, init);
    }
  }

  /**
   * An unclosed quote swallows every later word that neither closes it nor is
   * a `[..]` word: no token is emitted for them.
   */
  lemma {:induction false} LexUnterminatedQuote(st: LexState, words: seq<string>)
    requires st.insideQuotes && QuoteInterior(words)
    ensures Run(st, words).tokens == st.tokens
    ensures Run(st, words).insideQuotes
  {
    RunInsideQuote(st, words);
  }

  lemma {:induction false} RunSingle(st: LexState, w: string)
    ensures Run(st, [w]) == Step(st, w)
  {
    var none: seq<string> := [];
    assert [w][..0] == none;
  }

  /** A word `"a` whose tail is not a quote opens a quote holding `a`. */
  lemma {:induction false} OpenQuote(st: LexState, a: string)
    requires !st.insideQuotes
    requires a == [] || a[|a| - 1] != '"'
    ensures Step(st, "\"" + a) == st.(insideQuotes := true, quoted := a)
  {
    var first := "\"" + a;
    assert first[1..] == a;
    assert HasPrefix(first, "\"") && !IsBracketWord(first);
    assert !(HasSuffix(first, "\"") && |first| > 1) by {
      if |first| > 1 {
        assert first[|first| - 1] == a[|a| - 1];
      }
    }
  }

  /** A word `b"` closes an open quote and emits the STRING gathered so far. */
  lemma {:induction false} CloseQuote(st: LexState, b: string)
    requires st.insideQuotes
    ensures var q := st.quoted + " " + b;
      Step(st, b + "\"") == st.(insideQuotes := false, quoted := q, tokens := st.tokens + [Token(String, q)])
  {
    var last := b + "\"";
    assert HasSuffix(last, "\"") && last[..|last| - 1] == b;
    assert !IsBracketWord(last);
  }

  /**
   * `"a m1 ... mk b"`: the words from the opening to the closing quote become
   * one STRING token, the words joined by single spaces.
   */
  lemma {:induction false} LexQuotedRun(st: LexState, a: string, middle: seq<string>, b: string)
    requires !st.insideQuotes
    requires a == [] || a[|a| - 1] != '"'
    requires QuoteInterior(middle)
    ensures var q := Join([a] + middle + [b], " ");
      Run(st, ["\"" + a] + middle + [b + "\""]) == st.(quoted := q, tokens := st.tokens + [Token(String, q)])
  {
    var q := a + SpacedConcat(middle) + " " + b;
    assert Run(st, ["\"" + a] + middle + [b + "\""]) == st.(quoted := q, tokens := st.tokens + [Token(String, q)]) by {
      QuotedRun(st, a, middle, b);
    }
    assert Join([a] + middle + [b], " ") == q by {
      JoinQuoted(a, middle, b);
    }
  }

  /** The states the quote passes through: opened, extended word by word, closed. */
  lemma {:induction false} QuotedRun(st: LexState, a: string, middle: seq<string>, b: string)
    requires !st.insideQuotes
    requires a == [] || a[|a| - 1] != '"'
    requires QuoteInterior(middle)
    ensures var q := a + SpacedConcat(middle) + " " + b;
      Run(st, ["\"" + a] + middle + [b + "\""]) == st.(quoted := q, tokens := st.tokens + [Token(String, q)])
  {
    var first, last := "\"" + a, b + "\"";
    var openSt := st.(insideQuotes := true, quoted := a);
    var inside := openSt.(quoted := a + SpacedConcat(middle));
    assert Run(st, [first] + middle) == inside by {
      RunSingle(st, first);
      OpenQuote(st, a);
      RunAppend(st, [first], middle);
      RunInsideQuote(openSt, middle);
    }
    RunAppend(st, [first] + middle, [last]);
    RunSingle(inside, last);
    CloseQuote(inside, b);
  }

  lemma {:induction false} JoinQuoted(a: string, middle: seq<string>, b: string)
    ensures Join([a] + middle + [b], " ") == a + SpacedConcat(middle) + " " + b
  {
    JoinSpaced(a, middle + [b]);
    assert (middle + [b])[..|middle + [b]| - 1] == middle;
    assert SpacedConcat(middle + [b]) == SpacedConcat(middle) + " " + b;
    assert [a] + middle + [b] == [a] + (middle + [b]);
  }

  /** The first pass cuts one trailing comma off a word and puts a "," word right behind it. */
  lemma {:induction false} SpliceTrailingComma(words: seq<string>, u: string)
    ensures SpliceCommas(words + [u + ","]) == SpliceCommas(words) + [u, ","]
  {
    var w := u + ",";
    assert (words + [w])[..|words|] == words;
    assert HasSuffix(w, ",") && w[..|w| - 1] == u;
  }

  /** Outside quotes, a "," word becomes a COMMA token. */
  lemma {:induction false} LexCommaWord(st: LexState)
    requires !st.insideQuotes
    ensures Step(st, ",").tokens == st.tokens + [Token(Comma, ",")]
  {
    assert ToUpper(",") == ",";
  }

  /**
   * Any other word becomes a NUMBER when strconv.Atoi accepts it; NO right
   * after TABLE, and ID right after TABLE NO, become upper-case IDENTIFIERs;
   * otherwise it is a STRING between FROM and WHERE and an IDENTIFIER elsewhere.
   */
  lemma {:induction false} LexBareWord(st: LexState, word: string)
    requires !st.insideQuotes && !IsBracketWord(word) && !HasPrefix(word, "\"")
    requires KeywordKind(ToUpper(word)).None?
    ensures var toks := st.tokens;
      var up := ToUpper(word);
      var t :=
        if Atoi(word).Some? then Token(Number, word)
        else if |toks| > 0 && toks[|toks| - 1].kind == Table && up == "NO" then Token(Identifier, "NO")
        else if |toks| > 1 && toks[|toks| - 2].kind == Table && toks[|toks| - 1].kind == Identifier && up == "ID" then Token(Identifier, "ID")
        else if st.gotFrom && !st.gotWhere then Token(String, word)
        else Token(Identifier, word);
      Step(st, word) == st.(tokens := toks + [t])
  {
  }
}
