/**
 * The Vee lexer: a character-at-a-time state machine with a quote state and a comment
 * state that turns source text into keyword, identifier, number, string, newline and
 * symbol tokens, each with the line and column it was recorded at, closed by one EOF
 * token. `Feed` is the reference semantics of one character; the `Tokenizer` class runs
 * the same machine over its fields in place.
 */
module Lexer {
  import opened Wrappers
  import opened Exceptions
  import opened Text

  datatype TokenType = KEY | IDN | NUM | STR | NEL | SYM | EOF | NON

  /** A token; only the EOF token has no text. */
  datatype Token = Token(value: Option<string>, kind: TokenType, line: int, column: int)

  const Keywords: set<string> := {"class", "func", "for", "if", "return"}

  /** The text of a newline token. */
  const NewlineText := "(<-|)"

  /** Where the comment recogniser is: outside, after one '/', in a line comment, in a block comment, or after a '*' in one. */
  datatype Comment = NoComment | Pending | LineComment | Block | BlockStar

  /** The fields of the tokenizer plus the two state variables of its loop. */
  datatype LexState = LexState(
    tokens: seq<Token>,
    line: int,
    column: int,
    current: string,
    quote: Option<char>,
    comment: Comment)

  /** A fresh tokenizer at line 1, column 1. */
  function Init(): LexState {
    LexState([], 1, 1, "", None, NoComment)
  }

  /** The kind of a word: NUM when all digits, KEY when a keyword, otherwise IDN. */
  function WordKind(w: string): TokenType {
    if AllDigits(w) then NUM else if w in Keywords then KEY else IDN
  }

  /** Flushes the pending word, if any, as a token, and moves the column past it. */
  function AddCurrent(s: LexState): (r: LexState)
    ensures r.current == "" && r.line == s.line && r.quote == s.quote && r.comment == s.comment
    ensures s.current == "" ==> r == s
    ensures s.current != "" ==>
      r.tokens == s.tokens + [Token(Some(s.current), WordKind(s.current), s.line, s.column)]
      && r.column == s.column + |s.current|
  {
    if s.current == "" then s
    else s.(tokens := s.tokens + [Token(Some(s.current), WordKind(s.current), s.line, s.column)],
            column := s.column + |s.current|, current := "")
  }

  /** Records a token at the current position and moves the column past its text. */
  function Emit(s: LexState, value: Option<string>, kind: TokenType): LexState {
    var len := if value.Some? then |value.value| else 0;
    s.(tokens := s.tokens + [Token(value, kind, s.line, s.column)], column := s.column + len)
  }

  predicate IsBlank(c: char) { c == ' ' || c == '\t' || c == '\n' || c == '\r' }

  predicate IsQuote(c: char) { c == '\'' || c == '"' }

  /**
   * A character outside strings and comments: blanks flush the word (a newline also
   * records a newline token and starts the next line), a quote opens a string (the
   * pending word must be empty, or the source's `assert` fails), a word character
   * extends the word, and anything else flushes the word and is a symbol of its own.
   */
  function Plain(s: LexState, c: char): Result<LexState, Exc> {
    if IsBlank(c) then
      var s1 := AddCurrent(s);
      var s2 := s1.(column := s1.column + 1);
      if c == '\n' then
        var s3 := Emit(s2, Some(NewlineText), NEL);
        Ok(s3.(line := s3.line + 1, column := 1))
      else Ok(s2)
    else if IsQuote(c) then
      if s.current != "" then Err(AssertionError) else Ok(s.(quote := Some(c)))
    else if !IsWordChar(c) then Ok(Emit(AddCurrent(s), Some([c]), SYM))
    else Ok(s.(current := s.current + [c]))
  }

  /**
   * One character. `fix` selects what happens after a lone '/' followed by a character
   * that starts no comment: as written (`fix` false) the '/' symbol is recorded but the
   * pending state is never left, so every later character outside a string records
   * another '/' (and a newline counts twice); corrected (`fix` true) the state returns to
   * normal and the character is handled as usual.
   */
  function Feed(s: LexState, c: char, fix: bool): Result<LexState, Exc> {
    if s.quote.Some? then
      if c != s.quote.value then Ok(s.(current := s.current + [c]))
      else
        var s1 := Emit(s, Some(s.current), STR);
        Ok(s1.(column := s1.column + 2, current := "", quote := None))
    else if s.comment != NoComment then
      var s1 := if c == '\n' then s.(line := s.line + 1) else s;
      match s.comment
      case LineComment => Ok(if c == '\n' then s1.(comment := NoComment) else s1)
      case Block => Ok(if c == '*' then s1.(comment := BlockStar) else s1)
      case BlockStar => Ok(s1.(comment := if c == '/' then NoComment else Block))
      case Pending =>
        if c == '/' then Ok(s1.(comment := LineComment))
        else if c == '*' then Ok(s1.(comment := Block))
        else if fix then Plain(Emit(AddCurrent(s.(comment := NoComment)), Some("/"), SYM), c)
        else Plain(Emit(AddCurrent(s1), Some("/"), SYM), c)
    else if c == '/' then Ok(s.(comment := Pending))
    else Plain(s, c)
  }

  /** The characters of `src` one after another. */
  function Run(s: LexState, src: string, fix: bool): Result<LexState, Exc>
    decreases |src|
  {
    if |src| == 0 then Ok(s)
    else
      var s1 :- Feed(s, src[0], fix);
      Run(s1, src[1..], fix)
  }

  /** The end of the input: flush the pending word and record the EOF token. */
  function Finish(s: LexState): LexState {
    Emit(AddCurrent(s), None, EOF)
  }

  /** The whole of `tokenize`: every character, then the end of input. */
  function Lex(s: LexState, src: string, fix: bool): Result<LexState, Exc> {
    var e :- Run(s, src, fix);
    Ok(Finish(e))
  }

  /** `tokenize` on a fresh tokenizer, as the code is written. */
  function LexAsWritten(src: string): Result<seq<Token>, Exc> {
    var e :- Lex(Init(), src, false);
    Ok(e.tokens)
  }

  /** `tokenize` on a fresh tokenizer, with the pending '/' state left as intended. */
  function LexCorrected(src: string): Result<seq<Token>, Exc> {
    var e :- Lex(Init(), src, true);
    Ok(e.tokens)
  }

  // ---------------------------------------------------------------------------------
  // What every token looks like

  /**
   * The shapes a token can have: a word is NUM exactly when all digits, KEY exactly when
   * a keyword, IDN otherwise and never empty; a symbol is one character that is neither
   * blank, a quote nor a word character; a newline token has the newline text; a string
   * any text; no token is EOF or NON.
   */
  predicate WellFormed(t: Token) {
    match t.kind
    case NUM => t.value.Some? && AllDigits(t.value.value)
    case KEY => t.value.Some? && t.value.value in Keywords && !AllDigits(t.value.value)
    case IDN => t.value.Some? && t.value.value != "" && !AllDigits(t.value.value) && t.value.value !in Keywords
    case SYM => t.value.Some? && |t.value.value| == 1 && var c := t.value.value[0];
                !IsBlank(c) && !IsQuote(c) && !IsWordChar(c)
    case NEL => t.value == Some(NewlineText)
    case STR => t.value.Some?
    case EOF => false
    case NON => false
  }

  /** Every token is well formed, and lines never decrease along the list nor exceed the current line. */
  predicate Inv(s: LexState) {
    && s.line >= 1
    && (forall i :: 0 <= i < |s.tokens| ==> WellFormed(s.tokens[i]))
    && (forall i :: 0 <= i < |s.tokens| ==> s.tokens[i].line <= s.line)
    && (forall i, j :: 0 <= i < j < |s.tokens| ==> s.tokens[i].line <= s.tokens[j].line)
  }

  lemma WordWellFormed(w: string, line: int, column: int)
    requires w != ""
    ensures WellFormed(Token(Some(w), WordKind(w), line, column))
  {
    if w in Keywords {
      assert !IsDigit(w[0]);
    }
  }

  /** Appending a well-formed token on the current line keeps the invariant. */
  lemma AppendKeeps(s: LexState, t: Token, r: LexState)
    requires Inv(s) && WellFormed(t) && t.line == s.line
    requires r.tokens == s.tokens + [t] && r.line >= s.line
    ensures Inv(r)
  {
  }

  lemma AddCurrentKeeps(s: LexState)
    requires Inv(s)
    ensures Inv(AddCurrent(s))
  {
    if s.current != "" {
      WordWellFormed(s.current, s.line, s.column);
      AppendKeeps(s, Token(Some(s.current), WordKind(s.current), s.line, s.column), AddCurrent(s));
    }
  }

  lemma PlainKeeps(s: LexState, c: char)
    requires Inv(s)
    ensures Plain(s, c).Ok? ==> Inv(Plain(s, c).value)
  {
    AddCurrentKeeps(s);
    var s1 := AddCurrent(s);
    if IsBlank(c) && c == '\n' {
      var s2 := s1.(column := s1.column + 1);
      AppendKeeps(s2, Token(Some(NewlineText), NEL, s2.line, s2.column), Emit(s2, Some(NewlineText), NEL));
    } else if !IsBlank(c) && !IsQuote(c) && !IsWordChar(c) {
      AppendKeeps(s1, Token(Some([c]), SYM, s1.line, s1.column), Emit(s1, Some([c]), SYM));
    }
  }

  /** A lone '/' followed by a character that starts no comment keeps the invariant. */
  lemma PendingKeeps(s: LexState, c: char, fix: bool)
    requires Inv(s) && s.quote == None && s.comment == Pending && c != '/' && c != '*'
    ensures Feed(s, c, fix).Ok? ==> Inv(Feed(s, c, fix).value)
  {
    var b := if fix then s.(comment := NoComment) else if c == '\n' then s.(line := s.line + 1) else s;
    assert Inv(b);
    AddCurrentKeeps(b);
    var a := AddCurrent(b);
    AppendKeeps(a, Token(Some("/"), SYM, a.line, a.column), Emit(a, Some("/"), SYM));
    PlainKeeps(Emit(a, Some("/"), SYM), c);
    assert Feed(s, c, fix) == Plain(Emit(a, Some("/"), SYM), c);
  }

  /** One character keeps the invariant, in both variants. */
  lemma FeedKeeps(s: LexState, c: char, fix: bool)
    requires Inv(s)
    ensures Feed(s, c, fix).Ok? ==> Inv(Feed(s, c, fix).value)
  {
    if s.quote.Some? {
      if c == s.quote.value {
        AppendKeeps(s, Token(Some(s.current), STR, s.line, s.column), Emit(s, Some(s.current), STR));
      }
    } else if s.comment == Pending && c != '/' && c != '*' {
      PendingKeeps(s, c, fix);
    } else if s.comment == NoComment && c != '/' {
      PlainKeeps(s, c);
    }
  }

  lemma {:induction false} RunKeeps(s: LexState, src: string, fix: bool)
    requires Inv(s)
    ensures Run(s, src, fix).Ok? ==> Inv(Run(s, src, fix).value)
    decreases |src|
  {
    if |src| > 0 {
      FeedKeeps(s, src[0], fix);
      var s1 := Feed(s, src[0], fix);
      if s1.Ok? {
        RunKeeps(s1.value, src[1..], fix);
      }
    }
  }

  /**
   * What `tokenize` returns on a fresh tokenizer, in both variants: a list that ends with
   * exactly one EOF token, whose value is None, after well-formed tokens whose lines
   * never decrease.
   */
  lemma LexShape(src: string, fix: bool)
    ensures var r := Lex(Init(), src, fix);
      r.Ok? ==>
        var ts := r.value.tokens;
        && |ts| > 0
        && ts[|ts| - 1].kind == EOF && ts[|ts| - 1].value == None
        && (forall i :: 0 <= i < |ts| - 1 ==> ts[i].kind != EOF && WellFormed(ts[i]))
        && (forall i, j :: 0 <= i < j < |ts| ==> ts[i].line <= ts[j].line)
  {
    RunKeeps(Init(), src, fix);
    var e := Run(Init(), src, fix);
    if e.Ok? {
      AddCurrentKeeps(e.value);
      var a := AddCurrent(e.value);
      var ts := Finish(e.value).tokens;
      assert ts == a.tokens + [Token(None, EOF, a.line, a.column)];
      assert forall i :: 0 <= i < |ts| - 1 ==> ts[i] == a.tokens[i];
    }
  }

  /** One character only ever appends tokens. */
  lemma FeedExtends(s: LexState, c: char, fix: bool)
    ensures Feed(s, c, fix).Ok? ==> s.tokens <= Feed(s, c, fix).value.tokens
  {
  }

  /** The tokens already recorded are never changed; new ones are only appended. */
  lemma {:induction false} RunExtends(s: LexState, src: string, fix: bool)
    ensures Run(s, src, fix).Ok? ==> s.tokens <= Run(s, src, fix).value.tokens
    decreases |src|
  {
    if |src| > 0 {
      FeedExtends(s, src[0], fix);
      var s1 := Feed(s, src[0], fix);
      if s1.Ok? {
        RunExtends(s1.value, src[1..], fix);
      }
    }
  }

  // ---------------------------------------------------------------------------------
  // Words, strings, symbols, newlines and comments

  /** The state between tokens: no pending word, not in a string, not in a comment. */
  predicate Clean(s: LexState) {
    s.current == "" && s.quote == None && s.comment == NoComment
  }

  predicate IsWord(w: string) {
    forall i :: 0 <= i < |w| ==> IsWordChar(w[i])
  }

  /** A run of word characters only extends the pending word. */
  lemma {:induction false} WordAccumulates(s: LexState, w: string, fix: bool)
    requires s.quote == None && s.comment == NoComment && IsWord(w)
    ensures Run(s, w, fix) == Ok(s.(current := s.current + w))
    decreases |w|
  {
    if |w| > 0 {
      var c := w[0];
      assert IsWordChar(c);
      assert !IsBlank(c) && !IsQuote(c) && c != '/';
      assert Feed(s, c, fix) == Ok(s.(current := s.current + [c]));
      WordAccumulates(s.(current := s.current + [c]), w[1..], fix);
      assert w == [c] + w[1..];
      assert s.current + [c] + w[1..] == s.current + w;
    } else {
      assert s.current + w == s.current;
    }
  }

  /**
   * A maximal run of letters, digits and '_' is one token: on its own it lexes to that
   * word, classified NUM, KEY or IDN, followed by EOF.
   */
  lemma LexWord(w: string, fix: bool)
    requires w != "" && IsWord(w)
    ensures Lex(Init(), w, fix) ==
      Ok(LexState([Token(Some(w), WordKind(w), 1, 1), Token(None, EOF, 1, 1 + |w|)], 1, 1 + |w|, "", None, NoComment))
  {
    WordAccumulates(Init(), w, fix);
    assert Init().current + w == w;
    var e := LexState([], 1, 1, w, None, NoComment);
    assert Run(Init(), w, fix) == Ok(e);
    var a := AddCurrent(e);
    assert a == LexState([Token(Some(w), WordKind(w), 1, 1)], 1, 1 + |w|, "", None, NoComment);
    assert Finish(e) == Emit(a, None, EOF);
    assert a.tokens + [Token(None, EOF, 1, 1 + |w|)] == [Token(Some(w), WordKind(w), 1, 1), Token(None, EOF, 1, 1 + |w|)];
    assert Lex(Init(), w, fix) == Ok(Finish(e));
  }

  /** Text between two identical quotes is one STR token, verbatim: no escape is decoded. */
  lemma StringLiteral(s: LexState, q: char, body: string, fix: bool)
    requires Clean(s) && IsQuote(q) && q !in body
    ensures Run(s, [q] + body + [q], fix) ==
      Ok(s.(tokens := s.tokens + [Token(Some(body), STR, s.line, s.column)], column := s.column + |body| + 2))
  {
    var s1 := s.(quote := Some(q));
    StringOpen(s, q, body + [q], fix);
    assert [q] + body + [q] == [q] + (body + [q]);
    StringBody(s1, body, fix);
    assert s1.current + body == body;
    StringClose(s, q, body, fix);
    RunAppend(s1, body, [q], fix);
  }

  /** An opening quote only starts a string. */
  lemma StringOpen(s: LexState, q: char, rest: string, fix: bool)
    requires Clean(s) && IsQuote(q)
    ensures Run(s, [q] + rest, fix) == Run(s.(quote := Some(q)), rest, fix)
  {
    assert Feed(s, q, fix) == Ok(s.(quote := Some(q)));
    assert ([q] + rest)[0] == q && ([q] + rest)[1..] == rest;
  }

  /** The closing quote emits the collected text as one STR token at the opening column. */
  lemma StringClose(s: LexState, q: char, body: string, fix: bool)
    requires Clean(s) && IsQuote(q)
    ensures Run(s.(quote := Some(q), current := body), [q], fix) ==
      Ok(s.(tokens := s.tokens + [Token(Some(body), STR, s.line, s.column)], column := s.column + |body| + 2))
  {
    var s2 := s.(quote := Some(q), current := body);
    var fin := s.(tokens := s.tokens + [Token(Some(body), STR, s.line, s.column)], column := s.column + |body| + 2);
    assert Feed(s2, q, fix) == Ok(fin);
    assert [q][1..] == [];
  }

  /** Inside a string every character other than the closing quote is kept. */
  lemma {:induction false} StringBody(s: LexState, body: string, fix: bool)
    requires s.quote.Some? && s.quote.value !in body
    ensures Run(s, body, fix) == Ok(s.(current := s.current + body))
    decreases |body|
  {
    if |body| > 0 {
      assert body[0] in body;
      StringBody(s.(current := s.current + [body[0]]), body[1..], fix);
      assert s.current + [body[0]] + body[1..] == s.current + body;
    } else {
      assert s.current + body == s.current;
    }
  }

  /** Running two pieces of text is running the first, then the second. */
  lemma {:induction false} RunAppend(s: LexState, a: string, b: string, fix: bool)
    ensures Run(s, a + b, fix) == (match Run(s, a, fix) case Ok(m) => Run(m, b, fix) case Err(e) => Err(e))
    decreases |a|
  {
    if |a| > 0 {
      assert (a + b)[0] == a[0] && (a + b)[1..] == a[1..] + b;
      var s1 := Feed(s, a[0], fix);
      if s1.Ok? {
        RunAppend(s1.value, a[1..], b, fix);
      }
    } else {
      assert a + b == b;
    }
  }

  /**
   * Any other character outside strings and comments flushes the word and is a
   * single-character SYM token: multi-character operators are never produced.
   */
  lemma Symbol(s: LexState, c: char, fix: bool)
    requires s.quote == None && s.comment == NoComment
    requires !IsBlank(c) && !IsQuote(c) && !IsWordChar(c) && c != '/'
    ensures var a := AddCurrent(s);
      Feed(s, c, fix) == Ok(a.(tokens := a.tokens + [Token(Some([c]), SYM, a.line, a.column)], column := a.column + 1))
  {
  }

  /** A newline flushes the word, records a NEL token, and starts the next line at column 1. */
  lemma Newline(s: LexState, fix: bool)
    requires s.quote == None && s.comment == NoComment
    ensures var a := AddCurrent(s);
      Feed(s, '\n', fix) ==
        Ok(a.(tokens := a.tokens + [Token(Some(NewlineText), NEL, a.line, a.column + 1)], line := a.line + 1, column := 1))
  {
  }

  /** `//` swallows the rest of the line: its newline counts a line but records no token, and the column stays. */
  lemma LineCommentSkipped(s: LexState, text: string, fix: bool)
    requires Clean(s) && '\n' !in text
    ensures Run(s, "//" + text + "\n", fix) == Ok(s.(line := s.line + 1))
  {
    var s1 := s.(comment := LineComment);
    assert Run(s, "//", fix) == Ok(s1);
    LineCommentBody(s1, text, fix);
    assert Run(s1, "\n", fix) == Ok(s.(line := s.line + 1));
    RunAppend(s, "//", text + "\n", fix);
    RunAppend(s1, text, "\n", fix);
    assert "//" + text + "\n" == "//" + (text + "\n");
  }

  lemma {:induction false} LineCommentBody(s: LexState, text: string, fix: bool)
    requires s.quote == None && s.comment == LineComment && '\n' !in text
    ensures Run(s, text, fix) == Ok(s)
    decreases |text|
  {
    if |text| > 0 {
      LineCommentBody(s, text[1..], fix);
    }
  }

  /** `/*` ... `*/` with no '*' inside records nothing and counts the newlines it contains. */
  lemma BlockCommentSkipped(s: LexState, text: string, fix: bool)
    requires Clean(s) && '*' !in text
    ensures Run(s, "/*" + text + "*/", fix) == Ok(s.(line := s.line + Count(text, '\n')))
  {
    var s1 := s.(comment := Block);
    assert Run(s, "/*", fix) == Ok(s1);
    BlockCommentBody(s1, text, fix);
    var s2 := s1.(line := s.line + Count(text, '\n'));
    assert Run(s2, "*/", fix) == Ok(s.(line := s.line + Count(text, '\n')));
    RunAppend(s, "/*", text + "*/", fix);
    RunAppend(s1, text, "*/", fix);
    assert "/*" + text + "*/" == "/*" + (text + "*/");
  }

  lemma {:induction false} BlockCommentBody(s: LexState, text: string, fix: bool)
    requires s.quote == None && s.comment == Block && '*' !in text
    ensures Run(s, text, fix) == Ok(s.(line := s.line + Count(text, '\n')))
    decreases |text|
  {
    if |text| > 0 {
      var s1 := if text[0] == '\n' then s.(line := s.line + 1) else s;
      assert Feed(s, text[0], fix) == Ok(s1);
      BlockCommentBody(s1, text[1..], fix);
    }
  }

  /**
   * In a block comment, a '/' right after a '*' closes it, but a second '*' returns to the
   * plain block state, so two stars followed by a slash do not close the comment.
   */
  lemma BlockStarStar(s: LexState, fix: bool)
    requires s.quote == None && s.comment == BlockStar
    ensures Run(s, "*/", fix) == Ok(s.(comment := Block))
    ensures Run(s, "/", fix) == Ok(s.(comment := NoComment))
  {
    assert Feed(s, '*', fix) == Ok(s.(comment := Block));
    assert Feed(s.(comment := Block), '/', fix) == Ok(s.(comment := Block));
    assert "*/"[1..] == "/" && "/"[1..] == "";
    assert Run(s.(comment := Block), "/", fix) == Ok(s.(comment := Block));
  }

  // ---------------------------------------------------------------------------------
  // The pending '/' state

  /** The word "a" starts from a fresh tokenizer. */
  lemma SlashFirst(fix: bool)
    ensures Feed(Init(), 'a', fix) == Ok(LexState([], 1, 1, "a", None, NoComment))
    ensures Feed(LexState([], 1, 1, "a", None, NoComment), '/', fix) == Ok(LexState([], 1, 1, "a", None, Pending))
  {
    assert !IsBlank('a') && !IsQuote('a') && IsWordChar('a');
    assert Init().current + ['a'] == "a";
  }

  lemma WordKinds()
    ensures WordKind("a") == IDN && WordKind("b") == IDN && WordKind("c") == IDN
  {
    assert "a"[0] == 'a' && "b"[0] == 'b' && "c"[0] == 'c';
    assert !IsDigit('a') && !IsDigit('b') && !IsDigit('c');
    assert !AllDigits("a") && !AllDigits("b") && !AllDigits("c");
    assert "a" !in Keywords && "b" !in Keywords && "c" !in Keywords;
  }

  /** Running "a/b+c" through the states given, one character at a time. */
  lemma SlashSteps(s0: LexState, s1: LexState, s2: LexState, s3: LexState, s4: LexState, s5: LexState, fix: bool)
    requires Feed(s0, 'a', fix) == Ok(s1) && Feed(s1, '/', fix) == Ok(s2) && Feed(s2, 'b', fix) == Ok(s3)
    requires Feed(s3, '+', fix) == Ok(s4) && Feed(s4, 'c', fix) == Ok(s5)
    ensures Lex(s0, "a/b+c", fix) == Ok(Finish(s5))
  {
    var src := "a/b+c";
    assert src[1..] == "/b+c" && src[1..][1..] == "b+c" && src[1..][1..][1..] == "+c";
    assert src[1..][1..][1..][1..] == "c" && src[1..][1..][1..][1..][1..] == "";
  }

  lemma AsWrittenB()
    ensures Feed(LexState([], 1, 1, "a", None, Pending), 'b', false)
      == Ok(LexState([Token(Some("a"), IDN, 1, 1), Token(Some("/"), SYM, 1, 2)], 1, 3, "b", None, Pending))
  {
    WordKinds();
    var s2 := LexState([], 1, 1, "a", None, Pending);
    var g2 := LexState([Token(Some("a"), IDN, 1, 1), Token(Some("/"), SYM, 1, 2)], 1, 3, "", None, Pending);
    assert AddCurrent(s2) == LexState([Token(Some("a"), IDN, 1, 1)], 1, 2, "", None, Pending);
    assert Emit(AddCurrent(s2), Some("/"), SYM) == g2;
    assert !IsBlank('b') && !IsQuote('b') && IsWordChar('b');
    assert g2.current + ['b'] == "b";
  }

  lemma AsWrittenPlus(ta: Token, t1: Token)
    ensures Feed(LexState([ta, t1], 1, 3, "b", None, Pending), '+', false)
      == Ok(LexState([ta, t1, Token(Some("b"), IDN, 1, 3), Token(Some("/"), SYM, 1, 4), Token(Some("+"), SYM, 1, 5)], 1, 6, "", None, Pending))
  {
    WordKinds();
    var tb := Token(Some("b"), IDN, 1, 3);
    var t2 := Token(Some("/"), SYM, 1, 4);
    var s3 := LexState([ta, t1], 1, 3, "b", None, Pending);
    var g3 := LexState([ta, t1, tb, t2], 1, 5, "", None, Pending);
    assert AddCurrent(s3) == LexState([ta, t1, tb], 1, 4, "", None, Pending);
    assert Emit(AddCurrent(s3), Some("/"), SYM) == g3;
    assert !IsBlank('+') && !IsQuote('+') && !IsWordChar('+');
    assert AddCurrent(g3) == g3;
    assert ['+'] == "+";
    assert Plain(g3, '+') == Ok(Emit(g3, Some("+"), SYM));
    assert [ta, t1, tb, t2] + [Token(Some("+"), SYM, 1, 5)] == [ta, t1, tb, t2, Token(Some("+"), SYM, 1, 5)];
    assert '+' != '/' && '+' != '*' && '+' != '\n';
  }

  lemma AsWrittenC(ts: seq<Token>)
    ensures Feed(LexState(ts, 1, 6, "", None, Pending), 'c', false)
      == Ok(LexState(ts + [Token(Some("/"), SYM, 1, 6)], 1, 7, "c", None, Pending))
  {
    var s4 := LexState(ts, 1, 6, "", None, Pending);
    var g4 := LexState(ts + [Token(Some("/"), SYM, 1, 6)], 1, 7, "", None, Pending);
    assert AddCurrent(s4) == s4;
    assert Emit(s4, Some("/"), SYM) == g4;
    assert !IsBlank('c') && !IsQuote('c') && IsWordChar('c');
    assert g4.current + ['c'] == "c";
  }

  /** As written, "a/b+c" records a '/' before "+" and another before "c". */
  lemma SlashAsWritten()
    ensures LexAsWritten("a/b+c") == Ok([
      Token(Some("a"), IDN, 1, 1), Token(Some("/"), SYM, 1, 2), Token(Some("b"), IDN, 1, 3),
      Token(Some("/"), SYM, 1, 4), Token(Some("+"), SYM, 1, 5), Token(Some("/"), SYM, 1, 6),
      Token(Some("c"), IDN, 1, 7), Token(None, EOF, 1, 8)])
  {
    var ta := Token(Some("a"), IDN, 1, 1);
    var t1 := Token(Some("/"), SYM, 1, 2);
    var tb := Token(Some("b"), IDN, 1, 3);
    var t2 := Token(Some("/"), SYM, 1, 4);
    var tp := Token(Some("+"), SYM, 1, 5);
    var t3 := Token(Some("/"), SYM, 1, 6);
    var s1 := LexState([], 1, 1, "a", None, NoComment);
    var s2 := s1.(comment := Pending);
    var s3 := LexState([ta, t1], 1, 3, "b", None, Pending);
    var s4 := LexState([ta, t1, tb, t2, tp], 1, 6, "", None, Pending);
    var s5 := LexState([ta, t1, tb, t2, tp, t3], 1, 7, "c", None, Pending);
    SlashFirst(false);
    AsWrittenB();
    AsWrittenPlus(ta, t1);
    AsWrittenC([ta, t1, tb, t2, tp]);
    assert [ta, t1, tb, t2, tp] + [t3] == s5.tokens;
    SlashSteps(Init(), s1, s2, s3, s4, s5, false);
    WordKinds();
    var fin := Finish(s5);
    assert fin.tokens == [ta, t1, tb, t2, tp, t3, Token(Some("c"), IDN, 1, 7), Token(None, EOF, 1, 8)];
  }

  lemma CorrectedB()
    ensures Feed(LexState([], 1, 1, "a", None, Pending), 'b', true)
      == Ok(LexState([Token(Some("a"), IDN, 1, 1), Token(Some("/"), SYM, 1, 2)], 1, 3, "b", None, NoComment))
  {
    WordKinds();
    var s1 := LexState([], 1, 1, "a", None, NoComment);
    var g2 := LexState([Token(Some("a"), IDN, 1, 1), Token(Some("/"), SYM, 1, 2)], 1, 3, "", None, NoComment);
    assert AddCurrent(s1) == LexState([Token(Some("a"), IDN, 1, 1)], 1, 2, "", None, NoComment);
    assert Emit(AddCurrent(s1), Some("/"), SYM) == g2;
    assert !IsBlank('b') && !IsQuote('b') && IsWordChar('b');
    assert g2.current + ['b'] == "b";
  }

  lemma CorrectedPlus(ta: Token, t1: Token)
    ensures Feed(LexState([ta, t1], 1, 3, "b", None, NoComment), '+', true)
      == Ok(LexState([ta, t1, Token(Some("b"), IDN, 1, 3), Token(Some("+"), SYM, 1, 4)], 1, 5, "", None, NoComment))
  {
    WordKinds();
    var s3 := LexState([ta, t1], 1, 3, "b", None, NoComment);
    assert AddCurrent(s3) == LexState([ta, t1, Token(Some("b"), IDN, 1, 3)], 1, 4, "", None, NoComment);
    assert !IsBlank('+') && !IsQuote('+') && !IsWordChar('+');
    assert ['+'] == "+";
    assert Plain(s3, '+') == Ok(Emit(AddCurrent(s3), Some("+"), SYM));
    assert [ta, t1, Token(Some("b"), IDN, 1, 3)] + [Token(Some("+"), SYM, 1, 4)] == [ta, t1, Token(Some("b"), IDN, 1, 3), Token(Some("+"), SYM, 1, 4)];
  }

  lemma CorrectedC(ts: seq<Token>)
    ensures Feed(LexState(ts, 1, 5, "", None, NoComment), 'c', true) == Ok(LexState(ts, 1, 5, "c", None, NoComment))
  {
    assert !IsBlank('c') && !IsQuote('c') && IsWordChar('c');
    assert "" + ['c'] == "c";
  }

  /**
   * A lone '/' followed by a character that starts no comment. Corrected, the pending word
   * and one '/' symbol are recorded and the character is then handled exactly as in the
   * plain state, which the tokenizer is back in. As written, the tokenizer stays pending.
   */
  lemma SlashResolved(s: LexState, c: char)
    requires s.quote == None && s.comment == Pending && c != '/' && c != '*'
    ensures var w := AddCurrent(s.(comment := NoComment));
      var g := w.(tokens := w.tokens + [Token(Some("/"), SYM, w.line, w.column)], column := w.column + 1);
      && g.comment == NoComment && g.current == ""
      && Feed(s, c, true) == Feed(g, c, true)
      && Feed(s, c, true).Ok? && Feed(s, c, true).value.comment == NoComment
      && g.tokens <= Feed(s, c, true).value.tokens
    ensures Feed(s, c, false).Ok? && Feed(s, c, false).value.comment == Pending
  {
    var w := AddCurrent(s.(comment := NoComment));
    var g := w.(tokens := w.tokens + [Token(Some("/"), SYM, w.line, w.column)], column := w.column + 1);
    assert Emit(w, Some("/"), SYM) == g;
    assert Feed(s, c, true) == Plain(g, c);
    FeedExtends(g, c, true);
    var s1 := if c == '\n' then s.(line := s.line + 1) else s;
    var w1 := AddCurrent(s1);
    assert Feed(s, c, false) == Plain(Emit(w1, Some("/"), SYM), c);
  }

  /** Corrected, "a/b+c" is a, '/', b, '+', c and EOF. */
  lemma SlashCorrectedExample()
    ensures LexCorrected("a/b+c") == Ok([
      Token(Some("a"), IDN, 1, 1), Token(Some("/"), SYM, 1, 2), Token(Some("b"), IDN, 1, 3),
      Token(Some("+"), SYM, 1, 4), Token(Some("c"), IDN, 1, 5), Token(None, EOF, 1, 6)])
  {
    var ta := Token(Some("a"), IDN, 1, 1);
    var t1 := Token(Some("/"), SYM, 1, 2);
    var tb := Token(Some("b"), IDN, 1, 3);
    var tp := Token(Some("+"), SYM, 1, 4);
    var s1 := LexState([], 1, 1, "a", None, NoComment);
    var s2 := s1.(comment := Pending);
    var s3 := LexState([ta, t1], 1, 3, "b", None, NoComment);
    var s4 := LexState([ta, t1, tb, tp], 1, 5, "", None, NoComment);
    var s5 := LexState([ta, t1, tb, tp], 1, 5, "c", None, NoComment);
    SlashFirst(true);
    CorrectedB();
    CorrectedPlus(ta, t1);
    CorrectedC([ta, t1, tb, tp]);
    SlashSteps(Init(), s1, s2, s3, s4, s5, true);
    WordKinds();
    var fin := Finish(s5);
    assert fin.tokens == [ta, t1, tb, tp, Token(Some("c"), IDN, 1, 5), Token(None, EOF, 1, 6)];
  }

  // ---------------------------------------------------------------------------------
  // The tokenizer object

  class Tokenizer {
    var tokens: seq<Token>
    var line: int
    var column: int
    var current: string

    /** The fields, with the loop's quote and comment state. */
    function State(quote: Option<char>, comment: Comment): LexState
      reads this
    {
      LexState(tokens, line, column, current, quote, comment)
    }

    constructor()
      ensures State(None, NoComment) == Init()
    {
      tokens, line, column, current := [], 1, 1, "";
    }

    /** `add_current_token`: the pending word, if any, becomes a token. */
    method AddCurrentToken()
      modifies this
      ensures State(None, NoComment) == AddCurrent(old(State(None, NoComment)))
    {
      if current != "" {
        var kind := NON;
        if AllDigits(current) {
          kind := NUM;
        } else if current in Keywords {
          kind := KEY;
        } else {
          kind := IDN;
        }
        tokens := tokens + [Token(Some(current), kind, line, column)];
        column := column + |current|;
        current := "";
      }
    }

    /** `add_token`: records a token here and moves the column past its text. */
    method AddToken(value: Option<string>, kind: TokenType)
      modifies this
      ensures State(None, NoComment) == Emit(old(State(None, NoComment)), value, kind)
    {
      tokens := tokens + [Token(value, kind, line, column)];
      column := column + (if value.Some? then |value.value| else 0);
    }

    /** Handles a character outside strings and comments; the quote it may open is returned. */
    method PlainChar(c: char) returns (r: Result<Option<char>, Exc>)
      modifies this
      ensures var e := Plain(old(State(None, NoComment)), c);
        && (e.Ok? ==> r == Ok(e.value.quote) && State(e.value.quote, NoComment) == e.value)
        && (e.Err? ==> r == Err(e.error))
    {
      if IsBlank(c) {
        AddCurrentToken();
        column := column + 1;
        if c == '\n' {
          AddToken(Some(NewlineText), NEL);
          line := line + 1;
          column := 1;
        }
      } else if IsQuote(c) {
        if current != "" {
          return Err(AssertionError);
        }
        return Ok(Some(c));
      } else if !IsWordChar(c) {
        AddCurrentToken();
        AddToken(Some([c]), SYM);
      } else {
        current := current + [c];
      }
      return Ok(None);
    }

    /**
     * `tokenize`: runs the machine over `src` from the current fields, then flushes the
     * pending word and records EOF; the list of all tokens recorded is returned. The
     * pending '/' state is left as intended (see `Feed`).
     */
    method Tokenize(src: string) returns (r: Result<seq<Token>, Exc>)
      modifies this
      ensures var e := Lex(old(State(None, NoComment)), src, true);
        && (e.Ok? ==> r == Ok(tokens) && State(None, NoComment) == e.value.(quote := None, comment := NoComment))
        && (e.Err? ==> r == Err(e.error))
    {
      ghost var goal := Run(State(None, NoComment), src, true);
      var quote: Option<char> := None;
      var comment := NoComment;
      var i := 0;
      while i < |src|
        invariant 0 <= i <= |src|
        invariant Run(State(quote, comment), src[i..], true) == goal
      {
        assert src[i..][0] == src[i] && src[i..][1..] == src[i + 1..];
        var c := src[i];
        i := i + 1;
        if quote.Some? {
          if c != quote.value {
            current := current + [c];
          } else {
            AddToken(Some(current), STR);
            column := column + 2;
            current := "";
            quote := None;
          }
          continue;
        }
        if comment == Pending {
          if c == '/' {
            comment := LineComment;
            continue;
          } else if c == '*' {
            comment := Block;
            continue;
          }
          comment := NoComment;
          AddCurrentToken();
          AddToken(Some("/"), SYM);
        } else if comment != NoComment {
          if c == '\n' {
            line := line + 1;
          }
          if comment == LineComment {
            if c == '\n' {
              comment := NoComment;
            }
          } else if comment == Block {
            if c == '*' {
              comment := BlockStar;
            }
          } else {
            comment := if c == '/' then NoComment else Block;
          }
          continue;
        } else if c == '/' {
          comment := Pending;
          continue;
        }
        var q := PlainChar(c);
        if q.Err? {
          return Err(q.error);
        }
        quote := q.value;
      }
      AddCurrentToken();
      AddToken(None, EOF);
      return Ok(tokens);
    }
  }
}
