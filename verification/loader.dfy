/**
 * The instruction loader of the virtual machine: program text becomes one token list per
 * source line (so a line's index is its program counter), a two-level label table
 * ('global' plus one table per function) and a function-entry table.
 */
module Loader {
  import opened Wrappers
  import opened Exceptions
  import opened Text

  /** What loading produces: the token lines, the label tables and the function entries. */
  datatype Image = Image(
    program: seq<seq<string>>,
    labels: map<string, map<string, nat>>,
    funcs: map<string, nat>)

  // ---------------------------------------------------------------------------------
  // Splitting one line into tokens

  /** The character a backslash escape inside a quoted literal stands for. */
  function Escape(c: char): string {
    if c == 'b' then [8 as char]
    else if c == 'n' then "\n"
    else if c == 't' then "\t"
    else if c == '\'' then "'"
    else ['\\', c]
  }

  function Flush(toks: seq<string>, cur: string): seq<string> {
    if |cur| > 0 then toks + [cur] else toks
  }

  /**
   * The inner loop over a quoted literal, from index `i` with the literal read so far in
   * `cur`: the index of the closing quote and the decoded literal, or the IndexError a
   * literal without a closing quote (or ending in a backslash) raises.
   */
  function Literal(line: string, i: nat, cur: string): (r: Result<(nat, string), Exc>)
    ensures r.Ok? ==> i <= r.value.0 < |line| && line[r.value.0] == '\''
    decreases |line| - i
  {
    if i >= |line| then Err(IndexError)
    else if line[i] == '\'' then Ok((i, cur))
    else if line[i] == '\\' then
      if i + 1 >= |line| then Err(IndexError) else Literal(line, i + 2, cur + Escape(line[i + 1]))
    else Literal(line, i + 1, cur + [line[i]])
  }

  /** The outer loop of the line splitter, from index `i` with a pending word `cur`. */
  function Scan(line: string, i: nat, cur: string, toks: seq<string>): Result<seq<string>, Exc>
    decreases |line| - i
  {
    if i >= |line| then Ok(Flush(toks, cur))
    else if line[i] == '\'' then AfterQuote(line, i + 1, "'", Flush(toks, cur))
    else if line[i] == '/' then Ok(Flush(toks, cur))
    else if line[i] == ' ' then Scan(line, i + 1, "", Flush(toks, cur))
    else Scan(line, i + 1, cur + [line[i]], toks)
  }

  /** Reads a literal from `i` on, then resumes the outer loop after its closing quote. */
  function AfterQuote(line: string, i: nat, cur: string, toks: seq<string>): Result<seq<string>, Exc>
    decreases |line| - i, 0
  {
    match Literal(line, i, cur)
    case Err(e) => Err(e)
    case Ok((j, lit)) => Scan(line, j + 1, lit + [line[j]], toks)
  }

  /** The tokens of one (already stripped) instruction line. */
  function SplitLine(line: string): Result<seq<string>, Exc> {
    Scan(line, 0, "", [])
  }

  /** Splits a line on spaces, keeps quoted literals whole and stops at a '/'. */
  method Tokenize(line: string) returns (r: Result<seq<string>, Exc>)
    ensures r == SplitLine(line)
  {
    var tokens: seq<string> := [];
    var current := "";
    var i := 0;
    while i < |line|
      invariant i <= |line|
      invariant Scan(line, i, current, tokens) == SplitLine(line)
      decreases |line| - i
    {
      var c := line[i];
      if c == '\'' {
        ghost var t0, c0 := tokens, current;
        assert Scan(line, i, c0, t0) == AfterQuote(line, i + 1, "'", Flush(t0, c0));
        if current != "" {
          tokens := tokens + [current];
          current := "";
        }
        current := current + [line[i]];
        assert tokens == Flush(t0, c0) && current == "'";
        i := i + 1;
        while i < |line|
          invariant i <= |line|
          invariant AfterQuote(line, i, current, tokens) == SplitLine(line)
          decreases |line| - i
        {
          if line[i] == '\'' {
            break;
          }
          AfterQuoteStep(line, i, current, tokens);
          var cc := [line[i]];
          if line[i] == '\\' {
            i := i + 1;
            if i >= |line| {
              return Err(IndexError);
            }
            cc := Escape(line[i]);
          }
          current := current + cc;
          i := i + 1;
        }
        if i >= |line| {
          return Err(IndexError);
        }
        AfterQuoteClose(line, i, current, tokens);
        current := current + [line[i]];
      } else if c == '/' {
        break;
      } else if c == ' ' {
        if |current| > 0 {
          tokens := tokens + [current];
          current := "";
        }
      } else {
        current := current + [c];
      }
      i := i + 1;
    }
    if |current| > 0 {
      tokens := tokens + [current];
    }
    return Ok(tokens);
  }

  /** One character of a quoted literal other than its closing quote. */
  lemma AfterQuoteStep(line: string, i: nat, cur: string, toks: seq<string>)
    requires i < |line| && line[i] != '\''
    ensures AfterQuote(line, i, cur, toks) ==
      if line[i] != '\\' then AfterQuote(line, i + 1, cur + [line[i]], toks)
      else if i + 1 >= |line| then Err(IndexError)
      else AfterQuote(line, i + 2, cur + Escape(line[i + 1]), toks)
  {
  }

  /** The closing quote of a literal resumes the outer loop after it. */
  lemma AfterQuoteClose(line: string, i: nat, cur: string, toks: seq<string>)
    requires i < |line| && line[i] == '\''
    ensures AfterQuote(line, i, cur, toks) == Scan(line, i + 1, cur + [line[i]], toks)
  {
  }

  // ---------------------------------------------------------------------------------
  // Properties of the line splitter

  predicate NoEmpty(toks: seq<string>) {
    forall k :: 0 <= k < |toks| ==> |toks[k]| > 0
  }

  lemma {:induction false} ScanNoEmpty(line: string, i: nat, cur: string, toks: seq<string>)
    requires NoEmpty(toks)
    ensures Scan(line, i, cur, toks).Ok? ==> NoEmpty(Scan(line, i, cur, toks).value)
    decreases |line| - i, 1
  {
    if i < |line| {
      if line[i] == '\'' {
        AfterQuoteNoEmpty(line, i + 1, "'", Flush(toks, cur));
      } else if line[i] == ' ' {
        ScanNoEmpty(line, i + 1, "", Flush(toks, cur));
      } else if line[i] != '/' {
        ScanNoEmpty(line, i + 1, cur + [line[i]], toks);
      }
    }
  }

  lemma {:induction false} AfterQuoteNoEmpty(line: string, i: nat, cur: string, toks: seq<string>)
    requires NoEmpty(toks)
    ensures AfterQuote(line, i, cur, toks).Ok? ==> NoEmpty(AfterQuote(line, i, cur, toks).value)
    decreases |line| - i, 0
  {
    match Literal(line, i, cur)
    case Err(_) =>
    case Ok((j, lit)) => ScanNoEmpty(line, j + 1, lit + [line[j]], toks);
  }

  /** No token the splitter returns is empty. */
  lemma SplitLineNoEmpty(line: string)
    ensures SplitLine(line).Ok? ==> NoEmpty(SplitLine(line).value)
  {
    ScanNoEmpty(line, 0, "", []);
  }

  /** The text before the first occurrence of `c` (all of `s` when there is none). */
  function Before(s: string, c: char): (r: string)
    ensures c !in r
  {
    if |s| == 0 || s[0] == c then "" else [s[0]] + Before(s[1..], c)
  }

  function NonEmpty(pieces: seq<string>): seq<string> {
    if |pieces| == 0 then []
    else (if |pieces[0]| > 0 then [pieces[0]] else []) + NonEmpty(pieces[1..])
  }

  /** The space-separated words of `s`: `s.split(' ')` without the empty pieces. */
  function Words(s: string): seq<string> {
    NonEmpty(Split(s, ' '))
  }

  lemma {:induction false} SplitAtSpace(a: string, b: string)
    requires ' ' !in a
    ensures Split(a + " " + b, ' ') == [a] + Split(b, ' ')
  {
    if |a| > 0 {
      SplitAtSpace(a[1..], b);
      assert (a + " " + b)[1..] == a[1..] + " " + b;
      assert [a[0]] + a[1..] == a;
    } else {
      assert (a + " " + b)[1..] == b;
    }
  }

  lemma {:induction false} SplitNoSpace(a: string)
    requires ' ' !in a
    ensures Split(a, ' ') == [a]
  {
    if |a| > 0 {
      SplitNoSpace(a[1..]);
      assert [a[0]] + a[1..] == a;
    }
  }

  lemma WordsAtSpace(a: string, b: string)
    requires ' ' !in a
    ensures Words(a + " " + b) == Flush([], a) + Words(b)
  {
    SplitAtSpace(a, b);
    assert ([a] + Split(b, ' '))[1..] == Split(b, ' ');
  }

  lemma WordsNoSpace(a: string)
    requires ' ' !in a
    ensures Words(a) == Flush([], a)
  {
    SplitNoSpace(a);
    assert [a][1..] == [];
    assert NonEmpty([a]) == (if |a| > 0 then [a] else []) + NonEmpty([]);
  }

  /** `Before` on a sequence that starts with a known character. */
  lemma BeforeCons(c: char, rest: string, d: char)
    ensures Before([c] + rest, d) == if c == d then "" else [c] + Before(rest, d)
  {
    assert ([c] + rest)[1..] == rest;
  }

  /** At the end of the line or at a '/', the pending word is the last token. */
  lemma PlainStop(line: string, i: nat, cur: string, toks: seq<string>)
    requires i <= |line| && (i == |line| || line[i] == '/')
    requires ' ' !in cur
    ensures Scan(line, i, cur, toks) == Ok(toks + Words(cur + Before(line[i..], '/')))
  {
    if i < |line| {
      assert line[i..] == [line[i]] + line[i + 1..];
      BeforeCons(line[i], line[i + 1..], '/');
    }
    assert cur + Before(line[i..], '/') == cur;
    WordsNoSpace(cur);
    assert toks + Flush([], cur) == Flush(toks, cur);
  }

  lemma BeforeAtSpace(line: string, i: nat)
    requires i < |line| && line[i] == ' '
    ensures Before(line[i..], '/') == " " + Before(line[i + 1..], '/')
  {
    assert line[i..] == [' '] + line[i + 1..];
    BeforeCons(' ', line[i + 1..], '/');
  }

  lemma WordsAfter(toks: seq<string>, cur: string, rest: string)
    requires ' ' !in cur
    ensures toks + Words(cur + " " + rest) == Flush(toks, cur) + Words(rest)
  {
    WordsAtSpace(cur, rest);
    FlushThen(toks, cur, Words(rest));
  }

  lemma FlushThen(toks: seq<string>, cur: string, more: seq<string>)
    ensures toks + (Flush([], cur) + more) == Flush(toks, cur) + more
  {
    assert toks + Flush([], cur) == Flush(toks, cur);
  }

  lemma PlainSpace(line: string, i: nat, cur: string, toks: seq<string>)
    requires i < |line| && line[i] == ' '
    requires ' ' !in cur
    ensures toks + Words(cur + Before(line[i..], '/'))
         == Flush(toks, cur) + Words(Before(line[i + 1..], '/'))
  {
    BeforeAtSpace(line, i);
    assert cur + (" " + Before(line[i + 1..], '/')) == cur + " " + Before(line[i + 1..], '/');
    WordsAfter(toks, cur, Before(line[i + 1..], '/'));
  }

  lemma PlainChar(line: string, i: nat, cur: string)
    requires i < |line| && line[i] != ' ' && line[i] != '/'
    ensures cur + Before(line[i..], '/') == (cur + [line[i]]) + Before(line[i + 1..], '/')
  {
    assert line[i..] == [line[i]] + line[i + 1..];
    BeforeCons(line[i], line[i + 1..], '/');
  }

  /**
   * On a part of a line without quotes, the splitter returns the space-separated words of
   * the text up to the first '/'.
   */
  lemma {:induction false} PlainScan(line: string, i: nat, cur: string, toks: seq<string>)
    requires i <= |line|
    requires forall k :: i <= k < |line| ==> line[k] != '\''
    requires ' ' !in cur
    ensures Scan(line, i, cur, toks) == Ok(toks + Words(cur + Before(line[i..], '/')))
    decreases |line| - i
  {
    if i == |line| || line[i] == '/' {
      PlainStop(line, i, cur, toks);
    } else if line[i] == ' ' {
      PlainScan(line, i + 1, "", Flush(toks, cur));
      assert "" + Before(line[i + 1..], '/') == Before(line[i + 1..], '/');
      PlainSpace(line, i, cur, toks);
    } else {
      assert ' ' !in cur + [line[i]];
      PlainScan(line, i + 1, cur + [line[i]], toks);
      PlainChar(line, i, cur);
    }
  }

  /** A line without quotes splits into the words before its first '/'. */
  lemma PlainLine(line: string)
    requires '\'' !in line
    ensures SplitLine(line) == Ok(Words(Before(line, '/')))
  {
    assert line[0..] == line;
    PlainScan(line, 0, "", []);
    assert "" + Before(line, '/') == Before(line, '/');
    assert [] + Words(Before(line, '/')) == Words(Before(line, '/'));
  }

  /** Inside a literal, a stretch without quotes and backslashes is copied as it is. */
  lemma {:induction false} LiteralSkip(line: string, i: nat, cur: string, j: nat)
    requires i <= j <= |line|
    requires forall k :: i <= k < j ==> line[k] != '\'' && line[k] != '\\'
    ensures Literal(line, i, cur) == Literal(line, j, cur + line[i..j])
    decreases j - i
  {
    if i < j {
      LiteralSkip(line, i + 1, cur + [line[i]], j);
      assert cur + [line[i]] + line[i + 1..j] == cur + line[i..j];
    } else {
      assert cur + line[i..j] == cur;
    }
  }

  /** A literal whose closing quote is missing makes loading fail. */
  lemma UnterminatedLiteral(s: string)
    requires '\'' !in s && '\\' !in s
    ensures SplitLine("'" + s).Err?
  {
    var line := "'" + s;
    assert forall k :: 1 <= k < |line| ==> line[k] == s[k - 1];
    LiteralSkip(line, 1, "'", |line|);
    assert SplitLine(line) == AfterQuote(line, 1, "'", []);
  }

  /**
   * A quoted literal with one escape is one token that keeps its quotes; the escape is
   * decoded (a backslash before any other character is kept).
   */
  lemma EscapedLiteral(a: string, e: char, b: string)
    requires '\'' !in a && '\\' !in a && '\'' !in b && '\\' !in b
    ensures SplitLine("'" + a + "\\" + [e] + b + "'") == Ok(["'" + a + Escape(e) + b + "'"])
  {
    var line := "'" + a + "\\" + [e] + b + "'";
    var p := |a| + 1;
    var q := p + 2 + |b|;
    assert |line| == q + 1;
    assert forall k :: 1 <= k < p ==> line[k] == a[k - 1];
    assert line[p] == '\\' && line[p + 1] == e;
    assert forall k :: p + 2 <= k < q ==> line[k] == b[k - p - 2];
    assert line[q] == '\'';
    assert line[1..p] == a;
    assert line[p + 2..q] == b;
    var lit := "'" + a + Escape(e) + b;
    LiteralSkip(line, 1, "'", p);
    assert Literal(line, 1, "'") == Literal(line, p, "'" + a);
    assert Literal(line, p, "'" + a) == Literal(line, p + 2, "'" + a + Escape(e));
    LiteralSkip(line, p + 2, "'" + a + Escape(e), q);
    assert Literal(line, p + 2, "'" + a + Escape(e)) == Literal(line, q, lit);
    assert Literal(line, q, lit) == Ok((q, lit));
    assert Flush([], lit + "'") == [lit + "'"];
    assert SplitLine(line) == AfterQuote(line, 1, "'", []);
    assert AfterQuote(line, 1, "'", []) == Scan(line, q + 1, lit + "'", []);
  }

  /** A quoted literal without escapes is one token that keeps its quotes. */
  lemma QuotedLiteral(s: string)
    requires '\'' !in s && '\\' !in s
    ensures SplitLine("'" + s + "'") == Ok(["'" + s + "'"])
  {
    var line := "'" + s + "'";
    var j := |s| + 1;
    assert line[j] == '\'';
    assert forall k :: 1 <= k < j ==> line[k] == s[k - 1];
    assert line[1..j] == s;
    LiteralSkip(line, 1, "'", j);
    assert Literal(line, 1, "'") == Ok((j, "'" + s));
    assert Flush([], "'" + s + "'") == ["'" + s + "'"];
    assert SplitLine(line) == AfterQuote(line, 1, "'", []);
    assert AfterQuote(line, 1, "'", []) == Scan(line, j + 1, "'" + s + "'", []);
  }

  // ---------------------------------------------------------------------------------
  // Loading a whole program

  predicate IsBlank(l: string) {
    l == "" || l[0] == '/'
  }

  predicate IsDef(l: string) {
    |l| >= 4 && l[..4] == "def "
  }

  /** The function name a `def` line declares: the first word after `def`. */
  function DefName(l: string): string
    requires IsDef(l)
  {
    Split(Strip(l[3..]), ' ')[0]
  }

  /** The label name a `#name` line declares. */
  function LabelName(l: string): string
    requires |l| > 0
  {
    Strip(l[1..])
  }

  /** A label table with `name` bound to line `ln`. */
  function Record(table: map<string, nat>, name: string, ln: nat): map<string, nat> {
    table[name := ln]
  }

  function InitialLabels(): map<string, map<string, nat>> {
    map["global" := map[], "function" := map[]]
  }

  predicate TablesOk(cur: Option<string>, acc: Image) {
    "global" in acc.labels && (cur.Some? ==> cur.value in acc.labels)
  }

  /** The label table a line's label goes into: the current function's, or the global one. */
  function LabelScope(cur: Option<string>): string {
    if cur.Some? then cur.value else "global"
  }

  /** The label tables after a `#name` line: `name` is recorded in the current scope. */
  function MarkLabel(l: string, ln: nat, cur: Option<string>, labels: map<string, map<string, nat>>): (r: map<string, map<string, nat>>)
    requires |l| > 0 && LabelScope(cur) in labels
  {
    if l[0] == '#' then labels[LabelScope(cur) := Record(labels[LabelScope(cur)], LabelName(l), ln)] else labels
  }

  /** The label tables after a `def` line: an empty table for the new function. */
  function OpenTable(l: string, labels: map<string, map<string, nat>>): (r: map<string, map<string, nat>>)
  {
    if IsDef(l) then labels[DefName(l) := map[]] else labels
  }

  /**
   * The label tables after a non-blank line: a `#name` line records `name` in the current
   * scope, and a `def` line opens an empty table for the new function.
   */
  function NextLabels(l: string, ln: nat, cur: Option<string>, labels: map<string, map<string, nat>>): (r: map<string, map<string, nat>>)
    requires |l| > 0 && "global" in labels && LabelScope(cur) in labels
    ensures "global" in r && LabelScope(NextFunc(l, cur)) in r
    ensures IsDef(l) ==> r[DefName(l)] == map[]
  {
    OpenTable(l, MarkLabel(l, ln, cur, labels))
  }

  /** The function table after a line: a `def` line enters the function at that line. */
  function NextFuncs(l: string, ln: nat, funcs: map<string, nat>): map<string, nat> {
    if IsDef(l) then funcs[DefName(l) := ln] else funcs
  }

  /** The current function after a line: a `def` line opens one and `end` closes it. */
  function NextFunc(l: string, cur: Option<string>): Option<string> {
    if l == "end" then None else if IsDef(l) then Some(DefName(l)) else cur
  }

  /** The loading loop from line `ln` on, inside function `cur` (if any). */
  function LoadFrom(lines: seq<string>, ln: nat, cur: Option<string>, acc: Image): (r: Result<Image, Exc>)
    requires TablesOk(cur, acc)
    ensures r.Ok? ==> |r.value.program| == |acc.program| + |lines| - ln || ln > |lines|
    decreases |lines| - ln
  {
    if ln >= |lines| then Ok(acc)
    else
      var l := Strip(lines[ln]);
      if IsBlank(l) then
        LoadFrom(lines, ln + 1, cur, acc.(program := acc.program + [[]]))
      else
        match SplitLine(l)
        case Err(e) => Err(e)
        case Ok(toks) =>
          LoadFrom(lines, ln + 1, NextFunc(l, cur),
                   Image(acc.program + [toks], NextLabels(l, ln, cur, acc.labels), NextFuncs(l, ln, acc.funcs)))
  }

  /** The image of a whole program text. */
  function LoadProgram(src: string): Result<Image, Exc> {
    LoadFrom(Split(src, '\n'), 0, None, Image([], InitialLabels(), map[]))
  }

  /** A `#name` line records `name` at line `ln` in the current function's table or the global one. */
  method RecordLabel(l: string, ln: nat, currentFunc: Option<string>, labels: map<string, map<string, nat>>)
    returns (labels': map<string, map<string, nat>>)
    requires |l| > 0 && LabelScope(currentFunc) in labels
    ensures labels' == MarkLabel(l, ln, currentFunc, labels)
  {
    labels' := labels;
    if l[0] == '#' {
      var labelName := Strip(l[1..]);
      if currentFunc.Some? {
        var table: map<string, nat> := labels[currentFunc.value][labelName := ln];
        labels' := labels[currentFunc.value := table];
      } else {
        var table: map<string, nat> := labels["global"][labelName := ln];
        labels' := labels["global" := table];
      }
    }
  }

  /**
   * The bookkeeping for a non-blank line before it is split: a `#name` line records a label,
   * a `def` line enters a function and opens its label table, and `end` leaves the function.
   */
  method Enter(l: string, ln: nat, currentFunc: Option<string>, labels: map<string, map<string, nat>>,
               funcs: map<string, nat>)
    returns (labels': map<string, map<string, nat>>, funcs': map<string, nat>, currentFunc': Option<string>)
    requires |l| > 0 && "global" in labels && LabelScope(currentFunc) in labels
    ensures labels' == NextLabels(l, ln, currentFunc, labels)
    ensures funcs' == NextFuncs(l, ln, funcs)
    ensures currentFunc' == NextFunc(l, currentFunc)
  {
    labels' := RecordLabel(l, ln, currentFunc, labels);
    funcs', currentFunc' := funcs, currentFunc;
    if |l| >= 4 && l[..4] == "def " {
      var funcName := Split(Strip(l[3..]), ' ')[0];
      funcs' := funcs'[funcName := ln];
      labels' := labels'[funcName := map[]];
      currentFunc' := Some(funcName);
    }
    if l == "end" {
      currentFunc' := None;
    }
  }

  /** Loads program text line by line. */
  method Parse(src: string) returns (r: Result<Image, Exc>)
    ensures r == LoadProgram(src)
  {
    var lines := Split(src, '\n');
    var program: seq<seq<string>> := [];
    var labels: map<string, map<string, nat>> := InitialLabels();
    var funcs: map<string, nat> := map[];
    var currentFunc: Option<string> := None;
    ghost var goal := LoadProgram(src);
    for ln := 0 to |lines|
      invariant TablesOk(currentFunc, Image(program, labels, funcs))
      invariant LoadFrom(lines, ln, currentFunc, Image(program, labels, funcs)) == goal
    {
      var l := Strip(lines[ln]);
      if l == "" || l[0] == '/' {
        program := program + [[]];
        continue;
      }
      labels, funcs, currentFunc := Enter(l, ln, currentFunc, labels, funcs);
      var lineTokens := Tokenize(l);
      if lineTokens.Err? {
        return Err(lineTokens.error);
      }
      program := program + [lineTokens.value];
    }
    return Ok(Image(program, labels, funcs));
  }

  // ---------------------------------------------------------------------------------
  // Properties of loading

  /** What line `k` of the source loads as, when it splits without error. */
  predicate LineLoaded(line: string, toks: seq<string>) {
    var l := Strip(line);
    if IsBlank(l) then toks == [] else SplitLine(l) == Ok(toks)
  }

  predicate LinesOk(lines: seq<string>, ln: nat, program: seq<seq<string>>) {
    && ln <= |lines|
    && |program| == ln
    && (forall k :: 0 <= k < ln ==> LineLoaded(lines[k], program[k]))
  }

  predicate FuncsOk(lines: seq<string>, ln: nat, funcs: map<string, nat>) {
    forall f :: f in funcs ==>
      0 <= funcs[f] < ln <= |lines| && IsDef(Strip(lines[funcs[f]]))
      && DefName(Strip(lines[funcs[f]])) == f
  }

  predicate LabelAt(lines: seq<string>, ln: nat, n: string, k: int) {
    0 <= k < ln <= |lines| && Strip(lines[k]) != "" && Strip(lines[k])[0] == '#'
    && LabelName(Strip(lines[k])) == n
  }

  predicate LabelsOk(lines: seq<string>, ln: nat, labels: map<string, map<string, nat>>) {
    forall s, n :: s in labels && n in labels[s] ==> LabelAt(lines, ln, n, labels[s][n])
  }

  /**
   * The image agrees with the first `ln` source lines: one token list per line, every
   * function entry points at a `def` line of that name and every label at a `#` line of
   * that name.
   */
  predicate Consistent(lines: seq<string>, ln: nat, acc: Image) {
    LinesOk(lines, ln, acc.program) && FuncsOk(lines, ln, acc.funcs) && LabelsOk(lines, ln, acc.labels)
  }

  lemma LabelsGrow(lines: seq<string>, ln: nat, labels: map<string, map<string, nat>>)
    requires ln < |lines| && LabelsOk(lines, ln, labels)
    ensures LabelsOk(lines, ln + 1, labels)
  {
    forall s, n | s in labels && n in labels[s]
      ensures LabelAt(lines, ln + 1, n, labels[s][n])
    {
      assert LabelAt(lines, ln, n, labels[s][n]);
    }
  }

  lemma FuncsGrow(lines: seq<string>, ln: nat, funcs: map<string, nat>)
    requires ln < |lines| && FuncsOk(lines, ln, funcs)
    ensures FuncsOk(lines, ln + 1, funcs)
  {
  }

  lemma LabelAdded(lines: seq<string>, ln: nat, labels: map<string, map<string, nat>>, scope: string)
    requires ln < |lines| && LabelsOk(lines, ln + 1, labels) && scope in labels
    requires Strip(lines[ln]) != "" && Strip(lines[ln])[0] == '#'
    ensures LabelsOk(lines, ln + 1, labels[scope := Record(labels[scope], LabelName(Strip(lines[ln])), ln)])
  {
    assert LabelAt(lines, ln + 1, LabelName(Strip(lines[ln])), ln);
  }

  lemma TableAdded(lines: seq<string>, ln: nat, labels: map<string, map<string, nat>>, f: string)
    requires LabelsOk(lines, ln, labels)
    ensures LabelsOk(lines, ln, labels[f := map[]])
  {
  }

  lemma FuncAdded(lines: seq<string>, ln: nat, funcs: map<string, nat>)
    requires ln < |lines| && FuncsOk(lines, ln + 1, funcs) && IsDef(Strip(lines[ln]))
    ensures FuncsOk(lines, ln + 1, funcs[DefName(Strip(lines[ln])) := ln])
  {
  }

  lemma LineAdded(lines: seq<string>, ln: nat, program: seq<seq<string>>, toks: seq<string>)
    requires ln < |lines| && LinesOk(lines, ln, program) && LineLoaded(lines[ln], toks)
    ensures LinesOk(lines, ln + 1, program + [toks])
  {
    forall k | 0 <= k < ln + 1
      ensures LineLoaded(lines[k], (program + [toks])[k])
    {
      if k < ln { assert (program + [toks])[k] == program[k]; }
    }
  }

  lemma {:induction false} LoadFromConsistent(lines: seq<string>, ln: nat, cur: Option<string>, acc: Image)
    requires TablesOk(cur, acc) && Consistent(lines, ln, acc)
    ensures LoadFrom(lines, ln, cur, acc).Ok? ==> Consistent(lines, |lines|, LoadFrom(lines, ln, cur, acc).value)
    decreases |lines| - ln
  {
    if ln < |lines| {
      var l := Strip(lines[ln]);
      if IsBlank(l) {
        var next := acc.(program := acc.program + [[]]);
        LabelsGrow(lines, ln, acc.labels);
        FuncsGrow(lines, ln, acc.funcs);
        LineAdded(lines, ln, acc.program, []);
        LoadFromConsistent(lines, ln + 1, cur, next);
      } else {
        var scope := LabelScope(cur);
        var labels1 := if l[0] == '#' then acc.labels[scope := Record(acc.labels[scope], LabelName(l), ln)] else acc.labels;
        match SplitLine(l)
        case Err(e) =>
        case Ok(toks) =>
          var next := Image(acc.program + [toks], NextLabels(l, ln, cur, acc.labels), NextFuncs(l, ln, acc.funcs));
          LineAdded(lines, ln, acc.program, toks);
          LabelsGrow(lines, ln, acc.labels);
          FuncsGrow(lines, ln, acc.funcs);
          if l[0] == '#' {
            LabelAdded(lines, ln, acc.labels, scope);
          }
          if IsDef(l) {
            FuncAdded(lines, ln, acc.funcs);
            TableAdded(lines, ln + 1, labels1, DefName(l));
          }
          assert Consistent(lines, ln + 1, next);
          LoadFromConsistent(lines, ln + 1, NextFunc(l, cur), next);
      }
    }
  }

  /**
   * A loaded program has exactly one token list per source line, so a line's index is its
   * program counter; blank and comment lines load as empty lists; every function entry is
   * the index of a `def` line of that name and every label the index of a `#` line of that
   * name. A line that does not split makes loading fail.
   */
  lemma LoadProgramConsistent(src: string)
    ensures LoadProgram(src).Ok? ==> Consistent(Split(src, '\n'), |Split(src, '\n')|, LoadProgram(src).value)
  {
    LoadFromConsistent(Split(src, '\n'), 0, None, Image([], InitialLabels(), map[]));
  }

  // ---------------------------------------------------------------------------------
  // Completeness and scope of the tables

  /**
   * The function whose body holds line `k`: the one opened by the last `def` before it,
   * unless an `end` came after that `def`; None outside every function.
   */
  function FuncAt(ls: seq<string>, k: nat): Option<string>
    requires k <= |ls|
  {
    if k == 0 then None
    else
      var l := ls[k - 1];
      if IsBlank(l) then FuncAt(ls, k - 1) else NextFunc(l, FuncAt(ls, k - 1))
  }

  /** Line `k` is a `#name` line. */
  predicate IsLabelLine(ls: seq<string>, k: int) {
    0 <= k < |ls| && ls[k] != "" && ls[k][0] == '#'
  }

  /** No `def s` line lies strictly between line `k` and line `ln`. */
  predicate NotReopened(ls: seq<string>, k: nat, ln: nat, s: string) {
    forall j :: k < j < ln <= |ls| && IsDef(ls[j]) ==> DefName(ls[j]) != s
  }

  /** Every `def` line before line `ln` has an entry for its name, at that line or a later one. */
  predicate FuncsComplete(ls: seq<string>, ln: nat, funcs: map<string, nat>) {
    forall k :: 0 <= k < ln <= |ls| && IsDef(ls[k]) ==>
      DefName(ls[k]) in funcs && funcs[DefName(ls[k])] >= k
  }

  /** Line `k`, a `#name` line, has an entry for its name in the table of its scope, at that line or a later one. */
  predicate Recorded(ls: seq<string>, k: int, labels: map<string, map<string, nat>>)
    requires IsLabelLine(ls, k)
  {
    var s := LabelScope(FuncAt(ls, k));
    var n := LabelName(ls[k]);
    s in labels && n in labels[s] && labels[s][n] >= k
  }

  /**
   * Every `#name` line before line `ln` has an entry for its name, at that line or a later
   * one, in the table of the function whose body holds it (or 'global'), unless a later
   * `def` of that function emptied the table.
   */
  predicate LabelsComplete(ls: seq<string>, ln: nat, labels: map<string, map<string, nat>>) {
    forall k ::
      (0 <= k < ln <= |ls| && IsLabelLine(ls, k) && NotReopened(ls, k, ln, LabelScope(FuncAt(ls, k)))) ==>
      Recorded(ls, k, labels)
  }

  /** Every recorded label lies in the body of the function whose table holds it (or outside every function, for 'global'). */
  predicate LabelsScoped(ls: seq<string>, ln: nat, labels: map<string, map<string, nat>>) {
    forall s, n :: s in labels && n in labels[s] ==>
      labels[s][n] < ln <= |ls| && LabelScope(FuncAt(ls, labels[s][n])) == s
  }

  predicate Complete(ls: seq<string>, ln: nat, acc: Image) {
    FuncsComplete(ls, ln, acc.funcs) && LabelsComplete(ls, ln, acc.labels) && LabelsScoped(ls, ln, acc.labels)
  }

  lemma FuncsStep(ls: seq<string>, ln: nat, funcs: map<string, nat>)
    requires ln < |ls| && FuncsComplete(ls, ln, funcs) && !IsBlank(ls[ln])
    ensures FuncsComplete(ls, ln + 1, NextFuncs(ls[ln], ln, funcs))
  {
    var l := ls[ln];
    var funcs' := NextFuncs(l, ln, funcs);
    forall k | 0 <= k < ln + 1 <= |ls| && IsDef(ls[k])
      ensures DefName(ls[k]) in funcs' && funcs'[DefName(ls[k])] >= k
    {
      var d := DefName(ls[k]);
      if k == ln {
        assert funcs' == funcs[d := ln];
      } else {
        assert d in funcs && funcs[d] >= k;
        assert IsDef(l) ==> funcs' == funcs[DefName(l) := ln];
      }
    }
  }

  lemma FuncsBlank(ls: seq<string>, ln: nat, funcs: map<string, nat>)
    requires ln < |ls| && FuncsComplete(ls, ln, funcs) && IsBlank(ls[ln])
    ensures FuncsComplete(ls, ln + 1, funcs)
  {
    forall k | 0 <= k < ln + 1 <= |ls| && IsDef(ls[k])
      ensures DefName(ls[k]) in funcs && funcs[DefName(ls[k])] >= k
    {
      assert k != ln;
    }
  }

  lemma LabelsBlank(ls: seq<string>, ln: nat, labels: map<string, map<string, nat>>)
    requires ln < |ls| && LabelsComplete(ls, ln, labels) && LabelsScoped(ls, ln, labels)
    requires IsBlank(ls[ln])
    ensures LabelsComplete(ls, ln + 1, labels) && LabelsScoped(ls, ln + 1, labels)
  {
    forall k | 0 <= k < ln + 1 <= |ls| && IsLabelLine(ls, k)
        && NotReopened(ls, k, ln + 1, LabelScope(FuncAt(ls, k)))
      ensures Recorded(ls, k, labels)
    {
      assert k != ln;
      assert NotReopened(ls, k, ln, LabelScope(FuncAt(ls, k)));
    }
  }

  /** The label tables after a non-blank line keep both properties. */
  lemma LabelsStep(ls: seq<string>, ln: nat, cur: Option<string>, labels: map<string, map<string, nat>>)
    requires ln < |ls| && cur == FuncAt(ls, ln) && !IsBlank(ls[ln])
    requires "global" in labels && LabelScope(cur) in labels
    requires LabelsComplete(ls, ln, labels) && LabelsScoped(ls, ln, labels)
    ensures var labels' := NextLabels(ls[ln], ln, cur, labels);
      LabelsComplete(ls, ln + 1, labels') && LabelsScoped(ls, ln + 1, labels')
  {
    var l := ls[ln];
    var m := MarkLabel(l, ln, cur, labels);
    MarkScoped(ls, ln, cur, labels);
    MarkRecorded(ls, ln, cur, labels);
    OpenScoped(ls, ln, m);
    OpenRecorded(ls, ln, m);
  }

  /** Marking line `ln` records only entries that lie in their scope. */
  lemma MarkScoped(ls: seq<string>, ln: nat, cur: Option<string>, labels: map<string, map<string, nat>>)
    requires ln < |ls| && cur == FuncAt(ls, ln) && !IsBlank(ls[ln])
    requires LabelScope(cur) in labels && LabelsScoped(ls, ln, labels)
    ensures LabelsScoped(ls, ln + 1, MarkLabel(ls[ln], ln, cur, labels))
  {
    var l := ls[ln];
    var sc := LabelScope(cur);
    if l[0] == '#' {
      var m := labels[sc := Record(labels[sc], LabelName(l), ln)];
      forall s, n | s in m && n in m[s]
        ensures m[s][n] < ln + 1 <= |ls| && LabelScope(FuncAt(ls, m[s][n])) == s
      {
        if s == sc && n == LabelName(l) {
          assert m[s][n] == ln;
        } else {
          assert m[s][n] == labels[s][n];
        }
      }
    }
  }

  /** After marking line `ln`, every `#name` line up to it whose table was not emptied is recorded. */
  lemma MarkRecorded(ls: seq<string>, ln: nat, cur: Option<string>, labels: map<string, map<string, nat>>)
    requires ln < |ls| && cur == FuncAt(ls, ln) && !IsBlank(ls[ln])
    requires LabelScope(cur) in labels && LabelsComplete(ls, ln, labels)
    ensures forall k ::
      (0 <= k < ln + 1 && IsLabelLine(ls, k) && NotReopened(ls, k, ln, LabelScope(FuncAt(ls, k)))) ==>
      Recorded(ls, k, MarkLabel(ls[ln], ln, cur, labels))
  {
    var l := ls[ln];
    var sc := LabelScope(cur);
    var m := MarkLabel(l, ln, cur, labels);
    forall k | 0 <= k < ln + 1 && IsLabelLine(ls, k) && NotReopened(ls, k, ln, LabelScope(FuncAt(ls, k)))
      ensures Recorded(ls, k, m)
    {
      var s := LabelScope(FuncAt(ls, k));
      var n := LabelName(ls[k]);
      if k == ln {
        assert m == labels[sc := Record(labels[sc], n, ln)];
      } else {
        assert Recorded(ls, k, labels);
        if l[0] == '#' && s == sc {
          assert m[s] == labels[s][LabelName(l) := ln];
        } else {
          assert m[s] == labels[s];
        }
      }
    }
  }

  /** Opening a table at line `ln` keeps every entry in its scope. */
  lemma OpenScoped(ls: seq<string>, ln: nat, m: map<string, map<string, nat>>)
    requires ln < |ls| && LabelsScoped(ls, ln + 1, m)
    ensures LabelsScoped(ls, ln + 1, OpenTable(ls[ln], m))
  {
  }

  /** Opening a table at line `ln` forgets only the entries of the function it reopens. */
  lemma OpenRecorded(ls: seq<string>, ln: nat, m: map<string, map<string, nat>>)
    requires ln < |ls|
    requires forall k ::
      (0 <= k < ln + 1 && IsLabelLine(ls, k) && NotReopened(ls, k, ln, LabelScope(FuncAt(ls, k)))) ==>
      Recorded(ls, k, m)
    ensures LabelsComplete(ls, ln + 1, OpenTable(ls[ln], m))
  {
    var l := ls[ln];
    var o := OpenTable(l, m);
    forall k | 0 <= k < ln + 1 <= |ls| && IsLabelLine(ls, k)
        && NotReopened(ls, k, ln + 1, LabelScope(FuncAt(ls, k)))
      ensures Recorded(ls, k, o)
    {
      OpenKeeps(ls, ln, m, k);
    }
  }

  lemma OpenKeeps(ls: seq<string>, ln: nat, m: map<string, map<string, nat>>, k: nat)
    requires k < ln + 1 <= |ls| && IsLabelLine(ls, k) && NotReopened(ls, k, ln + 1, LabelScope(FuncAt(ls, k)))
    requires NotReopened(ls, k, ln, LabelScope(FuncAt(ls, k))) ==> Recorded(ls, k, m)
    ensures Recorded(ls, k, OpenTable(ls[ln], m))
  {
    var l := ls[ln];
    var s := LabelScope(FuncAt(ls, k));
    assert NotReopened(ls, k, ln, s);
    if IsDef(l) {
      assert k != ln by { assert l[0] == 'd'; }
      assert DefName(l) != s;
    }
  }

  /** A line that splits keeps the tables complete, and the current function follows it. */
  lemma CompleteStep(ls: seq<string>, ln: nat, cur: Option<string>, acc: Image, toks: seq<string>)
    requires ln < |ls| && !IsBlank(ls[ln]) && TablesOk(cur, acc) && cur == FuncAt(ls, ln) && Complete(ls, ln, acc)
    ensures var l := ls[ln];
      var next := Image(acc.program + [toks], NextLabels(l, ln, cur, acc.labels), NextFuncs(l, ln, acc.funcs));
      TablesOk(NextFunc(l, cur), next) && NextFunc(l, cur) == FuncAt(ls, ln + 1) && Complete(ls, ln + 1, next)
  {
    FuncsStep(ls, ln, acc.funcs);
    LabelsStep(ls, ln, cur, acc.labels);
  }

  /** A blank line keeps the tables complete. */
  lemma CompleteBlank(ls: seq<string>, ln: nat, cur: Option<string>, acc: Image)
    requires ln < |ls| && IsBlank(ls[ln]) && cur == FuncAt(ls, ln) && Complete(ls, ln, acc)
    ensures cur == FuncAt(ls, ln + 1) && Complete(ls, ln + 1, acc.(program := acc.program + [[]]))
  {
    FuncsBlank(ls, ln, acc.funcs);
    LabelsBlank(ls, ln, acc.labels);
  }

  predicate Stripped(lines: seq<string>, ls: seq<string>) {
    |ls| == |lines| && forall k :: 0 <= k < |lines| ==> ls[k] == Strip(lines[k])
  }

  lemma {:induction false} LoadFromComplete(lines: seq<string>, ls: seq<string>, ln: nat, cur: Option<string>, acc: Image)
    requires Stripped(lines, ls)
    requires TablesOk(cur, acc) && ln <= |lines| && cur == FuncAt(ls, ln) && Complete(ls, ln, acc)
    ensures LoadFrom(lines, ln, cur, acc).Ok? ==> Complete(ls, |ls|, LoadFrom(lines, ln, cur, acc).value)
    decreases |lines| - ln, 1
  {
    if ln < |lines| {
      if IsBlank(ls[ln]) {
        LoadBlankComplete(lines, ls, ln, cur, acc);
      } else {
        LoadLineComplete(lines, ls, ln, cur, acc);
      }
    }
  }

  lemma {:induction false} LoadBlankComplete(lines: seq<string>, ls: seq<string>, ln: nat, cur: Option<string>, acc: Image)
    requires Stripped(lines, ls) && ln < |lines| && IsBlank(ls[ln])
    requires TablesOk(cur, acc) && cur == FuncAt(ls, ln) && Complete(ls, ln, acc)
    ensures LoadFrom(lines, ln, cur, acc).Ok? ==> Complete(ls, |ls|, LoadFrom(lines, ln, cur, acc).value)
    decreases |lines| - ln, 0
  {
    assert ls[ln] == Strip(lines[ln]);
    var next := acc.(program := acc.program + [[]]);
    CompleteBlank(ls, ln, cur, acc);
    LoadFromComplete(lines, ls, ln + 1, cur, next);
    assert LoadFrom(lines, ln, cur, acc) == LoadFrom(lines, ln + 1, cur, next);
  }

  lemma {:induction false} LoadLineComplete(lines: seq<string>, ls: seq<string>, ln: nat, cur: Option<string>, acc: Image)
    requires Stripped(lines, ls) && ln < |lines| && !IsBlank(ls[ln])
    requires TablesOk(cur, acc) && cur == FuncAt(ls, ln) && Complete(ls, ln, acc)
    ensures LoadFrom(lines, ln, cur, acc).Ok? ==> Complete(ls, |ls|, LoadFrom(lines, ln, cur, acc).value)
    decreases |lines| - ln, 0
  {
    var l := ls[ln];
    assert l == Strip(lines[ln]);
    if SplitLine(l).Ok? {
      var toks := SplitLine(l).value;
      CompleteStep(ls, ln, cur, acc, toks);
      var next := Image(acc.program + [toks], NextLabels(l, ln, cur, acc.labels), NextFuncs(l, ln, acc.funcs));
      LoadFromComplete(lines, ls, ln + 1, NextFunc(l, cur), next);
      assert LoadFrom(lines, ln, cur, acc) == LoadFrom(lines, ln + 1, NextFunc(l, cur), next);
    }
  }

  /** The source lines with surrounding whitespace removed, as loading sees them. */
  function StripAll(lines: seq<string>): (ls: seq<string>)
    ensures |ls| == |lines| && forall k :: 0 <= k < |lines| ==> ls[k] == Strip(lines[k])
  {
    seq(|lines|, k requires 0 <= k < |lines| => Strip(lines[k]))
  }

  /**
   * The tables are complete: every `def f` line has the entry `funcs[f]`, at that line or a
   * later one. Every `#name` line has an entry in the table of the function whose body holds
   * it, or in 'global' outside every function, at that line or a later one, unless a later
   * `def` of that function emptied its table. Every recorded label lies in the body of the
   * function whose table holds it.
   */
  lemma LoadProgramComplete(src: string)
    ensures var ls := StripAll(Split(src, '\n')); var r := LoadProgram(src);
      r.Ok? ==> Complete(ls, |ls|, r.value)
  {
    var lines := Split(src, '\n');
    LoadFromComplete(lines, StripAll(lines), 0, None, Image([], InitialLabels(), map[]));
  }

  /**
   * The entry of a function is its last `def` line: with `LoadProgramConsistent`, a later
   * `def f` overrides an earlier one.
   */
  lemma LastDefWins(src: string, k: nat)
    requires var ls := StripAll(Split(src, '\n')); k < |ls| && IsDef(ls[k])
    requires var ls := StripAll(Split(src, '\n'));
      forall j :: k < j < |ls| && IsDef(ls[j]) ==> DefName(ls[j]) != DefName(ls[k])
    ensures var ls := StripAll(Split(src, '\n')); var r := LoadProgram(src);
      r.Ok? ==> DefName(ls[k]) in r.value.funcs && r.value.funcs[DefName(ls[k])] == k
  {
    var lines := Split(src, '\n');
    var ls := StripAll(lines);
    if LoadProgram(src).Ok? {
      var img := LoadProgram(src).value;
      var f := DefName(ls[k]);
      LoadProgramComplete(src);
      LoadProgramConsistent(src);
      assert f in img.funcs && img.funcs[f] >= k;
      var e := img.funcs[f];
      assert IsDef(Strip(lines[e])) && DefName(Strip(lines[e])) == f;
      assert ls[e] == Strip(lines[e]);
    }
  }

  /**
   * A label's entry is the last `#name` line of that name in its scope: outside every
   * function, or in the body of the function opened by the last `def` before it, where a
   * later `def` of that function has not emptied the table.
   */
  lemma LastLabelWins(src: string, k: nat)
    requires var ls := StripAll(Split(src, '\n')); IsLabelLine(ls, k)
    requires var ls := StripAll(Split(src, '\n')); NotReopened(ls, k, |ls|, LabelScope(FuncAt(ls, k)))
    requires var ls := StripAll(Split(src, '\n'));
      forall j :: k < j < |ls| && IsLabelLine(ls, j) && LabelScope(FuncAt(ls, j)) == LabelScope(FuncAt(ls, k)) ==>
        LabelName(ls[j]) != LabelName(ls[k])
    ensures var ls := StripAll(Split(src, '\n')); var r := LoadProgram(src);
      var s := LabelScope(FuncAt(ls, k)); var n := LabelName(ls[k]);
      r.Ok? ==> s in r.value.labels && n in r.value.labels[s] && r.value.labels[s][n] == k
  {
    var lines := Split(src, '\n');
    var ls := StripAll(lines);
    if LoadProgram(src).Ok? {
      var img := LoadProgram(src).value;
      var s := LabelScope(FuncAt(ls, k));
      var n := LabelName(ls[k]);
      LoadProgramComplete(src);
      LoadProgramConsistent(src);
      assert Recorded(ls, k, img.labels);
      var e := img.labels[s][n];
      assert LabelAt(lines, |lines|, n, e);
      assert ls[e] == Strip(lines[e]);
      assert LabelScope(FuncAt(ls, e)) == s;
    }
  }
}
