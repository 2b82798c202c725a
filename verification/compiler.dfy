/**
 * The Vee code generator: it walks a syntax tree and appends lines of the virtual
 * machine's text format to an output list, drawing fresh `__varN` and `__lblN` names
 * from two counters. The specification function `Compile` threads the generator's
 * whole state through the walk; the `Compiler` class keeps that state in fields and
 * updates it in place, one `gen_*` helper at a time.
 */
module VeeCompiler {
  import opened Wrappers
  import opened Exceptions
  import opened Text
  import opened Lexer
  import opened VeeParser
  import Values

  /**
   * What `compile` returns for an expression: Python `None` (statements), an `int`
   * (number literals, `true`/`false`, a folded `/`), a `str` (a variable reference or
   * literal text to splice into a line) or a Python list (a non-bracket list's items).
   */
  datatype CVal = CNone | CInt(i: int) | CText(s: string) | CList(items: seq<CVal>)

  /** The fields of a `Compiler`. */
  datatype CState = CState(
    funcs: map<Option<string>, Ast>,
    output: seq<string>,
    varCount: nat,
    labelCount: nat,
    funcVar: set<Option<string>>,
    indent: string)

  /** A new `Compiler`: no functions, no output, both counters at 0, no arguments, no indent. */
  const Fresh := CState(map[], [], 0, 0, {}, "")

  /** Python's `str()` of a token text that may be None. */
  function Show(v: Option<string>): string {
    if v.Some? then v.value else "None"
  }

  /** Python's `str()` of a compiled value; the text of a list is not modelled. */
  function Str(v: CVal): (r: Result<string, Exc>)
    ensures r.Err? <==> v.CList?
  {
    match v
    case CNone => Ok("None")
    case CInt(i) => Ok(IntToString(i))
    case CText(s) => Ok(s)
    case CList(_) => Err(NotModelled)
  }

  /** `str()` of every value, in order. */
  function StrAll(vs: seq<CVal>): (r: Result<seq<string>, Exc>)
    ensures r.Ok? ==> |r.value| == |vs| && forall i :: 0 <= i < |vs| ==> Str(vs[i]) == Ok(r.value[i])
    ensures r.Err? ==> r.error == NotModelled
    ensures (forall i :: 0 <= i < |vs| ==> !vs[i].CList?) ==> r.Ok?
  {
    if vs == [] then Ok([])
    else
      match Str(vs[0])
      case Err(e) => Err(e)
      case Ok(first) =>
        match StrAll(vs[1..])
        case Err(e) => Err(e)
        case Ok(rest) => Ok([first] + rest)
  }

  // ---------------------------------------------------------------------------------
  // Utilities: indentation, output lines, fresh names

  /** `add(line)`: the line, after the current indent, at the end of the output. */
  function Emit(st: CState, line: string): CState {
    st.(output := st.output + [st.indent + line])
  }

  /** Lines as `add` writes them under an indent. */
  function Under(indent: string, lines: seq<string>): seq<string> {
    seq(|lines|, i requires 0 <= i < |lines| => indent + lines[i])
  }

  /** Several `add` calls in a row. */
  function EmitAll(st: CState, lines: seq<string>): (r: CState)
    decreases lines
    ensures r == st.(output := st.output + Under(st.indent, lines))
  {
    if lines == [] then st
    else
      var r := EmitAll(Emit(st, lines[0]), lines[1..]);
      assert r.output == st.output + Under(st.indent, lines);
      r
  }

  /** `increase_indent`. */
  function Indented(st: CState): CState {
    st.(indent := st.indent + " ")
  }

  /** `decrease_indent`: drops the last character of the indent, if any. */
  function Dedented(st: CState): CState {
    st.(indent := if |st.indent| == 0 then "" else st.indent[..|st.indent| - 1])
  }

  function VarName(n: nat): string { "__var" + NatToString(n) }

  function LabelName(n: nat): string { "__lbl" + NatToString(n) }

  /** `get_new_var`: bumps the counter and names the variable after its new value. */
  function NewVar(st: CState): (string, CState) {
    (VarName(st.varCount + 1), st.(varCount := st.varCount + 1))
  }

  /** `get_new_label`. */
  function NewLabel(st: CState): (string, CState) {
    (LabelName(st.labelCount + 1), st.(labelCount := st.labelCount + 1))
  }

  /** How an identifier compiles: `$_x` for an argument of the function being compiled, else `$x`. */
  function IdentText(st: CState, name: Option<string>): string {
    if name in st.funcVar then "$_" + Show(name) else "$" + Show(name)
  }

  // ---------------------------------------------------------------------------------
  // The gen_* helpers that emit fixed line patterns

  /** `gen_op`: one `op R l r` line, into a fresh R unless a result variable is given. */
  function GenOp(st: CState, op: string, l: string, r: string, res: Option<string>): (out: (string, CState))
    ensures Extends(st, out.1) && |out.1.output| == |st.output| + 1
  {
    var (name, st1) := if res.Some? then (res.value, st) else NewVar(st);
    (name, Emit(st1, op + " " + name + " " + l + " " + r))
  }

  /** The six lines `gen_compare` emits for result R and labels T and E. */
  function CompareLines(op: string, l: string, r: string, res: string, t: string, e: string): seq<string> {
    [op + " " + l + " " + r + " " + t, "let " + res + " 0", "jmp " + e, "#" + t, "let " + res + " 1", "#" + e]
  }

  /** `gen_compare`: R is 1 when the jump `op l r` is taken and 0 otherwise. */
  function GenCompare(st: CState, op: string, l: string, r: string): (out: (string, CState))
    ensures Extends(st, out.1) && |out.1.output| == |st.output| + 6
  {
    var (res, st1) := NewVar(st);
    var (t, st2) := NewLabel(st1);
    var (e, st3) := NewLabel(st2);
    (res, EmitAll(st3, CompareLines(op, l, r, res, t, e)))
  }

  /** The counting loop `gen_push_range` emits for index I and labels S and E. */
  function RangeLines(list: string, start: string, end: string, idx: string, ident: string, s: string, e: string): seq<string> {
    ["let " + idx + " " + start, "#" + s, "jeq " + ident + " " + end + " " + e, "psh $" + list + " " + ident,
     "add " + idx + " " + ident + " 1", "jmp " + s, "#" + e]
  }

  /** `gen_push_range`: pushes `start`, `start + 1`, ... up to but not including `end`. */
  function GenPushRange(st: CState, list: string, start: string, end: string): (r: CState)
    ensures Extends(st, r) && |r.output| == |st.output| + 7
  {
    var (idx, st1) := NewVar(st);
    var (s, st2) := NewLabel(st1);
    var (e, st3) := NewLabel(st2);
    EmitAll(st3, RangeLines(list, start, end, idx, IdentText(st3, Some(idx)), s, e))
  }

  /** The text of `gen_func_call`: the name, a space, and the arguments joined by spaces. */
  function CallLine(name: string, args: seq<string>, builtin: bool): string {
    (if builtin then "" else "cal ") + name + " " + Join(args, ' ')
  }

  /** The lines `gen_func_def` emits to bind each argument `a` at position i to `_a`. */
  function ParamLines(names: seq<Option<string>>): (lines: seq<string>)
    ensures |lines| == |names|
  {
    seq(|names|, i requires 0 <= i < |names| => "let _" + Show(names[i]) + " $" + NatToString(i))
  }

  // ---------------------------------------------------------------------------------
  // Folding and lowering of operators

  /** `left // right` on the values `compile` returned: Python's floor division of ints. */
  function FloorDivide(l: CVal, r: CVal): (res: Result<CVal, Exc>)
    ensures res.Ok? <==> l.CInt? && r.CInt? && r.i != 0
    ensures res.Ok? ==> res.value == CInt(Values.FloorDiv(l.i, r.i))
    ensures l.CInt? && r.CInt? && r.i == 0 ==> res == Err(ZeroDivisionError)
    ensures !(l.CInt? && r.CInt?) ==> res == Err(TypeError)
  {
    if l.CInt? && r.CInt? then
      if r.i == 0 then Err(ZeroDivisionError) else Ok(CInt(Values.FloorDiv(l.i, r.i)))
    else Err(TypeError)
  }

  /** The operator texts the second `match` of `compile` handles. */
  const LoweredOperators: set<string> := {"+", "-", "*", "/.", "/", "<", "<=", ">", ">=", "==", "&&", "||", "..", "[", ":"}

  /** The VM instruction each arithmetic operator becomes. */
  function ArithCode(op: string): Option<string> {
    match op
    case "+" => Some("add")
    case "-" => Some("sub")
    case "*" => Some("mul")
    case "/." => Some("div")
    case _ => None
  }

  /** The conditional jump each single comparison becomes. */
  function CompareCode(op: string): Option<string> {
    match op
    case "<" => Some("jlt")
    case ">" => Some("jgt")
    case "==" => Some("jeq")
    case _ => None
  }

  /** `<=` and `>=`: the strict compare, then equality, their sum, then `sum > 0`. */
  function LowerOrEqual(st: CState, first: string, l: string, r: string): (out: (CVal, CState))
    ensures Extends(st, out.1)
  {
    var (strict, st1) := GenCompare(st, first, l, r);
    var (equal, st2) := GenCompare(st1, "jeq", l, r);
    var (sum, st3) := GenOp(st2, "add", IdentText(st2, Some(strict)), IdentText(st2, Some(equal)), None);
    var (res, st4) := GenCompare(st3, "jgt", IdentText(st3, Some(sum)), "0");
    (CText(IdentText(st4, Some(res))), st4)
  }

  /** `&&` and `||`: the sum of both sides, then `sum > bound`. */
  function LowerLogic(st: CState, l: string, r: string, bound: string): (out: (CVal, CState))
    ensures Extends(st, out.1)
  {
    var (sum, st1) := GenOp(st, "add", l, r, None);
    var (res, st2) := GenCompare(st1, "jgt", IdentText(st1, Some(sum)), bound);
    (CText(IdentText(st2, Some(res))), st2)
  }

  /** `..`: a fresh list variable, set to `[]` and filled by the counting loop. */
  function LowerRange(st: CState, l: string, r: string): (out: (CVal, CState))
    ensures Extends(st, out.1)
  {
    var (list, st1) := NewVar(st);
    var st2 := GenPushRange(Emit(st1, "let " + list + " []"), list, l, r);
    (CText(IdentText(st2, Some(list))), st2)
  }

  /**
   * The second `match` of the operator case of `compile`, on the operator text and the
   * values both operands compiled to. `/` is folded at compile time; subscripts and pairs
   * are computed on the compiler's own values and are not modelled; other texts are a
   * SyntaxError.
   */
  function Lower(st: CState, op: string, left: CVal, right: CVal): (r: Result<(CVal, CState), Exc>)
    ensures r.Ok? ==> Extends(st, r.value.1)
    ensures op !in LoweredOperators ==> r == Err(SyntaxError)
  {
    if op !in LoweredOperators then Err(SyntaxError)
    else if op == "/" then
      match FloorDivide(left, right)
      case Err(e) => Err(e)
      case Ok(v) => Ok((v, st))
    else if op == "[" || op == ":" then Err(NotModelled)
    else
      match Str(left)
      case Err(e) => Err(e)
      case Ok(l) =>
        match Str(right)
        case Err(e) => Err(e)
        case Ok(r) => Ok(LowerTexts(st, op, l, r))
  }

  /** The operators that become emitted code, applied to their operands' texts. */
  function LowerTexts(st: CState, op: string, l: string, r: string): (out: (CVal, CState))
    ensures Extends(st, out.1)
  {
    if ArithCode(op).Some? then
      var (res, st1) := GenOp(st, ArithCode(op).value, l, r, None);
      (CText(IdentText(st1, Some(res))), st1)
    else if CompareCode(op).Some? then
      var (res, st1) := GenCompare(st, CompareCode(op).value, l, r);
      (CText(IdentText(st1, Some(res))), st1)
    else if op == "<=" then LowerOrEqual(st, "jlt", l, r)
    else if op == ">=" then LowerOrEqual(st, "jgt", l, r)
    else if op == "&&" then LowerLogic(st, l, r, "1")
    else if op == "||" then LowerLogic(st, l, r, "0")
    else LowerRange(st, l, r)
  }

  // ---------------------------------------------------------------------------------
  // compile

  /** `x.token.value`, which fails on a missing node or a node without a token. */
  function TokenValue(a: Ast): Result<Option<string>, Exc> {
    if a.Absent? || a.token.None? then Err(AttributeError) else Ok(a.token.value.value)
  }

  /** `x.token.type`, under the same conditions. */
  function TokenKind(a: Ast): Result<TokenType, Exc> {
    if a.Absent? || a.token.None? then Err(AttributeError) else Ok(a.token.value.kind)
  }

  /**
   * The VALUE case: `true`/`false` names are 1/0, a string literal is quoted, a number
   * literal is read as an int (a float literal is not modelled), anything else is its text.
   */
  function LiteralValue(t: Token): (r: Result<CVal, Exc>)
    ensures t.kind == STR ==> r == Ok(CText("'" + Show(t.value) + "'"))
    ensures t.kind == NUM && t.value.Some? && AllDigits(t.value.value) ==> r.Ok? && r.value.CInt? && r.value.i >= 0
  {
    if t.kind == IDN && t.value == Some("true") then Ok(CInt(1))
    else if t.kind == IDN && t.value == Some("false") then Ok(CInt(0))
    else if t.kind == STR then Ok(CText("'" + Show(t.value) + "'"))
    else if t.kind == NUM then
      if t.value.None? then Err(TypeError)
      else if '.' in t.value.value then Err(NotModelled)
      else
        match ParseInt(t.value.value)
        case None => Err(ValueError)
        case Some(n) => Ok(CInt(n))
    else if t.value.None? then Ok(CNone)
    else Ok(CText(t.value.value))
  }

  /** What a call's argument list joins: the items of a list, or the characters of a text. */
  function CallArgs(params: CVal): Result<seq<string>, Exc> {
    match params
    case CList(items) => StrAll(items)
    case CText(s) => Ok(seq(|s|, i requires 0 <= i < |s| => [s[i]]))
    case _ => Err(TypeError)
  }

  /** The generator's state moved forward: output only appended to, each new line under `st`'s indent, counters not decreased, the indent back where it was. */
  predicate Extends(st: CState, st2: CState) {
    && st.output <= st2.output
    && (forall k :: |st.output| <= k < |st2.output| ==> st.indent <= st2.output[k])
    && st.varCount <= st2.varCount
    && st.labelCount <= st2.labelCount
    && st2.indent == st.indent
  }

  /** `compile(ast)`: the value the node compiles to and the state after its lines are emitted. */
  function Compile(st: CState, a: Ast): (r: Result<(CVal, CState), Exc>)
    decreases a, 2
    ensures r.Ok? ==> Extends(st, r.value.1)
  {
    if a.Absent? then Err(AttributeError)
    else
      match a.kind
      case VALUE =>
        if a.token.None? then Err(AttributeError)
        else (match LiteralValue(a.token.value) case Err(e) => Err(e) case Ok(v) => Ok((v, st)))
      case IDENT =>
        if a.token.None? then Err(AttributeError) else Ok((CText(IdentText(st, a.token.value.value)), st))
      case FUNC_DEF => CompileFuncDef(st, a)
      case RETURN => CompileReturn(st, a)
      case OPERATOR => CompileOperator(st, a)
      case EXPR_LIST => CompileList(st, a)
      case STMT_LIST => GenStmtList(st, a)
      case FUNC_CALL => CompileCall(st, a)
      case IF => CompileIf(st, a)
      case FOR => CompileFor(st, a)
      case _ => Ok((CNone, st))
  }

  /** Each node compiled in turn, left to right, collecting the values. */
  function CompileAll(st: CState, items: seq<Ast>): (r: Result<(seq<CVal>, CState), Exc>)
    decreases items
    ensures r.Ok? ==> |r.value.0| == |items| && Extends(st, r.value.1)
  {
    if items == [] then Ok(([], st))
    else
      match Compile(st, items[0])
      case Err(e) => Err(e)
      case Ok(first) =>
        match CompileAll(first.1, items[1..])
        case Err(e) => Err(e)
        case Ok(rest) => Ok(([first.0] + rest.0, rest.1))
  }

  /** `gen_stmt_list`: every statement compiled in turn, their values dropped. */
  function GenStmtList(st: CState, a: Ast): (r: Result<(CVal, CState), Exc>)
    requires a.Node?
    decreases a, 1
    ensures r.Ok? ==> Extends(st, r.value.1) && r.value.0 == CNone
  {
    match CompileAll(st, a.children)
    case Err(e) => Err(e)
    case Ok(done) => Ok((CNone, done.1))
  }

  /** The RETURN case: its first child goes to `gen_return`. */
  function CompileReturn(st: CState, a: Ast): (r: Result<(CVal, CState), Exc>)
    requires a.Node? && a.kind == RETURN
    decreases a, 1
    ensures r.Ok? ==> Extends(st, r.value.1) && r.value.0 == CNone
  {
    if |a.children| == 0 then Err(IndexError) else GenReturn(st, a.children[0])
  }

  /** `gen_return`: `ret` and the text of the returned expression. */
  function GenReturn(st: CState, e: Ast): (r: Result<(CVal, CState), Exc>)
    decreases e, 3
    ensures r.Ok? ==> Extends(st, r.value.1) && r.value.0 == CNone
  {
    match Compile(st, e)
    case Err(e) => Err(e)
    case Ok(res) =>
      match Str(res.0)
      case Err(e) => Err(e)
      case Ok(s) => Ok((CNone, Emit(res.1, "ret " + s)))
  }

  /** The EXPR_LIST case: a bracket list is built at run time; any other list is a list of values. */
  function CompileList(st: CState, a: Ast): (r: Result<(CVal, CState), Exc>)
    requires a.Node? && a.kind == EXPR_LIST
    decreases a, 1
    ensures r.Ok? ==> Extends(st, r.value.1)
  {
    if a.token.None? then Err(AttributeError)
    else if a.token.value.value == Some("[") then GenValueList(st, a)
    else
      match CompileAll(st, a.children)
      case Err(e) => Err(e)
      case Ok(res) => Ok((CList(res.0), res.1))
  }

  /** Each node compiled in turn and its value turned into text at once, as `str(self.compile(ast))` does. */
  function CompileTexts(st: CState, items: seq<Ast>): (r: Result<(seq<string>, CState), Exc>)
    decreases items
    ensures r.Ok? ==> |r.value.0| == |items| && Extends(st, r.value.1)
  {
    if items == [] then Ok(([], st))
    else
      match Compile(st, items[0])
      case Err(e) => Err(e)
      case Ok(first) =>
        match Str(first.0)
        case Err(e) => Err(e)
        case Ok(text) =>
          match CompileTexts(first.1, items[1..])
          case Err(e) => Err(e)
          case Ok(rest) => Ok(([text] + rest.0, rest.1))
  }

  /** `gen_value_list`: a fresh variable set to `[]`, then one `psh` of every item's text. */
  function GenValueList(st: CState, a: Ast): (r: Result<(CVal, CState), Exc>)
    requires a.Node?
    decreases a, 0
    ensures r.Ok? ==> Extends(st, r.value.1)
  {
    var (list, st1) := NewVar(st);
    match CompileTexts(Emit(st1, "let " + list + " []"), a.children)
    case Err(e) => Err(e)
    case Ok(res) =>
      var st2 := Emit(res.1, "psh $" + list + " " + Join(res.0, ' '));
      Ok((CText(IdentText(st2, Some(list))), st2))
  }

  /** The IF case: a fresh end label, the condition/block pairs, then the end label. */
  function CompileIf(st: CState, a: Ast): (r: Result<(CVal, CState), Exc>)
    requires a.Node? && a.kind == IF
    decreases a, 1
    ensures r.Ok? ==> Extends(st, r.value.1) && r.value.0 == CNone
  {
    var (end, st1) := NewLabel(st);
    match IfPairs(st1, a.children, 0, end)
    case Err(e) => Err(e)
    case Ok(st2) => Ok((CNone, Emit(st2, "#" + end)))
  }

  /**
   * The loop of the IF case, from pair `i` on: for each (condition, block) pair a jump
   * into the block when the condition is 1, a jump past it otherwise, and a jump to the
   * end after it. Only the first `|children| / 2` pairs are visited.
   */
  function IfPairs(st: CState, children: seq<Ast>, i: nat, end: string): (r: Result<CState, Exc>)
    decreases children, |children| / 2 - i, 1
    ensures r.Ok? ==> Extends(st, r.value)
  {
    if i >= |children| / 2 then Ok(st)
    else
      match IfBranch(st, children, i, end)
      case Err(e) => Err(e)
      case Ok(st1) => IfPairs(st1, children, i + 1, end)
  }

  /** Pair `i` of the IF case: labels T and F, `jeq cond 1 T`, `jmp F`, `#T`, the block, `jmp end`, `#F`. */
  function IfBranch(st: CState, children: seq<Ast>, i: nat, end: string): (r: Result<CState, Exc>)
    requires i < |children| / 2
    decreases children, |children| / 2 - i, 0
    ensures r.Ok? ==> Extends(st, r.value)
  {
    var (t, st1) := NewLabel(st);
    var (f, st2) := NewLabel(st1);
    match Compile(st2, children[2 * i])
    case Err(e) => Err(e)
    case Ok(c) =>
      match Str(c.0)
      case Err(e) => Err(e)
      case Ok(cond) =>
        match Compile(EmitAll(c.1, ["jeq " + cond + " 1 " + t, "jmp " + f, "#" + t]), children[2 * i + 1])
        case Err(e) => Err(e)
        case Ok(block) => Ok(EmitAll(block.1, ["jmp " + end, "#" + f]))
  }

  /** The OPERATOR case: `=` is a `let`; otherwise both operands are compiled, then lowered. */
  function CompileOperator(st: CState, a: Ast): (r: Result<(CVal, CState), Exc>)
    requires a.Node? && a.kind == OPERATOR
    decreases a, 1
    ensures r.Ok? ==> Extends(st, r.value.1)
  {
    if a.token.None? then Err(AttributeError)
    else if a.token.value.value == Some("=") then CompileAssign(st, a)
    else if |a.children| == 0 then Err(IndexError)
    else
      match Compile(st, a.children[0])
      case Err(e) => Err(e)
      case Ok(left) =>
        if |a.children| == 1 then Err(IndexError)
        else
          match Compile(left.1, a.children[1])
          case Err(e) => Err(e)
          case Ok(right) =>
            var op := Show(a.token.value.value);
            if op == "." then MemberAccess(a.children[0], a.children[1])
            else Lower(right.1, op, left.0, right.0)
  }

  /** `x = e`: the target's name, then `let name value`. */
  function CompileAssign(st: CState, a: Ast): (r: Result<(CVal, CState), Exc>)
    requires a.Node?
    decreases a, 0
    ensures r.Ok? ==> Extends(st, r.value.1) && r.value.0 == CNone
  {
    if |a.children| == 0 then Err(IndexError)
    else
      match TokenValue(a.children[0])
      case Err(e) => Err(e)
      case Ok(name) =>
        if |a.children| == 1 then Err(IndexError)
        else
          match Compile(st, a.children[1])
          case Err(e) => Err(e)
          case Ok(res) =>
            match Str(res.0)
            case Err(e) => Err(e)
            case Ok(s) => Ok((CNone, Emit(res.1, "let " + Show(name) + " " + s)))
  }

  /**
   * The first `match` of the operator case, for `.`: two number tokens make a float and a
   * `len` member a length, neither of which is modelled; any other `.` then reaches the
   * second `match`, which has no case for it.
   */
  function MemberAccess(left: Ast, right: Ast): (r: Result<(CVal, CState), Exc>)
    ensures r.Err?
    ensures TokenKind(left) == Ok(NUM) && TokenKind(right) == Ok(NUM) ==> r == Err(NotModelled)
    ensures TokenKind(left).Ok? && TokenKind(left) != Ok(NUM) && TokenValue(right).Ok? && TokenValue(right) != Ok(Some("len")) ==> r == Err(SyntaxError)
  {
    match TokenKind(left)
    case Err(e) => Err(e)
    case Ok(k0) =>
      match (if k0 == NUM then TokenKind(right) else Ok(k0))
      case Err(e) => Err(e)
      case Ok(k1) =>
        if k0 == NUM && k1 == NUM then Err(NotModelled)
        else
          match TokenValue(right)
          case Err(e) => Err(e)
          case Ok(v) => if v == Some("len") then Err(NotModelled) else Err(SyntaxError)
  }

  /** The FUNC_CALL case: `print` becomes `prt`; any other call a `cal` and a copy of `$ret`. */
  function CompileCall(st: CState, a: Ast): (r: Result<(CVal, CState), Exc>)
    requires a.Node? && a.kind == FUNC_CALL
    decreases a, 1
    ensures r.Ok? ==> Extends(st, r.value.1)
  {
    var params: Result<(CVal, CState), Exc> :=
      if |a.children| == 0 then Ok((CList([]), st))
      else Compile(st, a.children[0]);
    match params
    case Err(e) => Err(e)
    case Ok((ps, st1)) =>
      if a.token.None? then Err(AttributeError)
      else
        var name := a.token.value.value;
        if name == Some("print") then
          match CallArgs(ps)
          case Err(e) => Err(e)
          case Ok(args) => Ok((CNone, Emit(st1, CallLine("prt", args, true))))
        else if name == Some("type") then Err(NotModelled)
        else
          match CallArgs(ps)
          case Err(e) => Err(e)
          case Ok(args) =>
            var st2 := Emit(st1, CallLine(Show(name), args, false));
            var (res, st3) := NewVar(st2);
            var st4 := Emit(st3, "let " + res + " $ret");
            Ok((CText(IdentText(st4, Some(res))), st4))
  }

  /** The FOR case: the loop variable is the first operand of the range node, the range its second. */
  function CompileFor(st: CState, a: Ast): (r: Result<(CVal, CState), Exc>)
    requires a.Node? && a.kind == FOR
    decreases a, 1
    ensures r.Ok? ==> Extends(st, r.value.1)
  {
    var children := a.children;
    if |children| == 0 then Err(IndexError)
    else if children[0].Absent? then Err(AttributeError)
    else if |children[0].children| == 0 then Err(IndexError)
    else
      match TokenValue(children[0].children[0])
      case Err(e) => Err(e)
      case Ok(loopVar) =>
        if |children[0].children| == 1 then Err(IndexError)
        else
          match Compile(st, children[0].children[1])
          case Err(e) => Err(e)
          case Ok((range, st1)) =>
            if |children| == 1 then Err(IndexError)
            else
              match Str(range)
              case Err(e) => Err(e)
              case Ok(text) => GenFor(st1, loopVar, text, children[1])
  }

  /** `gen_for`: `for v range`, the body one space further in, then `nxt`. */
  function GenFor(st: CState, v: Option<string>, range: string, body: Ast): (r: Result<(CVal, CState), Exc>)
    decreases body, 3
    ensures r.Ok? ==> Extends(st, r.value.1) && r.value.0 == CNone
  {
    match Compile(Indented(Emit(st, "for " + Show(v) + " " + range)), body)
    case Err(e) => Err(e)
    case Ok(res) => Ok((CNone, Emit(Dedented(res.1), "nxt")))
  }

  /** The argument names of a parameter list, as `arg.token.value` reads them. */
  function ParamNames(args: seq<Ast>): (r: Result<seq<Option<string>>, Exc>)
    ensures r.Ok? ==> |r.value| == |args| && forall i :: 0 <= i < |args| ==> TokenValue(args[i]) == Ok(r.value[i])
  {
    if args == [] then Ok([])
    else
      match TokenValue(args[0])
      case Err(e) => Err(e)
      case Ok(first) =>
        match ParamNames(args[1..])
        case Err(e) => Err(e)
        case Ok(rest) => Ok([first] + rest)
  }

  /**
   * The FUNC_DEF case with `gen_func_def`: the definition is recorded under its name, the
   * arguments become the argument set, and `def f`, one `let _a $i` per argument, the
   * indented body and `end` are emitted; the argument set is then emptied.
   */
  function CompileFuncDef(st: CState, a: Ast): (r: Result<(CVal, CState), Exc>)
    requires a.Node? && a.kind == FUNC_DEF
    decreases a, 1
    ensures r.Ok? ==> Extends(st, r.value.1) && r.value.0 == CNone && r.value.1.funcVar == {}
  {
    var children := a.children;
    if |children| == 0 then Err(IndexError)
    else
      match TokenValue(children[0])
      case Err(e) => Err(e)
      case Ok(name) =>
        if |children| < 3 then Err(IndexError)
        else if children[1].Absent? then Err(AttributeError)
        else
          match ParamNames(children[1].children)
          case Err(e) => Err(e)
          case Ok(names) => GenFuncDef(st.(funcs := st.funcs[name := a]), name, names, children[2])
  }

  /** `gen_func_def` once the arguments' names are known. */
  function GenFuncDef(st: CState, name: Option<string>, names: seq<Option<string>>, body: Ast): (r: Result<(CVal, CState), Exc>)
    decreases body, 3
    ensures r.Ok? ==> Extends(st, r.value.1) && r.value.0 == CNone && r.value.1.funcVar == {}
  {
    var st1 := st.(funcVar := st.funcVar + set n | n in names);
    var st2 := EmitAll(Indented(Emit(st1, "def " + Show(name))), ParamLines(names));
    match Compile(st2, body)
    case Err(e) => Err(e)
    case Ok(res) => Ok((CNone, Emit(Dedented(res.1), "end").(funcVar := {})))
  }

  /** `compile_ast`: a comment line, then the whole tree. */
  function CompileAst(st: CState, a: Ast): (r: Result<CState, Exc>)
    ensures r.Ok? ==> Extends(st, r.value) && |r.value.output| > |st.output|
    ensures r.Ok? ==> r.value.output[|st.output|] == st.indent + "/ ==== runtime script ===="
  {
    match Compile(Emit(st, "/ ==== runtime script ===="), a)
    case Err(e) => Err(e)
    case Ok((_, st1)) => Ok(st1)
  }
}
