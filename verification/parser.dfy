/**
 * The Vee parser: recursive descent over the lexer's tokens for `if`, `func`, `for`,
 * `return` and `class` statements, with expressions parsed by precedence climbing over a
 * table of operator ranks. The specification functions take the token list and a position
 * and return the tree built and the position reached; the `Parser` class walks the same
 * grammar with a cursor field.
 */
module VeeParser {
  import opened Wrappers
  import opened Exceptions
  import opened Lexer

  datatype NodeType =
    | EXPR_LIST | STMT_LIST | OPERATOR | IDENT | VALUE | ARG | FUNC_CALL | FUNC_DEF
    | ARG_LIST | FOR | IF | ELSE | RETURN | CLASS | TODO

  /** A syntax tree. `Absent` is the missing expression the parser returns as `None`. */
  datatype Ast = Absent | Node(kind: NodeType, token: Option<Token>, children: seq<Ast>)

  /** The rank of each binary operator (higher binds tighter); None for any other text. */
  function Rank(op: string): Option<nat> {
    match op
    case "=" => Some(0) case "+=" => Some(0) case "-=" => Some(0) case "*=" => Some(0)
    case "/=" => Some(0) case "/.=" => Some(0) case "%=" => Some(0) case ":" => Some(0)
    case ".." => Some(1) case "==" => Some(1) case "!=" => Some(1) case ">" => Some(1)
    case ">=" => Some(1) case "<" => Some(1) case "<=" => Some(1)
    case "+" => Some(2) case "-" => Some(2) case "*" => Some(3) case "/" => Some(3) case "/." => Some(3)
    case "++" => Some(10) case "--" => Some(10) case "**" => Some(10) case "." => Some(99)
    case _ => None
  }

  /** Operators whose right operand is parsed one rank higher, so they group to the left. */
  const LeftAssociative: set<string> := {"+", "-", "*", "/"}

  /** The closing bracket of each list opener. */
  const ListPair: map<string, string> := map["(" := ")", "[" := "]", "{" := "}"]

  /** The statement keywords `parse_stmt` accepts. */
  const StatementWords: set<string> := {"if", "func", "for", "return", "class"}

  // ---------------------------------------------------------------------------------
  // Shapes of the trees built

  predicate IsKind(a: Ast, k: NodeType) {
    a.Node? && a.kind == k
  }

  /**
   * An expression tree as the parser builds it: every operator node has a present left
   * operand and exactly two operands, a call has exactly one argument list, and names and
   * literals are leaves.
   */
  predicate WellShaped(a: Ast)
    decreases a
  {
    a.Node? ==>
      && (a.kind == OPERATOR ==> |a.children| == 2 && a.children[0].Node?)
      && (a.kind == FUNC_CALL ==> |a.children| == 1 && IsKind(a.children[0], EXPR_LIST))
      && (a.kind == IDENT || a.kind == VALUE ==> a.children == [])
      && forall i :: 0 <= i < |a.children| ==> WellShaped(a.children[i])
  }

  /** An expression tree the parser can return as a node. */
  predicate Expression(a: Ast) {
    a.Node? && WellShaped(a) && (a.kind == EXPR_LIST || a.kind == OPERATOR || a.kind == IDENT
      || a.kind == VALUE || a.kind == FUNC_CALL)
  }

  /** An operator node over a present expression and any well-shaped right operand is an expression. */
  lemma OperatorNode(t: Token, left: Ast, right: Ast)
    requires Expression(left) && WellShaped(right)
    ensures Expression(Node(OPERATOR, Some(t), [left, right]))
  {
    var n := Node(OPERATOR, Some(t), [left, right]);
    assert n.children[0] == left && n.children[1] == right;
  }

  /** A parameter list: one identifier leaf per parameter. */
  predicate Params(a: Ast) {
    IsKind(a, ARG_LIST) && forall i :: 0 <= i < |a.children| ==> IsKind(a.children[i], IDENT) && a.children[i].children == []
  }

  /** A statement block. */
  predicate StmtBlock(a: Ast) {
    IsKind(a, STMT_LIST) && a.token.None?
  }

  /** The children each statement kind is built with. */
  predicate StatementShaped(a: Ast) {
    a.Node? &&
    var c := a.children;
    match a.kind
    case IF => (|c| == 2 || |c| == 3) && WellShaped(c[0]) && StmtBlock(c[1]) && (|c| == 3 ==> StmtBlock(c[2]))
    case FUNC_DEF => |c| == 3 && IsKind(c[0], VALUE) && Params(c[1]) && StmtBlock(c[2])
    case FOR => |c| == 2 && WellShaped(c[0]) && StmtBlock(c[1])
    case RETURN => |c| == 1 && WellShaped(c[0])
    case CLASS => |c| == 2 && IsKind(c[0], VALUE) && StmtBlock(c[1])
    case _ => false
  }

  /** The node kind of the statement a keyword starts. */
  function StatementKind(word: string): NodeType
    requires word in StatementWords
  {
    match word
    case "if" => IF
    case "func" => FUNC_DEF
    case "for" => FOR
    case "return" => RETURN
    case _ => CLASS
  }

  // ---------------------------------------------------------------------------------
  // Token access

  /** `peek`: the token at `pos`, or SyntaxError past the end. */
  function PeekAt(toks: seq<Token>, pos: nat): (r: Result<Token, Exc>)
    ensures r.Ok? <==> pos < |toks|
    ensures r.Ok? ==> r.value == toks[pos]
    ensures r.Err? ==> r.error == SyntaxError
  {
    if pos < |toks| then Ok(toks[pos]) else Err(SyntaxError)
  }

  /**
   * `consume`: the token at `pos` and the position after it, when the token has the
   * kind and the text asked for (if any).
   */
  function ConsumeAt(toks: seq<Token>, pos: nat, kind: Option<TokenType>, value: Option<string>): (r: Result<(Token, nat), Exc>)
    ensures r.Ok? <==>
      pos < |toks| && (kind.None? || toks[pos].kind == kind.value) && (value.None? || toks[pos].value == value)
    ensures r.Ok? ==> r.value == (toks[pos], pos + 1)
    ensures r.Err? ==> r.error == (if pos < |toks| then SyntaxError else IndexError)
  {
    if pos >= |toks| then Err(IndexError)
    else
      var t := toks[pos];
      if kind.Some? && t.kind != kind.value then Err(SyntaxError)
      else if value.Some? && t.value != value then Err(SyntaxError)
      else Ok((t, pos + 1))
  }

  /** `peek_check`: whether a token is left, of the kind asked for (if any), with text `value`. */
  predicate PeekCheckAt(toks: seq<Token>, pos: nat, value: string, kind: Option<TokenType>) {
    pos < |toks| && (kind.None? || toks[pos].kind == kind.value) && toks[pos].value == Some(value)
  }

  /** A '}' or ']' symbol: nothing to parse as an expression. */
  predicate IsCloser(t: Token) {
    t.kind == SYM && (t.value == Some("}") || t.value == Some("]"))
  }

  /** A token that ends an expression without being an operator candidate. */
  predicate EndsExpression(t: Token) {
    t.kind == NEL || (t.kind == SYM && (t.value == Some("{") || t.value == Some("}") || t.value == Some("]")))
  }

  predicate IsOperator(t: Token) {
    t.value.Some? && Rank(t.value.value).Some?
  }

  // ---------------------------------------------------------------------------------
  // Expressions

  /**
   * `parse_expression(min_precedence)`: Absent before '}' or ']'; leading newlines are
   * skipped (and the rank bound is reset to 0); otherwise an atom followed by the
   * operators of rank at least `minPrec`.
   */
  function ExpressionAt(toks: seq<Token>, pos: nat, minPrec: nat): (r: Result<(Ast, nat), Exc>)
    requires pos <= |toks|
    decreases |toks| - pos, 3
    ensures r.Ok? ==> pos <= r.value.1 <= |toks|
    ensures r.Ok? && r.value.0.Absent? ==> r.value.1 < |toks| && IsCloser(toks[r.value.1])
    ensures r.Ok? && r.value.0.Node? ==> pos < r.value.1 && Expression(r.value.0)
  {
    if pos == |toks| then Err(SyntaxError)
    else
      var t := toks[pos];
      if IsCloser(t) then Ok((Absent, pos))
      else if t.kind == NEL then ExpressionAt(toks, pos + 1, 0)
      else
        match AtomAt(toks, pos)
        case Err(e) => Err(e)
        case Ok(atom) => ExpressionTail(toks, atom.1, atom.0, minPrec)
  }

  /** The rank the right operand of `op` is parsed at. */
  function RightRank(op: Token): nat
    requires IsOperator(op)
  {
    Rank(op.value.value).value + (if op.value.value in LeftAssociative then 1 else 0)
  }

  /**
   * The precedence-climbing loop: while the next token is an operator of rank at least
   * `minPrec`, it takes `node` as its left operand and an expression parsed at the next
   * rank (left-associative operators) or the same rank (the others) as its right one.
   */
  function ExpressionTail(toks: seq<Token>, pos: nat, node: Ast, minPrec: nat): (r: Result<(Ast, nat), Exc>)
    requires pos <= |toks| && Expression(node)
    decreases |toks| - pos, 0
    ensures r.Ok? ==> pos <= r.value.1 <= |toks| && Expression(r.value.0)
  {
    if pos == |toks| then Err(SyntaxError)
    else
      var t := toks[pos];
      if EndsExpression(t) || !IsOperator(t) then Ok((node, pos))
      else if Rank(t.value.value).value < minPrec then Ok((node, pos))
      else
        match ExpressionAt(toks, pos + 1, RightRank(t))
        case Err(e) => Err(e)
        case Ok(right) => ExpressionTail(toks, right.1, Node(OPERATOR, Some(t), [node, right.0]), minPrec)
  }

  /**
   * `parse_atom`: a '[' or '{' list; a name, which may be a call (followed by a
   * parenthesised list) or be indexed any number of times; a string or number literal; a
   * parenthesised expression; anything else is a SyntaxError.
   */
  function AtomAt(toks: seq<Token>, pos: nat): (r: Result<(Ast, nat), Exc>)
    requires pos <= |toks|
    decreases |toks| - pos, 2
    ensures r.Ok? ==> pos < r.value.1 <= |toks| && Expression(r.value.0)
  {
    if pos == |toks| then Err(SyntaxError)
    else
      var tok := toks[pos];
      if tok.value.Some? && tok.value.value in ListPair && tok.value.value != "(" then
        ExpressionListAt(toks, pos, tok.value.value)
      else if tok.kind == IDN then
        if PeekCheckAt(toks, pos + 1, "(", None) then
          (match ExpressionListAt(toks, pos + 1, "(")
           case Err(e) => Err(e)
           case Ok(args) => Ok((Node(FUNC_CALL, Some(tok), [args.0]), args.1)))
        else IndexTail(toks, pos + 1, Node(IDENT, Some(tok), []))
      else if tok.kind == STR || tok.kind == NUM then Ok((Node(VALUE, Some(tok), []), pos + 1))
      else if tok.value == Some("(") then
        (match ExpressionAt(toks, pos + 1, 0)
         case Err(e) => Err(e)
         case Ok(inner) =>
           match ConsumeAt(toks, inner.1, None, Some(")"))
           case Err(e) => Err(e)
           case Ok(close) => Ok((inner.0, close.1)))
      else Err(SyntaxError)
  }

  /** The index loop of `parse_atom`: each `[e]` wraps the tree so far in a '[' operator. */
  function IndexTail(toks: seq<Token>, pos: nat, node: Ast): (r: Result<(Ast, nat), Exc>)
    requires pos <= |toks| && Expression(node)
    decreases |toks| - pos, 0
    ensures r.Ok? ==> pos <= r.value.1 <= |toks| && Expression(r.value.0)
  {
    if !PeekCheckAt(toks, pos, "[", None) then Ok((node, pos))
    else
      match ConsumeAt(toks, pos, Some(SYM), Some("["))
      case Err(e) => Err(e)
      case Ok(open) =>
        match ExpressionAt(toks, open.1, 0)
        case Err(e) => Err(e)
        case Ok(index) =>
          match ConsumeAt(toks, index.1, Some(SYM), Some("]"))
          case Err(e) => Err(e)
          case Ok(close) => IndexTail(toks, close.1, Node(OPERATOR, Some(open.0), [node, index.0]))
  }

  /**
   * `parse_expression_list(opener)`: the opener, then expressions (each optionally
   * followed by a comma) up to the paired closer, which is consumed too.
   */
  function ExpressionListAt(toks: seq<Token>, pos: nat, opener: string): (r: Result<(Ast, nat), Exc>)
    requires pos <= |toks| && opener in ListPair
    decreases |toks| - pos, 1
    ensures r.Ok? ==> pos < r.value.1 <= |toks| && IsKind(r.value.0, EXPR_LIST) && WellShaped(r.value.0)
    ensures r.Ok? ==> r.value.0.token == Some(toks[pos]) && toks[r.value.1 - 1].value == Some(ListPair[opener])
  {
    match ConsumeAt(toks, pos, Some(SYM), Some(opener))
    case Err(e) => Err(e)
    case Ok(open) => ListTail(toks, open.1, Node(EXPR_LIST, Some(open.0), []), ListPair[opener])
  }

  /**
   * The element loop of `parse_expression_list`. A round that consumes nothing (an
   * expression that is Absent at a closer of the other kind, with no comma after it)
   * would repeat forever; the model reports `Diverges` there.
   */
  function ListTail(toks: seq<Token>, pos: nat, node: Ast, closer: string): (r: Result<(Ast, nat), Exc>)
    requires pos <= |toks| && IsKind(node, EXPR_LIST) && WellShaped(node)
    decreases |toks| - pos, 4
    ensures r.Ok? ==> pos < r.value.1 <= |toks| && toks[r.value.1 - 1].value == Some(closer)
    ensures r.Ok? ==> IsKind(r.value.0, EXPR_LIST) && WellShaped(r.value.0) && r.value.0.token == node.token
  {
    if pos == |toks| then Err(SyntaxError)
    else if toks[pos].value == Some(closer) then
      match ConsumeAt(toks, pos, Some(SYM), Some(closer))
      case Err(e) => Err(e)
      case Ok(close) => Ok((node, close.1))
    else
      match ExpressionAt(toks, pos, 0)
      case Err(e) => Err(e)
      case Ok(arg) =>
        if arg.1 == |toks| then Err(SyntaxError)
        else
          var p := if toks[arg.1].value == Some(",") then arg.1 + 1 else arg.1;
          if p == pos then Err(Diverges)
          else ListTail(toks, p, node.(children := node.children + [arg.0]), closer)
  }

  // ---------------------------------------------------------------------------------
  // Statements

  /** `parse_block`: '{', a statement list, '}'. */
  function BlockAt(toks: seq<Token>, pos: nat): (r: Result<(Ast, nat), Exc>)
    requires pos <= |toks|
    decreases |toks| - pos, 0
    ensures r.Ok? ==> pos < r.value.1 <= |toks| && StmtBlock(r.value.0)
    ensures r.Ok? ==> toks[pos].value == Some("{") && toks[r.value.1 - 1].value == Some("}")
  {
    match ConsumeAt(toks, pos, None, Some("{"))
    case Err(e) => Err(e)
    case Ok(open) =>
      match StmtListAt(toks, open.1)
      case Err(e) => Err(e)
      case Ok(body) =>
        match ConsumeAt(toks, body.1, None, Some("}"))
        case Err(e) => Err(e)
        case Ok(close) => Ok((body.0, close.1))
  }

  /** `parse_args`: '(' and ')' around zero or more comma-separated identifiers. */
  function ArgsAt(toks: seq<Token>, pos: nat): (r: Result<(Ast, nat), Exc>)
    requires pos <= |toks|
    ensures r.Ok? ==> pos < r.value.1 <= |toks| && Params(r.value.0)
  {
    match ConsumeAt(toks, pos, Some(SYM), Some("("))
    case Err(e) => Err(e)
    case Ok(open) =>
      var node := Node(ARG_LIST, Some(open.0), []);
      var list :=
        if PeekCheckAt(toks, open.1, ")", None) then Ok((node, open.1))
        else
          (match ConsumeAt(toks, open.1, Some(IDN), None)
           case Err(e) => Err(e)
           case Ok(first) => ArgsTail(toks, first.1, node.(children := [Node(IDENT, Some(first.0), [])])));
      match list
      case Err(e) => Err(e)
      case Ok(list) =>
        match ConsumeAt(toks, list.1, Some(SYM), Some(")"))
        case Err(e) => Err(e)
        case Ok(close) => Ok((list.0, close.1))
  }

  /** The `, name` loop of `parse_args`. */
  function ArgsTail(toks: seq<Token>, pos: nat, node: Ast): (r: Result<(Ast, nat), Exc>)
    requires pos <= |toks| && Params(node)
    decreases |toks| - pos
    ensures r.Ok? ==> pos <= r.value.1 <= |toks| && Params(r.value.0) && r.value.0.token == node.token
  {
    if !PeekCheckAt(toks, pos, ",", None) then Ok((node, pos))
    else
      match ConsumeAt(toks, pos, Some(SYM), Some(","))
      case Err(e) => Err(e)
      case Ok(comma) =>
        match ConsumeAt(toks, comma.1, Some(IDN), None)
        case Err(e) => Err(e)
        case Ok(name) => ArgsTail(toks, name.1, node.(children := node.children + [Node(IDENT, Some(name.0), [])]))
  }

  /**
   * `parse_stmt`: the statement the keyword at `pos` starts, as a node carrying that
   * keyword's token; any other word is a SyntaxError.
   */
  function StmtAt(toks: seq<Token>, pos: nat): (r: Result<(Ast, nat), Exc>)
    requires pos <= |toks|
    decreases |toks| - pos, 2
    ensures r.Ok? ==> pos < r.value.1 <= |toks| && StatementShaped(r.value.0)
    ensures r.Ok? ==>
      (toks[pos].value.Some? && toks[pos].value.value in StatementWords
       && r.value.0.token == Some(toks[pos]) && r.value.0.kind == StatementKind(toks[pos].value.value))
    ensures pos < |toks| && (toks[pos].value.None? || toks[pos].value.value !in StatementWords) ==> r == Err(SyntaxError)
  {
    if pos == |toks| then Err(SyntaxError)
    else if toks[pos].value == Some("if") then IfAt(toks, pos)
    else if toks[pos].value == Some("func") then FuncAt(toks, pos)
    else if toks[pos].value == Some("for") then ForAt(toks, pos)
    else if toks[pos].value == Some("return") then ReturnAt(toks, pos)
    else if toks[pos].value == Some("class") then ClassAt(toks, pos)
    else Err(SyntaxError)
  }

  /** `if cond { ... }`, optionally followed by `else { ... }`. */
  function IfAt(toks: seq<Token>, pos: nat): (r: Result<(Ast, nat), Exc>)
    requires pos < |toks| && toks[pos].value == Some("if")
    decreases |toks| - pos, 1
    ensures r.Ok? ==> pos < r.value.1 <= |toks| && StatementShaped(r.value.0)
    ensures r.Ok? ==> r.value.0.token == Some(toks[pos]) && r.value.0.kind == IF
  {
    match ExpressionAt(toks, pos + 1, 0)
    case Err(e) => Err(e)
    case Ok(cond) =>
      match BlockAt(toks, cond.1)
      case Err(e) => Err(e)
      case Ok(body) =>
        if PeekCheckAt(toks, body.1, "else", None) then ElseAt(toks, pos, cond.0, body)
        else Ok((Node(IF, Some(toks[pos]), [cond.0, body.0]), body.1))
  }

  /** The `else { ... }` that ends an `if` at `pos`, after its condition and its block. */
  function ElseAt(toks: seq<Token>, pos: nat, cond: Ast, body: (Ast, nat)): (r: Result<(Ast, nat), Exc>)
    requires pos < body.1 < |toks|
    decreases |toks| - pos, 0
  {
    match BlockAt(toks, body.1 + 1)
    case Err(e) => Err(e)
    case Ok(other) => Ok((Node(IF, Some(toks[pos]), [cond, body.0, other.0]), other.1))
  }

  /** `func name(params) { ... }`; the name is whatever token follows the keyword. */
  function FuncAt(toks: seq<Token>, pos: nat): (r: Result<(Ast, nat), Exc>)
    requires pos < |toks| && toks[pos].value == Some("func")
    decreases |toks| - pos, 1
    ensures r.Ok? ==> pos < r.value.1 <= |toks| && StatementShaped(r.value.0)
    ensures r.Ok? ==> r.value.0.token == Some(toks[pos]) && r.value.0.kind == FUNC_DEF
    ensures r.Ok? ==> pos + 1 < |toks| && r.value.0.children[0].token == Some(toks[pos + 1])
  {
    if pos + 1 == |toks| then Err(IndexError)
    else
      match ArgsAt(toks, pos + 2)
      case Err(e) => Err(e)
      case Ok(args) =>
        match BlockAt(toks, args.1)
        case Err(e) => Err(e)
        case Ok(body) => Ok((Node(FUNC_DEF, Some(toks[pos]), [Node(VALUE, Some(toks[pos + 1]), []), args.0, body.0]), body.1))
  }

  /** `for range { ... }`. */
  function ForAt(toks: seq<Token>, pos: nat): (r: Result<(Ast, nat), Exc>)
    requires pos < |toks| && toks[pos].value == Some("for")
    decreases |toks| - pos, 1
    ensures r.Ok? ==> pos < r.value.1 <= |toks| && StatementShaped(r.value.0)
    ensures r.Ok? ==> r.value.0.token == Some(toks[pos]) && r.value.0.kind == FOR
  {
    match ExpressionAt(toks, pos + 1, 0)
    case Err(e) => Err(e)
    case Ok(range) =>
      match BlockAt(toks, range.1)
      case Err(e) => Err(e)
      case Ok(body) => Ok((Node(FOR, Some(toks[pos]), [range.0, body.0]), body.1))
  }

  /** `return e`. */
  function ReturnAt(toks: seq<Token>, pos: nat): (r: Result<(Ast, nat), Exc>)
    requires pos < |toks| && toks[pos].value == Some("return")
    decreases |toks| - pos, 1
    ensures r.Ok? ==> pos < r.value.1 <= |toks| && StatementShaped(r.value.0)
    ensures r.Ok? ==> r.value.0.token == Some(toks[pos]) && r.value.0.kind == RETURN
  {
    match ExpressionAt(toks, pos + 1, 0)
    case Err(e) => Err(e)
    case Ok(value) => Ok((Node(RETURN, Some(toks[pos]), [value.0]), value.1))
  }

  /** `class name { ... }`. */
  function ClassAt(toks: seq<Token>, pos: nat): (r: Result<(Ast, nat), Exc>)
    requires pos < |toks| && toks[pos].value == Some("class")
    decreases |toks| - pos, 1
    ensures r.Ok? ==> pos < r.value.1 <= |toks| && StatementShaped(r.value.0)
    ensures r.Ok? ==> r.value.0.token == Some(toks[pos]) && r.value.0.kind == CLASS
    ensures r.Ok? ==> pos + 1 < |toks| && r.value.0.children[0].token == Some(toks[pos + 1])
  {
    if pos + 1 == |toks| then Err(IndexError)
    else
      match BlockAt(toks, pos + 2)
      case Err(e) => Err(e)
      case Ok(body) => Ok((Node(CLASS, Some(toks[pos]), [Node(VALUE, Some(toks[pos + 1]), []), body.0]), body.1))
  }

  /** What a statement list may hold: statements and expressions. */
  predicate ListItem(a: Ast) {
    StatementShaped(a) || Expression(a)
  }

  /** Where a statement list stops: the end of the tokens, an EOF token, or a '}' or ']'. */
  predicate StopsAt(toks: seq<Token>, pos: nat) {
    pos == |toks| || (pos < |toks| && (toks[pos].kind == EOF || IsCloser(toks[pos])))
  }

  /** `parse_stmt_list`: a statement-list node holding the statements and expressions read. */
  function StmtListAt(toks: seq<Token>, pos: nat): (r: Result<(Ast, nat), Exc>)
    requires pos <= |toks|
    decreases |toks| - pos, 4
    ensures r.Ok? ==> pos <= r.value.1 <= |toks| && StmtBlock(r.value.0) && StopsAt(toks, r.value.1)
    ensures r.Ok? ==> forall i :: 0 <= i < |r.value.0.children| ==> ListItem(r.value.0.children[i])
  {
    StmtTail(toks, pos, Node(STMT_LIST, None, []))
  }

  /**
   * The loop of `parse_stmt_list`: newlines are skipped, keywords start statements, EOF
   * ends the list without being consumed, and so does an expression that is Absent.
   */
  function StmtTail(toks: seq<Token>, pos: nat, root: Ast): (r: Result<(Ast, nat), Exc>)
    requires pos <= |toks| && StmtBlock(root) && forall i :: 0 <= i < |root.children| ==> ListItem(root.children[i])
    decreases |toks| - pos, 3
    ensures r.Ok? ==> pos <= r.value.1 <= |toks| && StmtBlock(r.value.0) && StopsAt(toks, r.value.1)
    ensures r.Ok? ==> forall i :: 0 <= i < |r.value.0.children| ==> ListItem(r.value.0.children[i])
    ensures r.Ok? ==> root.children <= r.value.0.children
  {
    if pos >= |toks| then Ok((root, pos))
    else
      var t := toks[pos];
      if t.kind == KEY then
        (match StmtAt(toks, pos)
         case Err(e) => Err(e)
         case Ok(s) => StmtTail(toks, s.1, root.(children := root.children + [s.0])))
      else if t.kind == NEL then StmtTail(toks, pos + 1, root)
      else if t.kind == EOF then Ok((root, pos))
      else
        match ExpressionAt(toks, pos, 0)
        case Err(e) => Err(e)
        case Ok(e) =>
          if e.0.Node? then StmtTail(toks, e.1, root.(children := root.children + [e.0]))
          else Ok((root, e.1))
  }

  /** `parse`: the statement list from the first token. */
  function ParseAll(toks: seq<Token>): (r: Result<Ast, Exc>)
    ensures r.Ok? ==> StmtBlock(r.value)
  {
    match StmtListAt(toks, 0)
    case Err(e) => Err(e)
    case Ok(list) => Ok(list.0)
  }

  /** One round of the statement-list loop, by the kind of the next token. */
  lemma StmtListStep(toks: seq<Token>, pos: nat, root: Ast)
    requires pos < |toks| && StmtBlock(root) && forall i :: 0 <= i < |root.children| ==> ListItem(root.children[i])
    ensures toks[pos].kind == KEY ==>
      StmtTail(toks, pos, root) ==
        var s := StmtAt(toks, pos);
        if s.Err? then Err(s.error) else StmtTail(toks, s.value.1, root.(children := root.children + [s.value.0]))
    ensures toks[pos].kind == NEL ==> StmtTail(toks, pos, root) == StmtTail(toks, pos + 1, root)
    ensures toks[pos].kind == EOF ==> StmtTail(toks, pos, root) == Ok((root, pos))
    ensures toks[pos].kind !in {KEY, NEL, EOF} ==>
      StmtTail(toks, pos, root) ==
        var e := ExpressionAt(toks, pos, 0);
        if e.Err? then Err(e.error)
        else if e.value.0.Node? then StmtTail(toks, e.value.1, root.(children := root.children + [e.value.0]))
        else Ok((root, e.value.1))
  {
  }

  // ---------------------------------------------------------------------------------
  // Properties of expression parsing

  /** An expression ends, with nothing consumed, exactly where no operator of enough rank follows. */
  predicate TailStops(t: Token, minPrec: nat) {
    EndsExpression(t) || !IsOperator(t) || Rank(t.value.value).value < minPrec
  }

  /**
   * The precedence loop returns its input tree at its input position exactly when the
   * next token stops it; otherwise it consumes at least the operator.
   */
  lemma TailStopsExactly(toks: seq<Token>, pos: nat, node: Ast, minPrec: nat)
    requires pos < |toks| && Expression(node)
    ensures TailStops(toks[pos], minPrec) ==> ExpressionTail(toks, pos, node, minPrec) == Ok((node, pos))
    ensures !TailStops(toks[pos], minPrec) && ExpressionTail(toks, pos, node, minPrec).Ok? ==>
      ExpressionTail(toks, pos, node, minPrec).value.1 > pos
      && IsKind(ExpressionTail(toks, pos, node, minPrec).value.0, OPERATOR)
  {
    var r := ExpressionTail(toks, pos, node, minPrec);
    if !TailStops(toks[pos], minPrec) && r.Ok? {
      var t := toks[pos];
      var op := t.value.value;
      var prec := Rank(op).value;
      var right := ExpressionAt(toks, pos + 1, RightRank(t));
      assert right.Ok?;
      var built := Node(OPERATOR, Some(t), [node, right.value.0]);
      assert r == ExpressionTail(toks, right.value.1, built, minPrec);
      OperatorStays(toks, right.value.1, built, minPrec);
    }
  }

  /** Once the precedence loop holds an operator tree, what it returns is one. */
  lemma {:induction false} OperatorStays(toks: seq<Token>, pos: nat, node: Ast, minPrec: nat)
    requires pos <= |toks| && Expression(node) && IsKind(node, OPERATOR)
    ensures ExpressionTail(toks, pos, node, minPrec).Ok? ==> IsKind(ExpressionTail(toks, pos, node, minPrec).value.0, OPERATOR)
    decreases |toks| - pos
  {
    var r := ExpressionTail(toks, pos, node, minPrec);
    if r.Ok? && pos < |toks| && !TailStops(toks[pos], minPrec) {
      var t := toks[pos];
      var op := t.value.value;
      var prec := Rank(op).value;
      var right := ExpressionAt(toks, pos + 1, RightRank(t));
      var built := Node(OPERATOR, Some(t), [node, right.value.0]);
      OperatorStays(toks, right.value.1, built, minPrec);
    }
  }

  /**
   * Absent comes only from a '}' or ']' reached after nothing but newlines; a closer
   * where the expression starts gives Absent at once.
   */
  lemma {:induction false} AbsentOnlyAtCloser(toks: seq<Token>, pos: nat, minPrec: nat)
    requires pos <= |toks|
    ensures var r := ExpressionAt(toks, pos, minPrec);
      r.Ok? && r.value.0.Absent? ==> forall k :: pos <= k < r.value.1 ==> toks[k].kind == NEL
    ensures pos < |toks| && IsCloser(toks[pos]) ==> ExpressionAt(toks, pos, minPrec) == Ok((Absent, pos))
    decreases |toks| - pos
  {
    if pos < |toks| && !IsCloser(toks[pos]) && toks[pos].kind == NEL {
      AbsentOnlyAtCloser(toks, pos + 1, 0);
    }
  }

  /** An identifier token whose text opens no list. */
  predicate PlainName(t: Token) {
    t.kind == IDN && t.value.Some? && t.value.value !in ListPair
  }

  /** A name not followed by '(' or '[' is an identifier leaf, and the operator loop goes on after it. */
  lemma NameAtom(toks: seq<Token>, i: nat, minPrec: nat)
    requires i + 1 < |toks| && PlainName(toks[i])
    requires toks[i + 1].value != Some("(") && toks[i + 1].value != Some("[")
    ensures AtomAt(toks, i) == Ok((Node(IDENT, Some(toks[i]), []), i + 1))
    ensures ExpressionAt(toks, i, minPrec) == ExpressionTail(toks, i + 1, Node(IDENT, Some(toks[i]), []), minPrec)
  {
  }

  /**
   * A name followed by '(' is a call: one FUNC_CALL node for the name whose only child is
   * the parenthesised expression list, ending after the ')'; a list that fails to parse
   * fails the atom with the same error.
   */
  lemma CallAtom(toks: seq<Token>, i: nat)
    requires i + 1 < |toks| && PlainName(toks[i]) && toks[i + 1].value == Some("(")
    ensures match ExpressionListAt(toks, i + 1, "(")
      case Ok(args) =>
        && AtomAt(toks, i) == Ok((Node(FUNC_CALL, Some(toks[i]), [args.0]), args.1))
        && IsKind(args.0, EXPR_LIST) && toks[args.1 - 1].value == Some(")")
      case Err(e) => AtomAt(toks, i) == Err(e)
  {
    assert PeekCheckAt(toks, i + 1, "(", None);
  }

  /** A name atom: a call when '(' follows, otherwise the index loop after an identifier. */
  lemma IdentAtom(toks: seq<Token>, i: nat)
    requires i < |toks| && toks[i].kind == IDN
    requires !(toks[i].value.Some? && toks[i].value.value in ListPair && toks[i].value.value != "(")
    ensures PeekCheckAt(toks, i + 1, "(", None) ==>
              AtomAt(toks, i) == (match ExpressionListAt(toks, i + 1, "(")
                                  case Err(e) => Err(e)
                                  case Ok(args) => Ok((Node(FUNC_CALL, Some(toks[i]), [args.0]), args.1)))
    ensures !PeekCheckAt(toks, i + 1, "(", None) ==> AtomAt(toks, i) == IndexTail(toks, i + 1, Node(IDENT, Some(toks[i]), []))
  {
  }

  /** A parenthesised atom: the inner expression, then ')'. */
  lemma ParenAtom(toks: seq<Token>, i: nat)
    requires i < |toks| && toks[i].value == Some("(") && toks[i].kind !in {IDN, STR, NUM}
    ensures AtomAt(toks, i) ==
      match ExpressionAt(toks, i + 1, 0)
      case Err(e) => Err(e)
      case Ok(inner) =>
        match ConsumeAt(toks, inner.1, None, Some(")"))
        case Err(e) => Err(e)
        case Ok(close) => Ok((inner.0, close.1))
  {
  }

  /** Symbol tokens that the operator loop takes as binary operators. */
  predicate BinarySymbol(t: Token) {
    t.kind == SYM && IsOperator(t)
  }


  /** One round of the operator loop: `op` at `pos` takes `node` and the expression after it. */
  lemma TailTakes(toks: seq<Token>, pos: nat, node: Ast, minPrec: nat, right: Ast, next: nat)
    requires pos < |toks| && Expression(node) && BinarySymbol(toks[pos]) && Rank(toks[pos].value.value).value >= minPrec
    requires ExpressionAt(toks, pos + 1, RightRank(toks[pos])) == Ok((right, next))
    ensures Expression(Node(OPERATOR, Some(toks[pos]), [node, right]))
    ensures ExpressionTail(toks, pos, node, minPrec) == ExpressionTail(toks, next, Node(OPERATOR, Some(toks[pos]), [node, right]), minPrec)
  {
    assert toks[pos].value != Some("{") && toks[pos].value != Some("}") && toks[pos].value != Some("]") by {
      assert Rank("{").None? && Rank("}").None? && Rank("]").None?;
    }
  }

  /** The names of `x o1 y o2 z`, followed by a token without text. */
  predicate ChainTokens(toks: seq<Token>) {
    |toks| == 6 && PlainName(toks[0]) && BinarySymbol(toks[1]) && PlainName(toks[2]) && BinarySymbol(toks[3])
    && PlainName(toks[4]) && toks[5].value.None? && toks[5].kind != NEL
  }

  lemma ChainNames(toks: seq<Token>, minPrec: nat)
    requires ChainTokens(toks)
    ensures ExpressionAt(toks, 0, minPrec) == ExpressionTail(toks, 1, Node(IDENT, Some(toks[0]), []), minPrec)
    ensures ExpressionAt(toks, 2, minPrec) == ExpressionTail(toks, 3, Node(IDENT, Some(toks[2]), []), minPrec)
    ensures ExpressionAt(toks, 4, minPrec) == Ok((Node(IDENT, Some(toks[4]), []), 5))
  {
    assert Rank("(").None? && Rank("[").None?;
    assert ExpressionAt(toks, 0, minPrec) == ExpressionTail(toks, 1, Node(IDENT, Some(toks[0]), []), minPrec) by {
      NameAtom(toks, 0, minPrec);
    }
    assert ExpressionAt(toks, 2, minPrec) == ExpressionTail(toks, 3, Node(IDENT, Some(toks[2]), []), minPrec) by {
      NameAtom(toks, 2, minPrec);
    }
    assert ExpressionAt(toks, 4, minPrec) == Ok((Node(IDENT, Some(toks[4]), []), 5)) by {
      NameAtom(toks, 4, minPrec);
      TailStopsExactly(toks, 5, Node(IDENT, Some(toks[4]), []), minPrec);
    }
  }

  /** `y o2 z` parsed at a rank `o2` reaches. */
  lemma ChainInner(toks: seq<Token>, rank: nat)
    requires ChainTokens(toks) && Rank(toks[3].value.value).value >= rank
    ensures ExpressionAt(toks, 2, rank) ==
      Ok((Node(OPERATOR, Some(toks[3]), [Node(IDENT, Some(toks[2]), []), Node(IDENT, Some(toks[4]), [])]), 5))
  {
    var (b, c) := (Node(IDENT, Some(toks[2]), []), Node(IDENT, Some(toks[4]), []));
    var bc := Node(OPERATOR, Some(toks[3]), [b, c]);
    ChainNames(toks, rank);
    ChainNames(toks, RightRank(toks[3]));
    TailStopsExactly(toks, 5, bc, rank);
    TailTakes(toks, 3, b, rank, c, 5);
  }

  /** When the second operator ranks high enough, `x o1 y o2 z` is `x o1 (y o2 z)`. */
  lemma ChainRight(toks: seq<Token>)
    requires ChainTokens(toks) && Rank(toks[3].value.value).value >= RightRank(toks[1])
    ensures ExpressionAt(toks, 0, 0) == Ok((Node(OPERATOR, Some(toks[1]), [Node(IDENT, Some(toks[0]), []),
      Node(OPERATOR, Some(toks[3]), [Node(IDENT, Some(toks[2]), []), Node(IDENT, Some(toks[4]), [])])]), 5))
  {
    var a := Node(IDENT, Some(toks[0]), []);
    var bc := Node(OPERATOR, Some(toks[3]), [Node(IDENT, Some(toks[2]), []), Node(IDENT, Some(toks[4]), [])]);
    var abc := Node(OPERATOR, Some(toks[1]), [a, bc]);
    assert ExpressionAt(toks, 0, 0) == ExpressionTail(toks, 1, a, 0) by { ChainNames(toks, 0); }
    assert ExpressionTail(toks, 1, a, 0) == ExpressionTail(toks, 5, abc, 0) by {
      ChainInner(toks, RightRank(toks[1]));
      TailTakes(toks, 1, a, 0, bc, 5);
    }
    assert ExpressionTail(toks, 5, abc, 0) == Ok((abc, 5)) by { TailStopsExactly(toks, 5, abc, 0); }
  }

  /** `(x o1 y) o2 z` from the position of `o2` on. */
  lemma ChainLeftTail(toks: seq<Token>)
    requires ChainTokens(toks)
    ensures var ab := Node(OPERATOR, Some(toks[1]), [Node(IDENT, Some(toks[0]), []), Node(IDENT, Some(toks[2]), [])]);
      ExpressionTail(toks, 3, ab, 0) == Ok((Node(OPERATOR, Some(toks[3]), [ab, Node(IDENT, Some(toks[4]), [])]), 5))
  {
    var ab := Node(OPERATOR, Some(toks[1]), [Node(IDENT, Some(toks[0]), []), Node(IDENT, Some(toks[2]), [])]);
    var c := Node(IDENT, Some(toks[4]), []);
    ChainNames(toks, RightRank(toks[3]));
    TailTakes(toks, 3, ab, 0, c, 5);
    TailStopsExactly(toks, 5, Node(OPERATOR, Some(toks[3]), [ab, c]), 0);
  }

  /** `x o1 y`, when `o2` does not rank high enough to take `y`. */
  lemma ChainLeftHead(toks: seq<Token>)
    requires ChainTokens(toks) && Rank(toks[3].value.value).value < RightRank(toks[1])
    ensures var (a, b) := (Node(IDENT, Some(toks[0]), []), Node(IDENT, Some(toks[2]), []));
      ExpressionAt(toks, 0, 0) == ExpressionTail(toks, 3, Node(OPERATOR, Some(toks[1]), [a, b]), 0)
  {
    var (a, b) := (Node(IDENT, Some(toks[0]), []), Node(IDENT, Some(toks[2]), []));
    assert ExpressionAt(toks, 0, 0) == ExpressionTail(toks, 1, a, 0) by { ChainNames(toks, 0); }
    assert ExpressionAt(toks, 2, RightRank(toks[1])) == Ok((b, 3)) by {
      ChainNames(toks, RightRank(toks[1]));
      TailStopsExactly(toks, 3, b, RightRank(toks[1]));
    }
    TailTakes(toks, 1, a, 0, b, 3);
  }

  /** Otherwise `x o1 y o2 z` is `(x o1 y) o2 z`. */
  lemma ChainLeft(toks: seq<Token>)
    requires ChainTokens(toks) && Rank(toks[3].value.value).value < RightRank(toks[1])
    ensures ExpressionAt(toks, 0, 0) == Ok((Node(OPERATOR, Some(toks[3]), [Node(OPERATOR, Some(toks[1]),
      [Node(IDENT, Some(toks[0]), []), Node(IDENT, Some(toks[2]), [])]), Node(IDENT, Some(toks[4]), [])]), 5))
  {
    ChainLeftHead(toks);
    ChainLeftTail(toks);
  }

  function Name(s: string): Token { Token(Some(s), IDN, 1, 1) }
  function Sym(s: string): Token { Token(Some(s), SYM, 1, 1) }
  const EndToken := Token(None, EOF, 1, 1)

  /** `a - b - c` is `(a - b) - c`. */
  lemma SubtractionGroupsLeft()
    ensures ExpressionAt([Name("a"), Sym("-"), Name("b"), Sym("-"), Name("c"), EndToken], 0, 0) ==
      Ok((Node(OPERATOR, Some(Sym("-")), [Node(OPERATOR, Some(Sym("-")), [Node(IDENT, Some(Name("a")), []), Node(IDENT, Some(Name("b")), [])]),
          Node(IDENT, Some(Name("c")), [])]), 5))
  {
    ChainLeft([Name("a"), Sym("-"), Name("b"), Sym("-"), Name("c"), EndToken]);
  }

  /** `a = b = c` is `a = (b = c)`. */
  lemma AssignmentGroupsRight()
    ensures ExpressionAt([Name("a"), Sym("="), Name("b"), Sym("="), Name("c"), EndToken], 0, 0) ==
      Ok((Node(OPERATOR, Some(Sym("=")), [Node(IDENT, Some(Name("a")), []),
          Node(OPERATOR, Some(Sym("=")), [Node(IDENT, Some(Name("b")), []), Node(IDENT, Some(Name("c")), [])])]), 5))
  {
    ChainRight([Name("a"), Sym("="), Name("b"), Sym("="), Name("c"), EndToken]);
  }

  /** `a + b * c` is `a + (b * c)`. */
  lemma ProductBindsTighter()
    ensures ExpressionAt([Name("a"), Sym("+"), Name("b"), Sym("*"), Name("c"), EndToken], 0, 0) ==
      Ok((Node(OPERATOR, Some(Sym("+")), [Node(IDENT, Some(Name("a")), []),
          Node(OPERATOR, Some(Sym("*")), [Node(IDENT, Some(Name("b")), []), Node(IDENT, Some(Name("c")), [])])]), 5))
  {
    ChainRight([Name("a"), Sym("+"), Name("b"), Sym("*"), Name("c"), EndToken]);
  }

  /** `( e )` is `e` itself. */
  lemma ParenthesesAreTransparent(toks: seq<Token>, pos: nat)
    requires pos < |toks| && toks[pos].value == Some("(") && toks[pos].kind !in {IDN, STR, NUM}
    requires ExpressionAt(toks, pos + 1, 0).Ok?
    ensures var e := ExpressionAt(toks, pos + 1, 0).value;
      AtomAt(toks, pos) ==
        if e.1 == |toks| then Err(IndexError)
        else if toks[e.1].value == Some(")") then Ok((e.0, e.1 + 1))
        else Err(SyntaxError)
  {
  }

  /** A token that starts no atom is a SyntaxError. */
  lemma BadAtom(toks: seq<Token>, pos: nat)
    requires pos < |toks| && toks[pos].kind !in {IDN, STR, NUM}
    requires toks[pos].value !in {Some("("), Some("["), Some("{")}
    ensures AtomAt(toks, pos) == Err(SyntaxError)
  {
  }

  // ---------------------------------------------------------------------------------
  // One round of each parsing loop, as the parser object takes it

  lemma ExpressionStep(toks: seq<Token>, pos: nat, minPrec: nat)
    requires pos < |toks|
    ensures IsCloser(toks[pos]) ==> ExpressionAt(toks, pos, minPrec) == Ok((Absent, pos))
    ensures !IsCloser(toks[pos]) && toks[pos].kind == NEL ==> ExpressionAt(toks, pos, minPrec) == ExpressionAt(toks, pos + 1, 0)
    ensures !IsCloser(toks[pos]) && toks[pos].kind != NEL ==>
      var atom := AtomAt(toks, pos);
      ExpressionAt(toks, pos, minPrec) == if atom.Err? then Err(atom.error) else ExpressionTail(toks, atom.value.1, atom.value.0, minPrec)
  {
  }

  lemma TailStopsHere(toks: seq<Token>, pos: nat, node: Ast, minPrec: nat)
    requires pos < |toks| && Expression(node) && TailStops(toks[pos], minPrec)
    ensures ExpressionTail(toks, pos, node, minPrec) == Ok((node, pos))
  {
  }

  lemma TailStep(toks: seq<Token>, pos: nat, node: Ast, minPrec: nat)
    requires pos < |toks| && Expression(node) && !TailStops(toks[pos], minPrec)
    ensures var right := ExpressionAt(toks, pos + 1, RightRank(toks[pos]));
      ExpressionTail(toks, pos, node, minPrec) ==
        if right.Err? then Err(right.error)
        else ExpressionTail(toks, right.value.1, Node(OPERATOR, Some(toks[pos]), [node, right.value.0]), minPrec)
  {
  }

  lemma ListStep(toks: seq<Token>, pos: nat, node: Ast, closer: string)
    requires pos < |toks| && IsKind(node, EXPR_LIST) && WellShaped(node) && toks[pos].value != Some(closer)
    ensures ExpressionAt(toks, pos, 0).Err? ==> ListTail(toks, pos, node, closer) == Err(ExpressionAt(toks, pos, 0).error)
    ensures ExpressionAt(toks, pos, 0).Ok? ==>
      var (arg, p1) := ExpressionAt(toks, pos, 0).value;
      && (p1 == |toks| ==> ListTail(toks, pos, node, closer) == Err(SyntaxError))
      && (p1 < |toks| ==>
        var p := if toks[p1].value == Some(",") then p1 + 1 else p1;
        ListTail(toks, pos, node, closer) ==
          if p == pos then Err(Diverges) else ListTail(toks, p, node.(children := node.children + [arg]), closer))
  {
    var e := ExpressionAt(toks, pos, 0);
    if e.Ok? {
      var (arg, p1) := e.value;
      var grown := node.(children := node.children + [arg]);
      if p1 < |toks| {
        var p := if toks[p1].value == Some(",") then p1 + 1 else p1;
        assert PeekAt(toks, p1) == Ok(toks[p1]);
        if p != pos {
          assert ListTail(toks, pos, node, closer) == ListTail(toks, p, grown, closer);
        }
      }
    }
  }

  lemma IndexStep(toks: seq<Token>, pos: nat, node: Ast)
    requires pos <= |toks| && Expression(node) && PeekCheckAt(toks, pos, "[", None)
    ensures var open := ConsumeAt(toks, pos, Some(SYM), Some("["));
      IndexTail(toks, pos, node) ==
        if open.Err? then Err(open.error)
        else
          var index := ExpressionAt(toks, pos + 1, 0);
          if index.Err? then Err(index.error)
          else
            var close := ConsumeAt(toks, index.value.1, Some(SYM), Some("]"));
            if close.Err? then Err(close.error)
            else IndexTail(toks, index.value.1 + 1, Node(OPERATOR, Some(toks[pos]), [node, index.value.0]))
  {
  }

  /** A parser method's result and final cursor are the tree and the position the specification gives. */
  predicate Agrees<T(==)>(r: Result<T, Exc>, e: Result<(T, nat), Exc>, pos: nat) {
    (e.Ok? ==> r == Ok(e.value.0) && pos == e.value.1) && (e.Err? ==> r == Err(e.error))
  }

  // ---------------------------------------------------------------------------------
  // The parser object

  /** A cursor over a fixed token list; each method reads from the cursor and moves it. */
  class Parser {
    const tokens: seq<Token>
    var pos: nat

    constructor(tokens: seq<Token>)
      ensures this.tokens == tokens && pos == 0
    {
      this.tokens := tokens;
      pos := 0;
    }

    predicate Valid()
      reads this
    {
      pos <= |tokens|
    }

    /** `consume`: on a mismatch the cursor does not move. */
    method Consume(kind: Option<TokenType>, value: Option<string>) returns (r: Result<Token, Exc>)
      requires Valid()
      modifies this
      ensures Valid() && Agrees(r, ConsumeAt(tokens, old(pos), kind, value), pos)
      ensures r.Err? ==> pos == old(pos)
    {
      if pos >= |tokens| {
        return Err(IndexError);
      }
      var token := tokens[pos];
      if kind.Some? && token.kind != kind.value {
        return Err(SyntaxError);
      }
      if value.Some? && token.value != value {
        return Err(SyntaxError);
      }
      pos := pos + 1;
      return Ok(token);
    }

    method Peek() returns (r: Result<Token, Exc>)
      ensures r == PeekAt(tokens, pos)
    {
      if pos < |tokens| {
        return Ok(tokens[pos]);
      }
      return Err(SyntaxError);
    }

    method PeekCheck(value: string, kind: Option<TokenType>) returns (b: bool)
      ensures b == PeekCheckAt(tokens, pos, value, kind)
    {
      if pos >= |tokens| {
        return false;
      }
      var token := tokens[pos];
      if kind.Some? && token.kind != kind.value {
        return false;
      }
      return token.value == Some(value);
    }

    method ParseExpression(minPrec: nat) returns (r: Result<Ast, Exc>)
      requires Valid()
      modifies this
      decreases |tokens| - pos, 3
      ensures Valid() && Agrees(r, ExpressionAt(tokens, old(pos), minPrec), pos)
    {
      var gotToken := Peek();
      if gotToken.Err? {
        return Err(gotToken.error);
      }
      var token := gotToken.value;
      ExpressionStep(tokens, pos, minPrec);
      if IsCloser(token) {
        return Ok(Absent);
      }
      if token.kind == NEL {
        var newline := Consume(None, None);
        r := ParseExpression(0);
        return;
      }
      var gotNode := ParseAtom();
      if gotNode.Err? {
        return Err(gotNode.error);
      }
      var node := gotNode.value;
      r := ParseOperators(node, minPrec);
    }

    /** The precedence-climbing loop of parse_expression, from the atom onwards. */
    method ParseOperators(first: Ast, minPrec: nat) returns (r: Result<Ast, Exc>)
      requires Valid() && Expression(first)
      modifies this
      decreases |tokens| - pos, 0
      ensures Valid() && Agrees(r, ExpressionTail(tokens, old(pos), first, minPrec), pos)
    {
      var node := first;
      ghost var goal := ExpressionTail(tokens, pos, node, minPrec);
      while true
        invariant Valid() && old(pos) <= pos && Expression(node)
        invariant ExpressionTail(tokens, pos, node, minPrec) == goal
        decreases |tokens| - pos
      {
        var next := Peek();
        if next.Err? {
          return Err(next.error);
        }
        var token := next.value;
        if EndsExpression(token) || !IsOperator(token) {
          TailStopsHere(tokens, pos, node, minPrec);
          break;
        }
        var op := token.value.value;
        var precedence := Rank(op).value;
        if precedence < minPrec {
          TailStopsHere(tokens, pos, node, minPrec);
          break;
        }
        TailStep(tokens, pos, node, minPrec);
        var operator := Consume(None, None);
        var left := node;
        var nextMin := if op in LeftAssociative then precedence + 1 else precedence;
        assert nextMin == RightRank(token);
        var parsed := ParseExpression(nextMin);
        if parsed.Err? {
          return Err(parsed.error);
        }
        var right := parsed.value;
        OperatorNode(token, left, right);
        node := Node(OPERATOR, Some(token), [left, right]);
      }
      return Ok(node);
    }

    method ParseExpressionList(opener: string) returns (r: Result<Ast, Exc>)
      requires Valid() && opener in ListPair
      modifies this
      decreases |tokens| - pos, 1
      ensures Valid() && Agrees(r, ExpressionListAt(tokens, old(pos), opener), pos)
    {
      var gotToken := Consume(Some(SYM), Some(opener));
      if gotToken.Err? {
        return Err(gotToken.error);
      }
      var token := gotToken.value;
      r := ParseListItems(Node(EXPR_LIST, Some(token), []), ListPair[opener]);
    }

    /** The item loop of parse_expression_list, up to and including the closer. */
    method ParseListItems(first: Ast, closer: string) returns (r: Result<Ast, Exc>)
      requires Valid() && IsKind(first, EXPR_LIST) && WellShaped(first)
      modifies this
      decreases |tokens| - pos, 4
      ensures Valid() && Agrees(r, ListTail(tokens, old(pos), first, closer), pos)
    {
      var node := first;
      ghost var goal := ListTail(tokens, pos, node, closer);
      var gotNext := Peek();
      if gotNext.Err? {
        return Err(gotNext.error);
      }
      var next := gotNext.value;
      while next.value != Some(closer)
        invariant Valid() && old(pos) <= pos && IsKind(node, EXPR_LIST) && WellShaped(node)
        invariant PeekAt(tokens, pos) == Ok(next)
        invariant ListTail(tokens, pos, node, closer) == goal
        decreases |tokens| - pos
      {
        var start := pos;
        ListStep(tokens, pos, node, closer);
        var gotArg := ParseExpression(0);
        if gotArg.Err? {
          return Err(gotArg.error);
        }
        var arg := gotArg.value;
        node := node.(children := node.children + [arg]);
        var gotAfter := Peek();
        if gotAfter.Err? {
          return Err(gotAfter.error);
        }
        var after := gotAfter.value;
        if after.value == Some(",") {
          var comma := Consume(None, None);
        }
        if pos == start {
          return Err(Diverges);
        }
        var gotNext := Peek();
        if gotNext.Err? {
          return Err(gotNext.error);
        }
        next := gotNext.value;
      }
      var gotClose := Consume(Some(SYM), Some(closer));
      if gotClose.Err? {
        return Err(gotClose.error);
      }
      var close := gotClose.value;
      return Ok(node);
    }

    method ParseAtom() returns (r: Result<Ast, Exc>)
      requires Valid()
      modifies this
      decreases |tokens| - pos, 2
      ensures Valid() && Agrees(r, AtomAt(tokens, old(pos)), pos)
    {
      ghost var start := pos;
      var gotToken := Peek();
      if gotToken.Err? {
        return Err(gotToken.error);
      }
      var token := gotToken.value;
      if token.value.Some? && token.value.value in ListPair && token.value.value != "(" {
        r := ParseExpressionList(token.value.value);
        return;
      }
      var consumed := Consume(None, None);
      token := consumed.value;
      assert token == tokens[start] && pos == start + 1;
      if token.kind == IDN {
        IdentAtom(tokens, start);
        var node := Node(IDENT, Some(token), []);
        var call := PeekCheck("(", None);
        if call {
          var gotArgs := ParseExpressionList("(");
          if gotArgs.Err? {
            return Err(gotArgs.error);
          }
          var args := gotArgs.value;
          return Ok(Node(FUNC_CALL, Some(token), [args]));
        }
        r := ParseIndexes(node);
        return;
      } else if token.kind == STR || token.kind == NUM {
        return Ok(Node(VALUE, Some(token), []));
      } else if token.value == Some("(") {
        ParenAtom(tokens, start);
        var gotNode := ParseExpression(0);
        if gotNode.Err? {
          return Err(gotNode.error);
        }
        var node := gotNode.value;
        var gotClose := Consume(None, Some(")"));
        if gotClose.Err? {
          return Err(gotClose.error);
        }
        var close := gotClose.value;
        return Ok(node);
      }
      return Err(SyntaxError);
    }

    /** The subscript loop of parse_atom: each `[index]` after a name wraps the node so far. */
    method ParseIndexes(first: Ast) returns (r: Result<Ast, Exc>)
      requires Valid() && Expression(first)
      modifies this
      decreases |tokens| - pos, 0
      ensures Valid() && Agrees(r, IndexTail(tokens, old(pos), first), pos)
    {
      var node := first;
      ghost var goal := IndexTail(tokens, pos, node);
      var more := PeekCheck("[", None);
      while more
        invariant Valid() && old(pos) <= pos && Expression(node)
        invariant more == PeekCheckAt(tokens, pos, "[", None)
        invariant IndexTail(tokens, pos, node) == goal
        decreases |tokens| - pos
      {
        IndexStep(tokens, pos, node);
        var gotLeft := Consume(Some(SYM), Some("["));
        if gotLeft.Err? {
          return Err(gotLeft.error);
        }
        var left := gotLeft.value;
        var gotIndex := ParseExpression(0);
        if gotIndex.Err? {
          return Err(gotIndex.error);
        }
        var index := gotIndex.value;
        var gotClose := Consume(Some(SYM), Some("]"));
        if gotClose.Err? {
          return Err(gotClose.error);
        }
        var close := gotClose.value;
        OperatorNode(left, node, index);
        node := Node(OPERATOR, Some(left), [node, index]);
        more := PeekCheck("[", None);
      }
      return Ok(node);
    }

    method ParseBlock() returns (r: Result<Ast, Exc>)
      requires Valid()
      modifies this
      decreases |tokens| - pos, 0
      ensures Valid() && Agrees(r, BlockAt(tokens, old(pos)), pos)
    {
      var gotOpen := Consume(None, Some("{"));
      if gotOpen.Err? {
        return Err(gotOpen.error);
      }
      var open := gotOpen.value;
      var gotBlock := ParseStmtList();
      if gotBlock.Err? {
        return Err(gotBlock.error);
      }
      var block := gotBlock.value;
      var gotClose := Consume(None, Some("}"));
      if gotClose.Err? {
        return Err(gotClose.error);
      }
      var close := gotClose.value;
      return Ok(block);
    }

    method ParseArgs() returns (r: Result<Ast, Exc>)
      requires Valid()
      modifies this
      ensures Valid() && Agrees(r, ArgsAt(tokens, old(pos)), pos)
    {
      var gotToken := Consume(Some(SYM), Some("("));
      if gotToken.Err? {
        return Err(gotToken.error);
      }
      var token := gotToken.value;
      var node := Node(ARG_LIST, Some(token), []);
      var empty := PeekCheck(")", None);
      if !empty {
        var gotArg := Consume(Some(IDN), None);
        if gotArg.Err? {
          return Err(gotArg.error);
        }
        var arg := gotArg.value;
        node := node.(children := [Node(IDENT, Some(arg), [])]);
        ghost var goal := ArgsTail(tokens, pos, node);
        var more := PeekCheck(",", None);
        while more
          invariant Valid() && Params(node) && node.token == Some(token)
          invariant more == PeekCheckAt(tokens, pos, ",", None)
          invariant ArgsTail(tokens, pos, node) == goal
          decreases |tokens| - pos
        {
          var gotComma := Consume(Some(SYM), Some(","));
          if gotComma.Err? {
            return Err(gotComma.error);
          }
          var comma := gotComma.value;
          var gotArg := Consume(Some(IDN), None);
          if gotArg.Err? {
            return Err(gotArg.error);
          }
          arg := gotArg.value;
          node := node.(children := node.children + [Node(IDENT, Some(arg), [])]);
          more := PeekCheck(",", None);
        }
      }
      var gotClose := Consume(Some(SYM), Some(")"));
      if gotClose.Err? {
        return Err(gotClose.error);
      }
      var close := gotClose.value;
      return Ok(node);
    }

    method ParseStmt() returns (r: Result<Ast, Exc>)
      requires Valid()
      modifies this
      decreases |tokens| - pos, 2
      ensures Valid() && Agrees(r, StmtAt(tokens, old(pos)), pos)
    {
      var gotToken := Peek();
      if gotToken.Err? {
        return Err(gotToken.error);
      }
      var token := gotToken.value;
      if token.value == Some("if") {
        r := ParseIf();
      } else if token.value == Some("func") {
        r := ParseFunc();
      } else if token.value == Some("for") {
        r := ParseFor();
      } else if token.value == Some("return") {
        r := ParseReturn();
      } else if token.value == Some("class") {
        r := ParseClass();
      } else {
        r := Err(SyntaxError);
      }
    }

    /** The `if` branch of parse_stmt. */
    method ParseIf() returns (r: Result<Ast, Exc>)
      requires Valid() && pos < |tokens| && tokens[pos].value == Some("if")
      modifies this
      decreases |tokens| - pos, 1
      ensures Valid() && Agrees(r, IfAt(tokens, old(pos)), pos)
    {
      ghost var start := pos;
      var key := Consume(None, Some("if"));
      assert key.value == tokens[start] && pos == start + 1;
      var gotCond := ParseExpression(0);
      if gotCond.Err? {
        assert IfAt(tokens, start) == Err(gotCond.error);
        return Err(gotCond.error);
      }
      var cond := gotCond.value;
      var gotBody := ParseBlock();
      if gotBody.Err? {
        assert IfAt(tokens, start) == Err(gotBody.error);
        return Err(gotBody.error);
      }
      var body := gotBody.value;
      ghost var afterBody := pos;
      var hasElse := PeekCheck("else", None);
      if hasElse {
        var word := Consume(None, Some("else"));
        assert pos == afterBody + 1;
        var gotOther := ParseBlock();
        assert IfAt(tokens, start) == ElseAt(tokens, start, cond, (body, afterBody));
        if gotOther.Err? {
          return Err(gotOther.error);
        }
        var other := gotOther.value;
        return Ok(Node(IF, Some(key.value), [cond, body, other]));
      }
      assert IfAt(tokens, start) == Ok((Node(IF, Some(key.value), [cond, body]), pos));
      return Ok(Node(IF, Some(key.value), [cond, body]));
    }

    /** The `func` branch of parse_stmt. */
    method ParseFunc() returns (r: Result<Ast, Exc>)
      requires Valid() && pos < |tokens| && tokens[pos].value == Some("func")
      modifies this
      decreases |tokens| - pos, 1
      ensures Valid() && Agrees(r, FuncAt(tokens, old(pos)), pos)
    {
      ghost var start := pos;
      var key := Consume(None, Some("func"));
      var gotName := Consume(None, None);
      if gotName.Err? {
        assert start + 1 == |tokens|;
        return Err(gotName.error);
      }
      var name := gotName.value;
      assert key.value == tokens[start] && name == tokens[start + 1] && pos == start + 2;
      var gotArgs := ParseArgs();
      if gotArgs.Err? {
        assert FuncAt(tokens, start) == Err(gotArgs.error);
        return Err(gotArgs.error);
      }
      var args := gotArgs.value;
      var gotBody := ParseBlock();
      if gotBody.Err? {
        assert FuncAt(tokens, start) == Err(gotBody.error);
        return Err(gotBody.error);
      }
      var body := gotBody.value;
      assert FuncAt(tokens, start) == Ok((Node(FUNC_DEF, Some(key.value), [Node(VALUE, Some(name), []), args, body]), pos));
      return Ok(Node(FUNC_DEF, Some(key.value), [Node(VALUE, Some(name), []), args, body]));
    }

    /** The `for` branch of parse_stmt. */
    method ParseFor() returns (r: Result<Ast, Exc>)
      requires Valid() && pos < |tokens| && tokens[pos].value == Some("for")
      modifies this
      decreases |tokens| - pos, 1
      ensures Valid() && Agrees(r, ForAt(tokens, old(pos)), pos)
    {
      var key := Consume(None, Some("for"));
      var gotRange := ParseExpression(0);
      if gotRange.Err? {
        return Err(gotRange.error);
      }
      var range := gotRange.value;
      var gotBody := ParseBlock();
      if gotBody.Err? {
        return Err(gotBody.error);
      }
      var body := gotBody.value;
      return Ok(Node(FOR, Some(key.value), [range, body]));
    }

    /** The `return` branch of parse_stmt. */
    method ParseReturn() returns (r: Result<Ast, Exc>)
      requires Valid() && pos < |tokens| && tokens[pos].value == Some("return")
      modifies this
      decreases |tokens| - pos, 1
      ensures Valid() && Agrees(r, ReturnAt(tokens, old(pos)), pos)
    {
      var key := Consume(None, Some("return"));
      var gotE := ParseExpression(0);
      if gotE.Err? {
        return Err(gotE.error);
      }
      var e := gotE.value;
      return Ok(Node(RETURN, Some(key.value), [e]));
    }

    /** The `class` branch of parse_stmt. */
    method ParseClass() returns (r: Result<Ast, Exc>)
      requires Valid() && pos < |tokens| && tokens[pos].value == Some("class")
      modifies this
      decreases |tokens| - pos, 1
      ensures Valid() && Agrees(r, ClassAt(tokens, old(pos)), pos)
    {
      var key := Consume(None, Some("class"));
      var gotName := Consume(None, None);
      if gotName.Err? {
        return Err(gotName.error);
      }
      var name := gotName.value;
      var gotBody := ParseBlock();
      if gotBody.Err? {
        return Err(gotBody.error);
      }
      var body := gotBody.value;
      return Ok(Node(CLASS, Some(key.value), [Node(VALUE, Some(name), []), body]));
    }

    method ParseStmtList() returns (r: Result<Ast, Exc>)
      requires Valid()
      modifies this
      decreases |tokens| - pos, 4
      ensures Valid() && Agrees(r, StmtListAt(tokens, old(pos)), pos)
    {
      var root := Node(STMT_LIST, None, []);
      ghost var goal := StmtTail(tokens, pos, root);
      while pos < |tokens|
        invariant Valid() && old(pos) <= pos && StmtBlock(root)
        invariant forall i :: 0 <= i < |root.children| ==> ListItem(root.children[i])
        invariant StmtTail(tokens, pos, root) == goal
        decreases |tokens| - pos
      {
        var gotToken := Peek();
        if gotToken.Err? {
          return Err(gotToken.error);
        }
        var token := gotToken.value;
        StmtListStep(tokens, pos, root);
        if token.kind == KEY {
          var gotStmt := ParseStmt();
          if gotStmt.Err? {
            return Err(gotStmt.error);
          }
          var stmt := gotStmt.value;
          root := root.(children := root.children + [stmt]);
        } else if token.kind == NEL {
          var newline := Consume(None, None);
        } else if token.kind == EOF {
          break;
        } else {
          var gotNode := ParseExpression(0);
          if gotNode.Err? {
            return Err(gotNode.error);
          }
          var node := gotNode.value;
          if node.Absent? {
            break;
          }
          root := root.(children := root.children + [node]);
        }
      }
      return Ok(root);
    }

    /** `parse`: the whole token list as one statement list. */
    method Parse() returns (r: Result<Ast, Exc>)
      requires Valid() && pos == 0
      modifies this
      ensures r == ParseAll(tokens)
    {
      r := ParseStmtList();
    }
  }
}
