/**
 * The `Compiler` object of the Vee code generator. Its fields are those of `CState`; the
 * methods update them in place, in the order the generator does, and each is proved to
 * leave the object in the state (and to return the value) that the matching function of
 * `VeeCompiler` computes. After an exception only the exception is specified: the
 * generator does not roll back what it emitted before raising.
 */
module CompilerClass {
  import opened Wrappers
  import opened Exceptions
  import opened Text
  import opened VeeParser
  import opened VeeCompiler

  /** A method's result and the object's state afterwards, against what the specification computes. */
  predicate Outcome<T(==)>(r: Result<T, Exc>, spec: Result<(T, CState), Exc>, now: CState) {
    match spec
    case Ok(res) => r == Ok(res.0) && now == res.1
    case Err(e) => r == Err(e)
  }

  /** The same for a statement, whose specification computes only the state. */
  predicate Reached(r: Result<CVal, Exc>, spec: Result<CState, Exc>, now: CState) {
    match spec
    case Ok(s) => r == Ok(CNone) && now == s
    case Err(e) => r == Err(e)
  }

  /** The results a loop has collected, ahead of what the rest of the run collects. */
  function Prepended<T>(done: seq<T>, rest: Result<(seq<T>, CState), Exc>): Result<(seq<T>, CState), Exc> {
    match rest
    case Err(e) => Err(e)
    case Ok(res) => Ok((done + res.0, res.1))
  }

  /** The argument names read so far, ahead of the names still to be read. */
  function NamesPrepended(done: seq<Option<string>>, rest: Result<seq<Option<string>>, Exc>): Result<seq<Option<string>>, Exc> {
    match rest
    case Err(e) => Err(e)
    case Ok(names) => Ok(done + names)
  }

  /** Nothing collected yet. */
  lemma PrependedNothing<T>(rest: Result<(seq<T>, CState), Exc>)
    ensures Prepended([], rest) == rest
  {
    if rest.Ok? {
      assert [] + rest.value.0 == rest.value.0;
    }
  }

  /** Nothing left to compile. */
  lemma PrependedDone<T>(done: seq<T>, st: CState)
    ensures Prepended(done, Ok(([], st))) == Ok((done, st))
  {
    assert done + [] == done;
  }

  /** One more item of `CompileAll` compiled to `v`. */
  lemma CompileAllStep(st: CState, items: seq<Ast>, i: nat, done: seq<CVal>, v: CVal, st1: CState)
    requires i < |items| && Compile(st, items[i]) == Ok((v, st1))
    ensures Prepended(done, CompileAll(st, items[i..])) == Prepended(done + [v], CompileAll(st1, items[i + 1..]))
  {
    assert items[i..][0] == items[i] && items[i..][1..] == items[i + 1..];
    match CompileAll(st1, items[i + 1..])
    case Err(_) =>
    case Ok(rest) => assert done + ([v] + rest.0) == done + [v] + rest.0;
  }

  /** One more item of `CompileTexts` compiled to `v`, whose text is `text`. */
  lemma CompileTextsStep(st: CState, items: seq<Ast>, i: nat, done: seq<string>, v: CVal, st1: CState, text: string)
    requires i < |items| && Compile(st, items[i]) == Ok((v, st1)) && Str(v) == Ok(text)
    ensures Prepended(done, CompileTexts(st, items[i..])) == Prepended(done + [text], CompileTexts(st1, items[i + 1..]))
  {
    assert items[i..][0] == items[i] && items[i..][1..] == items[i + 1..];
    match CompileTexts(st1, items[i + 1..])
    case Err(_) =>
    case Ok(rest) => assert done + ([text] + rest.0) == done + [text] + rest.0;
  }

  /** Every argument name read. */
  lemma NamesDone(done: seq<Option<string>>)
    ensures NamesPrepended(done, ParamNames([])) == Ok(done)
  {
    assert done + [] == done;
  }

  /** One more name in the argument set. */
  lemma NameSetSnoc(names: seq<Option<string>>, name: Option<string>)
    ensures (set n | n in names + [name]) == (set n | n in names) + {name}
  {
  }

  /** One more line written under the same indent. */
  lemma UnderSnoc(indent: string, lines: seq<string>, j: nat)
    requires j < |lines|
    ensures Under(indent, lines[..j + 1]) == Under(indent, lines[..j]) + [indent + lines[j]]
  {
  }

  /** One more argument name read. */
  lemma ParamNamesStep(args: seq<Ast>, i: nat, done: seq<Option<string>>, name: Option<string>)
    requires i < |args| && TokenValue(args[i]) == Ok(name)
    ensures NamesPrepended(done, ParamNames(args[i..])) == NamesPrepended(done + [name], ParamNames(args[i + 1..]))
  {
    assert args[i..][0] == args[i] && args[i..][1..] == args[i + 1..];
    match ParamNames(args[i + 1..])
    case Err(_) =>
    case Ok(rest) => assert done + ([name] + rest) == done + [name] + rest;
  }

  class Compiler {
    var funcs: map<Option<string>, Ast>
    var output: seq<string>
    var varCount: nat
    var labelCount: nat
    var funcVar: set<Option<string>>
    var indent: string

    /** The fields as one value. */
    function State(): CState
      reads this
    {
      CState(funcs, output, varCount, labelCount, funcVar, indent)
    }

    constructor()
      ensures State() == Fresh
    {
      funcs := map[];
      output := [];
      varCount := 0;
      labelCount := 0;
      funcVar := {};
      indent := "";
    }

    // -------------------------------------------------------------------------------
    // Utilities

    method IncreaseIndent()
      modifies this
      ensures State() == Indented(old(State()))
    {
      indent := indent + " ";
    }

    method DecreaseIndent()
      modifies this
      ensures State() == Dedented(old(State()))
    {
      indent := if |indent| == 0 then "" else indent[..|indent| - 1];
    }

    method Add(line: string)
      modifies this
      ensures State() == Emit(old(State()), line)
    {
      output := output + [indent + line];
    }

    method GetNewVar() returns (name: string)
      modifies this
      ensures (name, State()) == NewVar(old(State()))
    {
      varCount := varCount + 1;
      name := VarName(varCount);
    }

    method GetNewLabel() returns (name: string)
      modifies this
      ensures (name, State()) == NewLabel(old(State()))
    {
      labelCount := labelCount + 1;
      name := LabelName(labelCount);
    }

    /** `create_identity_node(name)`, compiled: how the name reads in the function being compiled. */
    function Ident(name: string): string
      reads this
    {
      IdentText(State(), Some(name))
    }

    // -------------------------------------------------------------------------------
    // The gen_* helpers

    method GenComment(msg: string)
      modifies this
      ensures State() == Emit(old(State()), "/ " + msg)
    {
      Add("/ " + msg);
    }

    method GenLabel(name: string)
      modifies this
      ensures State() == Emit(old(State()), "#" + name)
    {
      Add("#" + name);
    }

    method GenLet(name: string, value: string)
      modifies this
      ensures State() == Emit(old(State()), "let " + name + " " + value)
    {
      Add("let " + name + " " + value);
    }

    method GenJump(target: string)
      modifies this
      ensures State() == Emit(old(State()), "jmp " + target)
    {
      Add("jmp " + target);
    }

    method GenCompareJump(op: string, l: string, r: string, target: string)
      modifies this
      ensures State() == Emit(old(State()), op + " " + l + " " + r + " " + target)
    {
      Add(op + " " + l + " " + r + " " + target);
    }

    method GenOp(op: string, l: string, r: string, res: Option<string>) returns (name: string)
      modifies this
      ensures (name, State()) == VeeCompiler.GenOp(old(State()), op, l, r, res)
    {
      if res.Some? {
        name := res.value;
      } else {
        name := GetNewVar();
      }
      Add(op + " " + name + " " + l + " " + r);
    }

    method GenCompare(op: string, l: string, r: string) returns (res: string)
      modifies this
      ensures (res, State()) == VeeCompiler.GenCompare(old(State()), op, l, r)
    {
      res := GetNewVar();
      var t := GetNewLabel();
      var e := GetNewLabel();
      ghost var st3 := State();
      GenCompareJump(op, l, r, t);
      GenLet(res, "0");
      GenJump(e);
      GenLabel(t);
      GenLet(res, "1");
      GenLabel(e);
      assert "let " + res + " " + "0" == "let " + res + " 0";
      assert "let " + res + " " + "1" == "let " + res + " 1";
      assert State().output == st3.output + Under(st3.indent, CompareLines(op, l, r, res, t, e));
    }

    method GenPushRange(list: string, start: string, end: string)
      modifies this
      ensures State() == VeeCompiler.GenPushRange(old(State()), list, start, end)
    {
      var idx := GetNewVar();
      GenLet(idx, start);
      var s := GetNewLabel();
      var e := GetNewLabel();
      ghost var st3 := State();
      GenLabel(s);
      var ident := Ident(idx);
      GenCompareJump("jeq", ident, end, e);
      Add("psh $" + list + " " + ident);
      var same := GenOp("add", ident, "1", Some(idx));
      GenJump(s);
      GenLabel(e);
      assert "jeq " + ident + " " + end + " " + e == "jeq" + " " + ident + " " + end + " " + e;
      assert "add " + idx + " " + ident + " 1" == "add" + " " + idx + " " + ident + " " + "1";
      assert State().output == old(output) + Under(indent, RangeLines(list, start, end, idx, ident, s, e));
    }

    method GenFuncCall(name: string, args: seq<string>, builtin: bool)
      modifies this
      ensures State() == Emit(old(State()), CallLine(name, args, builtin))
    {
      Add((if builtin then "" else "cal ") + name + " " + Join(args, ' '));
    }

    // -------------------------------------------------------------------------------
    // compile and the gen_* helpers that call it

    /** `compile(ast)`: the node's value, with its lines emitted. */
    method Compile(a: Ast) returns (r: Result<CVal, Exc>)
      modifies this
      decreases a, 2
      ensures Outcome(r, VeeCompiler.Compile(old(State()), a), State())
    {
      if a.Absent? {
        return Err(AttributeError);
      }
      match a.kind
      case VALUE =>
        if a.token.None? {
          r := Err(AttributeError);
        } else {
          var v := LiteralValue(a.token.value);
          r := if v.Err? then Err(v.error) else Ok(v.value);
        }
      case IDENT =>
        if a.token.None? {
          r := Err(AttributeError);
        } else {
          r := Ok(CText(IdentText(State(), a.token.value.value)));
        }
      case FUNC_DEF => r := CompileFuncDef(a);
      case RETURN => r := CompileReturn(a);
      case OPERATOR => r := CompileOperator(a);
      case EXPR_LIST => r := CompileList(a);
      case STMT_LIST => r := GenStmtList(a);
      case FUNC_CALL => r := CompileCall(a);
      case IF => r := CompileIf(a);
      case FOR => r := CompileFor(a);
      case _ => r := Ok(CNone);
    }

    /** The children compiled in turn, left to right, their values collected. */
    method CompileChildren(a: Ast) returns (r: Result<seq<CVal>, Exc>)
      requires a.Node?
      modifies this
      decreases a, 0
      ensures Outcome(r, CompileAll(old(State()), a.children), State())
    {
      ghost var st0 := State();
      var values: seq<CVal> := [];
      var i := 0;
      assert a.children[0..] == a.children;
      PrependedNothing(CompileAll(st0, a.children));
      while i < |a.children|
        invariant 0 <= i <= |a.children|
        invariant CompileAll(st0, a.children) == Prepended(values, CompileAll(State(), a.children[i..]))
      {
        ghost var st := State();
        var v := Compile(a.children[i]);
        if v.Err? {
          assert a.children[i..][0] == a.children[i];
          return Err(v.error);
        }
        CompileAllStep(st, a.children, i, values, v.value, State());
        values := values + [v.value];
        i := i + 1;
      }
      assert a.children[i..] == [];
      PrependedDone(values, State());
      r := Ok(values);
    }

    /** `gen_stmt_list`. */
    method GenStmtList(a: Ast) returns (r: Result<CVal, Exc>)
      requires a.Node?
      modifies this
      decreases a, 1
      ensures Outcome(r, VeeCompiler.GenStmtList(old(State()), a), State())
    {
      var done := CompileChildren(a);
      r := if done.Err? then Err(done.error) else Ok(CNone);
    }

    /** The RETURN case. */
    method CompileReturn(a: Ast) returns (r: Result<CVal, Exc>)
      requires a.Node? && a.kind == RETURN
      modifies this
      decreases a, 1
      ensures Outcome(r, VeeCompiler.CompileReturn(old(State()), a), State())
    {
      if |a.children| == 0 {
        return Err(IndexError);
      }
      r := GenReturn(a.children[0]);
    }

    /** `gen_return`. */
    method GenReturn(e: Ast) returns (r: Result<CVal, Exc>)
      modifies this
      decreases e, 3
      ensures Outcome(r, VeeCompiler.GenReturn(old(State()), e), State())
    {
      var v := Compile(e);
      if v.Err? {
        return Err(v.error);
      }
      var s := Str(v.value);
      if s.Err? {
        return Err(s.error);
      }
      Add("ret " + s.value);
      r := Ok(CNone);
    }

    /** The EXPR_LIST case. */
    method CompileList(a: Ast) returns (r: Result<CVal, Exc>)
      requires a.Node? && a.kind == EXPR_LIST
      modifies this
      decreases a, 1
      ensures Outcome(r, VeeCompiler.CompileList(old(State()), a), State())
    {
      if a.token.None? {
        return Err(AttributeError);
      }
      if a.token.value.value == Some("[") {
        r := GenValueList(a);
      } else {
        var values := CompileChildren(a);
        r := if values.Err? then Err(values.error) else Ok(CList(values.value));
      }
    }

    /** `gen_value_list`. */
    method GenValueList(a: Ast) returns (r: Result<CVal, Exc>)
      requires a.Node?
      modifies this
      decreases a, 0
      ensures Outcome(r, VeeCompiler.GenValueList(old(State()), a), State())
    {
      var list := GetNewVar();
      GenLet(list, "[]");
      assert "let " + list + " " + "[]" == "let " + list + " []";
      ghost var st1 := State();
      var texts: seq<string> := [];
      var i := 0;
      assert a.children[0..] == a.children;
      PrependedNothing(CompileTexts(st1, a.children));
      while i < |a.children|
        invariant 0 <= i <= |a.children|
        invariant CompileTexts(st1, a.children) == Prepended(texts, CompileTexts(State(), a.children[i..]))
      {
        ghost var st := State();
        assert a.children[i..][0] == a.children[i];
        var v := Compile(a.children[i]);
        if v.Err? {
          return Err(v.error);
        }
        var s := Str(v.value);
        if s.Err? {
          return Err(s.error);
        }
        CompileTextsStep(st, a.children, i, texts, v.value, State(), s.value);
        texts := texts + [s.value];
        i := i + 1;
      }
      assert a.children[i..] == [];
      PrependedDone(texts, State());
      Add("psh $" + list + " " + Join(texts, ' '));
      r := Ok(CText(Ident(list)));
    }

    /** The OPERATOR case. */
    method CompileOperator(a: Ast) returns (r: Result<CVal, Exc>)
      requires a.Node? && a.kind == OPERATOR
      modifies this
      decreases a, 1
      ensures Outcome(r, VeeCompiler.CompileOperator(old(State()), a), State())
    {
      if a.token.None? {
        return Err(AttributeError);
      }
      if a.token.value.value == Some("=") {
        r := CompileAssign(a);
        return;
      }
      if |a.children| == 0 {
        return Err(IndexError);
      }
      var left := Compile(a.children[0]);
      if left.Err? {
        return Err(left.error);
      }
      if |a.children| == 1 {
        return Err(IndexError);
      }
      var right := Compile(a.children[1]);
      if right.Err? {
        return Err(right.error);
      }
      var op := Show(a.token.value.value);
      if op == "." {
        r := Err(MemberAccess(a.children[0], a.children[1]).error);
      } else {
        r := Lower(op, left.value, right.value);
      }
    }

    /** The assignment `x = e`. */
    method CompileAssign(a: Ast) returns (r: Result<CVal, Exc>)
      requires a.Node?
      modifies this
      decreases a, 0
      ensures Outcome(r, VeeCompiler.CompileAssign(old(State()), a), State())
    {
      if |a.children| == 0 {
        return Err(IndexError);
      }
      var name := TokenValue(a.children[0]);
      if name.Err? {
        return Err(name.error);
      }
      if |a.children| == 1 {
        return Err(IndexError);
      }
      var v := Compile(a.children[1]);
      if v.Err? {
        return Err(v.error);
      }
      var s := Str(v.value);
      if s.Err? {
        return Err(s.error);
      }
      GenLet(Show(name.value), s.value);
      r := Ok(CNone);
    }

    /** The second `match` of the operator case, on the compiled operands. */
    method Lower(op: string, left: CVal, right: CVal) returns (r: Result<CVal, Exc>)
      modifies this
      ensures Outcome(r, VeeCompiler.Lower(old(State()), op, left, right), State())
    {
      if op !in LoweredOperators {
        return Err(SyntaxError);
      }
      if op == "/" {
        var q := FloorDivide(left, right);
        return if q.Err? then Err(q.error) else Ok(q.value);
      }
      if op == "[" || op == ":" {
        return Err(NotModelled);
      }
      var l := Str(left);
      if l.Err? {
        return Err(l.error);
      }
      var rt := Str(right);
      if rt.Err? {
        return Err(rt.error);
      }
      var v := LowerTexts(op, l.value, rt.value);
      r := Ok(v);
    }

    /** The operators that emit code, on their operands' texts. */
    method LowerTexts(op: string, l: string, r: string) returns (v: CVal)
      modifies this
      ensures (v, State()) == VeeCompiler.LowerTexts(old(State()), op, l, r)
    {
      if ArithCode(op).Some? {
        var res := GenOp(ArithCode(op).value, l, r, None);
        v := CText(Ident(res));
      } else if CompareCode(op).Some? {
        var res := GenCompare(CompareCode(op).value, l, r);
        v := CText(Ident(res));
      } else if op == "<=" {
        v := LowerOrEqual("jlt", l, r);
      } else if op == ">=" {
        v := LowerOrEqual("jgt", l, r);
      } else if op == "&&" {
        v := LowerLogic(l, r, "1");
      } else if op == "||" {
        v := LowerLogic(l, r, "0");
      } else {
        v := LowerRange(l, r);
      }
    }

    /** `<=` and `>=`. */
    method LowerOrEqual(first: string, l: string, r: string) returns (v: CVal)
      modifies this
      ensures (v, State()) == VeeCompiler.LowerOrEqual(old(State()), first, l, r)
    {
      var strict := GenCompare(first, l, r);
      var equal := GenCompare("jeq", l, r);
      var sum := GenOp("add", Ident(strict), Ident(equal), None);
      var res := GenCompare("jgt", Ident(sum), "0");
      v := CText(Ident(res));
    }

    /** `&&` and `||`. */
    method LowerLogic(l: string, r: string, bound: string) returns (v: CVal)
      modifies this
      ensures (v, State()) == VeeCompiler.LowerLogic(old(State()), l, r, bound)
    {
      var sum := GenOp("add", l, r, None);
      var res := GenCompare("jgt", Ident(sum), bound);
      v := CText(Ident(res));
    }

    /** `..`. */
    method LowerRange(l: string, r: string) returns (v: CVal)
      modifies this
      ensures (v, State()) == VeeCompiler.LowerRange(old(State()), l, r)
    {
      var list := GetNewVar();
      GenLet(list, "[]");
      assert "let " + list + " " + "[]" == "let " + list + " []";
      GenPushRange(list, l, r);
      v := CText(Ident(list));
    }

    /** The FUNC_CALL case. */
    method CompileCall(a: Ast) returns (r: Result<CVal, Exc>)
      requires a.Node? && a.kind == FUNC_CALL
      modifies this
      decreases a, 1
      ensures Outcome(r, VeeCompiler.CompileCall(old(State()), a), State())
    {
      var params: CVal := CList([]);
      if |a.children| > 0 {
        var p := Compile(a.children[0]);
        if p.Err? {
          return Err(p.error);
        }
        params := p.value;
      }
      if a.token.None? {
        return Err(AttributeError);
      }
      var name := a.token.value.value;
      if name == Some("print") {
        var args := CallArgs(params);
        if args.Err? {
          return Err(args.error);
        }
        GenFuncCall("prt", args.value, true);
        r := Ok(CNone);
      } else if name == Some("type") {
        r := Err(NotModelled);
      } else {
        var args := CallArgs(params);
        if args.Err? {
          return Err(args.error);
        }
        GenFuncCall(Show(name), args.value, false);
        var res := GetNewVar();
        GenLet(res, "$ret");
        assert "let " + res + " " + "$ret" == "let " + res + " $ret";
        r := Ok(CText(Ident(res)));
      }
    }

    /** The IF case. */
    method CompileIf(a: Ast) returns (r: Result<CVal, Exc>)
      requires a.Node? && a.kind == IF
      modifies this
      decreases a, 1
      ensures Outcome(r, VeeCompiler.CompileIf(old(State()), a), State())
    {
      var end := GetNewLabel();
      ghost var st1 := State();
      var i := 0;
      while i < |a.children| / 2
        invariant 0 <= i <= |a.children| / 2
        invariant IfPairs(st1, a.children, 0, end) == IfPairs(State(), a.children, i, end)
      {
        var done := IfBranch(a, i, end);
        if done.Err? {
          return Err(done.error);
        }
        i := i + 1;
      }
      GenLabel(end);
      r := Ok(CNone);
    }

    /** One condition/block pair of the IF case. */
    method IfBranch(a: Ast, i: nat, end: string) returns (r: Result<CVal, Exc>)
      requires a.Node? && i < |a.children| / 2
      modifies this
      decreases a, 0
      ensures Reached(r, VeeCompiler.IfBranch(old(State()), a.children, i, end), State())
    {
      var t := GetNewLabel();
      var f := GetNewLabel();
      var c := Compile(a.children[2 * i]);
      if c.Err? {
        return Err(c.error);
      }
      var cond := Str(c.value);
      if cond.Err? {
        return Err(cond.error);
      }
      ghost var st := State();
      GenCompareJump("jeq", cond.value, "1", t);
      GenJump(f);
      GenLabel(t);
      assert "jeq" + " " + cond.value + " " + "1" + " " + t == "jeq " + cond.value + " 1 " + t;
      assert State() == EmitAll(st, ["jeq " + cond.value + " 1 " + t, "jmp " + f, "#" + t]);
      var block := Compile(a.children[2 * i + 1]);
      if block.Err? {
        return Err(block.error);
      }
      ghost var st' := State();
      GenJump(end);
      GenLabel(f);
      assert State() == EmitAll(st', ["jmp " + end, "#" + f]);
      r := Ok(CNone);
    }

    /** The FOR case. */
    method CompileFor(a: Ast) returns (r: Result<CVal, Exc>)
      requires a.Node? && a.kind == FOR
      modifies this
      decreases a, 1
      ensures Outcome(r, VeeCompiler.CompileFor(old(State()), a), State())
    {
      var children := a.children;
      if |children| == 0 {
        return Err(IndexError);
      }
      if children[0].Absent? {
        return Err(AttributeError);
      }
      if |children[0].children| == 0 {
        return Err(IndexError);
      }
      var loopVar := TokenValue(children[0].children[0]);
      if loopVar.Err? {
        return Err(loopVar.error);
      }
      if |children[0].children| == 1 {
        return Err(IndexError);
      }
      var range := Compile(children[0].children[1]);
      if range.Err? {
        return Err(range.error);
      }
      if |children| == 1 {
        return Err(IndexError);
      }
      var text := Str(range.value);
      if text.Err? {
        return Err(text.error);
      }
      r := GenFor(loopVar.value, text.value, children[1]);
    }

    /** `gen_for`. */
    method GenFor(v: Option<string>, range: string, body: Ast) returns (r: Result<CVal, Exc>)
      modifies this
      decreases body, 3
      ensures Outcome(r, VeeCompiler.GenFor(old(State()), v, range, body), State())
    {
      Add("for " + Show(v) + " " + range);
      IncreaseIndent();
      var done := Compile(body);
      if done.Err? {
        return Err(done.error);
      }
      DecreaseIndent();
      Add("nxt");
      r := Ok(CNone);
    }

    /** The FUNC_DEF case: the definition is recorded, then `gen_func_def`. */
    method CompileFuncDef(a: Ast) returns (r: Result<CVal, Exc>)
      requires a.Node? && a.kind == FUNC_DEF
      modifies this
      decreases a, 1
      ensures Outcome(r, VeeCompiler.CompileFuncDef(old(State()), a), State())
    {
      var children := a.children;
      if |children| == 0 {
        return Err(IndexError);
      }
      var name := TokenValue(children[0]);
      if name.Err? {
        return Err(name.error);
      }
      if |children| < 3 {
        return Err(IndexError);
      }
      if children[1].Absent? {
        return Err(AttributeError);
      }
      funcs := funcs[name.value := a];
      r := GenFuncDef(name.value, children[1], children[2]);
    }

    /** The first loop of `gen_func_def`: every argument name joins the argument set. */
    method AddArguments(args: Ast) returns (r: Result<CVal, Exc>)
      requires args.Node?
      modifies this
      ensures match ParamNames(args.children)
              case Err(e) => r == Err(e)
              case Ok(names) => r == Ok(CNone) && State() == old(State()).(funcVar := old(funcVar) + set n | n in names)
    {
      ghost var st0 := State();
      ghost var names: seq<Option<string>> := [];
      ghost var added: set<Option<string>> := {};
      var i := 0;
      assert args.children[0..] == args.children;
      match ParamNames(args.children) {
        case Ok(all) => assert [] + all == all;
        case Err(_) =>
      }
      while i < |args.children|
        invariant 0 <= i <= |args.children|
        invariant ParamNames(args.children) == NamesPrepended(names, ParamNames(args.children[i..]))
        invariant added == set n | n in names
        invariant funcVar == st0.funcVar + added
        invariant funcs == st0.funcs && output == st0.output && indent == st0.indent
        invariant varCount == st0.varCount && labelCount == st0.labelCount
      {
        var v := TokenValue(args.children[i]);
        if v.Err? {
          assert args.children[i..][0] == args.children[i];
          return Err(v.error);
        }
        ParamNamesStep(args.children, i, names, v.value);
        NameSetSnoc(names, v.value);
        funcVar := funcVar + {v.value};
        added := added + {v.value};
        names := names + [v.value];
        i := i + 1;
      }
      assert args.children[i..] == [];
      NamesDone(names);
      r := Ok(CNone);
    }

    /** The second loop of `gen_func_def`: `let _a $i` for the argument `a` at position i. */
    method BindArguments(args: Ast, ghost names: seq<Option<string>>)
      requires args.Node? && ParamNames(args.children) == Ok(names)
      modifies this
      ensures State() == EmitAll(old(State()), ParamLines(names))
    {
      ghost var st0 := State();
      ghost var lines := ParamLines(names);
      var j := 0;
      while j < |args.children|
        invariant 0 <= j <= |args.children| == |lines|
        invariant output == st0.output + Under(st0.indent, lines[..j])
        invariant State() == st0.(output := output)
      {
        var v := TokenValue(args.children[j]);
        assert v == Ok(names[j]);
        assert lines[j] == "let _" + Show(v.value) + " $" + NatToString(j);
        Add("let _" + Show(v.value) + " $" + NatToString(j));
        UnderSnoc(st0.indent, lines, j);
        j := j + 1;
      }
      assert lines[..j] == lines;
    }

    /** `gen_func_def`: the argument set, `def`, the argument bindings, the body one space in, `end`. */
    method GenFuncDef(name: Option<string>, args: Ast, body: Ast) returns (r: Result<CVal, Exc>)
      requires args.Node?
      modifies this
      decreases body, 3
      ensures match ParamNames(args.children)
              case Err(e) => r == Err(e)
              case Ok(names) => Outcome(r, VeeCompiler.GenFuncDef(old(State()), name, names, body), State())
    {
      var added := AddArguments(args);
      if added.Err? {
        return Err(added.error);
      }
      ghost var names := ParamNames(args.children).value;
      Add("def " + Show(name));
      IncreaseIndent();
      BindArguments(args, names);
      var done := Compile(body);
      if done.Err? {
        return Err(done.error);
      }
      DecreaseIndent();
      Add("end");
      funcVar := {};
      r := Ok(CNone);
    }

    /** `compile_ast`: the header comment, then the tree. */
    method CompileAst(a: Ast) returns (r: Result<CVal, Exc>)
      modifies this
      ensures Reached(r, VeeCompiler.CompileAst(old(State()), a), State())
    {
      GenComment("==== runtime script ====");
      assert "/ " + "==== runtime script ====" == "/ ==== runtime script ====";
      var done := Compile(a);
      r := if done.Err? then Err(done.error) else Ok(CNone);
    }
  }
}
