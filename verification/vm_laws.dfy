/**
 * What one turn of the driver loop does for the control-transfer, loop and collection
 * instructions, stated as the next line executed and the state left behind.
 */
module VmLaws {
  import opened Wrappers
  import opened Exceptions
  import opened Text
  import opened Values
  import opened Scans
  import opened Loader
  import opened Vm

  /** The instruction at the counter. */
  function Current(img: Image, st: State): seq<string>
    requires 0 <= st.pc < |img.program|
  {
    img.program[st.pc]
  }

  /**
   * The control-flow opcodes are none of the opcodes `Step` tests before them, so a line
   * that starts with one of them is dispatched to its own case.
   */
  lemma LateOpcode(cmd: string)
    requires cmd in {"def", "ret", "end", "cal", "for", "nxt"}
    ensures cmd !in {"let", "int", "str", "typ"} && cmd != "prt"
    ensures cmd !in {"inp", "prs", "rnd", "tim", "slp"} && cmd != "jmp"
    ensures cmd !in {"jeq", "jne", "jlt", "jgt"} && cmd !in {"ife", "ifg"} && cmd != "els"
    ensures cmd !in {"add", "sub", "mul", "div", "mod"} && cmd != "psh" && cmd != "pop"
    ensures cmd != "pol" && cmd != "len" && cmd != "put" && cmd != "get" && cmd != "key" && cmd != "del"
  {
  }

  // ---------------------------------------------------------------------------------
  // Conversions and printing

  /**
   * `let`, `int`, `str`, `typ` of an integer operand: `let` and `int` bind the integer,
   * `str` its decimal text and `typ` the name 'int'; execution goes on with the next line.
   */
  lemma ConvertNumber(img: Image, st: State, cmd: string, t: string, i: int)
    requires 0 <= st.pc < |img.program|
    requires cmd in {"let", "int", "str", "typ"} && Current(img, st) == [cmd, t, IntToString(i)]
    requires |t| > 0 && t[0] != '_' && t != "ret"
    ensures Cycle(img, st) == Ok(st.(pc := st.pc + 1, globals := st.globals[t :=
      if cmd == "str" then Str(IntToString(i)) else if cmd == "typ" then Str("int") else Int(i)]))
  {
    Vm.ExprForms(st, "", i);
  }

  /**
   * `let`, `int`, `str`, `typ` of a quoted operand: `int` binds the integer a numeral
   * denotes and nil for any other text, `typ` binds 'str', and `let` and `str` the text.
   */
  lemma ConvertText(img: Image, st: State, cmd: string, t: string, s: string)
    requires 0 <= st.pc < |img.program|
    requires cmd in {"let", "int", "str", "typ"} && Current(img, st) == [cmd, t, "'" + s + "'"]
    requires '\'' !in s && |t| > 0 && t[0] != '_' && t != "ret"
    ensures Cycle(img, st) == Ok(st.(pc := st.pc + 1, globals := st.globals[t :=
      if cmd == "int" then (match ParseInt(s) case Some(n) => Int(n) case None => Nil)
      else if cmd == "typ" then Str("str") else Str(s)]))
  {
    Vm.ExprForms(st, s, 0);
  }

  /** `prt 's'` prints the text and a newline; `prt 's' 'e'` prints the text followed by `e`. */
  lemma PrintText(img: Image, st: State, s: string, e: Option<string>)
    requires 0 <= st.pc < |img.program|
    requires Current(img, st) == ["prt", "'" + s + "'"] + (if e.Some? then ["'" + e.value + "'"] else [])
    requires '\'' !in s && (e.Some? ==> '\'' !in e.value)
    ensures Cycle(img, st) == Ok(st.(pc := st.pc + 1, out := st.out + s + (if e.Some? then e.value else "\n")))
  {
    Vm.ExprForms(st, s, 0);
    if e.Some? {
      Vm.ExprForms(st, e.value, 0);
    }
  }

  /** `prt $nil` prints `(nil)` and a newline. */
  lemma PrintNil(img: Image, st: State)
    requires 0 <= st.pc < |img.program| && Current(img, st) == ["prt", "$nil"]
    ensures Cycle(img, st) == Ok(st.(pc := st.pc + 1, out := st.out + "(nil)\n"))
  {
    Vm.ExprForms(st, "", 0);
    assert Print(st, ["prt", "$nil"]) == Ok(st.(out := st.out + "(nil)" + "\n"));
    assert st.out + "(nil)" + "\n" == st.out + "(nil)\n";
  }

  // ---------------------------------------------------------------------------------
  // Arithmetic

  /**
   * `add`, `sub`, `mul`, `div`, `mod` of two integer operands bind Python's `+`, `-`, `*`,
   * `//` and `%`; a zero divisor raises ZeroDivisionError.
   */
  lemma ArithIntegers(img: Image, st: State, cmd: string, t: string, x: int, y: int)
    requires 0 <= st.pc < |img.program|
    requires cmd in {"add", "sub", "mul", "div", "mod"}
    requires Current(img, st) == [cmd, t, IntToString(x), IntToString(y)]
    requires |t| > 0 && t[0] != '_' && t != "ret"
    ensures (cmd == "div" || cmd == "mod") && y == 0 ==> Cycle(img, st) == Err(ZeroDivisionError)
    ensures cmd in {"add", "sub", "mul"} || y != 0 ==>
      Cycle(img, st) == Ok(st.(pc := st.pc + 1, globals := st.globals[t := Int(
        if cmd == "add" then x + y else if cmd == "sub" then x - y else if cmd == "mul" then x * y
        else if cmd == "div" then FloorDiv(x, y) else FloorMod(x, y))]))
  {
    var ts := Current(img, st);
    ArithOpcode(cmd);
    assert Step(img, st) == Arith(st, ts, cmd);
    ArithOperands(st, ts, cmd, t, x, y);
  }

  /** The arithmetic opcodes are none of the opcodes `Step` tests before them. */
  lemma ArithOpcode(cmd: string)
    requires cmd in {"add", "sub", "mul", "div", "mod"}
    ensures |cmd| > 0 && cmd[0] != '#'
    ensures cmd !in {"let", "int", "str", "typ"} && cmd != "prt"
    ensures cmd !in {"inp", "prs", "rnd", "tim", "slp"} && cmd != "jmp"
    ensures cmd !in {"jeq", "jne", "jlt", "jgt"} && cmd !in {"ife", "ifg"} && cmd != "els"
  {
  }

  /** `Arith` on two integer tokens. */
  lemma ArithOperands(st: State, ts: seq<string>, cmd: string, t: string, x: int, y: int)
    requires cmd in {"add", "sub", "mul", "div", "mod"} && ts == [cmd, t, IntToString(x), IntToString(y)]
    requires |t| > 0 && t[0] != '_' && t != "ret"
    ensures (cmd == "div" || cmd == "mod") && y == 0 ==> Arith(st, ts, cmd) == Err(ZeroDivisionError)
    ensures cmd in {"add", "sub", "mul"} || y != 0 ==>
      Arith(st, ts, cmd) == Ok(st.(globals := st.globals[t := Int(
        if cmd == "add" then x + y else if cmd == "sub" then x - y else if cmd == "mul" then x * y
        else if cmd == "div" then FloorDiv(x, y) else FloorMod(x, y))]))
  {
    Vm.ExprForms(st, "", x);
    Vm.ExprForms(st, "", y);
    assert Assign(st, t, Int(0)).Ok?;
  }

  // ---------------------------------------------------------------------------------
  // Jumps

  /**
   * `jeq`, `jne`, `jlt`, `jgt` on integer operands jump to the label in scope exactly when
   * `x == y`, `x != y`, `x < y` or `x > y` holds, and otherwise go on with the next line.
   */
  lemma CondJumpIntegers(img: Image, st: State, cmd: string, x: int, y: int, name: string)
    requires 0 <= st.pc < |img.program|
    requires cmd in {"jeq", "jne", "jlt", "jgt"}
    requires Current(img, st) == [cmd, IntToString(x), IntToString(y), name]
    requires Scope(st) in img.labels && name in img.labels[Scope(st)]
    ensures var taken :=
        if cmd == "jeq" then x == y else if cmd == "jne" then x != y else if cmd == "jlt" then x < y else x > y;
      Cycle(img, st) == Ok(st.(pc := if taken then img.labels[Scope(st)][name] else st.pc + 1))
  {
    var ts := Current(img, st);
    CondJumpOpcode(cmd);
    assert Step(img, st) == CondJump(img, st, ts, cmd);
    CondJumpOperands(img, st, ts, cmd, x, y, name);
  }

  /** The conditional-jump opcodes come after the conversions, `prt`, the I/O opcodes and `jmp` in `Step`. */
  lemma CondJumpOpcode(cmd: string)
    requires cmd in {"jeq", "jne", "jlt", "jgt"}
    ensures |cmd| > 0 && cmd[0] != '#'
    ensures cmd !in {"let", "int", "str", "typ"} && cmd != "prt"
    ensures cmd !in {"inp", "prs", "rnd", "tim", "slp"} && cmd != "jmp"
  {
  }

  /** `CondJump` on two integer tokens. */
  lemma CondJumpOperands(img: Image, st: State, ts: seq<string>, cmd: string, x: int, y: int, name: string)
    requires cmd in {"jeq", "jne", "jlt", "jgt"} && ts == [cmd, IntToString(x), IntToString(y), name]
    requires Scope(st) in img.labels && name in img.labels[Scope(st)]
    ensures var taken :=
        if cmd == "jeq" then x == y else if cmd == "jne" then x != y else if cmd == "jlt" then x < y else x > y;
      CondJump(img, st, ts, cmd) == Ok(st.(pc := if taken then img.labels[Scope(st)][name] as int - 1 else st.pc))
  {
    Vm.ExprForms(st, "", x);
    Vm.ExprForms(st, "", y);
    assert Binary(st, ts) == Ok((Int(x), Int(y), st));
    CompareScalar(st.heap, Int(x), Int(y), RecursionLimit);
  }

  /**
   * `jeq a b L` jumps exactly when the machine's comparison reports the operands equal, and
   * `jne a b L` exactly when it reports them different.
   */
  lemma CondJumpEquality(img: Image, st: State, cmd: string)
    requires 0 <= st.pc < |img.program|
    requires cmd in {"jeq", "jne"}
    requires var ts := Current(img, st); |ts| >= 4 && ts[0] == cmd
    requires var b := Binary(st, Current(img, st));
      b.Ok? && Compare(b.value.2.heap, b.value.0, b.value.1, RecursionLimit).Ok?
    requires Scope(st) in img.labels && Current(img, st)[3] in img.labels[Scope(st)]
    ensures var b := Binary(st, Current(img, st)).value;
      var eq := Compare(b.2.heap, b.0, b.1, RecursionLimit).value;
      Cycle(img, st) == Ok(b.2.(pc := if eq == (cmd == "jeq") then img.labels[Scope(st)][Current(img, st)[3]] else st.pc + 1))
  {
    var b := Binary(st, Current(img, st)).value;
    assert Scope(b.2) == Scope(st);
    CondJumpOpcode(cmd);
    assert Step(img, st) == CondJump(img, st, Current(img, st), cmd);
  }

  /**
   * `jmp name`: when the label is in scope, the next line executed is the label's line;
   * otherwise an error is printed and execution goes on with the following line.
   */
  lemma Jump(img: Image, st: State, name: string)
    requires 0 <= st.pc < |img.program|
    requires |Current(img, st)| >= 2 && Current(img, st)[0] == "jmp" && Current(img, st)[1] == name
    requires Scope(st) in img.labels
    ensures name in img.labels[Scope(st)] ==>
      Cycle(img, st) == Ok(st.(pc := img.labels[Scope(st)][name]))
    ensures name !in img.labels[Scope(st)] ==>
      Cycle(img, st) == Ok(st.(pc := st.pc + 1, out := st.out + BadLabel(st.pc, name)))
  {
  }

  /** The operands that allocate a fresh object when evaluated. */
  predicate Allocating(tok: string) {
    tok == "[]" || tok == "{}"
  }

  /** How many of `toks` allocate. */
  function Allocs(toks: seq<string>): nat {
    if |toks| == 0 then 0 else (if Allocating(toks[0]) then 1 else 0) + Allocs(toks[1..])
  }

  /**
   * What argument k of a call denotes: a `[]` or `{}` is the next fresh reference, counting the
   * allocating arguments before it; any other operand is what it evaluates to in `st`.
   */
  function ArgValue(st: State, toks: seq<string>, k: nat): Value
    requires k < |toks| && |toks[k]| > 0
  {
    if Allocating(toks[k]) then Ref(|st.heap| + Allocs(toks[..k])) else Expr(st, toks[k]).value.0
  }

  /** The parameter names "i", ..., "i+n-1". */
  function ArgNames(i: nat, n: nat): set<string> {
    set k | i <= k < i + n :: IntToString(k)
  }

  /** An operand other than `[]` and `{}` leaves the state as it is. */
  lemma PlainOperand(st: State, tok: string)
    requires |tok| > 0 && !Allocating(tok)
    ensures Plain(st, tok)
  {
  }

  /** Argument j + 1 evaluated before argument 0 is argument j evaluated after it. */
  lemma ArgValueShift(st: State, s1: State, toks: seq<string>, j: nat)
    requires j + 1 < |toks| && |toks[0]| > 0 && |toks[j + 1]| > 0
    requires s1 == Expr(st, toks[0]).value.1
    ensures ArgValue(s1, toks[1..], j) == ArgValue(st, toks, j + 1)
  {
    var t := toks[j + 1];
    assert toks[1..][j] == t;
    if Allocating(t) {
      assert toks[..j + 1][1..] == toks[1..][..j];
      assert Allocs(toks[..j + 1]) == (if Allocating(toks[0]) then 1 else 0) + Allocs(toks[1..][..j]);
      ExprGrowth(st, toks[0]);
    } else {
      PlainOperand(st, t);
      PlainElsewhere(st, s1, t);
    }
  }

  /** Evaluating an operand adds one object to the heap for `[]` or `{}` and none otherwise. */
  lemma ExprGrowth(st: State, tok: string)
    requires |tok| > 0
    ensures |Expr(st, tok).value.1.heap| == |st.heap| + (if Allocating(tok) then 1 else 0)
  {
    ExprForms(st, "", 0);
    if !Allocating(tok) {
      PlainOperand(st, tok);
    }
  }

  /** "i" is not among the names bound after it. */
  lemma FirstNameFresh(i: nat, n: nat)
    requires n > 0
    ensures IntToString(i) !in ArgNames(i + 1, n - 1)
  {
    forall j | i + 1 <= j < i + n ensures IntToString(j) != IntToString(i) {
      IntToStringInjective(i, j);
    }
  }

  /** The names bound from "i" on are "i" and those bound from "i+1" on. */
  lemma ArgNamesCons(i: nat, n: nat)
    requires n > 0
    ensures ArgNames(i, n) == {IntToString(i)} + ArgNames(i + 1, n - 1)
  {
  }

  /** Evaluating a call's arguments touches nothing but the heap, which grows by one object per `[]` or `{}`. */
  lemma {:induction false} BindArgsState(st: State, toks: seq<string>, i: nat, env: map<string, Value>)
    requires forall k :: 0 <= k < |toks| ==> |toks[k]| > 0
    ensures BindArgs(st, toks, i, env).Ok?
    ensures var r := BindArgs(st, toks, i, env).value;
      && r.1 == st.(heap := r.1.heap)
      && |r.1.heap| == |st.heap| + Allocs(toks) && r.1.heap[..|st.heap|] == st.heap
    decreases |toks|
  {
    if |toks| > 0 {
      var e := Expr(st, toks[0]).value;
      BindArgsState(e.1, toks[1..], i + 1, env[IntToString(i) := e.0]);
      ExprGrowth(st, toks[0]);
    }
  }

  /** Evaluating a call's arguments binds exactly the names "i", "i+1", ... and keeps the rest of `env`. */
  lemma {:induction false} BindArgsNames(st: State, toks: seq<string>, i: nat, env: map<string, Value>)
    requires forall k :: 0 <= k < |toks| ==> |toks[k]| > 0
    ensures BindArgs(st, toks, i, env).Ok?
    ensures var r := BindArgs(st, toks, i, env).value;
      && r.0.Keys == env.Keys + ArgNames(i, |toks|)
      && (forall x :: x in env && x !in ArgNames(i, |toks|) ==> r.0[x] == env[x])
    decreases |toks|
  {
    if |toks| > 0 {
      var e := Expr(st, toks[0]).value;
      BindArgsNames(e.1, toks[1..], i + 1, env[IntToString(i) := e.0]);
      ArgNamesCons(i, |toks|);
    }
  }

  /** Evaluating a call's arguments binds "i+j" to what argument j denotes. */
  lemma {:induction false} BindArgsAt(st: State, toks: seq<string>, i: nat, env: map<string, Value>,
                                      r: (map<string, Value>, State), j: nat)
    requires forall k :: 0 <= k < |toks| ==> |toks[k]| > 0
    requires BindArgs(st, toks, i, env) == Ok(r)
    requires j < |toks|
    ensures IntToString(i + j) in r.0 && r.0[IntToString(i + j)] == ArgValue(st, toks, j)
    decreases |toks|
  {
    var e := Expr(st, toks[0]).value;
    var env1 := env[IntToString(i) := e.0];
    var rest := toks[1..];
    assert BindArgs(e.1, rest, i + 1, env1) == Ok(r);
    if j == 0 {
      BindArgsFirst(st, toks, i, env, r);
    } else {
      assert forall k :: 0 <= k < |rest| ==> rest[k] == toks[k + 1];
      BindArgsAt(e.1, rest, i + 1, env1, r, j - 1);
      ArgValueShift(st, e.1, toks, j - 1);
      assert i + 1 + (j - 1) == i + j;
    }
  }

  /** The first argument is bound to "i", and no later argument rebinds it. */
  lemma BindArgsFirst(st: State, toks: seq<string>, i: nat, env: map<string, Value>, r: (map<string, Value>, State))
    requires forall j :: 0 <= j < |toks| ==> |toks[j]| > 0
    requires |toks| > 0
    requires BindArgs(st, toks, i, env) == Ok(r)
    ensures IntToString(i) in r.0 && r.0[IntToString(i)] == ArgValue(st, toks, 0)
  {
    var e := Expr(st, toks[0]).value;
    var env1 := env[IntToString(i) := e.0];
    assert BindArgs(e.1, toks[1..], i + 1, env1) == Ok(r);
    BindArgsNames(e.1, toks[1..], i + 1, env1);
    FirstNameFresh(i, |toks|);
    ExprForms(st, "", 0);
    assert toks[..0] == [];
  }

  /**
   * Evaluating a call's arguments binds "i+j" to what argument j denotes,
   * keeps every other name of `env`, and touches nothing but the heap, which grows by one
   * object per `[]` or `{}`.
   */
  lemma BindArgsBinds(st: State, toks: seq<string>, i: nat, env: map<string, Value>)
    requires forall k :: 0 <= k < |toks| ==> |toks[k]| > 0
    ensures BindArgs(st, toks, i, env).Ok?
    ensures var r := BindArgs(st, toks, i, env).value;
      && r.1 == st.(heap := r.1.heap)
      && |r.1.heap| == |st.heap| + Allocs(toks) && r.1.heap[..|st.heap|] == st.heap
      && (forall j :: 0 <= j < |toks| ==>
            IntToString(i + j) in r.0 && r.0[IntToString(i + j)] == ArgValue(st, toks, j))
      && r.0.Keys == env.Keys + ArgNames(i, |toks|)
      && (forall x :: x in env && x !in ArgNames(i, |toks|) ==> r.0[x] == env[x])
  {
    BindArgsState(st, toks, i, env);
    BindArgsNames(st, toks, i, env);
    var r := BindArgs(st, toks, i, env).value;
    forall j | 0 <= j < |toks|
      ensures IntToString(i + j) in r.0 && r.0[IntToString(i + j)] == ArgValue(st, toks, j)
    {
      BindArgsAt(st, toks, i, env, r, j);
    }
  }

  /** `cal f a...` is the frame pushed by evaluating the arguments, and a jump to `def f`. */
  lemma CallPushes(img: Image, st: State, ts: seq<string>)
    requires st.pc >= 0
    requires |ts| >= 2 && ts[1] in img.funcs && forall k :: 2 <= k < |ts| ==> |ts[k]| > 0
    ensures BindArgs(st, ts[2..], 0, map[]).Ok?
    ensures var b := BindArgs(st, ts[2..], 0, map[]).value;
      Call(img, st, ts) == Ok(b.1.(stack := b.1.stack + [Frame(ts[1], st.pc, b.0)], pc := img.funcs[ts[1]]))
  {
    assert forall k :: 0 <= k < |ts[2..]| ==> ts[2..][k] == ts[k + 2];
    BindArgsState(st, ts[2..], 0, map[]);
  }

  /**
   * `cal f a...`: pushes a frame for `f` that remembers the calling line and binds
   * "0", "1", ... to what the arguments denote, and nothing else; the heap grows by one
   * object per `[]` or `{}` argument, and the next line executed is the one after `def f`.
   */
  lemma CallEnters(img: Image, st: State)
    requires 0 <= st.pc < |img.program|
    requires var ts := Current(img, st);
      |ts| >= 2 && ts[0] == "cal" && ts[1] in img.funcs && forall k :: 2 <= k < |ts| ==> |ts[k]| > 0
    ensures Cycle(img, st).Ok?
    ensures var ts := Current(img, st); var r := Cycle(img, st).value;
      && r.pc == img.funcs[ts[1]] + 1
      && |r.stack| == |st.stack| + 1 && r.stack[..|st.stack|] == st.stack
      && Top(r).func == ts[1] && Top(r).pc == st.pc
      && (forall k :: 0 <= k < |ts| - 2 ==>
            IntToString(k) in Top(r).env && Top(r).env[IntToString(k)] == ArgValue(st, ts[2..], k))
      && Top(r).env.Keys == ArgNames(0, |ts| - 2)
      && |r.heap| == |st.heap| + Allocs(ts[2..]) && r.heap[..|st.heap|] == st.heap
      && r.globals == st.globals && r.loops == st.loops && r.out == st.out
  {
    var ts := Current(img, st);
    CallPushes(img, st, ts);
    CallDispatch(img, st);
    var b := BindArgs(st, ts[2..], 0, map[]).value;
    StepThenNext(img, st, b.1.(stack := b.1.stack + [Frame(ts[1], st.pc, b.0)], pc := img.funcs[ts[1]]));
    assert forall k :: 0 <= k < |ts[2..]| ==> ts[2..][k] == ts[k + 2];
    BindArgsState(st, ts[2..], 0, map[]);
    CallFrame(st, ts[1], img.funcs[ts[1]] + 1, b.1, b.0, Cycle(img, st).value);
    CallScope(st, ts[2..], b);
  }

  /** The state a call leaves, read off field by field. */
  lemma CallFrame(st: State, f: string, pc: int, b: State, env: map<string, Value>, r: State)
    requires st.pc >= 0
    requires b == st.(heap := b.heap)
    requires r == b.(stack := b.stack + [Frame(f, st.pc, env)], pc := pc)
    ensures && r.pc == pc && r.heap == b.heap
      && |r.stack| == |st.stack| + 1 && r.stack[..|st.stack|] == st.stack
      && Top(r) == Frame(f, st.pc, env)
      && r.globals == st.globals && r.loops == st.loops && r.out == st.out
  {
    assert r.stack == st.stack + [Frame(f, st.pc, env)];
  }

  /** The scope a call opens binds exactly "0", "1", ... to what the arguments denote. */
  lemma CallScope(st: State, args: seq<string>, b: (map<string, Value>, State))
    requires forall k :: 0 <= k < |args| ==> |args[k]| > 0
    requires BindArgs(st, args, 0, map[]) == Ok(b)
    ensures forall k :: 0 <= k < |args| ==> IntToString(k) in b.0 && b.0[IntToString(k)] == ArgValue(st, args, k)
    ensures b.0.Keys == ArgNames(0, |args|)
  {
    BindArgsFrom0(st, args, b);
    BindArgsNames(st, args, 0, map[]);
    var empty: map<string, Value> := map[];
    assert empty.Keys + ArgNames(0, |args|) == ArgNames(0, |args|);
  }

  /** A call's own arguments are bound to "0", "1", ... */
  lemma BindArgsFrom0(st: State, args: seq<string>, b: (map<string, Value>, State))
    requires forall k :: 0 <= k < |args| ==> |args[k]| > 0
    requires BindArgs(st, args, 0, map[]) == Ok(b)
    ensures forall k :: 0 <= k < |args| ==> IntToString(k) in b.0 && b.0[IntToString(k)] == ArgValue(st, args, k)
  {
    forall k | 0 <= k < |args|
      ensures IntToString(k) in b.0 && b.0[IntToString(k)] == ArgValue(st, args, k)
    {
      BindArgsAt(st, args, 0, map[], b, k);
      assert 0 + k == k;
    }
  }

  /** A turn whose step succeeds moves on to the line after the one the step chose. */
  lemma StepThenNext(img: Image, st: State, s: State)
    requires 0 <= st.pc < |img.program|
    requires Step(img, st) == Ok(s)
    ensures Cycle(img, st) == Ok(s.(pc := s.pc + 1))
  {
  }

  /** A line that starts with `cal` is dispatched to the call. */
  lemma CallDispatch(img: Image, st: State)
    requires 0 <= st.pc < |img.program|
    requires |Current(img, st)| > 0 && Current(img, st)[0] == "cal"
    ensures Step(img, st) == Call(img, st, Current(img, st))
  {
    LateOpcode("cal");
  }

  /**
   * `ret v`: pops the frame, binds `ret` to `v` in the scope that is current after the
   * pop, and resumes on the line after the `cal`.
   */
  lemma ReturnValue(img: Image, st: State)
    requires 0 <= st.pc < |img.program|
    requires var ts := Current(img, st); |ts| >= 2 && ts[0] == "ret" && |ts[1]| > 0
    requires |st.stack| > 0
    ensures Cycle(img, st).Ok?
    ensures var r := Cycle(img, st).value; var v := Expr(st, Current(img, st)[1]).value.0;
      && r.pc == Top(st).pc + 1
      && |r.stack| == |st.stack| - 1
      && GetVar(r, "ret") == Ok(v)
      && (|r.stack| == 0 ==> r.globals == st.globals["ret" := v])
      && (|r.stack| > 0 ==> r.globals == st.globals && Top(r).env == st.stack[|st.stack| - 2].env["ret" := v])
  {
    var ts := Current(img, st);
    var e := Expr(st, ts[1]).value;
    var st2 := e.1.(stack := e.1.stack[..|e.1.stack| - 1]);
    LateOpcode("ret");
    assert Step(img, st) == Return(st, ts, true);
    AssignThenGet(st2, "ret", e.0);
  }

  /** `end`: pops the frame without binding anything and resumes after the `cal`. */
  lemma EndReturns(img: Image, st: State)
    requires 0 <= st.pc < |img.program|
    requires Current(img, st) == ["end"]
    requires |st.stack| > 0
    ensures Cycle(img, st) == Ok(st.(pc := Top(st).pc + 1, stack := st.stack[..|st.stack| - 1]))
  {
    LateOpcode("end");
    assert Step(img, st) == Return(st, ["end"], false);
  }

  /** `ret` or `end` with no frame to return to raises IndexError. */
  lemma ReturnWithoutCall(img: Image, st: State)
    requires 0 <= st.pc < |img.program|
    requires Current(img, st) == ["end"] || Current(img, st) == ["ret"]
    requires |st.stack| == 0
    ensures Cycle(img, st) == Err(IndexError)
  {
    LateOpcode(Current(img, st)[0]);
    assert Step(img, st) == Return(st, Current(img, st), Current(img, st)[0] == "ret");
  }

  /**
   * A `def` reached by straight-line execution skips the body: the next line executed is
   * the one after the first following `end` (or execution stops when there is none).
   */
  lemma DefSkipsBody(img: Image, st: State)
    requires 0 <= st.pc < |img.program|
    requires |Current(img, st)| > 0 && Current(img, st)[0] == "def"
    ensures Cycle(img, st).Ok?
    ensures var e := Cycle(img, st).value.pc - 1;
      && st.pc < e <= |img.program|
      && (e < |img.program| ==> Head(img.program, e) == "end")
      && forall k :: st.pc <= k < e ==> Head(img.program, k) != "end"
  {
    LateOpcode("def");
    assert Head(img.program, st.pc) == "def";
  }

  // ---------------------------------------------------------------------------------
  // Conditionals

  /**
   * `ife a b` with unequal operands: the next line executed is the one after the first
   * `els` or `fin` at nesting depth 0 (inner `ife`/`ifg` ... `fin` pairs are skipped);
   * without one the scan runs off the program and raises IndexError.
   */
  lemma IfeSkips(img: Image, st: State)
    requires 0 <= st.pc < |img.program|
    requires var ts := Current(img, st); |ts| >= 3 && ts[0] == "ife"
    requires var b := Binary(st, Current(img, st));
      b.Ok? && Compare(b.value.2.heap, b.value.0, b.value.1, RecursionLimit) == Ok(false)
    ensures var r := Cycle(img, st); var s := st.pc + 1;
      && (r.Ok? ==>
            r.value == Binary(st, Current(img, st)).value.2.(pc := r.value.pc)
            && IsEnd(img.program, IfNest(true), s, 0, r.value.pc - 1)
            && forall k :: s <= k < r.value.pc - 1 ==> !IsEnd(img.program, IfNest(true), s, 0, k))
      && (r.Err? ==>
            r.error == IndexError
            && forall k :: s <= k < |img.program| ==> !IsEnd(img.program, IfNest(true), s, 0, k))
  {
    var ts := Current(img, st);
    assert Step(img, st) == If(img, st, ts, "ife");
    ForwardFirst(img.program, IfNest(true), st.pc + 1, 0);
  }

  /** `ife a b` with equal operands: execution goes on with the next line. */
  lemma IfeEnters(img: Image, st: State)
    requires 0 <= st.pc < |img.program|
    requires var ts := Current(img, st); |ts| >= 3 && ts[0] == "ife"
    requires var b := Binary(st, Current(img, st));
      b.Ok? && Compare(b.value.2.heap, b.value.0, b.value.1, RecursionLimit) == Ok(true)
    ensures Cycle(img, st) == Ok(Binary(st, Current(img, st)).value.2.(pc := st.pc + 1))
  {
    assert Step(img, st) == If(img, st, Current(img, st), "ife");
  }

  /** `ifg a b` enters its block exactly when a > b (for integer operands). */
  lemma IfgIntegers(img: Image, st: State)
    requires 0 <= st.pc < |img.program|
    requires var ts := Current(img, st); |ts| >= 3 && ts[0] == "ifg"
    requires var b := Binary(st, Current(img, st)); b.Ok? && b.value.0.Int? && b.value.1.Int?
    ensures var b := Binary(st, Current(img, st)).value;
      b.0.n > b.1.n <==> Cycle(img, st) == Ok(b.2.(pc := st.pc + 1))
  {
    var ts := Current(img, st);
    assert Step(img, st) == If(img, st, ts, "ifg");
    var b := Binary(st, ts).value;
    if b.0.n <= b.1.n {
      var g := GotoIfFalse(img.program, st.pc);
      if g.Ok? {
        assert g.value >= st.pc + 1;
      }
    }
  }

  /**
   * An `els` reached by straight-line execution skips to the line after its matching
   * `fin`, passing over inner conditionals.
   */
  lemma ElsSkips(img: Image, st: State)
    requires 0 <= st.pc < |img.program|
    requires |Current(img, st)| > 0 && Current(img, st)[0] == "els"
    ensures var r := Cycle(img, st);
      && (r.Ok? ==>
            r.value == st.(pc := r.value.pc)
            && IsEnd(img.program, IfNest(false), st.pc, 0, r.value.pc - 1)
            && forall k :: st.pc <= k < r.value.pc - 1 ==> !IsEnd(img.program, IfNest(false), st.pc, 0, k))
      && (r.Err? ==> r.error == IndexError)
  {
    ForwardFirst(img.program, IfNest(false), st.pc, 0);
  }

  // ---------------------------------------------------------------------------------
  // Loops

  /** A `for` line is executed by `For`. */
  lemma StepFor(img: Image, st: State)
    requires 0 <= st.pc < |img.program|
    requires |Current(img, st)| > 0 && Current(img, st)[0] == "for"
    ensures Step(img, st) == For(img, st, Current(img, st))
  {
    LateOpcode("for");
  }

  /** An integer N is walked as a fresh list 0 .. N-1. */
  lemma LoopItemsInt(h: Heap, n: int)
    ensures LoopItems(h, Int(n)) == Ok((|h|, h + [ListObj(Range(n))]))
  {
    assert !IsList(h, Int(n)) && !Dangling(h, Int(n));
  }

  /** The first visit of `for v N` records a fresh list 0 .. N-1 for `v`. */
  lemma ForRecords(img: Image, st: State, name: string, n: int)
    requires 0 <= st.pc < |img.program|
    requires name !in st.loops && |name| > 0
    ensures var h := st.heap + [ListObj(Range(n))];
      For(img, st, ["for", name, IntToString(n)])
        == ForVisit(img, st.(heap := h, loops := st.loops[name := LoopState(|st.heap|, st.pc, 0)]), name)
  {
    Vm.ExprForms(st, "", n);
    LoopItemsInt(st.heap, n);
  }

  /** A visit with items left binds the next one to `v` and advances the index. */
  lemma ForVisitNext(img: Image, st: State, name: string)
    requires 0 <= st.pc < |img.program| && name in st.loops && IsList(st.heap, Ref(st.loops[name].items))
    requires |name| > 0 && name[0] != '_' && name != "ret"
    requires st.loops[name].index < |st.heap[st.loops[name].items].items|
    ensures var ls := st.loops[name];
      ForVisit(img, st, name) == Ok(st.(globals := st.globals[name := st.heap[ls.items].items[ls.index]],
                                        loops := st.loops[name := ls.(index := ls.index + 1)]))
  {
  }

  /** A visit with no items left drops the loop state and moves to the matching `nxt`. */
  lemma ForVisitDone(img: Image, st: State, name: string)
    requires 0 <= st.pc < |img.program| && name in st.loops && IsList(st.heap, Ref(st.loops[name].items))
    requires st.loops[name].index >= |st.heap[st.loops[name].items].items|
    ensures ForVisit(img, st, name) == Ok(st.(loops := st.loops - {name}, pc := GotoLoopEnd(img.program, st.pc).value))
  {
  }

  /** The first visit of `for v N` with N <= 0 skips the loop and leaves no loop state. */
  lemma ForFirstEmpty(img: Image, st: State, name: string, n: int)
    requires 0 <= st.pc < |img.program| && n <= 0
    requires name !in st.loops && |name| > 0
    ensures For(img, st, ["for", name, IntToString(n)])
      == Ok(st.(heap := st.heap + [ListObj(Range(n))], pc := GotoLoopEnd(img.program, st.pc).value))
  {
    ForRecords(img, st, name, n);
    var h := st.heap + [ListObj(Range(n))];
    var st2 := st.(heap := h, loops := st.loops[name := LoopState(|st.heap|, st.pc, 0)]);
    ForVisitDone(img, st2, name);
    assert st2.loops - {name} == st.loops;
  }

  /** The first visit of `for v N` with N > 0 binds `v` to 0 and records index 1. */
  lemma ForFirstBind(img: Image, st: State, name: string, n: int)
    requires 0 <= st.pc < |img.program| && n > 0
    requires name !in st.loops && |name| > 0 && name[0] != '_' && name != "ret"
    ensures var h := st.heap + [ListObj(Range(n))];
      ForVisit(img, st.(heap := h, loops := st.loops[name := LoopState(|st.heap|, st.pc, 0)]), name)
        == Ok(st.(heap := h, globals := st.globals[name := Int(0)],
                  loops := st.loops[name := LoopState(|st.heap|, st.pc, 1)]))
  {
    var h := st.heap + [ListObj(Range(n))];
    var st2 := st.(heap := h, loops := st.loops[name := LoopState(|st.heap|, st.pc, 0)]);
    var ls := st2.loops[name];
    assert st2.heap[ls.items].items == Range(n);
    assert st2.heap[ls.items].items[ls.index] == Int(0);
    ForVisitNext(img, st2, name);
    assert st2.loops[name := ls.(index := 1)] == st.loops[name := LoopState(|st.heap|, st.pc, 1)];
  }

  /**
   * `for v N` for an integer N on its first visit: the loop walks a fresh list 0 .. N-1,
   * `v` is bound to 0 and the next line is the body; for N <= 0 the loop is skipped.
   */
  lemma ForFirstVisit(img: Image, st: State, name: string, n: int)
    requires 0 <= st.pc < |img.program|
    requires Current(img, st) == ["for", name, IntToString(n)]
    requires name !in st.loops && |name| > 0 && name[0] != '_' && name != "ret"
    ensures Cycle(img, st).Ok?
    ensures var r := Cycle(img, st).value;
      && r.heap == st.heap + [ListObj(Range(n))]
      && (n > 0 ==>
            r.pc == st.pc + 1 && r.globals == st.globals[name := Int(0)]
            && r.loops == st.loops[name := LoopState(|st.heap|, st.pc, 1)])
      && (n <= 0 ==> r.loops == st.loops && r.pc - 1 == GotoLoopEnd(img.program, st.pc).value)
  {
    StepFor(img, st);
    if n <= 0 {
      ForFirstEmpty(img, st, name, n);
    } else {
      ForRecords(img, st, name, n);
      ForFirstBind(img, st, name, n);
    }
  }

  /**
   * `for v r` on a later visit: while items remain, `v` is bound to the next one and the
   * index advances; once they are exhausted the loop state is deleted and the next line
   * executed is the one after the matching `nxt`.
   */
  lemma ForLaterVisit(img: Image, st: State, name: string, rg: string)
    requires 0 <= st.pc < |img.program|
    requires Current(img, st) == ["for", name, rg] && |rg| > 0 && rg != "[]" && rg != "{}"
    requires name in st.loops && IsList(st.heap, Ref(st.loops[name].items))
    requires |name| > 0 && name[0] != '_' && name != "ret"
    ensures Cycle(img, st).Ok?
    ensures var r := Cycle(img, st).value; var ls := st.loops[name];
      var items := st.heap[ls.items].items;
      && (ls.index < |items| ==>
            r == st.(pc := st.pc + 1, globals := st.globals[name := items[ls.index]],
                     loops := st.loops[name := ls.(index := ls.index + 1)]))
      && (ls.index >= |items| ==>
            r.loops == st.loops - {name} && r.globals == st.globals
            && r.pc - 1 == GotoLoopEnd(img.program, st.pc).value)
  {
    StepFor(img, st);
    assert Expr(st, rg).value.1 == st;
    var ls := st.loops[name];
    if ls.index < |st.heap[ls.items].items| {
      ForVisitNext(img, st, name);
    } else {
      ForVisitDone(img, st, name);
    }
  }

  /** `nxt` closing a `for` goes back to it: the next line executed is the `for`. */
  lemma NxtLoops(img: Image, st: State, f: nat)
    requires 0 <= st.pc < |img.program|
    requires |Current(img, st)| > 0 && Current(img, st)[0] == "nxt"
    requires LoopPair(img.program, f, st.pc)
    ensures Cycle(img, st) == Ok(st.(pc := f))
  {
    LateOpcode("nxt");
    NxtReturnsToFor(img.program, f, st.pc);
  }

  // ---------------------------------------------------------------------------------
  // Collections

  /** A bound name that lives among the globals, wherever execution is. */
  predicate GlobalName(st: State, x: string) {
    |x| > 0 && x[0] != '_' && x != "ret" && x in st.globals
  }

  /** `pop` or `pol` of an empty string gives '' and of an empty list nil; the source is unchanged. */
  lemma TakeFromEmpty(st: State, cmd: string, x: string, t: string)
    requires cmd == "pop" || cmd == "pol"
    requires |t| > 0 && t[0] != '_' && t != "ret"
    requires GlobalName(st, x)
    requires st.globals[x] == Str("") || (IsList(st.heap, st.globals[x]) && st.heap[st.globals[x].addr].items == [])
    ensures var r := if cmd == "pop" then Pop(st, ["pop", "$" + x, t]) else Poll(st, ["pol", "$" + x, t]);
      r == Ok(st.(globals := st.globals[t := if st.globals[x].Str? then Str("") else Nil]))
  {
    assert VarOf("$" + x) == x;
  }

  /** `pop` of a non-empty list takes its last element out of the shared list itself. */
  lemma PopList(st: State, x: string, t: string)
    requires |t| > 0 && t[0] != '_' && t != "ret"
    requires GlobalName(st, x) && IsList(st.heap, st.globals[x])
    requires |st.heap[st.globals[x].addr].items| > 0
    ensures var a := st.globals[x].addr; var xs := st.heap[a].items;
      Pop(st, ["pop", "$" + x, t])
        == Ok(st.(heap := st.heap[a := ListObj(xs[..|xs| - 1])], globals := st.globals[t := xs[|xs| - 1]]))
  {
    assert VarOf("$" + x) == x;
  }

  /** `pol` of a non-empty list rebinds the name to a fresh list of the rest; the old list is untouched. */
  lemma PollList(st: State, x: string, t: string)
    requires |t| > 0 && t[0] != '_' && t != "ret" && t != x
    requires GlobalName(st, x) && IsList(st.heap, st.globals[x])
    requires |st.heap[st.globals[x].addr].items| > 0
    ensures var xs := st.heap[st.globals[x].addr].items;
      Poll(st, ["pol", "$" + x, t])
        == Ok(st.(heap := st.heap + [ListObj(xs[1..])],
                  globals := st.globals[t := xs[0]][x := Ref(|st.heap|)]))
  {
    assert VarOf("$" + x) == x;
  }

  /** `get` past the end of a list gives nil and past the end of a string gives ''. */
  lemma GetPastEnd(st: State, x: string, i: nat, t: string)
    requires |t| > 0 && t[0] != '_' && t != "ret"
    requires GlobalName(st, x)
    requires var v := st.globals[x];
      (v.Str? && i >= |v.s|) || (IsList(st.heap, v) && i >= |st.heap[v.addr].items|)
    ensures Get(st, ["get", "$" + x, IntToString(i), t])
      == Ok(st.(globals := st.globals[t := if st.globals[x].Str? then Str("") else Nil]))
  {
    assert VarOf("$" + x) == x;
    Vm.ExprForms(st, "", i);
  }

  /** `put` on a string rebinds it with exactly the character at the index replaced. */
  lemma PutString(st: State, x: string, i: nat, c: char)
    requires GlobalName(st, x) && st.globals[x].Str? && i < |st.globals[x].s|
    requires c != '\''
    ensures var s := st.globals[x].s;
      && Put(st, ["put", "$" + x, IntToString(i), "'" + [c] + "'"]).Ok?
      && var r := Put(st, ["put", "$" + x, IntToString(i), "'" + [c] + "'"]).value;
      && r == st.(globals := st.globals[x := Str(Splice(s, i, [c]))])
      && |Splice(s, i, [c])| == |s| && Splice(s, i, [c])[i] == c
      && forall k :: 0 <= k < |s| && k != i ==> Splice(s, i, [c])[k] == s[k]
  {
    assert VarOf("$" + x) == x;
    Vm.ExprForms(st, [c], i);
  }

  /** `psh` onto a list appends to the shared list in place; every alias sees the change. */
  lemma PushList(st: State, x: string, tok: string)
    requires GlobalName(st, x) && IsList(st.heap, st.globals[x])
    requires |tok| > 0 && tok != "[]" && tok != "{}"
    ensures var a := st.globals[x].addr; var v := Expr(st, tok).value.0;
      Push(st, ["psh", "$" + x, tok])
        == Ok(st.(heap := st.heap[a := ListObj(st.heap[a].items + [v])]))
  {
    assert VarOf("$" + x) == x;
    assert ["psh", "$" + x, tok][2..] == [tok] && [tok][1..] == [];
    var cur := st.globals[x];
    assert GetVar(st, x) == Ok(cur);
    assert Expr(st, tok).value.1 == st;
    var st1 := st.(heap := st.heap[cur.addr := ListObj(st.heap[cur.addr].items + [Expr(st, tok).value.0])]);
    assert PushEach(st1, x, [], cur) == Ok(st1);
    assert PushEach(st, x, [tok], cur) == Ok(st1);
  }

  /** An operand that evaluates without allocating: anything but `[]` and `{}`. */
  predicate Plain(st: State, tok: string) {
    Expr(st, tok).Ok? && Expr(st, tok).value.1 == st
  }

  /** `len` binds the length of a string, a list or a map. */
  lemma LengthOf(st: State, x: string, t: string)
    requires |t| > 0 && t[0] != '_' && t != "ret"
    requires GlobalName(st, x)
    requires var v := st.globals[x]; v.Str? || IsList(st.heap, v) || IsMap(st.heap, v)
    ensures var v := st.globals[x];
      Length(st, ["len", "$" + x, t]) == Ok(st.(globals := st.globals[t := Int(
        if v.Str? then |v.s| else if IsList(st.heap, v) then |st.heap[v.addr].items| else |st.heap[v.addr].entries|)]))
  {
    assert VarOf("$" + x) == x;
  }

  /** `get` at an index inside a list gives its element, and inside a string its character. */
  lemma GetInRange(st: State, x: string, i: nat, t: string)
    requires |t| > 0 && t[0] != '_' && t != "ret"
    requires GlobalName(st, x)
    requires var v := st.globals[x];
      (v.Str? && i < |v.s|) || (IsList(st.heap, v) && i < |st.heap[v.addr].items|)
    ensures var v := st.globals[x];
      Get(st, ["get", "$" + x, IntToString(i), t]) == Ok(st.(globals := st.globals[t :=
        if v.Str? then Str([v.s[i]]) else st.heap[v.addr].items[i]]))
  {
    assert VarOf("$" + x) == x;
    Vm.ExprForms(st, "", i);
  }

  /** `put` on a map sets the entry of the key in place, as `MapPut` does; an unhashable key is a TypeError. */
  lemma PutMap(st: State, x: string, kt: string, vt: string)
    requires GlobalName(st, x) && IsMap(st.heap, st.globals[x])
    requires Plain(st, kt) && Plain(st, vt)
    ensures var a := st.globals[x].addr; var k := Expr(st, kt).value.0; var v := Expr(st, vt).value.0;
      Put(st, ["put", "$" + x, kt, vt]) ==
        if Hashable(k) then Ok(st.(heap := st.heap[a := MapObj(MapPut(st.heap[a].entries, k, v))]))
        else Err(TypeError)
  {
    assert VarOf("$" + x) == x;
  }

  /**
   * `put` on a list sets the element at an index inside it in place; an index past the
   * end raises IndexError.
   */
  lemma PutList(st: State, x: string, i: int, vt: string)
    requires GlobalName(st, x) && IsList(st.heap, st.globals[x])
    requires Plain(st, vt)
    ensures var a := st.globals[x].addr; var xs := st.heap[a].items; var v := Expr(st, vt).value.0;
      Put(st, ["put", "$" + x, IntToString(i), vt]) ==
        if i < 0 then Err(NotModelled)
        else if i >= |xs| then Err(IndexError)
        else Ok(st.(heap := st.heap[a := ListObj(xs[i := v])]))
  {
    assert VarOf("$" + x) == x;
    Vm.ExprForms(st, "", i);
  }

  /** A `get` after a `put` on the same map and key reads the value put. */
  lemma GetAfterPut(st: State, x: string, kt: string, vt: string, t: string)
    requires |t| > 0 && t[0] != '_' && t != "ret"
    requires GlobalName(st, x) && IsMap(st.heap, st.globals[x])
    requires Plain(st, kt) && Plain(st, vt) && Hashable(Expr(st, kt).value.0)
    requires kt != "[]" && kt != "{}"
    ensures Put(st, ["put", "$" + x, kt, vt]).Ok?
    ensures var s1 := Put(st, ["put", "$" + x, kt, vt]).value;
      Get(s1, ["get", "$" + x, kt, t]) == Ok(s1.(globals := s1.globals[t := Expr(st, vt).value.0]))
  {
    PutMap(st, x, kt, vt);
    var a := st.globals[x].addr;
    var k := Expr(st, kt).value.0;
    var v := Expr(st, vt).value.0;
    var s1 := Put(st, ["put", "$" + x, kt, vt]).value;
    MapPutLookup(st.heap[a].entries, k, v, k);
    assert VarOf("$" + x) == x;
    PlainElsewhere(st, s1, kt);
  }

  /** Whether an operand allocates, and what it denotes, depends only on the names, not on the heap. */
  lemma PlainElsewhere(st: State, s1: State, tok: string)
    requires Plain(st, tok) && tok != "[]" && tok != "{}"
    requires s1 == st.(heap := s1.heap)
    ensures Plain(s1, tok) && Expr(s1, tok).value.0 == Expr(st, tok).value.0
  {
  }

  /** `key` binds a fresh list of a map's keys in insertion order. */
  lemma KeysList(st: State, x: string, t: string)
    requires |t| > 0 && t[0] != '_' && t != "ret"
    requires GlobalName(st, x) && IsMap(st.heap, st.globals[x])
    ensures Keys(st, ["key", "$" + x, t]) == Ok(st.(heap := st.heap + [ListObj(KeysOf(st.heap[st.globals[x].addr].entries))],
                                                   globals := st.globals[t := Ref(|st.heap|)]))
  {
    assert VarOf("$" + x) == x;
  }

  /**
   * `del` on a map removes the entry of the key in place, at the index `Find` gives, and
   * a missing key raises KeyError.
   */
  lemma DeleteMapKey(st: State, x: string, kt: string)
    requires GlobalName(st, x) && IsMap(st.heap, st.globals[x])
    requires Plain(st, kt) && Hashable(Expr(st, kt).value.0)
    ensures var a := st.globals[x].addr; var es := st.heap[a].entries; var k := Expr(st, kt).value.0;
      Delete(st, ["del", "$" + x, kt]) ==
        match Find(es, k)
        case None => Err(KeyError)
        case Some(i) => Ok(st.(heap := st.heap[a := MapObj(RemoveAt(es, i))]))
  {
    assert VarOf("$" + x) == x;
  }

  // ---------------------------------------------------------------------------------
  // The driver loop

  /**
   * The driver loop over any cycle function `next`: it stops once the counter reaches `end`,
   * when a cycle fails, or when the fuel runs out.
   */
  function Drive(next: State -> Result<State, Exc>, end: int, st: State, fuel: nat): Result<State, Exc>
    decreases fuel
  {
    if st.pc >= end || fuel == 0 then Ok(st)
    else
      var s :- next(st);
      Drive(next, end, s, fuel - 1)
  }

  /** `Cycle` extended to every state, so that it can be handed to `Drive`. */
  function CycleOf(img: Image): State -> Result<State, Exc> {
    (s: State) => if 0 <= s.pc < |img.program| then Cycle(img, s) else Ok(s)
  }

  /** One cycle of the driver loop, with the cycle's result left as it is. */
  lemma RunUnfold(img: Image, st: State, fuel: nat)
    requires st.pc >= 0 && st.pc < |img.program| && fuel > 0
    ensures Run(img, st, fuel) ==
      (match Cycle(img, st) case Err(e) => Err(e) case Ok(s) => Run(img, s, fuel - 1))
  {
  }

  /** The driver loop of the interpreter is `Drive` over its own cycle. */
  lemma {:induction false} RunIsDrive(img: Image, st: State, fuel: nat)
    requires st.pc >= 0
    ensures Run(img, st, fuel) == Drive(CycleOf(img), |img.program|, st, fuel)
    decreases fuel
  {
    if st.pc < |img.program| && fuel > 0 {
      RunUnfold(img, st, fuel);
      var c := Cycle(img, st);
      assert CycleOf(img)(st) == c;
      if c.Ok? {
        RunIsDrive(img, c.value, fuel - 1);
      }
    }
  }

  /**
   * A loop that has stopped (the counter left the program, or a cycle raised) is not changed
   * by more turns; with `RunIsDrive` this holds for the driver loop.
   */
  lemma {:induction false} DriveMoreFuel(next: State -> Result<State, Exc>, end: int, st: State, fuel: nat, extra: nat)
    ensures var r := Drive(next, end, st, fuel);
      r.Err? || r.value.pc >= end ==> Drive(next, end, st, fuel + extra) == r
    decreases fuel
  {
    if st.pc < end && fuel > 0 && next(st).Ok? {
      DriveMoreFuel(next, end, next(st).value, fuel - 1, extra);
    }
  }

  /** `a + b` turns are `a` turns followed by `b` more; with `RunIsDrive` this holds for the driver loop. */
  lemma {:induction false} DriveSplit(next: State -> Result<State, Exc>, end: int, st: State, a: nat, b: nat)
    ensures Drive(next, end, st, a + b) ==
      (match Drive(next, end, st, a) case Err(e) => Err(e) case Ok(s) => Drive(next, end, s, b))
    decreases a
  {
    if a > 0 && st.pc < end && next(st).Ok? {
      DriveSplit(next, end, next(st).value, a - 1, b);
      assert a + b - 1 == (a - 1) + b;
    } else if a > 0 && st.pc >= end {
      assert b == 0 || Drive(next, end, st, b) == Ok(st);
    }
  }
}
