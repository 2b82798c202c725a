/**
 * The fetch-decode-execute machine over loaded programs: its state, operand evaluation,
 * name scoping, labels, and the effect of one instruction. `Step` is the reference
 * semantics of one instruction; `Cycle` adds the driver's increment of the program
 * counter and `Run` repeats cycles.
 */
module Vm {
  import opened Wrappers
  import opened Exceptions
  import opened Text
  import opened Values
  import opened Scans
  import opened Loader

  /** A call frame: the called function, the line of the `cal`, and the local names. */
  datatype Frame = Frame(func: string, pc: nat, env: map<string, Value>)

  /** The state of one `for` variable: the list it walks (a heap address) and the next index. */
  datatype LoopState = LoopState(items: nat, pc: nat, index: nat)

  /**
   * The machine state: program counter, call stack, global names, loop states, the heap
   * of containers, and the text printed so far.
   */
  datatype State = State(
    pc: int,
    stack: seq<Frame>,
    globals: map<string, Value>,
    loops: map<string, LoopState>,
    heap: Heap,
    out: string)

  function Initial(): State {
    State(0, [], map[], map[], [], "")
  }

  function Top(st: State): Frame
    requires |st.stack| > 0
  {
    st.stack[|st.stack| - 1]
  }

  /** Token `k` of an instruction; a missing operand is Python's IndexError. */
  function Arg(ts: seq<string>, k: nat): (r: Result<string, Exc>)
    ensures k < |ts| <==> r.Ok?
    ensures r.Ok? ==> r.value == ts[k]
  {
    if k < |ts| then Ok(ts[k]) else Err(IndexError)
  }

  /** The name in a `$name` operand (its first character dropped). */
  function VarOf(tok: string): string {
    if |tok| == 0 then "" else tok[1..]
  }

  // ---------------------------------------------------------------------------------
  // Names

  /** Whether `name` lives in the top call frame: `ret` and `_`-names do inside a call. */
  function Local(st: State, name: string): (r: Result<bool, Exc>)
    ensures r.Ok? <==> (name == "ret" || |name| > 0)
    ensures r.Ok? ==> r.value == ((name == "ret" || name[0] == '_') && |st.stack| > 0)
  {
    if name == "ret" then Ok(|st.stack| > 0)
    else if |name| == 0 then Err(IndexError)
    else Ok(name[0] == '_' && |st.stack| > 0)
  }

  /** Binds `name` to `v`, in the top frame for local names and among the globals otherwise. */
  function Assign(st: State, name: string, v: Value): (r: Result<State, Exc>)
    ensures r.Ok? ==> r.value.pc == st.pc && r.value.loops == st.loops && r.value.heap == st.heap
                      && r.value.out == st.out && |r.value.stack| == |st.stack|
  {
    var local :- Local(st, name);
    if local then
      var top := Top(st);
      Ok(st.(stack := st.stack[|st.stack| - 1 := top.(env := top.env[name := v])]))
    else Ok(st.(globals := st.globals[name := v]))
  }

  /** Reads `name` from where `Assign` would write it; a missing local is a KeyError. */
  function GetVar(st: State, name: string): Result<Value, Exc> {
    var local :- Local(st, name);
    if local then
      if name in Top(st).env then Ok(Top(st).env[name]) else Err(KeyError)
    else Ok(if name in st.globals then st.globals[name] else Nil)
  }

  /** A write followed by a read of the same name returns the value written. */
  lemma AssignThenGet(st: State, name: string, v: Value)
    requires Assign(st, name, v).Ok?
    ensures GetVar(Assign(st, name, v).value, name) == Ok(v)
  {
  }

  /** A write leaves every other name as it was. */
  lemma AssignOther(st: State, name: string, v: Value, other: string)
    requires Assign(st, name, v).Ok? && other != name
    ensures GetVar(Assign(st, name, v).value, other) == GetVar(st, other)
  {
  }

  /** Outside a call every name is global; inside one, `ret` and `_`-names are frame-local. */
  lemma AssignScope(st: State, name: string, v: Value)
    requires |name| > 0
    ensures |st.stack| == 0 ==> Assign(st, name, v) == Ok(st.(globals := st.globals[name := v]))
    ensures |st.stack| > 0 && (name == "ret" || name[0] == '_') ==>
      Assign(st, name, v).value.globals == st.globals
      && Assign(st, name, v).value.stack[..|st.stack| - 1] == st.stack[..|st.stack| - 1]
      && Top(Assign(st, name, v).value).env == Top(st).env[name := v]
  {
  }

  // ---------------------------------------------------------------------------------
  // Operands

  /** A string value written with its quotes loses them when it is read through `$`. */
  function Unquote(v: Value): Value {
    if v.Str? && |v.s| > 2 && v.s[0] == '\'' && v.s[|v.s| - 1] == '\'' then Str(v.s[1..|v.s| - 1])
    else v
  }

  /** The text between the outer quotes of a quoted token. */
  function Inner(tok: string): string {
    if |tok| >= 2 then tok[1..|tok| - 1] else ""
  }

  /**
   * The value of an operand: `$nil` is nil; `$x` is the top frame's `x` if it has one,
   * else the global `x` (nil when unbound); `[]` and `{}` are fresh containers; a quoted
   * token is its text; a numeral its integer; and any other token the token itself.
   * Only the heap of the state changes.
   */
  function Expr(st: State, tok: string): (r: Result<(Value, State), Exc>)
    ensures |tok| > 0 <==> r.Ok?
    ensures r.Ok? ==> r.value.1 == st.(heap := r.value.1.heap) && |r.value.1.heap| >= |st.heap|
                      && r.value.1.heap[..|st.heap|] == st.heap
  {
    if |tok| == 0 then Err(IndexError)
    else if tok[0] == '$' then
      var name := tok[1..];
      if name == "nil" then Ok((Nil, st))
      else
        var v := if |st.stack| > 0 && name in Top(st).env then Top(st).env[name]
                 else if name in st.globals then st.globals[name] else Nil;
        Ok((Unquote(v), st))
    else if tok == "[]" then
      var a := Alloc(st.heap, ListObj([]));
      Ok((a.0, st.(heap := a.1)))
    else if tok == "{}" then
      var a := Alloc(st.heap, MapObj([]));
      Ok((a.0, st.(heap := a.1)))
    else if tok[0] == '\'' && tok[|tok| - 1] == '\'' then Ok((Str(Inner(tok)), st))
    else match ParseInt(tok)
      case Some(n) => Ok((Int(n), st))
      case None => Ok((Str(tok), st))
  }

  /** The operand forms and what they evaluate to. */
  lemma ExprForms(st: State, s: string, i: int)
    requires '\'' !in s
    ensures Expr(st, "$nil") == Ok((Nil, st))
    ensures Expr(st, "[]") == Ok((Ref(|st.heap|), st.(heap := st.heap + [ListObj([])])))
    ensures Expr(st, "{}") == Ok((Ref(|st.heap|), st.(heap := st.heap + [MapObj([])])))
    ensures Expr(st, "'" + s + "'") == Ok((Str(s), st))
    ensures Expr(st, IntToString(i)) == Ok((Int(i), st))
  {
    var q := "'" + s + "'";
    assert q[0] == '\'' && q[|q| - 1] == '\'' && Inner(q) == s;
    IntRoundTrip(i);
    var t := IntToString(i);
    assert t[0] != '$' && t[0] != '\'' && t != "[]" && t != "{}" by {
      if i < 0 { assert t[0] == '-'; } else { assert AllDigits(t); assert IsDigit(t[0]); }
    }
  }

  /** `$x` reads the top frame when the frame binds `x` (a call's `$0`, `$1`, ...), else the globals. */
  lemma ExprVariable(st: State, name: string)
    requires name != "nil"
    ensures Expr(st, "$" + name) == Ok((Unquote(
      if |st.stack| > 0 && name in Top(st).env then Top(st).env[name]
      else if name in st.globals then st.globals[name] else Nil), st))
  {
    assert ("$" + name)[1..] == name;
  }

  // ---------------------------------------------------------------------------------
  // Labels

  /** The label table a jump consults: the called function's inside a call, else 'global'. */
  function Scope(st: State): string {
    if |st.stack| > 0 then Top(st).func else "global"
  }

  /** The message printed for a jump to a label that is not in scope. */
  function BadLabel(pc: int, name: string): string {
    "ERR invalid label in scope " + IntToString(pc + 1) + " " + name + "\n"
  }

  /**
   * A jump: inside a call, to a label of the called function, otherwise to a global one.
   * The counter is set to the line before the label, so that the driver's increment lands
   * on it; an unknown label prints an error and leaves the counter alone.
   */
  function GotoLabel(img: Image, st: State, name: string): (r: Result<State, Exc>)
    ensures Scope(st) !in img.labels ==> r == Err(KeyError)
    ensures Scope(st) in img.labels && name in img.labels[Scope(st)] ==>
      r == Ok(st.(pc := img.labels[Scope(st)][name] as int - 1))
    ensures Scope(st) in img.labels && name !in img.labels[Scope(st)] ==>
      r == Ok(st.(out := st.out + BadLabel(st.pc, name)))
  {
    if Scope(st) !in img.labels then Err(KeyError)
    else
      var table := img.labels[Scope(st)];
      if name in table then Ok(st.(pc := table[name] as int - 1))
      else Ok(st.(out := st.out + BadLabel(st.pc, name)))
  }

  // ---------------------------------------------------------------------------------
  // Instructions

  /**
   * `r` differs from `st` at most in its names and heap: the counter, the call depth, the
   * loop states and the printed text are kept, as for every instruction that only computes.
   */
  predicate Computes(st: State, r: State) {
    r.pc == st.pc && |r.stack| == |st.stack| && r.loops == st.loops && r.out == st.out
  }

  function Binary(st: State, ts: seq<string>): Result<(Value, Value, State), Exc> {
    var t1 :- Arg(ts, 1);
    var e1 :- Expr(st, t1);
    var t2 :- Arg(ts, 2);
    var e2 :- Expr(e1.1, t2);
    Ok((e1.0, e2.0, e2.1))
  }

  /** `jeq`, `jne`, `jlt`, `jgt`: compare two operands, then jump to the label in token 3. */
  function CondJump(img: Image, st: State, ts: seq<string>, cmd: string): Result<State, Exc> {
    var b :- Binary(st, ts);
    var st1 := b.2;
    var taken :-
      if cmd == "jeq" then Compare(st1.heap, b.0, b.1, RecursionLimit)
      else if cmd == "jne" then (var c :- Compare(st1.heap, b.0, b.1, RecursionLimit); Ok(!c))
      else if cmd == "jlt" then Lt(st1.heap, b.0, b.1)
      else (var x :- ToInt(b.0); var y :- ToInt(b.1); Ok(x > y));
    if taken then
      var lbl :- Arg(ts, 3);
      GotoLabel(img, st1, lbl)
    else Ok(st1)
  }

  /** `ife` / `ifg`: when the condition fails, skip to the matching `els` or `fin`. */
  function If(img: Image, st: State, ts: seq<string>, cmd: string): Result<State, Exc>
    requires 0 <= st.pc < |img.program|
  {
    var b :- Binary(st, ts);
    var st1 := b.2;
    var holds :-
      if cmd == "ife" then Compare(st1.heap, b.0, b.1, RecursionLimit)
      else (var le :- Le(st1.heap, b.0, b.1); Ok(!le));
    if holds then Ok(st1)
    else
      var j :- GotoIfFalse(img.program, st.pc);
      Ok(st1.(pc := j))
  }

  /** `add`, `sub`, `mul`, `div`, `mod`: token 1 names the result. */
  function Arith(st: State, ts: seq<string>, cmd: string): (r: Result<State, Exc>)
    ensures r.Ok? ==> Computes(st, r.value)
  {
    var name :- Arg(ts, 1);
    var t2 :- Arg(ts, 2);
    var e1 :- Expr(st, t2);
    var t3 :- Arg(ts, 3);
    var e2 :- Expr(e1.1, t3);
    var st1 := e2.1;
    var a, b := e1.0, e2.0;
    if cmd == "add" then
      var r :- Add(st1.heap, a, b);
      Assign(st1.(heap := r.1), name, r.0)
    else
      var v :-
        if cmd == "sub" then Sub(a, b)
        else if cmd == "mul" then Mul(a, b)
        else if cmd == "mod" then Mod(a, b)
        else Div(a, b);
      Assign(st1, name, v)
  }

  /** `let`, `int`, `str`, `typ`: bind token 1 to a value computed from token 2. */
  function Convert(st: State, ts: seq<string>, cmd: string): (r: Result<State, Exc>)
    ensures r.Ok? ==> Computes(st, r.value)
  {
    var t2 :- Arg(ts, 2);
    var e :- Expr(st, t2);
    var name := ts[1];
    var st1 := e.1;
    var v := e.0;
    var r :-
      if cmd == "let" then Ok(v)
      else if cmd == "int" then Ok(if IsNumeric(v) then Int(ToInt(v).value) else Nil)
      else if cmd == "str" then (var s :- ToStr(v); Ok(Str(s)))
      else Ok(Str(TypeName(st1.heap, v)));
    Assign(st1, name, r)
  }

  /** `prt`: the text of an operand (nil as `(nil)`), then the end text (a newline by default). */
  function Print(st: State, ts: seq<string>): (r: Result<State, Exc>)
    ensures r.Ok? ==> r.value == st.(heap := r.value.heap, out := r.value.out)
    ensures r.Ok? ==> |r.value.out| >= |st.out| && r.value.out[..|st.out|] == st.out
  {
    var t1 :- Arg(ts, 1);
    var e1 :- Expr(st, t1);
    var e2 :- if |ts| > 2 then Expr(e1.1, ts[2]) else Ok((Str("\n"), e1.1));
    var text :- ToStr(if e1.0.Nil? then Str("(nil)") else e1.0);
    var end :- if e2.0.Nil? then Ok("\n") else if e2.0.Str? then Ok(e2.0.s) else Err(TypeError);
    Ok(e2.1.(out := e2.1.out + text + end))
  }

  /** `psh`: appends each operand to a list in place; a string is rebound to the concatenation. */
  function PushEach(st: State, name: string, toks: seq<string>, cur: Value): (r: Result<State, Exc>)
    ensures r.Ok? ==> r.value.pc == st.pc
    decreases |toks|
  {
    if |toks| == 0 then Ok(st)
    else if cur.Str? then
      var e :- Expr(st, toks[0]);
      if !e.0.Str? then Err(TypeError)
      else
        var st1 :- Assign(e.1, name, Str(cur.s + e.0.s));
        var cur1 :- GetVar(st1, name);
        PushEach(st1, name, toks[1..], cur1)
    else if IsList(st.heap, cur) then
      var e :- Expr(st, toks[0]);
      var h := e.1.heap;
      PushEach(e.1.(heap := h[cur.addr := ListObj(h[cur.addr].items + [e.0])]), name, toks[1..], cur)
    else if Dangling(st.heap, cur) then Err(NotModelled)
    else Err(AttributeError)
  }

  function Push(st: State, ts: seq<string>): (r: Result<State, Exc>)
    ensures r.Ok? ==> r.value.pc == st.pc
  {
    var t1 :- Arg(ts, 1);
    var name := VarOf(t1);
    var cur :- GetVar(st, name);
    PushEach(st, name, ts[2..], cur)
  }

  /** Python truthiness of a container or scalar. */
  predicate Falsy(h: Heap, v: Value) {
    match v
    case Nil => true
    case Int(n) => n == 0
    case Str(s) => s == ""
    case Ref(a) => a < |h| && (match h[a] case ListObj(xs) => xs == [] case MapObj(es) => es == [])
  }

  /** `pop`: takes the last element (or character) of a container into token 2. */
  function Pop(st: State, ts: seq<string>): (r: Result<State, Exc>)
    ensures r.Ok? ==> Computes(st, r.value)
  {
    var t1 :- Arg(ts, 1);
    var name := VarOf(t1);
    var cur :- GetVar(st, name);
    var target :- Arg(ts, 2);
    if cur.Str? then
      if |cur.s| == 0 then Assign(st, target, Str(""))
      else
        var st1 :- Assign(st, target, Str([cur.s[|cur.s| - 1]]));
        Assign(st1, name, Str(cur.s[..|cur.s| - 1]))
    else if Falsy(st.heap, cur) then Assign(st, target, Nil)
    else if IsList(st.heap, cur) then
      var xs := st.heap[cur.addr].items;
      Assign(st.(heap := st.heap[cur.addr := ListObj(xs[..|xs| - 1])]), target, xs[|xs| - 1])
    else if IsMap(st.heap, cur) then Err(TypeError)
    else if cur.Int? then Err(AttributeError)
    else Err(NotModelled)
  }

  /** The Python class name `pol` reports for an operand it cannot take from. */
  function ClassName(h: Heap, v: Value): string {
    match v
    case Nil => "NoneType"
    case Int(_) => "int"
    case Str(_) => "str"
    case Ref(a) => if a < |h| && h[a].ListObj? then "list" else "dict"
  }

  /** `pol`: takes the first element (or character) into token 2 and rebinds the rest. */
  function Poll(st: State, ts: seq<string>): (r: Result<State, Exc>)
    ensures r.Ok? ==> r.value.pc == st.pc && |r.value.stack| == |st.stack| && r.value.loops == st.loops
    ensures r.Ok? ==> |r.value.out| >= |st.out| && r.value.out[..|st.out|] == st.out
  {
    var t1 :- Arg(ts, 1);
    var name := VarOf(t1);
    var cur :- GetVar(st, name);
    var target :- Arg(ts, 2);
    if cur.Str? then
      if |cur.s| == 0 then Assign(st, target, Str(""))
      else
        var st1 :- Assign(st, target, Str([cur.s[0]]));
        Assign(st1, name, Str(cur.s[1..]))
    else if IsList(st.heap, cur) then
      var xs := st.heap[cur.addr].items;
      if |xs| == 0 then Assign(st, target, Nil)
      else
        var st1 :- Assign(st, target, xs[0]);
        var a := Alloc(st1.heap, ListObj(xs[1..]));
        Assign(st1.(heap := a.1), name, a.0)
    else if Dangling(st.heap, cur) then Err(NotModelled)
    else
      Ok(st.(out := st.out + "ERR cannot pol data type:  <class '" + ClassName(st.heap, cur)
                    + "'>  line: " + IntToString(st.pc + 1) + "\n"))
  }

  /** `len`: the length of a string, list or map into token 2. */
  function Length(st: State, ts: seq<string>): (r: Result<State, Exc>)
    ensures r.Ok? ==> Computes(st, r.value) && r.value.heap == st.heap
  {
    var t1 :- Arg(ts, 1);
    var cur :- GetVar(st, VarOf(t1));
    var target :- Arg(ts, 2);
    var n :- Len(st.heap, cur);
    Assign(st, target, Int(n))
  }

  /** The text `s` with the character at index `k` replaced by `v` (appended past the end). */
  function Splice(s: string, k: nat, v: string): (r: string)
    ensures k < |s| && |v| == 1 ==>
      (|r| == |s| && r[k] == v[0] && forall i :: 0 <= i < |s| && i != k ==> r[i] == s[i])
  {
    var lo := if k < |s| then k else |s|;
    var hi := if k + 1 < |s| then k + 1 else |s|;
    s[..lo] + v + s[hi..]
  }

  /** `put`: sets an element of a list or map in place; a string is rebound with one character replaced. */
  function Put(st: State, ts: seq<string>): (r: Result<State, Exc>)
    ensures r.Ok? ==> Computes(st, r.value)
  {
    var t1 :- Arg(ts, 1);
    var name := VarOf(t1);
    var cur :- GetVar(st, name);
    var t2 :- Arg(ts, 2);
    var ek :- Expr(st, t2);
    var t3 :- Arg(ts, 3);
    var ev :- Expr(ek.1, t3);
    var st1 := ev.1;
    var k, v := ek.0, ev.0;
    if cur.Str? then
      if !k.Int? then Err(TypeError)
      else if k.n < 0 then Err(NotModelled)
      else if !v.Str? then Err(TypeError)
      else Assign(st1, name, Str(Splice(cur.s, k.n, v.s)))
    else if IsList(st1.heap, cur) then
      var xs := st1.heap[cur.addr].items;
      if !k.Int? then Err(TypeError)
      else if k.n < 0 then Err(NotModelled)
      else if k.n >= |xs| then Err(IndexError)
      else Ok(st1.(heap := st1.heap[cur.addr := ListObj(xs[k.n := v])]))
    else if IsMap(st1.heap, cur) then
      if !Hashable(k) then Err(TypeError)
      else Ok(st1.(heap := st1.heap[cur.addr := MapObj(MapPut(st1.heap[cur.addr].entries, k, v))]))
    else if Dangling(st1.heap, cur) then Err(NotModelled)
    else Err(TypeError)
  }

  /** `get`: an element into token 3; past the end of a list nil, of a string ''; a missing map key nil. */
  function Get(st: State, ts: seq<string>): (r: Result<State, Exc>)
    ensures r.Ok? ==> Computes(st, r.value)
  {
    var t1 :- Arg(ts, 1);
    var cur :- GetVar(st, VarOf(t1));
    var t2 :- Arg(ts, 2);
    var ek :- Expr(st, t2);
    var st1 := ek.1;
    var k := ek.0;
    var v :-
      if IsMap(st1.heap, cur) then
        if Hashable(k) then Ok(Lookup(st1.heap[cur.addr].entries, k)) else Err(TypeError)
      else
        var n :- Len(st1.heap, cur);
        if !k.Int? then Err(TypeError)
        else if k.n >= n then Ok(if cur.Str? then Str("") else Nil)
        else if k.n < 0 then Err(NotModelled)
        else if cur.Str? then Ok(Str([cur.s[k.n]]))
        else Ok(st1.heap[cur.addr].items[k.n]);
    var target :- Arg(ts, 3);
    Assign(st1, target, v)
  }

  /** `key`: a fresh list of a map's keys, in insertion order, into token 2. */
  function Keys(st: State, ts: seq<string>): (r: Result<State, Exc>)
    ensures r.Ok? ==> Computes(st, r.value)
  {
    var t1 :- Arg(ts, 1);
    var cur :- GetVar(st, VarOf(t1));
    var target :- Arg(ts, 2);
    if IsMap(st.heap, cur) then
      var a := Alloc(st.heap, ListObj(KeysOf(st.heap[cur.addr].entries)));
      Assign(st.(heap := a.1), target, a.0)
    else if Dangling(st.heap, cur) then Err(NotModelled)
    else Err(AttributeError)
  }

  /** `del`: removes a key from a map, or an index from a list, in place. */
  function Delete(st: State, ts: seq<string>): (r: Result<State, Exc>)
    ensures r.Ok? ==> r.value == st.(heap := r.value.heap) && |r.value.heap| >= |st.heap|
  {
    var t1 :- Arg(ts, 1);
    var t2 :- Arg(ts, 2);
    var ek :- Expr(st, t2);
    var st1 := ek.1;
    var k := ek.0;
    var cur :- GetVar(st1, VarOf(t1));
    if IsMap(st1.heap, cur) then
      var es := st1.heap[cur.addr].entries;
      if !Hashable(k) then Err(TypeError)
      else match Find(es, k)
        case None => Err(KeyError)
        case Some(i) => Ok(st1.(heap := st1.heap[cur.addr := MapObj(RemoveAt(es, i))]))
    else if IsList(st1.heap, cur) then
      var xs := st1.heap[cur.addr].items;
      if !k.Int? then Err(TypeError)
      else if k.n < 0 then Err(NotModelled)
      else if k.n >= |xs| then Err(IndexError)
      else Ok(st1.(heap := st1.heap[cur.addr := ListObj(RemoveAt(xs, k.n))]))
    else if Dangling(st1.heap, cur) then Err(NotModelled)
    else Err(TypeError)
  }

  /** The arguments of a call, evaluated in order and bound to the names "0", "1", ... */
  function BindArgs(st: State, toks: seq<string>, i: nat, env: map<string, Value>): (r: Result<(map<string, Value>, State), Exc>)
    ensures r.Ok? ==> r.value.1.pc == st.pc && r.value.1.stack == st.stack
    decreases |toks|
  {
    if |toks| == 0 then Ok((env, st))
    else
      var e :- Expr(st, toks[0]);
      BindArgs(e.1, toks[1..], i + 1, env[IntToString(i) := e.0])
  }

  /** `cal f a...`: pushes a frame for `f` that remembers this line, then jumps to `def f`. */
  function Call(img: Image, st: State, ts: seq<string>): (r: Result<State, Exc>)
    requires st.pc >= 0
    ensures r.Ok? ==> r.value.pc >= 0
  {
    var f :- Arg(ts, 1);
    var b :- BindArgs(st, ts[2..], 0, map[]);
    var st1 := b.1.(stack := b.1.stack + [Frame(f, st.pc, b.0)]);
    if f in img.funcs then Ok(st1.(pc := img.funcs[f])) else Err(KeyError)
  }

  /** `ret [v]` / `end`: pops the frame and resumes at its `cal` line; `ret` binds `ret`. */
  function Return(st: State, ts: seq<string>, bind: bool): (r: Result<State, Exc>)
    ensures r.Ok? ==> r.value.pc >= 0
  {
    var e :- if |ts| > 1 then Expr(st, ts[1]) else Ok((Nil, st));
    var st1 := e.1;
    if |st1.stack| == 0 then Err(IndexError)
    else
      var frame := Top(st1);
      var st2 := st1.(stack := st1.stack[..|st1.stack| - 1]);
      var st3 :- if bind then Assign(st2, "ret", e.0) else Ok(st2);
      Ok(st3.(pc := frame.pc))
  }

  /** The integers 0 .. n-1. */
  function Range(n: int): (r: seq<Value>)
    ensures |r| == (if n > 0 then n else 0)
    ensures forall i :: 0 <= i < |r| ==> r[i] == Int(i)
    decreases if n > 0 then n else 0
  {
    if n <= 0 then [] else Range(n - 1) + [Int(n - 1)]
  }

  /** The characters of a string, each as a one-character string. */
  function Chars(s: string): (r: seq<Value>)
    ensures |r| == |s| && forall i :: 0 <= i < |s| ==> r[i] == Str([s[i]])
  {
    if |s| == 0 then [] else [Str([s[0]])] + Chars(s[1..])
  }

  /**
   * What a `for` walks: 0..N-1 for an integer N, a list itself (shared, so changes made
   * during the loop are seen), the characters of a string, the keys of a map, else nothing.
   */
  function LoopItems(h: Heap, rg: Value): (r: Result<(nat, Heap), Exc>)
    ensures r.Ok? ==> IsList(r.value.1, Ref(r.value.0)) && |r.value.1| >= |h| && r.value.1[..|h|] == h
    ensures IsList(h, rg) ==> r == Ok((rg.addr, h))
  {
    if IsList(h, rg) then Ok((rg.addr, h))
    else if Dangling(h, rg) then Err(NotModelled)
    else
      var items :=
        match rg
        case Int(n) => Range(n)
        case Str(s) => Chars(s)
        case Ref(a) => KeysOf(h[a].entries)
        case Nil => [];
      var a := Alloc(h, ListObj(items));
      Ok((a.0.addr, a.1))
  }

  /**
   * `for v r`: on the first visit records the items of `r` for `v`; each visit binds the
   * next item to `v`; once the items are exhausted the loop state is dropped and the
   * counter moves to the matching `nxt`.
   */
  function For(img: Image, st: State, ts: seq<string>): (r: Result<State, Exc>)
    requires 0 <= st.pc < |img.program|
    ensures r.Ok? ==> r.value.pc >= 0
  {
    var name :- Arg(ts, 1);
    var t2 :- Arg(ts, 2);
    var e :- Expr(st, t2);
    var st1 := e.1;
    var st2 :-
      if name in st1.loops then Ok(st1)
      else
        var it :- LoopItems(st1.heap, e.0);
        Ok(st1.(heap := it.1, loops := st1.loops[name := LoopState(it.0, st.pc, 0)]));
    ForVisit(img, st2, name)
  }

  /** One visit of the `for` at `st.pc` whose loop state for `name` is recorded. */
  function ForVisit(img: Image, st: State, name: string): (r: Result<State, Exc>)
    requires 0 <= st.pc < |img.program| && name in st.loops
    ensures r.Ok? ==> r.value.pc >= 0
  {
    var ls := st.loops[name];
    if !IsList(st.heap, Ref(ls.items)) then Err(NotModelled)
    else
      var items := st.heap[ls.items].items;
      if ls.index >= |items| then
        var j :- GotoLoopEnd(img.program, st.pc);
        Ok(st.(loops := st.loops - {name}, pc := j))
      else
        var st3 :- Assign(st, name, items[ls.index]);
        Ok(st3.(loops := st3.loops[name := ls.(index := ls.index + 1)]))
  }

  /**
   * One instruction: the state after executing line `pc`, before the driver's increment.
   * Empty lines, label lines and unknown opcodes do nothing.
   */
  function Step(img: Image, st: State): (r: Result<State, Exc>)
    requires 0 <= st.pc < |img.program|
    ensures r.Ok? ==> r.value.pc >= -1
  {
    var ts := img.program[st.pc];
    if |ts| == 0 then Ok(st)
    else if |ts[0]| == 0 then Err(IndexError)
    else if ts[0][0] == '#' then Ok(st)
    else
      var cmd := ts[0];
      if cmd in {"let", "int", "str", "typ"} then Convert(st, ts, cmd)
      else if cmd == "prt" then Print(st, ts)
      else if cmd in {"inp", "prs", "rnd", "tim", "slp"} then Err(NotModelled)
      else if cmd == "jmp" then (var lbl :- Arg(ts, 1); GotoLabel(img, st, lbl))
      else if cmd in {"jeq", "jne", "jlt", "jgt"} then CondJump(img, st, ts, cmd)
      else if cmd in {"ife", "ifg"} then If(img, st, ts, cmd)
      else if cmd == "els" then (var j :- GotoIfEnd(img.program, st.pc); Ok(st.(pc := j)))
      else if cmd in {"add", "sub", "mul", "div", "mod"} then Arith(st, ts, cmd)
      else if cmd == "psh" then Push(st, ts)
      else if cmd == "pop" then Pop(st, ts)
      else if cmd == "pol" then Poll(st, ts)
      else if cmd == "len" then Length(st, ts)
      else if cmd == "put" then Put(st, ts)
      else if cmd == "get" then Get(st, ts)
      else if cmd == "key" then Keys(st, ts)
      else if cmd == "del" then Delete(st, ts)
      else if cmd == "def" then Ok(st.(pc := GotoEnd(img.program, st.pc, "end")))
      else if cmd == "ret" || cmd == "end" then Return(st, ts, cmd == "ret")
      else if cmd == "cal" then Call(img, st, ts)
      else if cmd == "for" then For(img, st, ts)
      else if cmd == "nxt" then Ok(st.(pc := BackToLoopHead(img.program, st.pc - 1, 0)))
      else Ok(st)
  }

  /** One turn of the driver loop: execute line `pc`, then move to the next line. */
  function Cycle(img: Image, st: State): (r: Result<State, Exc>)
    requires 0 <= st.pc < |img.program|
    ensures r.Ok? ==> r.value.pc >= 0
  {
    var s :- Step(img, st);
    Ok(s.(pc := s.pc + 1))
  }

  /**
   * The driver loop for at most `fuel` cycles: it stops when the counter leaves the
   * program, and a Python exception ends the run.
   */
  function Run(img: Image, st: State, fuel: nat): (r: Result<State, Exc>)
    requires st.pc >= 0
    ensures r.Ok? ==> r.value.pc >= 0 && (fuel > 0 || r.value == st)
    decreases fuel
  {
    if st.pc >= |img.program| || fuel == 0 then Ok(st)
    else
      var s :- Cycle(img, st);
      Run(img, s, fuel - 1)
  }
}
