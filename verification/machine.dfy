/**
 * The evaluator as the machine that runs a loaded program: an object whose fields are the
 * program counter, the call stack, the globals, the loop states, the heap of containers
 * and the printed text, updated in place instruction by instruction. Each method is
 * proved to leave the object in the state the reference semantics of `Vm` computes, or
 * to report the exception that semantics raises.
 */
module Interp {
  import opened Wrappers
  import opened Exceptions
  import opened Text
  import opened Values
  import opened Scans
  import opened Loader
  import opened Vm
  import VmLaws

  /** The state `st` with its counter moved to the line a scan found, or the scan's error. */
  function MoveTo(st: Vm.State, r: Result<nat, Exc>): Result<Vm.State, Exc> {
    match r
    case Ok(j) => Ok(st.(pc := j))
    case Err(e) => Err(e)
  }

  /**
   * Line `st.pc` is an instruction with opcode `cmd`. The lemmas after it pick out the branch
   * of `Step` each opcode takes; they are dispatch facts for the methods below, and what each
   * instruction does is stated in `VmLaws`.
   */
  predicate Instr(img: Image, st: Vm.State, cmd: string)
    requires 0 <= st.pc < |img.program|
  {
    var ts := img.program[st.pc];
    |ts| > 0 && ts[0] == cmd && |cmd| > 0 && cmd[0] != '#'
  }

  lemma StepJump(img: Image, st: Vm.State)
    requires 0 <= st.pc < |img.program| && Instr(img, st, "jmp")
    ensures var ts := img.program[st.pc];
      Step(img, st) == (if |ts| < 2 then Err(IndexError) else Vm.GotoLabel(img, st, ts[1]))
  {
  }

  lemma StepCondJump(img: Image, st: Vm.State, cmd: string)
    requires 0 <= st.pc < |img.program| && Instr(img, st, cmd) && cmd in {"jeq", "jne", "jlt", "jgt"}
    ensures Step(img, st) == Vm.CondJump(img, st, img.program[st.pc], cmd)
  {
  }

  lemma StepIf(img: Image, st: Vm.State, cmd: string)
    requires 0 <= st.pc < |img.program| && Instr(img, st, cmd) && cmd in {"ife", "ifg"}
    ensures Step(img, st) == Vm.If(img, st, img.program[st.pc], cmd)
  {
  }

  lemma StepEls(img: Image, st: Vm.State)
    requires 0 <= st.pc < |img.program| && Instr(img, st, "els")
    ensures Step(img, st) == MoveTo(st, Scans.GotoIfEnd(img.program, st.pc))
  {
  }

  lemma StepPush(img: Image, st: Vm.State)
    requires 0 <= st.pc < |img.program| && Instr(img, st, "psh")
    ensures Step(img, st) == Vm.Push(st, img.program[st.pc])
  {
  }

  lemma StepDef(img: Image, st: Vm.State)
    requires 0 <= st.pc < |img.program| && Instr(img, st, "def")
    ensures Step(img, st) == Ok(st.(pc := Scans.GotoEnd(img.program, st.pc, "end")))
  {
    VmLaws.LateOpcode("def");
  }

  lemma StepReturn(img: Image, st: Vm.State, cmd: string)
    requires 0 <= st.pc < |img.program| && Instr(img, st, cmd) && (cmd == "ret" || cmd == "end")
    ensures Step(img, st) == Vm.Return(st, img.program[st.pc], cmd == "ret")
  {
    VmLaws.LateOpcode(cmd);
  }

  lemma StepCall(img: Image, st: Vm.State)
    requires 0 <= st.pc < |img.program| && Instr(img, st, "cal")
    ensures Step(img, st) == Vm.Call(img, st, img.program[st.pc])
  {
    VmLaws.LateOpcode("cal");
  }

  lemma StepNext(img: Image, st: Vm.State)
    requires 0 <= st.pc < |img.program| && Instr(img, st, "nxt")
    ensures Step(img, st) == Ok(st.(pc := Scans.BackToLoopHead(img.program, st.pc - 1, 0)))
  {
    VmLaws.LateOpcode("nxt");
  }

  class Evaluator {
    var pc: int
    var stack: seq<Frame>
    var globals: map<string, Value>
    var loops: map<string, LoopState>
    var heap: Heap
    var out: string

    /** The machine state the fields hold. */
    function Snapshot(): Vm.State
      reads this
    {
      Vm.State(pc, stack, globals, loops, heap, out)
    }

    /** The fields agree with a successful outcome `r`, or `err` is the exception of a failed one. */
    predicate Outcome(r: Result<Vm.State, Exc>, err: Option<Exc>)
      reads this
    {
      (r.Ok? ==> err == None && Snapshot() == r.value) && (r.Err? ==> err == Some(r.error))
    }

    /** A fresh machine: counter at line 0, no frames, no names, no loops, nothing printed. */
    constructor()
      ensures Snapshot() == Initial()
    {
      pc, stack, globals, loops, heap, out := 0, [], map[], map[], [], "";
    }

    /** Overwrites every field with `st`. */
    method Load(st: Vm.State)
      modifies this
      ensures Snapshot() == st
    {
      pc, stack, globals, loops, heap, out := st.pc, st.stack, st.globals, st.loops, st.heap, st.out;
    }

    /** Takes on a successful outcome, or reports the exception of a failed one. */
    method Apply(r: Result<Vm.State, Exc>) returns (err: Option<Exc>)
      modifies this
      ensures Outcome(r, err)
    {
      match r
      case Ok(st) => Load(st); err := None;
      case Err(e) => err := Some(e);
    }

    // -------------------------------------------------------------------------------
    // Names

    /** Binds `name` in the top frame when it is `ret` or `_`-prefixed inside a call, else globally. */
    method Assign(name: string, v: Value) returns (err: Option<Exc>)
      modifies this
      ensures Outcome(Vm.Assign(old(Snapshot()), name, v), err)
    {
      if name != "ret" && |name| == 0 {
        return Some(IndexError);
      }
      if (name == "ret" || name[0] == '_') && |stack| > 0 {
        var top := stack[|stack| - 1];
        stack := stack[|stack| - 1 := top.(env := top.env[name := v])];
      } else {
        globals := globals[name := v];
      }
      return None;
    }

    /** Reads `name` from where `Assign` would write it. */
    method GetVarVal(name: string) returns (r: Result<Value, Exc>)
      ensures r == Vm.GetVar(Snapshot(), name)
      ensures r.Ok? && |stack| == 0 ==> r.value == (if name in globals then globals[name] else Nil)
    {
      if name != "ret" && |name| == 0 {
        return Err(IndexError);
      }
      if (name == "ret" || name[0] == '_') && |stack| > 0 {
        var env := stack[|stack| - 1].env;
        if name !in env {
          return Err(KeyError);
        }
        return Ok(env[name]);
      }
      return Ok(if name in globals then globals[name] else Nil);
    }

    /** Evaluates an operand; only the heap changes (a `[]` or `{}` allocates). */
    method Eval1(tok: string) returns (r: Result<Value, Exc>)
      modifies this
      ensures var e := Expr(old(Snapshot()), tok);
        && (e.Ok? ==> r == Ok(e.value.0) && Snapshot() == e.value.1)
        && (e.Err? ==> r == Err(e.error) && Snapshot() == old(Snapshot()))
    {
      var e := Expr(Snapshot(), tok);
      if e.Err? {
        return Err(e.error);
      }
      heap := e.value.1.heap;
      return Ok(e.value.0);
    }

    // -------------------------------------------------------------------------------
    // Jumps and scans

    /** `jmp`: moves to the line before the label in scope, or prints an error. */
    method GotoLabel(img: Image, name: string) returns (err: Option<Exc>)
      modifies this
      ensures Outcome(Vm.GotoLabel(img, old(Snapshot()), name), err)
    {
      var scope := if |stack| > 0 then stack[|stack| - 1].func else "global";
      if scope !in img.labels {
        return Some(KeyError);
      }
      var table := img.labels[scope];
      if name in table {
        pc := table[name] as int - 1;
      } else {
        out := out + BadLabel(pc, name);
      }
      return None;
    }

    /**
     * The forward scan: moves the counter to the first line from here that ends a block of
     * kind `n` at depth 0, counting the blocks of that kind opened and closed on the way.
     */
    method ScanForward(prog: Program, n: Nest) returns (err: Option<Exc>)
      requires 0 <= pc <= |prog|
      modifies this
      ensures Outcome(MoveTo(old(Snapshot()), Forward(prog, n, old(pc), 0)), err)
    {
      ghost var st0 := Snapshot();
      var depth: nat := 0;
      while pc < |prog|
        invariant st0.pc <= pc <= |prog|
        invariant Forward(prog, n, pc, depth) == Forward(prog, n, st0.pc, 0)
        invariant Snapshot() == st0.(pc := pc)
        decreases |prog| - pc
      {
        var op := Head(prog, pc);
        if Ends(n, op) && depth == 0 {
          return None;
        }
        if Opens(n, op) {
          depth := depth + 1;
        } else if Closes(n, op) {
          depth := depth - 1;
        }
        pc := pc + 1;
      }
      if n.LoopNest? {
        return None;
      }
      // the if-scans read the line past the end
      return Some(IndexError);
    }

    /** A failed `ife`/`ifg`: to the matching `els` or `fin`. */
    method GotoIfFalse(prog: Program) returns (err: Option<Exc>)
      requires 0 <= pc < |prog|
      modifies this
      ensures Outcome(MoveTo(old(Snapshot()), Scans.GotoIfFalse(prog, old(pc))), err)
    {
      pc := pc + 1;
      err := ScanForward(prog, IfNest(true));
    }

    /** An `els` reached in sequence: to its matching `fin`. */
    method GotoIfEnd(prog: Program) returns (err: Option<Exc>)
      requires 0 <= pc < |prog|
      modifies this
      ensures Outcome(MoveTo(old(Snapshot()), Scans.GotoIfEnd(prog, old(pc))), err)
    {
      err := ScanForward(prog, IfNest(false));
    }

    /** An exhausted `for`: to its matching `nxt` (or the end of the program). */
    method GotoLoopEnd(prog: Program)
      requires 0 <= pc < |prog|
      modifies this
      ensures Snapshot() == old(Snapshot()).(pc := Scans.GotoLoopEnd(prog, old(pc)).value)
    {
      pc := pc + 1;
      var err := ScanForward(prog, LoopNest);
    }

    /** A `def` reached in sequence: to the next `end` (or the end of the program). */
    method GotoEnd(prog: Program)
      requires 0 <= pc < |prog|
      modifies this
      ensures Snapshot() == old(Snapshot()).(pc := Scans.GotoEnd(prog, old(pc), "end"))
    {
      ghost var st0 := Snapshot();
      while pc < |prog| && Head(prog, pc) != "end"
        invariant st0.pc <= pc <= |prog|
        invariant Scans.GotoEnd(prog, pc, "end") == Scans.GotoEnd(prog, st0.pc, "end")
        invariant Snapshot() == st0.(pc := pc)
        decreases |prog| - pc
      {
        pc := pc + 1;
      }
    }

    /**
     * `nxt`: back to the line before its `for`, skipping inner loops; line 0 is examined too.
     * The scan walks a local line index, and only the line it stops at is stored in pc.
     */
    method BackToLoopHead(prog: Program)
      requires 0 <= pc < |prog|
      modifies this
      ensures Snapshot() == old(Snapshot()).(pc := Scans.BackToLoopHead(prog, old(pc) - 1, 0))
    {
      var line := pc - 1;
      var depth: nat := 0;
      while line >= 0
        invariant -1 <= line < |prog|
        invariant Scans.BackToLoopHead(prog, line, depth) == Scans.BackToLoopHead(prog, pc - 1, 0)
        decreases line + 1
      {
        var op := Head(prog, line);
        if op == "for" {
          if depth == 0 {
            pc := line - 1;
            return;
          }
          depth := depth - 1;
        } else if op == "nxt" {
          depth := depth + 1;
        }
        line := line - 1;
      }
      pc := line;
    }

    // -------------------------------------------------------------------------------
    // Instructions with their own control flow

    /** `jeq`/`jne`/`jlt`/`jgt`: evaluate both operands, compare, and jump when it holds. */
    method CondJump(img: Image, ts: seq<string>, cmd: string) returns (err: Option<Exc>)
      modifies this
      ensures Outcome(Vm.CondJump(img, old(Snapshot()), ts, cmd), err)
    {
      var b := Binary(Snapshot(), ts);
      if b.Err? {
        return Some(b.error);
      }
      heap := b.value.2.heap;
      var taken :=
        if cmd == "jeq" then Compare(heap, b.value.0, b.value.1, RecursionLimit)
        else if cmd == "jne" then (var c :- Compare(heap, b.value.0, b.value.1, RecursionLimit); Ok(!c))
        else if cmd == "jlt" then Lt(heap, b.value.0, b.value.1)
        else (var x :- ToInt(b.value.0); var y :- ToInt(b.value.1); Ok(x > y));
      if taken.Err? {
        return Some(taken.error);
      }
      if !taken.value {
        return None;
      }
      if |ts| < 4 {
        return Some(IndexError);
      }
      err := GotoLabel(img, ts[3]);
    }

    /** `ife`/`ifg`: evaluate both operands; when the condition fails, skip the block. */
    method If(img: Image, ts: seq<string>, cmd: string) returns (err: Option<Exc>)
      requires 0 <= pc < |img.program|
      modifies this
      ensures Outcome(Vm.If(img, old(Snapshot()), ts, cmd), err)
    {
      var b := Binary(Snapshot(), ts);
      if b.Err? {
        return Some(b.error);
      }
      heap := b.value.2.heap;
      var holds :=
        if cmd == "ife" then Compare(heap, b.value.0, b.value.1, RecursionLimit)
        else (var le :- Le(heap, b.value.0, b.value.1); Ok(!le));
      if holds.Err? {
        return Some(holds.error);
      }
      if holds.value {
        return None;
      }
      err := GotoIfFalse(img.program);
    }

    /** `psh`: each operand in turn appended to the list in place, or concatenated to the string. */
    method Push(ts: seq<string>) returns (err: Option<Exc>)
      modifies this
      ensures Outcome(Vm.Push(old(Snapshot()), ts), err)
    {
      if |ts| < 2 {
        return Some(IndexError);
      }
      var name := VarOf(ts[1]);
      var got := GetVarVal(name);
      if got.Err? {
        return Some(got.error);
      }
      var cur := got.value;
      var vals := ts[2..];
      ghost var goal := Vm.Push(old(Snapshot()), ts);
      assert goal == PushEach(Snapshot(), name, vals, cur);
      var i := 0;
      while i < |vals|
        invariant 0 <= i <= |vals|
        invariant PushEach(Snapshot(), name, vals[i..], cur) == goal
        invariant pc == old(pc)
      {
        assert vals[i..][0] == vals[i] && vals[i..][1..] == vals[i + 1..];
        if cur.Str? {
          var v := Eval1(vals[i]);
          if v.Err? {
            return Some(v.error);
          }
          if !v.value.Str? {
            return Some(TypeError);
          }
          err := Assign(name, Str(cur.s + v.value.s));
          if err.Some? {
            return;
          }
          got := GetVarVal(name);
          if got.Err? {
            return Some(got.error);
          }
          cur := got.value;
        } else if IsList(heap, cur) {
          var v := Eval1(vals[i]);
          if v.Err? {
            return Some(v.error);
          }
          heap := heap[cur.addr := ListObj(heap[cur.addr].items + [v.value])];
        } else if Dangling(heap, cur) {
          return Some(NotModelled);
        } else {
          return Some(AttributeError);
        }
        i := i + 1;
      }
      return None;
    }

    /** `cal f a...`: evaluates the arguments into "0", "1", ..., pushes a frame, jumps to `def f`. */
    method Call(img: Image, ts: seq<string>) returns (err: Option<Exc>)
      requires pc >= 0
      modifies this
      ensures Outcome(Vm.Call(img, old(Snapshot()), ts), err)
    {
      if |ts| < 2 {
        return Some(IndexError);
      }
      var f := ts[1];
      var args := ts[2..];
      ghost var goal := BindArgs(Snapshot(), args, 0, map[]);
      var env: map<string, Value> := map[];
      var i := 0;
      while i < |args|
        invariant 0 <= i <= |args|
        invariant BindArgs(Snapshot(), args[i..], i, env) == goal
        invariant pc == old(pc)
      {
        assert args[i..][0] == args[i] && args[i..][1..] == args[i + 1..];
        var v := Eval1(args[i]);
        if v.Err? {
          return Some(v.error);
        }
        env := env[IntToString(i) := v.value];
        i := i + 1;
      }
      stack := stack + [Frame(f, pc, env)];
      if f !in img.funcs {
        return Some(KeyError);
      }
      pc := img.funcs[f];
      return None;
    }

    /** `ret [v]` / `end`: pops the frame, binds `ret` for `ret`, and resumes at the `cal` line. */
    method Return(ts: seq<string>, bind: bool) returns (err: Option<Exc>)
      modifies this
      ensures Outcome(Vm.Return(old(Snapshot()), ts, bind), err)
    {
      var v := Nil;
      if |ts| > 1 {
        var e := Eval1(ts[1]);
        if e.Err? {
          return Some(e.error);
        }
        v := e.value;
      }
      if |stack| == 0 {
        return Some(IndexError);
      }
      var frame := stack[|stack| - 1];
      stack := stack[..|stack| - 1];
      if bind {
        err := Assign("ret", v);
        if err.Some? {
          return;
        }
      }
      pc := frame.pc;
      return None;
    }

    /** `for v r`: records the items on the first visit, then binds the next one or leaves the loop. */
    method For(img: Image, ts: seq<string>) returns (err: Option<Exc>)
      requires 0 <= pc < |img.program|
      modifies this
      ensures Outcome(Vm.For(img, old(Snapshot()), ts), err)
    {
      if |ts| < 3 {
        return Some(IndexError);
      }
      var name := ts[1];
      var rg := Eval1(ts[2]);
      if rg.Err? {
        return Some(rg.error);
      }
      if name !in loops {
        var it := LoopItems(heap, rg.value);
        if it.Err? {
          return Some(it.error);
        }
        heap := it.value.1;
        loops := loops[name := LoopState(it.value.0, pc, 0)];
      }
      assert Vm.For(img, old(Snapshot()), ts) == ForVisit(img, Snapshot(), name);
      var ls := loops[name];
      if !IsList(heap, Ref(ls.items)) {
        return Some(NotModelled);
      }
      var items := heap[ls.items].items;
      if ls.index >= |items| {
        loops := loops - {name};
        GotoLoopEnd(img.program);
        return None;
      }
      err := Assign(name, items[ls.index]);
      if err.Some? {
        return;
      }
      loops := loops[name := ls.(index := ls.index + 1)];
    }

    // -------------------------------------------------------------------------------
    // The evaluator

    /**
     * Executes the line at the counter; the counter is left on the line executed, or on
     * the line before the next one when the instruction transfers control.
     */
    method Eval(img: Image) returns (err: Option<Exc>)
      requires 0 <= pc < |img.program|
      modifies this
      ensures Outcome(Step(img, old(Snapshot())), err)
    {
      var ts := img.program[pc];
      if |ts| == 0 {
        return None;
      }
      if |ts[0]| == 0 {
        return Some(IndexError);
      }
      if ts[0][0] == '#' {
        return None;
      }
      var cmd := ts[0];
      ghost var st := Snapshot();
      if cmd == "jmp" {
        StepJump(img, st);
        if |ts| < 2 {
          return Some(IndexError);
        }
        err := GotoLabel(img, ts[1]);
      } else if cmd in {"jeq", "jne", "jlt", "jgt"} {
        StepCondJump(img, st, cmd);
        err := CondJump(img, ts, cmd);
      } else if cmd in {"ife", "ifg"} {
        StepIf(img, st, cmd);
        err := If(img, ts, cmd);
      } else if cmd == "els" {
        StepEls(img, st);
        err := GotoIfEnd(img.program);
      } else if cmd == "psh" {
        StepPush(img, st);
        err := Push(ts);
      } else if cmd == "def" {
        StepDef(img, st);
        GotoEnd(img.program);
        err := None;
      } else if cmd == "ret" || cmd == "end" {
        StepReturn(img, st, cmd);
        err := Return(ts, cmd == "ret");
      } else if cmd == "cal" {
        StepCall(img, st);
        err := Call(img, ts);
      } else if cmd == "for" {
        VmLaws.StepFor(img, st);
        err := For(img, ts);
      } else if cmd == "nxt" {
        StepNext(img, st);
        BackToLoopHead(img.program);
        err := None;
      } else {
        err := Apply(Step(img, Snapshot()));
      }
    }

    /**
     * The driver loop: executes the line at the counter and moves to the next, until the
     * counter leaves the program, an exception ends the run, or `fuel` lines have run.
     */
    method Run(img: Image, fuel: nat) returns (err: Option<Exc>)
      requires pc >= 0
      modifies this
      ensures Outcome(Vm.Run(img, old(Snapshot()), fuel), err)
    {
      var left := fuel;
      while pc < |img.program| && left > 0
        invariant pc >= 0
        invariant Vm.Run(img, Snapshot(), left) == Vm.Run(img, old(Snapshot()), fuel)
        decreases left
      {
        ghost var st := Snapshot();
        VmLaws.RunUnfold(img, st, left);
        err := Eval(img);
        if err.Some? {
          assert Cycle(img, st) == Err(err.value);
          return;
        }
        assert Cycle(img, st) == Ok(Snapshot().(pc := pc + 1));
        pc := pc + 1;
        left := left - 1;
      }
      return None;
    }
  }
}
