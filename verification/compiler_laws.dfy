/**
 * What the code generator emits for each construct: the exact lines, the fresh names
 * they use, and the names that can never repeat.
 */
module CompilerLaws {
  import opened Wrappers
  import opened Exceptions
  import opened Text
  import opened Lexer
  import opened VeeParser
  import opened VeeCompiler
  import Values

  // ---------------------------------------------------------------------------------
  // Fresh names

  /** Temporaries and labels are told apart by their number and by their prefix. */
  lemma FreshNamesDistinct(m: nat, n: nat)
    ensures VarName(m) == VarName(n) <==> m == n
    ensures LabelName(m) == LabelName(n) <==> m == n
    ensures VarName(m) != LabelName(n)
  {
    assert VarName(m)[2] != LabelName(n)[2];
    if m != n {
      IntToStringInjective(m, n);
      assert VarName(m)[5..] == NatToString(m) && VarName(n)[5..] == NatToString(n);
      assert LabelName(m)[5..] == NatToString(m) && LabelName(n)[5..] == NatToString(n);
    }
  }

  /**
   * Whatever a node compiles to, the temporary and the label drawn next are new: they
   * differ from every temporary and every label drawn before the node was compiled.
   */
  lemma NamesNeverRepeat(st: CState, a: Ast, k: nat)
    requires Compile(st, a).Ok?
    ensures k <= st.varCount ==> NewVar(Compile(st, a).value.1).0 != VarName(k)
    ensures k <= st.labelCount ==> NewLabel(Compile(st, a).value.1).0 != LabelName(k)
  {
    var after := Compile(st, a).value.1;
    FreshNamesDistinct(after.varCount + 1, k);
    FreshNamesDistinct(after.labelCount + 1, k);
  }

  // ---------------------------------------------------------------------------------
  // gen_compare

  /**
   * `gen_compare` emits the jump, `let R 0`, a jump past, the true label, `let R 1` and the
   * end label, with a new temporary R and two new, different labels; nothing else changes.
   */
  lemma CompareShape(st: CState, op: string, l: string, r: string)
    ensures var res := VarName(st.varCount + 1);
      var t := LabelName(st.labelCount + 1);
      var e := LabelName(st.labelCount + 2);
      && t != e
      && GenCompare(st, op, l, r) == (res, st.(
          output := st.output + Under(st.indent, [op + " " + l + " " + r + " " + t, "let " + res + " 0", "jmp " + e, "#" + t, "let " + res + " 1", "#" + e]),
          varCount := st.varCount + 1,
          labelCount := st.labelCount + 2))
  {
    FreshNamesDistinct(st.labelCount + 1, st.labelCount + 2);
  }

  // ---------------------------------------------------------------------------------
  // Operands that are plain names

  /** An identifier node: it compiles to text without emitting anything. */
  predicate IsName(x: Ast) {
    x.Node? && x.kind == IDENT && x.token.Some?
  }

  /** The text an identifier node compiles to. */
  function Ref(st: CState, x: Ast): string
    requires IsName(x)
  {
    IdentText(st, x.token.value.value)
  }

  predicate AllNames(xs: seq<Ast>) {
    forall i :: 0 <= i < |xs| ==> IsName(xs[i])
  }

  function Refs(st: CState, xs: seq<Ast>): seq<string>
    requires AllNames(xs)
  {
    seq(|xs|, i requires 0 <= i < |xs| => Ref(st, xs[i]))
  }

  /** Texts as values. */
  function Texts(ts: seq<string>): seq<CVal> {
    seq(|ts|, i requires 0 <= i < |ts| => CText(ts[i]))
  }

  /** A run of identifiers compiles, left to right, to their texts and emits nothing. */
  lemma {:induction false} NamesCompile(st: CState, xs: seq<Ast>)
    requires AllNames(xs)
    ensures CompileTexts(st, xs) == Ok((Refs(st, xs), st))
    ensures CompileAll(st, xs) == Ok((Texts(Refs(st, xs)), st))
  {
    if xs == [] {
      assert Refs(st, xs) == [];
      assert Texts(Refs(st, xs)) == [];
    } else {
      NamesCompile(st, xs[1..]);
      NameCompiles(st, xs[0]);
      RefsCons(st, xs);
    }
  }

  /** An identifier compiles to its text and emits nothing. */
  lemma NameCompiles(st: CState, x: Ast)
    requires IsName(x)
    ensures Compile(st, x) == Ok((CText(Ref(st, x)), st))
  {
  }

  /** Refs and Texts of a non-empty run: the first one, then the rest. */
  lemma RefsCons(st: CState, xs: seq<Ast>)
    requires AllNames(xs) && xs != []
    ensures Refs(st, xs) == [Ref(st, xs[0])] + Refs(st, xs[1..])
    ensures Texts(Refs(st, xs)) == [CText(Ref(st, xs[0]))] + Texts(Refs(st, xs[1..]))
  {
    assert Refs(st, xs) == [Ref(st, xs[0])] + Refs(st, xs[1..]);
  }

  // ---------------------------------------------------------------------------------
  // Operator lowering

  /**
   * A binary operator other than `=` and `.` compiles its left operand, then its right one
   * from the state the left one left behind, and lowers the operator on their texts.
   */
  lemma OperandsFirst(st: CState, a: Ast, op: string, st1: CState, st2: CState, l: CVal, r: CVal, lt: string, rt: string)
    requires a.Node? && a.kind == OPERATOR && a.token.Some? && a.token.value.value == Some(op)
    requires op in LoweredOperators && op !in {"/", "[", ":"}
    requires |a.children| >= 2
    requires Compile(st, a.children[0]) == Ok((l, st1)) && Str(l) == Ok(lt)
    requires Compile(st1, a.children[1]) == Ok((r, st2)) && Str(r) == Ok(rt)
    ensures Compile(st, a) == Ok(LowerTexts(st2, op, lt, rt))
  {
    assert op != "=";
    assert op != ".";
    assert Compile(st, a) == CompileOperator(st, a);
    assert CompileOperator(st, a) == Lower(st2, op, l, r);
    assert Lower(st2, op, l, r) == Ok(LowerTexts(st2, op, lt, rt));
  }

  /** `+ - * /.` emit a single `add|sub|mul|div R l r` into a new temporary R and yield `$R`. */
  lemma ArithLowering(st: CState, op: string, code: string, l: string, r: string)
    requires (op == "+" && code == "add") || (op == "-" && code == "sub") || (op == "*" && code == "mul") || (op == "/." && code == "div")
    ensures var res := VarName(st.varCount + 1);
      LowerTexts(st, op, l, r) == (CText(IdentText(st, Some(res))), st.(
        output := st.output + [st.indent + (code + " " + res + " " + l + " " + r)],
        varCount := st.varCount + 1))
  {
    assert ArithCode(op) == Some(code);
  }

  /** `<`, `>` and `==` are one `gen_compare` with `jlt`, `jgt` or `jeq`, yielding `$R`. */
  lemma CompareLowering(st: CState, op: string, code: string, l: string, r: string)
    requires (op == "<" && code == "jlt") || (op == ">" && code == "jgt") || (op == "==" && code == "jeq")
    ensures var res := VarName(st.varCount + 1);
      LowerTexts(st, op, l, r) == (CText(IdentText(st, Some(res))), st.(
        output := st.output + Under(st.indent, CompareLines(code, l, r, res, LabelName(st.labelCount + 1), LabelName(st.labelCount + 2))),
        varCount := st.varCount + 1,
        labelCount := st.labelCount + 2))
  {
    assert ArithCode(op).None? && CompareCode(op) == Some(code);
    CompareShape(st, code, l, r);
  }

  lemma UnderAppend(indent: string, xs: seq<string>, ys: seq<string>)
    ensures Under(indent, xs + ys) == Under(indent, xs) + Under(indent, ys)
  {
  }

  /** The first three steps of `<=` and `>=`: both compares, then the `add` of their results. */
  lemma CompareSum(st: CState, first: string, l: string, r: string) returns (st3: CState)
    ensures var (n, m) := (st.varCount, st.labelCount);
      var st1 := GenCompare(st, first, l, r);
      var st2 := GenCompare(st1.1, "jeq", l, r);
      && st1.0 == VarName(n + 1) && st2.0 == VarName(n + 2)
      && GenOp(st2.1, "add", IdentText(st2.1, Some(st1.0)), IdentText(st2.1, Some(st2.0)), None) == (VarName(n + 3), st3)
      && st3 == st.(output := st.output + Under(st.indent,
                      CompareLines(first, l, r, VarName(n + 1), LabelName(m + 1), LabelName(m + 2))
                      + CompareLines("jeq", l, r, VarName(n + 2), LabelName(m + 3), LabelName(m + 4)))
                      + [st.indent + ("add " + VarName(n + 3) + " " + IdentText(st, Some(VarName(n + 1))) + " " + IdentText(st, Some(VarName(n + 2))))],
                    varCount := n + 3, labelCount := m + 4)
  {
    var (n, m) := (st.varCount, st.labelCount);
    var st2 := TwoCompares(st, first, l, r);
    var addLine := "add " + VarName(n + 3) + " " + IdentText(st, Some(VarName(n + 1))) + " " + IdentText(st, Some(VarName(n + 2)));
    st3 := st2.(output := st2.output + [st.indent + addLine], varCount := n + 3);
    assert "add " == "add" + " ";
  }

  /**
   * `<=` and `>=`: the strict compare, the equality compare, their sum S, then `S > 0`;
   * four new temporaries, six new labels, and the result is the last compare's `$R`.
   */
  lemma OrEqualLowering(st: CState, op: string, first: string, l: string, r: string)
    requires (op == "<=" && first == "jlt") || (op == ">=" && first == "jgt")
    ensures var (n, m) := (st.varCount, st.labelCount);
      var sum := VarName(n + 3);
      var lines :=
        CompareLines(first, l, r, VarName(n + 1), LabelName(m + 1), LabelName(m + 2))
        + CompareLines("jeq", l, r, VarName(n + 2), LabelName(m + 3), LabelName(m + 4))
        + ["add " + sum + " " + IdentText(st, Some(VarName(n + 1))) + " " + IdentText(st, Some(VarName(n + 2)))]
        + CompareLines("jgt", IdentText(st, Some(sum)), "0", VarName(n + 4), LabelName(m + 5), LabelName(m + 6));
      LowerTexts(st, op, l, r) == (CText(IdentText(st, Some(VarName(n + 4)))), st.(
        output := st.output + Under(st.indent, lines),
        varCount := n + 4,
        labelCount := m + 6))
  {
    assert ArithCode(op).None? && CompareCode(op).None?;
    assert LowerTexts(st, op, l, r) == LowerOrEqual(st, first, l, r);
    OrEqualShape(st, first, l, r);
  }

  lemma OrEqualShape(st: CState, first: string, l: string, r: string)
    ensures var (n, m) := (st.varCount, st.labelCount);
      var sum := VarName(n + 3);
      var lines :=
        CompareLines(first, l, r, VarName(n + 1), LabelName(m + 1), LabelName(m + 2))
        + CompareLines("jeq", l, r, VarName(n + 2), LabelName(m + 3), LabelName(m + 4))
        + ["add " + sum + " " + IdentText(st, Some(VarName(n + 1))) + " " + IdentText(st, Some(VarName(n + 2)))]
        + CompareLines("jgt", IdentText(st, Some(sum)), "0", VarName(n + 4), LabelName(m + 5), LabelName(m + 6));
      LowerOrEqual(st, first, l, r) == (CText(IdentText(st, Some(VarName(n + 4)))), st.(
        output := st.output + Under(st.indent, lines),
        varCount := n + 4,
        labelCount := m + 6))
  {
    var (n, m) := (st.varCount, st.labelCount);
    var c1 := CompareLines(first, l, r, VarName(n + 1), LabelName(m + 1), LabelName(m + 2));
    var c2 := CompareLines("jeq", l, r, VarName(n + 2), LabelName(m + 3), LabelName(m + 4));
    var addLine := "add " + VarName(n + 3) + " " + IdentText(st, Some(VarName(n + 1))) + " " + IdentText(st, Some(VarName(n + 2)));
    var c3 := CompareLines("jgt", IdentText(st, Some(VarName(n + 3))), "0", VarName(n + 4), LabelName(m + 5), LabelName(m + 6));
    var st3 := CompareSum(st, first, l, r);
    var st4 := st3.(output := st3.output + Under(st.indent, c3), varCount := n + 4, labelCount := m + 6);
    assert LowerOrEqual(st, first, l, r) == (CText(IdentText(st, Some(VarName(n + 4)))), st4) by {
      CompareShape(st3, "jgt", IdentText(st3, Some(VarName(n + 3))), "0");
    }
    assert st4.output == st.output + Under(st.indent, c1 + c2 + [addLine] + c3) by {
      AroundLine(st.output, st.indent, c1 + c2, addLine, c3);
    }
  }

  /** Lines emitted in three runs, the middle one a single line, are the lines of one run. */
  lemma AroundLine(out: seq<string>, indent: string, xs: seq<string>, line: string, ys: seq<string>)
    ensures out + Under(indent, xs) + [indent + line] + Under(indent, ys) == out + Under(indent, xs + [line] + ys)
  {
    UnderAppend(indent, xs, [line]);
    UnderAppend(indent, xs + [line], ys);
    assert Under(indent, [line]) == [indent + line];
  }

  /** The two compares `<=` and `>=` start with, one after the other. */
  lemma TwoCompares(st: CState, first: string, l: string, r: string) returns (st2: CState)
    ensures var (n, m) := (st.varCount, st.labelCount);
      && GenCompare(st, first, l, r) == (VarName(n + 1), GenCompare(st, first, l, r).1)
      && GenCompare(GenCompare(st, first, l, r).1, "jeq", l, r) == (VarName(n + 2), st2)
      && st2 == st.(output := st.output + Under(st.indent,
                      CompareLines(first, l, r, VarName(n + 1), LabelName(m + 1), LabelName(m + 2))
                      + CompareLines("jeq", l, r, VarName(n + 2), LabelName(m + 3), LabelName(m + 4))),
                    varCount := n + 2, labelCount := m + 4)
  {
    var (n, m) := (st.varCount, st.labelCount);
    var c1 := CompareLines(first, l, r, VarName(n + 1), LabelName(m + 1), LabelName(m + 2));
    var c2 := CompareLines("jeq", l, r, VarName(n + 2), LabelName(m + 3), LabelName(m + 4));
    CompareState(st, first, l, r, n + 1, m + 1, m + 2);
    var st1 := GenCompare(st, first, l, r).1;
    CompareState(st1, "jeq", l, r, n + 2, m + 3, m + 4);
    st2 := GenCompare(st1, "jeq", l, r).1;
    EmittedInTurn(st, c1, c2, st1, st2);
  }

  /** Two compares' lines emitted one after the other are their concatenation emitted at once. */
  lemma EmittedInTurn(st: CState, c1: seq<string>, c2: seq<string>, st1: CState, st2: CState)
    requires st1 == st.(output := st.output + Under(st.indent, c1), varCount := st.varCount + 1, labelCount := st.labelCount + 2)
    requires st2 == st1.(output := st1.output + Under(st1.indent, c2), varCount := st1.varCount + 1, labelCount := st1.labelCount + 2)
    ensures st2 == st.(output := st.output + Under(st.indent, c1 + c2), varCount := st.varCount + 2, labelCount := st.labelCount + 4)
  {
    UnderAppend(st.indent, c1, c2);
    assert st1.output + Under(st.indent, c2) == st.output + Under(st.indent, c1 + c2);
  }

  /** CompareShape with the six lines left as CompareLines, for the counters' next values v, t and e. */
  lemma CompareState(st: CState, op: string, l: string, r: string, v: nat, t: nat, e: nat)
    requires v == st.varCount + 1 && t == st.labelCount + 1 && e == st.labelCount + 2
    ensures GenCompare(st, op, l, r) == (VarName(v), st.(
        output := st.output + Under(st.indent, CompareLines(op, l, r, VarName(v), LabelName(t), LabelName(e))),
        varCount := v,
        labelCount := e))
  {
    CompareShape(st, op, l, r);
  }

  /** `&&` and `||`: the sum S of both sides, then `S > 1` or `S > 0`. */
  lemma LogicLowering(st: CState, op: string, bound: string, l: string, r: string)
    requires (op == "&&" && bound == "1") || (op == "||" && bound == "0")
    ensures var (n, m) := (st.varCount, st.labelCount);
      var sum := VarName(n + 1);
      var lines := ["add " + sum + " " + l + " " + r]
        + CompareLines("jgt", IdentText(st, Some(sum)), bound, VarName(n + 2), LabelName(m + 1), LabelName(m + 2));
      LowerTexts(st, op, l, r) == (CText(IdentText(st, Some(VarName(n + 2)))), st.(
        output := st.output + Under(st.indent, lines),
        varCount := n + 2,
        labelCount := m + 2))
  {
    assert ArithCode(op).None? && CompareCode(op).None? && op != "<=" && op != ">=";
    assert LowerTexts(st, op, l, r) == LowerLogic(st, l, r, bound);
    LogicShape(st, l, r, bound);
  }

  lemma LogicShape(st: CState, l: string, r: string, bound: string)
    ensures var (n, m) := (st.varCount, st.labelCount);
      var sum := VarName(n + 1);
      var lines := ["add " + sum + " " + l + " " + r]
        + CompareLines("jgt", IdentText(st, Some(sum)), bound, VarName(n + 2), LabelName(m + 1), LabelName(m + 2));
      LowerLogic(st, l, r, bound) == (CText(IdentText(st, Some(VarName(n + 2)))), st.(
        output := st.output + Under(st.indent, lines),
        varCount := n + 2,
        labelCount := m + 2))
  {
    var (n, m) := (st.varCount, st.labelCount);
    var sum := VarName(n + 1);
    var addLine := "add " + sum + " " + l + " " + r;
    var cl := CompareLines("jgt", IdentText(st, Some(sum)), bound, VarName(n + 2), LabelName(m + 1), LabelName(m + 2));
    assert "add " == "add" + " ";
    var st1 := st.(output := st.output + [st.indent + addLine], varCount := n + 1);
    assert GenOp(st, "add", l, r, None) == (sum, st1);
    CompareShape(st1, "jgt", IdentText(st, Some(sum)), bound);
    var st2 := st1.(output := st1.output + Under(st.indent, cl), varCount := n + 2, labelCount := m + 2);
    UnderAppend(st.indent, [addLine], cl);
    assert Under(st.indent, [addLine]) == [st.indent + addLine];
    assert st2.output == st.output + Under(st.indent, [addLine] + cl);
  }

  /**
   * `a..b`: a new list L set to `[]`, then a counting loop with index I and labels S and E:
   * `let I a`, `#S`, `jeq $I b E`, `psh $L $I`, `add I $I 1`, `jmp S`, `#E`; the result
   * is `$L`.
   */
  lemma RangeLowering(st: CState, l: string, r: string)
    ensures var (n, m) := (st.varCount, st.labelCount);
      var list := VarName(n + 1);
      var idx := VarName(n + 2);
      var ref := IdentText(st, Some(idx));
      var (s, e) := (LabelName(m + 1), LabelName(m + 2));
      var lines := ["let " + list + " []", "let " + idx + " " + l, "#" + s, "jeq " + ref + " " + r + " " + e,
                    "psh $" + list + " " + ref, "add " + idx + " " + ref + " 1", "jmp " + s, "#" + e];
      LowerTexts(st, "..", l, r) == (CText(IdentText(st, Some(list))), st.(
        output := st.output + Under(st.indent, lines),
        varCount := n + 2,
        labelCount := m + 2))
  {
    assert ArithCode("..").None? && CompareCode("..").None?;
    assert LowerTexts(st, "..", l, r) == LowerRange(st, l, r);
    RangeShape(st, l, r);
  }

  lemma RangeShape(st: CState, l: string, r: string)
    ensures var (n, m) := (st.varCount, st.labelCount);
      var list := VarName(n + 1);
      var idx := VarName(n + 2);
      var ref := IdentText(st, Some(idx));
      var (s, e) := (LabelName(m + 1), LabelName(m + 2));
      var lines := ["let " + list + " []", "let " + idx + " " + l, "#" + s, "jeq " + ref + " " + r + " " + e,
                    "psh $" + list + " " + ref, "add " + idx + " " + ref + " 1", "jmp " + s, "#" + e];
      LowerRange(st, l, r) == (CText(IdentText(st, Some(list))), st.(
        output := st.output + Under(st.indent, lines),
        varCount := n + 2,
        labelCount := m + 2))
  {
    LowerRangeState(st, l, r);
    var (n, m) := (st.varCount, st.labelCount);
    var (list, idx) := (VarName(n + 1), VarName(n + 2));
    var ref := IdentText(st, Some(idx));
    var (s, e) := (LabelName(m + 1), LabelName(m + 2));
    assert ["let " + list + " []"] + RangeLines(list, l, r, idx, ref, s, e)
        == ["let " + list + " []", "let " + idx + " " + l, "#" + s, "jeq " + ref + " " + r + " " + e,
            "psh $" + list + " " + ref, "add " + idx + " " + ref + " 1", "jmp " + s, "#" + e];
  }

  /** LowerRange's state, with the emitted lines still as the `let` of the list and RangeLines. */
  lemma LowerRangeState(st: CState, l: string, r: string)
    ensures var (n, m) := (st.varCount, st.labelCount);
      var (list, idx) := (VarName(n + 1), VarName(n + 2));
      LowerRange(st, l, r) == (CText(IdentText(st, Some(list))), st.(
        output := st.output + Under(st.indent, ["let " + list + " []"] +
          RangeLines(list, l, r, idx, IdentText(st, Some(idx)), LabelName(m + 1), LabelName(m + 2))),
        varCount := n + 2,
        labelCount := m + 2))
  {
    var (n, m) := (st.varCount, st.labelCount);
    var list := VarName(n + 1);
    var first := "let " + list + " []";
    var st1 := VeeCompiler.Emit(st.(varCount := n + 1), first);
    var loop := RangeLines(list, l, r, VarName(n + 2), IdentText(st, Some(VarName(n + 2))), LabelName(m + 1), LabelName(m + 2));
    assert LowerRange(st, l, r) == (CText(IdentText(st, Some(list))), GenPushRange(st1, list, l, r));
    PushRangeState(st1, list, l, r);
    assert st1.output + Under(st.indent, loop) == st.output + Under(st.indent, [first] + loop) by {
      UnderAppend(st.indent, [first], loop);
      assert Under(st.indent, [first]) == [st.indent + first];
    }
  }

  /** GenPushRange's state: the seven lines of RangeLines, one variable and two labels further on. */
  lemma PushRangeState(st: CState, list: string, l: string, r: string)
    ensures var (n, m) := (st.varCount, st.labelCount);
      GenPushRange(st, list, l, r) == st.(
        output := st.output + Under(st.indent,
          RangeLines(list, l, r, VarName(n + 1), IdentText(st, Some(VarName(n + 1))), LabelName(m + 1), LabelName(m + 2))),
        varCount := n + 1,
        labelCount := m + 2)
  {
  }

  // ---------------------------------------------------------------------------------
  // Folding, errors and assignment

  /** A number literal of plain digits compiles to its value and emits nothing. */
  lemma NumberLiteral(st: CState, x: Ast, digits: string)
    requires x.Node? && x.kind == VALUE && x.token.Some? && x.token.value.kind == NUM && x.token.value.value == Some(digits)
    requires AllDigits(digits)
    ensures Compile(st, x) == Ok((CInt(DigitsValue(digits)), st))
  {
    forall i | 0 <= i < |digits|
      ensures digits[i] != '.'
    {
      assert IsDigit(digits[i]);
    }
    assert digits[0] != '-' by { assert IsDigit(digits[0]); }
  }

  /**
   * `x / y` over two number literals is folded while compiling: Python's floor division of
   * the two values, with nothing emitted, or ZeroDivisionError when y is 0.
   */
  lemma DivisionFolds(st: CState, a: Ast, x: string, y: string)
    requires a.Node? && a.kind == OPERATOR && a.token.Some? && a.token.value.value == Some("/") && |a.children| >= 2
    requires a.children[0].Node? && a.children[0].kind == VALUE && a.children[0].token.Some?
    requires a.children[0].token.value.kind == NUM && a.children[0].token.value.value == Some(x) && AllDigits(x)
    requires a.children[1].Node? && a.children[1].kind == VALUE && a.children[1].token.Some?
    requires a.children[1].token.value.kind == NUM && a.children[1].token.value.value == Some(y) && AllDigits(y)
    ensures DigitsValue(y) == 0 ==> Compile(st, a) == Err(ZeroDivisionError)
    ensures DigitsValue(y) != 0 ==> Compile(st, a) == Ok((CInt(Values.FloorDiv(DigitsValue(x), DigitsValue(y))), st))
  {
    NumberLiteral(st, a.children[0], x);
    NumberLiteral(st, a.children[1], y);
    assert CompileOperator(st, a) == Lower(st, "/", CInt(DigitsValue(x)), CInt(DigitsValue(y)));
  }

  /** An operator text the lowering has no case for is a SyntaxError once both operands compile. */
  lemma UnhandledOperator(st: CState, a: Ast, op: string, st1: CState, st2: CState, l: CVal, r: CVal)
    requires a.Node? && a.kind == OPERATOR && a.token.Some? && a.token.value.value == Some(op)
    requires op != "=" && op != "." && op !in LoweredOperators
    requires |a.children| >= 2
    requires Compile(st, a.children[0]) == Ok((l, st1))
    requires Compile(st1, a.children[1]) == Ok((r, st2))
    ensures Compile(st, a) == Err(SyntaxError)
  {
    assert Compile(st, a) == CompileOperator(st, a);
  }

  /**
   * `x = e` compiles e, then emits `let x <e>`, with the target's bare name: an argument
   * of the enclosing function is read as `$_x` but assigned as `x`.
   */
  lemma AssignLowering(st: CState, a: Ast, name: Option<string>, v: CVal, st1: CState, text: string)
    requires a.Node? && a.kind == OPERATOR && a.token.Some? && a.token.value.value == Some("=") && |a.children| >= 2
    requires TokenValue(a.children[0]) == Ok(name)
    requires Compile(st, a.children[1]) == Ok((v, st1)) && Str(v) == Ok(text)
    ensures Compile(st, a) == Ok((CNone, st1.(output := st1.output + [st1.indent + ("let " + Show(name) + " " + text)])))
  {
    assert Compile(st, a) == CompileAssign(st, a);
  }

  // ---------------------------------------------------------------------------------
  // Lists and calls

  /** Texts of identifiers depend only on the argument set. */
  lemma RefsFrame(st: CState, st2: CState, xs: seq<Ast>)
    requires AllNames(xs) && st.funcVar == st2.funcVar
    ensures Refs(st, xs) == Refs(st2, xs)
  {
  }

  /** Texts, once compiled to values, are turned back into the same texts. */
  lemma TextsRoundTrip(ts: seq<string>)
    ensures StrAll(Texts(ts)) == Ok(ts)
  {
    var vs := Texts(ts);
    assert forall i :: 0 <= i < |vs| ==> !vs[i].CList?;
    var r := StrAll(vs).value;
    assert forall i :: 0 <= i < |ts| ==> Str(vs[i]) == Ok(r[i]) && r[i] == ts[i];
    assert r == ts;
  }

  /** `[x, y, ...]` of names: a new list R, `let R []`, one `psh $R $x $y ...`; the result is `$R`. */
  lemma ValueListLowering(st: CState, a: Ast)
    requires a.Node? && a.kind == EXPR_LIST && a.token.Some? && a.token.value.value == Some("[") && AllNames(a.children)
    ensures var list := VarName(st.varCount + 1);
      Compile(st, a) == Ok((CText(IdentText(st, Some(list))), st.(
        output := st.output + [st.indent + ("let " + list + " []"), st.indent + ("psh $" + list + " " + Join(Refs(st, a.children), ' '))],
        varCount := st.varCount + 1)))
  {
    var list := VarName(st.varCount + 1);
    var st1 := st.(output := st.output + [st.indent + ("let " + list + " []")], varCount := st.varCount + 1);
    NamesCompile(st1, a.children);
    RefsFrame(st, st1, a.children);
    var st2 := st1.(output := st1.output + [st.indent + ("psh $" + list + " " + Join(Refs(st, a.children), ' '))]);
    assert st2.output == st.output + [st.indent + ("let " + list + " []"), st.indent + ("psh $" + list + " " + Join(Refs(st, a.children), ' '))];
    assert GenValueList(st, a) == Ok((CText(IdentText(st, Some(list))), st2));
    assert Compile(st, a) == CompileList(st, a);
    assert CompileList(st, a) == GenValueList(st, a);
  }

  /** A call's argument list of names: the texts the call line joins are the names' texts. */
  lemma NameArguments(st: CState, args: Ast)
    requires args.Node? && args.kind == EXPR_LIST && args.token.Some? && args.token.value.value != Some("[") && AllNames(args.children)
    ensures Compile(st, args) == Ok((CList(Texts(Refs(st, args.children))), st))
    ensures CallArgs(Compile(st, args).value.0) == Ok(Refs(st, args.children))
  {
    NamesCompile(st, args.children);
    assert Compile(st, args) == CompileList(st, args);
    TextsRoundTrip(Refs(st, args.children));
  }

  /** `print(x, y, ...)`: a single `prt $x $y ...` line, with no `cal` and no result. */
  lemma PrintLowering(st: CState, a: Ast)
    requires a.Node? && a.kind == FUNC_CALL && a.token.Some? && a.token.value.value == Some("print")
    requires |a.children| >= 1
    requires var args := a.children[0];
      args.Node? && args.kind == EXPR_LIST && args.token.Some? && args.token.value.value != Some("[") && AllNames(args.children)
    ensures Compile(st, a) == Ok((CNone, st.(output := st.output + [st.indent + ("prt " + Join(Refs(st, a.children[0].children), ' '))])))
  {
    NameArguments(st, a.children[0]);
    assert "prt " == "" + "prt" + " ";
    assert Compile(st, a) == CompileCall(st, a);
  }

  /**
   * `f(x, y, ...)` for any other name: `cal f $x $y ...`, then `let R $ret` into a new
   * temporary R; the call's value is `$R`.
   */
  lemma CallLowering(st: CState, a: Ast, f: string)
    requires a.Node? && a.kind == FUNC_CALL && a.token.Some? && a.token.value.value == Some(f) && f != "print" && f != "type"
    requires |a.children| >= 1
    requires var args := a.children[0];
      args.Node? && args.kind == EXPR_LIST && args.token.Some? && args.token.value.value != Some("[") && AllNames(args.children)
    ensures var res := VarName(st.varCount + 1);
      Compile(st, a) == Ok((CText(IdentText(st, Some(res))), st.(
        output := st.output + [st.indent + ("cal " + f + " " + Join(Refs(st, a.children[0].children), ' ')), st.indent + ("let " + res + " $ret")],
        varCount := st.varCount + 1)))
  {
    NameArguments(st, a.children[0]);
    var res := VarName(st.varCount + 1);
    var st1 := st.(output := st.output + [st.indent + ("cal " + f + " " + Join(Refs(st, a.children[0].children), ' '))]);
    assert CallLine(Show(Some(f)), Refs(st, a.children[0].children), false) == "cal " + f + " " + Join(Refs(st, a.children[0].children), ' ');
    var st2 := st1.(output := st1.output + [st.indent + ("let " + res + " $ret")], varCount := st.varCount + 1);
    assert st2.output == st.output + [st.indent + ("cal " + f + " " + Join(Refs(st, a.children[0].children), ' ')), st.indent + ("let " + res + " $ret")];
    assert CompileCall(st, a) == Ok((CText(IdentText(st, Some(res))), st2));
    assert Compile(st, a) == CompileCall(st, a);
  }

  // ---------------------------------------------------------------------------------
  // Statements

  lemma {:induction false} IfPairsIgnoreLast(st: CState, cs: seq<Ast>, e: Ast, i: nat, end: string)
    requires |cs| % 2 == 0
    decreases |cs| / 2 - i
    ensures IfPairs(st, cs + [e], i, end) == IfPairs(st, cs, i, end)
  {
    assert |cs + [e]| / 2 == |cs| / 2;
    if i < |cs| / 2 {
      assert (cs + [e])[2 * i] == cs[2 * i] && (cs + [e])[2 * i + 1] == cs[2 * i + 1];
      assert IfBranch(st, cs + [e], i, end) == IfBranch(st, cs, i, end);
      match IfBranch(st, cs, i, end)
      case Err(_) =>
      case Ok(st1) => IfPairsIgnoreLast(st1, cs, e, i + 1, end);
    }
  }

  /** A trailing child of an IF (an `else` block) after the (condition, block) pairs emits nothing. */
  lemma ElseIgnored(st: CState, a: Ast, e: Ast)
    requires a.Node? && a.kind == IF && |a.children| % 2 == 0
    ensures Compile(st, a.(children := a.children + [e])) == Compile(st, a)
  {
    IfPairsIgnoreLast(NewLabel(st).1, a.children, e, 0, NewLabel(st).0);
  }

  /** An empty block emits nothing. */
  lemma EmptyBlock(st: CState, b: Ast)
    requires b.Node? && b.kind == STMT_LIST && b.children == []
    ensures Compile(st, b) == Ok((CNone, st))
  {
    assert CompileAll(st, b.children) == Ok(([], st));
    assert Compile(st, b) == GenStmtList(st, b);
  }

  /** Two runs of `add` in a row write both runs' lines under the same indent. */
  lemma EmitTwice(st: CState, xs: seq<string>, ys: seq<string>)
    ensures EmitAll(EmitAll(st, xs), ys) == st.(output := st.output + Under(st.indent, xs + ys))
  {
    UnderAppend(st.indent, xs, ys);
  }

  /** The compiler's run over one (name, empty block) pair of an IF, line group by line group. */
  lemma NameBranchRun(st: CState, cs: seq<Ast>, end: string)
    requires |cs| == 2 && IsName(cs[0])
    requires cs[1].Node? && cs[1].kind == STMT_LIST && cs[1].children == []
    ensures var (t, f) := (LabelName(st.labelCount + 1), LabelName(st.labelCount + 2));
      var st2 := st.(labelCount := st.labelCount + 2);
      IfBranch(st, cs, 0, end) ==
        Ok(EmitAll(EmitAll(st2, ["jeq " + Ref(st, cs[0]) + " 1 " + t, "jmp " + f, "#" + t]), ["jmp " + end, "#" + f]))
  {
    var (t, f) := (LabelName(st.labelCount + 1), LabelName(st.labelCount + 2));
    var c := Ref(st, cs[0]);
    var st1 := st.(labelCount := st.labelCount + 1);
    var st2 := st.(labelCount := st.labelCount + 2);
    assert NewLabel(st) == (t, st1);
    assert NewLabel(st1) == (f, st2);
    var st4 := EmitAll(st2, ["jeq " + c + " 1 " + t, "jmp " + f, "#" + t]);
    assert Compile(st2, cs[0]) == Ok((CText(c), st2));
    assert Str(CText(c)) == Ok(c);
    EmptyBlock(st4, cs[1]);
  }

  /** One (name, empty block) pair of an IF: labels T and F and the five lines around the block. */
  lemma NameBranch(st: CState, cs: seq<Ast>, end: string)
    requires |cs| == 2 && IsName(cs[0])
    requires cs[1].Node? && cs[1].kind == STMT_LIST && cs[1].children == []
    ensures var (t, f) := (LabelName(st.labelCount + 1), LabelName(st.labelCount + 2));
      IfBranch(st, cs, 0, end) == Ok(st.(
        output := st.output + Under(st.indent, ["jeq " + Ref(st, cs[0]) + " 1 " + t, "jmp " + f, "#" + t, "jmp " + end, "#" + f]),
        labelCount := st.labelCount + 2))
  {
    var (t, f) := (LabelName(st.labelCount + 1), LabelName(st.labelCount + 2));
    var head := ["jeq " + Ref(st, cs[0]) + " 1 " + t, "jmp " + f, "#" + t];
    var tail := ["jmp " + end, "#" + f];
    NameBranchRun(st, cs, end);
    EmitTwice(st.(labelCount := st.labelCount + 2), head, tail);
    assert head + tail == ["jeq " + Ref(st, cs[0]) + " 1 " + t, "jmp " + f, "#" + t, "jmp " + end, "#" + f];
  }

  /**
   * `if c { }` with a name as condition: a new end label, then labels T and F, and the lines
   * `jeq $c 1 T`, `jmp F`, `#T`, `jmp End`, `#F`, `#End`.
   */
  lemma IfShape(st: CState, a: Ast)
    requires a.Node? && a.kind == IF && |a.children| == 2 && IsName(a.children[0])
    requires a.children[1].Node? && a.children[1].kind == STMT_LIST && a.children[1].children == []
    ensures var m := st.labelCount;
      var (end, t, f) := (LabelName(m + 1), LabelName(m + 2), LabelName(m + 3));
      Compile(st, a) == Ok((CNone, st.(
        output := st.output + Under(st.indent, ["jeq " + Ref(st, a.children[0]) + " 1 " + t, "jmp " + f, "#" + t, "jmp " + end, "#" + f, "#" + end]),
        labelCount := m + 3)))
  {
    var m := st.labelCount;
    var (end, t, f) := (LabelName(m + 1), LabelName(m + 2), LabelName(m + 3));
    var st1 := st.(labelCount := m + 1);
    var five := ["jeq " + Ref(st, a.children[0]) + " 1 " + t, "jmp " + f, "#" + t, "jmp " + end, "#" + f];
    var st5 := st1.(output := st.output + Under(st.indent, five), labelCount := m + 3);
    assert IfPairs(st1, a.children, 0, end) == Ok(st5) by {
      assert LabelName(st1.labelCount + 1) == t && LabelName(st1.labelCount + 2) == f;
      NameBranch(st1, a.children, end);
      assert Ref(st1, a.children[0]) == Ref(st, a.children[0]);
      assert IfPairs(st5, a.children, 1, end) == Ok(st5);
    }
    assert Compile(st, a) == Ok((CNone, VeeCompiler.Emit(st5, "#" + end))) by {
      assert NewLabel(st) == (end, st1);
      assert Compile(st, a) == CompileIf(st, a);
    }
    assert st5.output + [st.indent + ("#" + end)] == st.output + Under(st.indent, five + ["#" + end]) by {
      AroundLine(st.output, st.indent, five, "#" + end, []);
      assert Under(st.indent, []) == [];
      assert five + ["#" + end] + [] == five + ["#" + end];
    }
    assert five + ["#" + end] == ["jeq " + Ref(st, a.children[0]) + " 1 " + t, "jmp " + f, "#" + t, "jmp " + end, "#" + f, "#" + end];
  }

  /**
   * Pair i of an IF, for any condition and any block: labels T and F are drawn first, then
   * come the condition's own lines, `jeq c 1 T`, `jmp F` and `#T` under the indent, the
   * block's lines, and `jmp End`, `#F` under the indent.
   */
  lemma BranchShape(st: CState, cs: seq<Ast>, i: nat, end: string)
    requires i < |cs| / 2
    requires IfBranch(st, cs, i, end).Ok?
    ensures var m := st.labelCount;
      var (t, f) := (LabelName(m + 1), LabelName(m + 2));
      var cond := Compile(st.(labelCount := m + 2), cs[2 * i]);
      && t != f
      && cond.Ok? && Str(cond.value.0).Ok?
      && Extends(st.(labelCount := m + 2), cond.value.1)
      && (var head := EmitAll(cond.value.1, ["jeq " + Str(cond.value.0).value + " 1 " + t, "jmp " + f, "#" + t]);
          var block := Compile(head, cs[2 * i + 1]);
          && head.output == cond.value.1.output + Under(st.indent, ["jeq " + Str(cond.value.0).value + " 1 " + t, "jmp " + f, "#" + t])
          && block.Ok? && Extends(head, block.value.1)
          && IfBranch(st, cs, i, end) == Ok(block.value.1.(output := block.value.1.output + Under(st.indent, ["jmp " + end, "#" + f]))))
  {
    FreshNamesDistinct(st.labelCount + 1, st.labelCount + 2);
  }

  /** The pairs of an IF are compiled in order: pair i's lines come before those of the pairs after it. */
  lemma PairsInOrder(st: CState, cs: seq<Ast>, i: nat, end: string)
    requires i < |cs| / 2 && IfPairs(st, cs, i, end).Ok?
    ensures IfBranch(st, cs, i, end).Ok?
    ensures IfPairs(IfBranch(st, cs, i, end).value, cs, i + 1, end) == IfPairs(st, cs, i, end)
    ensures Extends(IfBranch(st, cs, i, end).value, IfPairs(st, cs, i, end).value)
  {
  }

  /** Any IF: a fresh end label, then the pairs from the first on, then `#End`. */
  lemma IfLines(st: CState, a: Ast)
    requires a.Node? && a.kind == IF && Compile(st, a).Ok?
    ensures var end := LabelName(st.labelCount + 1);
      var pairs := IfPairs(st.(labelCount := st.labelCount + 1), a.children, 0, end);
      && pairs.Ok?
      && Compile(st, a) == Ok((CNone, pairs.value.(output := pairs.value.output + [st.indent + ("#" + end)])))
  {
    assert Compile(st, a) == CompileIf(st, a);
  }

  /**
   * An IF with one (condition, block) pair, for any condition and any block: End, T and F are
   * three fresh, different labels; then the condition's lines, `jeq c 1 T`, `jmp F`, `#T`, the
   * block's lines, and `jmp End`, `#F`, `#End`.
   */
  lemma IfOnePair(st: CState, a: Ast)
    requires a.Node? && a.kind == IF && |a.children| / 2 == 1
    requires Compile(st, a).Ok?
    ensures var m := st.labelCount;
      var (end, t, f) := (LabelName(m + 1), LabelName(m + 2), LabelName(m + 3));
      var cond := Compile(st.(labelCount := m + 3), a.children[0]);
      && end != t && end != f && t != f
      && cond.Ok? && Str(cond.value.0).Ok?
      && (var head := EmitAll(cond.value.1, ["jeq " + Str(cond.value.0).value + " 1 " + t, "jmp " + f, "#" + t]);
          var block := Compile(head, a.children[1]);
          && block.Ok?
          && Compile(st, a) == Ok((CNone, block.value.1.(output := block.value.1.output + Under(st.indent, ["jmp " + end, "#" + f, "#" + end])))))
  {
    var m := st.labelCount;
    var (end, t, f) := (LabelName(m + 1), LabelName(m + 2), LabelName(m + 3));
    FreshNamesDistinct(m + 1, m + 2);
    FreshNamesDistinct(m + 1, m + 3);
    FreshNamesDistinct(m + 2, m + 3);
    var st1 := st.(labelCount := m + 1);
    var branch := IfBranch(st1, a.children, 0, end);
    assert IfPairs(st1, a.children, 0, end) == branch && branch.Ok? by {
      IfLines(st, a);
      PairsInOrder(st1, a.children, 0, end);
      assert IfPairs(branch.value, a.children, 1, end) == Ok(branch.value);
    }
    IfLines(st, a);
    BranchAt(st1, a.children, end, m + 2, m + 3);
    var cond := Compile(st.(labelCount := m + 3), a.children[0]);
    var head := EmitAll(cond.value.1, ["jeq " + Str(cond.value.0).value + " 1 " + t, "jmp " + f, "#" + t]);
    var block := Compile(head, a.children[1]).value.1;
    CloseIf(block, st.indent, end, f);
  }

  /** BranchShape for the first pair, with the numbers of T and F given. */
  lemma BranchAt(st: CState, cs: seq<Ast>, end: string, tn: nat, fn: nat)
    requires 0 < |cs| / 2 && IfBranch(st, cs, 0, end).Ok?
    requires tn == st.labelCount + 1 && fn == st.labelCount + 2
    ensures var (t, f) := (LabelName(tn), LabelName(fn));
      var cond := Compile(st.(labelCount := fn), cs[0]);
      && cond.Ok? && Str(cond.value.0).Ok?
      && (var head := EmitAll(cond.value.1, ["jeq " + Str(cond.value.0).value + " 1 " + t, "jmp " + f, "#" + t]);
          var block := Compile(head, cs[1]);
          && block.Ok? && block.value.1.indent == st.indent
          && IfBranch(st, cs, 0, end) == Ok(block.value.1.(output := block.value.1.output + Under(st.indent, ["jmp " + end, "#" + f]))))
  {
    BranchShape(st, cs, 0, end);
  }

  /** `jmp End`, `#F` and then `#End` are the three closing lines of a one-pair IF. */
  lemma CloseIf(block: CState, indent: string, end: string, f: string)
    ensures var branch := block.(output := block.output + Under(indent, ["jmp " + end, "#" + f]));
      branch.(output := branch.output + [indent + ("#" + end)])
        == block.(output := block.output + Under(indent, ["jmp " + end, "#" + f, "#" + end]))
  {
    UnderAppend(indent, ["jmp " + end, "#" + f], ["#" + end]);
    assert Under(indent, ["#" + end]) == [indent + ("#" + end)];
    assert ["jmp " + end, "#" + f] + ["#" + end] == ["jmp " + end, "#" + f, "#" + end];
  }

  /**
   * FOR: after the range expression's own lines, `for v <range>`, the body with every line
   * one space further in, and `nxt` at the original indent.
   */
  lemma ForShape(st: CState, v: Option<string>, range: string, b: Ast)
    requires GenFor(st, v, range, b).Ok?
    ensures var out := GenFor(st, v, range, b).value.1.output;
      && |out| >= |st.output| + 2
      && out[..|st.output|] == st.output
      && out[|st.output|] == st.indent + ("for " + Show(v) + " " + range)
      && (forall k :: |st.output| < k < |out| - 1 ==> st.indent + " " <= out[k])
      && out[|out| - 1] == st.indent + "nxt"
  {
    var st2 := Indented(VeeCompiler.Emit(st, "for " + Show(v) + " " + range));
    var body := Compile(st2, b).value.1;
    assert Extends(st2, body);
    assert GenFor(st, v, range, b).value.1 == VeeCompiler.Emit(Dedented(body), "nxt") by {
      assert (st.indent + " ")[..|st.indent|] == st.indent;
    }
  }

  /** A FOR node whose loop variable and range compile without error is `gen_for` on them. */
  lemma ForDispatch(st: CState, a: Ast, v: Option<string>, range: CVal, st1: CState, text: string)
    requires a.Node? && a.kind == FOR && |a.children| >= 2
    requires a.children[0].Node? && |a.children[0].children| >= 2
    requires TokenValue(a.children[0].children[0]) == Ok(v)
    requires Compile(st, a.children[0].children[1]) == Ok((range, st1)) && Str(range) == Ok(text)
    ensures Compile(st, a) == GenFor(st1, v, text, a.children[1])
  {
    assert Compile(st, a) == CompileFor(st, a);
  }

  /** A definition whose name and argument names read without error is recorded, then defined. */
  lemma FuncDefDispatch(st: CState, a: Ast, name: Option<string>, names: seq<Option<string>>)
    requires a.Node? && a.kind == FUNC_DEF && |a.children| >= 3
    requires TokenValue(a.children[0]) == Ok(name)
    requires a.children[1].Node? && ParamNames(a.children[1].children) == Ok(names)
    ensures Compile(st, a) == GenFuncDef(st.(funcs := st.funcs[name := a]), name, names, a.children[2])
  {
    assert Compile(st, a) == CompileFuncDef(st, a);
  }

  /**
   * FUNC_DEF: `def f`, then `let _a $i` for each argument a at position i, one space further
   * in, then the body at that indent, then `end`; the argument set is empty afterwards.
   */
  lemma FuncDefShape(st: CState, name: Option<string>, names: seq<Option<string>>, b: Ast)
    requires GenFuncDef(st, name, names, b).Ok?
    ensures var out := GenFuncDef(st, name, names, b).value.1;
      && |out.output| >= |st.output| + |names| + 2
      && out.output[..|st.output|] == st.output
      && out.output[|st.output|] == st.indent + ("def " + Show(name))
      && (forall i :: 0 <= i < |names| ==>
            out.output[|st.output| + 1 + i] == st.indent + " " + ("let _" + Show(names[i]) + " $" + NatToString(i)))
      && (forall k :: |st.output| < k < |out.output| - 1 ==> st.indent + " " <= out.output[k])
      && out.output[|out.output| - 1] == st.indent + "end"
      && out.funcVar == {}
  {
    var st1 := st.(funcVar := st.funcVar + set n | n in names);
    var e := VeeCompiler.Emit(st1, "def " + Show(name));
    var params := ParamLines(names);
    var st2 := EmitAll(Indented(e), params);
    var body := Compile(st2, b).value.1;
    assert Extends(st2, body);
    var out := VeeCompiler.Emit(Dedented(body), "end").(funcVar := {});
    assert GenFuncDef(st, name, names, b).value.1 == out;
    assert out.output == body.output + [st.indent + "end"] by {
      assert (st.indent + " ")[..|st.indent|] == st.indent;
    }
    assert st2.output == st.output + [st.indent + ("def " + Show(name))] + Under(st.indent + " ", params);
    forall i | 0 <= i < |names|
      ensures out.output[|st.output| + 1 + i] == st.indent + " " + ("let _" + Show(names[i]) + " $" + NatToString(i))
    {
      assert out.output[|st.output| + 1 + i] == st2.output[|st.output| + 1 + i];
    }
    forall k | |st.output| < k < |out.output| - 1
      ensures st.indent + " " <= out.output[k]
    {
      if k < |st2.output| {
        assert out.output[k] == Under(st.indent + " ", params)[k - |st.output| - 1];
      }
    }
  }

  /** The head of a one-argument definition: `def f`, then ` let _x $0` one space further in. */
  lemma OneParameter(st: CState, f: string, x: string)
    ensures EmitAll(Indented(VeeCompiler.Emit(st, "def " + Show(Some(f)))), ParamLines([Some(x)]))
         == st.(output := st.output + [st.indent + ("def " + f), st.indent + " " + ("let _" + x + " $0")], indent := st.indent + " ")
  {
    assert NatToString(0) == "0";
    assert ParamLines([Some(x)]) == ["let _" + x + " $0"] by {
      assert ParamLines([Some(x)])[0] == "let _" + Show(Some(x)) + " $" + NatToString(0);
      assert "let _" + x + " $0" == "let _" + x + " $" + "0";
    }
    assert Under(st.indent + " ", ["let _" + x + " $0"]) == [st.indent + " " + ("let _" + x + " $0")];
  }

  /** A block holding only `return x`, for an argument x: the one line `ret $_x`. */
  lemma ReturnArgument(st: CState, x: string)
    requires Some(x) in st.funcVar
    ensures var ret := Node(RETURN, Some(Name("return")), [Node(IDENT, Some(Name(x)), [])]);
      Compile(st, Node(STMT_LIST, None, [ret])) == Ok((CNone, st.(output := st.output + [st.indent + ("ret $_" + x)])))
  {
    var arg := Node(IDENT, Some(Name(x)), []);
    var ret := Node(RETURN, Some(Name("return")), [arg]);
    var st3 := st.(output := st.output + [st.indent + ("ret $_" + x)]);
    assert Compile(st, ret) == Ok((CNone, st3)) by {
      assert Compile(st, ret) == GenReturn(st, arg);
      assert Compile(st, arg) == Ok((CText("$_" + x), st));
      assert "ret $_" + x == "ret " + ("$_" + x);
    }
    assert CompileAll(st, [ret]) == Ok(([CNone], st3)) by {
      assert [ret][1..] == [];
      assert CompileAll(st3, []) == Ok(([], st3));
      assert [CNone] + [] == [CNone];
    }
  }

  lemma TwoThenOneThenOne<T>(s: seq<T>, a: T, b: T, c: T, d: T)
    ensures s + [a, b] + [c] + [d] == s + [a, b, c, d]
  {
  }

  /** `gen_func_def` for one argument x and a body that returns x. */
  lemma DefineReturningArgument(st: CState, f: string, x: string)
    ensures var body := Node(STMT_LIST, None, [Node(RETURN, Some(Name("return")), [Node(IDENT, Some(Name(x)), [])])]);
      GenFuncDef(st, Some(f), [Some(x)], body) == Ok((CNone, st.(
        output := st.output + [st.indent + ("def " + f), st.indent + " " + ("let _" + x + " $0"), st.indent + " " + ("ret $_" + x), st.indent + "end"],
        funcVar := {})))
  {
    var body := Node(STMT_LIST, None, [Node(RETURN, Some(Name("return")), [Node(IDENT, Some(Name(x)), [])])]);
    var st1 := st.(funcVar := st.funcVar + {Some(x)});
    var st2 := st1.(output := st.output + [st.indent + ("def " + f), st.indent + " " + ("let _" + x + " $0")], indent := st.indent + " ");
    assert EmitAll(Indented(VeeCompiler.Emit(st1, "def " + Show(Some(f)))), ParamLines([Some(x)])) == st2 by {
      OneParameter(st1, f, x);
    }
    var st3 := st2.(output := st2.output + [st2.indent + ("ret $_" + x)]);
    assert Compile(st2, body) == Ok((CNone, st3)) by {
      ReturnArgument(st2, x);
    }
    assert (set n | n in [Some(x)]) == {Some(x)};
    assert st.(funcVar := st.funcVar + set n | n in [Some(x)]) == st1;
    assert Dedented(st3).indent == st.indent by {
      assert (st.indent + " ")[..|st.indent|] == st.indent;
    }
    var st4 := VeeCompiler.Emit(Dedented(st3), "end").(funcVar := {});
    assert GenFuncDef(st, Some(f), [Some(x)], body) == Ok((CNone, st4));
    var (l1, l2, l3, l4) := (st.indent + ("def " + f), st.indent + " " + ("let _" + x + " $0"), st.indent + " " + ("ret $_" + x), st.indent + "end");
    assert st4.output == st.output + [l1, l2] + [l3] + [l4];
    TwoThenOneThenOne(st.output, l1, l2, l3, l4);
  }

  /**
   * `func f(x) { return x }`: the argument is bound as `_x` and read back as `$_x`:
   * exactly `def f`, ` let _x $0`, ` ret $_x`, `end`.
   */
  lemma FuncReturningArgument(st: CState, f: string, x: string)
    ensures var a := Node(FUNC_DEF, Some(Name("func")), [
        Node(VALUE, Some(Name(f)), []),
        Node(ARG_LIST, Some(Sym("(")), [Node(IDENT, Some(Name(x)), [])]),
        Node(STMT_LIST, None, [Node(RETURN, Some(Name("return")), [Node(IDENT, Some(Name(x)), [])])])]);
      Compile(st, a) == Ok((CNone, st.(
        funcs := st.funcs[Some(f) := a],
        output := st.output + [st.indent + ("def " + f), st.indent + " " + ("let _" + x + " $0"), st.indent + " " + ("ret $_" + x), st.indent + "end"],
        funcVar := {})))
  {
    var arg := Node(IDENT, Some(Name(x)), []);
    var body := Node(STMT_LIST, None, [Node(RETURN, Some(Name("return")), [arg])]);
    var a := Node(FUNC_DEF, Some(Name("func")), [Node(VALUE, Some(Name(f)), []), Node(ARG_LIST, Some(Sym("(")), [arg]), body]);
    assert ParamNames([arg]) == Ok([Some(x)]) by {
      assert [arg][1..] == [];
      assert ParamNames([]) == Ok([]);
      assert TokenValue(arg) == Ok(Some(x));
      assert [Some(x)] + [] == [Some(x)];
    }
    FuncDefDispatch(st, a, Some(f), [Some(x)]);
    DefineReturningArgument(st.(funcs := st.funcs[Some(f) := a]), f, x);
  }
}
