/**
 * The nesting-aware scans the machine uses to move its program counter: forward from a
 * failed `ife`/`ifg` to the matching `els` or `fin`, from an `els` to its `fin`, from an
 * exhausted `for` to its `nxt`, from a `def` to the next `end`, and backward from a `nxt`
 * to its `for`. Only the first token of a line (its opcode) matters to a scan.
 */
module Scans {
  import opened Wrappers
  import opened Exceptions

  type Program = seq<seq<string>>

  /** The opcode of line `k`, or "" for an empty line. */
  function Head(prog: Program, k: int): string
    requires 0 <= k < |prog|
  {
    if |prog[k]| > 0 then prog[k][0] else ""
  }

  /** Which kind of block a forward scan looks for the end of. */
  datatype Nest =
    | IfNest(elseEnds: bool)  // `ife`/`ifg` ... `fin`; an `els` at depth 0 ends the scan when `elseEnds`
    | LoopNest                // `for` ... `nxt`

  predicate Opens(n: Nest, op: string) {
    if n.IfNest? then op == "ife" || op == "ifg" else op == "for"
  }

  predicate Closes(n: Nest, op: string) {
    if n.IfNest? then op == "fin" else op == "nxt"
  }

  /** An opcode that ends the scan when it is met at depth 0. */
  predicate Ends(n: Nest, op: string) {
    Closes(n, op) || (n.IfNest? && n.elseEnds && op == "els")
  }

  function Delta(n: Nest, op: string): int {
    if Opens(n, op) then 1 else if Closes(n, op) then -1 else 0
  }

  /**
   * The scan loop from line `pc` with `depth` open inner blocks: the line of the matching
   * end. Running off the end of the program is an IndexError for the if-scans (their loop
   * reads one line past the end) and stops at the program length for the loop scan.
   */
  function Forward(prog: Program, n: Nest, pc: nat, depth: nat): (r: Result<nat, Exc>)
    requires pc <= |prog|
    ensures r.Ok? ==> pc <= r.value <= |prog|
    ensures n.LoopNest? ==> r.Ok?
    decreases |prog| - pc
  {
    if pc == |prog| then (if n.LoopNest? then Ok(|prog|) else Err(IndexError))
    else
      var op := Head(prog, pc);
      if Ends(n, op) && depth == 0 then Ok(pc)
      else if Opens(n, op) then Forward(prog, n, pc + 1, depth + 1)
      else if Closes(n, op) then Forward(prog, n, pc + 1, depth - 1)
      else Forward(prog, n, pc + 1, depth)
  }

  /** After a failed `ife`/`ifg` at `pc`: its matching `els` or `fin`. */
  function GotoIfFalse(prog: Program, pc: nat): Result<nat, Exc>
    requires pc < |prog|
  {
    Forward(prog, IfNest(true), pc + 1, 0)
  }

  /** From an `els` at `pc`: its matching `fin`. */
  function GotoIfEnd(prog: Program, pc: nat): Result<nat, Exc>
    requires pc <= |prog|
  {
    Forward(prog, IfNest(false), pc, 0)
  }

  /** After an exhausted `for` at `pc`: its matching `nxt`, or the program length. */
  function GotoLoopEnd(prog: Program, pc: nat): Result<nat, Exc>
    requires pc < |prog|
  {
    Forward(prog, LoopNest, pc + 1, 0)
  }

  /** From `pc` on, the first line whose opcode is `op`, or the program length. */
  function GotoEnd(prog: Program, pc: nat, op: string): (r: nat)
    requires pc <= |prog|
    ensures pc <= r <= |prog|
    ensures r < |prog| ==> Head(prog, r) == op
    ensures forall k :: pc <= k < r ==> Head(prog, k) != op
    decreases |prog| - pc
  {
    if pc == |prog| || Head(prog, pc) == op then pc else GotoEnd(prog, pc + 1, op)
  }

  // ---------------------------------------------------------------------------------
  // What a forward scan finds

  /** The depth of inner blocks after the lines `s .. k-1`, starting from `d`. */
  function Level(prog: Program, n: Nest, s: nat, k: nat, d: int): int
    requires s <= k <= |prog|
    decreases k - s
  {
    if k == s then d else Level(prog, n, s, k - 1, d) + Delta(n, Head(prog, k - 1))
  }

  /** Line `k` ends a block opened before line `s` (with `d` inner blocks open at `s`). */
  predicate IsEnd(prog: Program, n: Nest, s: nat, d: int, k: nat)
    requires s <= |prog|
  {
    s <= k < |prog| && Ends(n, Head(prog, k)) && Level(prog, n, s, k, d) == 0
  }

  lemma {:induction false} LevelShift(prog: Program, n: Nest, s: nat, k: nat, d: int)
    requires s < k <= |prog|
    ensures Level(prog, n, s, k, d) == Level(prog, n, s + 1, k, d + Delta(n, Head(prog, s)))
    decreases k - s
  {
    if k > s + 1 {
      LevelShift(prog, n, s, k - 1, d);
    }
  }

  /**
   * A forward scan stops at the first line that ends the block at depth 0; when there is
   * none, the if-scans fail with IndexError and the loop scan returns the program length.
   */
  lemma {:induction false} ForwardFirst(prog: Program, n: Nest, s: nat, d: nat)
    requires s <= |prog|
    ensures var r := Forward(prog, n, s, d);
      && (r.Ok? && r.value < |prog| ==>
            IsEnd(prog, n, s, d, r.value)
            && forall k :: s <= k < r.value ==> !IsEnd(prog, n, s, d, k))
      && (!(r.Ok? && r.value < |prog|) ==>
            (forall k :: s <= k < |prog| ==> !IsEnd(prog, n, s, d, k))
            && r == (if n.LoopNest? then Ok(|prog|) else Err(IndexError)))
    decreases |prog| - s
  {
    if s < |prog| {
      var op := Head(prog, s);
      if !(Ends(n, op) && d == 0) {
        var d' := d + Delta(n, op);
        assert d' >= 0 by {
          if Closes(n, op) { assert Ends(n, op); }
        }
        ForwardFirst(prog, n, s + 1, d');
        forall k | s + 1 <= k < |prog|
          ensures IsEnd(prog, n, s, d, k) == IsEnd(prog, n, s + 1, d', k)
        {
          LevelShift(prog, n, s, k, d);
        }
        assert !IsEnd(prog, n, s, d, s);
      }
    }
  }

  /** Between the start of a scan and the line it stops at, the depth is never negative. */
  lemma {:induction false} LevelsBeforeEnd(prog: Program, n: Nest, s: nat, j: nat)
    requires s <= j <= |prog|
    requires forall k :: s <= k < j ==> !IsEnd(prog, n, s, 0, k)
    ensures forall k :: s <= k <= j ==> Level(prog, n, s, k, 0) >= 0
    decreases j - s
  {
    if j > s {
      LevelsBeforeEnd(prog, n, s, j - 1);
      var op := Head(prog, j - 1);
      if Closes(n, op) {
        assert !IsEnd(prog, n, s, 0, j - 1);
      }
    }
  }

  // ---------------------------------------------------------------------------------
  // The backward scan of `nxt`

  /**
   * The backward scan from line `pc` with `depth` inner loops open, as written: it stops
   * when the counter reaches 0 without examining line 0. At the matching `for` it returns
   * the line before it, so that the driver's increment re-enters the `for`.
   */
  function BackToLoopHeadAsWritten(prog: Program, pc: int, depth: nat): int
    requires pc < |prog|
    decreases pc
  {
    if pc <= 0 then pc
    else if Head(prog, pc) == "for" then
      if depth == 0 then pc - 1 else BackToLoopHeadAsWritten(prog, pc - 1, depth - 1)
    else if Head(prog, pc) == "nxt" then BackToLoopHeadAsWritten(prog, pc - 1, depth + 1)
    else BackToLoopHeadAsWritten(prog, pc - 1, depth)
  }

  /** The same scan examining line 0 as well. */
  function BackToLoopHead(prog: Program, pc: int, depth: nat): (r: int)
    requires pc < |prog|
    ensures pc >= -1 ==> -1 <= r <= pc
    decreases pc + 1
  {
    if pc < 0 then pc
    else if Head(prog, pc) == "for" then
      if depth == 0 then pc - 1 else BackToLoopHead(prog, pc - 1, depth - 1)
    else if Head(prog, pc) == "nxt" then BackToLoopHead(prog, pc - 1, depth + 1)
    else BackToLoopHead(prog, pc - 1, depth)
  }

  /** Line `n` is the `nxt` that the forward scan of the `for` at line `f` stops at. */
  predicate LoopPair(prog: Program, f: nat, n: nat) {
    f < n < |prog| && Head(prog, f) == "for" && GotoLoopEnd(prog, f) == Ok(n)
  }

  /** The depth of inner loops just before line `k` of the body of a `for` at line `f`. */
  function BodyLevel(prog: Program, f: nat, k: nat): int
    requires f < k <= |prog|
  {
    Level(prog, LoopNest, f + 1, k, 0)
  }

  /** What the two loop scans need to know about the lines between a `for` and its `nxt`. */
  lemma LoopPairLevels(prog: Program, f: nat, n: nat)
    requires LoopPair(prog, f, n)
    ensures Head(prog, n) == "nxt" && BodyLevel(prog, f, n) == 0
    ensures forall k :: f < k <= n ==> BodyLevel(prog, f, k) >= 0
    ensures forall k :: f < k < n && Head(prog, k) == "nxt" ==> BodyLevel(prog, f, k) > 0
  {
    ForwardFirst(prog, LoopNest, f + 1, 0);
    LevelsBeforeEnd(prog, LoopNest, f + 1, n);
    forall k | f < k < n && Head(prog, k) == "nxt"
      ensures BodyLevel(prog, f, k) > 0
    {
      assert !IsEnd(prog, LoopNest, f + 1, 0, k);
    }
  }

  lemma {:induction false} BackFrom(prog: Program, f: nat, n: nat, k: int)
    requires LoopPair(prog, f, n)
    requires f <= k < n
    ensures BodyLevel(prog, f, k + 1) >= 0
    ensures BackToLoopHead(prog, k, BodyLevel(prog, f, k + 1) as nat) == f - 1
    ensures f > 0 ==> BackToLoopHeadAsWritten(prog, k, BodyLevel(prog, f, k + 1) as nat) == f - 1
    ensures f == 0 ==> BackToLoopHeadAsWritten(prog, k, BodyLevel(prog, f, k + 1) as nat) == 0
    decreases k
  {
    LoopPairLevels(prog, f, n);
    if k > f {
      BackFrom(prog, f, n, k - 1);
      var op := Head(prog, k);
      assert BodyLevel(prog, f, k + 1) == BodyLevel(prog, f, k) + Delta(LoopNest, op);
    }
  }

  /**
   * `nxt` returns to its own `for`: scanning back from the `nxt` that closes a `for` at
   * line `f` lands on line `f - 1`, so the next line executed is the `for`.
   */
  lemma NxtReturnsToFor(prog: Program, f: nat, n: nat)
    requires LoopPair(prog, f, n)
    ensures BackToLoopHead(prog, n - 1, 0) == f - 1
  {
    LoopPairLevels(prog, f, n);
    BackFrom(prog, f, n, n - 1);
  }

  /** As written, the scan agrees for every `for` except one on line 0. */
  lemma NxtAsWritten(prog: Program, f: nat, n: nat)
    requires LoopPair(prog, f, n)
    ensures f > 0 ==> BackToLoopHeadAsWritten(prog, n - 1, 0) == f - 1
    ensures f == 0 ==> BackToLoopHeadAsWritten(prog, n - 1, 0) == 0
  {
    LoopPairLevels(prog, f, n);
    BackFrom(prog, f, n, n - 1);
  }

  /**
   * A loop on line 0: as written, the `nxt` resumes at line 0 + 1, the body, and never
   * re-enters the `for`; the corrected scan resumes at line 0 - 1 + 1, the `for`.
   */
  lemma LoopAtLineZero()
    ensures var prog: Program := [["for", "i", "3"], ["prt", "$i"], ["nxt"]];
      && LoopPair(prog, 0, 2)
      && BackToLoopHeadAsWritten(prog, 1, 0) + 1 == 1
      && BackToLoopHead(prog, 1, 0) + 1 == 0
  {
    var prog: Program := [["for", "i", "3"], ["prt", "$i"], ["nxt"]];
    assert Head(prog, 2) == "nxt" && Head(prog, 1) == "prt" && Head(prog, 0) == "for";
    assert Forward(prog, LoopNest, 2, 0) == Ok(2);
    assert Forward(prog, LoopNest, 1, 0) == Ok(2);
  }
}
