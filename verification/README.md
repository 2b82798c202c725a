# A verified model of the runtime-py scripting toolchain

runtime-py is a small toolchain with two parts.

The first is a line-oriented virtual machine (`runtime.py`). Its loader turns program text
into one token list per source line, plus a label table and a function table. Its evaluator
then runs the lines one at a time. Each line is an instruction:
- `let`, arithmetic, `prt`;
- jumps to labels;
- `ife`/`ifg`/`els`/`fin` blocks;
- `def`/`cal`/`ret`/`end` functions;
- `for`/`nxt` loops;
- list and map operations.

An optional output device is a character display (`oled/oled.py`) of 7 rows of 21
characters. It wraps text at the right edge and scrolls at the bottom.

The second part is Vee, a small source language that compiles to that instruction set. It
has three stages:
- a state-machine tokenizer (`vee/tokenizer.py`);
- a recursive-descent parser with precedence climbing (`vee/parser.py`);
- a code generator that walks the syntax tree and emits instruction lines (`vee/compiler.py`).

The project models each part in the form the code has:
- **Imperative code becomes classes.** The objects the Python code updates in place are
  Dafny classes whose methods change their fields: the evaluator, the display buffer, the
  tokenizer, the parser cursor and the compiler. Each method is proved against a
  specification function of the old state.
- **The spec functions carry the properties.** The lemmas about how instructions, tokens,
  trees and emitted lines behave are stated on those functions.
- **Errors are values.** A Python exception the code can raise becomes an `Err` of an
  `Exc` value (`Exceptions.Exc`): IndexError, KeyError, TypeError, ValueError,
  ZeroDivisionError, SyntaxError, RecursionError. `NotModelled` marks a case whose
  behaviour the model does not follow (see "Left out").

Modules and files:
- `wrappers.dfy`: Option, Result and the exception values.
- `text.dfy`: decimal text, `strip` and `split`.
- `values.dfy`: VM values on a heap of shared containers, Python `==`, `<`, `+`, `//`, `%`, `chr`/`ord`.
- `oled.dfy`: the display buffer.
- `loader.dfy`: `Parser.parse` / `_tokenize` of `runtime.py`.
- `scans.dfy`: the nesting-aware scans that move the program counter.
- `vm.dfy` and `vm_laws.dfy`: one instruction, the driver loop, and what each instruction does.
- `machine.dfy`: the `Evaluator` object.
- `lexer.dfy`: the tokenizer.
- `parser.dfy`: the parser.
- `compiler.dfy`, `compiler_laws.dfy` and `compiler_class.dfy`: the code generator.

Python integers are unbounded, as Dafny's are, so no width is modelled. Python's `//` and
`%` round towards negative infinity and are written out (`Values.FloorDiv`, `Values.FloorMod`).

## Model

| member | source | states |
|---|---|---|
| Text.NatToString | runtime.py:364-372 | the decimal text of a natural number is all digits with no leading zero |
| Text.DigitsOfNat | runtime.py:143-148 | reading the digits of `str(n)` back gives `n` |
| Text.IntRoundTrip | runtime.py:143-148 | `int(str(i)) == i` for every integer, negative ones included |
| Text.IntToStringInjective | runtime.py:370-372 | distinct integers have distinct decimal texts |
| Text.Strip | runtime.py:19 | `strip()` removes exactly the whitespace run at each end: the result is a contiguous piece of the line, everything before and after it is whitespace, and it neither starts nor ends with whitespace |
| Text.StripLeft | runtime.py:19 | the result is the suffix left after the leading whitespace run: every removed character is whitespace and the result does not start with whitespace |
| Text.StripRight | runtime.py:19 | the result is the prefix left before the trailing whitespace run: every removed character is whitespace and the result does not end with whitespace |
| Text.Split | runtime.py:16 | `split` gives one more piece than there are separators, and no piece contains the separator |
| Text.SplitJoin | runtime.py:16 | joining the pieces of `split` with the separator gives back the text |
| Values.Alloc | runtime.py:260-263 | `[]` and `{}` allocate a fresh container at the end of the heap and leave every existing container unchanged |
| Values.Find | runtime.py:447-481 | the index found is the first entry with that key; no entry has the key when nothing is found |
| Values.MapPut | runtime.py:447-456 | `d[k] = v` replaces the value of an existing key in its place, otherwise appends the entry last |
| Values.KeysOf | runtime.py:473-476 | the keys of a map in insertion order, one per entry |
| Values.MapPutLookup | runtime.py:447-472 | after `d[k] = v`, `d.get(k)` is `v` and every other key keeps its value |
| Values.FindIs | runtime.py:447-481 | an index holding the key with no earlier entry holding it is what the lookup finds |
| Values.FindNone | runtime.py:447-481 | a key held by no entry is not found |
| Values.MapPutDistinct | runtime.py:447-456 | storing under a key keeps the keys of a map distinct |
| Values.RemoveAt | runtime.py:477-481 | `del` of a list index removes that one element and keeps the others in order |
| Values.CompareItemsAll | runtime.py:133-141 | the element-wise comparison succeeds with true exactly when every pair compares equal |
| Values.CompareLists | runtime.py:133-141 | two lists compare equal iff they have the same length and pairwise-equal elements |
| Values.CompareScalar | runtime.py:133-141 | comparing with a scalar on the left is plain equality |
| Values.CompareSelfNested | runtime.py:133-141 | a list that contains itself makes the comparison raise RecursionError |
| Values.ToInt | runtime.py:364-369 | `int(v)` keeps integers; on text it succeeds exactly when the text is a numeral, giving the integer the numeral denotes, and is a ValueError otherwise; nil and containers are a TypeError |
| Values.Chr | runtime.py:329-330 | `chr(n)` is the one-character string with code `n`; every code point outside the surrogates succeeds; an argument outside the C `int` range is an OverflowError and any other value outside 0..0x10FFFF a ValueError |
| Values.Ord | runtime.py:339-340 | `ord(s)` succeeds exactly on one-character strings and gives that character's code |
| Values.Repeat | runtime.py:347-349 | a string repeated n times is n times as long |
| Values.RepeatChars | runtime.py:347-349 | character i of a non-empty string repeated is character i mod its length of the string: the result is copies of the string and nothing else |
| Values.RepeatAdd | runtime.py:347-349 | repeating n + m times is repeating n times and then m times |
| Values.FloorDivMod | runtime.py:352-361 | `//` and `%` rebuild the dividend, the remainder has the divisor's sign and is smaller than it, and they agree with Euclidean division for a positive divisor |
| Values.FloorExamples | runtime.py:352-361 | illustration of `FloorDivMod`: `7 // -2 == -4` and `7 % -2 == -1`, where Euclidean division gives -3, and `-7 // 2 == -4` with `-7 % 2 == 1` |
| Values.StrLtTotal | runtime.py:306-311 | `<` on strings is irreflexive, asymmetric and total on distinct strings |
| Values.ChrOrdRoundTrip | runtime.py:325-342 | `add nil n` then `sub c nil` are inverse: chr and ord round-trip |
| Values.AddText | runtime.py:325-334 | with a string on either side `add` concatenates the texts of both operands |
| Values.NumeralToInt | runtime.py:364-372 | `int(str(i))` is `i` for every integer: the decimal text of an integer is numeric and reads back to it |
| Values.ToStr | runtime.py:370-372 | `str(v)` of an integer is a numeral that reads back to it; of a string the string itself; of nil `None` |
| Values.TypeName | runtime.py:373-386 | `typ` names the kind of a value: `nil`, `int`, `str`, `list` or `map` exactly when the value is of that kind, and `err` for anything else |
| Values.Len | runtime.py:438-443 | `len` is the length of a string, a list or a map, and a TypeError for nil and integers |
| Values.Lt | runtime.py:306-308 | `<` is defined exactly on two integers or two strings: integer order, or code-point lexicographic order |
| Values.Le | runtime.py:315-317 | `<=` is defined exactly on two integers or two strings, and agrees with integer order |
| Values.LeNotLt | runtime.py:306-317 | on integers and strings `a <= b` is the negation of `b < a` |
| Values.Add | runtime.py:325-334 | `+` of two integers is their sum, and of two lists a fresh list of the items of both, in order; a success only ever grows the heap |
| Values.Sub | runtime.py:335-342 | `-` of two integers is their difference; a string minus nil succeeds exactly for a one-character string; every success is an integer |
| Values.Mul | runtime.py:343-351 | `*` of two integers is their product; a string times a positive integer is exactly that string repeated that many times (Repeat, whose contents RepeatChars states); nil, containers, and an integer times nil or a container are a TypeError |
| Values.Div | runtime.py:357-361 | `//` succeeds exactly on two integers with a non-zero divisor, and a zero divisor is a ZeroDivisionError |
| Values.Mod | runtime.py:352-356 | `%` succeeds exactly on two integers with a non-zero divisor; a zero divisor is a ZeroDivisionError |
| Values.DivModValues | runtime.py:352-361 | the `div` and `mod` results satisfy `a == b * q + m`, with `m` zero or of the divisor's sign and smaller than it in magnitude |
| Oled.BlankRow | oled/oled.py:13 | a row is 21 spaces |
| Oled.Initial | oled/oled.py:9-17 | a fresh display has 7 blank rows of 21 characters and the cursor at the top left |
| Oled.Newline | oled/oled.py:35-39 | a newline moves the cursor to column 0 of the next row, appending a blank row when it moves past the last one |
| Oled.PutChar | oled/oled.py:40-48 | a character advances the cursor one column, wrapping first to column 1 of the next row when the row is full |
| Oled.PutCharCell | oled/oled.py:40-48 | a printable character overwrites exactly the cell before the new cursor; every other cell of every row is unchanged |
| Oled.PutCharInRow | oled/oled.py:40-48 | on a row that is not full, a character overwrites the cell at the cursor and the cursor moves one column right on the same row |
| Oled.CharStep | oled/oled.py:34-48 | one character keeps every row 21 wide and the cursor inside the buffer |
| Oled.Feed | oled/oled.py:34-48 | the per-character loop keeps every row 21 wide and the cursor inside the buffer |
| Oled.Overwrite | oled/oled.py:46-47 | replacing the cells from a column on keeps the row's length |
| Oled.Scroll | oled/oled.py:49-52 | when the cursor ended below row 7, only the last 7 rows are kept and the cursor moves to the bottom row, keeping its row's content and its column; otherwise nothing changes |
| Oled.Printed | oled/oled.py:32-52 | after `print` the buffer again has exactly 7 rows of 21 characters with the cursor inside it |
| Oled.FeedInRow | oled/oled.py:40-48 | text without newlines that fits on the cursor's row is written over the cells from the cursor on, and nothing else changes |
| Oled.NewlineInside | oled/oled.py:33-39 | printing an empty line above the bottom row only moves the cursor to the next row |
| Oled.NewlineAtBottom | oled/oled.py:33-52 | printing an empty line on the bottom row drops the top row and adds a blank row at the bottom |
| Oled.Display.constructor | oled/oled.py:9-17 | the new buffer is 7 blank rows with the cursor at row 0, column 0 |
| Oled.Display.Print | oled/oled.py:32-52 | the fields after `print(text, end)` are the buffer and cursor that `Printed` gives for the old ones |
| Oled.Display.NewRow | oled/oled.py:35-39 | the newline branch updates the fields as `Newline` does |
| Oled.Display.WriteChar | oled/oled.py:40-48 | the character branch updates the fields as `PutChar` does |
| Loader.Literal | runtime.py:56-74 | a quoted literal ends at a closing quote at or after its start |
| Loader.Tokenize | runtime.py:43-88 | the splitting loop returns what the line-splitting function gives, or its IndexError |
| Loader.ScanNoEmpty | runtime.py:47-87 | the outer splitting loop never adds an empty token |
| Loader.AfterQuoteNoEmpty | runtime.py:49-74 | a quoted literal never adds an empty token |
| Loader.SplitLineNoEmpty | runtime.py:43-88 | no token of a line is empty |
| Loader.Before | runtime.py:75-77 | the text kept before a comment contains no '/' |
| Loader.PlainStop | runtime.py:75-87 | at the end of the line or at a '/', the pending word is the last token |
| Loader.PlainScan | runtime.py:47-87 | on text without quotes the splitter returns the space-separated words up to the first '/' |
| Loader.PlainLine | runtime.py:43-88 | a line without quotes splits into the words before its first '/' |
| Loader.LiteralSkip | runtime.py:56-74 | inside a literal, characters other than quotes and backslashes are copied unchanged |
| Loader.UnterminatedLiteral | runtime.py:56-74 | a literal without a closing quote makes the line fail with an error |
| Loader.EscapedLiteral | runtime.py:59-71 | a literal with one escape is one token that keeps its quotes, with the escape decoded |
| Loader.QuotedLiteral | runtime.py:49-74 | a literal without escapes is one token, quotes included |
| Loader.LoadFrom | runtime.py:18-40 | the loading loop adds exactly one token list per remaining line |
| Loader.NextLabels | runtime.py:24-35 | after a non-blank line the global table and the table of the function being read are present, and a `def` line leaves its function an empty table |
| Loader.Parse | runtime.py:8-41 | the loading method returns the program image the loading function gives |
| Loader.RecordLabel | runtime.py:25-30 | a `#name` line records its label at its line number in the table of the current function, or in the global table outside functions |
| Loader.Enter | runtime.py:24-38 | the per-line bookkeeping leaves the label tables, the function table and the current function as one step of the loading loop defines them |
| Loader.LabelsGrow | runtime.py:25-30 | label entries recorded for earlier lines stay correct when one more line is read |
| Loader.FuncsGrow | runtime.py:31-35 | function entries recorded for earlier lines stay correct when one more line is read |
| Loader.LabelAdded | runtime.py:25-30 | recording a `#name` line keeps every label pointing at a `#` line of its name |
| Loader.TableAdded | runtime.py:31-35 | the empty label table a `def` opens keeps the label invariant |
| Loader.FuncAdded | runtime.py:31-35 | recording a `def` line keeps every function entry pointing at a `def` line of its name |
| Loader.LineAdded | runtime.py:39-40 | appending a line's tokens keeps one token list per source line |
| Loader.LoadFromConsistent | runtime.py:18-40 | the loading loop preserves the agreement between the image and the lines read |
| Loader.LoadProgramConsistent | runtime.py:8-41 | soundness of loading: one token list per line, blank and comment lines empty, every function entry the index of a `def` line of that name and every label the index of a `#` line of that name |
| Loader.LoadProgramComplete | runtime.py:18-40 | completeness of loading: every `def f` line has an entry for `f` at it or later; every `#name` line has an entry in the table of the function whose body holds it (or global, after `end` or outside functions), at it or later, unless a later `def` of that function emptied the table; every label lies in its table's scope |
| Loader.LastDefWins | runtime.py:31-35 | the entry of `f` is the last `def f` line |
| Loader.LastLabelWins | runtime.py:24-35 | the entry of a label is the last `#name` line of that name in its scope |
| Scans.Forward | runtime.py:164-196 | a forward scan stops at or after its start and never past the end; the loop scan always succeeds |
| Scans.GotoEnd | runtime.py:198-200 | the scan stops at the first line from the start with the keyword, or at the program length when there is none |
| Scans.ForwardFirst | runtime.py:164-196 | a forward scan stops at the first line that closes the block at depth 0; without one the if-scans raise IndexError and the loop scan returns the program length |
| Scans.LevelsBeforeEnd | runtime.py:164-196 | between the start of a scan and where it stops, the nesting depth is never negative |
| Scans.BackToLoopHead | runtime.py:202-216 | the backward scan (line 0 examined) lands between -1 and its start |
| Scans.LoopPairLevels | runtime.py:202-231 | inside a `for` ... `nxt` pair the inner loops are balanced: the depth is never negative and is 0 only at the closing `nxt` |
| Scans.BackFrom | runtime.py:202-216 | scanning back from anywhere in a loop body lands on the line before its `for` |
| Scans.NxtReturnsToFor | runtime.py:202-216 | `nxt` goes back to the `for` it closes, so the next line executed is that `for` |
| Scans.NxtAsWritten | runtime.py:202-216 | as written, the backward scan agrees with the corrected one except for a `for` on line 0 |
| Scans.LoopAtLineZero | runtime.py:202-216 | for a loop on line 0, the scan as written resumes at the body; the corrected one resumes at the `for` |
| Vm.Arg | runtime.py:277-572 | operand k of an instruction exists exactly when the line has more than k tokens; otherwise IndexError |
| Vm.Local | runtime.py:109-119 | a name lives in the top frame iff it is `ret` or starts with `_` and a call is active |
| Vm.Assign | runtime.py:109-113 | binding a name changes only the names: counter, loops, heap, output and stack depth are kept |
| Vm.AssignThenGet | runtime.py:109-119 | reading a name just bound gives the value bound |
| Vm.AssignOther | runtime.py:109-119 | binding one name leaves every other name's value as it was |
| Vm.AssignScope | runtime.py:109-113 | outside a call every name is global; inside one, `ret` and `_`-names go to the top frame only |
| Vm.Expr | runtime.py:233-273 | an operand evaluates iff it is non-empty, and evaluation only allocates on the heap |
| Vm.ExprForms | runtime.py:233-273 | `$nil` is nil, `[]` and `{}` are fresh containers, a quoted token is its text, a numeral is its integer |
| Vm.ExprVariable | runtime.py:235-259 | `$x` is the top frame's `x` when the frame binds it, else the global `x`, nil when unbound, with one pair of quotes removed |
| Vm.Convert | runtime.py:284-386 | `let`, `int`, `str`, `typ` change only the names and the heap: the counter, stack depth, loops and output stay |
| Vm.Print | runtime.py:150-158 | `prt` changes only the heap and the output, and only appends to the output |
| Vm.Arith | runtime.py:325-361 | arithmetic changes only the names and the heap |
| Vm.Push | runtime.py:391-402 | `psh` leaves the counter where it is |
| Vm.Pop | runtime.py:403-417 | `pop` changes only the names and the heap |
| Vm.Poll | runtime.py:418-437 | `pol` keeps the counter, stack depth and loops, and only appends to the output |
| Vm.Length | runtime.py:438-443 | `len` changes only the names |
| Vm.Put | runtime.py:447-456 | `put` changes only the names and the heap |
| Vm.Get | runtime.py:457-472 | `get` changes only the names and the heap |
| Vm.Keys | runtime.py:473-476 | `key` changes only the names and the heap |
| Vm.Delete | runtime.py:477-481 | `del` changes only the heap, which does not shrink |
| Vm.LoopItems | runtime.py:545-555 | the items a `for` walks are a list in the heap, which only grows; a list range is walked in place |
| Vm.GotoLabel | runtime.py:121-131 | a jump to a known label sets the counter to the line before it; an unknown label prints the invalid-label message and moves nothing; a missing scope table is a KeyError |
| Vm.PushEach | runtime.py:391-402 | `psh` does not move the counter |
| Vm.Splice | runtime.py:452-454 | replacing one character of a string keeps its length and every other character |
| Vm.BindArgs | runtime.py:527-532 | evaluating a call's arguments changes neither the counter nor the stack |
| Vm.Call | runtime.py:527-538 | a call leaves a valid counter |
| Vm.Return | runtime.py:519-526 | a return leaves a valid counter |
| Vm.Range | runtime.py:548-549 | `range(n)` is the integers 0 .. n-1, empty when n is not positive |
| Vm.Chars | runtime.py:552-553 | a string is walked as its characters, each a one-character string |
| Vm.For | runtime.py:542-570 | a `for` leaves a valid counter |
| Vm.ForVisit | runtime.py:562-570 | one visit of a recorded loop leaves a valid counter |
| Vm.Step | runtime.py:277-572 | one instruction leaves the counter at -1 or after it |
| Vm.Cycle | runtime.py:594-596 | one turn of the driver loop leaves a non-negative counter |
| Vm.Run | runtime.py:594-596 | the driver loop keeps a non-negative counter, and zero turns change nothing |
| VmLaws.Jump | runtime.py:298-299 | `jmp` to a known label executes the label's line next; an unknown label prints an error and execution goes on with the next line |
| VmLaws.ConvertNumber | runtime.py:284-386 | `let`/`int` of a numeral bind its integer, `str` its decimal text and `typ` the name `int`, and execution goes on with the next line |
| VmLaws.ConvertText | runtime.py:284-386 | of a quoted text, `int` binds the integer a numeral denotes or nil, `typ` binds `str`, `let`/`str` the text |
| VmLaws.PrintText | runtime.py:150-158 | `prt` appends the text, then the given end text or a newline |
| VmLaws.PrintNil | runtime.py:150-158 | `prt $nil` appends `(nil)` and a newline |
| VmLaws.ArithIntegers | runtime.py:325-361 | on two integers `add`/`sub`/`mul`/`div`/`mod` bind Python's `+ - * // %`; a zero divisor raises ZeroDivisionError |
| VmLaws.CondJumpIntegers | runtime.py:300-311 | on two integers `jeq`/`jne`/`jlt`/`jgt` jump to the label exactly when `== != < >` holds, and otherwise go on with the next line |
| VmLaws.CondJumpEquality | runtime.py:300-305 | `jeq` jumps exactly when the deep comparison holds and `jne` exactly when it fails |
| VmLaws.BindArgsState | runtime.py:527-532 | evaluating a call's arguments changes nothing but the heap, which keeps its objects and gains exactly one per `[]`/`{}` argument |
| VmLaws.BindArgsNames | runtime.py:527-532 | evaluating a call's arguments adds exactly the names "i", ..., "i+n-1" and keeps every other binding |
| VmLaws.BindArgsAt | runtime.py:529-530 | argument j is bound to "i+j" with the value it denotes: a fresh reference numbered by the allocating arguments before it for `[]`/`{}`, otherwise what `expr` gives in the calling state |
| VmLaws.BindArgsBinds | runtime.py:527-532 | the arguments' scope is exactly "i+j" := value of argument j over the old bindings, and only the heap changes |
| VmLaws.ExprGrowth | runtime.py:260-263 | evaluating an operand allocates one object for `[]`/`{}` and none for any other operand |
| VmLaws.PlainOperand | runtime.py:233-273 | an operand other than `[]`/`{}` leaves the state unchanged |
| VmLaws.CallScope | runtime.py:528-530 | the scope a call opens holds exactly "0", ..., "n-1", each bound to what the argument at that position denotes |
| VmLaws.CallFrame | runtime.py:531-538 | the pushed frame names the function, the calling line and the argument scope; globals, loops and output are kept |
| VmLaws.CallPushes | runtime.py:527-538 | `cal` with a defined function pushes the argument frame and jumps to its `def` line |
| VmLaws.CallEnters | runtime.py:527-538 | `cal f a0 ...` pushes a frame for `f` that remembers the calling line and whose scope is exactly "k" := value of argument k; the heap gains one object per `[]`/`{}` argument; the line after `def f` runs next; globals, loops and output are kept |
| VmLaws.ReturnValue | runtime.py:519-526 | `ret v` pops the frame, binds `ret` to v in the scope current after the pop, and resumes after the `cal` |
| VmLaws.EndReturns | runtime.py:519-526 | `end` pops the frame without binding anything and resumes after the `cal` |
| VmLaws.ReturnWithoutCall | runtime.py:519-526 | `ret` or `end` outside a call raises IndexError |
| VmLaws.DefSkipsBody | runtime.py:198-200 | a `def` reached in sequence skips to the line after the first following `end` |
| VmLaws.IfeSkips | runtime.py:164-181 | a failed `ife` continues after its matching `els` or `fin`, passing over nested blocks; without one it raises IndexError |
| VmLaws.IfeEnters | runtime.py:312-314 | an `ife` whose operands compare equal continues with the next line |
| VmLaws.IfgIntegers | runtime.py:315-317 | `ifg` on integers enters its block exactly when the first operand is greater |
| VmLaws.ElsSkips | runtime.py:183-196 | an `els` reached in sequence continues after its matching `fin` |
| VmLaws.LoopItemsInt | runtime.py:548-549 | an integer N is walked as a fresh list 0 .. N-1 |
| VmLaws.ForRecords | runtime.py:545-560 | the first visit of `for v N` records a fresh list 0 .. N-1 for `v` |
| VmLaws.ForVisitNext | runtime.py:562-570 | a visit with items left binds the next item to the loop variable and advances the index |
| VmLaws.ForVisitDone | runtime.py:562-567 | a visit with no items left drops the loop state and moves to the matching `nxt` |
| VmLaws.ForFirstEmpty | runtime.py:545-567 | `for v N` with N <= 0 skips the loop and leaves no loop state |
| VmLaws.ForFirstBind | runtime.py:545-570 | `for v N` with N > 0 binds `v` to 0 and records index 1 |
| VmLaws.ForFirstVisit | runtime.py:542-570 | the first visit of `for v N` walks 0 .. N-1: `v` is 0 and the body runs next; N <= 0 skips to after the `nxt` |
| VmLaws.ForLaterVisit | runtime.py:542-570 | a later visit binds the next item or, when none is left, deletes the loop state and continues after the `nxt` |
| VmLaws.NxtLoops | runtime.py:571-572 | `nxt` makes the `for` it closes the next line executed |
| VmLaws.TakeFromEmpty | runtime.py:403-437 | `pop`/`pol` of an empty string give '' and of an empty list nil, and the source is unchanged |
| VmLaws.PopList | runtime.py:403-417 | `pop` takes the last element out of the shared list itself |
| VmLaws.PollList | runtime.py:418-437 | `pol` gives the first element and rebinds the name to a fresh list of the rest, leaving the old list untouched |
| VmLaws.GetPastEnd | runtime.py:457-472 | `get` past the end of a list gives nil, and of a string '' |
| VmLaws.PutString | runtime.py:447-456 | `put` on a string rebinds it with exactly the character at the index replaced |
| VmLaws.PushList | runtime.py:391-402 | `psh` onto a list appends to the shared list in place, so every alias sees the change |
| VmLaws.LengthOf | runtime.py:438-443 | `len` binds the length of a string, list or map |
| VmLaws.GetInRange | runtime.py:457-472 | `get` at an index inside a list binds the element, inside a string the character |
| VmLaws.PutMap | runtime.py:447-456 | `put` on a map updates its entry in place, or adds it; an unhashable key is a TypeError |
| VmLaws.PutList | runtime.py:447-456 | `put` on a list sets the element at an index inside it in place, and an index past the end is an IndexError |
| VmLaws.GetAfterPut | runtime.py:447-472 | a `get` after a `put` on the same map and key reads back the value put |
| VmLaws.PlainElsewhere | runtime.py:233-273 | an operand other than `[]`/`{}` denotes the same value whatever the heap |
| VmLaws.KeysList | runtime.py:473-476 | `key` binds a fresh list of the map's keys in insertion order |
| VmLaws.DeleteMapKey | runtime.py:477-481 | `del` removes the key's entry from the map in place, and a missing key raises KeyError |
| VmLaws.RunIsDrive | runtime.py:594-596 | the driver loop is the generic loop that repeats one cycle until the counter leaves the program or a cycle raises |
| VmLaws.DriveMoreFuel | runtime.py:594-596 | a loop that has stopped (the counter left the program or a cycle raised) is not changed by more turns, for any cycle function and so, by `RunIsDrive`, for the driver loop |
| VmLaws.DriveSplit | runtime.py:594-596 | a + b turns are a turns followed by b more, for any cycle function and so, by `RunIsDrive`, for the driver loop |
| Interp.Evaluator.constructor | runtime.py:585-590 | a fresh machine: counter 0, no frames, no names, no loops, nothing printed |
| Interp.Evaluator.Load | runtime.py:585-590 | the fields hold the given state |
| Interp.Evaluator.Apply | runtime.py:277-572 | the fields take on a successful outcome, or the exception of a failed one is reported |
| Interp.Evaluator.Assign | runtime.py:109-113 | binding in place leaves the fields as the binding function gives |
| Interp.Evaluator.GetVarVal | runtime.py:115-119 | the value read is the one the read function gives; outside a call it is the global value, or nil |
| Interp.Evaluator.Eval1 | runtime.py:233-273 | evaluating an operand returns its value and changes only the heap |
| Interp.Evaluator.GotoLabel | runtime.py:121-131 | the jump leaves the fields as the jump function gives |
| Interp.Evaluator.ScanForward | runtime.py:164-196 | the forward scan loop moves the counter to where `Forward` stops, or reports its IndexError |
| Interp.Evaluator.GotoIfFalse | runtime.py:164-181 | the counter moves to the matching `els`/`fin` |
| Interp.Evaluator.GotoIfEnd | runtime.py:183-196 | the counter moves to the matching `fin` |
| Interp.Evaluator.GotoLoopEnd | runtime.py:218-231 | the counter moves to the matching `nxt` |
| Interp.Evaluator.GotoEnd | runtime.py:198-200 | the counter moves to the next `end` |
| Interp.Evaluator.BackToLoopHead | runtime.py:202-216 | the backward loop moves the counter to the line before the `for`, with line 0 examined |
| Interp.Evaluator.CondJump | runtime.py:300-311 | compare-and-jump leaves the fields as the instruction's semantics gives |
| Interp.Evaluator.If | runtime.py:312-317 | the conditional leaves the fields as the instruction's semantics gives |
| Interp.Evaluator.Push | runtime.py:391-402 | the push loop leaves the fields as the push semantics gives |
| Interp.Evaluator.Call | runtime.py:527-538 | the call leaves the fields as the call semantics gives |
| Interp.Evaluator.Return | runtime.py:519-526 | the return leaves the fields as the return semantics gives |
| Interp.Evaluator.For | runtime.py:542-570 | the loop step leaves the fields as the loop semantics gives |
| Interp.Evaluator.Eval | runtime.py:277-572 | executing the line at the counter leaves the fields as one instruction gives |
| Interp.Evaluator.Run | runtime.py:594-596 | the driver loop leaves the fields as the bounded run gives |
| Lexer.AddCurrent | vee/tokenizer.py:41-52 | flushing the pending word adds at most one token, advances the column by its length, and changes nothing when no word is pending |
| Lexer.WordWellFormed | vee/tokenizer.py:41-52 | a flushed word is NUM when all digits, KEY when a keyword, IDN otherwise |
| Lexer.AddCurrentKeeps | vee/tokenizer.py:41-52 | flushing keeps every token well formed and the lines ordered |
| Lexer.PlainKeeps | vee/tokenizer.py:108-122 | a character outside strings and comments keeps the token invariant |
| Lexer.PendingKeeps | vee/tokenizer.py:89-102 | a lone '/' followed by another character keeps the invariant |
| Lexer.FeedKeeps | vee/tokenizer.py:60-122 | one character keeps the invariant, as written and corrected |
| Lexer.RunKeeps | vee/tokenizer.py:60-122 | the loop over the characters keeps the invariant |
| Lexer.LexShape | vee/tokenizer.py:58-126 | the tokens end with exactly one EOF with no value, after well-formed tokens whose lines never decrease |
| Lexer.FeedExtends | vee/tokenizer.py:60-122 | one character only ever appends tokens |
| Lexer.RunExtends | vee/tokenizer.py:60-122 | recorded tokens are never changed; new ones are only appended |
| Lexer.WordAccumulates | vee/tokenizer.py:121-122 | word characters only extend the pending word |
| Lexer.LexWord | vee/tokenizer.py:58-126 | a maximal run of word characters lexes to one word token followed by EOF |
| Lexer.StringLiteral | vee/tokenizer.py:62-70 | text between two identical quotes is one STR token, verbatim |
| Lexer.StringBody | vee/tokenizer.py:62-70 | inside a string every character other than the closing quote is kept |
| Lexer.RunAppend | vee/tokenizer.py:60-122 | lexing two pieces of text is lexing the first, then the second |
| Lexer.Symbol | vee/tokenizer.py:118-120 | any other character is a single-character SYM token, after the pending word |
| Lexer.Newline | vee/tokenizer.py:108-114 | a newline flushes the word, records a NEL token and starts the next line at column 1 |
| Lexer.LineCommentSkipped | vee/tokenizer.py:72-106 | `//` swallows the rest of the line; the newline counts a line but records no token |
| Lexer.LineCommentBody | vee/tokenizer.py:72-78 | inside a line comment characters other than newline change nothing |
| Lexer.BlockCommentSkipped | vee/tokenizer.py:72-106 | a block comment records nothing and counts the newlines it contains |
| Lexer.BlockCommentBody | vee/tokenizer.py:72-88 | inside a block comment only newlines change the state |
| Lexer.BlockStarStar | vee/tokenizer.py:79-88 | after a '*' in a block comment a '/' closes it, while a second '*' returns to the plain block state, so `**/` does not close it |
| Lexer.SlashAsWritten | vee/tokenizer.py:99-102 | as written, "a/b+c" records a '/' before "+" and another before "c" |
| Lexer.SlashResolved | vee/tokenizer.py:89-102 | for every state with a pending '/' and every character that starts no comment: corrected, the pending word and one '/' symbol are recorded, the tokenizer is back in the plain state and the character is handled exactly as there; as written, the state stays pending |
| Lexer.SlashCorrectedExample | vee/tokenizer.py:99-102 | illustration of the corrected pending-slash state: "a/b+c" is a, '/', b, '+', c and EOF |
| Lexer.Tokenizer.constructor | vee/tokenizer.py:35-39 | a fresh tokenizer: no tokens, line 1, column 1, no pending word |
| Lexer.Tokenizer.AddCurrentToken | vee/tokenizer.py:41-52 | the fields change as flushing the pending word does |
| Lexer.Tokenizer.AddToken | vee/tokenizer.py:54-56 | the token is recorded at the current position and the column moves past its text |
| Lexer.Tokenizer.PlainChar | vee/tokenizer.py:108-122 | a character outside strings and comments updates the fields as the lexer's plain step does, and reports the quote it opens |
| Lexer.Tokenizer.Tokenize | vee/tokenizer.py:58-126 | `tokenize` returns all the tokens the corrected lexer gives, or its error |
| VeeParser.OperatorNode | vee/parser.py:143-153 | an operator over two expressions is an expression |
| VeeParser.PeekAt | vee/parser.py:103-107 | `peek` gives the token at the cursor, and a SyntaxError past the end |
| VeeParser.ConsumeAt | vee/parser.py:92-101 | `consume` succeeds iff the token has the kind and text asked for, and then moves past it; otherwise SyntaxError, or IndexError past the end |
| VeeParser.ExpressionAt | vee/parser.py:116-157 | `parse_expression` gives nothing only at a '}' or ']', and otherwise an expression tree that consumed at least one token |
| VeeParser.ExpressionTail | vee/parser.py:129-153 | the precedence loop keeps the tree an expression and never moves backwards |
| VeeParser.AtomAt | vee/parser.py:171-200 | `parse_atom` consumes at least one token and gives an expression tree |
| VeeParser.IndexTail | vee/parser.py:186-192 | the subscript loop keeps the tree an expression |
| VeeParser.ExpressionListAt | vee/parser.py:159-169 | `parse_expression_list` gives a list node with the opener's token and ends just after the paired closer |
| VeeParser.ListTail | vee/parser.py:162-168 | the item loop ends just after the closer and keeps a well-shaped list |
| VeeParser.BlockAt | vee/parser.py:202-206 | `parse_block` is a statement list between '{' and '}' |
| VeeParser.ArgsAt | vee/parser.py:208-219 | `parse_args` gives one identifier leaf per parameter |
| VeeParser.ArgsTail | vee/parser.py:213-218 | the `, name` loop keeps one identifier leaf per parameter |
| VeeParser.StmtAt | vee/parser.py:221-263 | `parse_stmt` builds the node the keyword stands for, carrying its token, and is a SyntaxError on any other word |
| VeeParser.IfAt | vee/parser.py:225-233 | `if` gives an IF node of condition and block, with an optional else block |
| VeeParser.FuncAt | vee/parser.py:234-242 | `func` gives a FUNC_DEF node whose name is the token after the keyword |
| VeeParser.ForAt | vee/parser.py:243-248 | `for` gives a FOR node of range and block |
| VeeParser.ReturnAt | vee/parser.py:249-253 | `return` gives a RETURN node |
| VeeParser.ClassAt | vee/parser.py:254-261 | `class` gives a CLASS node named by the next token |
| VeeParser.StmtListAt | vee/parser.py:265-282 | `parse_stmt_list` stops at the end, an EOF or a closer, and holds only statements and expressions |
| VeeParser.StmtTail | vee/parser.py:267-281 | the statement loop only appends items and stops where a list may stop |
| VeeParser.ParseAll | vee/parser.py:284-285 | `parse` gives a statement list |
| VeeParser.StmtListStep | vee/parser.py:267-281 | one round of the statement loop: keywords start statements, newlines are skipped, EOF ends the list, anything else is an expression |
| VeeParser.TailStopsExactly | vee/parser.py:136-142 | the precedence loop returns its input unchanged exactly when the next token is not an operator of enough rank |
| VeeParser.OperatorStays | vee/parser.py:129-153 | once the loop holds an operator tree, it returns one |
| VeeParser.AbsentOnlyAtCloser | vee/parser.py:116-127 | an expression is absent only at a '}' or ']' reached after newlines only |
| VeeParser.NameAtom | vee/parser.py:181-200 | a name not followed by '(' or '[' is an identifier leaf, and the operator loop goes on after it |
| VeeParser.CallAtom | vee/parser.py:176-182 | a name followed by '(' is one FUNC_CALL node for the name whose only child is the parenthesised EXPR_LIST, ending after the ')'; a list that fails fails the atom with the same error |
| VeeParser.TailTakes | vee/parser.py:143-153 | one round of the loop takes the tree as the operator's left operand and the next expression as its right |
| VeeParser.ChainRight | vee/parser.py:143-153 | when the second operator ranks high enough, `x o1 y o2 z` groups as `x o1 (y o2 z)` |
| VeeParser.ChainLeft | vee/parser.py:143-153 | otherwise `x o1 y o2 z` groups as `(x o1 y) o2 z` |
| VeeParser.SubtractionGroupsLeft | vee/parser.py:51-78 | illustration of `ChainLeft`: `a - b - c` is `(a - b) - c` |
| VeeParser.AssignmentGroupsRight | vee/parser.py:51-78 | illustration of `ChainRight`: `a = b = c` is `a = (b = c)` |
| VeeParser.ProductBindsTighter | vee/parser.py:51-78 | illustration of `ChainRight`: `a + b * c` is `a + (b * c)` |
| VeeParser.ParenthesesAreTransparent | vee/parser.py:193-198 | `( e )` parses to `e` itself |
| VeeParser.BadAtom | vee/parser.py:199-200 | a token that starts no atom is a SyntaxError |
| VeeParser.Parser.constructor | vee/parser.py:88-90 | the cursor starts at 0 over the given tokens |
| VeeParser.Parser.Consume | vee/parser.py:92-101 | the result and cursor are what `consume` gives; on a mismatch the cursor does not move |
| VeeParser.Parser.Peek | vee/parser.py:103-107 | the token at the cursor, or SyntaxError |
| VeeParser.Parser.PeekCheck | vee/parser.py:109-114 | whether the token at the cursor has the text and kind asked for |
| VeeParser.Parser.ParseExpression | vee/parser.py:116-157 | the tree and final cursor are those of the expression grammar |
| VeeParser.Parser.ParseOperators | vee/parser.py:129-153 | the precedence loop agrees with `ExpressionTail` |
| VeeParser.Parser.ParseExpressionList | vee/parser.py:159-169 | the list and final cursor are those of the list grammar |
| VeeParser.Parser.ParseListItems | vee/parser.py:162-168 | the item loop agrees with `ListTail` |
| VeeParser.Parser.ParseAtom | vee/parser.py:171-200 | the atom and final cursor are those of the atom grammar |
| VeeParser.Parser.ParseIndexes | vee/parser.py:186-192 | the subscript loop agrees with `IndexTail` |
| VeeParser.Parser.ParseBlock | vee/parser.py:202-206 | the block and final cursor are those of the block grammar |
| VeeParser.Parser.ParseArgs | vee/parser.py:208-219 | the parameter list and final cursor are those of the parameter grammar |
| VeeParser.Parser.ParseStmt | vee/parser.py:221-263 | the statement and final cursor are those of the statement grammar |
| VeeParser.Parser.ParseIf | vee/parser.py:225-233 | agrees with `IfAt` |
| VeeParser.Parser.ParseFunc | vee/parser.py:234-242 | agrees with `FuncAt` |
| VeeParser.Parser.ParseFor | vee/parser.py:243-248 | agrees with `ForAt` |
| VeeParser.Parser.ParseReturn | vee/parser.py:249-253 | agrees with `ReturnAt` |
| VeeParser.Parser.ParseClass | vee/parser.py:254-261 | agrees with `ClassAt` |
| VeeParser.Parser.ParseStmtList | vee/parser.py:265-282 | the statement list and final cursor are those of the statement-list grammar |
| VeeParser.Parser.Parse | vee/parser.py:284-285 | `parse` gives the tree of the whole token list |
| VeeCompiler.Str | vee/compiler.py:52 | `str()` of a compiled value fails only for a list value |
| VeeCompiler.StrAll | vee/compiler.py:66-70 | `str()` of every value, in order, which succeeds when none is a list |
| VeeCompiler.EmitAll | vee/compiler.py:21-22 | several `add` calls append the lines, each under the current indent |
| VeeCompiler.GenOp | vee/compiler.py:48-52 | `gen_op` appends exactly one line and only moves the generator forward |
| VeeCompiler.GenCompare | vee/compiler.py:80-90 | `gen_compare` appends exactly six lines |
| VeeCompiler.GenPushRange | vee/compiler.py:54-64 | `gen_push_range` appends exactly seven lines |
| VeeCompiler.ParamLines | vee/compiler.py:112-113 | one binding line per argument |
| VeeCompiler.FloorDivide | vee/compiler.py:172-173 | `/` of two compiled integers is Python floor division; ZeroDivisionError for 0, TypeError otherwise |
| VeeCompiler.LowerOrEqual | vee/compiler.py:176-187 | `<=`/`>=` lowering only appends lines and draws fresh names |
| VeeCompiler.LowerLogic | vee/compiler.py:190-195 | `&&`/or lowering only appends lines and draws fresh names |
| VeeCompiler.LowerRange | vee/compiler.py:196-200 | `..` lowering only appends lines and draws fresh names |
| VeeCompiler.Lower | vee/compiler.py:156-206 | an operator with no case is a SyntaxError; the others only move the generator forward |
| VeeCompiler.LowerTexts | vee/compiler.py:164-200 | lowering on operand texts only moves the generator forward |
| VeeCompiler.LiteralValue | vee/compiler.py:125-140 | a string literal compiles to its quoted text, a digit literal to a non-negative integer |
| VeeCompiler.Compile | vee/compiler.py:120-246 | compiling a node only appends lines under the indent it started with, never lowers the counters, and restores the indent |
| VeeCompiler.CompileAll | vee/compiler.py:66-70 | one value per node, and the generator only moves forward |
| VeeCompiler.GenStmtList | vee/compiler.py:104-106 | a statement list compiles to no value |
| VeeCompiler.CompileReturn | vee/compiler.py:148-149 | RETURN compiles to no value |
| VeeCompiler.GenReturn | vee/compiler.py:101-102 | `gen_return` compiles to no value |
| VeeCompiler.CompileList | vee/compiler.py:207-211 | EXPR_LIST only moves the generator forward |
| VeeCompiler.CompileTexts | vee/compiler.py:66-70 | one text per node, and the generator only moves forward |
| VeeCompiler.GenValueList | vee/compiler.py:66-70 | `gen_value_list` only moves the generator forward |
| VeeCompiler.CompileIf | vee/compiler.py:227-241 | IF compiles to no value (its lines: `CompilerLaws.IfLines`, `CompilerLaws.IfOnePair`) |
| VeeCompiler.IfPairs | vee/compiler.py:229-240 | the condition/block pairs only move the generator forward (their order: `CompilerLaws.PairsInOrder`) |
| VeeCompiler.IfBranch | vee/compiler.py:230-240 | one pair only moves the generator forward (its lines: `CompilerLaws.BranchShape`) |
| VeeCompiler.CompileOperator | vee/compiler.py:150-206 | OPERATOR only moves the generator forward |
| VeeCompiler.CompileAssign | vee/compiler.py:151-155 | `=` compiles to no value |
| VeeCompiler.MemberAccess | vee/compiler.py:157-162 | `.` always fails: NotModelled for a number, SyntaxError for any member other than `len` |
| VeeCompiler.CompileCall | vee/compiler.py:214-226 | FUNC_CALL only moves the generator forward |
| VeeCompiler.CompileFor | vee/compiler.py:242-246 | FOR only moves the generator forward |
| VeeCompiler.GenFor | vee/compiler.py:72-77 | `gen_for` compiles to no value |
| VeeCompiler.ParamNames | vee/compiler.py:109-110 | one name per argument node, each its token's text |
| VeeCompiler.CompileFuncDef | vee/compiler.py:145-147 | FUNC_DEF compiles to no value and leaves the argument set empty |
| VeeCompiler.GenFuncDef | vee/compiler.py:108-118 | `gen_func_def` compiles to no value and leaves the argument set empty |
| VeeCompiler.CompileAst | vee/compiler.py:248-250 | `compile_ast` first emits the runtime-script comment line, then only moves the generator forward |
| CompilerLaws.FreshNamesDistinct | vee/compiler.py:24-30 | temporaries and labels differ when their numbers differ, and never clash with each other |
| CompilerLaws.NamesNeverRepeat | vee/compiler.py:24-30 | after compiling any node, the next temporary and label differ from every one drawn before |
| CompilerLaws.CompareShape | vee/compiler.py:80-90 | `gen_compare` emits the jump, `let R 0`, a jump past, the true label, `let R 1` and the end label, with a fresh R and two fresh, different labels |
| CompilerLaws.NamesCompile | vee/compiler.py:141-144 | identifiers compile to their texts, left to right, and emit nothing |
| CompilerLaws.OperandsFirst | vee/compiler.py:156-206 | a binary operator compiles its left operand, then its right one, then lowers on their texts |
| CompilerLaws.ArithLowering | vee/compiler.py:164-171 | `+ - * /.` emit one `add`/`sub`/`mul`/`div` line into a fresh temporary and yield it |
| CompilerLaws.CompareLowering | vee/compiler.py:174-189 | `<`, `>`, `==` are one `gen_compare` with `jlt`, `jgt`, `jeq` |
| CompilerLaws.CompareSum | vee/compiler.py:176-180 | the first three steps of `<=`: both compares, then the sum of their results |
| CompilerLaws.OrEqualLowering | vee/compiler.py:176-187 | `<=` and `>=`: strict compare, equality compare, their sum S, then `S > 0`, with four fresh temporaries and six fresh labels |
| CompilerLaws.OrEqualShape | vee/compiler.py:176-187 | the exact lines `<=`/`>=` emit |
| CompilerLaws.TwoCompares | vee/compiler.py:176-187 | the two compares `<=`/`>=` start with, one after the other |
| CompilerLaws.LogicLowering | vee/compiler.py:190-195 | `&&` and the or-operator: the sum S of both sides, then `S > 1` or `S > 0` |
| CompilerLaws.LogicShape | vee/compiler.py:190-195 | the exact lines the logical operators emit |
| CompilerLaws.RangeLowering | vee/compiler.py:196-200 | `a..b` emits `let L []` for a fresh list L, then the counting-loop lines `let I a`, `#S`, `jeq $I b E`, `psh $L $I`, `add I $I 1`, `jmp S`, `#E` with a fresh index I and fresh labels S and E, and yields `$L` |
| CompilerLaws.RangeShape | vee/compiler.py:54-64 | the exact seven lines of the counting loop |
| CompilerLaws.NumberLiteral | vee/compiler.py:133-140 | a digit literal compiles to its value and emits nothing |
| CompilerLaws.DivisionFolds | vee/compiler.py:172-173 | `x / y` over number literals is folded to floor division at compile time, or ZeroDivisionError when y is 0 |
| CompilerLaws.UnhandledOperator | vee/compiler.py:205-206 | an operator with no case is a SyntaxError once its operands compile |
| CompilerLaws.AssignLowering | vee/compiler.py:151-155 | `x = e` compiles e, then emits `let x <e>` with the bare target name |
| CompilerLaws.RefsFrame | vee/compiler.py:141-144 | the texts of identifiers depend only on the argument set |
| CompilerLaws.TextsRoundTrip | vee/compiler.py:66-70 | texts turned into values and back are the same texts |
| CompilerLaws.ValueListLowering | vee/compiler.py:66-70 | `[x, y, ...]` of names: a fresh list R, `let R []`, then one `psh` line with all the items |
| CompilerLaws.NameArguments | vee/compiler.py:207-211 | a call's argument list of names gives the names' texts |
| CompilerLaws.PrintLowering | vee/compiler.py:214-219 | `print(x, ...)` is a single `prt` line with no `cal` and no result |
| CompilerLaws.CallLowering | vee/compiler.py:214-226 | `f(x, ...)` is `cal f ...`, then a copy of `$ret` into a fresh temporary, which is the call's value |
| CompilerLaws.IfPairsIgnoreLast | vee/compiler.py:229-240 | a trailing odd child adds no lines to the pairs |
| CompilerLaws.ElseIgnored | vee/compiler.py:227-241 | an `else` block after the pairs emits nothing |
| CompilerLaws.EmptyBlock | vee/compiler.py:104-106 | an empty block emits nothing |
| CompilerLaws.NameBranch | vee/compiler.py:230-240 | one (name, empty block) pair: labels T and F and the five lines around the block |
| CompilerLaws.IfShape | vee/compiler.py:227-241 | `if c { }`: a fresh end label, then `jeq $c 1 T`, `jmp F`, `#T`, `jmp End`, `#F`, `#End` |
| CompilerLaws.BranchShape | vee/compiler.py:230-240 | pair i, for any condition and any block: two different fresh labels T and F, the condition's lines, `jeq c 1 T`, `jmp F`, `#T`, the block's lines, then `jmp End`, `#F` |
| CompilerLaws.PairsInOrder | vee/compiler.py:229-240 | the pairs are emitted in order: pair i first, then the pairs after it from the state it leaves, and output only grows |
| CompilerLaws.IfLines | vee/compiler.py:227-241 | any IF: a fresh end label, all the pairs from the first, then `#End` as the last line |
| CompilerLaws.IfOnePair | vee/compiler.py:227-241 | `if c { b }` for any condition and block: three different fresh labels End, T, F; the condition's lines, `jeq c 1 T`, `jmp F`, `#T`, the block's lines, `jmp End`, `#F`, `#End` |
| CompilerLaws.BranchAt | vee/compiler.py:230-240 | the first pair uses labels numbered one and two past the counter, and the block keeps the indent |
| CompilerLaws.CloseIf | vee/compiler.py:239-241 | `jmp End`, `#F` and `#End` are the closing lines of a one-pair IF |
| CompilerLaws.ForShape | vee/compiler.py:72-77 | `for v range`, the body one space further in, then `nxt` at the old indent |
| CompilerLaws.ForDispatch | vee/compiler.py:242-246 | a FOR node is `gen_for` on its loop variable and compiled range |
| CompilerLaws.FuncDefDispatch | vee/compiler.py:145-147 | a definition is recorded in the function table, then generated |
| CompilerLaws.FuncDefShape | vee/compiler.py:108-118 | `def f`, one `let _a $i` per argument one space in, the body there, then `end`; the argument set is empty afterwards |
| CompilerLaws.OneParameter | vee/compiler.py:108-113 | the head of a one-argument definition is `def f` and ` let _x $0` |
| CompilerLaws.ReturnArgument | vee/compiler.py:141-149 | `return x` for an argument x is the one line `ret $_x` |
| CompilerLaws.DefineReturningArgument | vee/compiler.py:108-118 | `gen_func_def` of one argument x and a body returning x |
| CompilerLaws.FuncReturningArgument | vee/compiler.py:108-149 | illustration of `FuncDefShape`: `func f(x) { return x }` is exactly `def f`, ` let _x $0`, ` ret $_x`, `end` |
| CompilerClass.Compiler.constructor | vee/compiler.py:6-12 | a new compiler: no functions, no output, both counters 0, no arguments, no indent |
| CompilerClass.Compiler.IncreaseIndent | vee/compiler.py:15-16 | the indent grows by one space |
| CompilerClass.Compiler.DecreaseIndent | vee/compiler.py:18-19 | the indent loses its last character |
| CompilerClass.Compiler.Add | vee/compiler.py:21-22 | the line is appended under the indent |
| CompilerClass.Compiler.GetNewVar | vee/compiler.py:24-26 | the counter is bumped and the name is the new value's |
| CompilerClass.Compiler.GetNewLabel | vee/compiler.py:28-30 | the label counter is bumped and the label is named after it |
| CompilerClass.Compiler.GenComment | vee/compiler.py:39-40 | appends `/ msg` |
| CompilerClass.Compiler.GenLabel | vee/compiler.py:42-43 | appends `#name` |
| CompilerClass.Compiler.GenLet | vee/compiler.py:45-46 | appends `let name value` |
| CompilerClass.Compiler.GenJump | vee/compiler.py:95-96 | appends `jmp label` |
| CompilerClass.Compiler.GenCompareJump | vee/compiler.py:92-93 | appends `op l r label` |
| CompilerClass.Compiler.GenOp | vee/compiler.py:48-52 | the fields change as `gen_op` does |
| CompilerClass.Compiler.GenCompare | vee/compiler.py:80-90 | the fields change as `gen_compare` does |
| CompilerClass.Compiler.GenPushRange | vee/compiler.py:54-64 | the fields change as `gen_push_range` does |
| CompilerClass.Compiler.GenFuncCall | vee/compiler.py:98-99 | appends the call line |
| CompilerClass.Compiler.Compile | vee/compiler.py:120-246 | the result and fields are those `compile` gives for the old fields |
| CompilerClass.Compiler.CompileChildren | vee/compiler.py:66-70 | the loop over the children agrees with compiling each in turn |
| CompilerClass.Compiler.GenStmtList | vee/compiler.py:104-106 | agrees with `gen_stmt_list` |
| CompilerClass.Compiler.CompileReturn | vee/compiler.py:148-149 | agrees with the RETURN case |
| CompilerClass.Compiler.GenReturn | vee/compiler.py:101-102 | agrees with `gen_return` |
| CompilerClass.Compiler.CompileList | vee/compiler.py:207-211 | agrees with the EXPR_LIST case |
| CompilerClass.Compiler.GenValueList | vee/compiler.py:66-70 | the push loop agrees with `gen_value_list` |
| CompilerClass.Compiler.CompileOperator | vee/compiler.py:150-206 | agrees with the OPERATOR case |
| CompilerClass.Compiler.CompileAssign | vee/compiler.py:151-155 | agrees with `=` |
| CompilerClass.Compiler.Lower | vee/compiler.py:156-206 | agrees with the operator lowering |
| CompilerClass.Compiler.LowerTexts | vee/compiler.py:164-200 | agrees with the lowering on operand texts |
| CompilerClass.Compiler.LowerOrEqual | vee/compiler.py:176-187 | agrees with `<=`/`>=` |
| CompilerClass.Compiler.LowerLogic | vee/compiler.py:190-195 | agrees with the logical operators |
| CompilerClass.Compiler.LowerRange | vee/compiler.py:196-200 | agrees with `..` |
| CompilerClass.Compiler.CompileCall | vee/compiler.py:214-226 | agrees with the FUNC_CALL case |
| CompilerClass.Compiler.CompileIf | vee/compiler.py:227-241 | the pair loop agrees with the IF case |
| CompilerClass.Compiler.IfBranch | vee/compiler.py:230-240 | one pair agrees with its specification |
| CompilerClass.Compiler.CompileFor | vee/compiler.py:242-246 | agrees with the FOR case |
| CompilerClass.Compiler.GenFor | vee/compiler.py:72-77 | agrees with `gen_for` |
| CompilerClass.Compiler.CompileFuncDef | vee/compiler.py:145-147 | records the definition, then agrees with FUNC_DEF |
| CompilerClass.Compiler.AddArguments | vee/compiler.py:109-110 | the argument set grows by exactly the argument names, or the name error is reported |
| CompilerClass.Compiler.BindArguments | vee/compiler.py:112-113 | the binding loop appends exactly one `let _a $i` line per argument |
| CompilerClass.Compiler.GenFuncDef | vee/compiler.py:108-118 | agrees with `gen_func_def` |
| CompilerClass.Compiler.CompileAst | vee/compiler.py:248-250 | agrees with `compile_ast` |

Some specification functions carry no contract of their own, because everything worth saying
about them relates several calls; the lemmas above state it:
- `Loader.LoadProgram`: `LoadProgramConsistent`, `LoadProgramComplete`, `LastDefWins`, `LastLabelWins`.
- `Lexer.Feed`, `Lexer.Run`, `Lexer.Lex`: `FeedKeeps`, `FeedExtends`, `RunKeeps`, `RunExtends`, `RunAppend`, `LexShape`, `LexWord`, `StringLiteral`, `Symbol`, `Newline` and the comment lemmas.
- `Lexer.LexAsWritten`, `Lexer.LexCorrected`: `SlashAsWritten`, `SlashResolved` and `SlashCorrectedExample`; `Lexer.Tokenizer.Tokenize` is proved against `Lex` with the correction.
- `Vm.CondJump`, `Vm.If`: `VmLaws.CondJumpIntegers`, `VmLaws.CondJumpEquality`, `VmLaws.IfeSkips`, `VmLaws.IfeEnters`, `VmLaws.IfgIntegers`.
- `Values.Compare`: `CompareScalar`, `CompareLists`, `CompareItemsAll`, `CompareSelfNested`.

## Left out

- Input and time instructions (`inp`, `prs`, `rnd`, `tim`, `slp`; runtime.py:290-297 and 485-516) read the console, the clock or a random source. They are not modelled: `Vm.Step` gives `Err(NotModelled)` for them, which ends the run.
- `FileLogger.print` (runtime.py:90-94) and the choice of output device in `Evaluator.__init__` (runtime.py:97-104) write to files or a device. Printed text is collected in the machine state's `out` instead.
- `Evaluator.extend` and user-registered instructions (runtime.py:106-107) call code outside the model and are left out.
- Display rendering (`show`, `clear`, the SH1106 driver and fonts; oled/oled.py:19-30, 54) draws pixels. It is not modelled; only the character buffer and cursor are.
- `print_tokens`, `Node.__repr__` and `Node.pretty_print` only format text for humans and are left out.
- `evaluator.py`, `main.py` and the remaining files of the repository are not part of this model.
- `create_value_node` (vee/compiler.py:35-36) is never called and is left out. `create_identity_node` followed by `compile` (vee/compiler.py:32-33) is modelled directly as the identifier's text (`VeeCompiler.IdentText`).
- Floating-point literals, `.len`, `[`, `:` and `type(...)` in the compiler (vee/compiler.py:136-140, 157-162, 201-204, 220-222), and `str()` of a list value, produce `NotModelled`.
- Values.Mod: Python's `%` on a string is formatting; the model gives `NotModelled`.
- Values.ToInt: a numeral is an optional '-' and ASCII digits. Python's `int()` also accepts '+', surrounding whitespace, underscores between digits and non-ASCII digits; the model reads such text as non-numeric, so `int` binds nil and arithmetic raises ValueError.
- Values.Chr: a code in the surrogate range 0xD800..0xDFFF, which Python accepts, gives `NotModelled` because a Dafny `char` cannot hold it.
- Values.ToStr: `str()` of a list or a map (in `prt`, `str` and `add` with a string) gives `NotModelled`; Python's rendering of containers is not modelled.
- Values.Lt, Values.Le: Python orders two lists element by element; the model gives `NotModelled` for them.
- Vm.Get, Vm.Put, Vm.Delete: a negative index, which Python counts from the end, gives `NotModelled`.
- Lexer.Feed, Lexer.AddCurrent: letters and digits are ASCII (`Text.IsAlpha`, `Text.IsDigit`); Python's `isalpha`/`isdigit` also accept other Unicode letters and digits, which the model lexes as symbols.
- Vm.Step, Vm.Cycle, Vm.Run, VmLaws.NxtLoops, Interp.Evaluator.BackToLoopHead: the `nxt` case runs the corrected backward scan (`Scans.BackToLoopHead`, which examines line 0). As written (runtime.py:202-216) a `for` on line 0 is never re-entered; `Scans.BackToLoopHeadAsWritten` models that scan and the first row of "Findings" compares the two.
- Python's `==` on nested containers and the parser's item loop can recurse or loop without end. `Values.Compare` takes a fuel bound and reports RecursionError when it runs out. `VeeParser.ListTail` reports `Diverges` for a round that consumes nothing. `Vm.Run` executes at most `fuel` lines, so a program that never stops is not followed to the end.
- The state the machine, tokenizer, parser or compiler is left in after an exception is not specified: the methods report the exception and promise nothing about the fields.
- `Compiler.funcs` is recorded (vee/compiler.py:146) but never read. The model stores it and states nothing about it.
- `gen_op` tests `res_var` for falsiness; callers never pass an empty name, so the model takes it as an `Option`.
- Vm.Step: its contract states only where the counter may land. What each instruction does is stated by the `VmLaws` lemmas and by the `Interp.Evaluator` methods that are proved against it.
- Vm.Cycle, Vm.Run, Vm.For, Vm.ForVisit, Vm.Call, Vm.Return: their own contracts state only counter bounds. Their behaviour is stated by the `VmLaws` lemmas.
- Vm.PushEach: its own contract states only that the counter stays; `VmLaws.PushList` states the effect.
- VeeCompiler.Compile and the other `VeeCompiler` functions: their own contracts state only that the generator moves forward. The exact lines are stated by the `CompilerLaws` lemmas for identifiers, literals, every operator, lists, calls, `print`, FOR, definitions and returns, and for IF as described on the next line. They are not stated for arbitrary nested operands.
- VeeCompiler.CompileIf, VeeCompiler.IfPairs, VeeCompiler.IfBranch: their own contracts state only that no value is produced and that the generator moves forward. The emitted lines are stated by `CompilerLaws.BranchShape` (any pair, any condition and block), `CompilerLaws.PairsInOrder` (pairs in order), `CompilerLaws.IfLines` (any IF: the pairs, then `#End`) and `CompilerLaws.IfOnePair` (a one-pair IF line by line). For an IF with several pairs the lines are stated pair by pair, not as one closed formula.
- Interp.Evaluator.BackToLoopHead and Lexer.Tokenizer.Tokenize follow the corrected behaviour described under "Findings", not the code as written.

Where the written description of the system and the code differ, the code is followed:
- The tokenizer's quote handling keeps escapes verbatim, as the code does.

## Findings

| source | as written | input that shows it | evidently intended | confidence | as-written member | corrected member |
|---|---|---|---|---|---|---|
| runtime.py:202-216 | the backward scan of `nxt` stops when the counter reaches 0 without examining line 0, so a `for` on line 0 is never re-entered and its loop variable never advances past the first item | the program `for i 3` / `prt $i` / `nxt` | `nxt` resumes at its own `for` wherever that line is | high (not executed) | Scans.LoopAtLineZero | Scans.NxtReturnsToFor |
| vee/tokenizer.py:99-102 | after a lone '/' followed by a character that starts no comment, the comment state stays "pending", so every later character outside a string records another '/' symbol | "a/b+c" | the '/' is a single symbol and the tokenizer returns to the plain state | high (not executed) | Lexer.SlashAsWritten | Lexer.SlashResolved |
