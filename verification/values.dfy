/**
 * Runtime values of the virtual machine and the Python operations the instructions apply
 * to them. Lists and maps live in a heap so that two variables can share one container, as
 * two Python names bound to one object do.
 */
module Values {
  import opened Wrappers
  import opened Exceptions
  import opened Text

  /** A runtime value: Python `None`, an `int`, a `str`, or a reference to a container. */
  datatype Value = Nil | Int(n: int) | Str(s: string) | Ref(addr: nat)

  /** A container: a list, or a map as its (key, value) entries in insertion order. */
  datatype Obj = ListObj(items: seq<Value>) | MapObj(entries: seq<(Value, Value)>)

  type Heap = seq<Obj>

  /** Allocates a fresh container and returns a reference to it. */
  function Alloc(h: Heap, o: Obj): (r: (Value, Heap))
    ensures |r.1| == |h| + 1 && r.0 == Ref(|h|) && r.1[..|h|] == h && r.1[|h|] == o
  {
    (Ref(|h|), h + [o])
  }

  predicate IsList(h: Heap, v: Value) {
    v.Ref? && v.addr < |h| && h[v.addr].ListObj?
  }

  predicate IsMap(h: Heap, v: Value) {
    v.Ref? && v.addr < |h| && h[v.addr].MapObj?
  }

  /**
   * A reference that points outside the heap cannot be built by any instruction; the
   * operations below give it the NotModelled fault only so that they stay total.
   */
  predicate Dangling(h: Heap, v: Value) {
    v.Ref? && v.addr >= |h|
  }

  // ---------------------------------------------------------------------------------
  // Maps

  /** Python dictionary keys: `None`, integers and strings; a container is unhashable. */
  predicate Hashable(v: Value) {
    !v.Ref?
  }

  function Find(entries: seq<(Value, Value)>, k: Value): (r: Option<nat>)
    ensures r.Some? ==> r.value < |entries| && entries[r.value].0 == k
    ensures r.Some? ==> forall i :: 0 <= i < r.value ==> entries[i].0 != k
    ensures r.None? ==> forall i :: 0 <= i < |entries| ==> entries[i].0 != k
  {
    if |entries| == 0 then None
    else if entries[0].0 == k then Some(0)
    else match Find(entries[1..], k)
      case None => None
      case Some(i) => Some(i + 1)
  }

  /** `d.get(k)`: the value stored under `k`, or `None` for a missing key. */
  function Lookup(entries: seq<(Value, Value)>, k: Value): Value {
    match Find(entries, k)
    case None => Nil
    case Some(i) => entries[i].1
  }

  /** `d[k] = v`: replaces the value of an existing key in place, else appends an entry. */
  function MapPut(entries: seq<(Value, Value)>, k: Value, v: Value): (r: seq<(Value, Value)>)
    ensures Find(entries, k).None? ==> r == entries + [(k, v)]
    ensures Find(entries, k).Some? ==> r == entries[Find(entries, k).value := (k, v)]
  {
    match Find(entries, k)
    case None => entries + [(k, v)]
    case Some(i) => entries[i := (k, v)]
  }

  function KeysOf(entries: seq<(Value, Value)>): (r: seq<Value>)
    ensures |r| == |entries| && forall i :: 0 <= i < |r| ==> r[i] == entries[i].0
  {
    if |entries| == 0 then [] else [entries[0].0] + KeysOf(entries[1..])
  }

  predicate DistinctKeys(entries: seq<(Value, Value)>) {
    forall i, j :: 0 <= i < j < |entries| ==> entries[i].0 != entries[j].0
  }

  /** After `d[k] = v`, `d.get(k)` is `v` and every other key keeps its value. */
  lemma MapPutLookup(entries: seq<(Value, Value)>, k: Value, v: Value, k2: Value)
    ensures Lookup(MapPut(entries, k, v), k) == v
    ensures k2 != k ==> Lookup(MapPut(entries, k, v), k2) == Lookup(entries, k2)
  {
    var r := MapPut(entries, k, v);
    match Find(entries, k)
    case None =>
      FindAppend(entries, k, v, k);
      FindAppend(entries, k, v, k2);
    case Some(i) =>
      FindUpdate(entries, i, k, v, k);
      FindUpdate(entries, i, k, v, k2);
  }

  lemma FindAppend(entries: seq<(Value, Value)>, k: Value, v: Value, k2: Value)
    requires Find(entries, k).None?
    ensures k2 == k ==> Find(entries + [(k, v)], k2) == Some(|entries|)
    ensures k2 != k ==> Find(entries + [(k, v)], k2) == Find(entries, k2)
  {
    var r := entries + [(k, v)];
    match Find(entries, k2)
    case None =>
      if k2 == k {
        FindIs(r, k2, |entries|);
      } else {
        FindNone(r, k2);
      }
    case Some(i) =>
      FindIs(r, k2, i);
  }

  lemma FindUpdate(entries: seq<(Value, Value)>, i: nat, k: Value, v: Value, k2: Value)
    requires Find(entries, k) == Some(i)
    ensures Find(entries[i := (k, v)], k2) == Find(entries, k2)
  {
    var r := entries[i := (k, v)];
    match Find(entries, k2)
    case None => FindNone(r, k2);
    case Some(j) => FindIs(r, k2, j);
  }

  /** `Find` is the first index holding the key. */
  lemma {:induction false} FindIs(entries: seq<(Value, Value)>, k: Value, i: nat)
    requires i < |entries| && entries[i].0 == k
    requires forall j :: 0 <= j < i ==> entries[j].0 != k
    ensures Find(entries, k) == Some(i)
  {
    if i > 0 {
      FindIs(entries[1..], k, i - 1);
    }
  }

  lemma {:induction false} FindNone(entries: seq<(Value, Value)>, k: Value)
    requires forall j :: 0 <= j < |entries| ==> entries[j].0 != k
    ensures Find(entries, k).None?
  {
    if |entries| > 0 {
      FindNone(entries[1..], k);
    }
  }

  /** `d[k] = v` keeps the keys of a map distinct. */
  lemma MapPutDistinct(entries: seq<(Value, Value)>, k: Value, v: Value)
    requires DistinctKeys(entries)
    ensures DistinctKeys(MapPut(entries, k, v))
  {
  }

  /** Removes the entry at index `i`, keeping the order of the others. */
  function RemoveAt<T>(s: seq<T>, i: nat): (r: seq<T>)
    requires i < |s|
    ensures |r| == |s| - 1
    ensures forall j :: 0 <= j < i ==> r[j] == s[j]
    ensures forall j :: i <= j < |r| ==> r[j] == s[j + 1]
  {
    s[..i] + s[i + 1..]
  }

  // ---------------------------------------------------------------------------------
  // Equality

  /** The recursion limit of the Python interpreter, which bounds nested comparisons. */
  const RecursionLimit: nat := 1000

  /**
   * Python `==`: scalars by value, lists element by element, maps key by key. A nested
   * comparison too deep for the interpreter raises RecursionError.
   */
  function Eq(h: Heap, a: Value, b: Value, fuel: nat): Result<bool, Exc>
    decreases fuel, 0, 0
  {
    if a.Ref? && b.Ref? then
      if a.addr >= |h| || b.addr >= |h| then Err(NotModelled)
      else if fuel == 0 then Err(RecursionError)
      else match (h[a.addr], h[b.addr])
        case (ListObj(xs), ListObj(ys)) =>
          if |xs| != |ys| then Ok(false) else EqItems(h, xs, ys, fuel - 1)
        case (MapObj(es), MapObj(fs)) =>
          if |es| != |fs| then Ok(false) else EqEntries(h, es, fs, fuel - 1)
        case _ => Ok(false)
    else Ok(a == b)
  }

  /** Containers compare their members by identity first, then by `==`. */
  function EqMember(h: Heap, a: Value, b: Value, fuel: nat): Result<bool, Exc>
    decreases fuel, 0, 1
  {
    if a.Ref? && b.Ref? && a.addr == b.addr then Ok(true) else Eq(h, a, b, fuel)
  }

  function EqItems(h: Heap, xs: seq<Value>, ys: seq<Value>, fuel: nat): Result<bool, Exc>
    requires |xs| == |ys|
    decreases fuel, |xs|, 2
  {
    if |xs| == 0 then Ok(true)
    else
      var e :- EqMember(h, xs[0], ys[0], fuel);
      if !e then Ok(false) else EqItems(h, xs[1..], ys[1..], fuel)
  }

  function EqEntries(h: Heap, es: seq<(Value, Value)>, fs: seq<(Value, Value)>, fuel: nat): Result<bool, Exc>
    decreases fuel, |es|, 2
  {
    if |es| == 0 then Ok(true)
    else match Find(fs, es[0].0)
      case None => Ok(false)
      case Some(i) =>
        var e :- EqMember(h, es[0].1, fs[i].1, fuel);
        if !e then Ok(false) else EqEntries(h, es[1..], fs, fuel)
  }

  /**
   * The machine's own comparison: two lists are equal when they have the same length and
   * equal elements, compared by this same function; anything else is compared by `==`.
   */
  function Compare(h: Heap, a: Value, b: Value, fuel: nat): Result<bool, Exc>
    decreases fuel, 0
  {
    if IsList(h, a) && IsList(h, b) then
      if fuel == 0 then Err(RecursionError)
      else if |h[a.addr].items| != |h[b.addr].items| then Ok(false)
      else CompareItems(h, h[a.addr].items, h[b.addr].items, fuel - 1)
    else Eq(h, a, b, fuel)
  }

  function CompareItems(h: Heap, xs: seq<Value>, ys: seq<Value>, fuel: nat): Result<bool, Exc>
    requires |xs| == |ys|
    decreases fuel, |xs|
  {
    if |xs| == 0 then Ok(true)
    else
      var c :- Compare(h, xs[0], ys[0], fuel);
      if !c then Ok(false) else CompareItems(h, xs[1..], ys[1..], fuel)
  }

  /** Element-wise comparison succeeds with `true` exactly when every pair compares equal. */
  lemma {:induction false} CompareItemsAll(h: Heap, xs: seq<Value>, ys: seq<Value>, fuel: nat)
    requires |xs| == |ys|
    ensures CompareItems(h, xs, ys, fuel) == Ok(true)
        <==> forall i :: 0 <= i < |xs| ==> Compare(h, xs[i], ys[i], fuel) == Ok(true)
    decreases |xs|
  {
    if |xs| > 0 {
      CompareItemsAll(h, xs[1..], ys[1..], fuel);
      assert forall i :: 1 <= i < |xs| ==> xs[1..][i - 1] == xs[i] && ys[1..][i - 1] == ys[i];
    }
  }

  /**
   * Two lists are equal under the machine's comparison iff they have the same length and
   * their elements are pairwise equal.
   */
  lemma CompareLists(h: Heap, a: Value, b: Value, fuel: nat)
    requires IsList(h, a) && IsList(h, b)
    ensures Compare(h, a, b, fuel + 1) == Ok(true)
        <==> |h[a.addr].items| == |h[b.addr].items|
             && forall i :: 0 <= i < |h[a.addr].items| ==>
                  Compare(h, h[a.addr].items[i], h[b.addr].items[i], fuel) == Ok(true)
  {
    if |h[a.addr].items| == |h[b.addr].items| {
      CompareItemsAll(h, h[a.addr].items, h[b.addr].items, fuel);
    }
  }

  /** Comparing anything with a scalar is plain equality of values. */
  lemma CompareScalar(h: Heap, a: Value, b: Value, fuel: nat)
    requires !a.Ref?
    ensures Compare(h, a, b, fuel) == Ok(a == b)
  {
  }

  /** A list nested deeper than the fuel allows is reported as RecursionError. */
  lemma CompareSelfNested(h: Heap, a: nat, fuel: nat)
    requires a < |h| && h[a] == ListObj([Ref(a)])
    ensures Compare(h, Ref(a), Ref(a), fuel) == Err(RecursionError)
    decreases fuel
  {
    if fuel > 0 {
      CompareSelfNested(h, a, fuel - 1);
      assert CompareItems(h, [Ref(a)], [Ref(a)], fuel - 1) == Compare(h, Ref(a), Ref(a), fuel - 1);
    }
  }

  // ---------------------------------------------------------------------------------
  // Conversions

  /**
   * Python `str(v)` for the values whose text the machine can produce: `None`, the decimal
   * text of an integer, which `int` reads back, and a string itself.
   */
  function ToStr(v: Value): (r: Result<string, Exc>)
    ensures v.Int? ==> r.Ok? && ParseInt(r.value) == Some(v.n)
    ensures v.Str? ==> r == Ok(v.s)
    ensures v.Nil? ==> r == Ok("None")
    ensures v.Ref? ==> r == Err(NotModelled)
  {
    if v.Int? then IntRoundTrip(v.n); Ok(IntToString(v.n))
    else match v
    case Nil => Ok("None")
    case Int(n) => Ok(IntToString(n))
    case Str(s) => Ok(s)
    case Ref(_) => Err(NotModelled)
  }

  /**
   * Python `int(v)`: an integer is itself, a numeral is read, other text is a ValueError,
   * and `None` or a container is a TypeError.
   */
  function ToInt(v: Value): (r: Result<int, Exc>)
    ensures v.Int? ==> r == Ok(v.n)
    ensures v.Str? ==> (r.Ok? <==> ParseInt(v.s).Some?)
    ensures v.Str? && r.Ok? ==> ParseInt(v.s) == Some(r.value)
    ensures v.Str? && r.Err? ==> r.error == ValueError
    ensures (v.Nil? || v.Ref?) ==> r == Err(TypeError)
  {
    match v
    case Int(n) => Ok(n)
    case Str(s) => (match ParseInt(s) case Some(n) => Ok(n) case None => Err(ValueError))
    case _ => Err(TypeError)
  }

  /** `int(str(i))` is `i`: the text of every integer reads back as that integer. */
  lemma NumeralToInt(i: int)
    ensures ToInt(Str(IntToString(i))) == Ok(i)
    ensures IsNumeric(Str(IntToString(i)))
  {
    IntRoundTrip(i);
  }

  /** Whether Python `int(v)` succeeds. */
  predicate IsNumeric(v: Value) {
    ToInt(v).Ok?
  }

  /**
   * Python `chr(n)`: the one-character string of code point `n`. An argument that does not
   * fit a C `int` is an OverflowError, any other code outside 0 .. 0x10FFFF a ValueError.
   * A surrogate code point has no `char` and is not modelled.
   */
  function Chr(n: int): (r: Result<Value, Exc>)
    ensures r.Ok? ==> r.value.Str? && |r.value.s| == 1 && r.value.s[0] as int == n
    ensures 0 <= n <= 0x10FFFF && !(0xD800 <= n < 0xE000) ==> r.Ok?
    ensures (n < -0x8000_0000 || n > 0x7FFF_FFFF) ==> r == Err(OverflowError)
    ensures (-0x8000_0000 <= n < 0 || 0x10FFFF < n <= 0x7FFF_FFFF) ==> r == Err(ValueError)
    ensures 0xD800 <= n < 0xE000 ==> r == Err(NotModelled)
  {
    if n < -0x8000_0000 || n > 0x7FFF_FFFF then Err(OverflowError)
    else if n < 0 || n > 0x10FFFF then Err(ValueError)
    else if 0xD800 <= n < 0xE000 then Err(NotModelled)
    else Ok(Str([n as char]))
  }

  /** Python `ord(s)`. */
  function Ord(s: string): (r: Result<Value, Exc>)
    ensures |s| == 1 <==> r.Ok?
    ensures r.Ok? ==> r.value == Int(s[0] as int)
  {
    if |s| == 1 then Ok(Int(s[0] as int)) else Err(TypeError)
  }

  /** `s` repeated `n` times. */
  function Repeat(s: string, n: nat): (r: string)
    ensures |r| == |s| * n
  {
    if n == 0 then "" else s + Repeat(s, n - 1)
  }

  /** Character i of `s` repeated is character `i % |s|` of `s` (when `s` is empty, so is the result). */
  lemma {:induction false} RepeatChars(s: string, n: nat)
    ensures |s| > 0 ==> forall i :: 0 <= i < |Repeat(s, n)| ==> Repeat(s, n)[i] == s[i % |s|]
  {
    if n > 0 {
      RepeatChars(s, n - 1);
      if |s| > 0 {
        RepeatStep(s, Repeat(s, n - 1));
      }
      assert Repeat(s, n) == s + Repeat(s, n - 1);
    } else {
      assert Repeat(s, n) == "";
    }
  }

  /** One more copy of `s` in front keeps character i equal to `s[i % |s|]`. */
  lemma RepeatStep(s: string, rest: string)
    requires |s| > 0
    requires forall i :: 0 <= i < |rest| ==> rest[i] == s[i % |s|]
    ensures forall i :: 0 <= i < |s + rest| ==> (s + rest)[i] == s[i % |s|]
  {
    forall i | 0 <= i < |s + rest|
      ensures (s + rest)[i] == s[i % |s|]
    {
      if i >= |s| {
        RepeatStepAt(s, rest, i);
      } else {
        RepeatStepHead(s, rest, i);
      }
    }
  }

  lemma RepeatStepHead(s: string, rest: string, i: int)
    requires 0 <= i < |s|
    ensures (s + rest)[i] == s[i % |s|]
  {
    ModUnique(i, |s|, 0, i);
  }

  lemma RepeatStepAt(s: string, rest: string, i: int)
    requires |s| > 0 && |s| <= i < |s| + |rest|
    requires rest[i - |s|] == s[(i - |s|) % |s|]
    ensures (s + rest)[i] == s[i % |s|]
  {
    assert (s + rest)[i] == rest[i - |s|];
    ModShift(i, |s|);
  }

  /** Remainders modulo k repeat with period k. */
  lemma ModShift(i: int, k: int)
    requires k > 0 && i >= k
    ensures (i - k) % k == i % k
  {
    var q, r := i / k, i % k;
    assert i == q * k + r;
    assert i - k == (q - 1) * k + r;
    ModUnique(i - k, k, q - 1, r);
  }

  /** The remainder is the unique r in [0, k) with x == q * k + r. */
  lemma ModUnique(x: int, k: int, q: int, r: int)
    requires k > 0 && 0 <= r < k && x == q * k + r
    ensures x % k == r
  {
    var q2, r2 := x / k, x % k;
    assert x == q2 * k + r2;
    var d := q - q2;
    assert d * k == q * k - q2 * k;
    assert d * k == r2 - r;
    if d >= 1 {
      MulAtLeast(d, k);
    } else if d <= -1 {
      MulAtLeast(-d, k);
    }
  }

  lemma {:induction false} MulAtLeast(d: int, k: int)
    requires d >= 1 && k > 0
    ensures d * k >= k
    decreases d
  {
    if d > 1 {
      MulAtLeast(d - 1, k);
      assert d * k == (d - 1) * k + k;
    }
  }

  lemma {:induction false} RepeatAdd(s: string, n: nat, m: nat)
    ensures Repeat(s, n + m) == Repeat(s, n) + Repeat(s, m)
  {
    if n > 0 {
      RepeatAdd(s, n - 1, m);
      assert Repeat(s, n + m) == s + Repeat(s, n - 1 + m);
    }
  }

  // ---------------------------------------------------------------------------------
  // Floor division

  /** Python `a // b`: the quotient rounded towards negative infinity. */
  function FloorDiv(a: int, b: int): int
    requires b != 0
  {
    if b > 0 || a % b == 0 then a / b else a / b - 1
  }

  /** Python `a % b`: the remainder with the sign of the divisor. */
  function FloorMod(a: int, b: int): int
    requires b != 0
  {
    a - b * FloorDiv(a, b)
  }

  /**
   * Floor division and remainder reconstruct the dividend, the remainder lies between 0
   * and the divisor, and for a positive divisor both agree with Euclidean division.
   */
  lemma FloorDivMod(a: int, b: int)
    requires b != 0
    ensures a == b * FloorDiv(a, b) + FloorMod(a, b)
    ensures b > 0 ==> 0 <= FloorMod(a, b) < b
    ensures b < 0 ==> b < FloorMod(a, b) <= 0
    ensures b > 0 ==> FloorDiv(a, b) == a / b && FloorMod(a, b) == a % b
  {
    if b < 0 && a % b != 0 {
      assert a == b * (a / b) + a % b;
      assert FloorMod(a, b) == a % b + b;
    }
  }

  /** Python rounds `-7 // 2` down to -4 where Euclidean division gives -4 too, but `7 // -2` gives -4 and `7 % -2` gives -1. */
  lemma FloorExamples()
    ensures FloorDiv(7, -2) == -4 && FloorMod(7, -2) == -1
    ensures FloorDiv(-7, 2) == -4 && FloorMod(-7, 2) == 1
    ensures 7 / -2 == -3
  {
  }

  // ---------------------------------------------------------------------------------
  // Ordering

  /** Python `<` on strings: lexicographic by code point. */
  predicate StrLt(a: string, b: string) {
    if |a| == 0 then |b| > 0
    else if |b| == 0 then false
    else if a[0] != b[0] then a[0] < b[0]
    else StrLt(a[1..], b[1..])
  }

  /** Lexicographic order is a strict total order on strings. */
  lemma {:induction false} StrLtTotal(a: string, b: string)
    ensures !(StrLt(a, b) && StrLt(b, a))
    ensures !StrLt(a, a)
    ensures a != b ==> StrLt(a, b) || StrLt(b, a)
  {
    if |a| > 0 && |b| > 0 {
      StrLtTotal(a[1..], b[1..]);
      StrLtTotal(a[1..], a[1..]);
      if a[0] == b[0] && a != b {
        assert a == [a[0]] + a[1..] && b == [b[0]] + b[1..];
      }
    } else if |a| > 0 {
      StrLtTotal(a[1..], a[1..]);
    }
  }

  /** Python `a < b`, for the operands Python can order: two integers or two strings. */
  function Lt(h: Heap, a: Value, b: Value): (r: Result<bool, Exc>)
    ensures r.Ok? <==> (a.Int? && b.Int?) || (a.Str? && b.Str?)
    ensures a.Int? && b.Int? ==> r == Ok(a.n < b.n)
    ensures a.Str? && b.Str? ==> r == Ok(StrLt(a.s, b.s))
  {
    if a.Int? && b.Int? then Ok(a.n < b.n)
    else if a.Str? && b.Str? then Ok(StrLt(a.s, b.s))
    else if IsList(h, a) && IsList(h, b) then Err(NotModelled)
    else if Dangling(h, a) || Dangling(h, b) then Err(NotModelled)
    else Err(TypeError)
  }

  /** Python `a <= b`, for the operands Python can order: two integers or two strings. */
  function Le(h: Heap, a: Value, b: Value): (r: Result<bool, Exc>)
    ensures r.Ok? <==> (a.Int? && b.Int?) || (a.Str? && b.Str?)
    ensures a.Int? && b.Int? ==> r == Ok(a.n <= b.n)
  {
    if a.Int? && b.Int? then Ok(a.n <= b.n)
    else if a.Str? && b.Str? then Ok(StrLt(a.s, b.s) || a.s == b.s)
    else if IsList(h, a) && IsList(h, b) then Err(NotModelled)
    else if Dangling(h, a) || Dangling(h, b) then Err(NotModelled)
    else Err(TypeError)
  }

  // ---------------------------------------------------------------------------------
  // Arithmetic with the machine's coercions

  /**
   * `add`: nil plus an integer is the character with that code, a string on either side
   * makes both sides text, two lists concatenate into a fresh list, and otherwise Python `+`.
   */
  function Add(h: Heap, a: Value, b: Value): (r: Result<(Value, Heap), Exc>)
    ensures a.Int? && b.Int? ==> r == Ok((Int(a.n + b.n), h))
    ensures IsList(h, a) && IsList(h, b) ==>
      r == Ok((Ref(|h|), h + [ListObj(h[a.addr].items + h[b.addr].items)]))
    ensures r.Ok? ==> |r.value.1| >= |h| && r.value.1[..|h|] == h
  {
    if a.Nil? && IsNumeric(b) then
      if b.Int? then var c :- Chr(b.n); Ok((c, h)) else Err(TypeError)
    else if a.Str? || b.Str? then
      var x :- ToStr(a);
      var y :- ToStr(b);
      Ok((Str(x + y), h))
    else if a.Int? && b.Int? then Ok((Int(a.n + b.n), h))
    else if IsList(h, a) && IsList(h, b) then
      Ok(Alloc(h, ListObj(h[a.addr].items + h[b.addr].items)))
    else if Dangling(h, a) || Dangling(h, b) then Err(NotModelled)
    else Err(TypeError)
  }

  /** `sub`: a one-character string minus nil is its code; otherwise integer subtraction. */
  function Sub(a: Value, b: Value): (r: Result<Value, Exc>)
    ensures a.Int? && b.Int? ==> r == Ok(Int(a.n - b.n))
    ensures a.Str? && b.Nil? ==> (r.Ok? <==> |a.s| == 1)
    ensures r.Ok? ==> r.value.Int?
  {
    if a.Str? && b.Nil? then Ord(a.s)
    else if a.Int? && b.Int? then Ok(Int(a.n - b.n))
    else Err(TypeError)
  }

  /** `mul`: a string times a positive integer repeats it; otherwise `int(a) * int(b)`. */
  function Mul(a: Value, b: Value): (r: Result<Value, Exc>)
    ensures a.Int? && b.Int? ==> r == Ok(Int(a.n * b.n))
    ensures a.Str? && b.Int? && b.n > 0 ==> r == Ok(Str(Repeat(a.s, b.n)))
    ensures a.Nil? || a.Ref? || (a.Int? && (b.Nil? || b.Ref?)) ==> r == Err(TypeError)
  {
    if a.Str? && b.Int? && b.n > 0 then Ok(Str(Repeat(a.s, b.n)))
    else
      var x :- ToInt(a);
      var y :- ToInt(b);
      Ok(Int(x * y))
  }

  /** `div`: Python floor division of integers. */
  function Div(a: Value, b: Value): (r: Result<Value, Exc>)
    ensures r.Ok? <==> a.Int? && b.Int? && b.n != 0
    ensures a.Int? && b == Int(0) ==> r == Err(ZeroDivisionError)
  {
    if a.Int? && b.Int? then
      if b.n == 0 then Err(ZeroDivisionError) else Ok(Int(FloorDiv(a.n, b.n)))
    else Err(TypeError)
  }

  /** `mod`: Python's remainder of integers; `%` on a string is formatting, not modelled. */
  function Mod(a: Value, b: Value): (r: Result<Value, Exc>)
    ensures r.Ok? <==> a.Int? && b.Int? && b.n != 0
    ensures a.Int? && b == Int(0) ==> r == Err(ZeroDivisionError)
    ensures a.Str? ==> r == Err(NotModelled)
  {
    if a.Int? && b.Int? then
      if b.n == 0 then Err(ZeroDivisionError) else Ok(Int(FloorMod(a.n, b.n)))
    else if a.Str? then Err(NotModelled)
    else Err(TypeError)
  }

  /** `chr` and `ord` through `add` and `sub` are inverse. */
  lemma ChrOrdRoundTrip(h: Heap, c: char)
    ensures Sub(Str([c]), Nil) == Ok(Int(c as int))
    ensures Add(h, Nil, Int(c as int)) == Ok((Str([c]), h))
  {
    assert [(c as int) as char] == [c];
  }

  /** With a string on either side `add` concatenates the texts of both operands. */
  lemma AddText(h: Heap, a: Value, b: Value)
    requires a.Str? || b.Str?
    requires !(a.Nil? && IsNumeric(b))
    requires !a.Ref? && !b.Ref?
    ensures Add(h, a, b) == Ok((Str(ToStr(a).value + ToStr(b).value), h))
  {
  }

  /**
   * `div` and `mod` of integers satisfy Python's identity `a == b * (a // b) + a % b`, and
   * the remainder has the sign of the divisor.
   */
  lemma DivModValues(a: int, b: int)
    requires b != 0
    ensures Div(Int(a), Int(b)).Ok? && Mod(Int(a), Int(b)).Ok?
    ensures var q := Div(Int(a), Int(b)).value; var m := Mod(Int(a), Int(b)).value;
      && q.Int? && m.Int? && a == b * q.n + m.n
      && (b > 0 ==> 0 <= m.n < b) && (b < 0 ==> b < m.n <= 0)
  {
    FloorDivMod(a, b);
  }

  /**
   * `a <= b` is `not b < a` wherever Python can order the operands: the order on integers
   * and on strings is total.
   */
  lemma LeNotLt(h: Heap, a: Value, b: Value)
    requires (a.Int? && b.Int?) || (a.Str? && b.Str?)
    ensures Le(h, a, b) == Ok(!Lt(h, b, a).value)
  {
    if a.Str? {
      StrLtTotal(a.s, b.s);
    }
  }

  /** The type name `typ` reports: one name per kind of value, and 'err' for anything else. */
  function TypeName(h: Heap, v: Value): (r: string)
    ensures r in {"nil", "int", "str", "list", "map", "err"}
    ensures r == "list" <==> IsList(h, v)
    ensures r == "map" <==> IsMap(h, v)
    ensures r == "nil" <==> v.Nil?
    ensures r == "int" <==> v.Int?
    ensures r == "str" <==> v.Str?
  {
    match v
    case Nil => "nil"
    case Int(_) => "int"
    case Str(_) => "str"
    case Ref(a) => if a >= |h| then "err" else if h[a].ListObj? then "list" else "map"
  }

  /** Python `len` of a string, list or map; `None` and integers have no length. */
  function Len(h: Heap, v: Value): (r: Result<int, Exc>)
    ensures v.Str? ==> r == Ok(|v.s|)
    ensures IsList(h, v) ==> r == Ok(|h[v.addr].items|)
    ensures IsMap(h, v) ==> r == Ok(|h[v.addr].entries|)
    ensures v.Nil? || v.Int? ==> r == Err(TypeError)
  {
    match v
    case Str(s) => Ok(|s|)
    case Ref(a) =>
      if a >= |h| then Err(NotModelled)
      else Ok(match h[a] case ListObj(xs) => |xs| case MapObj(es) => |es|)
    case _ => Err(TypeError)
  }
}
