/** The exact code the generator emits for each kind of type, stated as
    instruction words: the fixed-width scalars, the `defer` of a type being
    expanded, the pointer guard, the list and map loops with their patched
    jumps, and the struct's field headers and STOP byte. */
module Shapes {
  import opened Faults
  import opened Words
  import opened Programs
  import opened CodeGen
  import opened Properties

  /** An instruction with an immediate in the signed 56-bit range: its word,
      appended unless the program is full. */
  lemma {:induction false} PutWord(st: St, op: OpCode, n: int)
    requires MinInt56 <= n <= MaxInt56
    ensures Put(st, op, n, 0) ==
      if |st.code| < MaxUint56 then Out(St(st.code + [Word(op, n % TWO56)], st.active), Done)
      else Out(st, Panicked(TooLong))
  {
    ImmediateRoundTrip(op, n);
  }

  /** The same for a non-negative immediate, which is the operand field. */
  lemma {:induction false} PutNat(st: St, op: OpCode, n: nat)
    requires n <= MaxInt56
    ensures Put(st, op, n, 0) ==
      if |st.code| < MaxUint56 then Out(St(st.code + [Word(op, n)], st.active), Done)
      else Out(st, Panicked(TooLong))
  {
    PutWord(st, op, n);
  }

  /** An instruction with a type handle in the 56-bit range. */
  lemma {:induction false} PutHandle(st: St, op: OpCode, h: TypeId)
    requires h <= MaxUint56
    ensures Put(st, op, 0, h) ==
      if |st.code| < MaxUint56 then Out(St(st.code + [Word(op, h)], st.active), Done)
      else Out(st, Panicked(TooLong))
  {
    HandleRoundTrip(op, h);
  }

  /** A nested type compiled normally only appends to the program and
      leaves the set of types being expanded as it was. */
  lemma {:induction false} GenOneExtends(c: Ctx, sp: nat, ty: Ty, st: St)
    requires GenOne(c, sp, ty, st).status.Done?
    ensures st.code <= GenOne(c, sp, ty, st).st.code
    ensures GenOne(c, sp, ty, st).st.active == st.active
  {
    GenOneGrows(c, sp, ty, st);
  }

  /** The code of a loop whose head starts at `i`, given the code `body` up
      to the end of the loop's body: the `goto` back to `i`, the `if_true`
      at `i + 1` patched to the position of the closing opcode, which comes
      last. */
  lemma {:induction false} CloseLoopCode(st: St, i: nat, end: OpCode)
    requires i + 1 < |st.code| && i <= MaxInt56 && CloseLoop(st, i, i + 1, end).status.Done?
    requires Op(st.code[i + 1]) == OpIfTrue
    ensures CloseLoop(st, i, i + 1, end).st ==
      St((st.code + [Word(OpGoto, i)])[i + 1 := Word(OpIfTrue, |st.code| + 1)] + [Word(end, 0)], st.active)
  {
    var o1 := Put(st, OpGoto, i, 0);
    PutNat(st, OpGoto, i);
    assert o1.status.Done?;
    var code1 := st.code + [Word(OpGoto, i)];
    assert o1.st == St(code1, st.active);
    var o2 := Pin(o1.st, i + 1);
    assert o2.status.Done?;
    PinnedFields(code1[i + 1], |code1|);
    var code2 := code1[i + 1 := Word(OpIfTrue, |code1|)];
    assert o2.st == St(code2, st.active);
    PutNat(o2.st, end, 0);
  }

  /** The element loop as one sequence: `list_is_end` and `if_true`, the
      element's code, `list_next`, then the loop's end. */
  lemma {:induction false} ListLoopCode(c: Ctx, sp: nat, et: Ty, st: St)
    requires sp < c.maxStack && GenListLoop(c, sp, et, st).status.Done?
    ensures var i := |st.code|;
      var e := GenOne(c, sp + 1, et, St(st.code + [Word(OpListIsEnd, 0), Word(OpIfTrue, 0)], st.active));
      && e.status.Done?
      && st.code + [Word(OpListIsEnd, 0), Word(OpIfTrue, 0)] <= e.st.code
      && e.st.active == st.active
      && |e.st.code| + 2 < MaxUint56
      && GenListLoop(c, sp, et, st).st ==
         St((e.st.code + [Word(OpListNext, 0), Word(OpGoto, i)])[i + 1 := Word(OpIfTrue, |e.st.code| + 2)] + [Word(OpListEnd, 0)], st.active)
  {
    var i := |st.code|;
    var hd := st.code + [Word(OpListIsEnd, 0), Word(OpIfTrue, 0)];
    var e := ListLoopHead(c, sp, et, st);
    OpenLoopCode(st, OpListIsEnd);
    GenOneExtends(c, sp + 1, et, St(hd, st.active));
    LoopTailCode(e.st, i, OpListNext, OpListEnd);
  }

  /** The head of a loop that is emitted: its end test, then `if_true`. */
  lemma {:induction false} OpenLoopCode(st: St, test: OpCode)
    requires OpenLoop(st, test).status.Done?
    ensures OpenLoop(st, test).st == St(st.code + [Word(test, 0), Word(OpIfTrue, 0)], st.active)
  {
    PutNat(st, test, 0);
    var st1 := St(st.code + [Word(test, 0)], st.active);
    PutNat(st1, OpIfTrue, 0);
    assert st1.code + [Word(OpIfTrue, 0)] == st.code + [Word(test, 0), Word(OpIfTrue, 0)];
  }

  /** Unfolds the element loop up to the element's code. */
  lemma {:induction false} ListLoopHead(c: Ctx, sp: nat, et: Ty, st: St) returns (e: Out)
    requires sp < c.maxStack && GenListLoop(c, sp, et, st).status.Done?
    ensures OpenLoop(st, OpListIsEnd).status.Done?
    ensures e == GenOne(c, sp + 1, et, OpenLoop(st, OpListIsEnd).st)
    ensures e.status.Done? && Put(e.st, OpListNext, 0, 0).status.Done?
    ensures GenListLoop(c, sp, et, st) == CloseLoop(Put(e.st, OpListNext, 0, 0).st, |st.code|, |st.code| + 1, OpListEnd)
  {
    e := GenOne(c, sp + 1, et, OpenLoop(st, OpListIsEnd).st);
  }

  /** The instruction `next` after a loop's body, then the loop's end. */
  lemma {:induction false} LoopTailCode(st: St, i: nat, next: OpCode, end: OpCode)
    requires i + 1 < |st.code| && Op(st.code[i + 1]) == OpIfTrue
    requires Put(st, next, 0, 0).status.Done?
    requires CloseLoop(Put(st, next, 0, 0).st, i, i + 1, end).status.Done?
    ensures |st.code| + 2 < MaxUint56
    ensures CloseLoop(Put(st, next, 0, 0).st, i, i + 1, end).st ==
      St((st.code + [Word(next, 0), Word(OpGoto, i)])[i + 1 := Word(OpIfTrue, |st.code| + 2)] + [Word(end, 0)], st.active)
  {
    PutNat(st, next, 0);
    var st1 := St(st.code + [Word(next, 0)], st.active);
    assert Put(st, next, 0, 0).st == st1;
    assert i <= MaxInt56 && |st1.code| < MaxUint56 by {
      assert Put(st1, OpGoto, i, 0).status.Done?;
    }
    CloseLoopCode(st1, i, end);
  }

  /** Where the pieces of a loop's code sit: `r` is the code `e` up to the
      end of the body, followed by `t`, with the word at `i + 1` replaced by
      `z`, followed by `w`; `e` starts with `pre`, `u` and `v`. */
  lemma {:induction false} LoopSlices<T>(pre: seq<T>, u: T, v: T, e: seq<T>, t: seq<T>, z: T, w: T, r: seq<T>)
    requires pre + [u, v] <= e
    requires r == (e + t)[|pre| + 1 := z] + [w]
    ensures |r| == |e| + |t| + 1
    ensures r[..|pre|] == pre && r[|pre|] == u && r[|pre| + 1] == z
    ensures r[|pre| + 2..|e|] == e[|pre| + 2..]
    ensures r[|e|..] == t + [w]
  {
    var i := |pre|;
    assert e[..i] == pre && e[i] == u by {
      assert e[..i + 2] == pre + [u, v];
      assert e[..i] == (pre + [u, v])[..i];
    }
    assert r[..i] == e[..i];
    assert r[i + 2..|e|] == e[i + 2..];
    assert r[|e|..] == t + [w];
  }

  /** The element loop: `list_is_end` at `i`, `if_true` at `i + 1` patched to
      the position of `list_end`, the element's code, `list_next`, the
      `goto` back to `i`, and `list_end` last. */
  lemma {:induction false} ListLoopShape(c: Ctx, sp: nat, et: Ty, st: St)
    requires sp < c.maxStack && GenListLoop(c, sp, et, st).status.Done?
    ensures var r := GenListLoop(c, sp, et, st).st.code;
      var i := |st.code|;
      var n := |r|;
      var e := GenOne(c, sp + 1, et, St(st.code + [Word(OpListIsEnd, 0), Word(OpIfTrue, 0)], st.active));
      && e.status.Done?
      && n == |e.st.code| + 3
      && r[..i] == st.code
      && r[i] == Word(OpListIsEnd, 0)
      && r[i + 1] == Word(OpIfTrue, n - 1)
      && r[i + 2..n - 3] == e.st.code[i + 2..]
      && r[n - 3..] == [Word(OpListNext, 0), Word(OpGoto, i), Word(OpListEnd, 0)]
    ensures GenListLoop(c, sp, et, st).st.active == st.active
  {
    ListLoopCode(c, sp, et, st);
    var hd := st.code + [Word(OpListIsEnd, 0), Word(OpIfTrue, 0)];
    var e := GenOne(c, sp + 1, et, St(hd, st.active)).st.code;
    LoopSlices(st.code, Word(OpListIsEnd, 0), Word(OpIfTrue, 0), e, [Word(OpListNext, 0), Word(OpGoto, |st.code|)],
      Word(OpIfTrue, |e| + 2), Word(OpListEnd, 0), GenListLoop(c, sp, et, st).st.code);
  }

  /** The header of a list or set: the nesting guard passed, `size 5`, the
      element's type tag, `list_begin`, and then the element loop. */
  lemma {:induction false} SetListHeader(c: Ctx, sp: nat, et: Ty, st: St)
    requires GenSetList(c, sp, et, st).status.Done?
    ensures sp < c.maxStack
    ensures GenSetList(c, sp, et, st) ==
      GenListLoop(c, sp, et, St(st.code + [Word(OpSize, 5), Word(OpByte, WireTag(et)), Word(OpListBegin, 0)], st.active))
  {
    var o1 := Put(st, OpSize, 5, 0);
    PutNat(st, OpSize, 5);
    var o2 := Put(o1.st, OpByte, WireTag(et), 0);
    PutNat(o1.st, OpByte, WireTag(et));
    var o3 := Put(o2.st, OpListBegin, 0, 0);
    PutNat(o2.st, OpListBegin, 0);
    assert o3.st == St(st.code + [Word(OpSize, 5), Word(OpByte, WireTag(et)), Word(OpListBegin, 0)], st.active);
  }

  /** The header of a map: the nesting guard passed, `size 6`, the key's and
      the value's type tags, `map_begin` carrying the map's identity (which
      therefore fits in 56 bits), and then the entry loop. */
  lemma {:induction false} MapHeader(c: Ctx, sp: nat, ty: Ty, st: St)
    requires ty.Map? && GenMap(c, sp, ty, st).status.Done?
    ensures sp < c.maxStack && ty.s <= MaxUint56
    ensures GenMap(c, sp, ty, st) ==
      GenMapLoop(c, sp, ty, St(st.code + [Word(OpSize, 6), Word(OpByte, WireTag(ty.k)), Word(OpByte, WireTag(ty.v)), Word(OpMapBegin, ty.s)], st.active))
  {
    var o1 := Put(st, OpSize, 6, 0);
    PutNat(st, OpSize, 6);
    var o2 := Put(o1.st, OpByte, WireTag(ty.k), 0);
    PutNat(o1.st, OpByte, WireTag(ty.k));
    var o3 := Put(o2.st, OpByte, WireTag(ty.v), 0);
    PutNat(o2.st, OpByte, WireTag(ty.v));
    assert o3.st == St(st.code + [Word(OpSize, 6), Word(OpByte, WireTag(ty.k)), Word(OpByte, WireTag(ty.v))], st.active);
    var o4 := Put(o3.st, OpMapBegin, 0, ty.s);
    assert o4.status.Done?;
    PutHandle(o3.st, OpMapBegin, ty.s);
    assert o4.st == St(st.code + [Word(OpSize, 6), Word(OpByte, WireTag(ty.k)), Word(OpByte, WireTag(ty.v)), Word(OpMapBegin, ty.s)], st.active);
    assert GenMap(c, sp, ty, st) == GenMapLoop(c, sp, ty, o4.st);
  }

  /** Unfolds the entry loop up to the end of the entry's code. */
  lemma {:induction false} MapLoopHead(c: Ctx, sp: nat, ty: Ty, st: St) returns (e: Out)
    requires ty.Map? && sp < c.maxStack && GenMapLoop(c, sp, ty, st).status.Done?
    ensures OpenLoop(st, OpMapIsEnd).status.Done?
    ensures e == GenMapEntry(c, sp, ty, OpenLoop(st, OpMapIsEnd).st)
    ensures e.status.Done?
    ensures GenMapLoop(c, sp, ty, st) == CloseLoop(e.st, |st.code|, |st.code| + 1, OpMapEnd)
  {
    e := GenMapEntry(c, sp, ty, OpenLoop(st, OpMapIsEnd).st);
  }

  /** The entry loop as one sequence: `map_is_end` and `if_true`, the
      entry's code, then the loop's end. */
  lemma {:induction false} MapLoopCode(c: Ctx, sp: nat, ty: Ty, st: St)
    requires ty.Map? && sp < c.maxStack && GenMapLoop(c, sp, ty, st).status.Done?
    ensures var i := |st.code|;
      var e := GenMapEntry(c, sp, ty, St(st.code + [Word(OpMapIsEnd, 0), Word(OpIfTrue, 0)], st.active));
      && e.status.Done?
      && st.code + [Word(OpMapIsEnd, 0), Word(OpIfTrue, 0)] <= e.st.code
      && e.st.active == st.active
      && |e.st.code| < MaxUint56
      && GenMapLoop(c, sp, ty, st).st ==
         St((e.st.code + [Word(OpGoto, i)])[i + 1 := Word(OpIfTrue, |e.st.code| + 1)] + [Word(OpMapEnd, 0)], st.active)
  {
    var i := |st.code|;
    var hd := st.code + [Word(OpMapIsEnd, 0), Word(OpIfTrue, 0)];
    var e := MapLoopHead(c, sp, ty, st);
    OpenLoopCode(st, OpMapIsEnd);
    GenMapEntryGrows(c, sp, ty, St(hd, st.active));
    assert e.st.code[i + 1] == hd[i + 1];
    assert i <= MaxInt56 && |e.st.code| < MaxUint56 by {
      EmitSpec(e.st.code, OpGoto, i, 0);
    }
    CloseLoopCode(e.st, i, OpMapEnd);
  }

  /** The entry loop: `map_is_end` at `i`, `if_true` at `i + 1` patched to
      the position of `map_end`, the entry's code, the `goto` back to `i`,
      and `map_end` last. */
  lemma {:induction false} MapLoopShape(c: Ctx, sp: nat, ty: Ty, st: St)
    requires ty.Map? && sp < c.maxStack && GenMapLoop(c, sp, ty, st).status.Done?
    ensures var r := GenMapLoop(c, sp, ty, st).st.code;
      var i := |st.code|;
      var n := |r|;
      var e := GenMapEntry(c, sp, ty, St(st.code + [Word(OpMapIsEnd, 0), Word(OpIfTrue, 0)], st.active));
      && e.status.Done?
      && n == |e.st.code| + 2
      && r[..i] == st.code
      && r[i] == Word(OpMapIsEnd, 0)
      && r[i + 1] == Word(OpIfTrue, n - 1)
      && r[i + 2..n - 2] == e.st.code[i + 2..]
      && r[n - 2..] == [Word(OpGoto, i), Word(OpMapEnd, 0)]
    ensures GenMapLoop(c, sp, ty, st).st.active == st.active
  {
    MapLoopCode(c, sp, ty, st);
    var hd := st.code + [Word(OpMapIsEnd, 0), Word(OpIfTrue, 0)];
    var e := GenMapEntry(c, sp, ty, St(hd, st.active)).st.code;
    LoopSlices(st.code, Word(OpMapIsEnd, 0), Word(OpIfTrue, 0), e, [Word(OpGoto, |st.code|)],
      Word(OpIfTrue, |e| + 1), Word(OpMapEnd, 0), GenMapLoop(c, sp, ty, st).st.code);
  }

  /** One map entry: `map_key`, the key's code one level deeper, then
      `map_value` and the value's code one level deeper. */
  lemma {:induction false} MapEntryShape(c: Ctx, sp: nat, ty: Ty, st: St)
    requires ty.Map? && sp < c.maxStack && GenMapEntry(c, sp, ty, st).status.Done?
    ensures var b := |st.code|;
      var k := GenOne(c, sp + 1, ty.k, St(st.code + [Word(OpMapKey, 0)], st.active));
      && k.status.Done?
      && st.code + [Word(OpMapKey, 0)] <= k.st.code
      && k.st.active == st.active
      && GenMapEntry(c, sp, ty, st) == GenOne(c, sp + 1, ty.v, St(k.st.code + [Word(OpMapValue, 0)], st.active))
  {
    var o1 := Put(st, OpMapKey, 0, 0);
    PutNat(st, OpMapKey, 0);
    var k := GenOne(c, sp + 1, ty.k, o1.st);
    GenOneExtends(c, sp + 1, ty.k, o1.st);
    PutNat(k.st, OpMapValue, 0);
  }

  /** A pointer, at the same depth as its referent: `deref` at the start,
      whose operand is patched to the position right after the referent's
      code, then that code. */
  lemma {:induction false} PointerShape(c: Ctx, sp: nat, v: Ty, st: St)
    requires GenOne(c, sp, Pointer(v), st).status.Done?
    ensures var r := GenOne(c, sp, Pointer(v), st).st.code;
      var b := |st.code|;
      var e := GenOne(c, sp, v, St(st.code + [Word(OpDeref, 0)], st.active));
      && e.status.Done?
      && |r| == |e.st.code|
      && b < |r| < TWO56
      && r[..b] == st.code
      && r[b] == Word(OpDeref, |r|)
      && r[b + 1..] == e.st.code[b + 1..]
    ensures GenOne(c, sp, Pointer(v), st).st.active == st.active
  {
    var b := |st.code|;
    var st1 := St(st.code + [Word(OpDeref, 0)], st.active);
    PutNat(st, OpDeref, 0);
    assert Put(st, OpDeref, 0, 0).st == st1;
    var e := GenOne(c, sp, v, st1);
    GenOneGrows(c, sp, v, st1);
    assert e.st.code[b] == Word(OpDeref, 0);
    PinnedFields(e.st.code[b], |e.st.code|);
    assert GenOne(c, sp, Pointer(v), st) == Pin(e.st, b);
  }

  /** A type already being expanded becomes exactly one `defer` carrying its
      identity, unless the identity does not fit in 56 bits or the program
      is full. */
  lemma {:induction false} DeferShape(c: Ctx, sp: nat, ty: Ty, st: St)
    requires !ty.Pointer? && ty.s in st.active
    ensures GenOne(c, sp, ty, st) ==
      if ty.s > MaxUint56 then Out(st, Panicked(AddressRange))
      else if |st.code| < MaxUint56 then Out(St(st.code + [Word(OpDefer, ty.s)], st.active), Done)
      else Out(st, Panicked(TooLong))
  {
    if ty.s <= MaxUint56 {
      PutHandle(st, OpDefer, ty.s);
    }
  }

  /** The kinds that compile to straight-line code. */
  predicate IsScalar(ty: Ty) {
    ty.Bool? || ty.I8? || ty.I16? || ty.I32? || ty.I64? || ty.Double? || ty.String? || ty.Binary?
  }

  /** The width in bytes of a fixed-width scalar; 0 for the variable-length
      string and binary. */
  function ScalarWidth(ty: Ty): nat {
    match ty
    case Bool(_) => 1
    case I8(_) => 1
    case I16(_) => 2
    case I32(_) => 4
    case I64(_) => 8
    case Double(_) => 8
    case _ => 0
  }

  /** The code of a scalar: `size n, copy n` for a fixed width `n`, `vstr`
      for a string or binary. */
  function ScalarCode(ty: Ty): seq<Instr>
    requires IsScalar(ty)
  {
    if ScalarWidth(ty) == 0 then [Word(OpVstr, 0)]
    else [Word(OpSize, ScalarWidth(ty)), Word(OpCopy, ScalarWidth(ty))]
  }

  /** A scalar not being expanded already appends exactly its code, and
      fails only when that does not fit in the program. */
  lemma {:induction false} ScalarEmission(c: Ctx, sp: nat, ty: Ty, st: St)
    requires IsScalar(ty) && ty.s !in st.active
    ensures GenOne(c, sp, ty, st).status.Done? <==> |st.code| + |ScalarCode(ty)| <= MaxUint56
    ensures GenOne(c, sp, ty, st).status.Done? ==> GenOne(c, sp, ty, st).st == St(st.code + ScalarCode(ty), st.active)
    ensures !GenOne(c, sp, ty, st).status.Done? ==> GenOne(c, sp, ty, st).status == Panicked(TooLong)
  {
    var st1 := St(st.code, st.active + {ty.s});
    var n := ScalarWidth(ty);
    var o := GenRec(c, sp, ty, st1);
    ScalarRec(c, sp, ty, st1);
    if n == 0 {
      PutNat(st1, OpVstr, 0);
    } else {
      FixedCode(st1, n);
    }
    assert st1.active - {ty.s} == st.active;
    assert GenOne(c, sp, ty, st) == if o.status.Done? then Out(St(o.st.code, st.active), Done) else o;
  }


  /** An unknown kind panics as unreachable before emitting anything, and
      stays marked as being expanded. */
  lemma {:induction false} UnknownKind(c: Ctx, sp: nat, ty: Ty, st: St)
    requires ty.Unknown? && ty.s !in st.active
    ensures GenOne(c, sp, ty, st) == Out(St(st.code, st.active + {ty.s}), Panicked(Unreachable))
  {
    var st1 := St(st.code, st.active + {ty.s});
    assert GenRec(c, sp, ty, st1) == Out(st1, Panicked(Unreachable));
    assert GenOne(c, sp, ty, st) == GenSet(c, sp, ty, st);
  }

  /** `compileRec` on a scalar: `vstr` or `size n, copy n`. */
  lemma {:induction false} ScalarRec(c: Ctx, sp: nat, ty: Ty, st: St)
    requires IsScalar(ty)
    ensures GenRec(c, sp, ty, st) ==
      if ScalarWidth(ty) == 0 then Put(st, OpVstr, 0, 0) else Fixed(st, ScalarWidth(ty))
  {
  }

  /** `size n, copy n`, of which the `copy` may no longer fit. */
  lemma {:induction false} FixedCode(st: St, n: nat)
    requires n <= MaxInt56
    ensures Fixed(st, n) ==
      if |st.code| + 2 <= MaxUint56 then Out(St(st.code + [Word(OpSize, n), Word(OpCopy, n)], st.active), Done)
      else if |st.code| < MaxUint56 then Out(St(st.code + [Word(OpSize, n)], st.active), Panicked(TooLong))
      else Out(st, Panicked(TooLong))
  {
    PutNat(st, OpSize, n);
    var st1 := St(st.code + [Word(OpSize, n)], st.active);
    PutNat(st1, OpCopy, n);
    assert st1.code + [Word(OpCopy, n)] == st.code + [Word(OpSize, n), Word(OpCopy, n)];
  }

  /** The words of field `i`'s header: `size 3`, the `seek` by the offset
      from the previous field (not for the first field), `byte` with the
      field's type tag and `word` with its id. */
  function HeaderWords(fs: seq<Field>, i: nat): seq<Instr>
    requires i < |fs|
    requires i > 0 ==> MinInt56 <= OffsetDelta(fs[i - 1].off, fs[i].off) <= MaxInt56
  {
    [Word(OpSize, 3)]
    + (if i == 0 then [] else [Word(OpSeek, OffsetDelta(fs[i - 1].off, fs[i].off) % TWO56)])
    + [Word(OpByte, WireTag(fs[i].ty)), Word(OpWord, fs[i].id % TWO56)]
  }

  /** A field header that is emitted appends exactly its words; the offset
      delta of a `seek` that is emitted fits in 56 bits. */
  lemma {:induction false} FieldHeaderCode(st: St, fs: seq<Field>, i: nat)
    requires i < |fs| && FieldHeader(st, fs, i).status.Done?
    ensures i > 0 ==> MinInt56 <= OffsetDelta(fs[i - 1].off, fs[i].off) <= MaxInt56
    ensures FieldHeader(st, fs, i).st == St(st.code + HeaderWords(fs, i), st.active)
  {
    var st1 := St(st.code + [Word(OpSize, 3)], st.active);
    PutNat(st, OpSize, 3);
    assert Put(st, OpSize, 3, 0).st == st1;
    var st2: St;
    if i == 0 {
      st2 := st1;
    } else {
      var d := OffsetDelta(fs[i - 1].off, fs[i].off);
      assert Put(st1, OpSeek, d, 0).status.Done?;
      PutWord(st1, OpSeek, d);
      st2 := St(st1.code + [Word(OpSeek, d % TWO56)], st.active);
    }
    FieldTail(st2, fs[i]);
  }

  /** The last two words of a field header. */
  lemma {:induction false} FieldTail(st: St, f: Field)
    requires Put(st, OpByte, WireTag(f.ty), 0).status.Done?
    ensures Put(st, OpByte, WireTag(f.ty), 0).st == St(st.code + [Word(OpByte, WireTag(f.ty))], st.active)
    ensures var st1 := Put(st, OpByte, WireTag(f.ty), 0).st;
      Put(st1, OpWord, f.id, 0).status.Done? ==>
      Put(st1, OpWord, f.id, 0).st == St(st.code + [Word(OpByte, WireTag(f.ty)), Word(OpWord, f.id % TWO56)], st.active)
  {
    PutNat(st, OpByte, WireTag(f.ty));
    var st1 := St(st.code + [Word(OpByte, WireTag(f.ty))], st.active);
    PutWord(st1, OpWord, f.id);
  }

  /** One step of the field loop: the header of field `i`, the field's code
      one level deeper, then the remaining fields. */
  lemma {:induction false} FieldStep(c: Ctx, sp: nat, fs: seq<Field>, i: nat, st: St)
    requires 1 <= i < |fs| && sp < c.maxStack && GenFields(c, sp, fs, i, st).status.Done?
    ensures MinInt56 <= OffsetDelta(fs[i - 1].off, fs[i].off) <= MaxInt56
    ensures var e := GenOne(c, sp + 1, fs[i].ty, St(st.code + HeaderWords(fs, i), st.active));
      && e.status.Done?
      && GenFields(c, sp, fs, i, st) == GenFields(c, sp, fs, i + 1, e.st)
  {
    FieldHeaderCode(st, fs, i);
  }

  /** The field loop ends with the STOP byte. */
  lemma {:induction false} FieldsEndWithStop(c: Ctx, sp: nat, fs: seq<Field>, i: nat, st: St)
    requires 1 <= i <= |fs| && sp < c.maxStack && GenFields(c, sp, fs, i, st).status.Done?
    ensures var r := GenFields(c, sp, fs, i, st).st.code;
      |st.code| < |r| && r[|r| - 1] == Word(OpByte, 0)
    ensures i == |fs| ==> GenFields(c, sp, fs, i, st).st == St(st.code + [Word(OpByte, 0)], st.active)
    decreases |fs| - i
  {
    if i == |fs| {
      PutNat(st, OpByte, 0);
    } else {
      var h := FieldHeader(st, fs, i);
      FieldHeaderGrows(c, st, fs, i);
      var e := GenOne(c, sp + 1, fs[i].ty, h.st);
      GenOneGrows(c, sp + 1, fs[i].ty, h.st);
      FieldsEndWithStop(c, sp, fs, i + 1, e.st);
    }
  }

  /** What decides a struct's code: a resolution error is the failure and
      leaves the state as it was; an empty struct is only STOP, whatever the
      depth; a non-empty one is refused past the nesting budget. */
  lemma {:induction false} StructGuards(c: Ctx, sp: nat, s: TypeId, st: St)
    ensures c.resolve(s).Unresolvable? ==> GenStruct(c, sp, s, st) == Out(st, Errored(c.resolve(s).err))
    ensures c.resolve(s).Fields? && |c.resolve(s).fs| == 0 ==>
      GenStruct(c, sp, s, st) ==
        (if |st.code| < MaxUint56 then Out(St(st.code + [Word(OpByte, 0)], st.active), Done)
         else Out(st, Panicked(TooLong)))
    ensures c.resolve(s).Fields? && |c.resolve(s).fs| > 0 && sp >= c.maxStack ==>
      GenStruct(c, sp, s, st) == Out(st, Panicked(TooDeep))
  {
    PutNat(st, OpByte, 0);
  }

  /** A struct compiled normally: the first field's header and code one
      level deeper, then the other fields, and STOP last. */
  lemma {:induction false} StructShape(c: Ctx, sp: nat, s: TypeId, st: St)
    requires GenStruct(c, sp, s, st).status.Done?
    ensures c.resolve(s).Fields?
    ensures var r := GenStruct(c, sp, s, st).st.code;
      |st.code| < |r| && r[|r| - 1] == Word(OpByte, 0)
    ensures c.resolve(s).Fields? && |c.resolve(s).fs| > 0 ==>
      var fs := c.resolve(s).fs;
      var e := GenOne(c, sp + 1, fs[0].ty, St(st.code + HeaderWords(fs, 0), st.active));
      && sp < c.maxStack
      && e.status.Done?
      && GenStruct(c, sp, s, st) == GenFields(c, sp, fs, 1, e.st)
  {
    StructGuards(c, sp, s, st);
    var fs := c.resolve(s).fs;
    if |fs| > 0 {
      FieldHeaderCode(st, fs, 0);
      var e := GenOne(c, sp + 1, fs[0].ty, St(st.code + HeaderWords(fs, 0), st.active));
      GenOneGrows(c, sp + 1, fs[0].ty, St(st.code + HeaderWords(fs, 0), st.active));
      FieldsEndWithStop(c, sp, fs, 1, e.st);
    }
  }

  /** A type whose expansion does not return normally (a string panic, or
      the `error` panic of a failed field resolution, which `Compile`
      returns as its error) stays in the set of types being expanded:
      `compileSet` removes it only on normal return. */
  lemma {:induction false} ActiveLeak(c: Ctx, sp: nat, ty: Ty, st: St)
    requires !ty.Pointer? && ty.s !in st.active && !GenOne(c, sp, ty, st).status.Done?
    ensures GenOne(c, sp, ty, st).st.active >= st.active + {ty.s}
  {
    GenRecGrows(c, sp, ty, St(st.code, st.active + {ty.s}));
  }
}
