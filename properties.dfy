/** What every generation step guarantees, proved by induction along the
    recursion of the generator: the program only grows past its start (a
    `pin` only patches a word the step itself emitted), the length cap holds,
    the set of types being expanded is restored on normal return and only
    grows otherwise, the only `error` value is a field-resolution error, and
    every jump-class operand stays inside the program. */
module Properties {
  import opened Faults
  import opened Words
  import opened Programs
  import opened CodeGen

  /** Every jump-class word targets a position of `code` or its end. */
  ghost predicate JumpsWithin(code: seq<Instr>) {
    forall j :: 0 <= j < |code| && Op(code[j]) in JumpOps ==> 0 <= Immediate(code[j]) <= |code|
  }

  /** `e` is the error that field resolution reports for some type. */
  ghost predicate ResolveError(c: Ctx, e: string) {
    exists s :: c.resolve(s) == Unresolvable(e)
  }

  /** The guarantees of one step from `st` that ended as `o`. */
  ghost predicate Grows(c: Ctx, st: St, o: Out) {
    && st.code <= o.st.code
    && (|st.code| <= MaxUint56 ==> |o.st.code| <= MaxUint56)
    && st.active <= o.st.active
    && (o.status.Done? ==> o.st.active == st.active)
    && (o.status.Errored? ==> ResolveError(c, o.status.err))
    && (JumpsWithin(st.code) && |o.st.code| <= MaxInt56 ==> JumpsWithin(o.st.code))
  }

  /** One emitted word: a jump-class word must target the program so far. */
  lemma PutGrows(c: Ctx, st: St, op: OpCode, iv: int, h: TypeId)
    requires iv == 0 || h == 0
    requires op in JumpOps ==> 0 <= iv <= |st.code| && h == 0
    ensures Grows(c, st, Put(st, op, iv, h))
  {
    var o := Put(st, op, iv, h);
    if o.status.Done? && JumpsWithin(st.code) && |o.st.code| <= MaxInt56 {
      if op in JumpOps {
        ImmediateRoundTrip(op, iv);
      }
      forall j | 0 <= j < |o.st.code| && Op(o.st.code[j]) in JumpOps
        ensures 0 <= Immediate(o.st.code[j]) <= |o.st.code|
      {
        if j < |st.code| {
          assert o.st.code[j] == st.code[j];
        }
      }
    }
  }

  /** A `pin` of a word past `pre` keeps `pre`, the length, and the jump
      invariant (the patched operand is the program's length). */
  lemma PatchedAbove(code: seq<Instr>, i: nat, pre: seq<Instr>)
    requires pre <= code && |pre| <= i < |code| <= MaxUint56
    ensures Patched(code, i).status.Done?
    ensures pre <= Patched(code, i).code && |Patched(code, i).code| == |code|
    ensures JumpsWithin(code) && |code| <= MaxInt56 ==> JumpsWithin(Patched(code, i).code)
  {
    var r := Patched(code, i).code;
    assert r[..|pre|] == code[..|pre|];
    if JumpsWithin(code) && |code| <= MaxInt56 {
      PinnedFields(code[i], |code|);
      forall j | 0 <= j < |r| && Op(r[j]) in JumpOps
        ensures 0 <= Immediate(r[j]) <= |r|
      {
        if j != i {
          assert r[j] == code[j];
        }
      }
    }
  }

  /** Chaining two steps, the first of which ended normally. */
  lemma GrowsTrans(c: Ctx, st: St, o1: Out, o2: Out)
    requires Grows(c, st, o1) && o1.status.Done? && Grows(c, o1.st, o2)
    ensures Grows(c, st, o2)
  {
    if JumpsWithin(st.code) && |o2.st.code| <= MaxInt56 {
      assert |o1.st.code| <= |o2.st.code|;
    }
  }

  /** A word emitted after a stretch that ended normally. */
  lemma PutAfter(c: Ctx, st0: St, st: St, op: OpCode, iv: int, h: TypeId)
    requires iv == 0 || h == 0
    requires Grows(c, st0, Out(st, Done))
    requires op in JumpOps ==> 0 <= iv <= |st.code| && h == 0
    ensures Grows(c, st0, Put(st, op, iv, h))
  {
    PutGrows(c, st, op, iv, h);
    GrowsTrans(c, st0, Out(st, Done), Put(st, op, iv, h));
  }

  /** The head of a loop: two words, neither a jump. */
  lemma OpenLoopGrows(c: Ctx, st: St, test: OpCode)
    requires test !in JumpOps
    ensures Grows(c, st, OpenLoop(st, test))
    ensures OpenLoop(st, test).status.Done? ==> |OpenLoop(st, test).st.code| == |st.code| + 2
  {
    var o1 := Put(st, test, 0, 0);
    PutGrows(c, st, test, 0, 0);
    if o1.status.Done? {
      PutAfter(c, st, o1.st, OpIfTrue, 0, 0);
    }
  }

  /** The instruction `next` after a loop's body, then the loop's end. */
  lemma LoopTailGrows(c: Ctx, st0: St, st: St, next: OpCode, end: OpCode)
    requires Grows(c, st0, Out(st, Done)) && |st0.code| <= MaxUint56
    requires |st0.code| + 1 < |st.code| && next !in JumpOps && end !in JumpOps
    ensures Grows(c, st0, Put(st, next, 0, 0))
    ensures Put(st, next, 0, 0).status.Done? ==>
      Grows(c, st0, CloseLoop(Put(st, next, 0, 0).st, |st0.code|, |st0.code| + 1, end))
  {
    var o := Put(st, next, 0, 0);
    PutAfter(c, st0, st, next, 0, 0);
    if o.status.Done? {
      CloseLoopGrows(c, st0, o.st, |st0.code|, |st0.code| + 1, end);
    }
  }

  /** The end of a loop that started at `st0`, with the loop head at `i` and
      its `if_true` at `j`, both emitted by the loop. */
  lemma CloseLoopGrows(c: Ctx, st0: St, st: St, i: nat, j: nat, end: OpCode)
    requires Grows(c, st0, Out(st, Done)) && |st0.code| <= MaxUint56
    requires |st0.code| == i && i < j < |st.code| && end !in JumpOps
    ensures Grows(c, st0, CloseLoop(st, i, j, end))
  {
    var o1 := Put(st, OpGoto, i, 0);
    PutGrows(c, st, OpGoto, i, 0);
    if o1.status.Done? {
      GrowsTrans(c, st0, Out(st, Done), o1);
      var o2 := Pin(o1.st, j);
      PatchedAbove(o1.st.code, j, st0.code);
      var o3 := Put(o2.st, end, 0, 0);
      PutGrows(c, o2.st, end, 0, 0);
      assert Grows(c, st0, o2);
      GrowsTrans(c, st0, o2, o3);
    }
  }

  lemma {:induction false} GenOneGrows(c: Ctx, sp: nat, ty: Ty, st: St)
    ensures Grows(c, st, GenOne(c, sp, ty, st))
    decreases Budget(c, sp), Size(ty), 3, 0
  {
    if ty.Pointer? {
      GenPtrGrows(c, sp, ty.v, st);
    } else if ty.s !in st.active {
      GenSetGrows(c, sp, ty, st);
    } else {
      PutGrows(c, st, OpDefer, 0, ty.s);
    }
  }

  lemma {:induction false} GenSetGrows(c: Ctx, sp: nat, ty: Ty, st: St)
    requires !ty.Pointer? && ty.s !in st.active
    ensures Grows(c, st, GenSet(c, sp, ty, st))
    decreases Budget(c, sp), Size(ty), 2, 0
  {
    var st1 := St(st.code, st.active + {ty.s});
    GenRecGrows(c, sp, ty, st1);
    var o := GenRec(c, sp, ty, st1);
    if o.status.Done? {
      assert o.st.active - {ty.s} == st.active;
    }
  }

  lemma {:induction false} FixedGrows(c: Ctx, st: St, n: nat)
    ensures Grows(c, st, Fixed(st, n))
  {
    PutGrows(c, st, OpSize, n, 0);
    var o1 := Put(st, OpSize, n, 0);
    if o1.status.Done? {
      PutGrows(c, o1.st, OpCopy, n, 0);
      GrowsTrans(c, st, o1, Put(o1.st, OpCopy, n, 0));
    }
  }

  lemma {:induction false} GenRecGrows(c: Ctx, sp: nat, ty: Ty, st: St)
    requires !ty.Pointer?
    ensures Grows(c, st, GenRec(c, sp, ty, st))
    decreases Budget(c, sp), Size(ty), 1, 0
  {
    match ty
    case Bool(_) => FixedGrows(c, st, 1);
    case I8(_) => FixedGrows(c, st, 1);
    case I16(_) => FixedGrows(c, st, 2);
    case I32(_) => FixedGrows(c, st, 4);
    case I64(_) => FixedGrows(c, st, 8);
    case Double(_) => FixedGrows(c, st, 8);
    case String(_) => PutGrows(c, st, OpVstr, 0, 0);
    case Binary(_) => PutGrows(c, st, OpVstr, 0, 0);
    case Struct(s) => GenStructGrows(c, sp, s, st);
    case Map(_, _, _) => GenMapGrows(c, sp, ty, st);
    case Set(_, v) => GenSetListGrows(c, sp, v, st);
    case List(_, v) => GenSetListGrows(c, sp, v, st);
    case Unknown(_, _) =>
  }

  lemma {:induction false} GenPtrGrows(c: Ctx, sp: nat, v: Ty, st: St)
    ensures Grows(c, st, GenPtr(c, sp, v, st))
    decreases Budget(c, sp), Size(v) + 1, 2, 0
  {
    var i := |st.code|;
    var o1 := Put(st, OpDeref, 0, 0);
    PutGrows(c, st, OpDeref, 0, 0);
    if o1.status.Done? {
      var o2 := GenOne(c, sp, v, o1.st);
      GenOneGrows(c, sp, v, o1.st);
      GrowsTrans(c, st, o1, o2);
      if o2.status.Done? {
        PatchedAbove(o2.st.code, i, st.code);
      }
    }
  }

  lemma {:induction false} GenMapGrows(c: Ctx, sp: nat, ty: Ty, st: St)
    requires ty.Map?
    ensures Grows(c, st, GenMap(c, sp, ty, st))
    decreases Budget(c, sp), Size(ty), 0, 2
  {
    if sp < c.maxStack {
      var o1 := Put(st, OpSize, 6, 0);
      PutGrows(c, st, OpSize, 6, 0);
      if o1.status.Done? {
        var o2 := Put(o1.st, OpByte, WireTag(ty.k), 0);
        PutAfter(c, st, o1.st, OpByte, WireTag(ty.k), 0);
        if o2.status.Done? {
          var o3 := Put(o2.st, OpByte, WireTag(ty.v), 0);
          PutAfter(c, st, o2.st, OpByte, WireTag(ty.v), 0);
          if o3.status.Done? {
            var o4 := Put(o3.st, OpMapBegin, 0, ty.s);
            PutAfter(c, st, o3.st, OpMapBegin, 0, ty.s);
            if o4.status.Done? {
              GenMapLoopGrows(c, sp, ty, o4.st);
              GrowsTrans(c, st, o4, GenMapLoop(c, sp, ty, o4.st));
            }
          }
        }
      }
    }
  }

  lemma {:induction false} GenMapLoopGrows(c: Ctx, sp: nat, ty: Ty, st: St)
    requires ty.Map? && sp < c.maxStack
    ensures Grows(c, st, GenMapLoop(c, sp, ty, st))
    decreases Budget(c, sp), Size(ty), 0, 1
  {
    var o2 := OpenLoop(st, OpMapIsEnd);
    OpenLoopGrows(c, st, OpMapIsEnd);
    if o2.status.Done? {
      var o3 := GenMapEntry(c, sp, ty, o2.st);
      GenMapEntryGrows(c, sp, ty, o2.st);
      GrowsTrans(c, st, o2, o3);
      if o3.status.Done? && |st.code| <= MaxUint56 {
        assert |st.code| + 1 < |o2.st.code| <= |o3.st.code|;
        CloseLoopGrows(c, st, o3.st, |st.code|, |st.code| + 1, OpMapEnd);
      }
    }
  }

  lemma {:induction false} GenMapEntryGrows(c: Ctx, sp: nat, ty: Ty, st: St)
    requires ty.Map? && sp < c.maxStack
    ensures Grows(c, st, GenMapEntry(c, sp, ty, st))
    decreases Budget(c, sp), Size(ty), 0, 0
  {
    var o1 := Put(st, OpMapKey, 0, 0);
    PutGrows(c, st, OpMapKey, 0, 0);
    if o1.status.Done? {
      var o2 := GenOne(c, sp + 1, ty.k, o1.st);
      GenOneGrows(c, sp + 1, ty.k, o1.st);
      GrowsTrans(c, st, o1, o2);
      if o2.status.Done? {
        var o3 := Put(o2.st, OpMapValue, 0, 0);
        PutAfter(c, st, o2.st, OpMapValue, 0, 0);
        if o3.status.Done? {
          GenOneGrows(c, sp + 1, ty.v, o3.st);
          GrowsTrans(c, st, o3, GenOne(c, sp + 1, ty.v, o3.st));
        }
      }
    }
  }

  lemma {:induction false} GenSetListGrows(c: Ctx, sp: nat, et: Ty, st: St)
    ensures Grows(c, st, GenSetList(c, sp, et, st))
    decreases Budget(c, sp), Size(et) + 1, 0, 1
  {
    if sp < c.maxStack {
      var o1 := Put(st, OpSize, 5, 0);
      PutGrows(c, st, OpSize, 5, 0);
      if o1.status.Done? {
        var o2 := Put(o1.st, OpByte, WireTag(et), 0);
        PutAfter(c, st, o1.st, OpByte, WireTag(et), 0);
        if o2.status.Done? {
          var o3 := Put(o2.st, OpListBegin, 0, 0);
          PutAfter(c, st, o2.st, OpListBegin, 0, 0);
          if o3.status.Done? {
            GenListLoopGrows(c, sp, et, o3.st);
            GrowsTrans(c, st, o3, GenListLoop(c, sp, et, o3.st));
          }
        }
      }
    }
  }

  lemma {:induction false} GenListLoopGrows(c: Ctx, sp: nat, et: Ty, st: St)
    requires sp < c.maxStack
    ensures Grows(c, st, GenListLoop(c, sp, et, st))
    decreases Budget(c, sp), Size(et) + 1, 0, 0
  {
    var o2 := OpenLoop(st, OpListIsEnd);
    OpenLoopGrows(c, st, OpListIsEnd);
    if o2.status.Done? {
      var o3 := GenOne(c, sp + 1, et, o2.st);
      GenOneGrows(c, sp + 1, et, o2.st);
      GrowsTrans(c, st, o2, o3);
      if o3.status.Done? && |st.code| <= MaxUint56 {
        LoopTailGrows(c, st, o3.st, OpListNext, OpListEnd);
      }
    }
  }

  lemma {:induction false} FieldHeaderGrows(c: Ctx, st: St, fs: seq<Field>, i: nat)
    requires i < |fs|
    ensures Grows(c, st, FieldHeader(st, fs, i))
  {
    var o1 := Put(st, OpSize, 3, 0);
    PutGrows(c, st, OpSize, 3, 0);
    if o1.status.Done? {
      var o2 := if i == 0 then Out(o1.st, Done) else Put(o1.st, OpSeek, OffsetDelta(fs[i - 1].off, fs[i].off), 0);
      if i != 0 {
        PutAfter(c, st, o1.st, OpSeek, OffsetDelta(fs[i - 1].off, fs[i].off), 0);
      }
      if o2.status.Done? {
        var o3 := Put(o2.st, OpByte, WireTag(fs[i].ty), 0);
        PutAfter(c, st, o2.st, OpByte, WireTag(fs[i].ty), 0);
        if o3.status.Done? {
          PutAfter(c, st, o3.st, OpWord, fs[i].id, 0);
        }
      }
    }
  }

  lemma {:induction false} GenStructGrows(c: Ctx, sp: nat, s: TypeId, st: St)
    ensures Grows(c, st, GenStruct(c, sp, s, st))
    decreases Budget(c, sp), 1, 0, 0
  {
    match c.resolve(s)
    case Unresolvable(e) =>
      assert ResolveError(c, e);
    case Fields(fs) =>
      if |fs| == 0 {
        PutGrows(c, st, OpByte, 0, 0);
      } else if sp < c.maxStack {
        var o1 := FieldHeader(st, fs, 0);
        FieldHeaderGrows(c, st, fs, 0);
        if o1.status.Done? {
          var o2 := GenOne(c, sp + 1, fs[0].ty, o1.st);
          GenOneGrows(c, sp + 1, fs[0].ty, o1.st);
          GrowsTrans(c, st, o1, o2);
          if o2.status.Done? {
            GenFieldsGrows(c, sp, fs, 1, o2.st);
            GrowsTrans(c, st, o2, GenFields(c, sp, fs, 1, o2.st));
          }
        }
      }
  }

  lemma {:induction false} GenFieldsGrows(c: Ctx, sp: nat, fs: seq<Field>, i: nat, st: St)
    requires 1 <= i <= |fs| && sp < c.maxStack
    ensures Grows(c, st, GenFields(c, sp, fs, i, st))
    decreases Budget(c, sp), 0, 0, |fs| - i
  {
    if i == |fs| {
      PutGrows(c, st, OpByte, 0, 0);
    } else {
      var o1 := FieldHeader(st, fs, i);
      FieldHeaderGrows(c, st, fs, i);
      if o1.status.Done? {
        var o2 := GenOne(c, sp + 1, fs[i].ty, o1.st);
        GenOneGrows(c, sp + 1, fs[i].ty, o1.st);
        GrowsTrans(c, st, o1, o2);
        if o2.status.Done? {
          GenFieldsGrows(c, sp, fs, i + 1, o2.st);
          GrowsTrans(c, st, o2, GenFields(c, sp, fs, i + 1, o2.st));
        }
      }
    }
  }
}
