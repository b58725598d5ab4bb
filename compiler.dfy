/** The encoder compiler proper: the `Compiler` object that walks a type
    descriptor and appends to a `Program` in place, and its entry point
    `Compile` with the recovery of panics. Each method is proved to leave
    exactly the program, set of types being expanded and status that the
    corresponding function of module CodeGen computes. */
module Encoder {
  import opened Faults
  import opened Words
  import opened Programs
  import opened CodeGen
  import opened Properties

  /** What `Compile` gives its caller. */
  datatype Compiled =
    | Compiled(prog: seq<Instr>)             // (Optimize(ret), nil)
    | Failed(prog: seq<Instr>, err: string)  // (ret, err): an error value recovered by rescue
    | Aborted(fault: Fault)                  // a string panic, re-raised by rescue

  /** `rescue`: an `error` panic becomes the returned error, paired with the
      program as the panic left it; any other panic propagates. */
  function Rescue(o: Out): (r: Compiled)
    ensures r.Compiled? <==> o.status.Done?
    ensures r.Failed? <==> o.status.Errored?
    ensures r.Aborted? <==> o.status.Panicked?
    ensures !r.Aborted? ==> r.prog == o.st.code
    ensures r.Failed? ==> r.err == o.status.err
    ensures r.Aborted? ==> r.fault == o.status.fault
  {
    match o.status
    case Done => Compiled(o.st.code)
    case Errored(e) => Failed(o.st.code, e)
    case Panicked(f) => Aborted(f)
  }

  /** The Go `Compiler` map: the identities of the types being expanded.
      `maxStack` stands for the engine's stack budget and `resolve` for field
      resolution, both fixed for a compiler. */
  class Compiler {
    var active: set<TypeId>
    const maxStack: nat
    const resolve: TypeId -> Resolved

    /** `newCompiler`: an empty map. */
    constructor (maxStack: nat, resolve: TypeId -> Resolved)
      ensures active == {} && this.maxStack == maxStack && this.resolve == resolve
    {
      this.maxStack := maxStack;
      this.resolve := resolve;
      active := {};
    }

    function Env(): Ctx {
      Ctx(maxStack, resolve)
    }

    method CompileOne(p: Program, sp: nat, ty: Ty) returns (o: Status)
      modifies this, p
      ensures Out(St(p.code, active), o) == GenOne(Env(), sp, ty, St(old(p.code), old(active)))
      decreases Budget(Env(), sp), Size(ty), 3, 0
    {
      if ty.Pointer? {
        o := CompilePtr(p, sp, ty.v);
      } else if ty.s !in active {
        o := CompileSet(p, sp, ty);
      } else {
        o := p.Rtt(OpDefer, ty.s);
      }
    }

    method CompileSet(p: Program, sp: nat, ty: Ty) returns (o: Status)
      requires !ty.Pointer? && ty.s !in active
      modifies this, p
      ensures Out(St(p.code, active), o) == GenSet(Env(), sp, ty, St(old(p.code), old(active)))
      decreases Budget(Env(), sp), Size(ty), 2, 0
    {
      active := active + {ty.s};
      :- CompileRec(p, sp, ty);
      active := active - {ty.s};
      o := Done;
    }

    method CompileRec(p: Program, sp: nat, ty: Ty) returns (o: Status)
      requires !ty.Pointer?
      modifies this, p
      ensures Out(St(p.code, active), o) == GenRec(Env(), sp, ty, St(old(p.code), old(active)))
      decreases Budget(Env(), sp), Size(ty), 1, 0
    {
      match ty
      case Bool(_) =>
        :- p.I64(OpSize, 1);
        o := p.I64(OpCopy, 1);
      case I8(_) =>
        :- p.I64(OpSize, 1);
        o := p.I64(OpCopy, 1);
      case I16(_) =>
        :- p.I64(OpSize, 2);
        o := p.I64(OpCopy, 2);
      case I32(_) =>
        :- p.I64(OpSize, 4);
        o := p.I64(OpCopy, 4);
      case I64(_) =>
        :- p.I64(OpSize, 8);
        o := p.I64(OpCopy, 8);
      case Double(_) =>
        :- p.I64(OpSize, 8);
        o := p.I64(OpCopy, 8);
      case String(_) =>
        o := p.Add(OpVstr);
      case Binary(_) =>
        o := p.Add(OpVstr);
      case Struct(s) =>
        o := CompileStruct(p, sp, s);
      case Map(_, _, _) =>
        o := CompileMap(p, sp, ty);
      case Set(_, v) =>
        o := CompileSetList(p, sp, v);
      case List(_, v) =>
        o := CompileSetList(p, sp, v);
      case Unknown(_, _) =>
        o := Panicked(Unreachable);
    }

    method CompilePtr(p: Program, sp: nat, et: Ty) returns (o: Status)
      modifies this, p
      ensures Out(St(p.code, active), o) == GenPtr(Env(), sp, et, St(old(p.code), old(active)))
      decreases Budget(Env(), sp), Size(et) + 1, 2, 0
    {
      var i := p.Pc();
      :- p.Add(OpDeref);
      :- CompileOne(p, sp, et);
      o := p.Pin(i);
    }

    /** The common head of the map and list loops; `j` is the position of
        the `if_true`. */
    method OpenLoop(p: Program, test: OpCode) returns (o: Status, j: nat)
      modifies p
      ensures Out(St(p.code, active), o) == CodeGen.OpenLoop(St(old(p.code), active), test)
      ensures o.Done? ==> j == |old(p.code)| + 1
    {
      o := p.Add(test);
      j := p.Pc();
      if o.Done? {
        o := p.Add(OpIfTrue);
      }
    }

    /** The common end of the map and list loops. */
    method CloseLoop(p: Program, i: nat, j: nat, end: OpCode) returns (o: Status)
      modifies p
      ensures Out(St(p.code, active), o) == CodeGen.CloseLoop(St(old(p.code), active), i, j, end)
    {
      o := p.I64(OpGoto, i);
      if !o.Done? {
        return;
      }
      :- p.Pin(j);
      o := p.Add(end);
    }

    method CompileMap(p: Program, sp: nat, vt: Ty) returns (o: Status)
      requires vt.Map?
      modifies this, p
      ensures Out(St(p.code, active), o) == GenMap(Env(), sp, vt, St(old(p.code), old(active)))
      decreases Budget(Env(), sp), Size(vt), 0, 2
    {
      o := p.Tag(sp, maxStack);
      if !o.Done? {
        return;
      }
      :- p.I64(OpSize, 6);
      :- p.I64(OpByte, WireTag(vt.k));
      :- p.I64(OpByte, WireTag(vt.v));
      :- p.Rtt(OpMapBegin, vt.s);
      o := CompileMapLoop(p, sp, vt);
    }

    method CompileMapLoop(p: Program, sp: nat, vt: Ty) returns (o: Status)
      requires vt.Map? && sp < maxStack
      modifies this, p
      ensures Out(St(p.code, active), o) == GenMapLoop(Env(), sp, vt, St(old(p.code), old(active)))
      decreases Budget(Env(), sp), Size(vt), 0, 1
    {
      var i := p.Pc();
      var j :- OpenLoop(p, OpMapIsEnd);
      :- CompileMapEntry(p, sp, vt);
      o := CloseLoop(p, i, j, OpMapEnd);
    }

    method CompileMapEntry(p: Program, sp: nat, vt: Ty) returns (o: Status)
      requires vt.Map? && sp < maxStack
      modifies this, p
      ensures Out(St(p.code, active), o) == GenMapEntry(Env(), sp, vt, St(old(p.code), old(active)))
      decreases Budget(Env(), sp), Size(vt), 0, 0
    {
      o := p.Add(OpMapKey);
      if !o.Done? {
        return;
      }
      :- CompileOne(p, sp + 1, vt.k);
      :- p.Add(OpMapValue);
      o := CompileOne(p, sp + 1, vt.v);
    }

    method CompileSetList(p: Program, sp: nat, et: Ty) returns (o: Status)
      modifies this, p
      ensures Out(St(p.code, active), o) == GenSetList(Env(), sp, et, St(old(p.code), old(active)))
      decreases Budget(Env(), sp), Size(et) + 1, 0, 1
    {
      o := p.Tag(sp, maxStack);
      if !o.Done? {
        return;
      }
      :- p.I64(OpSize, 5);
      :- p.I64(OpByte, WireTag(et));
      :- p.Add(OpListBegin);
      o := CompileListLoop(p, sp, et);
    }

    method CompileListLoop(p: Program, sp: nat, et: Ty) returns (o: Status)
      requires sp < maxStack
      modifies this, p
      ensures Out(St(p.code, active), o) == GenListLoop(Env(), sp, et, St(old(p.code), old(active)))
      decreases Budget(Env(), sp), Size(et) + 1, 0, 0
    {
      var i := p.Pc();
      var j :- OpenLoop(p, OpListIsEnd);
      :- CompileOne(p, sp + 1, et);
      :- p.Add(OpListNext);
      o := CloseLoop(p, i, j, OpListEnd);
    }

    method CompileStruct(p: Program, sp: nat, s: TypeId) returns (o: Status)
      modifies this, p
      ensures Out(St(p.code, active), o) == GenStruct(Env(), sp, s, St(old(p.code), old(active)))
      decreases Budget(Env(), sp), 1, 0, 0
    {
      var res := resolve(s);
      if res.Unresolvable? {
        return Errored(res.err);
      }
      var fvs := res.fs;
      if |fvs| == 0 {
        o := p.I64(OpByte, 0);
        return;
      }
      :- p.Tag(sp, maxStack);
      :- p.I64(OpSize, 3);
      :- p.I64(OpByte, WireTag(fvs[0].ty));
      :- p.I64(OpWord, fvs[0].id);
      :- CompileOne(p, sp + 1, fvs[0].ty);
      ghost var goal := GenFields(Env(), sp, fvs, 1, St(p.code, active));
      assert goal == GenStruct(Env(), sp, s, St(old(p.code), old(active)));
      var i := 1;
      while i < |fvs|
        invariant 1 <= i <= |fvs|
        invariant goal == GenFields(Env(), sp, fvs, i, St(p.code, active))
        decreases |fvs| - i
      {
        var fv := fvs[i];
        :- p.I64(OpSize, 3);
        :- p.I64(OpSeek, OffsetDelta(fvs[i - 1].off, fv.off));
        :- p.I64(OpByte, WireTag(fv.ty));
        :- p.I64(OpWord, fv.id);
        :- CompileOne(p, sp + 1, fv.ty);
        i := i + 1;
      }
      o := p.I64(OpByte, 0);
    }

    /** `Compile`: a fresh program, the root at depth 0, the panics recovered
        by `rescue`. The optimisation pass is the identity here. */
    method Compile(ty: Ty) returns (r: Compiled)
      modifies this
      ensures r == Rescue(GenOne(Env(), 0, ty, St([], old(active))))
      ensures active == GenOne(Env(), 0, ty, St([], old(active))).st.active
    {
      var p := new Program();
      var o := CompileOne(p, 0, ty);
      r := Rescue(Out(St(p.code, active), o));
    }
  }

  /** What `Compile` promises its caller, whatever the type and whatever the
      compiler already held: the only error it returns is a field-resolution
      error; on success the set of types being expanded is as before (and it
      never loses a member); and the program it returns, failed or not, has
      every jump-class operand inside it, so that disassembling it with the
      jump opcodes as branch table finds every label. */
  lemma CompileOutcome(c: Ctx, ty: Ty, a: set<TypeId>, branches: set<OpCode>)
    requires branches <= JumpOps
    ensures var o := GenOne(c, 0, ty, St([], a));
      var r := Rescue(o);
      && (r.Failed? ==> ResolveError(c, r.err))
      && (r.Compiled? ==> o.st.active == a)
      && a <= o.st.active
      && (!r.Aborted? && |r.prog| <= MaxInt56 ==> TargetsInRange(r.prog, branches))
  {
    var o := GenOne(c, 0, ty, St([], a));
    GenOneGrows(c, 0, ty, St([], a));
    if |o.st.code| <= MaxInt56 {
      assert JumpsWithin(o.st.code);
    }
  }
}
