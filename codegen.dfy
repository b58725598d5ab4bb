/** The structural code generator of the encoder, as functions over a state.

    The Go compiler walks a type descriptor depth-first, appending to the
    program in place and marking in a map the types whose bodies it is
    expanding. Each function here takes that state (the program so far and
    the set of types being expanded) and returns the state after the step
    together with how the step ended. A panic stops the walk where it is,
    so a failed step returns the program and the set as the panic left
    them. The `Compiler` class in module Encoder runs the same steps in
    place and is proved to agree with these functions.
 */
module CodeGen {
  import opened Faults
  import opened Words
  import opened Programs

  // Type tags. The wire kinds carry the type ids of the Thrift binary
  // protocol; binary and pointer are descriptor-only kinds whose values only
  // need to differ from those.
  const TBool: Byte := 2
  const TI8: Byte := 3
  const TDouble: Byte := 4
  const TI16: Byte := 6
  const TI32: Byte := 8
  const TI64: Byte := 10
  const TString: Byte := 11
  const TStruct: Byte := 12
  const TMap: Byte := 13
  const TSet: Byte := 14
  const TList: Byte := 15
  const TBinary: Byte := 0x81
  const TPointer: Byte := 0x82

  /** A resolved type descriptor. Every kind but the pointer carries the
      identity of its type; `Unknown` is any tag the generator has no case
      for. */
  datatype Ty =
    | Pointer(v: Ty)
    | Bool(s: TypeId)
    | I8(s: TypeId)
    | I16(s: TypeId)
    | I32(s: TypeId)
    | I64(s: TypeId)
    | Double(s: TypeId)
    | String(s: TypeId)
    | Binary(s: TypeId)
    | Struct(s: TypeId)
    | Map(s: TypeId, k: Ty, v: Ty)
    | Set(s: TypeId, v: Ty)
    | List(s: TypeId, v: Ty)
    | Unknown(s: TypeId, t: Byte)

  /** The descriptor's tag, the byte the generator writes as a wire type. */
  function WireTag(ty: Ty): Byte {
    match ty
    case Pointer(_) => TPointer
    case Bool(_) => TBool
    case I8(_) => TI8
    case I16(_) => TI16
    case I32(_) => TI32
    case I64(_) => TI64
    case Double(_) => TDouble
    case String(_) => TString
    case Binary(_) => TBinary
    case Struct(_) => TStruct
    case Map(_, _, _) => TMap
    case Set(_, _) => TSet
    case List(_, _) => TList
    case Unknown(_, t) => t
  }

  function Size(ty: Ty): nat {
    match ty
    case Pointer(v) => 1 + Size(v)
    case Map(_, k, v) => 1 + Size(k) + Size(v)
    case Set(_, v) => 1 + Size(v)
    case List(_, v) => 1 + Size(v)
    case _ => 1
  }

  /** A Thrift field id (i16). */
  type FieldId = x: int | -0x8000 <= x < 0x8000

  /** A byte offset within the host structure (a uintptr). */
  type Offset = x: int | 0 <= x < TWO64

  datatype Field = Field(id: FieldId, ty: Ty, off: Offset)

  /** What field resolution gives for a struct type: its ordered fields, or
      the error it reports. */
  datatype Resolved = Fields(fs: seq<Field>) | Unresolvable(err: string)

  /** The generator's fixed inputs: the engine's stack budget and the
      field-resolution table. */
  datatype Ctx = Ctx(maxStack: nat, resolve: TypeId -> Resolved)

  /** The generator's state: the program so far, and the identities of the
      types whose bodies are being expanded. */
  datatype St = St(code: seq<Instr>, active: set<TypeId>)

  /** A step's result: the state it leaves, and how it ended. */
  datatype Out = Out(st: St, status: Status) {
    predicate IsFailure() {
      !status.Done?
    }

    function PropagateFailure(): Out
      requires IsFailure()
    {
      this
    }

    function Extract(): St
      requires !IsFailure()
    {
      st
    }
  }

  /** `int64(cur - prev)` on two uintptr offsets. */
  function OffsetDelta(prev: Offset, cur: Offset): int {
    Signed64((cur - prev) % TWO64)
  }

  /** Nesting levels left before `tag` fails. */
  function Budget(c: Ctx, sp: nat): nat {
    if sp < c.maxStack then c.maxStack - sp else 0
  }

  /** One `add`, `i64` or `rtt`. */
  function Put(st: St, op: OpCode, iv: int, h: TypeId): Out
    requires iv == 0 || h == 0
  {
    var r := Emit(st.code, op, iv, h);
    Out(St(r.code, st.active), r.status)
  }

  /** One `pin`. */
  function Pin(st: St, i: nat): Out {
    var r := Patched(st.code, i);
    Out(St(r.code, st.active), r.status)
  }

  /** `compileOne`: a pointer guards its referent; a type already being
      expanded becomes one `defer`; any other type is expanded. */
  function GenOne(c: Ctx, sp: nat, ty: Ty, st: St): Out
    decreases Budget(c, sp), Size(ty), 3, 0
  {
    if ty.Pointer? then GenPtr(c, sp, ty.v, st)
    else if ty.s !in st.active then GenSet(c, sp, ty, st)
    else Put(st, OpDefer, 0, ty.s)
  }

  /** `compileSet`: mark the type, expand it, unmark it on normal return. */
  function GenSet(c: Ctx, sp: nat, ty: Ty, st: St): Out
    requires !ty.Pointer?
    decreases Budget(c, sp), Size(ty), 2, 0
  {
    var st1 :- GenRec(c, sp, ty, St(st.code, st.active + {ty.s}));
    Out(St(st1.code, st1.active - {ty.s}), Done)
  }

  /** size n; copy n: a fixed-width scalar. */
  function Fixed(st: St, n: nat): Out {
    var st1 :- Put(st, OpSize, n, 0);
    Put(st1, OpCopy, n, 0)
  }

  /** `compileRec`: one case per kind. */
  function GenRec(c: Ctx, sp: nat, ty: Ty, st: St): Out
    requires !ty.Pointer?
    decreases Budget(c, sp), Size(ty), 1, 0
  {
    match ty
    case Bool(_) => Fixed(st, 1)
    case I8(_) => Fixed(st, 1)
    case I16(_) => Fixed(st, 2)
    case I32(_) => Fixed(st, 4)
    case I64(_) => Fixed(st, 8)
    case Double(_) => Fixed(st, 8)
    case String(_) => Put(st, OpVstr, 0, 0)
    case Binary(_) => Put(st, OpVstr, 0, 0)
    case Struct(s) => GenStruct(c, sp, s, st)
    case Map(_, _, _) => GenMap(c, sp, ty, st)
    case Set(_, v) => GenSetList(c, sp, v, st)
    case List(_, v) => GenSetList(c, sp, v, st)
    case Unknown(_, _) => Out(st, Panicked(Unreachable))
  }

  /** `compilePtr`: `deref`, the referent at the same depth, then the `pin`
      that points the `deref` past the referent's code. */
  function GenPtr(c: Ctx, sp: nat, v: Ty, st: St): Out
    decreases Budget(c, sp), Size(v) + 1, 2, 0
  {
    var i := |st.code|;
    var st1 :- Put(st, OpDeref, 0, 0);
    var st2 :- GenOne(c, sp, v, st1);
    Pin(st2, i)
  }

  /** The head of a container loop: the end test `test`, then the
      `if_true` that leaves the loop once its operand is patched. */
  function OpenLoop(st: St, test: OpCode): Out {
    var st1 :- Put(st, test, 0, 0);
    Put(st1, OpIfTrue, 0, 0)
  }

  /** The end of a container loop whose `*_is_end` is at `i` and whose
      `if_true` is at `j`: jump back to `i`, point the `if_true` here, and
      the closing opcode `end`. */
  function CloseLoop(st: St, i: nat, j: nat, end: OpCode): Out {
    var st1 :- Put(st, OpGoto, i, 0);
    var st2 :- Pin(st1, j);
    Put(st2, end, 0, 0)
  }

  /** `compileMap`: the nesting guard, the header (size, key and value
      tags, `map_begin` with the map type), then the entry loop. */
  function GenMap(c: Ctx, sp: nat, ty: Ty, st: St): Out
    requires ty.Map?
    decreases Budget(c, sp), Size(ty), 0, 2
  {
    if sp >= c.maxStack then Out(st, Panicked(TooDeep))
    else
      var st1 :- Put(st, OpSize, 6, 0);
      var st2 :- Put(st1, OpByte, WireTag(ty.k), 0);
      var st3 :- Put(st2, OpByte, WireTag(ty.v), 0);
      var st4 :- Put(st3, OpMapBegin, 0, ty.s);
      GenMapLoop(c, sp, ty, st4)
  }

  /** The entry loop of `compileMap`, from `map_is_end` on. */
  function GenMapLoop(c: Ctx, sp: nat, ty: Ty, st: St): Out
    requires ty.Map? && sp < c.maxStack
    decreases Budget(c, sp), Size(ty), 0, 1
  {
    var i := |st.code|;
    var st2 :- OpenLoop(st, OpMapIsEnd);
    var st3 :- GenMapEntry(c, sp, ty, st2);
    CloseLoop(st3, i, i + 1, OpMapEnd)
  }

  /** One map entry: `map_key`, the key, `map_value`, the value, both one
      level deeper. */
  function GenMapEntry(c: Ctx, sp: nat, ty: Ty, st: St): Out
    requires ty.Map? && sp < c.maxStack
    decreases Budget(c, sp), Size(ty), 0, 0
  {
    var st1 :- Put(st, OpMapKey, 0, 0);
    var st2 :- GenOne(c, sp + 1, ty.k, st1);
    var st3 :- Put(st2, OpMapValue, 0, 0);
    GenOne(c, sp + 1, ty.v, st3)
  }

  /** `compileSetList`: the nesting guard, the header (size, element tag,
      `list_begin`), then the element loop. */
  function GenSetList(c: Ctx, sp: nat, et: Ty, st: St): Out
    decreases Budget(c, sp), Size(et) + 1, 0, 1
  {
    if sp >= c.maxStack then Out(st, Panicked(TooDeep))
    else
      var st1 :- Put(st, OpSize, 5, 0);
      var st2 :- Put(st1, OpByte, WireTag(et), 0);
      var st3 :- Put(st2, OpListBegin, 0, 0);
      GenListLoop(c, sp, et, st3)
  }

  /** The element loop of `compileSetList`, from `list_is_end` on. */
  function GenListLoop(c: Ctx, sp: nat, et: Ty, st: St): Out
    requires sp < c.maxStack
    decreases Budget(c, sp), Size(et) + 1, 0, 0
  {
    var i := |st.code|;
    var st2 :- OpenLoop(st, OpListIsEnd);
    var st3 :- GenOne(c, sp + 1, et, st2);
    var st4 :- Put(st3, OpListNext, 0, 0);
    CloseLoop(st4, i, i + 1, OpListEnd)
  }

  /** The header of field `i` of a struct: `size 3`, for every field after
      the first a `seek` by its offset from the previous field, the field's
      type tag and its id. */
  function FieldHeader(st: St, fs: seq<Field>, i: nat): Out
    requires i < |fs|
  {
    var st1 :- Put(st, OpSize, 3, 0);
    var st2 :- if i == 0 then Out(st1, Done) else Put(st1, OpSeek, OffsetDelta(fs[i - 1].off, fs[i].off), 0);
    var st3 :- Put(st2, OpByte, WireTag(fs[i].ty), 0);
    Put(st3, OpWord, fs[i].id, 0)
  }

  /** `compileStruct`: resolve the fields; an empty struct is only STOP;
      otherwise, under the nesting guard, each field's header and value one
      level deeper, then STOP. */
  function GenStruct(c: Ctx, sp: nat, s: TypeId, st: St): Out
    decreases Budget(c, sp), 1, 0, 0
  {
    match c.resolve(s)
    case Unresolvable(e) => Out(st, Errored(e))
    case Fields(fs) =>
      if |fs| == 0 then Put(st, OpByte, 0, 0)
      else if sp >= c.maxStack then Out(st, Panicked(TooDeep))
      else
        var st1 :- FieldHeader(st, fs, 0);
        var st2 :- GenOne(c, sp + 1, fs[0].ty, st1);
        GenFields(c, sp, fs, 1, st2)
  }

  /** The loop of `compileStruct` over the fields from the `i`-th on, and
      the STOP byte after the last. */
  function GenFields(c: Ctx, sp: nat, fs: seq<Field>, i: nat, st: St): Out
    requires 1 <= i <= |fs| && sp < c.maxStack
    decreases Budget(c, sp), 0, 0, |fs| - i
  {
    if i == |fs| then Put(st, OpByte, 0, 0)
    else
      var st1 :- FieldHeader(st, fs, i);
      var st2 :- GenOne(c, sp + 1, fs[i].ty, st1);
      GenFields(c, sp, fs, i + 1, st2)
  }
}
