/** The instruction word of the encoder program.

    An instruction is one unsigned 64-bit value: the low 8 bits hold the
    opcode, the upper 56 bits an operand, read either as a signed immediate
    or as a type handle. Range checks happen when a word is built.
    Type identities, memory addresses in the Go code, are natural-number
    handles here.
 */
module Words {
  import opened Faults

  const TWO56: int := 0x100_0000_0000_0000
  const TWO63: int := 0x8000_0000_0000_0000
  const TWO64: int := 0x1_0000_0000_0000_0000

  const MinInt56: int := -0x80_0000_0000_0000
  const MaxInt56: int := 0x7f_ffff_ffff_ffff
  const MaxUint56: int := 0xff_ffff_ffff_ffff

  type Byte = b: int | 0 <= b < 256
  type OpCode = Byte
  type Instr = w: int | 0 <= w < TWO64

  /** A type identity: the handle stored in an operand and used as a map key. */
  type TypeId = nat

  // The opcodes the compiler emits. Their numeric values belong to the opcode
  // table of the execution engine; the model only needs them distinct.
  const OpSize: OpCode := 1
  const OpCopy: OpCode := 2
  const OpSeek: OpCode := 3
  const OpByte: OpCode := 4
  const OpWord: OpCode := 5
  const OpLong: OpCode := 6
  const OpVstr: OpCode := 7
  const OpDeref: OpCode := 8
  const OpDefer: OpCode := 9
  const OpMapBegin: OpCode := 10
  const OpMapIsEnd: OpCode := 11
  const OpMapKey: OpCode := 12
  const OpMapValue: OpCode := 13
  const OpMapEnd: OpCode := 14
  const OpListBegin: OpCode := 15
  const OpListIsEnd: OpCode := 16
  const OpListNext: OpCode := 17
  const OpListEnd: OpCode := 18
  const OpGoto: OpCode := 19
  const OpIfNil: OpCode := 20
  const OpIfTrue: OpCode := 21

  /** The opcodes whose operand is a program position. */
  const JumpOps: set<OpCode> := {OpGoto, OpIfNil, OpIfTrue, OpDeref}

  /** `x << 8` on a uint64: the top 8 bits of x fall off. */
  function Shl8(x: nat): (r: nat)
    ensures r % 256 == 0 && r <= TWO64 - 256
  {
    (x % TWO56) * 256
  }

  /** Bitwise OR of two naturals. */
  function BitOr(a: nat, b: nat): nat
    decreases a + b
  {
    if a == 0 then b
    else if b == 0 then a
    else 2 * BitOr(a / 2, b / 2) + (if a % 2 == 1 || b % 2 == 1 then 1 else 0)
  }

  /** Reinterprets a uint64 as an int64. */
  function Signed64(w: Instr): (r: int)
    ensures -TWO63 <= r < TWO63
    ensures r % TWO64 == w
  {
    if w < TWO63 then w else w - TWO64
  }

  /** Go's `/` on integers, which truncates toward zero (Dafny's `/` floors
      for a positive divisor). */
  function TruncDiv(a: int, d: int): int
    requires d > 0
  {
    if a >= 0 then a / d else -((-a) / d)
  }

  /** `mkiv64`: the immediate as a uint64, or a panic when it does not fit
      in 56 signed bits. */
  function MkIv64(v: int): (r: Result<Instr>)
    ensures r.Failure? <==> v < MinInt56 || v > MaxInt56
    ensures r.Failure? ==> r.fault == IntRange
    ensures r.Success? ==> Signed64(r.value) == v
  {
    if v < MinInt56 || v > MaxInt56 then Failure(IntRange) else Success(v % TWO64)
  }

  /** `mktype`: the type handle, or a panic when it does not fit in 56
      unsigned bits. The Go code passes `nil` where no type is meant; that is
      handle 0 here. */
  function MkType(h: TypeId): (r: Result<Instr>)
    ensures r.Failure? <==> h > MaxUint56
    ensures r.Failure? ==> r.fault == AddressRange
    ensures r.Success? ==> r.value == h
  {
    if h > MaxUint56 then Failure(AddressRange) else Success(h)
  }

  /** `mkins`: `(mkiv64(iv) << 8) | (mktype(h) << 8) | op`. Shifting
      distributes over `|`, and `op` fills the low byte the shift leaves
      zero, so the last `|` is an addition. The immediate is checked
      before the handle, as Go evaluates the operands left to right. */
  function MkIns(op: OpCode, iv: int, h: TypeId): (r: Result<Instr>)
    ensures r.Failure? <==> iv < MinInt56 || iv > MaxInt56 || h > MaxUint56
    ensures r.Failure? ==> r.fault == if iv < MinInt56 || iv > MaxInt56 then IntRange else AddressRange
    ensures r.Success? ==> Op(r.value) == op
  {
    var a :- MkIv64(iv);
    var b :- MkType(h);
    Success(Shl8(BitOr(a, b)) + op)
  }

  /** `Instr.Op`: the low byte. */
  function Op(w: Instr): OpCode {
    w % 256
  }

  /** `Instr.Vt`: the upper 56 bits as a type handle. */
  function Vt(w: Instr): TypeId {
    w / 256
  }

  /** `Instr.Iv` as written: `int64(self) / 256` with Go's truncating
      division. It is not the inverse of `mkins` for negative immediates
      (see IvNegativeOffByOne); the rest of the model reads immediates with
      `Immediate`. */
  function Iv(w: Instr): int {
    TruncDiv(Signed64(w), 256)
  }

  /** The immediate of a word as an arithmetic shift `int64(self) >> 8`. */
  function Immediate(w: Instr): int {
    Signed64(w) / 256
  }

  /** The word whose opcode is `op` and whose 56-bit operand field is `n`. */
  function Word(op: OpCode, n: nat): Instr
    requires n < TWO56
  {
    op + 256 * n
  }

  /** `Program.pin` on one word: `(w & 0xff) | uint64(pc) << 8`. */
  function Pinned(w: Instr, pc: nat): Instr {
    w % 256 + Shl8(pc)
  }

  lemma BitOrZero(a: nat)
    ensures BitOr(a, 0) == a && BitOr(0, a) == a
  {
  }

  /** A word built with an immediate and no type is the immediate's low 56
      bits above the opcode; the arithmetic-shift accessor gives the
      immediate back over the whole signed 56-bit range. */
  lemma ImmediateRoundTrip(op: OpCode, iv: int)
    requires MinInt56 <= iv <= MaxInt56
    ensures MkIns(op, iv, 0) == Success(Word(op, iv % TWO56))
    ensures Op(Word(op, iv % TWO56)) == op
    ensures Immediate(Word(op, iv % TWO56)) == iv
  {
    var a := iv % TWO64;
    BitOrZero(a);
    if iv >= 0 {
      assert a == iv && a % TWO56 == iv % TWO56;
    } else {
      assert a == iv + TWO64;
      assert a % TWO56 == iv + TWO56 == iv % TWO56;
      assert Signed64(Word(op, iv % TWO56)) == 256 * iv + op;
    }
  }

  /** The round trip through `Op` and the as-written `Iv` holds for every
      non-negative immediate. */
  lemma IvRoundTrip(op: OpCode, iv: int)
    requires 0 <= iv <= MaxInt56
    ensures MkIns(op, iv, 0).Success?
    ensures Op(MkIns(op, iv, 0).value) == op
    ensures Iv(MkIns(op, iv, 0).value) == iv
  {
    ImmediateRoundTrip(op, iv);
    assert Signed64(Word(op, iv)) == op + 256 * iv;
  }

  /** The as-written `Iv` is one too large for a negative immediate under a
      nonzero opcode: Go's `/` rounds the negative `256 * iv + op` up. */
  lemma IvNegativeOffByOne(op: OpCode, iv: int)
    requires MinInt56 <= iv < 0 && op != 0
    ensures MkIns(op, iv, 0).Success?
    ensures Iv(MkIns(op, iv, 0).value) == iv + 1
  {
    ImmediateRoundTrip(op, iv);
    var w := Word(op, iv % TWO56);
    assert Signed64(w) == 256 * iv + op;
    assert (-(256 * iv + op)) / 256 == -iv - 1;
  }

  /** The two accessors agree on every word whose signed value is not negative,
      in particular on every position operand below 2^55. */
  lemma IvAgreesOnNonNegative(w: Instr)
    requires w < TWO63
    ensures Iv(w) == Immediate(w)
  {
  }

  /** A word built with a type handle and a zero immediate carries the handle. */
  lemma HandleRoundTrip(op: OpCode, h: TypeId)
    requires h <= MaxUint56
    ensures MkIns(op, 0, h) == Success(Word(op, h))
    ensures Op(Word(op, h)) == op && Vt(Word(op, h)) == h
  {
    BitOrZero(h);
  }

  /** `pin` keeps the opcode byte and replaces the operand field by `pc`. */
  lemma PinnedFields(w: Instr, pc: nat)
    requires pc < TWO56
    ensures Pinned(w, pc) == Word(Op(w), pc)
    ensures Op(Pinned(w, pc)) == Op(w) && Vt(Pinned(w, pc)) == pc
    ensures pc <= MaxInt56 ==> Immediate(Pinned(w, pc)) == pc
  {
  }

  /** How `Instr.Disassemble` shows an operand; the text formatting itself is
      not modelled. */
  datatype Operand =
    | Hex(digits: nat, v: int)  // byte, word, long: fixed-width hexadecimal
    | Dec(v: int)               // size, copy, seek, list_next
    | TypeName(h: TypeId)       // defer, map_begin
    | Label(n: int)             // goto, if_nil, if_true: rendered as L_n
    | Bare                      // every other opcode: its name alone

  datatype Text = Text(op: OpCode, operand: Operand)

  /** `Instr.Disassemble`: the opcode and its operand in the form its class
      calls for. */
  function Render(w: Instr): (t: Text)
    ensures t.op == Op(w)
    ensures t.operand.Label? <==> Op(w) in {OpGoto, OpIfNil, OpIfTrue}
    ensures t.operand.Label? ==> t.operand.n == Immediate(w)
    ensures t.operand.TypeName? <==> Op(w) in {OpDefer, OpMapBegin}
    ensures t.operand.TypeName? ==> t.operand.h == Vt(w)
    ensures t.operand.Hex? <==> Op(w) in {OpByte, OpWord, OpLong}
    ensures t.operand.Hex? ==> t.operand.v == Immediate(w)
    ensures t.operand.Hex? ==> t.operand.digits == (if Op(w) == OpByte then 2 else if Op(w) == OpWord then 4 else 8)
    ensures t.operand.Dec? <==> Op(w) in {OpSize, OpCopy, OpSeek, OpListNext}
    ensures t.operand.Dec? ==> t.operand.v == Immediate(w)
  {
    var op := Op(w);
    var operand :=
      if op == OpByte then Hex(2, Immediate(w))
      else if op == OpWord then Hex(4, Immediate(w))
      else if op == OpLong then Hex(8, Immediate(w))
      else if op in {OpSize, OpCopy, OpSeek, OpListNext} then Dec(Immediate(w))
      else if op in {OpDefer, OpMapBegin} then TypeName(Vt(w))
      else if op in {OpGoto, OpIfNil, OpIfTrue} then Label(Immediate(w))
      else Bare;
    Text(op, operand)
  }
}
