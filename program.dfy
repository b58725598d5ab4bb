/** The encoder program: an append-only buffer of instruction words with
    in-place back-patching of jump operands, and its disassembly listing. */
module Programs {
  import opened Faults
  import opened Words

  /** A program and how the step that produced it ended. */
  datatype After = After(code: seq<Instr>, status: Status)

  /** `ins` on a value: append one word, unless the program already holds
      MaxUint56 words; a panic leaves the program as it was. */
  function Append(code: seq<Instr>, w: Instr): After {
    if |code| >= MaxUint56 then After(code, Panicked(TooLong)) else After(code + [w], Done)
  }

  /** `add`, `i64` and `rtt`, none of which passes both an immediate and a
      type: build the word, which panics when the operand does not fit in
      56 bits, then append it. EmitSpec shows that this is the word `mkins`
      builds. */
  function Emit(code: seq<Instr>, op: OpCode, iv: int, h: TypeId): After
    requires iv == 0 || h == 0
  {
    if iv < MinInt56 || iv > MaxInt56 then After(code, Panicked(IntRange))
    else if h > MaxUint56 then After(code, Panicked(AddressRange))
    else Append(code, Word(op, if h == 0 then iv % TWO56 else h))
  }

  /** The message of Go's runtime error for an index outside a slice. */
  const IndexError: string := "index out of range"

  /** `pin` on a value: the word at `i` keeps its opcode and takes the
      program's length as operand. Indexing outside the program is Go's
      runtime error, which is an `error` value. */
  function Patched(code: seq<Instr>, i: nat): After {
    if i < |code| then After(code[i := Pinned(code[i], |code|)], Done)
    else After(code, Errored(IndexError))
  }

  /** What one emitting step does: it fails, leaving the program as it was,
      exactly when the word cannot be built or the program is full, and
      otherwise appends the word. */
  lemma EmitSpec(code: seq<Instr>, op: OpCode, iv: int, h: TypeId)
    requires iv == 0 || h == 0
    ensures Emit(code, op, iv, h) ==
      match MkIns(op, iv, h)
      case Failure(f) => After(code, Panicked(f))
      case Success(w) => Append(code, w)
    ensures Emit(code, op, iv, h).status.Done? <==> MkIns(op, iv, h).Success? && |code| < MaxUint56
    ensures MkIns(op, iv, h).Failure? ==> Emit(code, op, iv, h) == After(code, Panicked(MkIns(op, iv, h).fault))
    ensures MkIns(op, iv, h).Success? && |code| >= MaxUint56 ==> Emit(code, op, iv, h) == After(code, Panicked(TooLong))
    ensures Emit(code, op, iv, h).status.Done? ==> Emit(code, op, iv, h).code == code + [MkIns(op, iv, h).value]
  {
    if MinInt56 <= iv <= MaxInt56 && h <= MaxUint56 {
      if h == 0 {
        ImmediateRoundTrip(op, iv);
      } else {
        HandleRoundTrip(op, h);
      }
    }
  }

  /** Some branch-class instruction among the first `k` has operand `n`. */
  ghost predicate Targeted(code: seq<Instr>, branches: set<OpCode>, k: nat, n: int)
    requires k <= |code|
  {
    exists j :: 0 <= j < k && Op(code[j]) in branches && Immediate(code[j]) == n
  }

  /** Every branch-class operand indexes the label table of `Disassemble`. */
  ghost predicate TargetsInRange(code: seq<Instr>, branches: set<OpCode>) {
    forall j :: 0 <= j < |code| && Op(code[j]) in branches ==> 0 <= Immediate(code[j]) <= |code|
  }

  /** One line of the listing: an instruction (with an `L_pos:` label when it
      is a branch target), the trailing `L_len:` label, or the final `end`. */
  datatype Row = Line(pos: nat, labelled: bool, text: Text) | EndLabel(n: nat) | EndMark

  /** The listing of `code`: one line per instruction, labelled exactly when
      a branch targets it, then `L_len:` exactly when a branch targets the end,
      then `end`. */
  ghost predicate IsListing(rows: seq<Row>, code: seq<Instr>, branches: set<OpCode>) {
    var n := |code|;
    var tail := if Targeted(code, branches, n, n) then [EndLabel(n), EndMark] else [EndMark];
    && |rows| == n + |tail|
    && rows[n..] == tail
    && forall i :: 0 <= i < n ==> rows[i] == Line(i, Targeted(code, branches, n, i), Render(code[i]))
  }

  class Program {
    var code: seq<Instr>

    /** `newProgram`: an empty program. */
    constructor ()
      ensures code == []
    {
      code := [];
    }

    /** `pc`: the position the next instruction will take. */
    function Pc(): nat
      reads this
    {
      |code|
    }

    /** `pin`: point instruction `i` at the current end of the program. */
    method Pin(i: nat) returns (o: Status)
      modifies this
      ensures After(code, o) == Patched(old(code), i)
      ensures o.Done? <==> i < |old(code)|
      ensures o.Done? ==> |code| == |old(code)| && Op(code[i]) == Op(old(code)[i])
      ensures o.Done? && |code| < TWO56 ==> Vt(code[i]) == |code|
      ensures o.Done? ==> forall k :: 0 <= k < |code| && k != i ==> code[k] == old(code)[k]
    {
      if i >= |code| {
        return Errored(IndexError);
      }
      if |code| < TWO56 {
        PinnedFields(code[i], |code|);
      }
      code := code[i := Pinned(code[i], |code|)];
      o := Done;
    }

    /** `tag`: the nesting guard; `maxStack` is the engine's stack budget. */
    method Tag(n: nat, maxStack: nat) returns (o: Status)
      ensures o.Done? <==> n < maxStack
      ensures !o.Done? ==> o == Panicked(TooDeep)
    {
      if n >= maxStack {
        return Panicked(TooDeep);
      }
      return Done;
    }

    /** `ins`: append one word under the length cap. */
    method Ins(w: Instr) returns (o: Status)
      modifies this
      ensures After(code, o) == Append(old(code), w)
      ensures o.Done? <==> |old(code)| < MaxUint56
      ensures o.Done? ==> code == old(code) + [w]
      ensures !o.Done? ==> o == Panicked(TooLong) && code == old(code)
    {
      if |code| >= MaxUint56 {
        return Panicked(TooLong);
      }
      code := code + [w];
      return Done;
    }

    /** `add`: an instruction without operand. */
    method Add(op: OpCode) returns (o: Status)
      modifies this
      ensures After(code, o) == Emit(old(code), op, 0, 0)
    {
      // mkins(op, 0, nil) cannot panic: both operands are zero
      EmitSpec(code, op, 0, 0);
      o := Ins(MkIns(op, 0, 0).value);
    }

    /** `i64`: an instruction with an immediate. */
    method I64(op: OpCode, iv: int) returns (o: Status)
      modifies this
      ensures After(code, o) == Emit(old(code), op, iv, 0)
    {
      EmitSpec(code, op, iv, 0);
      var w := MkIns(op, iv, 0);
      if w.Failure? {
        return Panicked(w.fault);
      }
      o := Ins(w.value);
    }

    /** `rtt`: an instruction carrying a type handle. */
    method Rtt(op: OpCode, h: TypeId) returns (o: Status)
      modifies this
      ensures After(code, o) == Emit(old(code), op, 0, h)
    {
      EmitSpec(code, op, 0, h);
      var w := MkIns(op, 0, h);
      if w.Failure? {
        return Panicked(w.fault);
      }
      o := Ins(w.value);
    }

    /** `Program.Disassemble`: a prescan marks every branch target in a table
        of `|code| + 1` flags (an operand outside it is Go's index panic),
        then one line per instruction, the end label if needed, and `end`.
        `branches` stands for the engine's table of branch opcodes. */
    method Disassemble(branches: set<OpCode>) returns (r: Result<seq<Row>>)
      ensures r.Failure? <==> !TargetsInRange(code, branches)
      ensures r.Failure? ==> r.fault == IndexRange
      ensures r.Success? ==> IsListing(r.value, code, branches)
    {
      var nb := |code|;
      var tab := new bool[nb + 1](_ => false);
      var k := 0;
      while k < nb
        invariant 0 <= k <= nb
        invariant forall j :: 0 <= j < k && Op(code[j]) in branches ==> 0 <= Immediate(code[j]) <= nb
        invariant forall n :: 0 <= n <= nb ==> (tab[n] <==> Targeted(code, branches, k, n))
      {
        var w := code[k];
        if Op(w) in branches {
          var t := Immediate(w);
          if t < 0 || t > nb {
            return Failure(IndexRange);
          }
          tab[t] := true;
        }
        k := k + 1;
      }
      var ret: seq<Row> := [];
      var i := 0;
      while i < nb
        invariant 0 <= i <= nb
        invariant |ret| == i
        invariant forall j :: 0 <= j < i ==> ret[j] == Line(j, Targeted(code, branches, nb, j), Render(code[j]))
      {
        ret := ret + [Line(i, tab[i], Render(code[i]))];
        i := i + 1;
      }
      if tab[nb] {
        ret := ret + [EndLabel(nb)];
      }
      r := Success(ret + [EndMark]);
    }
  }

  /** Every `L_n` operand that a rendered jump shows names a label that the
      listing defines, when the branch table holds the jump opcodes. */
  lemma RenderedLabelsDefined(rows: seq<Row>, code: seq<Instr>, branches: set<OpCode>, i: nat)
    requires {OpGoto, OpIfNil, OpIfTrue} <= branches
    requires TargetsInRange(code, branches) && IsListing(rows, code, branches)
    requires i < |code| && rows[i].text.operand.Label?
    ensures 0 <= rows[i].text.operand.n <= |code|
    ensures rows[i].text.operand.n < |code| ==> rows[rows[i].text.operand.n].labelled
    ensures rows[i].text.operand.n == |code| ==> rows[|code|] == EndLabel(|code|)
  {
    var n := rows[i].text.operand.n;
    assert Op(code[i]) in branches && Immediate(code[i]) == n;
    assert Targeted(code, branches, |code|, n);
    if n == |code| {
      assert rows[|code|..][0] == EndLabel(|code|);
    }
  }
}
