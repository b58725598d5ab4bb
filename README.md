# frugal encoder compiler, modelled in Dafny

frugal encodes Go values in the Thrift binary protocol by running a small
bytecode program. Each struct type gets one such program. This project models the
compiler that builds those programs, `internal/binary/encoder/compiler.go`. It has three
parts.

- **The instruction word** (module `Words`, `words.dfy`). An `Instr` is a
  64-bit word. Its low byte is the opcode. Its upper 56 bits hold either a
  signed immediate or a type handle. `mkins`, `mkiv64` and `mktype` build the
  word and panic when an operand does not fit. `Op`, `Iv` and `Vt` read it
  back. `Instr.Disassemble` is modelled as `Render`, which keeps the operand's
  class and value but not its text formatting.
- **The program** (module `Programs`, `program.dfy`). `Program` is a class
  whose `code` field is the instruction slice. `Ins` appends under the
  length cap. `Add`, `I64` and `Rtt` build the word and then append it. `Pin`
  back-patches a jump operand in place. `Tag` is the nesting guard.
  `Disassemble` runs the prescan loop over a label table (an `array`), then
  the listing loop.
- **The code generator.** Module `CodeGen` (`codegen.dfy`) states each
  `compile*` step as a function over a state: the program so far and the set
  of types being expanded. A step returns the new state and how it ended.
  Module `Encoder` (`compiler.dfy`) holds the `Compiler` class. Its methods
  append to a `Program` and update the `active` set in place. Each method is
  proved to leave exactly the state and status that its `CodeGen` function
  computes. `Compile` runs the root at depth 0 and recovers panics the way
  `rescue` does.

Go panics are values here. `Status` is `Done`, `Panicked(fault)` or
`Errored(err)`:
- a string panic is `Panicked` with one `Fault` per message;
- an `error` value is `Errored`.

`rescue` converts an `Errored` into the returned error. It re-raises a
`Panicked`, which `Compiled.Aborted` represents. A failed step returns the
program and the active set as the panic left them. The active set therefore
keeps the marks of the types whose expansion the panic interrupted, as in the
source; `Shapes.ActiveLeak` proves this.

The generator never calls `mkins` with both an immediate and a type.
`Programs.Emit` is therefore written as a closed form for that case, and
`Programs.EmitSpec` proves that it appends exactly the word `mkins` builds.

Two modules prove what the generator guarantees:
- `Properties` (`properties.dfy`) proves invariants of every step by
  induction along the recursion. The program only grows. The active set is
  restored on normal return and otherwise only grows. The only `error` is a
  field-resolution error. Every jump operand stays inside the program.
- `Shapes` (`shapes.dfy`) proves the exact instruction sequences: scalars,
  `defer`, the pointer guard, the map and list headers and loops with their
  patched jumps, and the struct field headers and STOP byte.

`Encoder.CompileOutcome` combines these into what `Compile` promises its
caller.

The opcode values, the type kinds `T_binary` and `T_pointer`, `MaxStack` and
the branch table `_OpBranches` are defined in files that are not part of this
model. The opcodes are distinct bytes (`Words.OpSize` … `Words.OpIfTrue`).
The wire kinds carry their Thrift type ids. `maxStack` is a field of the
compiler. The branch table is a parameter of `Disassemble`.

## Model

| member | source | states |
|---|---|---|
| Words.Shl8 | internal/binary/encoder/compiler.go:37-38 | `x << 8` on a uint64 is a multiple of 256 and below 2^64 (the top byte falls off) |
| Words.Signed64 | internal/binary/encoder/compiler.go:65 | `int64(w)` lies in the int64 range and is congruent to `w` modulo 2^64 |
| Words.MkIv64 | internal/binary/encoder/compiler.go:43-49 | fails, with the integer-range panic, exactly when the immediate is below MinInt56 or above MaxInt56; otherwise its int64 reading is the immediate |
| Words.MkType | internal/binary/encoder/compiler.go:51-57 | fails, with the address-space panic, exactly when the handle exceeds MaxUint56; otherwise the word is the handle |
| Words.MkIns | internal/binary/encoder/compiler.go:35-41 | fails exactly when either operand is out of range, with the immediate checked first; otherwise the low byte of the word is the opcode |
| Words.Op | internal/binary/encoder/compiler.go:64 | definition: the low byte of the word, the opcode |
| Words.Iv | internal/binary/encoder/compiler.go:65 | definition, as written: the word read as an int64, divided by 256 with truncation toward zero (the as-written half of the finding below) |
| Words.Vt | internal/binary/encoder/compiler.go:66 | definition: the upper 56 bits of the word, read as a type handle |
| Words.Pinned | internal/binary/encoder/compiler.go:87 | definition: the word's opcode byte kept, with `pc` shifted into the operand field |
| Words.BitOrZero | internal/binary/encoder/compiler.go:37-38 | OR with a zero operand (the `nil` type, or the zero immediate) leaves the other operand unchanged |
| Words.ImmediateRoundTrip | internal/binary/encoder/compiler.go:35-49 | for every immediate in the signed 56-bit range, `mkins(op, iv, nil)` is the opcode with `iv mod 2^56` above it, and `Op` and the arithmetic-shift reading give back `op` and `iv` |
| Words.IvRoundTrip | internal/binary/encoder/compiler.go:64-65 | for `0 <= iv <= MaxInt56`, `mkins(op, iv, nil)` succeeds and `Op` and the as-written `Iv` give back `op` and `iv` |
| Words.IvNegativeOffByOne | internal/binary/encoder/compiler.go:65 | for a negative immediate under a nonzero opcode, the as-written `Iv` returns `iv + 1` |
| Words.IvAgreesOnNonNegative | internal/binary/encoder/compiler.go:65 | `Iv` equals the arithmetic-shift reading on every word whose int64 value is not negative |
| Words.HandleRoundTrip | internal/binary/encoder/compiler.go:51-57 | for a handle up to MaxUint56, `mkins(op, 0, p)` succeeds, and `Op` and `Vt` give back `op` and `p` |
| Words.PinnedFields | internal/binary/encoder/compiler.go:87 | patching a word keeps its opcode byte and makes its operand (as `Vt`, and as the immediate up to MaxInt56) equal to the program counter |
| Words.Render | internal/binary/encoder/compiler.go:68-84 | the listing shows the word's opcode; a hexadecimal operand of 2, 4 or 8 digits appears exactly for `byte`, `word` and `long`, a decimal one exactly for `size`, `copy`, `seek` and `list_next`, a label exactly for `goto`, `if_nil` and `if_true` (each of them the word's immediate), and the type handle exactly for `defer` and `map_begin` |
| Programs.Append | internal/binary/encoder/compiler.go:99-105 | definition of `ins` on a value: the word appended, or the program unchanged with "program too long" once it holds MaxUint56 words |
| Programs.Emit | internal/binary/encoder/compiler.go:95-97 | definition of `add`, `i64` and `rtt` on a value: the integer-range or address-space panic when the operand does not fit in 56 bits, otherwise `Append` of the opcode with the operand above it |
| Programs.Patched | internal/binary/encoder/compiler.go:87 | definition of `pin` on a value: word `i` rewritten by `Pinned` with the program's length, or the runtime index error when `i` is outside the program |
| Programs.EmitSpec | internal/binary/encoder/compiler.go:95-105 | `add`, `i64` and `rtt` append exactly the word `mkins` builds; they fail, leaving the program unchanged, exactly when `mkins` panics or the program already holds MaxUint56 words |
| Programs.Program.constructor | internal/binary/encoder/compiler.go:271 | a new program is empty |
| Programs.Program.Pc | internal/binary/encoder/compiler.go:86 | definition: the number of words the program holds, the position the next word takes |
| Programs.Program.Pin | internal/binary/encoder/compiler.go:86-87 | `pin(i)` keeps the opcode of word `i`, sets its operand to the current length, and changes neither the length nor any other word; an index outside the program is the runtime error |
| Programs.Program.Tag | internal/binary/encoder/compiler.go:89-93 | the guard passes exactly when `n < MaxStack`, and otherwise panics with "type nesting too deep" |
| Programs.Program.Ins | internal/binary/encoder/compiler.go:99-105 | succeeds exactly when the program holds fewer than MaxUint56 words, and then appends exactly that word; otherwise panics with "program too long" and leaves the program unchanged |
| Programs.Program.Add | internal/binary/encoder/compiler.go:95 | appends the operand-free word of `op` under the length cap |
| Programs.Program.I64 | internal/binary/encoder/compiler.go:96 | appends the word of `op` with immediate `iv`, or panics as `mkins` or `ins` does |
| Programs.Program.Rtt | internal/binary/encoder/compiler.go:97 | appends the word of `op` with type handle `h`, or panics as `mkins` or `ins` does |
| Programs.Program.Disassemble | internal/binary/encoder/compiler.go:111-139 | fails exactly when some branch-class operand lies outside `[0, len]`; otherwise line `i` carries the `L_i:` label exactly when some branch targets `i`, an `L_len:` line follows exactly when some branch targets `len`, and the listing ends with `end` |
| Programs.RenderedLabelsDefined | internal/binary/encoder/compiler.go:111-139 | every `L_n` operand that a listed jump shows names a label the listing defines |
| CodeGen.Put | internal/binary/encoder/compiler.go:95-97 | definition: one `add`, `i64` or `rtt` on the generator state, the active set unchanged |
| CodeGen.Pin | internal/binary/encoder/compiler.go:87 | definition: one `pin` on the generator state, the active set unchanged |
| CodeGen.GenOne | internal/binary/encoder/compiler.go:155-163 | definition of `compileOne`: a pointer goes to `GenPtr`, a type not being expanded to `GenSet`, any other type becomes `defer` with its handle |
| CodeGen.GenSet | internal/binary/encoder/compiler.go:165-169 | definition of `compileSet`: the type is added to the active set, `GenRec` runs, and the type is removed only when `GenRec` ends normally |
| CodeGen.Fixed | internal/binary/encoder/compiler.go:173-177 | definition: `size n` then `copy n`, the code of a fixed-width scalar |
| CodeGen.GenRec | internal/binary/encoder/compiler.go:171-187 | definition of `compileRec`: `Fixed` with width 1, 1, 2, 4, 8, 8 for bool, i8, i16, i32, i64, double; `vstr` for string and binary; struct, map, set and list to their generators; the "unreachable" panic for any other kind |
| CodeGen.GenPtr | internal/binary/encoder/compiler.go:189-194 | definition of `compilePtr`: `deref`, the referent at the same depth, then the `pin` of the `deref` |
| CodeGen.OpenLoop | internal/binary/encoder/compiler.go:202-205 | definition: the end test, then `if_true`, the head of a container loop |
| CodeGen.CloseLoop | internal/binary/encoder/compiler.go:210-212 | definition: `goto i`, the `pin` of the `if_true` at `j`, then the closing opcode |
| CodeGen.GenMap | internal/binary/encoder/compiler.go:196-201 | definition of the head of `compileMap`: the depth guard, `size 6`, the key's and value's tags, `map_begin` with the map type, then `GenMapLoop` |
| CodeGen.GenMapLoop | internal/binary/encoder/compiler.go:202-212 | definition of the entry loop of `compileMap`: `OpenLoop` with `map_is_end`, `GenMapEntry`, then `CloseLoop` with `map_end` |
| CodeGen.GenMapEntry | internal/binary/encoder/compiler.go:206-209 | definition: `map_key`, the key one level deeper, `map_value`, the value one level deeper |
| CodeGen.GenSetList | internal/binary/encoder/compiler.go:215-219 | definition of the head of `compileSetList`: the depth guard, `size 5`, the element's tag, `list_begin`, then `GenListLoop` |
| CodeGen.GenListLoop | internal/binary/encoder/compiler.go:220-227 | definition of the element loop: `OpenLoop` with `list_is_end`, the element one level deeper, `list_next`, then `CloseLoop` with `list_end` |
| CodeGen.FieldHeader | internal/binary/encoder/compiler.go:248-258 | definition of one field header: `size 3`, for every field after the first a `seek` by the signed offset delta, the field's tag, its id |
| CodeGen.OffsetDelta | internal/binary/encoder/compiler.go:256 | definition: `int64(fv.F - fvs[i].F)`, the difference of two uintptr offsets taken modulo 2^64 and read as an int64 |
| CodeGen.GenStruct | internal/binary/encoder/compiler.go:231-251 | definition of `compileStruct` up to the first field: the resolution error, the lone STOP byte of an empty struct, the depth guard, then the first field's header and code |
| CodeGen.GenFields | internal/binary/encoder/compiler.go:254-264 | definition of the loop over the remaining fields, each header and code one level deeper, then the STOP byte |
| Encoder.Rescue | internal/binary/encoder/compiler.go:145-153 | a normal return gives the program; an `error` panic becomes the returned error together with the program as it was left; a string panic propagates |
| Encoder.Compiler.constructor | internal/binary/encoder/compiler.go:141-143 | a new compiler expands no type |
| Encoder.Compiler.CompileOne | internal/binary/encoder/compiler.go:155-163 | leaves exactly the program, active set and status of `GenOne`: a pointer is guarded, a type being expanded is deferred, any other type is expanded |
| Encoder.Compiler.CompileSet | internal/binary/encoder/compiler.go:165-169 | leaves exactly the state of `GenSet`: the type is marked while its body is compiled and unmarked only on normal return |
| Encoder.Compiler.CompileRec | internal/binary/encoder/compiler.go:171-187 | leaves exactly the state of `GenRec`, which has one case per kind and panics as unreachable on any other kind |
| Encoder.Compiler.CompilePtr | internal/binary/encoder/compiler.go:189-194 | leaves exactly the state of `GenPtr`: `deref`, the referent at the same depth, and the `pin` of the `deref` |
| Encoder.Compiler.OpenLoop | internal/binary/encoder/compiler.go:202-205 | leaves exactly the state of `CodeGen.OpenLoop`, and `j` is the position of the `if_true` |
| Encoder.Compiler.CloseLoop | internal/binary/encoder/compiler.go:210-212 | leaves exactly the state of `CodeGen.CloseLoop`: the `goto`, the `pin` of the `if_true`, and the closing opcode |
| Encoder.Compiler.CompileMap | internal/binary/encoder/compiler.go:196-201 | leaves exactly the state of `GenMap`: the guard, the header, then the entry loop |
| Encoder.Compiler.CompileMapLoop | internal/binary/encoder/compiler.go:202-212 | leaves exactly the state of `GenMapLoop` |
| Encoder.Compiler.CompileMapEntry | internal/binary/encoder/compiler.go:206-209 | leaves exactly the state of `GenMapEntry`: key and value each one level deeper |
| Encoder.Compiler.CompileSetList | internal/binary/encoder/compiler.go:215-219 | leaves exactly the state of `GenSetList`: the guard, the header, then the element loop |
| Encoder.Compiler.CompileListLoop | internal/binary/encoder/compiler.go:220-228 | leaves exactly the state of `GenListLoop` |
| Encoder.Compiler.CompileStruct | internal/binary/encoder/compiler.go:231-264 | leaves exactly the state of `GenStruct`; the field loop keeps the invariant that the remaining fields compile to the same result as `GenFields` from field `i` |
| Encoder.Compiler.Compile | internal/binary/encoder/compiler.go:270-281 | returns `rescue` applied to compiling the root at depth 0 into an empty program, and leaves the active set that compilation leaves |
| Encoder.CompileOutcome | internal/binary/encoder/compiler.go:270-281 | the only error `Compile` returns is a field-resolution error; after a success the active set is as before, and it never loses a member; every jump operand of a returned program lies inside it, so disassembly with the jump opcodes as branch table cannot fail |
| Properties.PutGrows | internal/binary/encoder/compiler.go:95-105 | one emitted word keeps the program's prefix, the length cap and the active set, and keeps jump operands inside the program when the new jump targets the program so far |
| Properties.PatchedAbove | internal/binary/encoder/compiler.go:87 | patching a word past a prefix keeps the prefix and the length, and keeps every jump operand inside the program |
| Properties.OpenLoopGrows | internal/binary/encoder/compiler.go:202-205 | a loop head keeps the step invariant and adds exactly two words |
| Properties.CloseLoopGrows | internal/binary/encoder/compiler.go:210-212 | closing a loop whose head the loop itself emitted keeps the step invariant (the `goto` targets the head, the patched `if_true` targets the end) |
| Properties.LoopTailGrows | internal/binary/encoder/compiler.go:225-228 | `list_next` followed by the loop's end keeps the step invariant |
| Properties.GenOneGrows | internal/binary/encoder/compiler.go:155-163 | compiling any type keeps the step invariant: the program only grows, the active set is restored on normal return and only grows otherwise, an `error` is a field-resolution error, jump operands stay inside the program |
| Properties.GenSetGrows | internal/binary/encoder/compiler.go:165-169 | the same for `compileSet`; the mark is removed on normal return |
| Properties.GenRecGrows | internal/binary/encoder/compiler.go:171-187 | the same for every kind of `compileRec` |
| Properties.FixedGrows | internal/binary/encoder/compiler.go:174-178 | the same for `size n; copy n` |
| Properties.GenPtrGrows | internal/binary/encoder/compiler.go:189-194 | the same for `compilePtr`; the patched `deref` targets the program's end |
| Properties.GenMapGrows | internal/binary/encoder/compiler.go:196-201 | the same for `compileMap` |
| Properties.GenMapLoopGrows | internal/binary/encoder/compiler.go:202-212 | the same for the entry loop |
| Properties.GenMapEntryGrows | internal/binary/encoder/compiler.go:206-209 | the same for one map entry |
| Properties.GenSetListGrows | internal/binary/encoder/compiler.go:215-219 | the same for `compileSetList` |
| Properties.GenListLoopGrows | internal/binary/encoder/compiler.go:220-228 | the same for the element loop |
| Properties.FieldHeaderGrows | internal/binary/encoder/compiler.go:248-258 | the same for one field header |
| Properties.GenStructGrows | internal/binary/encoder/compiler.go:231-264 | the same for `compileStruct`; its `error` is the one field resolution reported |
| Properties.GenFieldsGrows | internal/binary/encoder/compiler.go:254-263 | the same for the field loop and STOP |
| Shapes.PutWord | internal/binary/encoder/compiler.go:96 | `i64` with an immediate in the signed 56-bit range appends its word unless the program is full |
| Shapes.PutNat | internal/binary/encoder/compiler.go:95-96 | `add` and `i64` with a non-negative immediate append the word whose operand field is the immediate |
| Shapes.PutHandle | internal/binary/encoder/compiler.go:97 | `rtt` with a handle up to MaxUint56 appends the word carrying the handle unless the program is full |
| Shapes.GenOneExtends | internal/binary/encoder/compiler.go:155-163 | a type compiled normally only appends, and leaves the active set as it was |
| Shapes.OpenLoopCode | internal/binary/encoder/compiler.go:202-205 | a loop head appends exactly the end test and `if_true` |
| Shapes.CloseLoopCode | internal/binary/encoder/compiler.go:210-212 | closing a loop appends `goto i` and the closing opcode, and patches the `if_true` at `i + 1` to the closing opcode's position |
| Shapes.LoopTailCode | internal/binary/encoder/compiler.go:225-228 | `list_next`, `goto i`, the patch of `i + 1` and `list_end` as one sequence |
| Shapes.ListLoopHead | internal/binary/encoder/compiler.go:220-228 | the element loop that compiles normally is its head, the element one level deeper, `list_next`, and the loop's end |
| Shapes.ListLoopCode | internal/binary/encoder/compiler.go:220-228 | the element loop's code is the element's code followed by `list_next`, `goto i` and `list_end`, with `if_true` at `i + 1` pointing at `list_end` |
| Shapes.ListLoopShape | internal/binary/encoder/compiler.go:220-228 | word by word: `list_is_end` at `i`, `if_true` at `i + 1` with operand the position of `list_end`, the element's code, `list_next`, `goto` with operand `i`, and `list_end` last; active set unchanged |
| Shapes.SetListHeader | internal/binary/encoder/compiler.go:215-219 | a list or set that compiles passed the nesting guard and starts with `size 5`, the element's type tag and `list_begin` |
| Shapes.MapHeader | internal/binary/encoder/compiler.go:196-201 | a map that compiles passed the nesting guard and starts with `size 6`, the key's and the value's type tags and `map_begin` carrying the map's type |
| Shapes.MapLoopHead | internal/binary/encoder/compiler.go:202-212 | the entry loop that compiles normally is its head, one entry, and the loop's end |
| Shapes.MapLoopCode | internal/binary/encoder/compiler.go:202-212 | the entry loop's code is the entry's code followed by `goto i` and `map_end`, with `if_true` at `i + 1` pointing at `map_end` |
| Shapes.MapLoopShape | internal/binary/encoder/compiler.go:202-212 | word by word: `map_is_end` at `i`, `if_true` at `i + 1` with operand the position of `map_end`, the entry's code, `goto` with operand `i`, and `map_end` last; active set unchanged |
| Shapes.MapEntryShape | internal/binary/encoder/compiler.go:206-209 | an entry is `map_key`, the key's code one level deeper, then `map_value` and the value's code one level deeper |
| Shapes.PointerShape | internal/binary/encoder/compiler.go:189-194 | a pointer compiles at the same depth to `deref`, whose operand is the position right after the referent's code, followed by that code; active set unchanged |
| Shapes.DeferShape | internal/binary/encoder/compiler.go:155-162 | a type already being expanded appends exactly one `defer` carrying its identity, unless the identity exceeds 56 bits or the program is full |
| Shapes.ScalarEmission | internal/binary/encoder/compiler.go:171-180 | a scalar appends exactly `size n, copy n` (n = 1, 1, 2, 4, 8, 8 for bool, i8, i16, i32, i64, double) or `vstr` (string, binary), and fails only with "program too long" when that does not fit |
| Shapes.FixedCode | internal/binary/encoder/compiler.go:174-178 | `size n; copy n` appends both words, or stops with the program full after `size` or before it |
| Shapes.UnknownKind | internal/binary/encoder/compiler.go:185 | an unknown kind panics as unreachable without emitting, and stays marked as being expanded |
| Shapes.FieldHeaderCode | internal/binary/encoder/compiler.go:248-258 | a field header appends `size 3`, for every field after the first a `seek` by the offset from the previous field, `byte` with the type tag and `word` with the id; an emitted `seek` delta fits in 56 bits |
| Shapes.FieldTail | internal/binary/encoder/compiler.go:257-258 | the `byte` type tag and `word` id that end a field header |
| Shapes.FieldStep | internal/binary/encoder/compiler.go:254-260 | each field after the first is its header, then its code one level deeper, then the remaining fields |
| Shapes.FieldsEndWithStop | internal/binary/encoder/compiler.go:254-263 | the field loop's last word is the STOP byte `byte 0` |
| Shapes.StructGuards | internal/binary/encoder/compiler.go:236-247 | a field-resolution error is the failure and leaves the state unchanged; an empty struct emits only `byte 0`, at any depth; a non-empty struct past the nesting budget panics with nothing emitted |
| Shapes.StructShape | internal/binary/encoder/compiler.go:231-264 | a struct that compiles was resolved; its last word is `byte 0`; a non-empty one passed the guard and is the first field's header and code, then the other fields |
| Shapes.ActiveLeak | internal/binary/encoder/compiler.go:165-168 | a type whose expansion does not return normally (a string panic, or the field-resolution `error` that `Compile` returns) stays in the active set |

## Left out

- Text formatting: `Words.Render` gives each instruction's opcode and operand with its class (hex width, decimal, type, label). It does not give the `fmt.Sprintf` padding, the hex digits, the opcode names or the `strings.Join` of the listing. The listing is a sequence of rows.
- Operand reading in the listing: `Words.Render` and `Programs.Program.Disassemble` read operands by arithmetic shift (`Words.Immediate`), which is the corrected accessor of the finding below. The source uses `Iv`. The two agree on every non-negative operand (`Words.IvAgreesOnNonNegative`), which includes every jump operand the compiler emits into a program of at most MaxInt56 words (`Encoder.CompileOutcome`).
- Encoder.CompileOutcome: the bound on jump operands is stated only for programs of at most MaxInt56 words. A `pin` at a larger length writes an operand that reads back negative, and the length cap only stops at MaxUint56.
- `Optimize`: it is defined in a file that is not part of this model. `Compile` returns the program unoptimised.
- Object pools (`newProgram`, `freeProgram`, `newCompiler`, `freeCompiler`), `Program.Free`, `Compiler.Free` and `vtp.Free` are resource management only. The constructors stand for `newProgram` and `newCompiler`.
- `defs.ParseType` and `defs.ResolveFields` are type reflection. The parsed descriptor is the datatype `CodeGen.Ty`. Field resolution is the table `resolve` of the compiler.
- `reflect.Type`, `rt.UnpackType`, `gettype` and the `unsafe.Pointer` casts: types are natural-number handles, and `Vt` returns the handle.
- The values of the opcodes, of `T_binary` and `T_pointer`, of `MaxStack` and of `_OpBranches` are defined in files that are not part of this model. They are distinct bytes, a compiler field and a parameter.
- Panic messages are `Fault` constructors, not strings. The runtime error of `pin` on an index outside the program is `Errored` with a fixed message. The generator never raises it: it pins only words inside the program, and such a `pin` ends normally (`Properties.PatchedAbove`).
- The `Compiler` map is not safe for concurrent use, and concurrency is not modelled.
- `internal/rt/exports.go` (runtime bindings) and `internal/atm/regs.go` (register names) are not part of this model: they hold foreign calls and constants only.
- Go's `int` for depths and lengths is unbounded here. The program length is still capped at MaxUint56 words, as `ins` does.

## Findings

| source | as written | input that shows it | evidently intended | confidence | as-written member | corrected member |
|---|---|---|---|---|---|---|
| internal/binary/encoder/compiler.go:65 | `Iv` is `int64(self) / 256` with Go's division, which truncates toward zero | `mkins(op, -1, nil)` with a nonzero opcode `op`: the word's int64 value is `op - 256`, and `Iv` reads `0` instead of `-1` (any negative `seek` delta is read one too large) | the immediate back, i.e. the arithmetic shift `int64(self) >> 8`, the inverse of `mkins` on the whole signed 56-bit range | not executed | Words.IvNegativeOffByOne | Words.ImmediateRoundTrip |
