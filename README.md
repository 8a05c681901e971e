# jeff program format: a Dafny model of its builder API and zero-copy reader

jeff is a program format for quantum programs. A module holds functions.
A function is either a definition, whose body is a dataflow region with a
per-function value table, or a declaration, which has only a type signature.
A region holds operations. An operation is a quantum gate, a non-unitary
qubit operation, or a structured-control-flow operation (switch, for,
while, do-while) that nests further regions. Strings are interned in one
module-level string table.

This project models two implementations of the format.

**The Python builder API** (`impl/py/src/jeff`) is modelled imperatively,
one Dafny class per Python class whose fields change:
- `PyValue.ValueTable`, `PyStringTable.StringTable`, `PyLazy.LazyUpdate` and `PyGate.QubitGate`;
- `PyIr.Region`, `PyIr.Scf`, `PyIr.JeffOp`, `PyIr.Function` and `PyIr.Module`.

Python dicts-plus-length become a `map<int, T>` with a `len` field, and a
cached attribute that may still be unread becomes an `Option`. The
encoded buffer an object was read from is an abstract reader record.
Python exceptions are the `PyErrors.PyError` values of a `Result`. The
catalogues are pure functions: types and their tags, gate names and
arities, Pauli names, operation kinds and the non-unitary operations. The
builder functions of the package root (`PyBuilders`) are methods: they
check their arguments and create new ops, and `switch_case` also parents
the regions it is given to the new switch.

**The Rust reader** (`impl/rs/src`) is modelled as pure functions over the
capnp message, given as `RsMessage` records. Lists are sequences and
references are the indices the encoding stores. Every accessor is a
bounds-checked lookup that returns `Result`, `Option`, or has a
precondition where the Rust code panics. The Rust `u32` narrowing casts are
written out in `MachineInts`.

The classes `Region`, `Scf`, `JeffOp`, `Function` and `Module` refer to one
another, so they share the module `PyIr`.

The breadth-first walk `subregions_bfs` follows object references and could
revisit a cycle, so it takes a `fuel` bound on the number of regions it
yields.

## Model

| member | source | states |
|---|---|---|
| RsLib.Direction.Discriminant | impl/rs/src/lib.rs:44-51 | `Incoming` has discriminant 0 and `Outgoing` 1 |
| RsLib.Direction.Reverse | impl/rs/src/lib.rs:57-64 | the reverse of a direction is the other direction, never itself |
| RsLib.ReverseInvolutive | impl/rs/src/lib.rs:59-64 | reversing twice gives the direction back |
| RsLib.BothCoversDirections | impl/rs/src/lib.rs:44-55 | `BOTH` holds both directions once each: the default `Incoming` first, then its reverse |
| RsJeff.Jeff.Module | impl/rs/src/jeff.rs:94-98 | the module view reads the program's root message |
| RsJeff.CheckVersion | impl/rs/src/jeff.rs:85-91 | passes exactly when the stored version is `VERSION`; otherwise `InvalidVersion` carrying the stored version |
| RsJeff.Load | impl/rs/src/jeff.rs:45-80 | a decoding error is returned unchanged; a decoded program is handed out exactly when its version is the current one, and otherwise `InvalidVersion` |
| RsJeff.LoadedPassesCheck | impl/rs/src/jeff.rs:55-59 | every program `read`/`read_slice` returns passes `check_version` |
| RsJeff.VersionIsSchemaVersion | impl/rs/src/jeff.rs:39 | `Jeff::VERSION` is `SCHEMA_VERSION`, which is 0 |
| RsTypes.FloatPrecision.Bits | impl/rs/src/types.rs:148-154 | `Float32` has 32 bits and `Float64` 64 |
| RsTypes.AsCapnp | impl/rs/src/types.rs:140-146 | `from_capnp(as_capnp(p)) == p` |
| RsTypes.FromCapnp | impl/rs/src/types.rs:132-138 | the schema's `Float32` and only it maps to `Float32` |
| RsTypes.BitsInjective | impl/rs/src/types.rs:148-154 | equal bitwidths mean equal precisions |
| RsTypes.PrecisionRoundTrip | impl/rs/src/types.rs:132-146 | `as_capnp(from_capnp(c)) == c` |
| RsTypes.IntOf | impl/rs/src/types.rs:59-62 | `Type::int(bits)` is the integer type of that bitwidth |
| RsTypes.Bool | impl/rs/src/types.rs:64-67 | `Type::bool()` is the integer type of bitwidth 1 |
| RsTypes.IntArrayOf | impl/rs/src/types.rs:69-72 | `Type::int_array(bits)` is the integer array type of that bitwidth |
| RsTypes.FloatOf | impl/rs/src/types.rs:74-77 | `Type::float(p)` is the float type of that precision |
| RsTypes.FloatArrayOf | impl/rs/src/types.rs:79-82 | `Type::float_array(p)` is the float array type of that precision |
| RsTypes.ReadCapnp | impl/rs/src/types.rs:85-106 | each schema tag becomes its own variant, both directions, and the bitwidth payload is kept |
| RsTypes.BuildCapnp | impl/rs/src/types.rs:110-119 | reading back a built type gives the type |
| RsTypes.BuildAfterRead | impl/rs/src/types.rs:85-119 | building the type read from an encoding gives that encoding back |
| MachineInts.AsU32 | impl/rs/src/reader/region.rs:164 | a `usize` below 2^32 keeps its value under `as u32` (the cast keeps the low 32 bits) |
| RsStringTable.StringTable.Len | impl/rs/src/reader/string_table.rs:47-50 | the number of strings stored |
| RsStringTable.StringTable.Get | impl/rs/src/reader/string_table.rs:24-45 | `StringOutOfBounds` exactly when the index is past the end, `StringNotUtf8` exactly for an in-range entry that is not UTF-8, and otherwise the stored string |
| RsValue.Value.MetadataList | impl/rs/src/reader/value.rs:66-74 | the value's own metadata, entry for entry, read with the string table it carries |
| RsValue.ReadValue | impl/rs/src/reader/value.rs:34-50 | the view keeps the given id, the decoded type, the metadata and the string table |
| RsValue.ValueTable.Len | impl/rs/src/reader/value.rs:111-114 | the number of stored values |
| RsValue.ValueTable.IsEmpty | impl/rs/src/reader/value.rs:116-119 | true exactly when the length is 0 |
| RsValue.ValueTable.Get | impl/rs/src/reader/value.rs:99-109 | `ValueOutOfBounds(idx, len)` exactly when `idx >= len`, and otherwise the stored value under id `Some(idx)` |
| RsValue.Resolve | impl/rs/src/reader/region.rs:46-52 | one value-table lookup per stored id, in stored order |
| RsValue.TypesOf | impl/rs/src/reader/op.rs:143-150 | each lookup mapped to its type, position for position, with an error kept as it is |
| RsValue.BoundaryValue | impl/rs/src/reader/region.rs:104-112 | `None` exactly when the index is past the end of the id list, otherwise the lookup of that id |
| RsValue.BoundaryValueIsResolveItem | impl/rs/src/reader/region.rs:99-112 | a single boundary lookup is the matching item of the boundary iterator |
| RsRegion.Region.BoundaryIds | impl/rs/src/reader/region.rs:47-51 | sources are the incoming side and targets the outgoing side |
| RsRegion.Region.Boundary | impl/rs/src/reader/region.rs:42-53 | as many items as stored ids, each the value-table lookup of its id |
| RsRegion.Region.Sources | impl/rs/src/reader/region.rs:60-62 | one lookup per stored source id, in order |
| RsRegion.Region.Targets | impl/rs/src/reader/region.rs:69-71 | one lookup per stored target id, in order |
| RsRegion.Region.BoundaryCount | impl/rs/src/reader/region.rs:74-81 | the number of stored ids on that side |
| RsRegion.Region.SourceCount | impl/rs/src/reader/region.rs:84-86 | the number of stored source ids |
| RsRegion.Region.TargetCount | impl/rs/src/reader/region.rs:89-91 | the number of stored target ids |
| RsRegion.Region.BoundaryValueAt | impl/rs/src/reader/region.rs:99-113 | `None` exactly when `idx` is past the count, otherwise the lookup of the `idx`-th id, which is the `idx`-th item of `boundary` |
| RsRegion.Region.Source | impl/rs/src/reader/region.rs:121-123 | `None` exactly past the source count, otherwise the `idx`-th source lookup |
| RsRegion.Region.Target | impl/rs/src/reader/region.rs:131-133 | `None` exactly past the target count, otherwise the `idx`-th target lookup |
| RsRegion.Region.Operations | impl/rs/src/reader/region.rs:136-144 | one operation per stored op, in order, each sharing the region's string and value tables |
| RsRegion.Region.OperationCount | impl/rs/src/reader/region.rs:147-152 | the number of stored operations |
| RsRegion.Region.Operation | impl/rs/src/reader/region.rs:159-168 | the op at index `n as u32`, which is that item of `operations`; an out-of-range index panics and is excluded |
| RsRegion.Region.MetadataList | impl/rs/src/reader/region.rs:171-181 | the region's own metadata, entry for entry, read with the string table it carries |
| RsOp.Operation.BoundaryIds | impl/rs/src/reader/op.rs:53-57 | inputs are the incoming side and outputs the outgoing side |
| RsOp.Operation.Boundary | impl/rs/src/reader/op.rs:48-59 | as many items as stored ids, each the value-table lookup of its id |
| RsOp.Operation.Inputs | impl/rs/src/reader/op.rs:66-68 | one lookup per stored input id, in order |
| RsOp.Operation.Outputs | impl/rs/src/reader/op.rs:75-77 | one lookup per stored output id, in order |
| RsOp.Operation.BoundaryCount | impl/rs/src/reader/op.rs:80-87 | the number of stored ids on that side |
| RsOp.Operation.InputCount | impl/rs/src/reader/op.rs:90-92 | the number of stored input ids |
| RsOp.Operation.OutputCount | impl/rs/src/reader/op.rs:95-97 | the number of stored output ids |
| RsOp.Operation.BoundaryValueAt | impl/rs/src/reader/op.rs:105-120 | `None` exactly when `idx` is past the count, otherwise the lookup of the `idx`-th id, which is the `idx`-th item of `boundary` |
| RsOp.Operation.Input | impl/rs/src/reader/op.rs:128-130 | `None` exactly past the input count, otherwise the `idx`-th input lookup |
| RsOp.Operation.Output | impl/rs/src/reader/op.rs:138-140 | `None` exactly past the output count, otherwise the `idx`-th output lookup |
| RsOp.Operation.InputTypes | impl/rs/src/reader/op.rs:143-145 | one item per input: the input's type, or its lookup error |
| RsOp.Operation.OutputTypes | impl/rs/src/reader/op.rs:148-150 | one item per output: the output's type, or its lookup error |
| RsOp.Operation.MetadataList | impl/rs/src/reader/op.rs:153-161 | the operation's own metadata, entry for entry, read with the string table it carries |
| RsFunction.Function.Name | impl/rs/src/reader/function.rs:87-92 | the string-table entry at the stored name index; an index that does not read panics and is excluded |
| RsFunction.Function.Body | impl/rs/src/reader/function.rs:124-126 | the body region, sharing the definition's string and value tables |
| RsFunction.Function.InputTypes | impl/rs/src/reader/function.rs:95-100 | a definition: one value-table lookup per body source; a declaration: each stored input read successfully with no id |
| RsFunction.Function.OutputTypes | impl/rs/src/reader/function.rs:103-108 | a definition: one value-table lookup per body target; a declaration: each stored output read successfully with no id |
| RsFunction.Function.MetadataList | impl/rs/src/reader/function.rs:171-185 | the metadata of whichever variant the function is, entry for entry, read with the same string table its name is read from |
| RsFunction.DeclarationValues | impl/rs/src/reader/function.rs:157-168 | one successful read per stored value, each with id `None` |
| RsFunction.DeclarationItemsHaveNoId | impl/rs/src/reader/function.rs:157-161 | a declaration's inputs never fail to read and carry no id |
| RsFunction.ReadCapnp | impl/rs/src/reader/function.rs:49-80 | the definition tag, and only it, gives a definition with its body and its own value table; a declaration keeps its inputs and outputs; both keep the name index and the string table |
| RsFunction.DefinitionSignatureIsBoundary | impl/rs/src/reader/function.rs:134-136 | a read definition's inputs are its body's sources looked up in its own value table |
| RsModule.Module.Version | impl/rs/src/reader/module.rs:23-25 | the stored schema version |
| RsModule.Module.Strings | impl/rs/src/reader/module.rs:63-69 | the module-level string table over the stored strings |
| RsModule.Module.Functions | impl/rs/src/reader/module.rs:35-40 | one function per stored function, in order, each read with the module's string table |
| RsModule.Module.FunctionCount | impl/rs/src/reader/module.rs:43-45 | the number of stored functions |
| RsModule.Module.Function | impl/rs/src/reader/module.rs:52-54 | the `n`-th item of `functions`; an index past the end panics and is excluded |
| RsModule.Module.TryFunction | impl/rs/src/reader/module.rs:57-60 | `None` exactly when `n >= function_count`, otherwise the `n`-th function |
| RsModule.Module.EntrypointId | impl/rs/src/reader/module.rs:72-74 | the stored entrypoint, with no check against the function count |
| RsModule.Module.Entrypoint | impl/rs/src/reader/module.rs:81-83 | the function at the entrypoint id, the same one `try_function` gives; an id out of range panics and is excluded |
| RsModule.Module.Tool | impl/rs/src/reader/module.rs:88-94 | the stored tool name when it is present and UTF-8, and "" otherwise |
| RsModule.Module.ToolVersion | impl/rs/src/reader/module.rs:99-105 | the stored tool version when it is present and UTF-8, and "" otherwise |
| RsModule.Module.MetadataList | impl/rs/src/reader/module.rs:108-118 | the module's own metadata, entry for entry, read with the module's string table |
| RsModule.TextOrEmpty | impl/rs/src/reader/module.rs:89-93 | a missing or non-UTF-8 text reads as "", and any other text as itself |
| RsMetadata.Metadata.ValueStr | impl/rs/src/reader/metadata.rs:58-61 | `Some` exactly when the value is a text pointer holding valid UTF-8, and then that text |
| RsMetadata.TryReadCapnp | impl/rs/src/reader/metadata.rs:33-41 | fails exactly when the name index does not read from the string table, with that error; otherwise the resolved name and the untouched value |
| RsMetadata.ReadCapnp | impl/rs/src/reader/metadata.rs:23-25 | the entry `try_read_capnp` gives; its failure is the panic, excluded |
| RsMetadata.NamesReadable | impl/rs/src/reader/metadata.rs:76-80 | holds exactly when every entry's name index reads from the string table, which is when listing all entries does not panic |
| RsMetadata.MetadataList.MetadataCount | impl/rs/src/reader/metadata.rs:83-85 | the number of stored entries |
| RsMetadata.MetadataList.MetadataAt | impl/rs/src/reader/metadata.rs:92-94 | the entry at `n as u32`; an index out of range or an unreadable name panics and is excluded |
| RsMetadata.MetadataList.TryMetadata | impl/rs/src/reader/metadata.rs:99-102 | as written: `None` exactly when the truncated index `n as u32` is past the end, otherwise that entry |
| RsMetadata.MetadataList.TryMetadataChecked | impl/rs/src/reader/metadata.rs:96-102 | as documented: `None` exactly when `n` is at least the count, otherwise the `n`-th entry |
| RsMetadata.MetadataList.MetadataEntries | impl/rs/src/reader/metadata.rs:76-80 | one entry per stored entry, in order, each read with the string table |
| RsMetadata.TryMetadataWrapsAround | impl/rs/src/reader/metadata.rs:99-102 | on a one-entry list, index 2^32 is at or past the count, yet `try_metadata` returns an entry; the corrected lookup returns `None` |
| RsMetadata.TryMetadataCheckedAgrees | impl/rs/src/reader/metadata.rs:99-102 | below 2^32 the corrected lookup and the one as written agree |
| RsControlFlow.SwitchOp.Branches | impl/rs/src/reader/optype/control_flow.rs:157-163 | one region per stored branch, in order, each sharing the switch's tables |
| RsControlFlow.SwitchOp.BranchCount | impl/rs/src/reader/optype/control_flow.rs:166-168 | the number of stored branches |
| RsControlFlow.SwitchOp.Branch | impl/rs/src/reader/optype/control_flow.rs:174-176 | the branch at `n as u32`; an index out of range panics and is excluded |
| RsControlFlow.SwitchOp.TryBranch | impl/rs/src/reader/optype/control_flow.rs:181-184 | as written: `None` exactly when the truncated index `n as u32` is past the end, otherwise that branch |
| RsControlFlow.SwitchOp.TryBranchChecked | impl/rs/src/reader/optype/control_flow.rs:178-184 | as documented: `None` exactly when `n >= branch_count`, otherwise the `n`-th branch |
| RsControlFlow.SwitchOp.DefaultBranch | impl/rs/src/reader/optype/control_flow.rs:189-191 | the default region read with the switch, if any |
| RsControlFlow.TryBranchCheckedAgrees | impl/rs/src/reader/optype/control_flow.rs:181-184 | below 2^32 the corrected lookup and the one as written agree |
| RsControlFlow.TryBranchWrapsAround | impl/rs/src/reader/optype/control_flow.rs:181-184 | on a one-branch switch `try_branch(2^32)` returns the first branch, while the corrected lookup returns `None` |
| RsControlFlow.ReadSwitch | impl/rs/src/reader/optype/control_flow.rs:136-154 | keeps every branch and the tables; a default is present exactly when the library yields one, and is read with the same tables |
| RsControlFlow.ReadCapnp | impl/rs/src/reader/optype/control_flow.rs:83-131 | each instruction tag becomes its own variant; `While` keeps (condition, body), `DoWhile` keeps (body, condition), and every region shares the op's tables |
| RsOpType.ReadCapnp | impl/rs/src/reader/optype.rs:47-87 | each instruction tag is read into its same-named variant, with a qubit or control-flow payload read by its own reader and a function call keeping its function index; a missing or unknown tag panics and is excluded |
| RsOpType.OpTypeOf | impl/rs/src/reader/op.rs:38-41 | the operation's instruction is read with the operation's own string and value tables |
| RsOpType.ControlFlowSharesTables | impl/rs/src/reader/op.rs:38-41 | every region under a control-flow instruction reads through the enclosing operation's tables |
| RsQubit.LocalTag | impl/rs/src/reader/optype/qubit.rs:319-339 | every gate of this reader has a schema tag other than global phase and identity |
| RsQubit.ReadWellKnown | impl/rs/src/reader/optype/qubit.rs:319-339 | each of the twelve handled tags reads to the gate whose tag it is |
| RsQubit.LocalTagsMissGPhaseAndI | impl/rs/src/reader/optype/qubit.rs:319-339 | a tag is handled exactly when some gate of this reader carries it, so global phase and identity reach `unimplemented!` |
| RsQubit.TryReadGate | impl/rs/src/reader/optype/qubit.rs:227-267 | fails only for a custom gate whose name lookup fails, with that lookup's error; otherwise it copies the modifiers and builds the well-known, custom or Pauli-product kind |
| RsQubit.ReadGate | impl/rs/src/reader/optype/qubit.rs:214-219 | the value `try_read_capnp` returns; its failure panics and is excluded |
| RsQubit.OnlyCustomGatesFail | impl/rs/src/reader/optype/qubit.rs:227-267 | a gate that is not custom always reads |
| RsQubit.ReadQubitOp | impl/rs/src/reader/optype/qubit.rs:162-182 | each of the seven qubit-operation tags reads to its same-named variant, and a gate reads through `GateOp::read_capnp` |
| RsQubit.QubitRegisterOp.Discriminant | impl/rs/src/reader/optype/qubit.rs:36-73 | the explicit discriminants Alloc 0, FreeZero 1 and Free 10, the rest numbered on from 2, all at most 10 and decoded back to the same variant |
| RsQubit.DiscriminantInjective | impl/rs/src/reader/optype/qubit.rs:36-73 | no two register operations share a discriminant |
| RsQubit.ReadQuregOp | impl/rs/src/reader/optype/qubit.rs:184-206 | each of the eleven register-operation tags reads to the variant whose tag it is |
| RsPauli.Pauli.Name | impl/rs/src/reader/optype/qubit/pauli.rs:95-103 | each operator's name is the one letter that names its own schema tag (`X` for X, and so on), and it leads back to the same operator |
| RsPauli.NameTag | impl/rs/src/reader/optype/qubit/pauli.rs:95-103 | `X`, `Y`, `Z` and `I`, and only they, name a schema tag, each its own letter's; every other string names none |
| RsPauli.ReadPauli | impl/rs/src/reader/optype/qubit/pauli.rs:82-93 | each of the four schema tags reads to the operator whose tag it is |
| RsPauli.PauliTagRoundTrip | impl/rs/src/reader/optype/qubit/pauli.rs:82-93 | reading an operator's tag gives back the operator |
| RsPauli.NameInjective | impl/rs/src/reader/optype/qubit/pauli.rs:95-103 | distinct operators have distinct names |
| RsPauli.PauliString.Len | impl/rs/src/reader/optype/qubit/pauli.rs:45-47 | the number of stored operators |
| RsPauli.PauliString.IsEmpty | impl/rs/src/reader/optype/qubit/pauli.rs:50-52 | true exactly when the length is zero |
| RsPauli.PauliString.Get | impl/rs/src/reader/optype/qubit/pauli.rs:55-61 | the operator stored at `n as u32`; a truncated index past the end panics and is excluded |
| RsPauli.PauliString.Iter | impl/rs/src/reader/optype/qubit/pauli.rs:64-68 | one operator per stored tag, in stored order |
| RsPauli.PauliString.NumQubits | impl/rs/src/reader/optype/qubit/pauli.rs:71-73 | one qubit per operator |
| RsPauli.PauliString.NumParams | impl/rs/src/reader/optype/qubit/pauli.rs:76-78 | exactly one rotation angle |
| RsPauli.IterIsGets | impl/rs/src/reader/optype/qubit/pauli.rs:55-68 | below 2^32 operators, the `i`-th operator of the iterator is `get(i)` |
| RsWellKnown.WellKnownGate.NumQubits | impl/rs/src/reader/optype/qubit/well_known.rs:223-234 | no qubit for the global phase, two for swap, one for every other gate |
| RsWellKnown.WellKnownGate.NumParams | impl/rs/src/reader/optype/qubit/well_known.rs:236-247 | three parameters for U, one for the global phase and the four rotations, none otherwise |
| RsWellKnown.ReadCapnp | impl/rs/src/reader/optype/qubit/well_known.rs:202-221 | each of the fourteen schema tags reads to the gate whose tag it is |
| RsWellKnown.TagRoundTrip | impl/rs/src/reader/optype/qubit/well_known.rs:202-221 | reading a gate's tag gives back the gate |
| RsWellKnown.ReadCapnpInjective | impl/rs/src/reader/optype/qubit/well_known.rs:202-221 | distinct tags read to distinct gates |
| RsWellKnown.DefaultIsIdentity | impl/rs/src/reader/optype/qubit/well_known.rs:21-34 | the derived default gate is the identity, on one qubit with no parameters |
| RsWellKnown.GPhaseSignature | impl/rs/src/reader/optype/qubit/well_known.rs:9-20 | the global phase acts on no qubit and takes one float, as its documentation says |
| Text.LowerChar | impl/py/src/jeff/op/qubit/gate.py:25 | an upper-case ASCII letter moves to its lower-case letter and every other character stays; the result is never upper case |
| Text.Lower | impl/py/src/jeff/op/qubit/gate.py:110 | a string of the same length, lower-cased character by character |
| Text.LowerIdempotent | impl/py/src/jeff/op/qubit/gate.py:105-110 | lower-casing twice is lower-casing once |
| Text.LowerOfLower | impl/py/src/jeff/type.py:18 | a string with no upper-case letter is its own lower-case form |
| Text.NatToString | impl/py/src/jeff/op/qubit/gate.py:264-273 | a non-empty string of decimal digits |
| Text.NatToStringInjective | impl/py/src/jeff/op/qubit/gate.py:264-273 | different natural numbers render differently |
| Text.IntToString | impl/py/src/jeff/op/qubit/gate.py:264-273 | a non-empty rendering of an integer |
| Text.IntToStringEndsInDigit | impl/py/src/jeff/op/qubit/gate.py:264-273 | an integer's rendering ends in a digit |
| Text.IntToStringSign | impl/py/src/jeff/op/qubit/gate.py:264-273 | the rendering starts with a minus sign exactly when the integer is negative |
| Text.IntToStringInjective | impl/py/src/jeff/op/qubit/gate.py:264-273 | different integers render differently |
| Text.IndexOf | impl/py/src/jeff/op/kind.py:28-35 | `None` exactly when the character is absent; otherwise its first position |
| Text.Split | impl/py/src/jeff/op/kind.py:28-35 | at least one piece, no piece containing the separator, one piece exactly when the separator is absent, and joining the pieces gives back the string |
| Text.SplitAt | impl/py/src/jeff/op/kind.py:28-35 | splitting at the first separator puts the text before it first |
| Text.IndexOfPrefix | impl/py/src/jeff/op/kind.py:28-35 | the first separator after a separator-free prefix is at the prefix's length |
| PyLazy.LazyUpdate.constructor | impl/py/src/jeff/capnp/__init__.py:60-73 | a new object starts dirty |
| PyLazy.LazyUpdate.MarkDirty | impl/py/src/jeff/capnp/__init__.py:75-80 | afterwards the object is dirty |
| PyLazy.LazyUpdate.MarkClean | impl/py/src/jeff/capnp/__init__.py:82-87 | afterwards the object is clean |
| PyLazy.LazyUpdate.IsDirty | impl/py/src/jeff/capnp/__init__.py:90-95 | reports whether the object is dirty |
| PyKind.OpKind.Kind | impl/py/src/jeff/op/kind.py:25-28 | the prefix of the value before its first `.`, or the whole value, and never containing a `.` |
| PyKind.OpKind.Subkind | impl/py/src/jeff/op/kind.py:30-35 | `None` exactly when the value has no `.`; otherwise a piece without a `.` |
| PyKind.KindTable | impl/py/src/jeff/op/kind.py:21-35 | `qubit` and `scf` have no subkind; `qubit.gate` has kind `qubit` and subkind `gate` |
| PyKind.GateSplit | impl/py/src/jeff/op/kind.py:22 | `"qubit.gate".split(".")` is `["qubit", "gate"]` |
| PyKind.GateKindIsQubit | impl/py/src/jeff/op/kind.py:21-28 | a gate operation's kind is the qubit kind's value |
| PyKind.ValueInjective | impl/py/src/jeff/op/kind.py:21-23 | the three member values are distinct |
| PyNonUnitary.NonUnitaryOp.Name | impl/py/src/jeff/op/qubit/non_unitary.py:87-178 | every operation has a non-empty schema tag name |
| PyNonUnitary.NonUnitaryOp.OpKind | impl/py/src/jeff/op/qubit/non_unitary.py:68-71 | every non-unitary operation is of the qubit kind |
| PyNonUnitary.NonUnitaryOp.QualifiedName | impl/py/src/jeff/op/qubit/non_unitary.py:78-81 | the enum's string form `OpKind.QUBIT`, a dot, then the name |
| PyNonUnitary.NonUnitaryOp.DocumentedName | impl/py/src/jeff/op/qubit/non_unitary.py:78-81 | corrected: the documented full name, `qubit`, a dot, then the name |
| PyNonUnitary.QualifiedNameLacksPrefix | impl/py/src/jeff/op/qubit/non_unitary.py:78-81 | as written, no operation's qualified name starts with `qubit.`, so none equals its documented name |
| PyNonUnitary.DocumentedNameInjective | impl/py/src/jeff/op/qubit/non_unitary.py:78-81 | two operations with the same documented full name are the same operation |
| PyNonUnitary.CandidatesCoverAll | impl/py/src/jeff/op/qubit/non_unitary.py:39-46 | the candidate list holds every operation |
| PyNonUnitary.FirstNamed | impl/py/src/jeff/op/qubit/non_unitary.py:48-50 | `None` exactly when no candidate has the name; otherwise the earliest candidate with it |
| PyNonUnitary.FirstIndex | impl/py/src/jeff/op/qubit/non_unitary.py:48-50 | the position of the first candidate with the name, every earlier one named otherwise; the length when none has it |
| PyNonUnitary.ReadFromBuffer | impl/py/src/jeff/op/qubit/non_unitary.py:37-52 | succeeds exactly when some operation carries the tag, returning it; otherwise `ValueError` |
| PyNonUnitary.NamesDistinct | impl/py/src/jeff/op/qubit/non_unitary.py:87-178 | no two operations share a name |
| PyNonUnitary.ReadOwnName | impl/py/src/jeff/op/qubit/non_unitary.py:37-52 | reading an operation's own name gives it back |
| PyStringTable.LastIndexOf | impl/py/src/jeff/string_table.py:36 | the last position holding the string; later positions hold other strings, so the comprehension keeps the last index |
| PyStringTable.StringTable.constructor | impl/py/src/jeff/string_table.py:34-38 | slot `i` holds `list[i]`, each listed string maps back to its last index, the length is the list's, and the table is dirty and valid |
| PyStringTable.StringTable.FromBuffer | impl/py/src/jeff/string_table.py:67-74 | no strings are loaded, the length is the buffer's and the table is clean |
| PyStringTable.StringTable.Len | impl/py/src/jeff/string_table.py:104-105 | the table's length |
| PyStringTable.StringTable.Index | impl/py/src/jeff/string_table.py:92-94 | `KeyError` exactly for a string not in the reverse map; otherwise an index whose slot holds the string |
| PyStringTable.StringTable.Peek | impl/py/src/jeff/string_table.py:107-118 | `IndexError` outside `[0, len)`, the cached string, `ValueError` for a hole with no buffer, else the buffer's entry |
| PyStringTable.StringTable.Get | impl/py/src/jeff/string_table.py:107-118 | returns what `Peek` gives, caches a string read from the buffer in both maps, changes nothing otherwise and keeps the table valid |
| PyStringTable.StringTable.Set | impl/py/src/jeff/string_table.py:120-125 | both maps are updated, the length grows to cover the index, the table is dirty; it stays valid unless a slot is overwritten with another string, which leaves a stale reverse entry |
| PyStringTable.StringTable.Insert | impl/py/src/jeff/string_table.py:96-102 | a known string returns its index and changes nothing; a new one goes at the old length, which grows by one; afterwards the slot holds the string and `index` finds it |
| PyType.FloatPrecision.Value | impl/py/src/jeff/type.py:12-14 | each precision's value is a lower-case name |
| PyType.PrecisionFromName | impl/py/src/jeff/type.py:16-23 | succeeds exactly when the lower-cased name is `float32` or `float64`, with the precision of that value; otherwise `ValueError` |
| PyType.PrecisionRoundTrip | impl/py/src/jeff/type.py:12-23 | each precision's value parses back to it |
| PyType.PrecisionFromNameIgnoresCase | impl/py/src/jeff/type.py:18 | parsing ignores ASCII case |
| PyType.ReadPrecision | impl/py/src/jeff/type.py:42-47 | a stored name is parsed with `from_name`; a stored enum member has no `lower` and raises `AttributeError` |
| PyType.ReadType | impl/py/src/jeff/type.py:29-49 | each tag reads to its own type with the stored width or precision; a bad precision fails as its parse does; an unknown tag raises `ValueError` |
| PyType.WriteTypeAsWritten | impl/py/src/jeff/type.py:59-147 | as written: like the corrected writer except that a float-array type stores the enum member |
| PyType.WriteType | impl/py/src/jeff/type.py:59-147 | raises exactly when an integer or integer-array width does not fit the schema's `UInt8` field (0..255), with the binding's `KjException`; every other type is written under a known tag |
| PyType.WriteReadRoundTrip | impl/py/src/jeff/type.py:29-147 | whenever the write succeeds, reading the written type back gives the same type |
| PyType.FloatArrayAsWrittenDoesNotRoundTrip | impl/py/src/jeff/type.py:142-147 | as written, a float-array type reads back as `AttributeError`; the corrected writer round-trips it |
| PyType.Str | impl/py/src/jeff/type.py:66-150 | every type prints to at least four characters |
| PyType.StrInitial | impl/py/src/jeff/type.py:98-116 | only the integer types print with an initial `i` |
| PyType.IntStrLast | impl/py/src/jeff/type.py:98-116 | an integer type's string ends in `]` exactly for the array type |
| PyType.IntStrInjective | impl/py/src/jeff/type.py:98-116 | distinct integer types print distinctly |
| PyType.StrInjective | impl/py/src/jeff/type.py:66-150 | distinct types print distinctly |
| PyType.ParseNonIntOfStr | impl/py/src/jeff/type.py:66-150 | the printed form of a type without a width identifies it |
| PyGate.Pauli.Value | impl/py/src/jeff/op/qubit/gate.py:16-20 | each Pauli's value is one lower-case letter |
| PyGate.PauliFromName | impl/py/src/jeff/op/qubit/gate.py:22-34 | succeeds exactly when the lower-cased name is `i`, `x`, `y` or `z`, with the Pauli of that value; otherwise `ValueError` |
| PyGate.PauliRoundTrip | impl/py/src/jeff/op/qubit/gate.py:16-34 | each Pauli's value parses back to it |
| PyGate.PauliFromNameIgnoresCase | impl/py/src/jeff/op/qubit/gate.py:25 | Pauli parsing ignores ASCII case |
| PyGate.KnownGate.Value | impl/py/src/jeff/op/qubit/gate.py:43-55 | each gate's value is a non-empty lower-case name |
| PyGate.KnownGate.NumQubits | impl/py/src/jeff/op/qubit/gate.py:59-81 | no qubit for the global phase, two for swap, one for every other gate |
| PyGate.KnownGate.NumParams | impl/py/src/jeff/op/qubit/gate.py:83-102 | one angle for the global phase and the three axis rotations, three for U, none otherwise |
| PyGate.KnownGatesCoverAll | impl/py/src/jeff/op/qubit/gate.py:111 | iterating the enum visits every gate |
| PyGate.FirstWithValue | impl/py/src/jeff/op/qubit/gate.py:111-113 | `None` exactly when no listed gate has the value; otherwise a listed gate with it |
| PyGate.KnownFromName | impl/py/src/jeff/op/qubit/gate.py:104-114 | succeeds exactly when some gate's value is the lower-cased name, returning that gate; otherwise `ValueError` |
| PyGate.KnownValuesDistinct | impl/py/src/jeff/op/qubit/gate.py:43-55 | no two gates share a value |
| PyGate.KnownFromNameRoundTrip | impl/py/src/jeff/op/qubit/gate.py:104-114 | each gate's value names that gate |
| PyGate.KnownFromNameIgnoresCase | impl/py/src/jeff/op/qubit/gate.py:110 | gate-name parsing ignores ASCII case |
| PyGate.GateShape.NumQubits | impl/py/src/jeff/op/qubit/gate.py:306-308 | the well-known gate's count, a custom gate's stored count, or one qubit per Pauli of a rotation (also lines 401-405 and 493-495) |
| PyGate.GateShape.NumParams | impl/py/src/jeff/op/qubit/gate.py:310-312 | the well-known gate's count, a custom gate's stored count, or one angle for a rotation (also lines 412-416 and 497-499) |
| PyGate.ChooseShape | impl/py/src/jeff/op/qubit/gate.py:148-165 | the well-known gate exactly when the name parses to a gate with both requested counts, otherwise a custom gate with the given name and counts; the result always has the requested counts |
| PyGate.ChooseKnownName | impl/py/src/jeff/op/qubit/gate.py:148-154 | a gate's own value with its own counts always selects that gate |
| PyGate.ConvertPaulis | impl/py/src/jeff/op/qubit/gate.py:486-490 | succeeds exactly when every name parses; then one Pauli per item, a member kept and a name parsed; otherwise `ValueError` |
| PyGate.ConvertMembers | impl/py/src/jeff/op/qubit/gate.py:486-490 | a list of members converts to itself |
| PyGate.QubitGate.constructor | impl/py/src/jeff/op/qubit/gate.py:284-296 | the shape and the three modifiers are stored and the gate is dirty (likewise lines 346-362) |
| PyGate.QubitGate.Plain | impl/py/src/jeff/op/qubit/gate.py:124-126 | the default modifiers: no controls, not adjoint, power 1 |
| PyGate.QubitGate.NewPpr | impl/py/src/jeff/op/qubit/gate.py:438-450 | `ValueError` exactly when the conversion fails; otherwise a fresh dirty rotation over the converted Paulis with the given modifiers, one qubit per item and one angle |
| PyGate.QubitGate.FromGateName | impl/py/src/jeff/op/qubit/gate.py:131-165 | a fresh gate of the shape `ChooseShape` picks, with the requested counts and the modifiers unchanged |
| PyGate.QubitGate.NumQubits | impl/py/src/jeff/op/qubit/gate.py:209-212 | the abstract property as each subclass defines it: the well-known gate's own count (lines 306-308), a custom gate's stored count (lines 401-405), one qubit per Pauli of a rotation (lines 493-495); control qubits are not counted |
| PyGate.QubitGate.NumParams | impl/py/src/jeff/op/qubit/gate.py:214-217 | the abstract property as each subclass defines it: the well-known gate's own count (lines 310-312), a custom gate's stored count (lines 412-416), exactly one angle for a rotation (lines 497-499) |
| PyGate.QubitGate.SetNumControls | impl/py/src/jeff/op/qubit/gate.py:236-240 | the control count is replaced, the gate is dirty, nothing else changes |
| PyGate.QubitGate.SetAdjoint | impl/py/src/jeff/op/qubit/gate.py:247-251 | the adjoint flag is replaced, the gate is dirty, nothing else changes |
| PyGate.QubitGate.SetPower | impl/py/src/jeff/op/qubit/gate.py:258-262 | the power is replaced, the gate is dirty, nothing else changes |
| PyGate.QubitGate.SetKind | impl/py/src/jeff/op/qubit/gate.py:324-328 | a well-known gate gets the new kind and is dirty; the modifiers stay |
| PyGate.QubitGate.SetName | impl/py/src/jeff/op/qubit/gate.py:396-399 | a custom gate's name is replaced, the gate is dirty, the rest stays |
| PyGate.QubitGate.SetNumQubits | impl/py/src/jeff/op/qubit/gate.py:407-410 | a custom gate's qubit count is replaced, the gate is dirty, the rest stays |
| PyGate.QubitGate.SetNumParams | impl/py/src/jeff/op/qubit/gate.py:418-421 | a custom gate's parameter count is replaced, the gate is dirty, the rest stays |
| PyGate.QubitGate.SetPauliString | impl/py/src/jeff/op/qubit/gate.py:486-491 | `ValueError` exactly when the conversion fails, and then nothing changes; otherwise the converted string is stored and the gate is dirty |
| PyGate.QubitGate.StrAttributes | impl/py/src/jeff/op/qubit/gate.py:264-273 | the control count appears exactly when non-zero, `adjoint` exactly when set, the power exactly when not 1, and nothing else; in that order, the control count first and the power last |
| PyGate.Flagged | impl/py/src/jeff/op/qubit/gate.py:264-273 | of three distinct modifiers, each is listed exactly when its flag is set, and nothing else is; a kept first modifier comes first, a kept second one after it, and a kept last one last |
| PyValue.FreeFrom | impl/py/src/jeff/value.py:79-83 | the least id at or above the start that no numbered value holds; every id before it is held |
| PyValue.FreeList | impl/py/src/jeff/value.py:71-83 | the first `n` non-negative ids that no numbered value holds |
| PyValue.FreeListPrefix | impl/py/src/jeff/value.py:71-83 | the free ids for fewer waiting values are a prefix of those for more |
| PyValue.FreeListChain | impl/py/src/jeff/value.py:79-83 | each free id is the least unheld id above the previous one |
| PyValue.FreeListIncreasing | impl/py/src/jeff/value.py:79-83 | waiting values receive ids in strictly increasing order |
| PyValue.FreeListFillsGaps | impl/py/src/jeff/value.py:71-83 | no unheld id below the last one handed out is skipped |
| PyValue.FreeFromSkip | impl/py/src/jeff/value.py:73-74 | stepping over a held id does not change the next free one |
| PyValue.AsWrittenDropsLastKey | impl/py/src/jeff/value.py:69-83 | as written, values numbered 0 and 1 with nothing waiting leave only id 0 stored |
| PyValue.AsWrittenDropsKeyAfterQueue | impl/py/src/jeff/value.py:69-83 | as written, one waiting value and a value numbered 5 leave only id 0 stored |
| PyValue.InsertSorted | impl/py/src/jeff/value.py:69 | inserting an id keeps the list strictly increasing and adds exactly that id |
| PyValue.SortedIds | impl/py/src/jeff/value.py:69 | `sorted(value_dict.keys())`: each id met exactly once, in increasing order |
| PyValue.Value.constructor | impl/py/src/jeff/value.py:183-202 | a new value has the given type, no id and no table |
| PyValue.IdsOf | impl/py/src/jeff/value.py:54 | the ids of the values, position by position |
| PyValue.Keyed | impl/py/src/jeff/value.py:52-58 | `value_dict` holds exactly the ids met, each mapped to one of the values seen |
| PyValue.Queued | impl/py/src/jeff/value.py:52-58 | `unordered_values` holds every value seen without an id and nothing else |
| PyValue.IdListHoldsIds | impl/py/src/jeff/value.py:52-58 | the ids met in order are exactly the ids present |
| PyValue.Gathered | impl/py/src/jeff/value.py:52-66 | after every value is seen, each kept value carries its key, the ids met are the keys, and every queued value has no id |
| PyValue.KeyedByOwnId | impl/py/src/jeff/value.py:57-58 | each value kept by id is kept under its own id |
| PyValue.QueuedWithoutId | impl/py/src/jeff/value.py:55-56 | each queued value has no id |
| PyValue.ValueTable.constructor | impl/py/src/jeff/value.py:32-35 | slot `i` holds `list[i]`, the length is the list's, and the table is dirty |
| PyValue.ValueTable.FromBuffer | impl/py/src/jeff/value.py:97-104 | no value is loaded, the length is the buffer's and the table is clean |
| PyValue.ValueTable.Len | impl/py/src/jeff/value.py:179-180 | the table's length |
| PyValue.ValueTable.Add | impl/py/src/jeff/value.py:122-151 | the value joins this table; without an id it is appended at the old length; with a free id it is stored there and the length covers it; with a taken id it returns the id if the stored value is equal, otherwise `ValueError` with nothing changed |
| PyValue.ValueTable.Get | impl/py/src/jeff/value.py:153-168 | `IndexError` outside `[0, len)`; the stored value; for a hole, `ValueError` without a buffer, otherwise a fresh value read from the buffer, numbered `index`, owned and cached, with a type error passed on |
| PyValue.ValueTable.Set | impl/py/src/jeff/value.py:170-177 | the value is numbered `index` and owned, the slot holds it, the length covers it, the table is dirty, and a table whose stored values are consistent stays so |
| PyValue.ValueTable.Collect | impl/py/src/jeff/value.py:37-85 | corrected: a fresh table owns every value; each numbered value stays at its id, the `j`-th value without an id gets the `j`-th free id, nothing else is stored, and the length is one past the highest id |
| PyValue.ValueTable.QueuedStored | impl/py/src/jeff/value.py:75-78 | each value that waited is numbered and stored at its new id |
| PyValue.ValueTable.CompleteFrom | impl/py/src/jeff/value.py:71-83 | a completed table holds only values that were gathered |
| PyValue.ValueTable.Gather | impl/py/src/jeff/value.py:52-66 | the bookkeeping of `add_value` over all values: numbered values by id, the others queued in order, and the ids met |
| PyValue.ValueTable.Adopt | impl/py/src/jeff/value.py:53 | every value's table becomes the new table and no id changes |
| PyValue.ValueTable.GatherStep | impl/py/src/jeff/value.py:52-58 | one more value extends the id map or the queue by exactly that value |
| PyValue.ValueTable.PlaceNumbered | impl/py/src/jeff/value.py:73-74 | re-storing a numbered value at its own id keeps the placement |
| PyValue.ValueTable.PlaceFree | impl/py/src/jeff/value.py:75-78 | storing the next waiting value at the next free id places one more value, in a slot that was empty |
| PyValue.ValueTable.FreeIdUnused | impl/py/src/jeff/value.py:75-78 | the next free id to hand out is not stored yet |
| PyValue.ValueTable.StoreNumbered | impl/py/src/jeff/value.py:73-74 | storing a numbered value adds exactly its id and keeps the loop's invariant |
| PyValue.ValueTable.StoreFree | impl/py/src/jeff/value.py:75-78 | numbering the next waiting value adds exactly its id and advances the loop's invariant by one value |
| PyValue.ValueTable.SetUnused | impl/py/src/jeff/value.py:170-177 | `table[id] = v` at an unused id stores exactly `v` there, keeps the table clean, and leaves every numbered value with its own id and every owner with this table |
| PyValue.ValueTable.Visit | impl/py/src/jeff/value.py:72-83 | one corrected iteration keeps the invariant and makes progress: fewer ids to pop, fewer waiting values, or a shorter way to the next free id |
| PyValue.ValueTable.VisitNumbered | impl/py/src/jeff/value.py:73-74 | visiting a numbered id stores its value, leaves every numbered id stored or still to pop, and keeps the next free id where it was |
| PyValue.ValueTable.VisitFree | impl/py/src/jeff/value.py:75-78 | visiting a free id numbers the first waiting value with it, so one value fewer waits and the loop's invariant moves on by one |
| PyValue.ValueTable.AssignIds | impl/py/src/jeff/value.py:69-83 | corrected loop: every numbered value stays at its id, the `j`-th waiting value gets the `j`-th free id, and nothing else is stored |
| PyValue.ValueTable.Walk | impl/py/src/jeff/value.py:71-83 | the corrected loop runs until nothing is left to pop or number, with every waiting value placed |
| PyValue.ValueTable.StartAssigning | impl/py/src/jeff/value.py:45-70 | the loop starts from an empty table |
| PyValue.ValueTable.AssignedAll | impl/py/src/jeff/value.py:71-85 | when the loop ends, the table is completely numbered |
| PyValue.ValueTable.PlacedAll | impl/py/src/jeff/value.py:71-85 | a placement of every waiting value that holds every numbered id is complete |
| PyIr.Resolve | impl/py/src/jeff/region.py:107-110 | each id is looked up in turn; on success every id resolves to its stored value; on an exception the values resolved before it stay; slots already stored never change, and when every id names a stored slot nothing is read |
| PyIr.AddAll | impl/py/src/jeff/region.py:116-117 | every value is added in turn, stopping at the first `ValueError`; on success every value is owned, numbered and stored, and values that fit the table always succeed |
| PyIr.AddTo | impl/py/src/jeff/region.py:115-117 | no parent function adds nothing; a function without a value table raises `AttributeError` at the first value; otherwise as `AddAll` |
| PyIr.ResolveIn | impl/py/src/jeff/region.py:105-110 | a function without a value table raises `AttributeError` unless there is nothing to look up; otherwise the cache holds what resolved, all of it when every id is stored, and only fresh values are added |
| PyIr.ReadValues | impl/py/src/jeff/function.py:65-66 | succeeds exactly when every type reads; then one fresh value per reader with the read type, no id and no table; otherwise the first type error |
| PyIr.TypesOf | impl/py/src/jeff/function.py:223-225 | the types of the values, position by position |
| PyIr.Region.constructor | impl/py/src/jeff/region.py:39-48 | a detached dirty region with the given lists, operation `i` at index `i` |
| PyIr.Region.FromBuffer | impl/py/src/jeff/region.py:56-62 | a clean, detached region with nothing cached and the buffer's operation count |
| PyIr.Region.Get | impl/py/src/jeff/region.py:226-242 | `IndexError` exactly outside `[0, count)`; a region read from a buffer has no operation dict and raises `AttributeError`; otherwise the stored operation |
| PyIr.Region.Operations | impl/py/src/jeff/region.py:144-147 | every operation in index order when all of them can be fetched, otherwise the first fetch's exception (also lines 261-263) |
| PyIr.Region.SetOperations | impl/py/src/jeff/region.py:149-156 | the operations become exactly the list, each joins the region's function if there is one, and the region is dirty |
| PyIr.Region.AppendOp | impl/py/src/jeff/region.py:158-169 | the op joins the region's function; it is stored at the old count, which is returned and grows by one, with earlier operations unchanged; a region without an operation dict raises `AttributeError` |
| PyIr.Region.Set | impl/py/src/jeff/region.py:244-255 | `IndexError` at or past the count, changing nothing; otherwise the op joins the function and only that index changes, with a negative index stored where no lookup finds it; the count never changes |
| PyIr.Region.SubregionsBfs | impl/py/src/jeff/region.py:197-222 | this region first, then breadth-first; as written it stops silently at an empty region and raises `IndexError` when the queue runs dry, as intended it yields every region and stops when the queue is empty |
| PyIr.Region.Walk | impl/py/src/jeff/region.py:205-222 | the loop, under the written `while region := queue.popleft()` or the intended `while queue:`, from any deque yields exactly the regions `Bfs` lists and stops the way it says |
| PyIr.Region.Children | impl/py/src/jeff/region.py:209-222 | the regions queued for each operation in order: a switch's branches then its default, a loop's body, a while loop's condition then body |
| PyIr.Region.Sources | impl/py/src/jeff/region.py:98-111 | the cached list; otherwise `ValueError` without a parent function or a buffer; otherwise the source ids resolved in the function's value table and cached, succeeding whenever all of them are stored |
| PyIr.Region.Targets | impl/py/src/jeff/region.py:121-134 | the same as `Sources`, for the target ids |
| PyIr.Region.SetSources | impl/py/src/jeff/region.py:113-119 | under a function each value is first added to its value table, and an exception leaves the list unchanged; then the list is stored and the region is dirty |
| PyIr.Region.SetTargets | impl/py/src/jeff/region.py:136-142 | the same as `SetSources`, for the targets |
| PyIr.Region.AttachOps | impl/py/src/jeff/region.py:191-193 | every operation in the dict joins the function |
| PyIr.Region.SetParent | impl/py/src/jeff/region.py:184-195 | the parent is set; under a function, every operation joins it and every source and target value is added to its value table, with `AttributeError` for a region read from a buffer and the first getter or `add` error passed on |
| PyIr.Region.Join | impl/py/src/jeff/region.py:190-195 | every operation joins the function, then every source and target value is registered in its value table |
| PyIr.Region.Register | impl/py/src/jeff/region.py:194-195 | every source and then every target value is added to the function's value table |
| PyIr.Region.Endpoints | impl/py/src/jeff/region.py:194 | `self.sources + self.targets` read through the getters, the cached lists when both are cached |
| PyIr.ReadRegions | impl/py/src/jeff/op/scf.py:40-42 | a fresh, unread, detached, clean region per encoded region, in order |
| PyIr.ParentAll | impl/py/src/jeff/op/scf.py:166-168 | every region's parent becomes the switch |
| PyIr.Scf.Switch | impl/py/src/jeff/op/scf.py:112-115 | the branches and default are stored, with no default recorded as absent; every region is parented to the switch, nothing but those parents changes, and the switch is dirty |
| PyIr.Scf.For | impl/py/src/jeff/op/scf.py:231-234 | the body is parented to the loop and stored, and the loop is dirty |
| PyIr.Scf.While | impl/py/src/jeff/op/scf.py:299-304 | the condition and body are parented to the loop and stored, and the loop is dirty |
| PyIr.Scf.DoWhile | impl/py/src/jeff/op/scf.py:393-398 | the body and condition are parented to the loop and stored, and the loop is dirty |
| PyIr.Scf.FromBuffer | impl/py/src/jeff/op/scf.py:34-66 | dispatches on the tag, `ValueError` for an unknown one; a loop's regions are read and parented; a switch reads only when it has no branch and no default, because the setters force-read regions that have no parent; the result is clean and keeps the buffer |
| PyIr.Scf.Branches | impl/py/src/jeff/op/scf.py:145-161 | the cached list; `ValueError` without a buffer; otherwise fresh regions read and cached, parented to the switch, with `AttributeError` under a function when there is a branch |
| PyIr.Scf.Default | impl/py/src/jeff/op/scf.py:172-189 | a cached absent default gives none and a cached region gives itself; otherwise `ValueError` without a buffer, absent when the buffer has none, else a fresh region read, cached and parented |
| PyIr.Scf.SetBranches | impl/py/src/jeff/op/scf.py:163-170 | every branch is parented to the switch, the list is stored and the switch is dirty |
| PyIr.Scf.ClearDefault | impl/py/src/jeff/op/scf.py:191-200 | given no region, the default becomes absent and the switch is dirty |
| PyIr.Scf.SetDefault | impl/py/src/jeff/op/scf.py:191-200 | the region is parented with `_set_parent`, whose error leaves the switch unchanged; otherwise it is stored and the switch is dirty |
| PyIr.Scf.SetBody | impl/py/src/jeff/op/scf.py:265-271 | the region is parented with `_set_parent`, whose error leaves the loop unchanged; otherwise it becomes the body and the loop is dirty (also lines 358-364 and 434-440) |
| PyIr.Scf.SetCondition | impl/py/src/jeff/op/scf.py:340-346 | the same as `SetBody`, for the condition (also lines 452-458) |
| PyIr.Scf.ParentFunc | impl/py/src/jeff/op/scf.py:85-90 | no function without an owning op, otherwise that op's function |
| PyIr.Scf.OpKind | impl/py/src/jeff/op/scf.py:80-83 | the `SCF` kind, whose kind string is `scf` |
| PyIr.JeffOp.constructor | impl/py/src/jeff/op/__init__.py:47-57 | both lists and the op type are stored, a structured-control-flow op type is linked back to the op, and the op is dirty and detached |
| PyIr.JeffOp.Inputs | impl/py/src/jeff/op/__init__.py:128-142 | the cached list; otherwise `ValueError` without a function or a buffer; otherwise the buffer's input ids looked up in order in the function's value table and cached, succeeding whenever all of them are stored |
| PyIr.JeffOp.Outputs | impl/py/src/jeff/op/__init__.py:152-165 | the same as `Inputs`, for the output ids |
| PyIr.JeffOp.SetInputs | impl/py/src/jeff/op/__init__.py:144-150 | under a function every value is first added to its value table, and an exception leaves the list unchanged; then the list is stored and the op is dirty |
| PyIr.JeffOp.SetOutputs | impl/py/src/jeff/op/__init__.py:167-173 | the same as `SetInputs`, for the outputs |
| PyIr.JeffOp.SetOpType | impl/py/src/jeff/op/__init__.py:179-183 | the op type is linked back to the op and stored, and the op is dirty |
| PyIr.JeffOp.Kind | impl/py/src/jeff/op/__init__.py:187-189 | `QUBIT_GATE` exactly for a gate, `QUBIT` exactly for a non-unitary op, `SCF` exactly for a structured-control-flow op |
| PyIr.JeffOp.GetValue | impl/py/src/jeff/op/__init__.py:193-199 | `ValueError` without a function; otherwise the value table lookup, `IndexError` out of bounds and the stored value when the id is stored |
| PyIr.JeffOp.Write | impl/py/src/jeff/op/__init__.py:96-124 | on success the record holds the ids of the inputs and outputs in position plus the kind string, and the op is clean; with both lists cached it succeeds exactly when every value has an id, the op is not non-unitary and the op type's own write succeeds; an id-less input raises `TypeError`, a non-unitary op `ValueError`, and a failing op-type write its own error; a failure leaves the dirty flag as it was |
| PyIr.JeffOp.WriteIds | impl/py/src/jeff/op/__init__.py:102-110 | the lists read are the cached inputs and outputs; it succeeds exactly when every value in them has an id, and an id-less value raises `TypeError` |
| PyIr.JeffOp.WriteKind | impl/py/src/jeff/op/__init__.py:112-124 | succeeds exactly when the op is not non-unitary and the op type's write succeeds, leaving the op clean; a non-unitary op raises `ValueError`; a failure leaves the dirty flag unchanged |
| PyIr.BfsStep | impl/py/src/jeff/region.py:205-222 | one turn of the loop after any prefix already yielded: the head is yielded next, then the walk ends with its ops' failure or goes on with the rest of the deque followed by its ops' regions and one less fuel |
| PyIr.StopBefore | impl/py/src/jeff/region.py:205-206 | the walk goes on to yield the head exactly when the deque is non-empty, fuel is left and (as written) the head has operations; an empty deque raises `IndexError` as written and finishes as intended |
| PyIr.BfsYieldsQueueFirst | impl/py/src/jeff/region.py:203-222 | breadth-first order under either loop condition: the regions already queued are yielded first, in queue order, when each of them can be walked |
| PyIr.FlatOpsChildren | impl/py/src/jeff/region.py:209-222 | ops that are not structured control flow queue no region |
| PyIr.FlatRegionRaises | impl/py/src/jeff/region.py:203-207 | a non-empty region without structured control flow is yielded alone, and the walk then raises `IndexError` on the empty deque |
| PyIr.FlatRegionFinishes | impl/py/src/jeff/region.py:205-207 | corrected: under `while queue:` the same region, or one with no operations, is yielded and the walk finishes |
| PyIr.WhileLoopOrder | impl/py/src/jeff/region.py:216-219 | under either loop condition, a region holding one while loop is followed by the loop's condition and then its body |
| PyIr.GatheredSingle | impl/py/src/jeff/value.py:60-66 | a walk that yields one region gathers its sources, its targets and then its ops' values |
| PyIr.OneOpAppearances | impl/py/src/jeff/value.py:63-66 | a region with one op whose lists are cached contributes that op's inputs and then its outputs |
| PyIr.OneOpWalks | impl/py/src/jeff/region.py:205-222 | from a region holding one gate, the written walk yields it and raises `IndexError`, the intended walk yields it and finishes, and both gather the same values |
| PyIr.Listed | impl/py/src/jeff/value.py:61 | a getter read during the walk gives the cached list when there is one, and otherwise an exception |
| PyIr.CollectFromRegion | impl/py/src/jeff/value.py:38-85 | under the given loop condition, succeeds exactly when the walk finishes and every yielded region and op lists its values; then a fresh table owns every gathered value, numbered as `PyValue.ValueTable.Collect` numbers them, and every value without an id gets one |
| PyIr.WalkAndGather | impl/py/src/jeff/value.py:60-66 | walking the regions breadth-first and gathering each one's values yields exactly `Gathered` and ends the way `Bfs` does |
| PyIr.GatheredStartsWith | impl/py/src/jeff/value.py:60-62 | the first values gathered are the starting region's sources and then its targets |
| PyIr.Function.Declare | impl/py/src/jeff/function.py:243-247 | a declaration caching its name, inputs and outputs, detached and dirty |
| PyIr.Function.Blank | impl/py/src/jeff/function.py:141-152 | a definition object before `__init__` assigns anything: no name, body or table, and dirty |
| PyIr.Function.IsDeclaration | impl/py/src/jeff/function.py:112-120 | a function is a declaration exactly when it is not a definition |
| PyIr.Function.Name | impl/py/src/jeff/function.py:85-98 | the cached name; otherwise `ValueError` without a module or a buffer; otherwise the module's string table lookup of the buffer's index, cached on success, keeping the string table consistent |
| PyIr.Function.SetName | impl/py/src/jeff/function.py:100-103 | the name is cached and the function is dirty |
| PyIr.Function.SetTable | impl/py/src/jeff/function.py:205-209 | the table is replaced and the function is dirty |
| PyIr.Function.SetBody | impl/py/src/jeff/function.py:193-199 | `AttributeError` exactly when the region's operations cannot be listed, changing nothing; otherwise every operation joins the function, the region's parent is the function, the body is stored and the function is dirty |
| PyIr.Function.Len | impl/py/src/jeff/function.py:231-233 | the body's operation count, `AttributeError` without a body |
| PyIr.Function.Get | impl/py/src/jeff/function.py:227-229 | `IndexError` exactly outside `[0, len)`; otherwise the body's operation at that index when the body holds them |
| PyIr.Function.DeclInputs | impl/py/src/jeff/function.py:281-288 | the cached list; otherwise a value per encoded input with its decoded type, succeeding exactly when every type decodes, and cached; without a declaration buffer `AttributeError` |
| PyIr.Function.DeclOutputs | impl/py/src/jeff/function.py:295-302 | the same as `DeclInputs`, for the outputs |
| PyIr.Function.SetDeclInputs | impl/py/src/jeff/function.py:290-293 | the inputs are cached and the function is dirty |
| PyIr.Function.SetDeclOutputs | impl/py/src/jeff/function.py:304-307 | the outputs are cached and the function is dirty |
| PyIr.Function.Signature | impl/py/src/jeff/function.py:221-225 | a definition's source and target types, or a declaration's input and output types (also lines 311-315); with the lists cached it always succeeds with exactly their types |
| PyIr.Function.NewDefinition | impl/py/src/jeff/function.py:154-164 | as written, with the written walk: the collection's error comes first; then any body with a source or target raises `AttributeError`, and only an empty signature defines the function |
| PyIr.Function.NewDefinitionCorrected | impl/py/src/jeff/function.py:154-164 | with the table assigned before attaching and the intended walk: when the walk completes, a body whose signature values have no id is accepted, and every source and target is registered in the new table |
| PyIr.Function.CollectForBody | impl/py/src/jeff/function.py:154 | with the intended walk, the collected table is bounded and holds only gathered values, every signature value that had no id fits it, and its errors are those of the collection |
| PyIr.Function.Attach | impl/py/src/jeff/function.py:158-164 | attaching the body with no table raises `AttributeError` for any source or target; with the collected table it can only raise `ValueError`, and never when every value fits |
| PyIr.Function.Hook | impl/py/src/jeff/function.py:157 | `body._set_parent` on a new definition whose table is `early`: every operation joins it, no table means `AttributeError` for any source or target, and a table every value fits means success |
| PyIr.Function.Fill | impl/py/src/jeff/function.py:160-164 | the name, body and table are stored, nothing else changes, and the function is dirty |
| PyIr.AsWrittenRejectsSignature | impl/py/src/jeff/function.py:154-164 | `FunctionDef("f", Region([Value(QubitType())], [], []))` raises `AttributeError` |
| PyIr.CorrectedAcceptsSignature | impl/py/src/jeff/function.py:154-164 | the same call succeeds once the table is assigned first and the walk yields the empty body |
| PyIr.NewGateBody | impl/py/src/jeff/region.py:39-48 | `Region([a], [b], [JeffOp(H, [a], [b])])` holds exactly those lists and one gate op, with `a` and `b` unnumbered |
| PyIr.AsWrittenRejectsGateBody | impl/py/src/jeff/function.py:154-164 | `FunctionDef` over a body holding one gate raises `IndexError` from the written walk |
| PyIr.CorrectedAcceptsGateBody | impl/py/src/jeff/function.py:154-164 | the same body is accepted by the corrected constructor |
| PyIr.GateName | impl/py/src/jeff/string_table.py:52-53 | exactly one name, the gate's own, for a custom gate, and none for any other op |
| PyIr.GateRegionNames | impl/py/src/jeff/string_table.py:51-53 | in a region of gates the loop meets no exception and lists the name of every custom gate |
| PyIr.InsertAll | impl/py/src/jeff/string_table.py:50-53 | every name ends up in the table, names already present keep their index, and the table stays consistent |
| PyIr.UpdateWithFunction | impl/py/src/jeff/string_table.py:40-55 | the function's name (`ValueError` when it cannot be read) and then every custom gate name the walk from the body meets are inserted; without a body `AttributeError`; the walk's exception comes last, after the names before it are inserted |
| PyIr.ListNames | impl/py/src/jeff/string_table.py:50-53 | the custom gate names the walk from the body meets and how the walk ends |
| PyIr.UpdateWithWalk | impl/py/src/jeff/string_table.py:48-53 | the same as `UpdateWithFunction` once the walk is listed; no name already in the table is lost |
| PyIr.Module.FromBuffer | impl/py/src/jeff/module.py:103-115 | the header and function count come from the buffer, the string table reads lazily, there is no function dict, and the module is clean |
| PyIr.Module.Blank | impl/py/src/jeff/module.py:58 | a module before `__init__` assigns anything but a new, empty and consistent string table |
| PyIr.Module.New | impl/py/src/jeff/module.py:49-76 | every function is owned, every definition's name and gate names are interned; the tool fields fall back as a pair to "jeff-py" and the package version "0.1.0" (`__init__.py` line 41); with every definition named it succeeds exactly when each definition has a body and its walk finishes |
| PyIr.Module.Build | impl/py/src/jeff/module.py:58-76 | the same as `New`, once each function's walk is listed |
| PyIr.Module.Header | impl/py/src/jeff/module.py:60-64 | the entrypoint and version as given, the tool fields defaulted as a pair, and the module dirty (also lines 72-76) |
| PyIr.Module.ListAll | impl/py/src/jeff/module.py:66-69 | the walk of each function in turn, in order |
| PyIr.Module.SetFunctions | impl/py/src/jeff/module.py:157-169 | on success the slots are the list, the count its length, each function owned and each definition interned, and the module dirty; an exception leaves the slots as they were; the header never changes |
| PyIr.Module.AssignFunctions | impl/py/src/jeff/module.py:160-169 | the same as `SetFunctions`, once each function's walk is listed |
| PyIr.Module.AdoptAll | impl/py/src/jeff/module.py:160-166 | each function in turn is owned and each definition interned, stopping at the first exception; with every definition named it succeeds exactly when each definition has a body and its walk finishes |
| PyIr.Module.AdoptNext | impl/py/src/jeff/module.py:161-166 | one turn adopts and interns its function, keeps earlier functions interned, and fails only for a definition with no body or an unfinished walk |
| PyIr.Module.Adopt | impl/py/src/jeff/module.py:164-166 | the function is owned; a declaration always succeeds; a named definition raises `AttributeError` without a body and otherwise the walk's exception or nothing |
| PyIr.Module.Get | impl/py/src/jeff/module.py:200-213 | `IndexError` exactly outside `[0, len)`; success exactly in range with a function dict, giving the slot |
| PyIr.Module.Set | impl/py/src/jeff/module.py:215-226 | `IndexError` out of range with nothing changed; otherwise the function is owned and replaces only that slot, and the count never changes |
| PyIr.Module.Functions | impl/py/src/jeff/module.py:152-155 | `self[0]`, ..., `self[len-1]` when every slot can be fetched, otherwise the first fetch's exception (also lines 232-234) |
| PyIr.Module.Refresh | impl/py/src/jeff/module.py:78-92 | a clean module is left alone and succeeds; a dirty one has the outcome of its write; the module is clean afterwards exactly when the call succeeds, so a write that raises leaves it dirty |
| PyBuilders.CheckValues | impl/py/src/jeff/__init__.py:197-204 | succeeds exactly when every value's type is of the expected class, and otherwise raises `ValueError` |
| PyBuilders.FreshValues | impl/py/src/jeff/__init__.py:108 | one new, unnumbered value per type, with exactly those types in order |
| PyBuilders.Qubits | impl/py/src/jeff/__init__.py:108 | `n` qubit types |
| PyBuilders.QubitAlloc | impl/py/src/jeff/__init__.py:66-70 | a new alloc op with no inputs and one new, unnumbered qubit output |
| PyBuilders.QubitFree | impl/py/src/jeff/__init__.py:73-77 | a new free op whose only input is the qubit, with no outputs |
| PyBuilders.QuantumGate | impl/py/src/jeff/__init__.py:80-109 | succeeds exactly when the qubits and controls are qubits and the parameters floats (`ValueError` otherwise); the gate is the one `from_gate_name` picks for the counts, with the controls, adjoint flag and power; inputs are qubits, controls, parameters; one new qubit output per qubit and control |
| PyBuilders.PauliRotation | impl/py/src/jeff/__init__.py:112-145 | a name that is not a Pauli raises `ValueError` first, then a length mismatch `AssertionError`, then the type checks `ValueError`; on success a Pauli-product rotation of the converted string, inputs qubits, controls, angle, and one new qubit output per input before the angle |
| PyBuilders.SameSignatureIsEqualTypes | impl/py/src/jeff/__init__.py:174-185 | the four assertions on a region hold exactly when its source types and target types equal the first branch's |
| PyBuilders.Checked | impl/py/src/jeff/__init__.py:173 | the branches, followed by the default exactly when one is given and has an operation |
| PyBuilders.CheckSwitch | impl/py/src/jeff/__init__.py:171-188 | succeeds exactly when the index is an int, there is a first branch, every checked region has its signature and the arguments agree with its source types; otherwise `ValueError`, `IndexError` or `AssertionError` in that order |
| PyBuilders.SwitchCase | impl/py/src/jeff/__init__.py:156-194 | succeeds exactly when the checks pass, changing nothing otherwise; the op is a new switch over the branches and default with every branch and the default parented to it and nothing else of them changed, inputs the index then the arguments, and new outputs with the first branch's target types |

## Left out

- Reading and writing bytes: `write_out`, `load_module`, `Jeff::read`/`read_slice` decoding, and the capnp builders. The model starts from an already decoded message (`RsMessage`, and the reader records of `PyIr`).
- `_write_to_buffer` of values, value tables, string tables, regions, functions and the module is left out; the model writes only an op record (`PyIr.JeffOp.Write`) and types (`PyType.WriteType`).
- PyIr.JeffOp.Write: the op type's own encoding (a gate through the string table, a structured-control-flow op with its nested regions) is the parameter `payload`; its failures, such as a nested non-unitary op's `ValueError`, come in through it. The exception pycapnp raises when `None` is stored in an id list is taken to be `TypeError`.
- PyIr.JeffOp.Write: on success the source also replaces the op's raw reader with the message just written (op/__init__.py:123); the model leaves `raw` as it was. No modelled getter sees the difference, because after a successful write both value lists are cached and are read first.
- PyIr.Module.Refresh: the module's encoding is the parameter `payload`; its failures come in through it, such as the `ValueError` of a non-unitary op (op/__init__.py:120-121). The message it writes is not modelled, because module writing is left out.
- `_force_read_all` is not modelled: it reads every lazy field, drops the buffer and marks each object dirty. That includes its calls from the `functions` setter of `Module` and from the switch `branches` and `default` setters. For objects built in memory every list is cached, but a value table is read at every index below its length (value.py:106-108). `add` of a value whose id is past the length leaves holes below it (value.py:140-144), and reading a hole with no buffer raises `ValueError`.
- PyIr.Scf.FromBuffer: because force-reading is left out, it captures the switch case only through its outcome (a switch with a branch or a default raises `ValueError`), not the read attempts on each region.
- Dirty propagation: `_mark_dirty` on a value table, string table, op, function or structured-control-flow op also marks its owner dirty. The model keeps each object's own flag only, and the back-pointers `ValueTable._func` and `StringTable._module` are not fields of the model.
- PyIr.Region.SubregionsBfs: the walk is bounded by `fuel`; a walk that would yield more regions than the bound stops with `OutOfFuel`, which the source has no counterpart for.
- PyIr.CollectFromRegion: with the same `fuel` bound; a value list still unread from a buffer stops gathering with `NotRead` instead of being looked up, because a program under construction caches every list.
- PyIr.CollectFromRegion: numbers the gathered values with the corrected id loop (`PyValue.ValueTable.Collect`) under either walk. The source always runs the written loop of value.py:69-83, which drops a taken id when no id-less value is waiting (`PyValue.AsWrittenDropsLastKey`). So under `AsWritten`, and hence in PyIr.Function.NewDefinition, the model's table can hold a numbered value that the source's table lacks.
- PyIr.Module.New: success is characterised exactly only when every definition already has a cached name. Otherwise only the Ok-case properties are stated. The same holds for PyIr.Module.SetFunctions, PyIr.Module.Build, PyIr.Module.AssignFunctions and PyIr.Module.AdoptAll. Their success conditions also ignore the `ValueError` that force-reading raises on a definition whose value table has a hole, so for such a module they promise `Ok` where the source raises.
- PyIr.Module.Build: ignores the force-read `ValueError` on a value table with a hole, as PyIr.Module.New does.
- PyIr.Module.SetFunctions: ignores the force-read `ValueError` on a value table with a hole, as PyIr.Module.New does.
- PyIr.Module.AssignFunctions: ignores the force-read `ValueError` on a value table with a hole, as PyIr.Module.New does.
- PyIr.Module.AdoptAll: ignores the force-read `ValueError` on a value table with a hole, as PyIr.Module.New does.
- PyBuilders.SwitchCase: requires every branch and the default to have cached `sources` and `targets`, as every region built in memory does. A region read from a buffer would go through the getters, which may raise. PyBuilders.CheckSwitch and PyBuilders.Checked have the same requirement.
- PyBuilders.PauliRotation: the source converts string names in the caller's own list in place; the model converts into a new list and does not model the mutation of the argument.
- `__str__` of regions, ops, functions and the module, and `qualified_name` of gates, are left out; they only format text. The string forms of types and the qualified names of the non-unitary operations are modelled.
- Gate `_read_from_buffer` and the integer and float operation readers of the Rust side (`int.rs`, `float.rs`) are not part of this model.
- The Python package as shipped cannot be imported. `capnp/__init__.py` sets `schema = None`, and classes subclass `CapnpBuffer[schema.X, ...]`. `region.py` matches on `FunctionDef()` and `Scf()`, which it imports only for type checking. The model gives each method the meaning it has once those names resolve.
- The Python `KnownGate` has no `R1`, while the Rust well-known gate set has `R1`, `GPhase` and `I`. The local `WellKnownGate` of `qubit.rs` has no arm for `GPhase` or `I` and reaches `unimplemented!`. Each catalogue is modelled as written, and the panic is a precondition of `RsQubit.ReadWellKnown`.
- Rust panics (`expect`, indexing past the end of a capnp list, `unimplemented!`) are preconditions. Panicking is not modelled as a value.
- `region.rs` expects the value table to yield `WireValue`, while `value.rs` returns `Value`; the two files are from different revisions. Both are modelled with one value record whose id is optional.
- The capnp binding is not part of this model; of its behaviour only the range check on the `UInt8` width fields is kept, as the `KjException` that `PyType.WriteType` returns.
- PyType.WriteTypeAsWritten: for a float-array type, the model lets the write succeed and places the failure at the read; pycapnp may instead reject the enum member when it is assigned.
- `WellKnownGate._write_to_buffer` assigns the `KnownGate` member itself to the `wellKnown` field (impl/py/src/jeff/op/qubit/gate.py:303), the same pattern as the float-array finding. Gate writing is not part of this model (`PyIr.JeffOp.Write` takes its outcome as `payload`), so this is only noted here.
- Text.Lower: lower-cases ASCII letters only, while Python's `str.lower` is Unicode-aware. The names matched against are ASCII, but a non-ASCII letter whose lower case is ASCII (the Kelvin sign lowers to `k`) could match in the source and not in the model.
- Metadata is read but its keys are not interned by `_update_with_function`, which the source also leaves as a to-do.

## Findings

| source | as written | input that shows it | evidently intended | confidence | as-written member | corrected member |
|---|---|---|---|---|---|---|
| impl/py/src/jeff/value.py:69-83 | when no id-less value is waiting, the loop jumps to the next taken id without first storing the current one, so that taken id is dropped; while values are waiting, taken ids are stored | two values already numbered 0 and 1 and none waiting: only id 0 ends up in the table | every value that carries an id is stored at that id, and waiting values fill the free ids in order | not executed | PyValue.AsWrittenDropsLastKey | PyValue.ValueTable.AssignIds |
| impl/py/src/jeff/function.py:154-164 | `FunctionDef.__init__` calls `body._set_parent(self)` before it assigns `self._value_table`, and attaching adds the body's sources and targets to that table | `FunctionDef("f", Region([Value(QubitType())], [], []))` raises `AttributeError` | the collected table is assigned first, so the signature values are registered in it | not executed | PyIr.AsWrittenRejectsSignature | PyIr.Function.NewDefinitionCorrected |
| impl/rs/src/reader/metadata.rs:99-102 | `try_metadata` compares and indexes with `n as u32`, which wraps | `try_metadata(2^32)` on a one-entry list returns the first entry | `None` whenever `n` is at least the metadata count | not executed | RsMetadata.TryMetadataWrapsAround | RsMetadata.MetadataList.TryMetadataChecked |
| impl/rs/src/reader/optype/control_flow.rs:181-184 | `try_branch` compares and indexes with `n as u32`, which wraps | `try_branch(2^32)` on a one-branch switch returns the first branch | `None` whenever `n` is at least the branch count | not executed | RsControlFlow.TryBranchWrapsAround | RsControlFlow.SwitchOp.TryBranchChecked |
| impl/py/src/jeff/type.py:142-147 | `FloatArrayType` assigns the `FloatPrecision` member itself to the capnp field, where `FloatType` assigns its string value; `FloatPrecision` is a plain `Enum`, so the type does not round-trip. Whether pycapnp rejects the member at the write or stores something that reading (which calls `lower()`) then rejects is not confirmed; the model places the failure at the read, as an `AttributeError` | `FloatArrayType(FloatPrecision.FLOAT32)` written and read back | the precision's string value is written, so every type round-trips | not executed | PyType.FloatArrayAsWrittenDoesNotRoundTrip | PyType.WriteReadRoundTrip |
| impl/py/src/jeff/region.py:205-207 | `while region := queue.popleft()` pops without checking the deque, so a walk that has yielded every region raises `IndexError`; a region with no operations is falsy and ends the walk before the regions queued after it | `FunctionDef("f", Region([a], [b], [JeffOp(H, [a], [b])]))` raises `IndexError` from `_collect_from_region` | `while queue:` pops and yields every region, so the walk ends when the deque is empty | not executed | PyIr.AsWrittenRejectsGateBody | PyIr.Function.NewDefinitionCorrected |
| impl/py/src/jeff/op/qubit/non_unitary.py:78-81 | `qualified_name` formats `self.op_kind`, a plain `Enum` member, and an f-string renders it as `OpKind.QUBIT`, while the docstring promises the `qubit.` prefix | `str(QubitAlloc())` gives `OpKind.QUBIT.alloc` | `f"{self.op_kind.value}.{self.name}"`, giving `qubit.alloc` | not executed | PyNonUnitary.QualifiedNameLacksPrefix | PyNonUnitary.NonUnitaryOp.DocumentedName |
