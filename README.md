# Running a WebAssembly export from Starlark

This project models, in Dafny, the way Bazel's Starlark `wasm_module` runs a
WebAssembly function. The model covers:

- **The host.** `StarlarkWasmModule` parses a module and remembers the name of
  the module's allocator export (default `bazel_wasm_allocate`). Each
  `execute(function_name, input)` builds a fresh instance and calls
  `_initialize` when the instance exports it. It then:
  1. calls the allocator for `len(input)` bytes and writes the input there;
  2. calls the allocator for an 8-byte descriptor and zeroes its two 4-byte
     slots;
  3. calls the target as `(input_ptr, input_len, output_ptr_slot,
     output_len_slot)`;
  4. reads the status (the target's first result, narrowed to `int`), the
     output pointer (signed) and the output length (unsigned, then narrowed to
     `int`);
  5. decodes that many bytes of guest memory as ISO/IEC 8859-1 text, or uses
     the empty text when the length is not positive.

  An allocator answer of 0 is an allocation failure naming the requested
  size.
- **The result value.** `StarlarkWasmExecutionResult` holds the status and the
  text.
- **An example guest.** `tomlwasm.go` is a Go program that exports a
  registering allocator and `toml_to_json`.

Guest exports are pure functions from the guest's state (linear memory plus
private bookkeeping) and 64-bit arguments to a completion (trapped, or
returned with results).

The host side is imperative:
- a `Memory` object updated in place;
- an `Instance` holding that memory, the guest's bookkeeping and the exports;
- methods `Alloc`, `WasmModule.ExecuteOn` and `WasmModule.Execute`.

Each method is proved equal to a specification function: `AllocSpec`, `RunOn`
or `ExecuteSpec`. Every call into the guest is also recorded in a ghost trace
of `Invocation`s, so the lemmas can speak about the order and the arguments of
the calls and the memory each call sees. The lemmas about the specification
functions cover:
- call order;
- early stops on failure;
- where the input sits;
- the zeroed descriptor;
- where the output comes from.

Linear memory is byte-addressed with bounds checks. 32-bit values are stored
little-endian, as section 4.4.7 (memory instructions) of the WebAssembly Core
Specification 2.0 requires. Java's `int` narrowing `(int)` and `int`
addition (`paramsPtr + 4`) wrap modulo 2^32; the model writes this out as
`ToInt32`.

The Go guest is modelled as:
- a bump allocator over a fixed-size memory, where running out of memory is a
  trap;
- the `buffers` registry as a map from pointer to length;
- `tomlToJson`, parameterised by the TOML decoder, the JSON encoder and the
  error-object encoder it calls.

`TomlThroughHost.TomlToJsonThroughHost` connects the two sides. Take a guest
started in any state whose heap bookkeeping is consistent (`HeapValid`: the
heap top lies inside memory above address 0 and every registered buffer below
it), whose memory is at most 2^31 bytes, and in which the input, the 8-byte
descriptor and the output fit above the heap top. From such a state,
`execute("toml_to_json", input)` returns exactly `tomlToJson`'s status and
output.

Files:
- `words.dfy`: integer widths and casts;
- `latin1.dfy`: the ISO/IEC 8859-1 decoding;
- `linear_memory.dfy`: memory and its `Memory` object;
- `guest.dfy`: guest exports and the `Instance` object;
- `execution_result.dfy`: the result value;
- `wasm_module.dfy`: the host protocol;
- `host_properties.dfy`: lemmas about the protocol;
- `tomlwasm.dfy`: the Go guest;
- `end_to_end.dfy`: the guest run through the host.

## Model

Paths are relative to the repository root.

| member | source | states |
|---|---|---|
| Words.ToInt32 | src/main/java/com/google/devtools/build/lib/bazel/repository/starlark/StarlarkWasmModule.java:94 | Java's `(int)` narrowing: the result is a 32-bit signed value congruent to the argument modulo 2^32, equal to it when it already fits |
| Words.ToU32 | src/main/java/com/google/devtools/build/lib/bazel/repository/starlark/StarlarkWasmModule.java:96 | the unsigned 32-bit value congruent to the argument modulo 2^32 |
| Words.ToInt32Congruent | src/main/java/com/google/devtools/build/lib/bazel/repository/starlark/StarlarkWasmModule.java:111 | two integers narrow to the same `int` exactly when they agree modulo 2^32 |
| Words.SignedUnsignedRoundTrip | src/main/java/com/google/devtools/build/lib/bazel/repository/starlark/StarlarkWasmModule.java:95-96 | narrowing an `int`'s unsigned 32-bit reading gives the `int` back, and both readings keep the same 32 bits |
| Words.PositiveAsInt32 | src/main/java/com/google/devtools/build/lib/bazel/repository/starlark/StarlarkWasmModule.java:96-99 | an unsigned length narrowed to `int` is positive exactly when it is between 1 and 2^31 - 1; larger ones read as negative |
| Latin1.Decode | src/main/java/com/google/devtools/build/lib/bazel/repository/starlark/StarlarkWasmModule.java:101 | ISO-8859-1 decoding: one character per byte, with that byte's value as code point |
| Latin1.EncodeDecode | src/main/java/com/google/devtools/build/lib/bazel/repository/starlark/StarlarkWasmModule.java:101 | encoding the decoded text gives back the bytes: no output byte is lost or altered |
| Latin1.DecodeEncode | src/main/java/com/google/devtools/build/lib/bazel/repository/starlark/StarlarkWasmModule.java:101 | every text of code points below 256 is the decoding of its encoding |
| Latin1.AllByteValuesSurvive | src/main/java/com/google/devtools/build/lib/bazel/repository/starlark/StarlarkWasmModule.java:101 | all 256 byte values decode, in order, to the characters with code points 0 to 255 |
| LinearMemory.Store | src/main/java/com/google/devtools/build/lib/bazel/repository/starlark/StarlarkWasmModule.java:85 | `memory.write` succeeds exactly in bounds; the written range holds the data and every other byte is unchanged |
| LinearMemory.Load | src/main/java/com/google/devtools/build/lib/bazel/repository/starlark/StarlarkWasmModule.java:100 | `memory.readBytes` succeeds exactly in bounds and yields the bytes at those addresses |
| LinearMemory.LoadI32 | src/main/java/com/google/devtools/build/lib/bazel/repository/starlark/StarlarkWasmModule.java:95 | `readInt` succeeds exactly in bounds, and its result differs from the little-endian value of the four bytes by 0 or 2^32 (their signed reading) |
| LinearMemory.DecodeEncodeLE32 | src/main/java/com/google/devtools/build/lib/bazel/repository/starlark/StarlarkWasmModule.java:90-91 | a 32-bit value written little-endian decodes back to itself |
| LinearMemory.EncodeDecodeLE32 | src/main/java/com/google/devtools/build/lib/bazel/repository/starlark/StarlarkWasmModule.java:95-96 | any four bytes are the encoding of the value they decode to |
| LinearMemory.StoreU32 | src/main/java/com/google/devtools/build/lib/bazel/repository/starlark/StarlarkWasmModule.java:90-91 | `writeI32` succeeds exactly in bounds, keeps the memory's size and puts the value's four little-endian bytes at the address |
| LinearMemory.LoadU32 | src/main/java/com/google/devtools/build/lib/bazel/repository/starlark/StarlarkWasmModule.java:96 | `readU32` succeeds exactly in bounds with b0 + 2^8 b1 + 2^16 b2 + 2^24 b3 of the four bytes there |
| LinearMemory.LoadAfterStore | src/main/java/com/google/devtools/build/lib/bazel/repository/starlark/StarlarkWasmModule.java:85 | a range just written reads back as the written data |
| LinearMemory.LoadOutsideStore | src/main/java/com/google/devtools/build/lib/bazel/repository/starlark/StarlarkWasmModule.java:85 | a write leaves every disjoint range reading as before |
| LinearMemory.LoadFrame | src/main/java/com/google/devtools/build/lib/bazel/repository/starlark/StarlarkWasmModule.java:85 | a range whose bytes did not change reads the same |
| LinearMemory.LoadU32AfterStoreU32 | src/main/java/com/google/devtools/build/lib/bazel/repository/starlark/StarlarkWasmModule.java:90-91 | a 32-bit word just written reads back as the written value |
| LinearMemory.LoadI32AfterStoreU32 | src/main/java/com/google/devtools/build/lib/bazel/repository/starlark/StarlarkWasmModule.java:90-95 | an `int` written with `writeI32` reads back unchanged with `readInt` |
| LinearMemory.LoadOutsideStoreU32 | src/main/java/com/google/devtools/build/lib/bazel/repository/starlark/StarlarkWasmModule.java:90-91 | a 32-bit write leaves every disjoint range reading as before |
| LinearMemory.Memory.Write | src/main/java/com/google/devtools/build/lib/bazel/repository/starlark/StarlarkWasmModule.java:85 | `write` in place: fails exactly out of bounds, changing nothing; otherwise the bytes become `Store`'s |
| LinearMemory.Memory.WriteI32 | src/main/java/com/google/devtools/build/lib/bazel/repository/starlark/StarlarkWasmModule.java:90-91 | `writeI32` in place: stores the 32 bits of the value little-endian, failing exactly out of bounds |
| LinearMemory.Memory.ReadInt | src/main/java/com/google/devtools/build/lib/bazel/repository/starlark/StarlarkWasmModule.java:95 | `readInt`: succeeds exactly in bounds; the result differs from the unsigned word by 0 or 2^32 |
| LinearMemory.Memory.ReadU32 | src/main/java/com/google/devtools/build/lib/bazel/repository/starlark/StarlarkWasmModule.java:96 | `readU32`: succeeds exactly in bounds with the little-endian value of the four bytes |
| LinearMemory.Memory.ReadBytes | src/main/java/com/google/devtools/build/lib/bazel/repository/starlark/StarlarkWasmModule.java:100 | `readBytes`: succeeds exactly in bounds with a copy of those bytes |
| Guest.Instance.constructor | src/main/java/com/google/devtools/build/lib/bazel/repository/starlark/StarlarkWasmModule.java:68 | a fresh instance whose state is the module's initial state, without running a start function |
| Guest.Instance.Export | src/main/java/com/google/devtools/build/lib/bazel/repository/starlark/StarlarkWasmModule.java:69 | `instance.export(name)`: the named export, or none when the instance lacks it |
| Guest.Instance.Apply | src/main/java/com/google/devtools/build/lib/bazel/repository/starlark/StarlarkWasmModule.java:93 | `apply`: the instance's state becomes the completion's state, and the completion is the export's on the old state |
| ExecutionResults.ExecutionResult.IsImmutable | src/main/java/com/google/devtools/build/lib/bazel/repository/starlark/StarlarkWasmExecutionResult.java:37-40 | the result value is immutable |
| ExecutionResults.ExecutionResult.GetReturnCode | src/main/java/com/google/devtools/build/lib/bazel/repository/starlark/StarlarkWasmExecutionResult.java:46-48 | `return_code`: together with the output it rebuilds the value |
| ExecutionResults.ExecutionResult.GetOutput | src/main/java/com/google/devtools/build/lib/bazel/repository/starlark/StarlarkWasmExecutionResult.java:54-56 | `output`: together with the status it rebuilds the value |
| ExecutionResults.GettersReturnConstructorArguments | src/main/java/com/google/devtools/build/lib/bazel/repository/starlark/StarlarkWasmExecutionResult.java:32-35 | `return_code` and `output` return exactly what the result was built with |
| ExecutionResults.FieldsDetermineValue | src/main/java/com/google/devtools/build/lib/bazel/repository/starlark/StarlarkWasmExecutionResult.java:29-35 | two results with the same status and output are the same value |
| WasmHost.AllocSpec | src/main/java/com/google/devtools/build/lib/bazel/repository/starlark/StarlarkWasmModule.java:106-112 | `alloc`: an allocation failure naming the size exactly when the allocator answers 0; success exactly when it answers non-zero, with the answer narrowed to 32 bits; a trap is a guest error |
| WasmHost.ZeroTestPrecedesTruncation | src/main/java/com/google/devtools/build/lib/bazel/repository/starlark/StarlarkWasmModule.java:108-111 | the zero test sees the whole 64-bit answer: an answer of 2^32 passes it and yields address 0 |
| WasmHost.Alloc | src/main/java/com/google/devtools/build/lib/bazel/repository/starlark/StarlarkWasmModule.java:106-112 | the method performs `AllocSpec` on an instance: same outcome, same new state |
| WasmHost.DecodeOutput | src/main/java/com/google/devtools/build/lib/bazel/repository/starlark/StarlarkWasmModule.java:95-103 | slots out of bounds give an out-of-bounds error; a narrowed length of 0 or less gives the empty text whatever the output pointer holds; otherwise exactly that many characters, the i-th being the byte at pointer + i, or an out-of-bounds error |
| WasmHost.UnreadableLengthGivesEmptyOutput | src/main/java/com/google/devtools/build/lib/bazel/repository/starlark/StarlarkWasmModule.java:96-99 | a length slot holding 0 or 2^31 and more yields the empty output whatever the address slot holds |
| WasmHost.TargetRun | src/main/java/com/google/devtools/build/lib/bazel/repository/starlark/StarlarkWasmModule.java:93-103 | the target is called once exactly when it is exported; success means that call was made; failures are runtime errors, and a missing export names the target |
| WasmHost.ZeroThenCall | src/main/java/com/google/devtools/build/lib/bazel/repository/starlark/StarlarkWasmModule.java:88-103 | at most the one target call; success means it was made; failures are runtime errors |
| WasmHost.RunDescriptor | src/main/java/com/google/devtools/build/lib/bazel/repository/starlark/StarlarkWasmModule.java:87-103 | one or two calls, two on success; failures are runtime errors |
| WasmHost.RunOn | src/main/java/com/google/devtools/build/lib/bazel/repository/starlark/StarlarkWasmModule.java:79-104 | at most three guest calls, three on success; the first happens exactly when the allocator is exported; failures are allocation failures or runtime errors, a missing export naming one the instance lacks |
| WasmHost.ExecuteSpec | src/main/java/com/google/devtools/build/lib/bazel/repository/starlark/StarlarkWasmModule.java:66-77 | at most four guest calls, at least three on success; no initial state gives a trap and no calls; failures are never parse errors |
| WasmHost.ReadOutput | src/main/java/com/google/devtools/build/lib/bazel/repository/starlark/StarlarkWasmModule.java:95-103 | the method reads the descriptor and output as `DecodeOutput` does |
| WasmHost.NewModule | src/main/java/com/google/devtools/build/lib/bazel/repository/starlark/StarlarkWasmModule.java:45-55 | a module exactly when the bytes parse, holding the parsed image and the given allocator name; otherwise a parse error |
| WasmHost.NewDefaultModule | src/main/java/com/google/devtools/build/lib/bazel/repository/starlark/StarlarkWasmModule.java:41-43 | as `NewModule`, with the allocator `bazel_wasm_allocate` |
| WasmHost.WasmModule.IsImmutable | src/main/java/com/google/devtools/build/lib/bazel/repository/starlark/StarlarkWasmModule.java:57-60 | the module value is immutable |
| WasmHost.WasmModule.Execute | src/main/java/com/google/devtools/build/lib/bazel/repository/starlark/StarlarkWasmModule.java:66-77 | the method's result and guest calls are those of `ExecuteSpec` on a fresh instance, so they depend only on the module value and the arguments: nothing carries over between calls |
| WasmHost.WasmModule.ExecuteOn | src/main/java/com/google/devtools/build/lib/bazel/repository/starlark/StarlarkWasmModule.java:79-104 | the method's result, guest calls and final instance state are those of `RunOn` |
| WasmHost.WasmModule.CallWithDescriptor | src/main/java/com/google/devtools/build/lib/bazel/repository/starlark/StarlarkWasmModule.java:87-103 | the descriptor part performs `RunDescriptor`: same result, calls and state |
| WasmHost.ZeroDescriptorThenCall | src/main/java/com/google/devtools/build/lib/bazel/repository/starlark/StarlarkWasmModule.java:88-103 | zeroing the slots and calling the target performs `ZeroThenCall` |
| WasmHost.CallTarget | src/main/java/com/google/devtools/build/lib/bazel/repository/starlark/StarlarkWasmModule.java:93-103 | the target call and decoding perform `TargetRun` |
| HostProperties.RecordedCallsAreGuestCalls | src/main/java/com/google/devtools/build/lib/bazel/repository/starlark/StarlarkWasmModule.java:79-104 | every recorded call names an existing export, and its completion is that export's on the recorded state and arguments |
| HostProperties.CallOrder | src/main/java/com/google/devtools/build/lib/bazel/repository/starlark/StarlarkWasmModule.java:84-93 | at most three calls: the allocator for `len(input)` on the starting state, then the allocator for 8, then the target; the first happens exactly when the allocator exists; success means all three |
| HostProperties.FailedInputAllocationStopsRun | src/main/java/com/google/devtools/build/lib/bazel/repository/starlark/StarlarkWasmModule.java:84-87 | an answer of 0 to the input allocation is an allocation failure for `len(input)`, with no further call and no write |
| HostProperties.AllocFailureMeansZeroAddress | src/main/java/com/google/devtools/build/lib/bazel/repository/starlark/StarlarkWasmModule.java:106-110 | every allocation failure comes from the last call, an allocator call that answered 0, and names the size that call requested |
| HostProperties.InputWrittenVerbatim | src/main/java/com/google/devtools/build/lib/bazel/repository/starlark/StarlarkWasmModule.java:84-87 | the second allocator call sees the input verbatim at the first answer, and everything else as the allocator left it |
| HostProperties.ZeroThenCallReachesTarget | src/main/java/com/google/devtools/build/lib/bazel/repository/starlark/StarlarkWasmModule.java:88-93 | when the target is reached, both slot writes succeeded and the target runs on the zeroed memory |
| HostProperties.TargetRunCall | src/main/java/com/google/devtools/build/lib/bazel/repository/starlark/StarlarkWasmModule.java:93 | the target call is made on the state it is given, with `(inputPtr, inputLen, ptrSlot, lenSlot)` |
| HostProperties.ZeroedSlotsReadZero | src/main/java/com/google/devtools/build/lib/bazel/repository/starlark/StarlarkWasmModule.java:88-91 | when both slot writes succeed, `paramsPtr + 4` did not wrap and both slots read 0 |
| HostProperties.TargetSeesZeroedDescriptor | src/main/java/com/google/devtools/build/lib/bazel/repository/starlark/StarlarkWasmModule.java:88-93 | a target reached after zeroing receives `(inputPtr, inputLen, slot, slot + 4)` with both slots reading 0 |
| HostProperties.TargetRunSucceeded | src/main/java/com/google/devtools/build/lib/bazel/repository/starlark/StarlarkWasmModule.java:93-103 | a successful target step made one call with `(inputPtr, inputLen, ptrSlot, lenSlot)` that returned a status, and decoded the descriptor it left |
| HostProperties.DescriptorZeroedBeforeTarget | src/main/java/com/google/devtools/build/lib/bazel/repository/starlark/StarlarkWasmModule.java:84-93 | the target receives the narrowed input pointer, `len(input)`, the slot and slot + 4, and both slots read 0 in the memory it starts with |
| HostProperties.DescriptorOutcome | src/main/java/com/google/devtools/build/lib/bazel/repository/starlark/StarlarkWasmModule.java:87-103 | with a descriptor in memory, the outcome is the target's completion on the zeroed descriptor, decoded |
| HostProperties.DescriptorRunSucceeded | src/main/java/com/google/devtools/build/lib/bazel/repository/starlark/StarlarkWasmModule.java:87-103 | after the input, success means both remaining calls returned, and the result is decoded from the descriptor the target filled in |
| HostProperties.OutputComesFromDescriptor | src/main/java/com/google/devtools/build/lib/bazel/repository/starlark/StarlarkWasmModule.java:79-104 | a successful run made all three calls, ends in the state the target left, and returns the target's narrowed status with the output its descriptor describes |
| HostProperties.PublishedOutputIsReturned | src/main/java/com/google/devtools/build/lib/bazel/repository/starlark/StarlarkWasmModule.java:94-103 | bytes a guest publishes through the slots are returned, decoded, together with its status |
| HostProperties.InitializeFirstIffExported | src/main/java/com/google/devtools/build/lib/bazel/repository/starlark/StarlarkWasmModule.java:68-73 | `_initialize` is the first call, with no arguments on the fresh state, exactly when exported, and the protocol then runs on the state it leaves |
| HostProperties.ExecuteFailuresAreRuntimeErrors | src/main/java/com/google/devtools/build/lib/bazel/repository/starlark/StarlarkWasmModule.java:66-77 | `execute` never fails with a parse error, only with allocation failures or guest-runtime errors; a missing export names one the module lacks. This counts `MissingExport` and `MissingResult` as guest-runtime errors, though Java raises unchecked exceptions there (see "Left out") |
| TomlWasm.Make | examples/exec-wasm/tomlwasm/tomlwasm.go:27 | `make` succeeds exactly when memory has room: a zero-filled buffer at the old heap top, the rest of memory unchanged |
| TomlWasm.TomlToJson | examples/exec-wasm/tomlwasm/tomlwasm.go:45-63 | status 0 with the JSON exactly when decoding and encoding both succeed; otherwise status 1 with the error object of the first failure |
| TomlWasm.AllocateStep | examples/exec-wasm/tomlwasm/tomlwasm.go:23-31 | the allocator export keeps memory's size, never lowers the heap top, and returns exactly one result |
| TomlWasm.ConvertStep | examples/exec-wasm/tomlwasm/tomlwasm.go:34-43 | the conversion export keeps memory's size, never lowers the heap top, and returns exactly one result, 0 or 1 |
| TomlWasm.Publish | examples/exec-wasm/tomlwasm/tomlwasm.go:38-42 | publishing keeps memory's size and, when it returns, answers `tomlToJson`'s status and raises the heap top by the output's length |
| TomlWasm.Exports | examples/exec-wasm/tomlwasm/tomlwasm.go:22-34 | the guest exports exactly `bazel_wasm_allocate` and `toml_to_json` |
| TomlWasm.AllocateRefusesLargeSizes | examples/exec-wasm/tomlwasm/tomlwasm.go:23-26 | sizes above MaxInt32 get nil and change nothing |
| TomlWasm.AllocateFreshBuffer | examples/exec-wasm/tomlwasm/tomlwasm.go:23-31 | any other size gets a fresh zero-filled buffer above nil, disjoint from every registered buffer and registered under its pointer, with the rest of memory unchanged; a trap happens only when memory is exhausted |
| TomlWasm.ConvertReturns | examples/exec-wasm/tomlwasm/tomlwasm.go:34-43 | with a readable input, room for the output and two non-nil slots in memory, the conversion returns |
| TomlWasm.PublishOutput | examples/exec-wasm/tomlwasm/tomlwasm.go:38-42 | publishing stores the output at the old heap top, its pointer and length in the two slots, registers it, and keeps the heap valid |
| TomlWasm.SlotsAfterOutput | examples/exec-wasm/tomlwasm/tomlwasm.go:40-41 | storing the output's address and length in two disjoint slots below it keeps the output readable and makes the slots read back address and length |
| TomlWasm.ConvertPublishesOutput | examples/exec-wasm/tomlwasm/tomlwasm.go:34-43 | a returning conversion converts exactly the input bytes, returns `tomlToJson`'s status, and publishes its output as `PublishOutput` says |
| TomlWasm.TomlWasmGuest.constructor | examples/exec-wasm/tomlwasm/tomlwasm.go:20 | the guest's globals start from the given state |
| TomlWasm.TomlWasmGuest.MakeBuffer | examples/exec-wasm/tomlwasm/tomlwasm.go:27 | the method performs `Make` in place |
| TomlWasm.TomlWasmGuest.BazelWasmAllocate | examples/exec-wasm/tomlwasm/tomlwasm.go:23-31 | the method performs the allocator export in place: nil for large sizes, otherwise the old heap top, registered |
| TomlWasm.TomlWasmGuest.WasmTomlToJson | examples/exec-wasm/tomlwasm/tomlwasm.go:34-43 | the method performs the conversion export in place, trapping exactly when the export does |
| TomlThroughHost.TomlModule | examples/exec-wasm/tomlwasm/tomlwasm.go:22-34 | the host module for this guest uses the default allocator name, which the guest exports |
| TomlThroughHost.ConvertOnDescriptor | examples/exec-wasm/tomlwasm/tomlwasm.go:34-43 | on a zeroed descriptor that is the last buffer, the conversion returns the status and leaves the output right above the descriptor |
| TomlThroughHost.TargetAndReadBack | src/main/java/com/google/devtools/build/lib/bazel/repository/starlark/StarlarkWasmModule.java:93-103 | the host reads back exactly the guest's status and output |
| TomlThroughHost.ReadBackAboveDescriptor | src/main/java/com/google/devtools/build/lib/bazel/repository/starlark/StarlarkWasmModule.java:94-103 | a status and an output published right above the descriptor, below 2^31, are read back exactly |
| TomlThroughHost.HostAllocation | examples/exec-wasm/tomlwasm/tomlwasm.go:23-31 | the host's allocator call for a non-zero size that fits answers the heap top, bumps it and keeps the heap valid |
| TomlThroughHost.ZeroedDescriptorReadBack | src/main/java/com/google/devtools/build/lib/bazel/repository/starlark/StarlarkWasmModule.java:88-103 | zeroing the descriptor keeps the input readable, and the target call then reads back the conversion's result |
| TomlThroughHost.DescriptorThroughReadBack | src/main/java/com/google/devtools/build/lib/bazel/repository/starlark/StarlarkWasmModule.java:87-103 | from the descriptor allocation on, the host returns `tomlToJson`'s result |
| TomlThroughHost.TomlToJsonThroughHost | src/main/java/com/google/devtools/build/lib/bazel/repository/starlark/StarlarkWasmModule.java:66-104 | when the input, the descriptor and the output fit in memory, `execute("toml_to_json", input)` returns `tomlToJson`'s status and its output decoded byte for byte |

## Left out

- `getPath` and the `path` field: only the module's location, kept for diagnostics; nothing in the model depends on it.
- The Starlark annotations, and thread-sharing under `@Immutable`: concurrency is not modelled.
- The WebAssembly runtime itself (parsing, instantiation, interpretation): the parser is a parameter of `NewModule`, and a module image supplies the initial state and the export functions.
- The memory lookup `instance.memory()`: every instance is taken to have one memory, and a module whose instantiation fails has no initial state (a guest-runtime error).
- A missing allocator or target export. The code's null test on `_initialize` shows that `instance.export` answers null for an absent name (lines 81-82). The first use of that null is `allocFn.apply` (line 107) or `function.apply` (line 93), which throws a NullPointerException. That is an unchecked exception, which `catch (ChicoryException e)` at line 74 does not convert to an evaluation error. The model reports it at that same point as the guest-runtime error `MissingExport` instead.
- An export that returns no value: Java indexes an empty result array here, which throws an unchecked exception that is not converted to an evaluation error. The model reports it as the guest-runtime error `MissingResult` instead.
- Error messages: an allocation failure carries the requested size, not the formatted text, and guest-runtime errors carry a kind (trap, out of bounds, missing export, missing result), not the runtime's diagnostic.
- `PAGE_SIZE` is imported but unused.
- Non-termination of guest code and resource limits: every export call completes.
- WasmHost.WasmModule.Execute: requires `len(input) <= 2^31 - 1`, the length bound of a Java array, which the model makes explicit.
- The Go guest's heap is modelled as a bump allocator over memory of fixed size. Memory growth, garbage collection and Go's real heap layout are left out, and running out of memory is a trap.
- TomlWasm.TomlToJson: the TOML decoder, the JSON encoder and the error-object encoder (`toml.Unmarshal`, `json.Marshal`, `fmt.Sprintf`) are parameters, so nothing is proved about TOML or JSON syntax.
- TomlThroughHost.TomlToJsonThroughHost: the starting state `s0` stands for the guest after its runtime's initialisation, including the package initialiser that creates `buffers` (tomlwasm.go line 20). How the compiled module reaches that state is not modelled: the runtime exports of the tinygo build, such as a possible `_initialize`, are not part of the model, and the modelled guest exports neither `_initialize` nor a start function. The lemma also assumes `HeapValid(s0)`, a memory of at most 2^31 bytes (so every pointer is a non-negative `int`), and room for the input, the descriptor and the output above the heap top.
- TomlWasm.TomlWasmGuest.WasmTomlToJson: registering the output buffer before its pointer is stored (lines 39-40) shows only in the method's order of statements; the contract states the final state.
