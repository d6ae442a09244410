/** The host side of the calling convention for running a WebAssembly export
    (StarlarkWasmModule.java): a parsed module with the name of its allocator
    export, and `execute`, which builds a fresh instance, runs `_initialize`
    when the instance has it, and then
      1. asks the allocator for `|input|` bytes and writes the input there,
      2. asks the allocator for an 8-byte descriptor and zeroes both 4-byte slots,
      3. calls the target as `(inputPtr, inputLen, outPtrSlot, outLenSlot)`,
      4. reads back the status, the output pointer and the output length, and
         decodes that many bytes as ISO/IEC 8859-1 text.
    `RunOn` and `ExecuteSpec` state the whole protocol as functions; the
    methods `Alloc`, `WasmModule.ExecuteOn` and `WasmModule.Execute` perform
    it step by step on an `Instance` and are proved equal to them. */
module WasmHost {
  import opened Words
  import opened LinearMemory
  import opened Guest
  import opened ExecutionResults
  import Latin1

  const DEFAULT_ALLOCATE_FN: string := "bazel_wasm_allocate"
  const INITIALIZE_FN: string := "_initialize"
  /** Two 4-byte slots: the output pointer, then the output length. */
  const DESCRIPTOR_SIZE: Int64 := 8
  const SLOT_SIZE: Int32 := 4

  /** A failure inside the guest runtime. `MissingExport` is a call through
      an export the instance does not have; `MissingResult` is a call that
      returned no value where the host reads the first one. Java raises
      unchecked exceptions in these two cases (a null dereference, an index
      out of range); the model reports them as guest-runtime faults. */
  datatype Fault = Trap | OutOfBounds | MissingExport(name: string) | MissingResult

  /** The errors the script sees. */
  datatype EvalError =
    | ParseError
    | AllocFailure(size: Int64)
    | GuestError(fault: Fault)

  datatype Result<T> = Ok(value: T) | Err(error: EvalError)

  /** A failure of `execute` is never a parse error, and a missing export
      names one the instance does not have. */
  predicate OnlyRuntimeErrors<T, G>(r: Result<T>, exports: map<string, ExportFn<G>>) {
    r.Err? ==>
      && (r.error.AllocFailure? || r.error.GuestError?)
      && (r.error.GuestError? && r.error.fault.MissingExport? ==> r.error.fault.name !in exports)
  }

  /** The outcome of one host step and the instance state after it. */
  datatype Step<T, G> = Step(outcome: Result<T>, state: GuestState<G>)

  /** The outcome of running on an instance, the calls made into the guest,
      in order, and the instance state at the end. */
  datatype Run<G> = Run(outcome: Result<ExecutionResult>, calls: seq<Invocation<G>>, after: GuestState<G>)

  /** The outcome of a whole `execute` and the calls it made; the instance it
      built is discarded. */
  datatype Session<G> = Session(outcome: Result<ExecutionResult>, calls: seq<Invocation<G>>)

  /** `alloc`: one allocator call for `size` bytes. A first result of 0 is an
      allocation failure naming the size; the zero test looks at the whole
      64-bit result, and only then is the address narrowed to 32 bits. */
  function AllocSpec<G>(allocFn: ExportFn<G>, s: GuestState<G>, size: Int64): (st: Step<Int32, G>)
    ensures st.state == allocFn(s, [size]).state
    ensures st.outcome == Err(AllocFailure(size)) <==>
              allocFn(s, [size]).Returned? && |allocFn(s, [size]).results| > 0 && allocFn(s, [size]).results[0] == 0
    ensures st.outcome.Ok? <==>
              allocFn(s, [size]).Returned? && |allocFn(s, [size]).results| > 0 && allocFn(s, [size]).results[0] != 0
    ensures st.outcome.Ok? ==> (allocFn(s, [size]).results[0] - st.outcome.value) % TWO_32 == 0
    ensures allocFn(s, [size]).Trapped? ==> st.outcome == Err(GuestError(Trap))
  {
    match allocFn(s, [size])
    case Trapped(s') => Step(Err(GuestError(Trap)), s')
    case Returned(s', results) =>
      if |results| == 0 then Step(Err(GuestError(MissingResult)), s')
      else if results[0] == 0 then Step(Err(AllocFailure(size)), s')
      else Step(Ok(ToInt32(results[0])), s')
  }

  /** A 64-bit allocator result that is not 0 but whose low 32 bits are
      passes the zero test and yields address 0. */
  lemma ZeroTestPrecedesTruncation<G>(allocFn: ExportFn<G>, s: GuestState<G>, size: Int64)
    requires allocFn(s, [size]).Returned? && allocFn(s, [size]).results == [TWO_32]
    ensures AllocSpec(allocFn, s, size).outcome == Ok(0)
  {
  }

  /** The read-back: the status and the output the host reads back after the
      target returned. The output pointer is read signed, the length unsigned
      and then narrowed to `int`, so a length of 0 or of 2^31 and more gives
      the empty text whatever the output pointer holds; any other length L gives L
      characters, the i-th with the code point of the byte at pointer + i. */
  function DecodeOutput(mem: seq<Byte>, returnCode: Int32, outputPtrPtr: Int32, outputLenPtr: Int32): (r: Result<ExecutionResult>)
    ensures !(InBounds(mem, outputPtrPtr, 4) && InBounds(mem, outputLenPtr, 4)) ==> r == Err(GuestError(OutOfBounds))
    ensures InBounds(mem, outputPtrPtr, 4) && InBounds(mem, outputLenPtr, 4) ==>
              var ptr := LoadI32(mem, outputPtrPtr).value;
              var len := ToInt32(LoadU32(mem, outputLenPtr).value);
              if len <= 0 then
                r == Ok(ExecutionResult(returnCode, ""))
              else if InBounds(mem, ptr, len) then
                && r.Ok? && r.value.returnCode == returnCode && |r.value.output| == len
                && forall i :: 0 <= i < len ==> r.value.output[i] as int == mem[ptr + i] as int
              else
                r == Err(GuestError(OutOfBounds))
  {
    match LoadI32(mem, outputPtrPtr)
    case None => Err(GuestError(OutOfBounds))
    case Some(outputPtr) =>
      match LoadU32(mem, outputLenPtr)
      case None => Err(GuestError(OutOfBounds))
      case Some(rawLen) =>
        var outputLen := ToInt32(rawLen);
        if outputLen > 0 then
          match Load(mem, outputPtr, outputLen)
          case None => Err(GuestError(OutOfBounds))
          case Some(outputBytes) => Ok(ExecutionResult(returnCode, Latin1.Decode(outputBytes)))
        else
          Ok(ExecutionResult(returnCode, ""))
  }

  /** A length slot holding 0, or a value of 2^31 or more (negative once
      narrowed to `int`), yields the empty output whatever the address slot
      holds, provided both slots are readable. */
  lemma {:induction false} UnreadableLengthGivesEmptyOutput(mem: seq<Byte>, returnCode: Int32, outputPtrPtr: Int32, outputLenPtr: Int32)
    requires InBounds(mem, outputPtrPtr, 4) && InBounds(mem, outputLenPtr, 4)
    requires LoadU32(mem, outputLenPtr).value == 0 || LoadU32(mem, outputLenPtr).value > MAX_INT32
    ensures DecodeOutput(mem, returnCode, outputPtrPtr, outputLenPtr) == Ok(ExecutionResult(returnCode, ""))
  {
    PositiveAsInt32(LoadU32(mem, outputLenPtr).value);
  }

  /** What the target's completion makes of the run: a trap or a missing
      status is an error, otherwise the descriptor is decoded. */
  function Finish<G>(c: Completion<G>, outputPtrPtr: Int32, outputLenPtr: Int32): Result<ExecutionResult> {
    match c
    case Trapped(_) => Err(GuestError(Trap))
    case Returned(s, results) =>
      if |results| == 0 then Err(GuestError(MissingResult))
      else DecodeOutput(s.memory, ToInt32(results[0]), outputPtrPtr, outputLenPtr)
  }

  /** The descriptor step, after the input is in place: the descriptor allocation,
      then `ZeroThenCall` on the slot it answered. */
  function RunDescriptor<G>(allocateFn: string, exports: map<string, ExportFn<G>>, s: GuestState<G>,
                            functionName: string, inputPtr: Int32, inputLen: Int32): (run: Run<G>)
    requires allocateFn in exports
    ensures 1 <= |run.calls| <= 2 && (run.outcome.Ok? ==> |run.calls| == 2)
    ensures OnlyRuntimeErrors(run.outcome, exports)
  {
    var allocFn := exports[allocateFn];
    var second := Invocation(allocateFn, [DESCRIPTOR_SIZE], s, allocFn(s, [DESCRIPTOR_SIZE]));
    var a := AllocSpec(allocFn, s, DESCRIPTOR_SIZE);
    if a.outcome.Err? then Run(Err(a.outcome.error), [second], a.state)
    else
      var rest := ZeroThenCall(exports, a.state, functionName, inputPtr, inputLen, a.outcome.value);
      Run(rest.outcome, [second] + rest.calls, rest.after)
  }

  /** Zeroing the descriptor: both slots, at `paramsPtr` and at
      `paramsPtr + 4` in `int` arithmetic, are zeroed, then `TargetRun`. */
  function ZeroThenCall<G>(exports: map<string, ExportFn<G>>, s: GuestState<G>, functionName: string,
                           inputPtr: Int32, inputLen: Int32, paramsPtr: Int32): (run: Run<G>)
    ensures |run.calls| <= 1 && (run.outcome.Ok? ==> |run.calls| == 1)
    ensures OnlyRuntimeErrors(run.outcome, exports)
  {
    var outputLenPtr := ToInt32(paramsPtr + SLOT_SIZE);
    match StoreU32(s.memory, paramsPtr, 0)
    case None => Run(Err(GuestError(OutOfBounds)), [], s)
    case Some(m1) =>
      match StoreU32(m1, outputLenPtr, 0)
      case None => Run(Err(GuestError(OutOfBounds)), [], s.(memory := m1))
      case Some(m2) => TargetRun(exports, s.(memory := m2), functionName, inputPtr, inputLen, paramsPtr, outputLenPtr)
  }

  /** The target call, once the descriptor is zeroed: the target is looked up,
      called with the input and the two slot addresses, and its completion
      decoded. */
  function TargetRun<G>(exports: map<string, ExportFn<G>>, s2: GuestState<G>, functionName: string,
                        inputPtr: Int32, inputLen: Int32, outputPtrPtr: Int32, outputLenPtr: Int32): (run: Run<G>)
    ensures |run.calls| <= 1 && (functionName in exports <==> |run.calls| == 1)
    ensures run.outcome.Ok? ==> |run.calls| == 1 && run.calls[0].name == functionName
    ensures OnlyRuntimeErrors(run.outcome, exports)
  {
    if functionName !in exports then
      Run(Err(GuestError(MissingExport(functionName))), [], s2)
    else
      var args: seq<Int64> := [inputPtr, inputLen, outputPtrPtr, outputLenPtr];
      var c := exports[functionName](s2, args);
      Run(Finish(c, outputPtrPtr, outputLenPtr), [Invocation(functionName, args, s2, c)], c.state)
  }

  /** `execute(instance, functionName, input)` as a function of
      the instance's exports and state. */
  function RunOn<G>(allocateFn: string, exports: map<string, ExportFn<G>>, s0: GuestState<G>,
                    functionName: string, input: seq<Byte>): (run: Run<G>)
    requires |input| <= MAX_INT32
    ensures |run.calls| <= 3 && (run.outcome.Ok? ==> |run.calls| == 3)
    ensures allocateFn in exports <==> |run.calls| >= 1
    ensures OnlyRuntimeErrors(run.outcome, exports)
  {
    if allocateFn !in exports then
      Run(Err(GuestError(MissingExport(allocateFn))), [], s0)
    else
      var allocFn := exports[allocateFn];
      var first := Invocation(allocateFn, [|input|], s0, allocFn(s0, [|input|]));
      var a := AllocSpec(allocFn, s0, |input|);
      if a.outcome.Err? then Run(Err(a.outcome.error), [first], a.state)
      else
        var inputPtr := a.outcome.value;
        match Store(a.state.memory, inputPtr, input)
        case None => Run(Err(GuestError(OutOfBounds)), [first], a.state)
        case Some(m1) =>
          var rest := RunDescriptor(allocateFn, exports, a.state.(memory := m1), functionName, inputPtr, |input|);
          Run(rest.outcome, [first] + rest.calls, rest.after)
  }

  /** `execute(functionName, input)`: a fresh instance without
      its start function, `_initialize` when exported, then `RunOn`. */
  function ExecuteSpec<G>(m: WasmModule<G>, functionName: string, input: seq<Byte>): (session: Session<G>)
    requires |input| <= MAX_INT32
    ensures |session.calls| <= 4 && (session.outcome.Ok? ==> |session.calls| >= 3)
    ensures m.image.initial.None? ==> session == Session(Err(GuestError(Trap)), [])
    ensures OnlyRuntimeErrors(session.outcome, m.image.exports)
  {
    match m.image.initial
    case None => Session(Err(GuestError(Trap)), [])
    case Some(s0) =>
      if INITIALIZE_FN in m.image.exports then
        var c := m.image.exports[INITIALIZE_FN](s0, []);
        var init := Invocation(INITIALIZE_FN, [], s0, c);
        if c.Trapped? then Session(Err(GuestError(Trap)), [init])
        else
          var run := RunOn(m.allocateFn, m.image.exports, c.state, functionName, input);
          Session(run.outcome, [init] + run.calls)
      else
        var run := RunOn(m.allocateFn, m.image.exports, s0, functionName, input);
        Session(run.outcome, run.calls)
  }

  /** The two constructors: parse the module bytes, failing with a parse
      error (and no module) when they are not a module. */
  function NewModule<G>(parse: seq<Byte> -> Option<ModuleImage<G>>, moduleContent: seq<Byte>, allocateFn: string): (r: Result<WasmModule<G>>)
    ensures r.Ok? <==> parse(moduleContent).Some?
    ensures r.Err? ==> r.error == ParseError
    ensures r.Ok? ==> r.value.allocateFn == allocateFn && r.value.image == parse(moduleContent).value
  {
    match parse(moduleContent)
    case None => Err(ParseError)
    case Some(image) => Ok(WasmModule(image, allocateFn))
  }

  /** The one-argument constructor: the allocator export is `bazel_wasm_allocate`. */
  function NewDefaultModule<G>(parse: seq<Byte> -> Option<ModuleImage<G>>, moduleContent: seq<Byte>): (r: Result<WasmModule<G>>)
    ensures r.Ok? <==> parse(moduleContent).Some?
    ensures r.Err? ==> r.error == ParseError
    ensures r.Ok? ==> r.value.allocateFn == "bazel_wasm_allocate" && r.value.image == parse(moduleContent).value
  {
    NewModule(parse, moduleContent, DEFAULT_ALLOCATE_FN)
  }

  /** `alloc(allocFn, size)`, performed on an instance. */
  method Alloc<G>(instance: Instance<G>, allocFn: ExportFn<G>, size: Int64) returns (r: Result<Int32>)
    modifies instance, instance.memory
    ensures r == AllocSpec(allocFn, old(instance.State()), size).outcome
    ensures instance.State() == AllocSpec(allocFn, old(instance.State()), size).state
  {
    var allocResult := instance.Apply(allocFn, [size]);
    if allocResult.Trapped? {
      r := Err(GuestError(Trap));
    } else if |allocResult.results| == 0 {
      r := Err(GuestError(MissingResult));
    } else if allocResult.results[0] == 0 {
      r := Err(AllocFailure(size));
    } else {
      r := Ok(ToInt32(allocResult.results[0]));
    }
  }

  /** A parsed module and the name of its allocator export. It never changes
      after construction. */
  datatype WasmModule<!G> = WasmModule(image: ModuleImage<G>, allocateFn: string) {

    function IsImmutable(): (b: bool)
      ensures b
    {
      true
    }

    /** `execute(functionName, input)`. */
    method Execute(functionName: string, input: seq<Byte>) returns (r: Result<ExecutionResult>, ghost calls: seq<Invocation<G>>)
      requires |input| <= MAX_INT32
      ensures r == ExecuteSpec(this, functionName, input).outcome
      ensures calls == ExecuteSpec(this, functionName, input).calls
    {
      if image.initial.None? {
        return Err(GuestError(Trap)), [];
      }
      var instance := new Instance(image.initial.value, image.exports);
      var initFn := instance.Export(INITIALIZE_FN);
      calls := [];
      if initFn.Some? {
        ghost var s0 := instance.State();
        var c := instance.Apply(initFn.value, []);
        calls := [Invocation(INITIALIZE_FN, [], s0, c)];
        if c.Trapped? {
          r := Err(GuestError(Trap));
          return;
        }
      }
      ghost var rest;
      r, rest := ExecuteOn(instance, functionName, input);
      calls := calls + rest;
    }

    /** `execute(instance, functionName, input)`: the protocol on an instance
        the caller built. The input allocation and write are here; the rest is
        `CallWithDescriptor`. */
    method ExecuteOn(instance: Instance<G>, functionName: string, input: seq<Byte>)
        returns (r: Result<ExecutionResult>, ghost calls: seq<Invocation<G>>)
      requires |input| <= MAX_INT32
      modifies instance, instance.memory
      ensures r == RunOn(allocateFn, instance.exports, old(instance.State()), functionName, input).outcome
      ensures calls == RunOn(allocateFn, instance.exports, old(instance.State()), functionName, input).calls
      ensures instance.State() == RunOn(allocateFn, instance.exports, old(instance.State()), functionName, input).after
    {
      var memory := instance.memory;
      var allocFn := instance.Export(allocateFn);
      var target := instance.Export(functionName);
      if allocFn.None? {
        return Err(GuestError(MissingExport(allocateFn))), [];
      }

      ghost var s0 := instance.State();
      var inputPtr := Alloc(instance, allocFn.value, |input|);
      ghost var first := Invocation(allocateFn, [|input|], s0, allocFn.value(s0, [|input|]));
      if inputPtr.Err? {
        return Err(inputPtr.error), [first];
      }
      var wrote := memory.Write(inputPtr.value, input);
      if !wrote {
        return Err(GuestError(OutOfBounds)), [first];
      }
      ghost var rest;
      r, rest := CallWithDescriptor(instance, allocFn.value, target, functionName, inputPtr.value, |input|);
      calls := [first] + rest;
    }

    /** The descriptor, the target call and the read-back. */
    method CallWithDescriptor(instance: Instance<G>, allocFn: ExportFn<G>, target: Option<ExportFn<G>>,
                              functionName: string, inputPtr: Int32, inputLen: Int32)
        returns (r: Result<ExecutionResult>, ghost calls: seq<Invocation<G>>)
      requires allocateFn in instance.exports && allocFn == instance.exports[allocateFn]
      requires target.Some? <==> functionName in instance.exports
      requires target.Some? ==> target.value == instance.exports[functionName]
      modifies instance, instance.memory
      ensures r == RunDescriptor(allocateFn, instance.exports, old(instance.State()), functionName, inputPtr, inputLen).outcome
      ensures calls == RunDescriptor(allocateFn, instance.exports, old(instance.State()), functionName, inputPtr, inputLen).calls
      ensures instance.State() == RunDescriptor(allocateFn, instance.exports, old(instance.State()), functionName, inputPtr, inputLen).after
    {
      ghost var s1 := instance.State();
      var paramsPtr := Alloc(instance, allocFn, DESCRIPTOR_SIZE);
      calls := [Invocation(allocateFn, [DESCRIPTOR_SIZE], s1, allocFn(s1, [DESCRIPTOR_SIZE]))];
      if paramsPtr.Err? {
        r := Err(paramsPtr.error);
        return;
      }
      ghost var rest;
      r, rest := ZeroDescriptorThenCall(instance, target, functionName, inputPtr, inputLen, paramsPtr.value);
      calls := calls + rest;
    }
  }

  /** Zeroes both descriptor slots, then `CallTarget`. */
  method ZeroDescriptorThenCall<G>(instance: Instance<G>, target: Option<ExportFn<G>>, functionName: string,
                                   inputPtr: Int32, inputLen: Int32, paramsPtr: Int32)
      returns (r: Result<ExecutionResult>, ghost calls: seq<Invocation<G>>)
    requires target.Some? <==> functionName in instance.exports
    requires target.Some? ==> target.value == instance.exports[functionName]
    modifies instance, instance.memory
    ensures var run := ZeroThenCall(instance.exports, old(instance.State()), functionName, inputPtr, inputLen, paramsPtr);
            && r == run.outcome
            && calls == run.calls
            && instance.State() == run.after
  {
    var memory := instance.memory;
    var outputPtrPtr := paramsPtr;
    var outputLenPtr := ToInt32(paramsPtr + SLOT_SIZE);
    var ok := memory.WriteI32(outputPtrPtr, 0);
    if !ok {
      return Err(GuestError(OutOfBounds)), [];
    }
    ok := memory.WriteI32(outputLenPtr, 0);
    if !ok {
      return Err(GuestError(OutOfBounds)), [];
    }
    r, calls := CallTarget(instance, target, functionName, inputPtr, inputLen, outputPtrPtr, outputLenPtr);
  }

  /** The target call, once the descriptor is zeroed: a missing target fails
      here, otherwise the target call, its status and the decoding of the
      descriptor it filled in. */
  method CallTarget<G>(instance: Instance<G>, target: Option<ExportFn<G>>, functionName: string,
                       inputPtr: Int32, inputLen: Int32, outputPtrPtr: Int32, outputLenPtr: Int32)
      returns (r: Result<ExecutionResult>, ghost calls: seq<Invocation<G>>)
    requires target.Some? <==> functionName in instance.exports
    requires target.Some? ==> target.value == instance.exports[functionName]
    modifies instance, instance.memory
    ensures var run := TargetRun(instance.exports, old(instance.State()), functionName, inputPtr, inputLen, outputPtrPtr, outputLenPtr);
            && r == run.outcome
            && calls == run.calls
            && instance.State() == run.after
  {
    if target.None? {
      return Err(GuestError(MissingExport(functionName))), [];
    }
    ghost var s2 := instance.State();
    var args: seq<Int64> := [inputPtr, inputLen, outputPtrPtr, outputLenPtr];
    var execResult := instance.Apply(target.value, args);
    calls := [Invocation(functionName, args, s2, execResult)];
    if execResult.Trapped? {
      r := Err(GuestError(Trap));
      return;
    }
    if |execResult.results| == 0 {
      r := Err(GuestError(MissingResult));
      return;
    }
    var returnCode := ToInt32(execResult.results[0]);
    r := ReadOutput(instance.memory, returnCode, outputPtrPtr, outputLenPtr);
  }

  /** The read-back: the descriptor and the output it points at. */
  method ReadOutput(memory: Memory, returnCode: Int32, outputPtrPtr: Int32, outputLenPtr: Int32) returns (r: Result<ExecutionResult>)
    ensures r == DecodeOutput(memory.bytes, returnCode, outputPtrPtr, outputLenPtr)
  {
    var outputPtr := memory.ReadInt(outputPtrPtr);
    var outputLenRaw := memory.ReadU32(outputLenPtr);
    if outputPtr.None? || outputLenRaw.None? {
      return Err(GuestError(OutOfBounds));
    }
    var outputLen := ToInt32(outputLenRaw.value);

    var output := "";
    if outputLen > 0 {
      var outputBytes := memory.ReadBytes(outputPtr.value, outputLen);
      if outputBytes.None? {
        return Err(GuestError(OutOfBounds));
      }
      output := Latin1.Decode(outputBytes.value);
    }
    r := Ok(ExecutionResult(returnCode, output));
  }
}
