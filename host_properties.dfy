/** What the host protocol guarantees for every guest: the order and the
    arguments of its calls into the guest, what memory holds before each of
    them, how failures stop the run, and where the result comes from. */
module HostProperties {
  import opened Words
  import opened LinearMemory
  import opened Guest
  import opened ExecutionResults
  import opened WasmHost
  import Latin1

  /** Every recorded call is a real call of the named export: its completion
      is what that export does on the recorded state and arguments. */
  lemma RecordedCallsAreGuestCalls<G>(allocateFn: string, exports: map<string, ExportFn<G>>, s0: GuestState<G>,
                                      functionName: string, input: seq<Byte>)
    requires |input| <= MAX_INT32
    ensures var run := RunOn(allocateFn, exports, s0, functionName, input);
            forall i :: 0 <= i < |run.calls| ==>
              run.calls[i].name in exports &&
              run.calls[i].completion == exports[run.calls[i].name](run.calls[i].before, run.calls[i].args)
  {
  }

  /** The allocator is called first for the input length, then for the
      8-byte descriptor, and the target last; a successful run makes exactly
      these three calls. */
  lemma CallOrder<G>(allocateFn: string, exports: map<string, ExportFn<G>>, s0: GuestState<G>,
                     functionName: string, input: seq<Byte>)
    requires |input| <= MAX_INT32
    ensures var run := RunOn(allocateFn, exports, s0, functionName, input);
            && |run.calls| <= 3
            && (allocateFn in exports <==> |run.calls| >= 1)
            && (|run.calls| >= 1 ==> run.calls[0].name == allocateFn && run.calls[0].args == [|input|] && run.calls[0].before == s0)
            && (|run.calls| >= 2 ==> run.calls[1].name == allocateFn && run.calls[1].args == [DESCRIPTOR_SIZE])
            && (|run.calls| == 3 ==> run.calls[2].name == functionName)
            && (run.outcome.Ok? ==> |run.calls| == 3)
  {
  }

  /** When the first allocation answers 0 the run fails with an allocation
      failure for the input length, and nothing else happens: no write, no
      second allocation, no target call. */
  lemma FailedInputAllocationStopsRun<G>(allocateFn: string, exports: map<string, ExportFn<G>>, s0: GuestState<G>,
                                         functionName: string, input: seq<Byte>)
    requires |input| <= MAX_INT32
    requires allocateFn in exports
    requires exports[allocateFn](s0, [|input|]).Returned?
    requires |exports[allocateFn](s0, [|input|]).results| > 0 && exports[allocateFn](s0, [|input|]).results[0] == 0
    ensures var run := RunOn(allocateFn, exports, s0, functionName, input);
            && run.outcome == Err(AllocFailure(|input|))
            && |run.calls| == 1
            && run.after == exports[allocateFn](s0, [|input|]).state
  {
  }

  /** An allocation failure always comes from an allocator call, the last
      call of the run, that answered 0, and it names the size that call asked
      for; the target is never reached. */
  lemma AllocFailureMeansZeroAddress<G>(allocateFn: string, exports: map<string, ExportFn<G>>, s0: GuestState<G>,
                                        functionName: string, input: seq<Byte>)
    requires |input| <= MAX_INT32
    requires RunOn(allocateFn, exports, s0, functionName, input).outcome.Err?
    requires RunOn(allocateFn, exports, s0, functionName, input).outcome.error.AllocFailure?
    ensures var run := RunOn(allocateFn, exports, s0, functionName, input);
            var last := run.calls[|run.calls| - 1];
            && 1 <= |run.calls| <= 2
            && last.name == allocateFn
            && last.completion.Returned? && |last.completion.results| > 0 && last.completion.results[0] == 0
            && [run.outcome.error.size] == last.args
  {
  }

  /** Right after the first allocation the input sits verbatim at the address
      it returned, and every other byte and the rest of the guest state are
      as the allocator left them; this is the state the second allocator call
      sees. */
  lemma InputWrittenVerbatim<G>(allocateFn: string, exports: map<string, ExportFn<G>>, s0: GuestState<G>,
                                functionName: string, input: seq<Byte>)
    requires |input| <= MAX_INT32
    requires |RunOn(allocateFn, exports, s0, functionName, input).calls| >= 2
    ensures var run := RunOn(allocateFn, exports, s0, functionName, input);
            var c := run.calls[0].completion;
            var seen := run.calls[1].before;
            && c.Returned? && |c.results| > 0 && c.results[0] != 0
            && var inputPtr := ToInt32(c.results[0]);
               && Load(seen.memory, inputPtr, |input|) == Some(input)
               && |seen.memory| == |c.state.memory|
               && seen.store == c.state.store
               && forall i :: 0 <= i < |seen.memory| && !(inputPtr <= i < inputPtr + |input|) ==>
                    seen.memory[i] == c.state.memory[i]
  {
    var run := RunOn(allocateFn, exports, s0, functionName, input);
    var c := run.calls[0].completion;
    var inputPtr := ToInt32(c.results[0]);
    LoadAfterStore(c.state.memory, inputPtr, input);
  }

  /** Once the target is called, both slot writes succeeded and the target
      runs on memory with both descriptor slots zeroed. */
  lemma ZeroThenCallReachesTarget<G>(exports: map<string, ExportFn<G>>, s: GuestState<G>, functionName: string,
                                     inputPtr: Int32, inputLen: Int32, paramsPtr: Int32)
    requires ZeroThenCall(exports, s, functionName, inputPtr, inputLen, paramsPtr).outcome.Ok? ||
             |ZeroThenCall(exports, s, functionName, inputPtr, inputLen, paramsPtr).calls| > 0
    ensures var high := ToInt32(paramsPtr + SLOT_SIZE);
            && StoreU32(s.memory, paramsPtr, 0).Some?
            && StoreU32(StoreU32(s.memory, paramsPtr, 0).value, high, 0).Some?
            && var zeroed := StoreU32(StoreU32(s.memory, paramsPtr, 0).value, high, 0).value;
               ZeroThenCall(exports, s, functionName, inputPtr, inputLen, paramsPtr) ==
                 TargetRun(exports, s.(memory := zeroed), functionName, inputPtr, inputLen, paramsPtr, high)
  {
  }

  /** A successful target run made one call, with the input and the two slot
      addresses, ends in the state it left, and decodes the descriptor. */
  lemma TargetRunSucceeded<G>(exports: map<string, ExportFn<G>>, s2: GuestState<G>, functionName: string,
                              inputPtr: Int32, inputLen: Int32, outputPtrPtr: Int32, outputLenPtr: Int32)
    requires TargetRun(exports, s2, functionName, inputPtr, inputLen, outputPtrPtr, outputLenPtr).outcome.Ok?
    ensures var run := TargetRun(exports, s2, functionName, inputPtr, inputLen, outputPtrPtr, outputLenPtr);
            && |run.calls| == 1
            && var c := run.calls[0].completion;
               && run.calls[0].args == [inputPtr, inputLen, outputPtrPtr, outputLenPtr]
               && c.Returned? && |c.results| > 0
               && run.after == c.state
               && run.outcome == DecodeOutput(c.state.memory, ToInt32(c.results[0]), outputPtrPtr, outputLenPtr)
  {
  }

  /** When the target is called after zeroing the descriptor at `slot`, it
      receives `(inputPtr, inputLen, slot, slot + 4)`, both slot addresses
      are non-negative `int`s, and both slots read 0. */
  lemma {:induction false} TargetSeesZeroedDescriptor<G>(exports: map<string, ExportFn<G>>, s: GuestState<G>, functionName: string,
                                                         inputPtr: Int32, inputLen: Int32, slot: Int32)
    requires |ZeroThenCall(exports, s, functionName, inputPtr, inputLen, slot).calls| == 1
    ensures var call := ZeroThenCall(exports, s, functionName, inputPtr, inputLen, slot).calls[0];
            && 0 <= slot && slot + 4 <= MAX_INT32
            && call.args == [inputPtr, inputLen, slot, slot + 4]
            && LoadU32(call.before.memory, slot) == Some(0)
            && LoadU32(call.before.memory, slot + 4) == Some(0)
  {
    ZeroThenCallReachesTarget(exports, s, functionName, inputPtr, inputLen, slot);
    var m1 := StoreU32(s.memory, slot, 0).value;
    var high := ToInt32(slot + SLOT_SIZE);
    ZeroedSlotsReadZero(s.memory, slot);
    TargetRunCall(exports, s.(memory := StoreU32(m1, high, 0).value), functionName, inputPtr, inputLen, slot, high);
  }

  /** The one call of a target run is made on the state it was given, with
      the input and the two slot addresses. */
  lemma TargetRunCall<G>(exports: map<string, ExportFn<G>>, s2: GuestState<G>, functionName: string,
                         inputPtr: Int32, inputLen: Int32, outputPtrPtr: Int32, outputLenPtr: Int32)
    requires |TargetRun(exports, s2, functionName, inputPtr, inputLen, outputPtrPtr, outputLenPtr).calls| == 1
    ensures var call := TargetRun(exports, s2, functionName, inputPtr, inputLen, outputPtrPtr, outputLenPtr).calls[0];
            call.before == s2 && call.args == [inputPtr, inputLen, outputPtrPtr, outputLenPtr]
  {
  }

  /** Zeroing the slot at `slot` and then the one at `slot + 4` in `int`
      arithmetic, when both writes succeed, leaves two in-range slots that
      both read 0; the second address cannot have wrapped. */
  lemma {:induction false} ZeroedSlotsReadZero(mem: seq<Byte>, slot: Int32)
    requires StoreU32(mem, slot, 0).Some?
    requires StoreU32(StoreU32(mem, slot, 0).value, ToInt32(slot + SLOT_SIZE), 0).Some?
    ensures var m1 := StoreU32(mem, slot, 0).value;
            var m2 := StoreU32(m1, ToInt32(slot + SLOT_SIZE), 0).value;
            && 0 <= slot && slot + 4 <= MAX_INT32 && ToInt32(slot + SLOT_SIZE) == slot + 4
            && LoadU32(m2, slot) == Some(0)
            && LoadU32(m2, slot + 4) == Some(0)
  {
    var m1 := StoreU32(mem, slot, 0).value;
    var high := ToInt32(slot + SLOT_SIZE);
    assert InBounds(m1, high, 4);
    assert high == slot + 4;
    LoadU32AfterStoreU32(mem, slot, 0);
    LoadOutsideStoreU32(m1, high, 0, slot, 4);
    LoadU32AfterStoreU32(m1, high, 0);
  }

  /** The target receives `(inputPtr, inputLen, slot, slot + 4)`, where the
      two pointers are the allocator's answers narrowed to 32 bits, and both
      descriptor slots read 0 in the state it starts from. */
  lemma {:induction false} DescriptorZeroedBeforeTarget<G>(allocateFn: string, exports: map<string, ExportFn<G>>, s0: GuestState<G>,
                                       functionName: string, input: seq<Byte>)
    requires |input| <= MAX_INT32
    requires |RunOn(allocateFn, exports, s0, functionName, input).calls| == 3
    ensures var run := RunOn(allocateFn, exports, s0, functionName, input);
            var c0 := run.calls[0].completion;
            var c1 := run.calls[1].completion;
            && c0.Returned? && |c0.results| > 0
            && c1.Returned? && |c1.results| > 0
            && var inputPtr := ToInt32(c0.results[0]);
               var slot := ToInt32(c1.results[0]);
               && 0 <= slot && slot + 4 <= MAX_INT32
               && run.calls[2].args == [inputPtr, |input|, slot, slot + 4]
               && LoadU32(run.calls[2].before.memory, slot) == Some(0)
               && LoadU32(run.calls[2].before.memory, slot + 4) == Some(0)
  {
    var run := RunOn(allocateFn, exports, s0, functionName, input);
    var a0 := AllocSpec(exports[allocateFn], s0, |input|);
    var inputPtr := a0.outcome.value;
    var s1 := a0.state.(memory := Store(a0.state.memory, inputPtr, input).value);
    var rest := RunDescriptor(allocateFn, exports, s1, functionName, inputPtr, |input|);
    assert run.calls[1..] == rest.calls;
    var a := AllocSpec(exports[allocateFn], s1, DESCRIPTOR_SIZE);
    var slot := a.outcome.value;
    var tail := ZeroThenCall(exports, a.state, functionName, inputPtr, |input|, slot);
    assert rest.calls[1..] == tail.calls;
    TargetSeesZeroedDescriptor(exports, a.state, functionName, inputPtr, |input|, slot);
    assert run.calls[2] == tail.calls[0];
  }

  /** Once the descriptor allocation answers a slot with room for both
      words, the outcome is the target's completion on the zeroed descriptor,
      decoded. */
  lemma {:induction false} DescriptorOutcome<G>(allocateFn: string, exports: map<string, ExportFn<G>>, s: GuestState<G>,
                                                functionName: string, inputPtr: Int32, inputLen: Int32, slot: Int32)
    requires allocateFn in exports && functionName in exports
    requires AllocSpec(exports[allocateFn], s, DESCRIPTOR_SIZE).outcome == Ok(slot)
    requires 0 <= slot && slot + 8 <= |AllocSpec(exports[allocateFn], s, DESCRIPTOR_SIZE).state.memory|
    requires slot + 4 <= MAX_INT32
    ensures var a := AllocSpec(exports[allocateFn], s, DESCRIPTOR_SIZE);
            var m1 := StoreU32(a.state.memory, slot, 0).value;
            var s2 := a.state.(memory := StoreU32(m1, slot + 4, 0).value);
            var args: seq<Int64> := [inputPtr, inputLen, slot, slot + 4];
            RunDescriptor(allocateFn, exports, s, functionName, inputPtr, inputLen).outcome ==
              Finish(exports[functionName](s2, args), slot, slot + 4)
  {
    var a := AllocSpec(exports[allocateFn], s, DESCRIPTOR_SIZE);
    assert ToInt32(slot + SLOT_SIZE) == slot + 4;
    var m1 := StoreU32(a.state.memory, slot, 0).value;
    assert InBounds(m1, slot + 4, 4);
    assert ZeroThenCall(exports, a.state, functionName, inputPtr, inputLen, slot) ==
      TargetRun(exports, a.state.(memory := StoreU32(m1, slot + 4, 0).value), functionName, inputPtr, inputLen, slot, slot + 4);
  }

  /** From the descriptor allocation on, success means both calls returned
      and the result is decoded from the descriptor the target filled in. */
  lemma {:induction false} DescriptorRunSucceeded<G>(allocateFn: string, exports: map<string, ExportFn<G>>, s: GuestState<G>,
                                                     functionName: string, inputPtr: Int32, inputLen: Int32)
    requires allocateFn in exports
    requires RunDescriptor(allocateFn, exports, s, functionName, inputPtr, inputLen).outcome.Ok?
    ensures var run := RunDescriptor(allocateFn, exports, s, functionName, inputPtr, inputLen);
            && |run.calls| == 2
            && var c1 := run.calls[0].completion;
               var c := run.calls[1].completion;
               && c1.Returned? && |c1.results| > 0
               && c.Returned? && |c.results| > 0
               && run.after == c.state
               && var slot := ToInt32(c1.results[0]);
                  run.outcome == DecodeOutput(c.state.memory, ToInt32(c.results[0]), slot, ToInt32(slot + SLOT_SIZE))
  {
    var run := RunDescriptor(allocateFn, exports, s, functionName, inputPtr, inputLen);
    var a := AllocSpec(exports[allocateFn], s, DESCRIPTOR_SIZE);
    var slot := a.outcome.value;
    var tail := ZeroThenCall(exports, a.state, functionName, inputPtr, inputLen, slot);
    assert run.outcome == tail.outcome && run.after == tail.after && run.calls[1..] == tail.calls;
    ZeroThenCallReachesTarget(exports, a.state, functionName, inputPtr, inputLen, slot);
    var high := ToInt32(slot + SLOT_SIZE);
    var zeroed := StoreU32(StoreU32(a.state.memory, slot, 0).value, high, 0).value;
    TargetRunSucceeded(exports, a.state.(memory := zeroed), functionName, inputPtr, inputLen, slot, high);
    assert run.calls[1] == tail.calls[0];
  }

  /** A successful run made all three calls, ends in the state the target
      left, and its result is the target's first result narrowed to `int`
      together with the output the descriptor slots describe. */
  lemma {:induction false} OutputComesFromDescriptor<G>(allocateFn: string, exports: map<string, ExportFn<G>>, s0: GuestState<G>,
                                                        functionName: string, input: seq<Byte>)
    requires |input| <= MAX_INT32
    requires RunOn(allocateFn, exports, s0, functionName, input).outcome.Ok?
    ensures var run := RunOn(allocateFn, exports, s0, functionName, input);
            && |run.calls| == 3
            && var c1 := run.calls[1].completion;
               var c := run.calls[2].completion;
               && c1.Returned? && |c1.results| > 0
               && c.Returned? && |c.results| > 0
               && run.after == c.state
               && var slot := ToInt32(c1.results[0]);
                  run.outcome == DecodeOutput(c.state.memory, ToInt32(c.results[0]), slot, ToInt32(slot + SLOT_SIZE))
  {
    var run := RunOn(allocateFn, exports, s0, functionName, input);
    var a := AllocSpec(exports[allocateFn], s0, |input|);
    var m1 := Store(a.state.memory, a.outcome.value, input).value;
    var rest := RunDescriptor(allocateFn, exports, a.state.(memory := m1), functionName, a.outcome.value, |input|);
    assert run.outcome == rest.outcome && run.after == rest.after && run.calls[1..] == rest.calls;
    DescriptorRunSucceeded(allocateFn, exports, a.state.(memory := m1), functionName, a.outcome.value, |input|);
    assert run.calls[1] == rest.calls[0] && run.calls[2] == rest.calls[1];
  }

  /** What a guest publishes is what the host returns: when the target
      returned `returnCode`, its pointer slot holds `ptr`, its length slot
      holds a length below 2^31 and, unless that length is 0, `ptr` is below
      2^31 and the bytes there are `bytes`, the result is the status with
      `bytes` decoded. */
  lemma {:induction false} PublishedOutputIsReturned<G>(c: Completion<G>, returnCode: Int32, outputPtrPtr: Int32, outputLenPtr: Int32,
                                                        ptr: U32, bytes: seq<Byte>)
    requires c.Returned? && |c.results| > 0 && c.results[0] == returnCode
    requires LoadU32(c.state.memory, outputPtrPtr) == Some(ptr)
    requires LoadU32(c.state.memory, outputLenPtr) == Some(|bytes|)
    requires |bytes| <= MAX_INT32
    requires |bytes| > 0 ==> ptr <= MAX_INT32 && Load(c.state.memory, ptr, |bytes|) == Some(bytes)
    ensures Finish(c, outputPtrPtr, outputLenPtr) == Ok(ExecutionResult(returnCode, Latin1.Decode(bytes)))
  {
    var mem := c.state.memory;
    assert Finish(c, outputPtrPtr, outputLenPtr) == DecodeOutput(mem, returnCode, outputPtrPtr, outputLenPtr);
    assert ToInt32(|bytes|) == |bytes|;
    if |bytes| > 0 {
      assert LoadI32(mem, outputPtrPtr) == Some(ptr);
      assert Load(mem, ptr, |bytes|).value == bytes;
    }
  }

  /** With an instance to run on, `_initialize` is the first call exactly
      when the module exports it, it gets no arguments and the fresh state,
      and the protocol then runs on the state it leaves. */
  lemma {:induction false} InitializeFirstIffExported<G>(m: WasmModule<G>, functionName: string, input: seq<Byte>)
    requires |input| <= MAX_INT32
    requires m.image.initial.Some?
    ensures var session := ExecuteSpec(m, functionName, input);
            && (INITIALIZE_FN in m.image.exports <==>
                  |session.calls| > 0 && session.calls[0].name == INITIALIZE_FN && session.calls[0].args == [])
            && (INITIALIZE_FN in m.image.exports ==> session.calls[0].before == m.image.initial.value)
            && (INITIALIZE_FN in m.image.exports && session.calls[0].completion.Returned? ==>
                  var run := RunOn(m.allocateFn, m.image.exports, session.calls[0].completion.state, functionName, input);
                  session.calls[1..] == run.calls && session.outcome == run.outcome)
  {
    var session := ExecuteSpec(m, functionName, input);
    var s0 := m.image.initial.value;
    if INITIALIZE_FN !in m.image.exports {
      RecordedCallsAreGuestCalls(m.allocateFn, m.image.exports, s0, functionName, input);
      if |session.calls| > 0 {
        assert session.calls[0].name in m.image.exports;
      }
    }
  }

  /** `execute` never reports a parse error: every failure after construction
      is an allocation failure or a failure inside the guest runtime, a
      missing export names one the module does not have, and a failure to
      build the instance calls nothing. */
  lemma ExecuteFailuresAreRuntimeErrors<G>(m: WasmModule<G>, functionName: string, input: seq<Byte>)
    requires |input| <= MAX_INT32
    ensures var session := ExecuteSpec(m, functionName, input);
            && (session.outcome.Err? ==> session.outcome.error.AllocFailure? || session.outcome.error.GuestError?)
            && (session.outcome.Err? && session.outcome.error.GuestError? && session.outcome.error.fault.MissingExport? ==>
                  session.outcome.error.fault.name !in m.image.exports)
            && (m.image.initial.None? ==> session == Session(Err(GuestError(Trap)), []))
  {
  }
}
