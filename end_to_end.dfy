/** The example guest run through the host: for every TOML input that fits
    in the guest's memory, `execute("toml_to_json", input)` returns exactly
    `tomlToJson`'s status and its output decoded byte for byte. */
module TomlThroughHost {
  import opened Words
  import opened LinearMemory
  import opened Guest
  import opened ExecutionResults
  import opened WasmHost
  import opened TomlWasm
  import opened HostProperties
  import Latin1

  /** The module the host builds from the example guest, with the default
      allocator name. */
  function TomlModule<V>(codec: Codec<V>, s0: GoState): (m: WasmModule<GoHeap>)
    ensures m.allocateFn == ALLOCATE_EXPORT
    ensures m.image.initial == Some(s0)
  {
    WasmModule(ModuleImage(Some(s0), Exports(codec)), DEFAULT_ALLOCATE_FN)
  }

  /** The target call on a zeroed descriptor at `slot`, the last buffer
      handed out: it returns `tomlToJson`'s status and publishes the output
      in the buffer right above the descriptor. */
  lemma {:induction false} ConvertOnDescriptor<V>(codec: Codec<V>, s2: GoState, inputPtr: nat, input: seq<Byte>, slot: nat)
    requires HeapValid(s2)
    requires |s2.memory| <= MAX_INT32 + 1
    requires 1 <= inputPtr && Load(s2.memory, inputPtr, |input|) == Some(input)
    requires 1 <= slot && slot + 8 == s2.store.top
    requires s2.store.top + |TomlToJson(codec, input).output| <= |s2.memory|
    ensures var converted := TomlToJson(codec, input);
            var c := Exports(codec)[CONVERT_EXPORT](s2, [inputPtr, |input|, slot, slot + 4]);
            && c.Returned?
            && c.results == [converted.rc]
            && LoadU32(c.state.memory, slot) == Some(slot + 8)
            && LoadU32(c.state.memory, slot + 4) == Some(|converted.output|)
            && Load(c.state.memory, slot + 8, |converted.output|) == Some(converted.output)
  {
    var output := TomlToJson(codec, input).output;
    var args: seq<Int64> := [inputPtr, |input|, slot, slot + 4];
    assert Exports(codec)[CONVERT_EXPORT](s2, args) == ConvertStep(codec, s2, args);
    assert ConvertStep(codec, s2, args).Returned? by {
      ConvertReturns(codec, s2, inputPtr, |input|, slot, slot + 4);
    }
    ConvertPublishesOutput(codec, s2, inputPtr, |input|, slot, slot + 4);
    assert ToU32(slot + 8) == slot + 8;
    assert ToU32(|output|) == |output|;
  }

  /** The target call and the decoding: the host reads back exactly what
      `tomlToJson` produced. */
  lemma {:induction false} TargetAndReadBack<V>(codec: Codec<V>, s2: GoState, inputPtr: nat, input: seq<Byte>, slot: nat)
    requires HeapValid(s2)
    requires |s2.memory| <= MAX_INT32 + 1
    requires 1 <= inputPtr && Load(s2.memory, inputPtr, |input|) == Some(input)
    requires 1 <= slot && slot + 8 == s2.store.top
    requires s2.store.top + |TomlToJson(codec, input).output| <= |s2.memory|
    ensures var converted := TomlToJson(codec, input);
            Finish(Exports(codec)[CONVERT_EXPORT](s2, [inputPtr, |input|, slot, slot + 4]), slot, slot + 4) ==
              Ok(ExecutionResult(converted.rc, Latin1.Decode(converted.output)))
  {
    var converted := TomlToJson(codec, input);
    var c := Exports(codec)[CONVERT_EXPORT](s2, [inputPtr, |input|, slot, slot + 4]);
    ConvertOnDescriptor(codec, s2, inputPtr, input, slot);
    ReadBackAboveDescriptor(c, converted.rc, slot, converted.output);
  }

  /** A completion that returned `returnCode` and left `output` right above
      a descriptor at `slot` that describes it, all below 2^31, reads back as
      that status and output. */
  lemma {:induction false} ReadBackAboveDescriptor<G>(c: Completion<G>, returnCode: Int32, slot: nat, output: seq<Byte>)
    requires c.Returned? && c.results == [returnCode]
    requires slot + 8 + |output| <= MAX_INT32 + 1
    requires LoadU32(c.state.memory, slot) == Some(slot + 8)
    requires LoadU32(c.state.memory, slot + 4) == Some(|output|)
    requires Load(c.state.memory, slot + 8, |output|) == Some(output)
    ensures Finish(c, slot, slot + 4) == Ok(ExecutionResult(returnCode, Latin1.Decode(output)))
  {
    PublishedOutputIsReturned(c, returnCode, slot, slot + 4, slot + 8, output);
  }

  /** The guest's allocator, called by the host for a non-zero `size` that fits,
      answers the heap top and bumps it, keeping the heap valid and every
      byte outside the new buffer. */
  lemma {:induction false} HostAllocation<V>(codec: Codec<V>, s: GoState, size: U32)
    requires HeapValid(s)
    requires |s.memory| <= MAX_INT32 + 1
    requires 0 < size <= MAX_INT32 && s.store.top + size <= |s.memory|
    ensures var a := AllocSpec(Exports(codec)[DEFAULT_ALLOCATE_FN], s, size);
            && a.outcome == Ok(s.store.top)
            && HeapValid(a.state)
            && a.state.store.top == s.store.top + size
            && |a.state.memory| == |s.memory|
            && forall i :: 0 <= i < |s.memory| && !(s.store.top <= i < s.store.top + size) ==> a.state.memory[i] == s.memory[i]
  {
    var c := AllocateStep(s, [size]);
    assert Exports(codec)[DEFAULT_ALLOCATE_FN](s, [size]) == c;
    AllocateFreshBuffer(s, size);
    assert ToU32(size) == size;
    assert ToInt32(s.store.top) == s.store.top;
    assert c.state.store.top == s.store.top + size;
  }

  /** With the descriptor allocated as the last buffer, below the output's
      room, zeroing its two slots keeps the input readable, and the target
      call on the zeroed memory reads back `tomlToJson`'s result. */
  lemma {:induction false} ZeroedDescriptorReadBack<V>(codec: Codec<V>, s: GoState, inputPtr: nat, input: seq<Byte>, slot: nat)
    requires HeapValid(s)
    requires |s.memory| <= MAX_INT32 + 1
    requires 1 <= inputPtr && inputPtr + |input| <= slot
    requires Load(s.memory, inputPtr, |input|) == Some(input)
    requires 1 <= slot && slot + 8 == s.store.top
    requires s.store.top + |TomlToJson(codec, input).output| <= |s.memory|
    ensures var converted := TomlToJson(codec, input);
            var m1 := StoreU32(s.memory, slot, 0).value;
            var s2 := s.(memory := StoreU32(m1, slot + 4, 0).value);
            Finish(Exports(codec)[CONVERT_EXPORT](s2, [inputPtr, |input|, slot, slot + 4]), slot, slot + 4) ==
              Ok(ExecutionResult(converted.rc, Latin1.Decode(converted.output)))
  {
    var m1 := StoreU32(s.memory, slot, 0).value;
    var s2 := s.(memory := StoreU32(m1, slot + 4, 0).value);
    LoadOutsideStoreU32(s.memory, slot, 0, inputPtr, |input|);
    LoadOutsideStoreU32(m1, slot + 4, 0, inputPtr, |input|);
    assert HeapValid(s2);
    TargetAndReadBack(codec, s2, inputPtr, input, slot);
  }

  /** From the descriptor allocation on: with the input in place below the
      heap top, the rest of the protocol yields `tomlToJson`'s result. */
  lemma {:induction false} DescriptorThroughReadBack<V>(codec: Codec<V>, s1: GoState, inputPtr: nat, input: seq<Byte>)
    requires HeapValid(s1)
    requires |s1.memory| <= MAX_INT32 + 1
    requires 1 <= inputPtr && inputPtr + |input| <= s1.store.top
    requires Load(s1.memory, inputPtr, |input|) == Some(input)
    requires s1.store.top + 8 + |TomlToJson(codec, input).output| <= |s1.memory|
    ensures var converted := TomlToJson(codec, input);
            RunDescriptor(DEFAULT_ALLOCATE_FN, Exports(codec), s1, CONVERT_EXPORT, inputPtr, |input|).outcome ==
              Ok(ExecutionResult(converted.rc, Latin1.Decode(converted.output)))
  {
    var exports := Exports(codec);
    HostAllocation(codec, s1, DESCRIPTOR_SIZE as U32);
    var a := AllocSpec(exports[DEFAULT_ALLOCATE_FN], s1, DESCRIPTOR_SIZE);
    var slot := s1.store.top;
    DescriptorOutcome(DEFAULT_ALLOCATE_FN, exports, s1, CONVERT_EXPORT, inputPtr, |input|, slot);
    LoadFrame(s1.memory, a.state.memory, inputPtr, |input|);
    ZeroedDescriptorReadBack(codec, a.state, inputPtr, input, slot);
  }

  lemma {:induction false} TomlToJsonThroughHost<V>(codec: Codec<V>, s0: GoState, input: seq<Byte>)
    requires HeapValid(s0)
    requires |s0.memory| <= MAX_INT32 + 1
    requires s0.store.top + |input| + 8 + |TomlToJson(codec, input).output| <= |s0.memory|
    ensures |input| <= MAX_INT32
    ensures var converted := TomlToJson(codec, input);
            ExecuteSpec(TomlModule(codec, s0), CONVERT_EXPORT, input).outcome ==
              Ok(ExecutionResult(converted.rc, Latin1.Decode(converted.output)))
  {
    var exports := Exports(codec);
    assert INITIALIZE_FN !in exports;
    var c0 := AllocateStep(s0, [|input|]);
    assert exports[DEFAULT_ALLOCATE_FN](s0, [|input|]) == c0;
    AllocateFreshBuffer(s0, |input|);
    var inputPtr := s0.store.top;
    assert c0.Returned? && c0.results == [inputPtr];
    assert AllocSpec(exports[DEFAULT_ALLOCATE_FN], s0, |input|).outcome == Ok(inputPtr);
    var s1 := c0.state.(memory := Store(c0.state.memory, inputPtr, input).value);
    LoadAfterStore(c0.state.memory, inputPtr, input);
    DescriptorThroughReadBack(codec, s1, inputPtr, input);
  }
}
