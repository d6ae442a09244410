/** An example guest that honours the calling convention (tomlwasm.go): a Go
    program compiled to WebAssembly that exports the allocator
    `bazel_wasm_allocate` and the converter `toml_to_json`. Its state beside
    linear memory is Go's heap bookkeeping: the `buffers` registry, which
    keeps every buffer handed to the host reachable, and the next free heap
    address. Go's allocator is modelled as a bump allocator over a memory of
    fixed size; running out of memory is a runtime panic, i.e. a trap. */
module TomlWasm {
  import opened Words
  import opened LinearMemory
  import opened Guest

  const ALLOCATE_EXPORT: string := "bazel_wasm_allocate"
  const CONVERT_EXPORT: string := "toml_to_json"

  /** `buffers` maps each registered pointer to its buffer's length; `top`
      is the first heap address not yet handed out. */
  datatype GoHeap = GoHeap(buffers: map<int, nat>, top: nat)

  type GoState = GuestState<GoHeap>

  /** The heap never hands out address 0 (Go's nil). */
  const HEAP_BASE: nat := 1

  /** The heap lies inside memory above address 0, and every registered
      buffer lies inside the part handed out. */
  predicate HeapValid(s: GoState) {
    && HEAP_BASE <= s.store.top <= |s.memory|
    && forall p :: p in s.store.buffers ==> HEAP_BASE <= p && p + s.store.buffers[p] <= s.store.top
  }

  /** A new buffer and the state after making it. */
  datatype Allocation = Allocation(state: GoState, ptr: nat)

  /** `make([]uint8, size)`: `size` zero bytes at the next free address;
      `None` when memory is exhausted. */
  function Make(s: GoState, size: nat): (r: Option<Allocation>)
    ensures r.Some? <==> s.store.top + size <= |s.memory|
    ensures r.Some? ==>
              && r.value.ptr == s.store.top
              && r.value.state.store == s.store.(top := s.store.top + size)
              && |r.value.state.memory| == |s.memory|
              && (forall i :: r.value.ptr <= i < r.value.ptr + size ==> r.value.state.memory[i] == 0)
              && (forall i :: 0 <= i < |s.memory| && !(r.value.ptr <= i < r.value.ptr + size) ==>
                    r.value.state.memory[i] == s.memory[i])
  {
    if s.store.top + size <= |s.memory| then
      var zeros := seq(size, _ => 0 as Byte);
      Some(Allocation(GuestState(Store(s.memory, s.store.top, zeros).value, s.store.(top := s.store.top + size)),
                      s.store.top))
    else
      None
  }

  /** A Go value or the message of the error that replaced it. */
  datatype Fallible<T> = Success(value: T) | Failure(message: string)

  /** The libraries `tomlToJson` calls, left abstract: TOML decoding into a
      generic value, JSON encoding of that value, and the JSON encoding of
      the object `{"error": message}`. */
  datatype Codec<!V> = Codec(
    unmarshal: seq<Byte> -> Fallible<V>,
    marshal: V -> Fallible<seq<Byte>>,
    errorObject: string -> seq<Byte>)

  /** `tomlToJson`'s two results. */
  datatype Converted = Converted(output: seq<Byte>, rc: Int32)

  /** `tomlToJson`: the JSON encoding and status 0, or, when decoding or
      encoding fails, the JSON error object for the first failure and
      status 1. */
  function TomlToJson<V>(codec: Codec<V>, input: seq<Byte>): (r: Converted)
    ensures r.rc == 0 || r.rc == 1
    ensures r.rc == 0 <==> codec.unmarshal(input).Success? && codec.marshal(codec.unmarshal(input).value).Success?
    ensures r.rc == 0 ==> r.output == codec.marshal(codec.unmarshal(input).value).value
    ensures codec.unmarshal(input).Failure? ==> r.output == codec.errorObject(codec.unmarshal(input).message)
    ensures codec.unmarshal(input).Success? && codec.marshal(codec.unmarshal(input).value).Failure? ==>
              r.output == codec.errorObject(codec.marshal(codec.unmarshal(input).value).message)
  {
    match codec.unmarshal(input)
    case Failure(err) => Converted(codec.errorObject(err), 1)
    case Success(parsed) =>
      match codec.marshal(parsed)
      case Failure(err) => Converted(codec.errorObject(err), 1)
      case Success(jsonBytes) => Converted(jsonBytes, 0)
  }

  /** `bazelWasmAllocate(size uint32) *uint8` as an export: nil for sizes
      above MaxInt32, otherwise a new buffer, registered under its pointer.
      The buffer address reaches the host as the Java `int` of its 32 bits. */
  function AllocateStep(s: GoState, args: seq<Int64>): (c: Completion<GoHeap>)
    ensures |c.state.memory| == |s.memory| && c.state.store.top >= s.store.top
    ensures c.Returned? ==> |c.results| == 1
  {
    if |args| != 1 then Trapped(s)
    else
      var size := ToU32(args[0]);
      if size > MAX_INT32 then Returned(s, [0])
      else
        match Make(s, size)
        case None => Trapped(s)
        case Some(a) =>
          Returned(a.state.(store := a.state.store.(buffers := a.state.store.buffers[a.ptr := size])), [ToInt32(a.ptr)])
  }

  /** `wasmTomlToJson(inputPtr, inputLen, outputPtrPtr, outputLenPtr) int32`
      as an export: converts the `inputLen` bytes at `inputPtr`, registers
      the output buffer, stores its pointer and length through the two slot
      pointers, and returns the status. A nil pointer with a non-zero length,
      a store through nil, an access outside memory and exhausted memory are
      runtime panics, i.e. traps. */
  function ConvertStep<V>(codec: Codec<V>, s: GoState, args: seq<Int64>): (c: Completion<GoHeap>)
    ensures |c.state.memory| == |s.memory| && c.state.store.top >= s.store.top
    ensures c.Returned? ==> |c.results| == 1 && (c.results[0] == 0 || c.results[0] == 1)
  {
    if |args| != 4 then Trapped(s)
    else
      var inputPtr, inputLen := ToU32(args[0]), ToU32(args[1]);
      var outputPtrPtr, outputLenPtr := ToU32(args[2]), ToU32(args[3]);
      if inputPtr == 0 && inputLen != 0 then Trapped(s)
      else
        match Load(s.memory, inputPtr, inputLen)
        case None => Trapped(s)
        case Some(input) => Publish(s, TomlToJson(codec, input), outputPtrPtr, outputLenPtr)
  }

  /** Publishing, after the conversion: the output lives in a new buffer,
      which is registered, and its pointer and length are stored through the
      two slot pointers, nil or outside memory being a trap. */
  function Publish(s: GoState, converted: Converted, outputPtrPtr: U32, outputLenPtr: U32): (c: Completion<GoHeap>)
    ensures |c.state.memory| == |s.memory| && c.state.store.top >= s.store.top
    ensures c.Returned? ==> c.results == [converted.rc] && c.state.store.top == s.store.top + |converted.output|
  {
    var output := converted.output;
    match Make(s, |output|)
    case None => Trapped(s)
    case Some(a) =>
      var filled := Store(a.state.memory, a.ptr, output).value;
      var s1 := GuestState(filled, a.state.store.(buffers := a.state.store.buffers[a.ptr := |output|]));
      if outputPtrPtr == 0 then Trapped(s1)
      else
        match StoreU32(s1.memory, outputPtrPtr, ToU32(a.ptr))
        case None => Trapped(s1)
        case Some(m2) =>
          if outputLenPtr == 0 then Trapped(s1.(memory := m2))
          else
            match StoreU32(m2, outputLenPtr, ToU32(|output|))
            case None => Trapped(s1.(memory := m2))
            case Some(m3) => Returned(s1.(memory := m3), [converted.rc])
  }

  /** The guest's exports, as the host finds them. */
  function Exports<V>(codec: Codec<V>): (exports: map<string, ExportFn<GoHeap>>)
    ensures exports.Keys == {ALLOCATE_EXPORT, CONVERT_EXPORT}
  {
    map[ALLOCATE_EXPORT := (s, args) => AllocateStep(s, args),
        CONVERT_EXPORT := (s, args) => ConvertStep(codec, s, args)]
  }

  /** Sizes above MaxInt32 are refused with nil (address 0, which the host
      reads as an allocation failure), and nothing changes. */
  lemma AllocateRefusesLargeSizes(s: GoState, size: U32)
    requires size > MAX_INT32
    ensures AllocateStep(s, [size]) == Returned(s, [0])
  {
  }

  /** Any other size yields a fresh, zero-filled buffer of exactly that size,
      above address 0 and disjoint from every registered buffer; it is
      registered under its pointer, the other entries stay, the rest of
      memory is unchanged and the heap stays valid. The call traps only when
      memory is exhausted. */
  lemma {:induction false} AllocateFreshBuffer(s: GoState, size: U32)
    requires HeapValid(s)
    requires size <= MAX_INT32
    ensures AllocateStep(s, [size]).Trapped? <==> s.store.top + size > |s.memory|
    ensures var c := AllocateStep(s, [size]);
            c.Returned? ==>
              && HeapValid(c.state)
              && c.results == [ToInt32(s.store.top)]
              && var ptr := s.store.top;
                 && HEAP_BASE <= ptr && ptr + size <= |c.state.memory| == |s.memory|
                 && (forall i :: ptr <= i < ptr + size ==> c.state.memory[i] == 0)
                 && (forall i :: 0 <= i < |s.memory| && !(ptr <= i < ptr + size) ==> c.state.memory[i] == s.memory[i])
                 && (forall p :: p in s.store.buffers ==> Disjoint(p, s.store.buffers[p], ptr, size))
                 && c.state.store.buffers == s.store.buffers[ptr := size]
  {
    var c := AllocateStep(s, [size]);
    assert ToU32(size) == size;
    if c.Returned? {
      var a := Make(s, size).value;
      assert c.state.store.buffers == s.store.buffers[a.ptr := size];
      assert c.state.store.top == s.store.top + size;
    }
  }

  /** The conversion returns (rather than trapping) whenever its input is
      readable, the output fits in memory, and both slots are non-nil and in
      memory. */
  lemma {:induction false} ConvertReturns<V>(codec: Codec<V>, s: GoState, inputPtr: U32, inputLen: U32,
                                             outputPtrPtr: U32, outputLenPtr: U32)
    requires HeapValid(s)
    requires inputPtr != 0 && Load(s.memory, inputPtr, inputLen).Some?
    requires s.store.top + |TomlToJson(codec, Load(s.memory, inputPtr, inputLen).value).output| <= |s.memory|
    requires outputPtrPtr != 0 && InBounds(s.memory, outputPtrPtr, 4)
    requires outputLenPtr != 0 && InBounds(s.memory, outputLenPtr, 4)
    ensures ConvertStep(codec, s, [inputPtr, inputLen, outputPtrPtr, outputLenPtr]).Returned?
  {
    var args: seq<Int64> := [inputPtr, inputLen, outputPtrPtr, outputLenPtr];
    assert ToU32(args[0]) == inputPtr && ToU32(args[1]) == inputLen;
    assert ToU32(args[2]) == outputPtrPtr && ToU32(args[3]) == outputLenPtr;
  }

  /** A successful publication leaves the output's pointer and length in
      the two slots, the output bytes at that pointer, which is the old heap
      top, and the output buffer registered under it; the heap stays valid.
      This assumes the two slots are disjoint and lie in memory handed out
      before the call, as the host's descriptor does. */
  lemma {:induction false} PublishOutput(s: GoState, converted: Converted, outputPtrPtr: U32, outputLenPtr: U32)
    requires HeapValid(s)
    requires outputPtrPtr + 4 <= s.store.top && outputLenPtr + 4 <= s.store.top
    requires Disjoint(outputPtrPtr, 4, outputLenPtr, 4)
    requires Publish(s, converted, outputPtrPtr, outputLenPtr).Returned?
    ensures var c := Publish(s, converted, outputPtrPtr, outputLenPtr);
            var ptr := s.store.top;
            && c.results == [converted.rc]
            && LoadU32(c.state.memory, outputPtrPtr) == Some(ToU32(ptr))
            && LoadU32(c.state.memory, outputLenPtr) == Some(ToU32(|converted.output|))
            && Load(c.state.memory, ptr, |converted.output|) == Some(converted.output)
            && c.state.store.buffers == s.store.buffers[ptr := |converted.output|]
            && HeapValid(c.state)
  {
    var output := converted.output;
    var a := Make(s, |output|).value;
    var filled := Store(a.state.memory, a.ptr, output).value;
    var s1 := GuestState(filled, a.state.store.(buffers := a.state.store.buffers[a.ptr := |output|]));
    var m2 := StoreU32(s1.memory, outputPtrPtr, ToU32(a.ptr)).value;
    var m3 := StoreU32(m2, outputLenPtr, ToU32(|output|)).value;
    assert Publish(s, converted, outputPtrPtr, outputLenPtr) == Returned(s1.(memory := m3), [converted.rc]);
    assert Load(filled, a.ptr, |output|) == Some(output) by {
      LoadAfterStore(a.state.memory, a.ptr, output);
    }
    SlotsAfterOutput(filled, a.ptr, output, outputPtrPtr, outputLenPtr);
  }

  /** Storing a buffer's address and length in two disjoint slots below it
      keeps the buffer readable and makes the slots read back the address
      and the length. */
  lemma {:induction false} SlotsAfterOutput(mem: seq<Byte>, ptr: nat, output: seq<Byte>, outputPtrPtr: U32, outputLenPtr: U32)
    requires Load(mem, ptr, |output|) == Some(output)
    requires outputPtrPtr + 4 <= ptr && outputLenPtr + 4 <= ptr
    requires Disjoint(outputPtrPtr, 4, outputLenPtr, 4)
    requires StoreU32(mem, outputPtrPtr, ToU32(ptr)).Some?
    requires StoreU32(StoreU32(mem, outputPtrPtr, ToU32(ptr)).value, outputLenPtr, ToU32(|output|)).Some?
    ensures var m2 := StoreU32(mem, outputPtrPtr, ToU32(ptr)).value;
            var m3 := StoreU32(m2, outputLenPtr, ToU32(|output|)).value;
            && LoadU32(m3, outputPtrPtr) == Some(ToU32(ptr))
            && LoadU32(m3, outputLenPtr) == Some(ToU32(|output|))
            && Load(m3, ptr, |output|) == Some(output)
  {
    var m2 := StoreU32(mem, outputPtrPtr, ToU32(ptr)).value;
    LoadOutsideStoreU32(mem, outputPtrPtr, ToU32(ptr), ptr, |output|);
    LoadOutsideStoreU32(m2, outputLenPtr, ToU32(|output|), ptr, |output|);
    LoadU32AfterStoreU32(mem, outputPtrPtr, ToU32(ptr));
    LoadOutsideStoreU32(m2, outputLenPtr, ToU32(|output|), outputPtrPtr, 4);
    LoadU32AfterStoreU32(m2, outputLenPtr, ToU32(|output|));
  }

  /** A successful conversion converts exactly the `inputLen` bytes at
      `inputPtr`, returns `tomlToJson`'s status unchanged, and leaves the
      output's pointer and length in the two slots, the output bytes at that
      pointer and the output buffer registered under it. This assumes the
      two slots are disjoint and lie in memory handed out before the call,
      as the host's descriptor does. */
  lemma {:induction false} ConvertPublishesOutput<V>(codec: Codec<V>, s: GoState, inputPtr: U32, inputLen: U32,
                                                     outputPtrPtr: U32, outputLenPtr: U32)
    requires HeapValid(s)
    requires outputPtrPtr + 4 <= s.store.top && outputLenPtr + 4 <= s.store.top
    requires Disjoint(outputPtrPtr, 4, outputLenPtr, 4)
    requires ConvertStep(codec, s, [inputPtr, inputLen, outputPtrPtr, outputLenPtr]).Returned?
    ensures var c := ConvertStep(codec, s, [inputPtr, inputLen, outputPtrPtr, outputLenPtr]);
            && Load(s.memory, inputPtr, inputLen).Some?
            && var converted := TomlToJson(codec, Load(s.memory, inputPtr, inputLen).value);
               var ptr := s.store.top;
               && c.results == [converted.rc]
               && LoadU32(c.state.memory, outputPtrPtr) == Some(ToU32(ptr))
               && LoadU32(c.state.memory, outputLenPtr) == Some(ToU32(|converted.output|))
               && Load(c.state.memory, ptr, |converted.output|) == Some(converted.output)
               && c.state.store.buffers == s.store.buffers[ptr := |converted.output|]
               && HeapValid(c.state)
  {
    var args: seq<Int64> := [inputPtr, inputLen, outputPtrPtr, outputLenPtr];
    assert ToU32(args[0]) == inputPtr && ToU32(args[1]) == inputLen;
    assert ToU32(args[2]) == outputPtrPtr && ToU32(args[3]) == outputLenPtr;
    var converted := TomlToJson(codec, Load(s.memory, inputPtr, inputLen).value);
    assert ConvertStep(codec, s, args) == Publish(s, converted, outputPtrPtr, outputLenPtr);
    PublishOutput(s, converted, outputPtrPtr, outputLenPtr);
  }

  /** The Go program's globals and memory, updated in place by its two
      exported functions. */
  class TomlWasmGuest<V> {
    var memory: seq<Byte>
    var buffers: map<int, nat>
    var top: nat
    const codec: Codec<V>

    ghost function State(): GoState
      reads this
    {
      GuestState(memory, GoHeap(buffers, top))
    }

    constructor (initial: GoState, codec: Codec<V>)
      ensures State() == initial && this.codec == codec
    {
      memory := initial.memory;
      buffers := initial.store.buffers;
      top := initial.store.top;
      this.codec := codec;
    }

    /** Go's `make([]uint8, size)`: `None` when memory is exhausted. */
    method MakeBuffer(size: nat) returns (ptr: Option<nat>)
      modifies this
      ensures Make(old(State()), size).None? ==> ptr.None? && State() == old(State())
      ensures Make(old(State()), size).Some? ==>
                && ptr == Some(Make(old(State()), size).value.ptr)
                && State() == Make(old(State()), size).value.state
    {
      if top + size > |memory| {
        return None;
      }
      ptr := Some(top);
      memory := Store(memory, top, seq(size, _ => 0 as Byte)).value;
      top := top + size;
    }

    /** `bazelWasmAllocate`: `None` when the call traps. */
    method BazelWasmAllocate(size: U32) returns (ptr: Option<Int32>)
      modifies this
      ensures var c := AllocateStep(old(State()), [size]);
              && (ptr.None? <==> c.Trapped?)
              && (ptr.Some? ==> c.results == [ptr.value])
              && State() == c.state
      ensures size > MAX_INT32 ==> ptr == Some(0) && State() == old(State())
      ensures ptr.Some? && size <= MAX_INT32 ==>
                && ptr.value == ToInt32(old(top))
                && buffers == old(buffers)[old(top) := size]
    {
      assert ToU32(size) == size;
      if size > MAX_INT32 {
        return Some(0);
      }
      var buf := MakeBuffer(size);
      if buf.None? {
        return None;
      }
      buffers := buffers[buf.value := size];
      ptr := Some(ToInt32(buf.value));
    }

    /** `wasmTomlToJson`: `None` when the call traps, else the status. The
        output buffer is registered before its pointer is stored. */
    method WasmTomlToJson(inputPtr: U32, inputLen: U32, outputPtrPtr: U32, outputLenPtr: U32) returns (rc: Option<Int32>)
      modifies this
      ensures var c := ConvertStep(codec, old(State()), [inputPtr, inputLen, outputPtrPtr, outputLenPtr]);
              && (rc.None? <==> c.Trapped?)
              && (rc.Some? ==> c.results == [rc.value])
              && State() == c.state
    {
      ghost var args: seq<Int64> := [inputPtr, inputLen, outputPtrPtr, outputLenPtr];
      assert ToU32(args[0]) == inputPtr && ToU32(args[1]) == inputLen;
      assert ToU32(args[2]) == outputPtrPtr && ToU32(args[3]) == outputLenPtr;
      if inputPtr == 0 && inputLen != 0 {
        return None;
      }
      var input := Load(memory, inputPtr, inputLen);
      if input.None? {
        return None;
      }
      var converted := TomlToJson(codec, input.value);
      var output := converted.output;
      var outputPtr := MakeBuffer(|output|);
      if outputPtr.None? {
        return None;
      }
      memory := Store(memory, outputPtr.value, output).value;
      buffers := buffers[outputPtr.value := |output|];
      if outputPtrPtr == 0 {
        return None;
      }
      var stored := StoreU32(memory, outputPtrPtr, ToU32(outputPtr.value));
      if stored.None? {
        return None;
      }
      memory := stored.value;
      if outputLenPtr == 0 {
        return None;
      }
      stored := StoreU32(memory, outputLenPtr, ToU32(|output|));
      if stored.None? {
        return None;
      }
      memory := stored.value;
      rc := Some(converted.rc);
    }
  }
}
