/** The guest side as the host sees it: an instance's state, its exported
    functions, and the runtime object through which the host drives them.
    Parsing, instantiation and bytecode interpretation belong to the runtime
    library; here an export is any function from the instance's state and
    arguments to a completion, so every property proved about the host holds
    for every guest. */
module Guest {
  import opened Words
  import opened LinearMemory

  /** The state of one instance: its linear memory and whatever else the guest
      keeps (globals, heap bookkeeping), of a type the host never inspects. */
  datatype GuestState<G> = GuestState(memory: seq<Byte>, store: G)

  /** How a call into the guest ends: it returns its results (as the runtime
      hands them to Java, one `long` each), or it traps. Either way the guest
      may have changed its state before it stopped. */
  datatype Completion<G> =
    | Returned(state: GuestState<G>, results: seq<Int64>)
    | Trapped(state: GuestState<G>)

  /** An exported function: the whole effect of one call. */
  type ExportFn<!G> = (GuestState<G>, seq<Int64>) -> Completion<G>

  /** A parsed module: the state of a new instance built without running its
      start function (`None` when building the instance fails), and its
      exported functions by name. */
  datatype ModuleImage<!G> = ModuleImage(initial: Option<GuestState<G>>, exports: map<string, ExportFn<G>>)

  /** One call the host made into the guest: which export, with which
      arguments, on which state, and how it ended. */
  datatype Invocation<G> = Invocation(name: string, args: seq<Int64>, before: GuestState<G>, completion: Completion<G>)

  /** A running instance: its memory object, the rest of its state, and its
      exports. Each call into it replaces its state with the call's. */
  class Instance<G> {
    const memory: Memory
    var store: G
    const exports: map<string, ExportFn<G>>

    ghost function State(): GuestState<G>
      reads this, memory
    {
      GuestState(memory.bytes, store)
    }

    constructor (s: GuestState<G>, exports: map<string, ExportFn<G>>)
      ensures State() == s && this.exports == exports
      ensures fresh(memory)
    {
      memory := new Memory(s.memory);
      store := s.store;
      this.exports := exports;
    }

    /** `export(name)`: the exported function, or `None` (a null reference)
        when the instance exports nothing by that name. */
    method Export(name: string) returns (f: Option<ExportFn<G>>)
      ensures f.Some? <==> name in exports
      ensures f.Some? ==> f.value == exports[name]
    {
      f := if name in exports then Some(exports[name]) else None;
    }

    /** `apply(args)`: runs one call into the guest; the instance takes the
        state the call ended in. */
    method Apply(f: ExportFn<G>, args: seq<Int64>) returns (c: Completion<G>)
      modifies this, memory
      ensures c == f(old(State()), args)
      ensures State() == c.state
    {
      c := f(GuestState(memory.bytes, store), args);
      memory.bytes := c.state.memory;
      store := c.state.store;
    }
  }
}
