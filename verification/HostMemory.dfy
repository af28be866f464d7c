/** The pool of host buffers, and the bounded copy between two of them. */
module HostMemory {
  import opened Common
  import opened Llama

  class HostBuffer {
    const data: array<byte>
    var freed: nat  // how often ggml_backend_buffer_free was called on it

    constructor (size: nat)
      ensures fresh(data) && data.Length == size && freed == 0
    {
      data := new byte[size](_ => 0);
      freed := 0;
    }
  }

  class MemoryPool {
    const engine: Engine
    const stateSize: nat -> nat  // llama_state_get_size of a context of n_ctx tokens
    var active: seq<HostBuffer>
    ghost var handedOut: set<HostBuffer>  // every buffer ever handed out

    /** Conservation: a handed-out buffer is either still registered, or was freed exactly once. */
    ghost predicate Valid()
      reads this, handedOut
    {
      && (forall i, j :: 0 <= i < j < |active| ==> active[i] != active[j])
      && (forall b :: b in active ==> b in handedOut)
      && (forall b :: b in handedOut ==> b.freed == if b in active then 0 else 1)
    }

    constructor (engine: Engine, stateSize: nat -> nat)
      ensures this.engine == engine && this.stateSize == stateSize
      ensures Valid() && active == [] && handedOut == {}
    {
      this.engine, this.stateSize := engine, stateSize;
      active, handedOut := [], {};
    }

    /** What the engine reports, or a mebibyte if it reports no state. */
    function CacheSize(nCtx: nat): (size: nat)
      ensures size >= stateSize(nCtx) && size > 0
    {
      if stateSize(nCtx) == 0 then 0x10_0000 else stateSize(nCtx)
    }

    /** Asks a disposable context for its state size, and frees it again. */
    method GetRequiredKvSize(nCtx: nat) returns (r: Result<nat>)
      modifies engine`failed, engine`open
      ensures engine.failed == (old(engine.failed) || r.Raised?) && engine.open == old(engine.open)
      ensures r == Ok(CacheSize(nCtx)) || r == Raised(PoolContextFailed)
    {
      var ctx := InitFromModel(engine, 1);
      if ctx == null {
        return Raised(PoolContextFailed);
      }
      r := Ok(CacheSize(nCtx));
      ctx.Free();
    }

    /** allocate_prefix_cache and allocate_branch_cache: a new buffer, registered with the pool. */
    method AllocateCache(nCtx: nat) returns (r: Result<HostBuffer>)
      requires Valid()
      modifies this, engine`failed, engine`open
      ensures Valid() && engine.failed == (old(engine.failed) || r.Raised?) && engine.open == old(engine.open)
      ensures r.Ok? ==>
        && fresh(r.value) && fresh(r.value.data) && r.value.data.Length == CacheSize(nCtx)
        && active == old(active) + [r.value] && handedOut == old(handedOut) + {r.value}
      ensures r.Ok? && stateSize(nCtx) > 0 ==> r.value.data.Length == stateSize(nCtx)
      ensures r.Ok? && stateSize(nCtx) == 0 ==> r.value.data.Length == 1_048_576
      ensures r.Raised? ==> r.fault in {PoolContextFailed, AllocationFailed}
      ensures r.Raised? ==> active == old(active) && handedOut == old(handedOut)
    {
      var size := GetRequiredKvSize(nCtx);
      if size.Raised? {
        return Raised(size.fault);
      }
      var fails := engine.Fails();
      if fails {
        return Raised(AllocationFailed);
      }
      var buffer := new HostBuffer(size.value);
      active := active + [buffer];
      handedOut := handedOut + {buffer};
      r := Ok(buffer);
    }

    /**
     * Frees what is registered and forgets it, so that repeating the call (as the destructor
     * does) frees nothing twice.
     */
    method FreeAll()
      requires Valid()
      modifies this`active, active
      ensures Valid() && active == [] && handedOut == old(handedOut)
      ensures forall b :: b in handedOut ==> b.freed == 1
      ensures forall b :: b in handedOut && b !in old(active) ==> b.freed == old(b.freed)
    {
      var i := 0;
      while i < |active|
        invariant 0 <= i <= |active| && active == old(active) && handedOut == old(handedOut)
        invariant forall j :: 0 <= j < |active| ==> active[j].freed == if j < i then 1 else 0
        invariant forall b :: b in handedOut && b !in active ==> b.freed == 1
        modifies active
      {
        active[i].freed := active[i].freed + 1;
        i := i + 1;
      }
      assert forall b :: b in handedOut && b in active ==> exists j :: 0 <= j < |active| && active[j] == b;
      active := [];
    }
  }

  /** Copies nbytes (0 means the whole source) into the start of the target. */
  method MaterializeBranchCache(source: HostBuffer?, target: HostBuffer?, nbytes: nat) returns (r: Outcome)
    modifies if target == null then {} else {target.data}
    ensures r == Fail(NullBuffer) <==> source == null || target == null
    ensures source != null && target != null ==>
      var n := if nbytes == 0 then source.data.Length else nbytes;
      && (r == Pass <==> n <= source.data.Length && n <= target.data.Length)
      && (r == Pass ==> target.data[..] == old(source.data[..n]) + old(target.data[n..]))
      && (r != Pass ==> r == Fail(BufferTooSmall) && target.data[..] == old(target.data[..]))
  {
    if source == null || target == null {
      return Fail(NullBuffer);
    }
    var ncopy := if nbytes == 0 then source.data.Length else nbytes;
    if ncopy > source.data.Length || ncopy > target.data.Length {
      return Fail(BufferTooSmall);
    }
    forall i | 0 <= i < ncopy {
      target.data[i] := source.data[i];
    }
    r := Pass;
  }

  /** bind_contiguous_cache: only its argument check has an effect. */
  predicate CanBind(contextExists: bool, bufferExists: bool) {
    contextExists && bufferExists
  }
}
