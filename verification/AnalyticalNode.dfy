/** A branch worker: fork the frozen prefix into a private context and decode the prompt behind it. */
module BranchWorker {
  import opened Common
  import opened KvCache
  import opened Llama
  import opened HostMemory
  import opened PrefixSpec
  import opened ForkSpec
  import opened ContextBudget
  import opened Pipeline

  datatype Fork = Fork(prefixLen: int, kv: seq<Cell>)

  /** The throws of a branch, past its fork source, that do not free its context. */
  predicate KeepsContext(fault: Fault) {
    fault.NullBuffer? || fault.TokenizeFailed?
  }

  class AnalyticalNode {
    const engine: Engine
    const branchPrompt: seq<Token>          // the tokenized prompt
    const requiredPrefixTokens: int32

    constructor (engine: Engine, prompt: seq<Token>, required: int32)
      ensures this.engine == engine && branchPrompt == prompt && requiredPrefixTokens == required
    {
      this.engine, branchPrompt, requiredPrefixTokens := engine, prompt, required;
    }

    /** Chooses the fork source and, if it has bytes, copies them into a buffer of this branch's own. */
    method CopyOnFork(state: PipelineState, pool: MemoryPool, nCtx: nat)
      returns (r: Result<(int, nat)>, branchBuf: HostBuffer?)
      requires pool.Valid() && pool.engine == engine
      modifies pool, engine`failed, engine`open
      ensures pool.Valid() && (old(engine.failed) ==> engine.failed) && engine.open == old(engine.open)
      ensures r.Raised? ==>
        CopyExplains(ForkSource(state.View(), state.Buffer(), requiredPrefixTokens), pool.CacheSize(nCtx), r.fault)
      ensures r.Raised? && EngineFault(r.fault) ==> engine.failed
      ensures old(FitsState(state, pool, nCtx)) ==> r != Raised(BufferTooSmall)
      ensures r.Raised? ==>
        var source := ForkSource(state.View(), state.Buffer(), requiredPrefixTokens);
        && !r.fault.TokenizeFailed? && (source.Ok? ==> !KeepsContext(r.fault))
        && (engine.failed || source.Raised? || |source.value.1| > pool.CacheSize(nCtx))
      ensures old(pool.active) <= pool.active && |pool.active| <= |old(pool.active)| + 1
      ensures forall b :: b in pool.handedOut && b !in old(pool.handedOut) ==> fresh(b) && fresh(b.data)
      ensures r.Ok? ==> ForkSource(state.View(), state.Buffer(), requiredPrefixTokens).Ok?
      ensures r.Ok? ==>
        var (len, data) := ForkSource(state.View(), state.Buffer(), requiredPrefixTokens).value;
        && r.value == (len, |data|) && |data| <= pool.CacheSize(nCtx)
        && (data == [] ==> branchBuf == null)
        && (data != [] ==> branchBuf != null && fresh(branchBuf) && fresh(branchBuf.data)
                           && |data| <= branchBuf.data.Length == pool.CacheSize(nCtx)
                           && branchBuf.data[..|data|] == data)
    {
      branchBuf := null;
      var forkPrefixLen, forkKvBytes, snapshotData := state.prefixSeqLen, state.prefixKvBytes, [];
      if requiredPrefixTokens >= 0 {
        var snapshot := state.TryGetPrefixSnapshot(requiredPrefixTokens);
        if snapshot.None? {
          return Raised(MissingSnapshot), null;
        }
        snapshotData := snapshot.value.data;
        forkPrefixLen, forkKvBytes := snapshot.value.seqLen, |snapshotData|;
      } else if forkKvBytes > 0 && state.canonical == null {
        return Raised(NullBuffer), null;
      }
      if forkKvBytes > 0 {
        var allocated' := pool.AllocateCache(nCtx);
        if allocated'.Raised? {
          return Raised(allocated'.fault), null;
        }
        branchBuf := allocated'.value;
        if requiredPrefixTokens < 0 {
          var copied := MaterializeBranchCache(state.canonical, branchBuf, forkKvBytes);
          if copied != Pass {
            return Raised(copied.fault), branchBuf;
          }
        } else {
          if branchBuf.data.Length < forkKvBytes {
            return Raised(BufferTooSmall), branchBuf;
          }
          forall i | 0 <= i < forkKvBytes {
            branchBuf.data[i] := snapshotData[i];
          }
        }
        assert branchBuf.data[..forkKvBytes] == ForkSource(state.View(), state.Buffer(), requiredPrefixTokens).value.1;
      }
      r := Ok((forkPrefixLen, forkKvBytes));
    }

    /** The fork has a source whose bytes are at most the state size that the engine reports. */
    predicate FitsState(state: PipelineState, pool: MemoryPool, nCtx: nat)
      reads state, if state.canonical == null then {} else {state.canonical.data}
    {
      var source := ForkSource(state.View(), state.Buffer(), requiredPrefixTokens);
      source.Ok? && |source.value.1| <= pool.stateSize(nCtx)
    }

    /** Creates the branch context, installs the copied bytes, if there are any, and tokenizes the prompt. */
    method RestoreFork(branchBuf: HostBuffer?, bytes: nat, canonicalExists: bool, nBatch: nat, ghost data: seq<byte>)
      returns (r: Outcome, lctx: LlamaContext?)
      requires bytes == |data| && (branchBuf == null <==> data == [])
      requires branchBuf != null ==> bytes <= branchBuf.data.Length && branchBuf.data[..bytes] == data
      modifies engine`failed, engine`open
      ensures old(engine.failed) ==> engine.failed
      ensures r == Pass ==>
        && lctx != null && fresh(lctx) && lctx.live && lctx.engine == engine && lctx.nBatch == nBatch
        && lctx.cells == Restored(data)
        && CanRestore(data, canonicalExists)
      ensures r != Pass ==> RestoreExplains(data, canonicalExists, r.fault)
      ensures r != Pass && EngineFault(r.fault) ==> engine.failed
      ensures r != Pass ==> engine.failed || !CanRestore(data, canonicalExists)
      ensures r != Fail(BufferTooSmall)
      ensures engine.open == old(engine.open) + Bit(r == Pass || KeepsContext(r.fault))
    {
      lctx := InitFromModel(engine, nBatch);
      if lctx == null {
        return Fail(ContextCreationFailed), null;
      }
      if branchBuf != null {
        var n := lctx.SetData(branchBuf.data[..bytes]);
        if n != bytes {
          lctx.Free();
          return Fail(RestoreMismatch), lctx;
        }
      }
      if !CanBind(true, branchBuf != null || canonicalExists) {
        return Fail(NullBuffer), lctx;
      }
      var fails := engine.Fails();
      if fails {
        return Fail(TokenizeFailed), lctx;
      }
      r := Pass;
    }

    /** Checks the prompt against the budget, decodes it behind the prefix in one batch, and frees the context. */
    method DecodePrompt(lctx: LlamaContext, forkPrefixLen: int, nCtx: nat) returns (r: Outcome)
      requires lctx.live && lctx.engine == engine && |branchPrompt| <= INT32_MAX
      modifies lctx`cells, lctx`live, engine
      ensures (old(engine.failed) ==> engine.failed) && engine.open == old(engine.open) - 1
      ensures r == Pass ==>
        && branchPrompt != [] && WithinBudget(forkPrefixLen, |branchPrompt|, nCtx) && |branchPrompt| <= lctx.nBatch
        && lctx.cells == old(lctx.cells) + CellsAt(branchPrompt, forkPrefixLen)
        && engine.calls == old(engine.calls) + [CellsAt(branchPrompt, forkPrefixLen)]
        && |lctx.cells| == |old(lctx.cells)| + |branchPrompt|
        && forall i :: 0 <= i < |branchPrompt| ==>
             lctx.cells[|old(lctx.cells)| + i] == Cell(branchPrompt[i], forkPrefixLen + i)
      ensures r != Pass ==> DecodeExplains(forkPrefixLen, nCtx, r.fault) && engine.calls == old(engine.calls)
      ensures r != Pass && EngineFault(r.fault) ==> engine.failed || |branchPrompt| > lctx.nBatch
      ensures r != Pass ==>
        || engine.failed || branchPrompt == [] || |branchPrompt| > lctx.nBatch
        || !WithinBudget(forkPrefixLen, |branchPrompt|, nCtx)
      ensures r != Pass ==> !KeepsContext(r.fault) && !r.fault.BufferTooSmall?
    {
      if branchPrompt == [] {
        lctx.Free();
        return Fail(EmptyPrompt);
      }
      assert Longest([branchPrompt]) == |branchPrompt| by {
        assert Longest([]) == 0;
      }
      r := ValidateContextBudget(engine, forkPrefixLen, [branchPrompt], nCtx);
      if r != Pass {
        lctx.Free();
        return;
      }
      var batch := FillBatch(branchPrompt, 0, |branchPrompt|, forkPrefixLen);
      assert branchPrompt[0..|branchPrompt|] == branchPrompt;
      var rc := lctx.Decode(batch);
      r := if rc != 0 then Fail(DecodeFailed) else Pass;
      lctx.Free();
    }

    // ----------------------------------------------------------------
    // Why it throws
    // ----------------------------------------------------------------

    /** Faults of the engine, the tokenizer and the allocator, or of an oversize batch. */
    predicate EngineFault(fault: Fault) {
      fault.PoolContextFailed? || fault.AllocationFailed? || fault.ContextCreationFailed? || fault.TokenizeFailed?
      || fault.BudgetTokenizeFailed? || fault.DecodeFailed?
    }

    /** A staging buffer that is too small for its own byte count is noticed only after the allocation. */
    predicate CopyExplains(source: Result<(int, seq<byte>)>, cacheSize: nat, fault: Fault) {
      match source
      case Raised(reason) =>
        fault == reason || (reason.BufferTooSmall? && (fault.PoolContextFailed? || fault.AllocationFailed?))
      case Ok((_, data)) =>
        && data != []
        && (fault.PoolContextFailed? || fault.AllocationFailed? || (fault.BufferTooSmall? && |data| > cacheSize))
    }

    predicate RestoreExplains(data: seq<byte>, canonicalExists: bool, fault: Fault) {
      match fault
      case ContextCreationFailed => true
      case RestoreMismatch => data != []
      case NullBuffer => data == [] && !canonicalExists
      case TokenizeFailed => CanRestore(data, canonicalExists)
      case _ => false
    }

    predicate DecodeExplains(len: int, nCtx: nat, fault: Fault) {
      match fault
      case EmptyPrompt => branchPrompt == []
      case NegativeTokens => branchPrompt != [] && !WithinBudget(len, |branchPrompt|, nCtx)
      case BudgetExceeded => branchPrompt != [] && !WithinBudget(len, |branchPrompt|, nCtx)
      case BudgetTokenizeFailed => branchPrompt != []
      case DecodeFailed => branchPrompt != [] && WithinBudget(len, |branchPrompt|, nCtx)
      case _ => false
    }

    /** Whatever execute throws, where in it this happened and what had gone well until then. */
    predicate Explains(m: Monitor, buffer: Option<seq<byte>>, cacheSize: nat, nCtx: nat, fault: Fault) {
      var source := ForkSource(m, buffer, requiredPrefixTokens);
      || CopyExplains(source, cacheSize, fault)
      || (&& source.Ok? && |source.value.1| <= cacheSize
          && (|| RestoreExplains(source.value.1, buffer.Some?, fault)
              || (CanRestore(source.value.1, buffer.Some?) && DecodeExplains(source.value.0, nCtx, fault))))
    }

    /** Everything that execute itself checks before and after the engine calls. */
    predicate CanFork(m: Monitor, buffer: Option<seq<byte>>, cacheSize: nat, nCtx: nat, nBatch: nat) {
      && ForkSource(m, buffer, requiredPrefixTokens).Ok?
      && var (len, data) := ForkSource(m, buffer, requiredPrefixTokens).value;
         && |data| <= cacheSize && CanRestore(data, buffer.Some?)
         && branchPrompt != [] && WithinBudget(len, |branchPrompt|, nCtx) && |branchPrompt| <= nBatch
    }

    /** The throw leaves the branch context open. */
    predicate LeavesContext(m: Monitor, buffer: Option<seq<byte>>, fault: Fault) {
      ForkSource(m, buffer, requiredPrefixTokens).Ok? && KeepsContext(fault)
    }

    /**
     * A successful execution ends with the restored prefix followed by the prompt at the
     * positions behind it, decoded in a single batch, and has signalled its milestone; a
     * throwing one has signalled nothing, and its fault says how far it got. Only two of the
     * throws leave a context open. Neither touches the staging buffer, a snapshot, or another
     * branch's buffer.
     */
    method Execute(state: PipelineState, pool: MemoryPool, nCtx: nat, nBatch: nat) returns (r: Result<Fork>)
      requires pool.Valid() && pool.engine == engine && |branchPrompt| <= INT32_MAX
      modifies state`remaining, pool, engine
      ensures pool.Valid() && (old(engine.failed) ==> engine.failed)
      ensures old(pool.active) <= pool.active && |pool.active| <= |old(pool.active)| + 1
      ensures state.View() == (if r.Ok? then old(state.View()).Signal(requiredPrefixTokens) else old(state.View()))
      ensures r.Ok? ==> CanFork(old(state.View()), state.Buffer(), pool.CacheSize(nCtx), nCtx, nBatch)
      ensures r.Ok? ==>
        var (len, data) := ForkSource(old(state.View()), state.Buffer(), requiredPrefixTokens).value;
        && r.value == Fork(len, Restored(data) + CellsAt(branchPrompt, len))
        && engine.calls == old(engine.calls) + [CellsAt(branchPrompt, len)]
        && |r.value.kv| == |Restored(data)| + |branchPrompt|
        && forall i :: 0 <= i < |branchPrompt| ==>
             r.value.kv[|Restored(data)| + i] == Cell(branchPrompt[i], len + i)
      ensures r.Ok? ==> branchPrompt != [] && |branchPrompt| <= nBatch
      ensures old(FitsState(state, pool, nCtx)) ==> r != Raised(BufferTooSmall)
      ensures r.Raised? ==>
        && Explains(state.View(), state.Buffer(), pool.CacheSize(nCtx), nCtx, r.fault)
        && engine.calls == old(engine.calls)
      ensures r.Raised? && !engine.failed ==> !CanFork(state.View(), state.Buffer(), pool.CacheSize(nCtx), nCtx, nBatch)
      ensures engine.open
           == old(engine.open) + Bit(r.Raised? && LeavesContext(state.View(), state.Buffer(), r.fault))
      ensures r == Raised(TokenizeFailed) ==> engine.open == old(engine.open) + 1
      ensures r.Raised? && !r.fault.TokenizeFailed? && !r.fault.NullBuffer? ==> engine.open == old(engine.open)
      ensures state.Buffer() == old(state.Buffer())
      ensures forall b :: b in old(pool.handedOut) ==> b.data[..] == old(b.data[..])
    {
      hide Restored, WithinBudget, FitsState, CanRestore, CopyExplains, RestoreExplains, DecodeExplains;
      var forked, branchBuf := CopyOnFork(state, pool, nCtx);
      if forked.Raised? {
        return Raised(forked.fault);
      }
      var (forkPrefixLen, forkKvBytes) := forked.value;
      ghost var data := ForkSource(state.View(), state.Buffer(), requiredPrefixTokens).value.1;
      var restored, lctx := RestoreFork(branchBuf, forkKvBytes, state.canonical != null, nBatch, data);
      if restored != Pass {
        return Raised(restored.fault);
      }
      var decoded := DecodePrompt(lctx, forkPrefixLen, nCtx);
      if decoded != Pass {
        return Raised(decoded.fault);
      }
      if requiredPrefixTokens > 0 {
        state.SignalMilestoneConsumed(requiredPrefixTokens);
      }
      r := Ok(Fork(forkPrefixLen, lctx.cells));
    }

    /** The worker's try and catch: whatever execute does, the milestone is signalled exactly once. */
    method RunWorker(state: PipelineState, pool: MemoryPool, nCtx: nat, nBatch: nat) returns (r: Result<Fork>)
      requires pool.Valid() && pool.engine == engine && |branchPrompt| <= INT32_MAX
      modifies state`remaining, pool, engine
      ensures pool.Valid() && old(pool.active) <= pool.active && (old(engine.failed) ==> engine.failed)
      ensures state.View() == old(state.View()).Signal(requiredPrefixTokens) && state.Buffer() == old(state.Buffer())
      ensures r.Ok? ==> CanFork(old(state.View()), state.Buffer(), pool.CacheSize(nCtx), nCtx, nBatch)
      ensures r.Ok? ==>
        var (len, data) := ForkSource(old(state.View()), state.Buffer(), requiredPrefixTokens).value;
        r.value == Fork(len, Restored(data) + CellsAt(branchPrompt, len))
      ensures r.Raised? ==>
        && Explains(old(state.View()), state.Buffer(), pool.CacheSize(nCtx), nCtx, r.fault)
        && (!engine.failed ==> !CanFork(old(state.View()), state.Buffer(), pool.CacheSize(nCtx), nCtx, nBatch))
      ensures engine.open
           == old(engine.open) + Bit(r.Raised? && LeavesContext(old(state.View()), state.Buffer(), r.fault))
    {
      r := Execute(state, pool, nCtx, nBatch);
      if r.Raised? {
        if requiredPrefixTokens > 0 {
          state.SignalMilestoneConsumed(requiredPrefixTokens);
        }
      }
    }
  }

  /**
   * On a coherent blackboard, what a successful execution returns is the unshared agent's KV
   * if and only if no gate up to the fork length was exported empty.
   */
  lemma ExecuteMatchesBaseline(doc: seq<Token>, m: Monitor, buffer: Option<seq<byte>>, req: int, prompt: seq<Token>)
    requires |doc| <= INT32_MAX && Frozen(doc, m)
    requires buffer.Some? ==> Canonical(m, buffer.value)
    requires buffer.None? ==> m.prefixSeqLen == 0 && m.prefixKvBytes == 0
    requires ForkSource(m, buffer, req).Ok?
    ensures var (len, data) := ForkSource(m, buffer, req).value;
      && 0 <= len <= |doc|
      && (Restored(data) + CellsAt(prompt, len) == BaselineKv(doc[..len], prompt) <==> Base(m.snapshots, len) == 0)
  {
    ForkSourceSound(doc, m, buffer, req);
    var (len, data) := ForkSource(m, buffer, req).value;
    var b := Base(m.snapshots, len);
    ForkIsBaselineExactly(doc, b, len, prompt);
    if len in m.snapshots {
      RestoredIsSpan(doc, m, len);
    }
    assert Restored(data) == Span(doc, b, len);
  }
}
