/** The prefill worker: nested chunk loops, with the context torn down and rebuilt at milestones. */
module PrefillWorker {
  import opened Common
  import opened KvCache
  import opened Llama
  import opened HostMemory
  import opened PrefixSpec
  import opened ForkSpec
  import opened ContextBudget
  import opened Pipeline

  /** Decodes tokens[offset..offset+count) at their own positions, in batches of at most n_batch. */
  method DecodeTokenRange(lctx: LlamaContext, tokens: seq<Token>, offset: nat, count: nat) returns (r: Outcome)
    requires lctx.live && lctx.nBatch > 0 && offset + count <= |tokens|
    modifies lctx`cells, lctx.engine`failed, lctx.engine`calls
    ensures r in {Pass, Fail(DecodeFailed)} && lctx.engine.failed == (old(lctx.engine.failed) || r != Pass)
    ensures r == Pass ==>
      && lctx.engine.calls == old(lctx.engine.calls) + Batches(tokens, offset, count, lctx.nBatch)
      && lctx.cells == old(lctx.cells) + CellsAt(tokens[offset..offset + count], offset)
    ensures r == Pass ==>
      && |lctx.cells| == |old(lctx.cells)| + count
      && forall k :: |old(lctx.cells)| <= k < |lctx.cells| ==>
           var i := offset + k - |old(lctx.cells)|;
           lctx.cells[k] == Cell(tokens[i], i)
  {
    hide CellsAt, Span, Batches;
    SpanIs(tokens, offset, offset);
    var remaining := count;
    var cur := offset;
    ghost var done := [];
    while remaining > 0
      invariant 0 <= remaining <= count && cur == offset + count - remaining
      invariant lctx.engine.failed == old(lctx.engine.failed)
      invariant lctx.cells == old(lctx.cells) + Span(tokens, offset, cur)
      invariant lctx.engine.calls == old(lctx.engine.calls) + done
      invariant done + Batches(tokens, cur, remaining, lctx.nBatch) == Batches(tokens, offset, count, lctx.nBatch)
    {
      var chunk := Min(lctx.nBatch, remaining);
      var batch := FillBatch(tokens, cur, chunk, cur);
      ghost var first := batch[..];
      ghost var rest := Batches(tokens, cur + chunk, remaining - chunk, lctx.nBatch);
      BatchesStep(tokens, cur, remaining, lctx.nBatch);
      var rc := lctx.Decode(batch);
      if rc != 0 {
        return Fail(DecodeFailed);
      }
      ConcatAssoc(done, [first], rest);
      done := done + [first];
      SpanExtends(tokens, offset, cur, chunk);
      ConcatAssoc(old(lctx.cells), Span(tokens, offset, cur), first);
      cur := cur + chunk;
      remaining := remaining - chunk;
    }
    BatchesStep(tokens, cur, 0, lctx.nBatch);
    SpanIs(tokens, offset, cur);
    r := Pass;
  }

  /** Loads a frozen milestone into a fresh context; an empty snapshot restores nothing. */
  method RestorePrefixSnapshot(lctx: LlamaContext, state: PipelineState, w: int) returns (r: Outcome)
    requires lctx.live
    modifies lctx`cells, lctx.engine`failed
    ensures old(lctx.engine.failed) ==> lctx.engine.failed
    ensures r == Fail(MissingSnapshot) <==> w !in state.snapshots
    ensures r == Fail(RestoreMismatch) ==> state.snapshots[w].data != []
    ensures r == Fail(RestoreMismatch) && !lctx.engine.failed ==>
      Import(state.snapshots[w].data).1 != |state.snapshots[w].data|
    ensures r in {Pass, Fail(MissingSnapshot), Fail(RestoreMismatch)}
    ensures r == Pass ==> w in state.snapshots
    ensures r == Pass ==>
      var data := state.snapshots[w].data;
      if data == [] then lctx.cells == old(lctx.cells) else Import(data).1 == |data| && lctx.cells == Import(data).0
  {
    var snapshot := state.TryGetPrefixSnapshot(w);
    if snapshot.None? {
      return Fail(MissingSnapshot);
    }
    var data := snapshot.value.data;
    if |data| == 0 {
      return Pass;
    }
    var n := lctx.SetData(data);
    r := if n != |data| then Fail(RestoreMismatch) else Pass;
  }

  datatype PrefillResult =
    | Completed
    | Blocked(milestone: int)   // the run ended while the prefiller was waiting at this milestone
    | Aborted(fault: Fault)

  /** The throws of the prefiller that do not free its context. */
  predicate LeavesContext(fault: Fault) {
    fault.NullBuffer? || fault.TokenizeFailed? || fault.DecodeFailed? || fault.BufferTooSmall?
    || fault.MissingSnapshot? || fault.RestoreMismatch?
  }

  /** The staging buffer agrees with what is published about it. */
  ghost predicate Coherent(doc: seq<Token>, state: PipelineState)
    reads state, state.Storage()
  {
    && Published(doc, state.View())
    && match state.Buffer()
       case None => state.prefixSeqLen == 0 && state.prefixKvBytes == 0
       case Some(bytes) => Canonical(state.View(), bytes)
  }

  class PrefillNode {
    const engine: Engine
    const doc: seq<Token>   // the tokenized document

    constructor (engine: Engine, doc: seq<Token>)
      ensures this.engine == engine && this.doc == doc
    {
      this.engine, this.doc := engine, doc;
    }

    /** Every milestone that the chunk loop will commit fits into the staging buffer when exported. */
    ghost predicate ExportsFit(state: PipelineState)
      reads state
    {
      state.canonical != null
      && forall w :: IsGate(|doc|, state.milestones, w) ==> |Export(DocCells(doc, w))| <= state.canonical.data.Length
    }

    /** The engine has failed, or everything frozen so far was exported in full. */
    ghost predicate Sound(state: PipelineState)
      reads state, engine
    {
      engine.failed || Base(state.snapshots, state.watermark) == 0
    }

    /** The head of the chunk loop: the live context holds the document since the last empty export. */
    ghost predicate AtHead(state: PipelineState, lctx: LlamaContext?, nBatch: nat, prefilled: nat)
      reads state, state.Storage(), if lctx == null then {} else {lctx}
    {
      && state.canonical != null && Coherent(doc, state) && state.watermark == prefilled <= |doc|
      && lctx != null && lctx.live && lctx.engine == engine && lctx.nBatch == nBatch
      && lctx.cells == Span(doc, Base(state.snapshots, prefilled), prefilled)
    }

    /** The blackboard after a successful commit: published, and exported if the watermark is a milestone. */
    ghost predicate Committed(m: Monitor, buffer: Option<seq<byte>>, state: PipelineState,
                              b: nat, next: nat, failed: bool)
      reads state, state.Storage()
      requires b <= next <= |doc| && buffer.Some?
    {
      if next !in m.milestones then state.View() == m.PublishPlain(next) && state.Buffer() == buffer else
        && next in state.snapshots && state.View() == m.PublishExport(next, state.snapshots[next].data)
        && state.Exported(Span(doc, b, next), buffer.value, state.snapshots[next].data, failed)
    }

    /** Commits the watermark of a chunk that the context already holds. */
    method Commit(lctx: LlamaContext, state: PipelineState, ghost b: nat, next: nat) returns (r: Outcome)
      requires state.canonical != null && Coherent(doc, state) && state.watermark < |doc| && Sound(state)
      requires next == Min(state.watermark + PREFILL_CHUNK, |doc|)
      requires b == Base(state.snapshots, state.watermark)
      requires lctx.live && lctx.engine == engine && lctx.cells == Span(doc, b, next)
      modifies state`watermark, state`prefixSeqLen, state`prefixKvBytes, state`snapshots, state.Storage(), engine`failed
      ensures Coherent(doc, state) && Sound(state) && (old(engine.failed) ==> engine.failed)
      ensures r == Pass ==> Committed(old(state.View()), old(state.Buffer()), state, b, next, engine.failed)
      ensures r == Pass && next !in state.milestones ==> Base(state.snapshots, next) == b
      ensures r != Pass ==>
        && r == Fail(BufferTooSmall) && next in state.milestones && !ExportsFit(state)
        && state.canonical.data.Length < |Export(lctx.cells)|
        && state.View() == old(state.View()) && state.Buffer() == old(state.Buffer())
    {
      hide Published, Canonical, Base, Span, Export, CommitPoint;
      ghost var before := state.View();
      ChunkBoundary(doc, before);
      NextCommitPoint(|doc|, state.watermark, next);
      SpanIsShorter(doc, b, next);
      r := state.CommitWatermark(lctx, next);
      if r == Pass {
        if next in state.milestones {
          PublishedBases(doc, before, next, state.snapshots[next].data);
          CommittedExport(doc, before, next, state.snapshots[next].data, state.canonical.data[..]);
        } else {
          PublishPlainKeeps(doc, before, next);
          PlainKeepsCanonical(before, next, state.canonical.data[..]);
        }
      } else {
        assert IsGate(|doc|, state.milestones, next);
      }
    }

    /** Decodes the next readiness chunk of the document. */
    method DecodeChunk(lctx: LlamaContext, ghost b: nat, prefilled: nat) returns (r: Outcome, next: nat)
      requires lctx.live && lctx.nBatch > 0 && b <= prefilled < |doc| && lctx.cells == Span(doc, b, prefilled)
      modifies lctx`cells, lctx.engine`failed, lctx.engine`calls
      ensures next == Min(prefilled + PREFILL_CHUNK, |doc|) && r in {Pass, Fail(DecodeFailed)}
      ensures lctx.engine.failed == (old(lctx.engine.failed) || r != Pass)
      ensures r == Pass ==> lctx.cells == Span(doc, b, next)
      ensures r == Pass ==>
        lctx.engine.calls == old(lctx.engine.calls) + Batches(doc, prefilled, next - prefilled, lctx.nBatch)
    {
      var chunk := Min(PREFILL_CHUNK, |doc| - prefilled);
      next := prefilled + chunk;
      r := DecodeTokenRange(lctx, doc, prefilled, chunk);
      SpanExtends(doc, b, prefilled, chunk);
    }

    /** One turn of the chunk loop's locked section: decode the next chunk and commit its watermark. */
    method DecodeAndCommit(lctx: LlamaContext, state: PipelineState, ghost b: nat, prefilled: nat)
      returns (r: Outcome, next: nat)
      requires lctx.nBatch > 0 && prefilled < |doc| && Sound(state)
      requires b == Base(state.snapshots, prefilled) && AtHead(state, lctx, lctx.nBatch, prefilled)
      modifies lctx`cells, engine`failed, engine`calls
      modifies state`watermark, state`prefixSeqLen, state`prefixKvBytes, state`snapshots, state.Storage()
      ensures (old(engine.failed) ==> engine.failed) && Sound(state)
      ensures Coherent(doc, state) && next == Min(prefilled + PREFILL_CHUNK, |doc|) && CommitPoint(|doc|, next)
      ensures r == Pass ==> state.watermark == next && lctx.cells == Span(doc, b, next)
      ensures r == Pass && next !in state.milestones ==> AtHead(state, lctx, lctx.nBatch, next)
      ensures r == Pass ==> Committed(old(state.View()), old(state.Buffer()), state, b, next, engine.failed)
      ensures r == Pass ==> engine.calls == old(engine.calls) + Batches(doc, prefilled, next - prefilled, lctx.nBatch)
      ensures r != Pass ==> state.View() == old(state.View()) && state.Buffer() == old(state.Buffer())
      ensures r == Pass || (r == Fail(DecodeFailed) && engine.failed) || r == Fail(BufferTooSmall)
      ensures r == Fail(BufferTooSmall) ==>
        && next in state.milestones && !ExportsFit(state)
        && state.canonical.data.Length < |Export(Span(doc, b, next))|
    {
      hide Published, Canonical, Base, Span, Export, CommitPoint, Batches;
      ChunkBoundary(doc, state.View());
      NextCommitPoint(|doc|, prefilled, prefilled);
      r, next := DecodeChunk(lctx, b, prefilled);
      if r == Pass {
        r := Commit(lctx, state, b, next);
      }
    }

    /** A fresh context holding what the freed one held at watermark w, or nothing if w was exported empty. */
    method Rebuild(state: PipelineState, nBatch: nat, w: nat) returns (r: Outcome, lctx: LlamaContext?)
      requires |doc| <= INT32_MAX && state.canonical != null
      requires Coherent(doc, state) && IsGate(|doc|, state.milestones, w) && state.watermark == w
      modifies engine`failed, engine`open
      ensures (old(engine.failed) ==> engine.failed) && (r != Pass ==> engine.failed)
      ensures r == Pass ==> lctx != null && fresh(lctx) && AtHead(state, lctx, nBatch, w)
      ensures r == Pass || r == Fail(ContextCreationFailed) || r == Fail(RestoreMismatch)
      ensures engine.open == old(engine.open) + Bit(r != Fail(ContextCreationFailed))
      ensures r == Fail(RestoreMismatch) ==> state.snapshots[w].data != []
    {
      RestoredIsSpan(doc, state.View(), w);
      lctx := InitFromModel(engine, nBatch);
      if lctx == null {
        return Fail(ContextCreationFailed), null;
      }
      r := RestorePrefixSnapshot(lctx, state, w);
    }

    /** The gate wait, without a context; the signals it consumes follow those consumed before. */
    method Wait(state: PipelineState, ghost lctx: LlamaContext, w: nat,
                arrivals: seq<int>, used: nat, ghost start: Monitor)
      returns (resumed: bool, total: nat)
      requires !lctx.live
      requires used <= |arrivals| && Coherent(doc, state)
      requires state.remaining == SignalAll(start, arrivals[..used]).remaining
      modifies state`remaining
      ensures used <= total <= |arrivals| && (!resumed ==> total == |arrivals|)
      ensures resumed == state.View().ConsumersDone(w)
      ensures state.remaining == SignalAll(start, arrivals[..total]).remaining
      ensures Coherent(doc, state)
      ensures forall m :: old(state.View()).ConsumersDone(m) ==> state.View().ConsumersDone(m)
    {
      hide Published;
      ghost var before := state.View();
      var more;
      resumed, more := state.WaitForMilestoneConsumers(w, arrivals[used..]);
      total := used + more;
      SignalsCompose(start, before, arrivals[..used], arrivals[used..][..more]);
      assert arrivals[..used] + arrivals[used..][..more] == arrivals[..total];
      SignalsLowerCounters(before, arrivals[used..][..more]);
      SignalsKeepDone(before, arrivals[used..][..more]);
      CountersAreApart(doc, before, state.View());
    }

    /** Free the context, wait at the milestone, and build the context again. */
    method PauseAtMilestone(state: PipelineState, lctx: LlamaContext, nBatch: nat, w: nat,
                            arrivals: seq<int>, used: nat, ghost start: Monitor)
      returns (stopped: Option<PrefillResult>, lctx': LlamaContext?, total: nat)
      requires |doc| <= INT32_MAX && state.canonical != null && used <= |arrivals|
      requires lctx.live && lctx.engine == engine
      requires Coherent(doc, state) && IsGate(|doc|, state.milestones, w) && state.watermark == w
      requires state.remaining == SignalAll(start, arrivals[..used]).remaining
      modifies state`remaining, lctx`live, engine`failed, engine`open
      ensures used <= total <= |arrivals| && Coherent(doc, state)
      ensures old(engine.failed) ==> engine.failed
      ensures stopped.Some? ==> engine.failed || !stopped.value.Aborted?
      ensures engine.open == old(engine.open) - 1 + Bit(StillOpen(stopped))
      ensures state.remaining == SignalAll(start, arrivals[..total]).remaining
      ensures forall m :: old(state.View()).ConsumersDone(m) ==> state.View().ConsumersDone(m)
      ensures stopped.None? ==> state.View().ConsumersDone(w)
      ensures stopped.None? ==> lctx' != null && fresh(lctx') && AtHead(state, lctx', nBatch, w)
      ensures stopped.Some? ==> !stopped.value.Completed?
      ensures stopped.Some? && stopped.value.Blocked? ==> BlockedAt(state, stopped.value.milestone, total, arrivals)
    {
      hide Published, Canonical, SignalAll, Base, Span, Export, CommitPoint;
      lctx.Free();
      var resumed;
      resumed, total := Wait(state, lctx, w, arrivals, used, start);
      if !resumed {
        return Some(Blocked(w)), null, total;
      }
      var rebuilt;
      rebuilt, lctx' := Rebuild(state, nBatch, w);
      stopped := if rebuilt == Pass then None else Some(Aborted(rebuilt.fault));
    }

    /** A context is open after a turn: the live one, or one that a throw left behind. */
    predicate StillOpen(stopped: Option<PrefillResult>) {
      stopped.None? || (stopped.value.Aborted? && LeavesContext(stopped.value.fault))
    }

    /** One turn of the chunk loop: a chunk, its commit, and the pause if it is a milestone. */
    method Turn(state: PipelineState, lctx: LlamaContext, nBatch: nat, prefilled: nat,
                arrivals: seq<int>, used: nat, ghost start: Monitor)
      returns (stopped: Option<PrefillResult>, lctx': LlamaContext?, next: nat, total: nat)
      requires |doc| <= INT32_MAX && 0 < nBatch && prefilled < |doc| && used <= |arrivals|
      requires AtHead(state, lctx, nBatch, prefilled) && Sound(state)
      requires state.remaining == SignalAll(start, arrivals[..used]).remaining
      modifies lctx`cells, lctx`live, engine, state.Storage()
      modifies state`watermark, state`prefixSeqLen, state`prefixKvBytes, state`snapshots, state`remaining
      ensures (old(engine.failed) ==> engine.failed) && Sound(state)
      ensures stopped.Some? && stopped.value.Aborted? ==> engine.failed || !ExportsFit(state)
      ensures engine.open == old(engine.open) - 1 + Bit(StillOpen(stopped))
      ensures Coherent(doc, state) && used <= total <= |arrivals|
      ensures state.remaining == SignalAll(start, arrivals[..total]).remaining
      ensures stopped.None? ==> prefilled < next && AtHead(state, lctx', nBatch, next)
      ensures forall m :: old(state.View()).ConsumersDone(m) ==> state.View().ConsumersDone(m)
      ensures stopped.None? && next in state.milestones ==> state.View().ConsumersDone(next)
      ensures stopped.None? ==> if next in state.milestones then fresh(lctx') else lctx' == lctx
      ensures stopped.None? ==> next == Min(prefilled + PREFILL_CHUNK, |doc|)
      ensures stopped.None? ==> engine.calls == old(engine.calls) + Batches(doc, prefilled, next - prefilled, nBatch)
      ensures stopped.Some? ==> !stopped.value.Completed?
      ensures stopped.Some? && stopped.value.Blocked? ==> BlockedAt(state, stopped.value.milestone, total, arrivals)
    {
      hide Published, Canonical, SignalAll, Batches, Span, Export, Base, CommitPoint;
      stopped, lctx', total := None, lctx, used;
      var committed;
      committed, next := DecodeAndCommit(lctx, state, Base(state.snapshots, prefilled), prefilled);
      if committed != Pass {
        stopped := Some(Aborted(committed.fault));
        return;
      }
      if state.IsSnapshotMilestone(next) {
        stopped, lctx', total := PauseAtMilestone(state, lctx, nBatch, next, arrivals, used, start);
      }
    }

    /** The prefiller waits at its own watermark, a gate, and every signal there is has been used up. */
    ghost predicate BlockedAt(state: PipelineState, m: int, used: nat, arrivals: seq<int>)
      reads state
    {
      m == state.watermark && IsGate(|doc|, state.milestones, m) && used == |arrivals| && !state.View().ConsumersDone(m)
    }

    /** Everything before the chunk loop: context, bind, tokenization, and the size check. */
    method SetUp(state: PipelineState, nCtx: nat, nBatch: nat) returns (fault: Option<Fault>, lctx: LlamaContext?)
      requires Coherent(doc, state) && state.watermark == 0
      modifies engine`failed, engine`open
      ensures old(engine.failed) ==> engine.failed
      ensures fault.None? ==> lctx != null && fresh(lctx) && AtHead(state, lctx, nBatch, 0)
      ensures fault.None? ==> state.canonical != null && |doc| < Wrap32(nCtx)
      ensures nCtx <= 0x7fff_ffff && fault.None? ==> |doc| < nCtx
      ensures nCtx <= 0x7fff_ffff && fault == Some(DocumentTooLong) ==> |doc| >= nCtx
      ensures match fault
              case None => true
              case Some(ContextCreationFailed) => engine.failed
              case Some(NullBuffer) => state.canonical == null && !ExportsFit(state)
              case Some(TokenizeFailed) => engine.failed && state.canonical != null
              case Some(DocumentTooLong) => |doc| >= Wrap32(nCtx) && state.canonical != null
              case _ => false
      ensures engine.open == old(engine.open) + Bit(fault.None? || LeavesContext(fault.value))
    {
      lctx := InitFromModel(engine, nBatch);
      if lctx == null {
        return Some(ContextCreationFailed), null;
      }
      if !CanBind(true, state.canonical != null) {
        return Some(NullBuffer), lctx;
      }
      var fails := engine.Fails();
      if fails {
        return Some(TokenizeFailed), lctx;
      }
      if |doc| >= Wrap32(nCtx) {
        lctx.Free();
        return Some(DocumentTooLong), lctx;
      }
      assert Span(doc, 0, 0) == [];
      fault := None;
    }

    /** The chunk loop, from the first token to the last, to a gate that does not open, or to a throw. */
    method Chunks(state: PipelineState, first: LlamaContext, nBatch: nat, arrivals: seq<int>)
      returns (stopped: Option<PrefillResult>, lctx: LlamaContext?, used: nat)
      requires nBatch > 0 && |doc| <= INT32_MAX
      requires AtHead(state, first, nBatch, 0) && Sound(state) && Served(doc, state.View(), 0)
      requires SignalAll(state.View(), arrivals[..0]) == state.View()
      modifies first`cells, first`live, engine, state.Storage()
      modifies state`watermark, state`prefixSeqLen, state`prefixKvBytes, state`snapshots, state`remaining
      ensures (old(engine.failed) ==> engine.failed) && Sound(state) && Coherent(doc, state)
      ensures engine.open == old(engine.open) - 1 + Bit(StillOpen(stopped))
      ensures used <= |arrivals| && state.remaining == SignalAll(old(state.View()), arrivals[..used]).remaining
      ensures stopped.Some? ==> !stopped.value.Completed?
      ensures stopped.Some? && stopped.value.Aborted? ==> engine.failed || !ExportsFit(state)
      ensures stopped.Some? && stopped.value.Blocked? ==> BlockedAt(state, stopped.value.milestone, used, arrivals)
      ensures stopped.None? ==> AtHead(state, lctx, nBatch, |doc|) && Served(doc, state.View(), |doc|)
      ensures stopped.None? ==> lctx == first || fresh(lctx)
      ensures stopped.None? ==> engine.calls == old(engine.calls) + AllBatches(doc, 0, nBatch)
    {
      hide Published, Canonical, SignalAll, Batches, AllBatches, Span, Export, Base, CommitPoint, Served;
      hide BlockedAt, ExportsFit, Sound;
      stopped, lctx, used := None, first, 0;
      var prefilled: nat := 0;
      while prefilled < |doc|
        invariant stopped.None? && used <= |arrivals|
        invariant AtHead(state, lctx, nBatch, prefilled) && (lctx == first || fresh(lctx))
        invariant Served(doc, state.View(), prefilled) && Sound(state)
        invariant (old(engine.failed) ==> engine.failed) && engine.open == old(engine.open)
        invariant engine.calls + AllBatches(doc, prefilled, nBatch) == old(engine.calls) + AllBatches(doc, 0, nBatch)
        invariant state.remaining == SignalAll(old(state.View()), arrivals[..used]).remaining
        decreases |doc| - prefilled
      {
        ghost var before, from, calls := state.View(), prefilled, engine.calls;
        stopped, lctx, prefilled, used := Turn(state, lctx, nBatch, prefilled, arrivals, used, old(state.View()));
        if stopped.Some? {
          return;
        }
        StillServed(before, state.View(), from);
        AllBatchesStep(doc, from, nBatch);
        ConcatAssoc(calls, Batches(doc, from, prefilled - from, nBatch), AllBatches(doc, prefilled, nBatch));
      }
      AllBatchesStep(doc, prefilled, nBatch);
    }

    /**
     * The whole worker, in a run where the other workers signal in the order `arrivals`.
     * However it ends, what it published is coherent, and exactly the throws that do not free
     * leave a context open; if it completes, all of the document was committed in batches
     * within n_batch, in order, and nobody was left behind at any gate. Unless the engine
     * failed, every milestone it froze is the export of the whole document prefix.
     */
    method Execute(state: PipelineState, nCtx: nat, nBatch: nat, arrivals: seq<int>)
      returns (r: PrefillResult, used: nat)
      requires nBatch > 0 && |doc| <= INT32_MAX
      requires Coherent(doc, state) && state.watermark == 0 && !state.complete
      modifies state, engine, state.Storage()
      ensures r.Aborted? && !engine.failed ==> |doc| >= Wrap32(nCtx) || !ExportsFit(state)
      ensures engine.open == old(engine.open) + Bit(r.Aborted? && LeavesContext(r.fault))
      ensures state.canonical == old(state.canonical) && state.milestones == old(state.milestones)
      ensures Coherent(doc, state)
      ensures !engine.failed ==>
        forall w :: w in state.snapshots ==> 0 <= w <= |doc| && state.snapshots[w].data == Export(DocCells(doc, w))
      ensures used <= |arrivals| && state.remaining == SignalAll(old(state.View()), arrivals[..used]).remaining
      ensures r.Completed? <==> state.complete
      ensures r.Completed? ==> state.watermark == |doc| && Served(doc, state.View(), |doc|)
      ensures r.Completed? ==> engine.calls == old(engine.calls) + AllBatches(doc, 0, nBatch)
      ensures r.Blocked? ==> BlockedAt(state, r.milestone, used, arrivals)
      ensures old(state.canonical) == null ==> r.Aborted?
      ensures |doc| >= Wrap32(nCtx) || |doc| >= nCtx ==> r.Aborted?
      ensures r.Aborted? && (r.fault.ContextCreationFailed? || r.fault.DocumentTooLong?) ==>
        engine.open == old(engine.open)
      ensures r.Aborted? && (r.fault.DecodeFailed? || r.fault.BufferTooSmall? || r.fault.RestoreMismatch?
                             || r.fault.NullBuffer? || r.fault.TokenizeFailed?) ==>
        engine.open == old(engine.open) + 1
    {
      hide Published, Canonical, SignalAll, Batches, AllBatches, Span, Export, Base, CommitPoint, Served, Wrap32;
      var fault, lctx := SetUp(state, nCtx, nBatch);
      NothingYet(state, arrivals);
      if fault.Some? {
        SoundIsWhole(state);
        return Aborted(fault.value), 0;
      }
      var stopped;
      stopped, lctx, used := Chunks(state, lctx, nBatch, arrivals);
      SoundIsWhole(state);
      if stopped.Some? {
        return stopped.value, used;
      }
      CompleteIsApart(state.View(), state.canonical.data[..]);
      state.MarkPrefillComplete();
      lctx.Free();
      r := Completed;
    }

    /** At the start nothing was exported, nobody was to be served, and no signal was used up. */
    lemma NothingYet(state: PipelineState, arrivals: seq<int>)
      requires state.watermark == 0
      ensures Sound(state) && Served(doc, state.View(), 0) && SignalAll(state.View(), arrivals[..0]) == state.View()
    {
    }

    /** One turn serves the next commit point. */
    lemma StillServed(m: Monitor, m': Monitor, from: nat)
      requires Published(doc, m) && Served(doc, m, from) && from == m.watermark < |doc|
      requires m'.milestones == m.milestones && forall w :: m.ConsumersDone(w) ==> m'.ConsumersDone(w)
      requires var next := Min(from + PREFILL_CHUNK, |doc|); next in m.milestones ==> m'.ConsumersDone(next)
      ensures Served(doc, m', Min(from + PREFILL_CHUNK, |doc|))
    {
      ServedUpToNext(doc, m, m', from);
    }

    /** The completion flag is no part of what is published about the document. */
    lemma CompleteIsApart(m: Monitor, buffer: seq<byte>)
      requires Published(doc, m) && Canonical(m, buffer) && Served(doc, m, |doc|)
      ensures Published(doc, m.MarkComplete()) && Canonical(m.MarkComplete(), buffer)
      ensures Served(doc, m.MarkComplete(), |doc|)
    {
      forall w | IsGate(|doc|, m.milestones, w) && w <= |doc|
        ensures m.MarkComplete().ConsumersDone(w)
      {
        assert m.ConsumersDone(w);
      }
    }

    /** Without empty exports, what is frozen are whole document prefixes. */
    lemma SoundIsWhole(state: PipelineState)
      requires Published(doc, state.View()) && Sound(state)
      ensures !engine.failed ==>
        forall w :: w in state.snapshots ==> 0 <= w <= |doc| && state.snapshots[w].data == Export(DocCells(doc, w))
    {
      forall w | w in state.snapshots
        ensures 0 <= w <= |doc|
        ensures !engine.failed ==> state.snapshots[w].data == Export(DocCells(doc, w))
      {
        assert FrozenAt(doc, state.View().snapshots, w);
        assert w <= state.watermark;
      }
    }
  }

  lemma SpanIsShorter(doc: seq<Token>, b: nat, n: nat)
    requires b <= n <= |doc|
    ensures |Export(Span(doc, b, n))| <= |Export(DocCells(doc, n))|
  {
  }

  lemma PlainKeepsCanonical(m: Monitor, n: int, buffer: seq<byte>)
    requires Canonical(m, buffer)
    ensures Canonical(m.PublishPlain(n), buffer)
  {
  }

  /** What a milestone commit promises about the document, in terms of monitor and buffer alone. */
  lemma CommittedExport(doc: seq<Token>, m: Monitor, n: int, data: seq<byte>, buffer: seq<byte>)
    requires Published(doc, m) && m.watermark < |doc| && m.watermark % PREFILL_CHUNK == 0
    requires n == Min(m.watermark + PREFILL_CHUNK, |doc|) && n in m.milestones
    requires data == [] || data == Export(Span(doc, Base(m.snapshots, m.watermark), n))
    requires |data| <= |buffer| && buffer[..|data|] == data
    ensures Published(doc, m.PublishExport(n, data)) && Canonical(m.PublishExport(n, data), buffer)
  {
    PublishExportKeeps(doc, m, n, data);
    ExportIsCanonical(m, n, data, buffer);
  }

  lemma {:induction false} SignalsCompose(start: Monitor, mid: Monitor, a: seq<int>, b: seq<int>)
    requires mid.remaining == SignalAll(start, a).remaining
    ensures SignalAll(mid, b).remaining == SignalAll(start, a + b).remaining
  {
    if b == [] {
      assert a + b == a;
    } else {
      var last := |b| - 1;
      SignalsCompose(start, mid, a, b[..last]);
      assert (a + b)[..|a + b| - 1] == a + b[..last];
    }
  }
}
