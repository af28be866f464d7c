/** The workers' imperative sections, failures included, are runs of the transition system. */
module Refinement {
  import opened Common
  import opened KvCache
  import opened Llama
  import opened HostMemory
  import opened PrefixSpec
  import opened ForkSpec
  import opened ContextBudget
  import opened Pipeline
  import opened PrefillWorker
  import opened BranchWorker
  import opened Protocol
  import opened ProtocolInvariant
  import Orchestration

  /** The same blackboard, and as many open contexts; an empty export is known to be the engine's failure. */
  ghost predicate Matches(s: State, state: PipelineState, engine: Engine)
    reads state, state.Storage(), engine
  {
    && state.View() == s.mon && state.Buffer() == s.canonical && engine.open == s.open
    && (engine.failed || Base(s.mon.snapshots, s.mon.watermark) == 0)
  }

  // ------------------------------------------------------------------
  // Prefill
  // ------------------------------------------------------------------

  lemma MatchesCoherent(c: Config, s: State, state: PipelineState)
    requires MonitorInv(c, s) && !s.phase.Exporting? && state.View() == s.mon && state.Buffer() == s.canonical
    ensures Coherent(c.doc, state)
  {
  }

  function SetUpSite(fault: Fault): PrefillSite {
    match fault
    case NullBuffer => BindContext
    case TokenizeFailed => TokenizeDocument
    case DocumentTooLong => DocumentSize
    case _ => CreateContext
  }

  /** Setting the prefiller up is Start, or a throw at the site that its fault names. */
  method SetUpSection(ghost c: Config, ghost s: State, node: PrefillNode, state: PipelineState, nCtx: nat, nBatch: nat)
    returns (fault: Option<Fault>, lctx: LlamaContext?, ghost run: seq<Action>)
    requires PrefillInv(c, s) && MonitorInv(c, s) && s.phase.Boot? && Matches(s, state, node.engine)
    requires node.doc == c.doc && nCtx == c.nCtx && nBatch == c.nBatch
    modifies node.engine
    ensures IsRun(c, s, run) && Matches(After(c, s, run), state, node.engine)
    ensures After(c, s, run).phase == if fault.None? then Head else Phase.Leaving(false)
    ensures fault.None? ==>
      && lctx != null && lctx.live && lctx.engine == node.engine && lctx.nBatch == c.nBatch
      && After(c, s, run).ctx == Some(lctx.cells)
  {
    MatchesCoherent(c, s, state);
    fault, lctx := node.SetUp(state, nCtx, nBatch);
    assert Span(c.doc, 0, 0) == [];
    run := FirstAction(c, s, if fault.None? then Start else PrefillThrows(SetUpSite(fault.value)));
  }

  /** What one locked turn of the chunk loop makes of the state, given what was exported. */
  function ChunkDone(c: Config, s: State, next: nat, data: seq<byte>, buffer: seq<byte>): State
    requires Base(s.mon.snapshots, s.mon.watermark) <= next <= c.Total()
  {
    var s' := s.(prefilled := next, ctx := Some(Span(c.doc, Base(s.mon.snapshots, s.mon.watermark), next)));
    if next !in s.mon.milestones then s'.(phase := Head, mon := s.mon.PublishPlain(next))
    else s'.(phase := Committed, mon := s.mon.PublishExport(next, data), canonical := Some(buffer))
  }

  ghost predicate AtChunk(c: Config, s: State, next: nat) {
    && c.Valid() && PrefillInv(c, s) && s.phase.Head? && s.guard.None? && s.prefilled < c.Total()
    && next == Min(s.prefilled + PREFILL_CHUNK, c.Total())
  }

  lemma DecodeChunkStep(c: Config, s: State, next: nat)
    requires AtChunk(c, s, next)
    ensures Enabled(c, s, DecodeChunk) && Base(s.mon.snapshots, s.mon.watermark) <= s.prefilled < next <= c.Total()
    ensures Apply(c, s, DecodeChunk)
         == s.(phase := Decoded, guard := Some(c.prefill), prefilled := next,
               ctx := Some(Span(c.doc, Base(s.mon.snapshots, s.mon.watermark), next)))
  {
    ChunkExtendsSpan(c.doc, Base(s.mon.snapshots, s.mon.watermark), s.prefilled, next - s.prefilled, c.nBatch);
  }

  lemma MilestoneSteps(c: Config, s: State, s': State, before: seq<Action>, data: seq<byte>, buffer: seq<byte>)
    returns (run: seq<Action>)
    requires IsRun(c, s, before) && After(c, s, before) == s'
    requires s'.phase.Decoded? && s'.prefilled in s'.mon.milestones && s'.canonical.Some? && s'.ctx.Some?
    requires |buffer| == |s'.canonical.value| && |data| <= |buffer|
    requires data == [] || (data == Export(s'.ctx.value) && buffer == data + s'.canonical.value[|data|..])
    ensures IsRun(c, s, run)
    ensures After(c, s, run) == s'.(phase := Committed, guard := None, mon := s'.mon.PublishExport(s'.prefilled, data),
                                    canonical := Some(buffer))
  {
    run := NextAction(c, s, before, if data == [] then ExportNothing(buffer) else ExportKv);
    run := NextAction(c, s, run, PublishKv);
  }

  lemma ChunkRun(c: Config, s: State, next: nat, data: seq<byte>, buffer: seq<byte>) returns (run: seq<Action>)
    requires AtChunk(c, s, next) && Base(s.mon.snapshots, s.mon.watermark) <= next && s.canonical.Some?
    requires next in s.mon.milestones ==>
      && |buffer| == |s.canonical.value| && |data| <= |buffer|
      && (data == [] || (data == Export(Span(c.doc, Base(s.mon.snapshots, s.mon.watermark), next))
                         && buffer == data + s.canonical.value[|data|..]))
    ensures IsRun(c, s, run) && After(c, s, run) == ChunkDone(c, s, next, data, buffer)
  {
    DecodeChunkStep(c, s, next);
    run := FirstAction(c, s, DecodeChunk);
    var s' := After(c, s, run);
    if next !in s.mon.milestones {
      run := NextAction(c, s, run, CommitPlain);
    } else {
      run := MilestoneSteps(c, s, s', run, data, buffer);
    }
  }

  /** A throwing chunk: the engine refused a batch, or the export did not fit. */
  lemma ChunkThrows(c: Config, s: State, next: nat, decoded: bool) returns (run: seq<Action>)
    requires AtChunk(c, s, next) && Base(s.mon.snapshots, s.mon.watermark) <= next && s.canonical.Some?
    requires decoded ==>
      && next in s.mon.milestones
      && |s.canonical.value| < |Export(Span(c.doc, Base(s.mon.snapshots, s.mon.watermark), next))|
    ensures IsRun(c, s, run)
    ensures After(c, s, run)
         == s.(phase := Phase.Leaving(false), ctx := None, prefilled := if decoded then next else s.prefilled)
  {
    if decoded {
      DecodeChunkStep(c, s, next);
      run := FirstAction(c, s, DecodeChunk);
      run := NextAction(c, s, run, PrefillThrows(CommitExport));
    } else {
      run := FirstAction(c, s, PrefillThrows(DecodeDocument));
    }
  }

  lemma HeadMatches(c: Config, s: State, node: PrefillNode, lctx: LlamaContext, state: PipelineState)
    requires c.Valid() && PrefillInv(c, s) && MonitorInv(c, s) && s.phase.Head? && Matches(s, state, node.engine)
    requires s.ctx == Some(lctx.cells) && lctx.live && node.doc == c.doc && lctx.engine == node.engine
    ensures node.AtHead(state, lctx, lctx.nBatch, s.prefilled) && node.Sound(state) && s.canonical.Some?
    ensures s.mon.watermark == s.prefilled && Base(s.mon.snapshots, s.mon.watermark) <= s.prefilled
  {
    MatchesCoherent(c, s, state);
  }

  /** Decoding and committing a chunk imperatively is the run decode, (export,) publish, or throws on the way. */
  method ChunkSection(ghost c: Config, ghost s: State, node: PrefillNode, lctx: LlamaContext,
                      state: PipelineState, prefilled: nat)
    returns (r: Outcome, next: nat, ghost run: seq<Action>)
    requires c.Valid() && PrefillInv(c, s) && MonitorInv(c, s)
    requires s.phase.Head? && s.guard.None? && prefilled == s.prefilled < c.Total()
    requires Matches(s, state, node.engine) && s.ctx == Some(lctx.cells) && lctx.live
    requires node.doc == c.doc && lctx.nBatch == c.nBatch && lctx.engine == node.engine
    modifies lctx`cells, node.engine
    modifies state`watermark, state`prefixSeqLen, state`prefixKvBytes, state`snapshots, state.Storage()
    ensures IsRun(c, s, run) && Matches(After(c, s, run), state, node.engine)
    ensures r == Pass ==>
      && (After(c, s, run).phase == if next in s.mon.milestones then Phase.Committed else Head)
      && After(c, s, run).ctx == Some(lctx.cells) && After(c, s, run).prefilled == next
    ensures r != Pass ==> After(c, s, run).phase == Phase.Leaving(false) && After(c, s, run).mon == s.mon
    ensures After(c, s, run).pcs == s.pcs && After(c, s, run).guard.None?
  {
    hide PrefillInv, MonitorInv, Published, Canonical, Base, Batches, Span, Export, CommitPoint, IsRun, After;
    HeadMatches(c, s, node, lctx, state);
    ghost var b := Base(s.mon.snapshots, s.mon.watermark);
    r, next := node.DecodeAndCommit(lctx, state, b, prefilled);
    assert AtChunk(c, s, next);
    if r == Pass {
      ghost var data := if next in state.milestones then state.snapshots[next].data else [];
      run := ChunkRun(c, s, next, data, state.Buffer().value);
    } else {
      run := ChunkThrows(c, s, next, r == Fail(BufferTooSmall));
    }
  }

  /** The milestones that a run of branches signals, in order. */
  function SignalsOf(c: Config, run: seq<Action>): seq<int> {
    if run == [] then [] else (if Signals(run[0]) then [c.Req(run[0].n)] else []) + SignalsOf(c, run[1..])
  }

  predicate OnlyBranches(run: seq<Action>) {
    forall a :: a in run ==> ByBranch(a)
  }

  lemma {:induction false} SignalFirst(m: Monitor, w: int, rest: seq<int>)
    ensures SignalAll(m, [w] + rest) == SignalAll(m.Signal(w), rest)
  {
    if rest == [] {
      assert [w] + rest == [w] && [w][..0] == [];
    } else {
      var last := |rest| - 1;
      SignalFirst(m, w, rest[..last]);
      assert ([w] + rest)[..|rest|] == [w] + rest[..last];
    }
  }

  lemma BranchSignals(c: Config, s: State, a: Action)
    requires Enabled(c, s, a) && ByBranch(a)
    ensures Apply(c, s, a).phase == s.phase && Apply(c, s, a).prefilled == s.prefilled
    ensures Apply(c, s, a).mon == if Signals(a) then s.mon.Signal(c.Req(a.n)) else s.mon
  {
  }

  /** All that a run of branches does to the monitor is its signals. */
  lemma {:induction false} BranchRunSignals(c: Config, s: State, run: seq<Action>)
    requires IsRun(c, s, run) && OnlyBranches(run)
    ensures After(c, s, run).mon == SignalAll(s.mon, SignalsOf(c, run))
    ensures After(c, s, run).phase == s.phase && After(c, s, run).prefilled == s.prefilled
    decreases |run|
  {
    if run != [] {
      var a := run[0];
      BranchSignals(c, s, a);
      BranchRunSignals(c, Apply(c, s, a), run[1..]);
      if Signals(a) {
        SignalFirst(s.mon, c.Req(a.n), SignalsOf(c, run[1..]));
      } else {
        assert [] + SignalsOf(c, run[1..]) == SignalsOf(c, run[1..]);
      }
    }
  }

  /** The part of a run up to and including its k-th signal. */
  lemma {:induction false} UpToSignal(c: Config, s: State, run: seq<Action>, k: nat) returns (part: seq<Action>)
    requires IsRun(c, s, run) && k <= |SignalsOf(c, run)|
    ensures part <= run && IsRun(c, s, part) && SignalsOf(c, part) == SignalsOf(c, run)[..k]
    decreases |run|
  {
    if k == 0 {
      part := [];
    } else {
      var rest := UpToSignal(c, Apply(c, s, run[0]), run[1..], k - Bit(Signals(run[0])));
      part := [run[0]] + rest;
      assert part[1..] == rest && run == [run[0]] + run[1..];
    }
  }

  /**
   * While the prefiller waits at a gate the branches go on: of whatever run they take, the wait
   * lets pass the part up to the first signal after which ConsumersGone is enabled, and all of
   * it if there is none.
   */
  method GateSection(ghost c: Config, ghost s: State, state: PipelineState, w: int,
                     ghost others: seq<Action>, arrivals: seq<int>)
    returns (resumed: bool, ghost run: seq<Action>)
    requires s.phase.Parked? && w == s.prefilled && state.View() == s.mon
    requires IsRun(c, s, others) && OnlyBranches(others) && arrivals == SignalsOf(c, others)
    modifies state`remaining
    ensures run <= others && IsRun(c, s, run) && After(c, s, run).mon == state.View()
    ensures resumed <==> Enabled(c, After(c, s, run), ConsumersGone)
    ensures !resumed ==> SignalsOf(c, run) == arrivals
    ensures forall k :: 0 <= k < |SignalsOf(c, run)| ==> !SignalAll(s.mon, SignalsOf(c, run)[..k]).ConsumersDone(w)
  {
    var used;
    resumed, used := state.WaitForMilestoneConsumers(w, arrivals);
    run := UpToSignal(c, s, others, used);
    assert OnlyBranches(run) by {
      assert forall i :: 0 <= i < |run| ==> run[i] == others[i];
    }
    BranchRunSignals(c, s, run);
    assert forall k :: 0 <= k < used ==> arrivals[..used][..k] == arrivals[..k];
    assert arrivals[..|arrivals|] == arrivals;
  }

  lemma GateMatches(c: Config, s: State, state: PipelineState)
    requires PrefillInv(c, s) && MonitorInv(c, s) && Shape(c, s) && s.phase.Resuming?
    requires state.View() == s.mon && state.Buffer() == s.canonical
    ensures Coherent(c.doc, state) && IsGate(c.Total(), state.milestones, s.prefilled) && state.watermark == s.prefilled
    ensures Frozen(c.doc, s.mon) && s.prefilled in s.mon.snapshots && s.canonical.Some?
  {
  }

  /** Building the context again is Resume, or a throw. */
  method RebuildSection(ghost c: Config, ghost s: State, node: PrefillNode, state: PipelineState, nBatch: nat, w: nat)
    returns (r: Outcome, lctx: LlamaContext?, ghost run: seq<Action>)
    requires c.Valid() && PrefillInv(c, s) && MonitorInv(c, s) && Shape(c, s)
    requires s.phase.Resuming? && s.guard.None? && w == s.prefilled && Matches(s, state, node.engine)
    requires node.doc == c.doc && nBatch == c.nBatch
    modifies node.engine
    ensures IsRun(c, s, run) && Matches(After(c, s, run), state, node.engine)
    ensures After(c, s, run).phase == if r == Pass then Head else Phase.Leaving(false)
    ensures r == Pass ==> lctx != null && lctx.live && After(c, s, run).ctx == Some(lctx.cells)
  {
    hide MonitorInv, Published, Canonical, PrefillInv, Shape, Base, Span, Import;
    GateMatches(c, s, state);
    RestoredIsSpan(c.doc, s.mon, w);
    r, lctx := node.Rebuild(state, nBatch, w);
    run := FirstAction(c, s, if r == Pass then Resume else
                             PrefillThrows(if r == Fail(RestoreMismatch) then RestoreContext else RecreateContext));
  }

  /** The end of execute: completion is marked and the context freed. */
  method FinishSection(ghost c: Config, ghost s: State, lctx: LlamaContext, state: PipelineState)
    returns (ghost run: seq<Action>)
    requires s.phase.Head? && s.prefilled == c.Total() && Matches(s, state, lctx.engine) && lctx.live
    modifies state`complete, lctx`live, lctx.engine`open
    ensures IsRun(c, s, run) && Matches(After(c, s, run), state, lctx.engine)
    ensures After(c, s, run).phase == Phase.Leaving(true) && After(c, s, run).ctx.None?
  {
    state.MarkPrefillComplete();
    lctx.Free();
    run := FirstAction(c, s, MarkComplete);
    run := NextAction(c, s, run, ReleaseContext);
  }

  // ------------------------------------------------------------------
  // Waits and the join
  // ------------------------------------------------------------------

  /** Whose promises are fulfilled. */
  function Fulfilled(c: Config, s: State): set<Name> {
    set d | d in c.nodes && if d == c.prefill then s.phase.Ended? else s.Pc(d).Ended?
  }

  /** What n waits for does not depend on where n itself waits. */
  lemma ProceedStep(c: Config, s: State, n: Name, i: nat)
    requires n in c.Branches() && n in s.pcs && s.Pc(n).Waiting?
    requires i < |c.Deps(n)| && DependencyMet(c, s, n, c.Deps(n)[i])
    ensures Enabled(c, s.Set(n, Waiting(i)), Proceed(n))
    ensures Apply(c, s.Set(n, Waiting(i)), Proceed(n)) == s.Set(n, Waiting(i + 1))
  {
    assert s.Set(n, Waiting(i)).Set(n, Waiting(i + 1)).pcs == s.Set(n, Waiting(i + 1)).pcs;
  }

  /** Consecutive waits that return are consecutive steps. */
  lemma {:induction false} ProceedRun(c: Config, s: State, n: Name, start: nat, end: nat) returns (run: seq<Action>)
    requires n in c.Branches() && n in s.pcs && s.Pc(n) == Waiting(start) && start <= end <= |c.Deps(n)|
    requires forall j :: start <= j < end ==> DependencyMet(c, s, n, c.Deps(n)[j])
    ensures IsRun(c, s, run) && After(c, s, run) == s.Set(n, Waiting(end))
    decreases end
  {
    hide DependencyMet, Enabled, Apply;
    if start == end {
      run := [];
      assert s.Set(n, Waiting(end)).pcs == s.pcs;
    } else {
      run := ProceedRun(c, s, n, start, end - 1);
      ProceedStep(c, s, n, end - 1);
      run := NextAction(c, s, run, Proceed(n));
    }
  }

  /** A worker's loop over its dependencies is a run of Proceed steps, and a Crash at an unregistered name. */
  method WaitSection(ghost c: Config, ghost s: State, n: Name, orchestrator: Orchestration.Orchestrator,
                     state: PipelineState, fulfilled: set<Name>, start: nat)
    returns (r: Orchestration.WaitEnd, ghost run: seq<Action>)
    requires c.Valid() && n in c.Branches() && n in s.pcs && s.Pc(n) == Waiting(start) && start <= |c.Deps(n)|
    requires orchestrator.nodes == c.nodes && orchestrator.revAdj == c.revAdj
    requires state.View() == s.mon && fulfilled == Fulfilled(c, s)
    ensures IsRun(c, s, run)
    ensures match r
            case Through => After(c, s, run) == s.Set(n, Waiting(|c.Deps(n)|))
            case BlockedAt(i) =>
              && start <= i < |c.Deps(n)| && After(c, s, run) == s.Set(n, Waiting(i))
              && c.Deps(n)[i] in c.nodes && !DependencyMet(c, s, n, c.Deps(n)[i])
            case MissingAt(_) => After(c, s, run) == s.Set(n, Crashed)
  {
    r := orchestrator.AwaitDependencies(n, state, fulfilled, start);
    ghost var end := if r.Through? then |c.Deps(n)| else r.i;
    forall dep | dep in c.nodes
      ensures DependencyMet(c, s, n, dep) <==> orchestrator.Available(state, fulfilled, c.Req(n), dep)
    {
    }
    run := ProceedRun(c, s, n, start, end);
    if r.MissingAt? {
      assert s.Set(n, Waiting(end)).Set(n, Crashed).pcs == s.Set(n, Crashed).pcs;
      run := NextAction(c, s, run, Crash(n));
    }
  }

  /** After the join the pool is freed, every buffer exactly once. */
  method JoinSection(ghost c: Config, ghost s: State, pool: MemoryPool) returns (ghost run: seq<Action>)
    requires AllTerminated(c, s) && !s.freed && pool.Valid()
    modifies pool`active, pool.active
    ensures pool.Valid() && pool.active == [] && forall b :: b in pool.handedOut ==> b.freed == 1
    ensures IsRun(c, s, run) && After(c, s, run) == s.(freed := true)
  {
    pool.FreeAll();
    run := FirstAction(c, s, FreeAll);
  }

  // ------------------------------------------------------------------
  // Branches
  // ------------------------------------------------------------------

  function BranchDone(c: Config, s: State, n: Name, verdict: Verdict, left: int): State {
    s.Set(n, Pc.Leaving(verdict)).(guard := None, mon := s.mon.Signal(c.Req(n)), open := s.open + left)
  }

  lemma ForkSteps(c: Config, s: State, n: Name, len: int, data: seq<byte>) returns (run: seq<Action>)
    requires AtExecute(c, s, n) && ForkSource(s.mon, s.canonical, c.Req(n)) == Ok((len, data)) && |data| <= c.branchCap
    ensures IsRun(c, s, run) && After(c, s, run) == s.Set(n, Copied(len, data)).(guard := Some(n))
  {
    run := FirstAction(c, s, Enter(n));
    if data != [] {
      run := NextAction(c, s, run, Allocate(n));
    }
  }

  lemma RestoreSteps(c: Config, s: State, n: Name, len: int, data: seq<byte>) returns (run: seq<Action>)
    requires AtExecute(c, s, n) && ForkSource(s.mon, s.canonical, c.Req(n)) == Ok((len, data)) && |data| <= c.branchCap
    requires CanRestore(data, s.canonical.Some?)
    ensures IsRun(c, s, run)
    ensures After(c, s, run) == s.Set(n, Live(len, Restored(data))).(guard := Some(n), open := s.open + 1)
  {
    run := ForkSteps(c, s, n, len, data);
    var s' := After(c, s, run);
    assert s'.Pc(n) == Copied(len, data) && CanRestore(data, s'.canonical.Some?);
    run := NextAction(c, s, run, Restore(n));
  }

  lemma DecodeStep(c: Config, s: State, s': State, n: Name, len: int, cells: seq<Cell>)
    requires n in c.Branches() && s' == s.Set(n, Live(len, cells)).(guard := Some(n), open := s.open + 1)
    requires PromptFits(c, n, len)
    ensures Enabled(c, s', DecodePrompt(n))
    ensures Apply(c, s', DecodePrompt(n)) == s.Set(n, Forked(len, cells + CellsAt(c.Prompt(n), len))).(guard := Some(n))
  {
  }

  lemma DoneStep(c: Config, s: State, s': State, n: Name, len: int, kv: seq<Cell>)
    requires n in c.Branches() && s' == s.Set(n, Forked(len, kv)).(guard := Some(n))
    ensures Enabled(c, s', SignalDone(n)) && Apply(c, s', SignalDone(n)) == BranchDone(c, s, n, Succeeded(len, kv), 0)
  {
  }

  lemma SuccessRun(c: Config, s: State, n: Name, len: int, data: seq<byte>) returns (run: seq<Action>)
    requires AtExecute(c, s, n) && ForkSource(s.mon, s.canonical, c.Req(n)) == Ok((len, data))
    requires |data| <= c.branchCap && CanRestore(data, s.canonical.Some?)
    requires PromptFits(c, n, len)
    ensures IsRun(c, s, run)
    ensures After(c, s, run) == BranchDone(c, s, n, Succeeded(len, Restored(data) + CellsAt(c.Prompt(n), len)), 0)
  {
    run := RestoreSteps(c, s, n, len, data);
    DecodeStep(c, s, After(c, s, run), n, len, Restored(data));
    run := NextAction(c, s, run, DecodePrompt(n));
    DoneStep(c, s, After(c, s, run), n, len, Restored(data) + CellsAt(c.Prompt(n), len));
    run := NextAction(c, s, run, SignalDone(n));
  }

  /** The throw site that a branch's fault names. */
  function SiteOf(source: Result<(int, seq<byte>)>, fault: Fault, oversize: bool): BranchSite {
    if source.Raised? then ReadSource else
      match fault
      case PoolContextFailed => SizeContext
      case AllocationFailed => AllocateBuffer
      case BufferTooSmall => BufferSize
      case ContextCreationFailed => CreateBranch
      case RestoreMismatch => RestoreBranch
      case NullBuffer => BindBranch
      case TokenizeFailed => TokenizePrompt
      case EmptyPrompt => EmptyPromptSite
      case BudgetTokenizeFailed => BudgetTokenize
      case DecodeFailed => if oversize then OversizePrompt else DecodeBranch
      case _ => OverBudget
  }

  lemma ThrowsNow(c: Config, t: State, n: Name, site: BranchSite)
    requires BranchCanThrow(c, t, n, site) && (HoldsLock(t.Pc(n)) || t.guard.None?)
    ensures n in c.Branches() && Enabled(c, t, BranchThrows(n, site))
    ensures Apply(c, t, BranchThrows(n, site))
         == t.Set(n, Throwing).(guard := None, open := t.open + BranchThrowOpens(site))
  {
  }

  lemma CaughtNow(c: Config, s: State, n: Name, t: State, open: int)
    requires n in c.Branches() && s.guard.None? && t.pcs == s.Set(n, Throwing).pcs
    requires t == s.(pcs := t.pcs, open := open)
    ensures Enabled(c, t, Catch(n)) && Apply(c, t, Catch(n)) == BranchDone(c, s, n, Threw, open - s.open)
  {
    assert t.Set(n, Pc.Leaving(Threw)).pcs == s.Set(n, Pc.Leaving(Threw)).pcs;
  }

  /** From wherever the branch stands in execute, a throw and the catch block end it. */
  lemma CatchRun(c: Config, s: State, before: seq<Action>, n: Name, site: BranchSite) returns (run: seq<Action>)
    requires IsRun(c, s, before) && BranchCanThrow(c, After(c, s, before), n, site) && s.guard.None?
    requires var t := After(c, s, before);
      && t == s.Set(n, t.Pc(n)).(guard := t.guard, open := t.open)
      && (HoldsLock(t.Pc(n)) || t.guard.None?)
    ensures IsRun(c, s, run)
    ensures After(c, s, run)
         == BranchDone(c, s, n, Threw, After(c, s, before).open + BranchThrowOpens(site) - s.open)
  {
    hide Enabled, Apply, BranchCanThrow;
    var t := After(c, s, before);
    ThrowsNow(c, t, n, site);
    run := NextAction(c, s, before, BranchThrows(n, site));
    CaughtNow(c, s, n, After(c, s, run), t.open + BranchThrowOpens(site));
    run := NextAction(c, s, run, Catch(n));
  }

  lemma EarlyThrow(c: Config, s: State, n: Name, site: BranchSite) returns (run: seq<Action>)
    requires AtExecute(c, s, n) && n in s.pcs && BranchCanThrow(c, s, n, site)
    requires site.ReadSource? || site.SizeContext?
    ensures IsRun(c, s, run) && After(c, s, run) == BranchDone(c, s, n, Threw, 0)
  {
    assert s.Set(n, s.Pc(n)).pcs == s.pcs;
    run := CatchRun(c, s, [], n, site);
  }

  lemma BufferThrow(c: Config, s: State, n: Name, data: seq<byte>, site: BranchSite) returns (run: seq<Action>)
    requires AtExecute(c, s, n) && ForkSource(s.mon, s.canonical, c.Req(n)).Ok? && data != []
    requires ForkSource(s.mon, s.canonical, c.Req(n)).value.1 == data
    requires site.AllocateBuffer? || (site.BufferSize? && |data| > c.branchCap)
    ensures IsRun(c, s, run) && After(c, s, run) == BranchDone(c, s, n, Threw, 0)
  {
    hide ForkSource, WithinBudget, CanRestore, Restored;
    run := FirstAction(c, s, Enter(n));
    run := CatchRun(c, s, run, n, site);
  }

  lemma RestoreThrow(c: Config, s: State, n: Name, len: int, data: seq<byte>, site: BranchSite)
    returns (run: seq<Action>)
    requires AtExecute(c, s, n) && ForkSource(s.mon, s.canonical, c.Req(n)) == Ok((len, data)) && |data| <= c.branchCap
    requires match site
             case CreateBranch => true
             case RestoreBranch => data != []
             case BindBranch => data == [] && s.canonical.None?
             case TokenizePrompt => CanRestore(data, s.canonical.Some?)
             case _ => false
    ensures IsRun(c, s, run) && After(c, s, run) == BranchDone(c, s, n, Threw, BranchThrowOpens(site))
  {
    hide ForkSource, WithinBudget, CanRestore, Restored;
    run := ForkSteps(c, s, n, len, data);
    assert After(c, s, run).Pc(n) == Copied(len, data) && BranchCanThrow(c, After(c, s, run), n, site);
    run := CatchRun(c, s, run, n, site);
  }

  lemma DecodeThrow(c: Config, s: State, n: Name, len: int, data: seq<byte>, site: BranchSite)
    returns (run: seq<Action>)
    requires AtExecute(c, s, n) && ForkSource(s.mon, s.canonical, c.Req(n)) == Ok((len, data)) && |data| <= c.branchCap
    requires CanRestore(data, s.canonical.Some?)
    requires match site
             case EmptyPromptSite => c.Prompt(n) == []
             case OverBudget => c.Prompt(n) != [] && !WithinBudget(len, |c.Prompt(n)|, c.nCtx)
             case BudgetTokenize => c.Prompt(n) != []
             case OversizePrompt =>
               c.Prompt(n) != [] && WithinBudget(len, |c.Prompt(n)|, c.nCtx) && |c.Prompt(n)| > c.nBatch
             case DecodeBranch => PromptFits(c, n, len)
             case _ => false
    ensures IsRun(c, s, run) && After(c, s, run) == BranchDone(c, s, n, Threw, 0)
  {
    hide ForkSource, WithinBudget, CanRestore, Restored;
    run := RestoreSteps(c, s, n, len, data);
    run := CatchRun(c, s, run, n, site);
  }

  /** Whatever a branch throws, it is the throw of a run, at the site that the fault names. */
  lemma ThrowRun(c: Config, s: State, n: Name, node: AnalyticalNode, fault: Fault) returns (run: seq<Action>)
    requires AtExecute(c, s, n) && n in s.pcs
    requires node.requiredPrefixTokens == c.Req(n) && node.branchPrompt == c.Prompt(n)
    requires node.Explains(s.mon, s.canonical, c.branchCap, c.nCtx, fault)
    ensures IsRun(c, s, run)
    ensures After(c, s, run) == BranchDone(c, s, n, Threw, Bit(node.LeavesContext(s.mon, s.canonical, fault)))
  {
    var source := ForkSource(s.mon, s.canonical, c.Req(n));
    var site := SiteOf(source, fault, |c.Prompt(n)| > c.nBatch);
    if source.Raised? {
      run := EarlyThrow(c, s, n, site);
    } else {
      var (len, data) := source.value;
      if site.SizeContext? {
        run := EarlyThrow(c, s, n, site);
      } else if site.AllocateBuffer? || site.BufferSize? {
        run := BufferThrow(c, s, n, data, site);
      } else if site.CreateBranch? || site.RestoreBranch? || site.BindBranch? || site.TokenizePrompt? {
        run := RestoreThrow(c, s, n, len, data, site);
      } else {
        run := DecodeThrow(c, s, n, len, data, site);
      }
    }
  }

  /**
   * Running a branch imperatively, failures and catch block included, is a run from entry to
   * leaving, which leaves as many contexts open.
   */
  method BranchSection(ghost c: Config, ghost s: State, n: Name, node: AnalyticalNode,
                       state: PipelineState, pool: MemoryPool, nCtx: nat, nBatch: nat)
    returns (r: Result<Fork>, ghost run: seq<Action>)
    requires AtExecute(c, s, n) && n in s.pcs && Matches(s, state, node.engine) && pool.Valid()
    requires node.requiredPrefixTokens == c.Req(n) && node.branchPrompt == c.Prompt(n) && |c.Prompt(n)| <= INT32_MAX
    requires node.engine == pool.engine && nCtx == c.nCtx && nBatch == c.nBatch && pool.CacheSize(nCtx) == c.branchCap
    modifies state`remaining, pool, node.engine
    ensures pool.Valid() && IsRun(c, s, run) && Matches(After(c, s, run), state, node.engine)
    ensures After(c, s, run).Pc(n)
         == Pc.Leaving(if r.Ok? then Succeeded(r.value.prefixLen, r.value.kv) else Threw)
    ensures After(c, s, run).guard.None?
  {
    r := node.RunWorker(state, pool, nCtx, nBatch);
    if r.Ok? {
      ghost var (len, data) := ForkSource(s.mon, s.canonical, c.Req(n)).value;
      run := SuccessRun(c, s, n, len, data);
    } else {
      run := ThrowRun(c, s, n, node, r.fault);
    }
  }
}
