/**
 * execute_pipeline as a transition system: one worker per registered node, the shared
 * monitor, the global llama lock, and the main thread that joins and frees the pool.
 * Every action is one critical section or one blocking wait that returned.
 */
module Protocol {
  import opened Common
  import opened KvCache
  import opened PrefixSpec
  import opened ForkSpec
  import opened ContextBudget

  // ------------------------------------------------------------------
  // Configuration
  // ------------------------------------------------------------------

  datatype Node =
    | Prefill
    | Branch(req: int32, prompt: seq<Token>)

  /** required_prefix_tokens; a prefiller requires none. */
  function ReqOf(node: Node): int { if node.Branch? then node.req else -1 }

  /** What is fixed before the workers start. `canonicalCap` is None for a null staging buffer. */
  datatype Config = Config(
    nodes: map<Name, Node>,
    revAdj: map<Name, seq<Name>>,
    prefill: Name,
    doc: seq<Token>,
    nCtx: nat,
    nBatch: nat,
    canonicalCap: Option<nat>,
    branchCap: nat)
  {
    /** Exactly one prefill provider, without upstream dependencies. */
    ghost predicate Valid() {
      && prefill in nodes && nodes[prefill].Prefill? && Deps(prefill) == []
      && (forall n :: n in nodes && n != prefill ==> nodes[n].Branch? && |nodes[n].prompt| <= INT32_MAX)
      && 0 < nBatch && |doc| <= INT32_MAX
    }

    function Deps(n: Name): seq<Name> { if n in revAdj then revAdj[n] else [] }

    function Branches(): set<Name> { nodes.Keys - {prefill} }

    function Req(n: Name): int { if n in nodes then ReqOf(nodes[n]) else -1 }

    function Prompt(n: Name): seq<Token> {
      if n in nodes && nodes[n].Branch? then nodes[n].prompt else []
    }

    function Total(): nat { |doc| }

    function Limit(): int32 { Wrap32(nCtx) }

    function Milestones(): set<int> { set n | n in Branches() && Req(n) > 0 :: Req(n) }

    function Consumers(w: int): set<Name> { set n | n in Branches() && Req(n) == w }

    predicate Gate(w: int) { IsGate(Total(), Milestones(), w) }
  }

  // ------------------------------------------------------------------
  // State
  // ------------------------------------------------------------------

  /** Where the prefill worker stands. */
  datatype Phase =
    | Boot            // execute not yet past its set-up
    | Head            // at the head of the chunk loop
    | Decoded         // lock held: a chunk was decoded, commit_watermark not yet entered
    | Exporting(data: seq<byte>)   // lock held: the canonical buffer was written, nothing published
    | Committed       // milestone published, context still live
    | Parked          // context freed, waiting for the milestone's consumers
    | Resuming        // the wait returned, context not yet re-created
    | Finishing       // mark_prefill_complete done, context still live
    | Leaving(ok: bool)   // execute returned or threw, promise not yet fulfilled
    | Ended(ok: bool)     // promise fulfilled

  datatype Verdict = Succeeded(len: int, kv: seq<Cell>) | Threw

  /** Where a branch worker stands. */
  datatype Pc =
    | Waiting(i: nat)                      // about to wait for dependency i
    | Sizing(len: int, data: seq<byte>)    // lock held: the pool's disposable context is live
    | Copied(len: int, data: seq<byte>)    // lock held: fork bytes copied, no context
    | Live(len: int, cells: seq<Cell>)     // lock held: prefix restored into a context
    | Forked(len: int, kv: seq<Cell>)      // lock held: prompt decoded, context freed
    | Throwing                             // execute threw, lock released, catch block not yet entered
    | Leaving(verdict: Verdict)            // milestone signalled, promise not yet fulfilled
    | Ended(verdict: Verdict)              // promise fulfilled
    | Crashed                              // the worker threw outside the try block

  datatype State = State(
    phase: Phase,
    prefilled: nat,
    ctx: Option<seq<Cell>>,
    canonical: Option<seq<byte>>,
    mon: Monitor,
    pcs: map<Name, Pc>,
    guard: Option<Name>,
    open: int,   // llama contexts created and not yet freed
    freed: bool)
  {
    function Pc(n: Name): Pc { if n in pcs then pcs[n] else Crashed }

    function Set(n: Name, pc: Pc): State { this.(pcs := pcs[n := pc]) }

    predicate PrefillFulfilled() { phase.Ended? }
  }

  predicate HoldsLock(pc: Pc) { pc.Sizing? || pc.Copied? || pc.Live? || pc.Forked? }

  predicate Signalled(pc: Pc) { pc.Leaving? || pc.Ended? }

  /** Past all waits: execute was entered. */
  predicate Started(pc: Pc) { !pc.Waiting? && !pc.Crashed? }

  function Initial(c: Config, buffer: Option<seq<byte>>): State {
    State(Boot, 0, None, buffer, RegisteredMonitor(c), map n | n in c.Branches() :: Waiting(0), None, 0, false)
  }

  /** The monitor after the registration loop of execute_pipeline. */
  function RegisteredMonitor(c: Config): Monitor {
    FRESH.(milestones := c.Milestones(), remaining := map w | w in c.Milestones() :: |c.Consumers(w)|)
  }

  // ------------------------------------------------------------------
  // Actions
  // ------------------------------------------------------------------

  /** The throw sites of the prefiller's execute. */
  datatype PrefillSite =
    | CreateContext     // llama_init_from_model returned null
    | BindContext       // null staging buffer
    | TokenizeDocument
    | DocumentSize      // the document does not fit into n_ctx
    | DecodeDocument    // llama_decode failed in the chunk loop
    | CommitExport      // the staging buffer is smaller than the export
    | RecreateContext   // llama_init_from_model returned null after a milestone
    | RestoreContext    // the snapshot could not be restored

  /** The throw sites of a branch's execute. */
  datatype BranchSite =
    | ReadSource        // no snapshot, or no staging buffer to read
    | SizeContext       // the pool could not create its disposable context
    | AllocateBuffer
    | BufferSize        // the branch buffer is smaller than the fork
    | CreateBranch      // llama_init_from_model returned null
    | RestoreBranch     // llama_state_seq_set_data consumed another byte count
    | BindBranch        // nothing to bind to
    | TokenizePrompt
    | EmptyPromptSite
    | OverBudget
    | BudgetTokenize    // the tokenizer failed inside the budget check
    | OversizePrompt    // llama_decode refused a batch above n_batch
    | DecodeBranch      // llama_decode failed

  /** Throws that leave a context behind: no llama_free on the way out. */
  predicate PrefillLeaks(site: PrefillSite) {
    site.BindContext? || site.TokenizeDocument? || site.DecodeDocument? || site.CommitExport? || site.RestoreContext?
  }

  predicate BranchLeaks(site: BranchSite) {
    site.BindBranch? || site.TokenizePrompt?
  }

  datatype Action =
    | Start | DecodeChunk | CommitPlain | ExportKv | ExportNothing(junk: seq<byte>) | PublishKv
    | FreeContext | ConsumersGone | Resume | MarkComplete | ReleaseContext | FulfilPrefill
    | PrefillThrows(prefillSite: PrefillSite)
    | Proceed(n: Name) | Crash(n: Name) | Enter(n: Name) | Allocate(n: Name) | Restore(n: Name)
    | DecodePrompt(n: Name) | SignalDone(n: Name) | BranchThrows(n: Name, site: BranchSite)
    | Catch(n: Name) | Fulfil(n: Name)
    | FreeAll

  /** The wait on an upstream node returned. Dependents wait, so a thrown upstream also lets them pass. */
  predicate DependencyMet(c: Config, s: State, n: Name, dep: Name) {
    dep in c.nodes
    && if dep == c.prefill then PrefillMet(c, s, n) else s.Pc(dep).Ended?
  }

  predicate PrefillMet(c: Config, s: State, n: Name) {
    if c.Req(n) >= 0 then s.mon.watermark >= c.Req(n) else s.PrefillFulfilled()
  }

  predicate AtExecute(c: Config, s: State, n: Name) {
    n in c.Branches() && s.Pc(n) == Waiting(|c.Deps(n)|) && s.guard.None?
  }

  /** The canonical buffer exists and can take the KV of the live context. */
  predicate ExportFits(s: State) {
    s.canonical.Some? && s.ctx.Some? && |Export(s.ctx.value)| <= |s.canonical.value|
  }

  predicate AllTerminated(c: Config, s: State) {
    s.phase.Ended? && forall n :: n in c.Branches() ==> s.Pc(n).Ended? || s.Pc(n).Crashed?
  }

  /** When each throw of the prefiller is possible: engine failures at will, its own checks when they fail. */
  predicate PrefillCanThrow(c: Config, s: State, site: PrefillSite) {
    match site
    case CreateContext => s.phase.Boot?
    case BindContext => s.phase.Boot? && s.canonical.None?
    case TokenizeDocument => s.phase.Boot? && s.canonical.Some?
    case DocumentSize => s.phase.Boot? && s.canonical.Some? && c.Total() >= c.Limit()
    case DecodeDocument => s.phase.Head? && s.guard.None? && s.prefilled < c.Total()
    case CommitExport => s.phase.Decoded? && s.prefilled in s.mon.milestones && s.canonical.Some? && !ExportFits(s)
    case RecreateContext => s.phase.Resuming? && s.guard.None?
    case RestoreContext =>
      && s.phase.Resuming? && s.guard.None?
      && (s.prefilled in s.mon.snapshots ==> s.mon.snapshots[s.prefilled].data != [])
  }

  predicate BranchCanThrow(c: Config, s: State, n: Name, site: BranchSite) {
    n in c.Branches() && match site
    case ReadSource => AtExecute(c, s, n) && ForkSource(s.mon, s.canonical, c.Req(n)).Raised?
    case SizeContext =>
      && AtExecute(c, s, n) && ForkSource(s.mon, s.canonical, c.Req(n)).Ok?
      && ForkSource(s.mon, s.canonical, c.Req(n)).value.1 != []
    case AllocateBuffer => s.Pc(n).Sizing?
    case BufferSize => s.Pc(n).Sizing? && |s.Pc(n).data| > c.branchCap
    case CreateBranch => s.Pc(n).Copied?
    case RestoreBranch => s.Pc(n).Copied? && s.Pc(n).data != []
    case BindBranch => s.Pc(n).Copied? && s.Pc(n).data == [] && s.canonical.None?
    case TokenizePrompt => s.Pc(n).Copied? && CanRestore(s.Pc(n).data, s.canonical.Some?)
    case EmptyPromptSite => s.Pc(n).Live? && c.Prompt(n) == []
    case OverBudget => s.Pc(n).Live? && c.Prompt(n) != [] && !WithinBudget(s.Pc(n).len, |c.Prompt(n)|, c.nCtx)
    case BudgetTokenize => s.Pc(n).Live? && c.Prompt(n) != []
    case OversizePrompt =>
      && s.Pc(n).Live? && c.Prompt(n) != [] && WithinBudget(s.Pc(n).len, |c.Prompt(n)|, c.nCtx)
      && |c.Prompt(n)| > c.nBatch
    case DecodeBranch => s.Pc(n).Live? && PromptFits(c, n, s.Pc(n).len)
  }

  /** The prompt passes every check that it meets behind a prefix of `len` tokens. */
  predicate PromptFits(c: Config, n: Name, len: int) {
    c.Prompt(n) != [] && WithinBudget(len, |c.Prompt(n)|, c.nCtx) && |c.Prompt(n)| <= c.nBatch
  }

  predicate Enabled(c: Config, s: State, a: Action) {
    match a
    case Start => s.phase.Boot? && s.canonical.Some? && c.Total() < c.Limit()
    case DecodeChunk =>
      && s.phase.Head? && s.guard.None? && s.prefilled < c.Total() && s.ctx.Some? && 0 < c.nBatch
    case CommitPlain => s.phase.Decoded? && s.prefilled !in s.mon.milestones
    case ExportKv => s.phase.Decoded? && s.prefilled in s.mon.milestones && ExportFits(s)
    case ExportNothing(junk) =>
      // the engine reported 0 bytes; what it wrote into the buffer by then is arbitrary
      && s.phase.Decoded? && s.prefilled in s.mon.milestones && s.canonical.Some? && |junk| == |s.canonical.value|
    case PublishKv => s.phase.Exporting?
    case FreeContext => s.phase.Committed? && s.guard.None?
    case ConsumersGone => s.phase.Parked? && s.mon.ConsumersDone(s.prefilled)
    case Resume =>
      && s.phase.Resuming? && s.guard.None? && s.canonical.Some?
      && s.prefilled in s.mon.snapshots
      && (var data := s.mon.snapshots[s.prefilled].data; data == [] || Import(data).1 == |data|)
    case MarkComplete => s.phase.Head? && s.prefilled == c.Total()
    case ReleaseContext => s.phase.Finishing?
    case FulfilPrefill => s.phase.Leaving?
    case PrefillThrows(site) => PrefillCanThrow(c, s, site)
    case Proceed(n) =>
      && n in c.Branches() && s.Pc(n).Waiting? && s.Pc(n).i < |c.Deps(n)|
      && DependencyMet(c, s, n, c.Deps(n)[s.Pc(n).i])
    case Crash(n) =>
      && n in c.Branches() && s.Pc(n).Waiting? && s.Pc(n).i < |c.Deps(n)|
      && c.Deps(n)[s.Pc(n).i] !in c.nodes
    case Enter(n) => AtExecute(c, s, n) && ForkSource(s.mon, s.canonical, c.Req(n)).Ok?
    case Allocate(n) => n in c.Branches() && s.Pc(n).Sizing? && |s.Pc(n).data| <= c.branchCap
    case Restore(n) => n in c.Branches() && s.Pc(n).Copied? && CanRestore(s.Pc(n).data, s.canonical.Some?)
    case DecodePrompt(n) => n in c.Branches() && s.Pc(n).Live? && PromptFits(c, n, s.Pc(n).len)
    case SignalDone(n) => n in c.Branches() && s.Pc(n).Forked?
    case BranchThrows(n, site) => BranchCanThrow(c, s, n, site)
    case Catch(n) => n in c.Branches() && s.Pc(n).Throwing?
    case Fulfil(n) => n in c.Branches() && s.Pc(n).Leaving?
    case FreeAll => AllTerminated(c, s) && !s.freed
  }

  /** What a throw does to the number of open contexts: one may be created, or freed, before it. */
  function PrefillThrowOpens(site: PrefillSite): int {
    match site
    case BindContext => 1
    case TokenizeDocument => 1
    case RestoreContext => 1
    case _ => 0
  }

  function BranchThrowOpens(site: BranchSite): int {
    match site
    case AllocateBuffer => -1
    case BufferSize => -1
    case BindBranch => 1
    case TokenizePrompt => 1
    case EmptyPromptSite => -1
    case OverBudget => -1
    case BudgetTokenize => -1
    case OversizePrompt => -1
    case DecodeBranch => -1
    case _ => 0
  }

  function Apply(c: Config, s: State, a: Action): State
    requires Enabled(c, s, a)
  {
    match a
    case Start => s.(phase := Head, ctx := Some([]), open := s.open + 1)
    case DecodeChunk =>
      var chunk := Min(PREFILL_CHUNK, c.Total() - s.prefilled);
      s.(phase := Decoded, guard := Some(c.prefill), prefilled := s.prefilled + chunk,
         ctx := Some(s.ctx.value + Flatten(Batches(c.doc, s.prefilled, chunk, c.nBatch))))
    case CommitPlain => s.(phase := Head, guard := None, mon := s.mon.PublishPlain(s.prefilled))
    case ExportKv =>
      var data := Export(s.ctx.value);
      s.(phase := Exporting(data), canonical := Some(data + s.canonical.value[|data|..]))
    case ExportNothing(junk) => s.(phase := Exporting([]), canonical := Some(junk))
    case PublishKv => s.(phase := Committed, guard := None, mon := s.mon.PublishExport(s.prefilled, s.phase.data))
    case FreeContext => s.(phase := Parked, ctx := None, open := s.open - 1)
    case ConsumersGone => s.(phase := Resuming)
    case Resume =>
      s.(phase := Head, ctx := Some(Restored(s.mon.snapshots[s.prefilled].data)), open := s.open + 1)
    case MarkComplete => s.(phase := Finishing, mon := s.mon.MarkComplete())
    case ReleaseContext => s.(phase := Phase.Leaving(true), ctx := None, open := s.open - 1)
    case FulfilPrefill => s.(phase := Phase.Ended(s.phase.ok))
    case PrefillThrows(site) =>
      s.(phase := Phase.Leaving(false), ctx := None, open := s.open + PrefillThrowOpens(site),
         guard := if s.phase.Decoded? then None else s.guard)
    case Proceed(n) => s.Set(n, Waiting(s.Pc(n).i + 1))
    case Crash(n) => s.Set(n, Crashed)
    case Enter(n) =>
      var (len, data) := ForkSource(s.mon, s.canonical, c.Req(n)).value;
      s.Set(n, if data == [] then Copied(len, data) else Sizing(len, data))
       .(guard := Some(n), open := s.open + Bit(data != []))
    case Allocate(n) => s.Set(n, Copied(s.Pc(n).len, s.Pc(n).data)).(open := s.open - 1)
    case Restore(n) => s.Set(n, Live(s.Pc(n).len, Restored(s.Pc(n).data))).(open := s.open + 1)
    case DecodePrompt(n) =>
      s.Set(n, Forked(s.Pc(n).len, s.Pc(n).cells + CellsAt(c.Prompt(n), s.Pc(n).len))).(open := s.open - 1)
    case SignalDone(n) =>
      s.Set(n, Pc.Leaving(Succeeded(s.Pc(n).len, s.Pc(n).kv))).(guard := None, mon := s.mon.Signal(c.Req(n)))
    case BranchThrows(n, site) =>
      s.Set(n, Throwing)
       .(guard := if HoldsLock(s.Pc(n)) then None else s.guard, open := s.open + BranchThrowOpens(site))
    case Catch(n) => s.Set(n, Pc.Leaving(Threw)).(mon := s.mon.Signal(c.Req(n)))
    case Fulfil(n) => s.Set(n, Pc.Ended(s.Pc(n).verdict))
    case FreeAll => s.(freed := true)
  }

  // ------------------------------------------------------------------
  // Runs
  // ------------------------------------------------------------------

  /** The actions can be taken one after the other from s. */
  predicate IsRun(c: Config, s: State, run: seq<Action>)
    decreases |run|
  {
    run == [] || (Enabled(c, s, run[0]) && IsRun(c, Apply(c, s, run[0]), run[1..]))
  }

  function After(c: Config, s: State, run: seq<Action>): State
    requires IsRun(c, s, run)
    decreases |run|
  {
    if run == [] then s else After(c, Apply(c, s, run[0]), run[1..])
  }

  /** Runs compose action by action. */
  lemma {:induction false} RunAppends(c: Config, s: State, run: seq<Action>, a: Action)
    requires IsRun(c, s, run) && Enabled(c, After(c, s, run), a)
    ensures IsRun(c, s, run + [a]) && After(c, s, run + [a]) == Apply(c, After(c, s, run), a)
    decreases |run|
  {
    if run == [] {
      assert run + [a] == [a];
      assert [a][1..] == [];
    } else {
      RunAppends(c, Apply(c, s, run[0]), run[1..], a);
      assert (run + [a])[1..] == run[1..] + [a];
    }
  }

  /** The empty run, followed by one action. */
  lemma FirstAction(c: Config, s: State, a: Action) returns (run: seq<Action>)
    requires Enabled(c, s, a)
    ensures IsRun(c, s, run) && After(c, s, run) == Apply(c, s, a)
  {
    run := [a];
    assert run[1..] == [];
  }

  lemma NextAction(c: Config, s: State, before: seq<Action>, a: Action) returns (run: seq<Action>)
    requires IsRun(c, s, before) && Enabled(c, After(c, s, before), a)
    ensures IsRun(c, s, run) && After(c, s, run) == Apply(c, After(c, s, before), a)
  {
    run := before + [a];
    RunAppends(c, s, before, a);
  }

  /** A buffer of the configured capacity, with arbitrary contents. */
  predicate BufferMatches(c: Config, buffer: Option<seq<byte>>) {
    buffer.Some? == c.canonicalCap.Some? && (buffer.Some? ==> |buffer.value| == c.canonicalCap.value)
  }
}
