/** The inductive invariant of the transition system, one predicate per concern. */
module ProtocolInvariant {
  import opened Common
  import opened KvCache
  import opened PrefixSpec
  import opened ForkSpec
  import opened ContextBudget
  import opened DependencyGraph
  import opened Protocol

  // ------------------------------------------------------------------
  // The predicates
  // ------------------------------------------------------------------

  ghost predicate Shape(c: Config, s: State) {
    && s.pcs.Keys == c.Branches()
    && (forall n :: n in c.Branches() && s.Pc(n).Waiting? ==> s.Pc(n).i <= |c.Deps(n)|)
    && s.mon.milestones == c.Milestones()
    && BufferMatches(c, s.canonical)
    && (s.freed ==> AllTerminated(c, s))
    && (forall n :: n in c.Branches() && s.Pc(n).Crashed? ==> Orphaned(c, n))
  }

  /** Where in a dependency list the first unregistered name stands, or the end of the list. */
  function FirstUnregistered(nodes: set<Name>, deps: seq<Name>): (i: nat)
    ensures i <= |deps| && (forall j :: 0 <= j < i ==> deps[j] in nodes) && (i < |deps| ==> deps[i] !in nodes)
  {
    if deps == [] || deps[0] !in nodes then 0 else 1 + FirstUnregistered(nodes, deps[1..])
  }

  /** The waits that n can get past: all before the first one that names no node. */
  function FirstMissing(c: Config, n: Name): (i: nat)
    ensures i <= |c.Deps(n)|
  {
    FirstUnregistered(c.nodes.Keys, c.Deps(n))
  }

  /** Some dependency of n names a node that was never registered. */
  predicate Orphaned(c: Config, n: Name) {
    FirstMissing(c, n) < |c.Deps(n)|
  }

  /** The global lock is held by exactly the worker that is inside a locked section. */
  ghost predicate LockInv(c: Config, s: State) {
    && (s.guard == Some(c.prefill) <==> s.phase.Decoded? || s.phase.Exporting?)
    && (forall n :: n in c.Branches() ==> (s.guard == Some(n) <==> HoldsLock(s.Pc(n))))
    && (s.guard.Some? ==> s.guard.value in c.nodes)
  }

  predicate PrefillFailed(s: State) {
    (s.phase.Leaving? || s.phase.Ended?) && !s.phase.ok
  }

  /** The live prefill context holds the document from token b to the token reached. */
  predicate Holds(c: Config, s: State, b: int) {
    0 <= b <= s.prefilled <= c.Total() && s.ctx == Some(Span(c.doc, b, s.prefilled))
  }

  /** The prefill context in each phase: the document since the last empty export. */
  ghost predicate PrefillInv(c: Config, s: State) {
    && s.prefilled <= c.Total()
    && (!s.phase.Boot? && !PrefillFailed(s) ==> s.canonical.Some? && c.Total() < c.Limit())
    && match s.phase
       case Boot => s.prefilled == 0 == s.mon.watermark && s.ctx == None
       case Head => Holds(c, s, Base(s.mon.snapshots, s.mon.watermark)) && s.mon.watermark == s.prefilled
       case Decoded => Holds(c, s, Base(s.mon.snapshots, s.mon.watermark)) && BetweenCommits(c, s)
       case Exporting(data) =>
         && Holds(c, s, Base(s.mon.snapshots, s.mon.watermark)) && BetweenCommits(c, s)
         && s.prefilled in s.mon.milestones && s.canonical.Some?
         && |data| <= |s.canonical.value| && s.canonical.value[..|data|] == data
         && (data == [] || data == Export(s.ctx.value))
       case Committed =>
         Holds(c, s, Base(s.mon.snapshots, s.prefilled - 1)) && s.mon.watermark == s.prefilled && c.Gate(s.prefilled)
       case Parked => s.ctx == None && s.mon.watermark == s.prefilled && c.Gate(s.prefilled)
       case Resuming => s.ctx == None && s.mon.watermark == s.prefilled && c.Gate(s.prefilled)
       case Finishing =>
         && Holds(c, s, Base(s.mon.snapshots, s.mon.watermark)) && s.mon.watermark == s.prefilled == c.Total()
         && s.mon.complete
       case Leaving(ok) => s.ctx == None && (ok ==> s.mon.watermark == s.prefilled == c.Total() && s.mon.complete)
       case Ended(ok) => s.ctx == None && (ok ==> s.mon.watermark == s.prefilled == c.Total() && s.mon.complete)
  }

  /** The next commit point was decoded and is not published yet. */
  ghost predicate BetweenCommits(c: Config, s: State) {
    && 0 <= s.mon.watermark < c.Total() && s.mon.watermark % PREFILL_CHUNK == 0
    && s.prefilled == Min(s.mon.watermark + PREFILL_CHUNK, c.Total())
  }

  /** The monitor's promises, and the canonical triple outside the export itself. */
  ghost predicate MonitorInv(c: Config, s: State) {
    && Published(c.doc, s.mon)
    && (s.canonical.None? ==> s.mon.prefixSeqLen == 0 && s.mon.prefixKvBytes == 0 && s.mon.watermark == 0)
    && (s.canonical.Some? && !s.phase.Exporting? ==> Canonical(s.mon, s.canonical.value))
  }

  function Unsignalled(c: Config, pcs: map<Name, Pc>, w: int): set<Name> {
    set n | n in c.Consumers(w) && !(n in pcs && Signalled(pcs[n]))
  }

  ghost predicate CounterInv(c: Config, s: State) {
    && s.mon.remaining.Keys == c.Milestones()
    && (forall w :: w in c.Milestones() ==> s.mon.remaining[w] == |Unsignalled(c, s.pcs, w)|)
  }

  function Passed(c: Config, n: Name, pc: Pc): nat {
    match pc
    case Waiting(i) => i
    case Crashed => FirstMissing(c, n)
    case _ => |c.Deps(n)|
  }

  /** Every dependency a worker has gone past is still met. */
  ghost predicate WaitInv(c: Config, s: State) {
    forall n, j :: n in c.Branches() && 0 <= j < Passed(c, n, s.Pc(n)) && j < |c.Deps(n)| ==>
      DependencyMet(c, s, n, c.Deps(n)[j])
  }

  /** The fork length a branch can have, by its requirement: a frozen milestone, or 0 if it named none. */
  predicate ForkLength(c: Config, snapshots: map<int, Snapshot>, n: Name, len: int) {
    && 0 <= len <= c.Total() && (c.Req(n) >= 0 ==> len == c.Req(n))
    && ((len == 0 && c.Req(n) < 0) || (len in snapshots && c.Gate(len)))
  }

  /** What a branch holds at each point of execute, in terms of what is frozen at its fork length. */
  ghost predicate PcInv(c: Config, snapshots: map<int, Snapshot>, n: Name, pc: Pc) {
    match pc
    case Sizing(len, data) => ForkLength(c, snapshots, n, len) && data == BytesAt(snapshots, len) && data != []
    case Copied(len, data) =>
      ForkLength(c, snapshots, n, len) && data == BytesAt(snapshots, len) && |data| <= c.branchCap
    case Live(len, cells) =>
      && ForkLength(c, snapshots, n, len) && |BytesAt(snapshots, len)| <= c.branchCap
      && cells == Span(c.doc, Base(snapshots, len), len)
    case Forked(len, kv) => ForkVerdict(c, snapshots, n, len, kv)
    case Leaving(Succeeded(len, kv)) => ForkVerdict(c, snapshots, n, len, kv)
    case Ended(Succeeded(len, kv)) => ForkVerdict(c, snapshots, n, len, kv)
    case _ => true
  }

  ghost predicate ForkVerdict(c: Config, snapshots: map<int, Snapshot>, n: Name, len: int, kv: seq<Cell>) {
    && ForkLength(c, snapshots, n, len) && |BytesAt(snapshots, len)| <= c.branchCap
    && kv == ForkKv(c.doc, Base(snapshots, len), len, c.Prompt(n))
    && PromptFits(c, n, len)
  }

  ghost predicate BranchInv(c: Config, s: State) {
    forall n :: n in c.Branches() ==> PcInv(c, s.mon.snapshots, n, s.Pc(n))
  }

  /** The prefix length a branch forked at, once it read its source. */
  function ForkedAt(pc: Pc): Option<int> {
    match pc
    case Sizing(len, _) => Some(len)
    case Copied(len, _) => Some(len)
    case Live(len, _) => Some(len)
    case Forked(len, _) => Some(len)
    case Leaving(Succeeded(len, _)) => Some(len)
    case Ended(Succeeded(len, _)) => Some(len)
    case _ => None
  }

  /** Who waits for whom among the branches. */
  function WaitGraph(c: Config): Graph { map n | n in c.Branches() :: c.Deps(n) }

  /** v waits, directly or through other branches, for branch u (or is u). */
  ghost predicate Upstream(c: Config, v: Name, u: Name) {
    u in c.Branches() && Reaches(WaitGraph(c), v, u)
  }

  lemma SelfUpstream(c: Config, v: Name)
    requires v in c.Branches()
    ensures Upstream(c, v, v)
  {
    assert IsWalk(WaitGraph(c), [v]);
  }

  /** A branch that names no watermark waits, directly or through other branches, for the prefill thread itself. */
  ghost predicate AwaitsPrefill(c: Config, n: Name) {
    c.Req(n) < 0 && exists u :: Upstream(c, n, u) && c.prefill in c.Deps(u) && c.Req(u) < 0
  }

  /** Such a branch forks from the final canonical export. */
  ghost predicate LateInv(c: Config, s: State) {
    forall n :: n in c.Branches() && AwaitsPrefill(c, n) && ForkedAt(s.Pc(n)).Some? ==>
      s.PrefillFulfilled() && ForkedAt(s.Pc(n)).value == s.mon.prefixSeqLen
  }

  // ------------------------------------------------------------------
  // Gates
  // ------------------------------------------------------------------

  /** All that v transitively waits for is available once the watermark is `level` and the prefill still runs. */
  ghost predicate NeedsWithin(c: Config, v: Name, level: int) {
    forall u :: Upstream(c, v, u) ==> DirectNeeds(c, u, level)
  }

  predicate DirectNeeds(c: Config, u: Name, level: int) {
    forall j :: 0 <= j < |c.Deps(u)| ==>
      c.Deps(u)[j] in c.nodes && (c.Deps(u)[j] == c.prefill ==> 0 <= c.Req(u) <= level)
  }

  predicate GatePassed(c: Config, s: State, m: int) {
    c.Gate(m)
    && (m < s.mon.watermark
        || (m == s.mon.watermark
            && (s.phase.Resuming? || s.phase.Head? || s.phase.Decoded? || s.phase.Exporting? || s.phase.Finishing?
                || ((s.phase.Leaving? || s.phase.Ended?) && s.phase.ok))))
  }

  /** Behind a passed gate every consumer has signalled, and waited for nothing beyond the gate. */
  ghost predicate GateInv(c: Config, s: State) {
    forall m :: GatePassed(c, s, m) ==>
      Unsignalled(c, s.pcs, m) == {} && forall v :: v in c.Consumers(m) ==> NeedsWithin(c, v, m)
  }

  ghost predicate Inv(c: Config, s: State) {
    && c.Valid()
    && Shape(c, s) && LockInv(c, s) && PrefillInv(c, s) && MonitorInv(c, s)
    && CounterInv(c, s) && WaitInv(c, s) && BranchInv(c, s) && LateInv(c, s) && GateInv(c, s)
  }

  // ------------------------------------------------------------------
  // Frames
  // ------------------------------------------------------------------

  predicate ByPrefill(a: Action) {
    a.Start? || a.DecodeChunk? || a.CommitPlain? || a.ExportKv? || a.ExportNothing? || a.PublishKv? || a.FreeContext?
    || a.ConsumersGone? || a.Resume? || a.MarkComplete? || a.ReleaseContext? || a.FulfilPrefill? || a.PrefillThrows?
  }

  predicate ByBranch(a: Action) { !ByPrefill(a) && !a.FreeAll? }

  function Actor(a: Action): Name
    requires ByBranch(a)
  {
    a.n
  }

  /** A branch touches only its own program counter, the lock, the context count and the consumer counters. */
  lemma BranchFrame(c: Config, s: State, a: Action)
    requires Enabled(c, s, a) && !ByPrefill(a)
    ensures var s' := Apply(c, s, a);
      s'.phase == s.phase && s'.prefilled == s.prefilled && s'.ctx == s.ctx && s'.canonical == s.canonical
      && s'.mon.(remaining := s.mon.remaining) == s.mon
      && (ByBranch(a) ==> Actor(a) in c.Branches() && s'.pcs == s.pcs[Actor(a) := s'.Pc(Actor(a))])
      && (a.FreeAll? ==> s'.pcs == s.pcs)
  {
  }

  /** The prefiller touches no branch and no counter, and its watermark never falls. */
  lemma PrefillFrame(c: Config, s: State, a: Action)
    requires Enabled(c, s, a) && ByPrefill(a)
    ensures var s' := Apply(c, s, a);
      s'.pcs == s.pcs && s'.freed == s.freed && s'.mon.remaining == s.mon.remaining
      && s'.mon.milestones == s.mon.milestones
  {
  }

  // ------------------------------------------------------------------
  // Preservation
  // ------------------------------------------------------------------

  lemma ShapeKept(c: Config, s: State, a: Action)
    requires Shape(c, s) && WaitInv(c, s) && Enabled(c, s, a) && c.Valid()
    ensures Shape(c, Apply(c, s, a))
  {
    hide WaitInv;
    if ByPrefill(a) {
      PrefillFrame(c, s, a);
      PrefillShape(c, s, a);
    } else {
      BranchFrame(c, s, a);
      BranchShape(c, s, a);
    }
  }

  /** No prefill action is possible once the pool was freed, and the staging buffer keeps its size. */
  lemma PrefillShape(c: Config, s: State, a: Action)
    requires Shape(c, s) && Enabled(c, s, a) && ByPrefill(a)
    ensures !s.freed && BufferMatches(c, Apply(c, s, a).canonical)
  {
  }

  lemma BranchShape(c: Config, s: State, a: Action)
    requires Shape(c, s) && WaitInv(c, s) && Enabled(c, s, a) && !ByPrefill(a)
    ensures !s.freed && (Apply(c, s, a).freed ==> a.FreeAll?)
    ensures ByBranch(a) && Apply(c, s, a).Pc(Actor(a)).Waiting? ==> Apply(c, s, a).Pc(Actor(a)).i <= |c.Deps(Actor(a))|
    ensures ByBranch(a) && Apply(c, s, a).Pc(Actor(a)).Crashed? ==> Orphaned(c, Actor(a))
  {
    if a.Crash? {
      CrashIsAtFirstMissing(c, s, a.n);
    }
  }

  /** Every wait that a worker has gone past names a registered node. */
  lemma PassedAreRegistered(c: Config, s: State, n: Name)
    requires WaitInv(c, s) && n in c.Branches() && s.Pc(n).Waiting? && s.Pc(n).i <= |c.Deps(n)|
    ensures forall j :: 0 <= j < s.Pc(n).i ==> c.Deps(n)[j] in c.nodes
  {
    forall j | 0 <= j < s.Pc(n).i
      ensures c.Deps(n)[j] in c.nodes
    {
      assert DependencyMet(c, s, n, c.Deps(n)[j]);
    }
  }

  /** A worker crashes at the first unregistered name: it got past all the earlier waits. */
  lemma CrashIsAtFirstMissing(c: Config, s: State, n: Name)
    requires WaitInv(c, s) && Enabled(c, s, Crash(n))
    ensures s.Pc(n) == Waiting(FirstMissing(c, n)) && Orphaned(c, n)
  {
    PassedAreRegistered(c, s, n);
  }

  lemma LockKept(c: Config, s: State, a: Action)
    requires Shape(c, s) && LockInv(c, s) && Enabled(c, s, a) && c.Valid()
    ensures LockInv(c, Apply(c, s, a))
  {
    hide Enabled, Apply;
    if ByPrefill(a) {
      PrefillFrame(c, s, a);
      PrefillLock(c, s, a);
    } else {
      BranchFrame(c, s, a);
      BranchLock(c, s, a);
    }
  }

  lemma PrefillLock(c: Config, s: State, a: Action)
    requires LockInv(c, s) && Enabled(c, s, a) && ByPrefill(a)
    ensures var s' := Apply(c, s, a);
      (s'.phase.Decoded? || s'.phase.Exporting?) == (s'.guard == Some(c.prefill))
      && (s'.guard == s.guard || (s.guard in {None, Some(c.prefill)} && s'.guard in {None, Some(c.prefill)}))
  {
  }

  lemma BranchLock(c: Config, s: State, a: Action)
    requires LockInv(c, s) && Enabled(c, s, a) && !ByPrefill(a)
    ensures var s' := Apply(c, s, a);
      if a.FreeAll? then s'.guard == s.guard else
        && (s'.guard == s.guard || (s.guard in {None, Some(Actor(a))} && s'.guard in {None, Some(Actor(a))}))
        && (HoldsLock(s'.Pc(Actor(a))) <==> s'.guard == Some(Actor(a)))
  {
  }

  /** Decoding the next chunk keeps the context equal to the document, position by position. */
  lemma DecodeChunkKept(c: Config, s: State)
    requires PrefillInv(c, s) && Published(c.doc, s.mon) && Enabled(c, s, DecodeChunk)
    ensures PrefillInv(c, Apply(c, s, DecodeChunk))
  {
    hide Published, Base, Span, Batches, Flatten, CommitPoint;
    ChunkBoundary(c.doc, s.mon);
    var b := Base(s.mon.snapshots, s.mon.watermark);
    ChunkExtendsSpan(c.doc, b, s.prefilled, Min(PREFILL_CHUNK, c.Total() - s.prefilled), c.nBatch);
  }

  /**
   * The rebuilt context is the one that was freed, unless the milestone was exported empty:
   * then the silent return of the restore leaves it empty, in mid-document.
   */
  lemma ResumeKept(c: Config, s: State)
    requires PrefillInv(c, s) && Frozen(c.doc, s.mon) && Enabled(c, s, Resume) && c.Valid()
    ensures PrefillInv(c, Apply(c, s, Resume))
    ensures Holds(c, Apply(c, s, Resume), Base(s.mon.snapshots, s.prefilled))
    ensures s.mon.snapshots[s.prefilled].data == [] <==> Apply(c, s, Resume).ctx == Some([])
  {
    RestoredIsSpan(c.doc, s.mon, s.prefilled);
  }

  lemma PrefillKept(c: Config, s: State, a: Action)
    requires PrefillInv(c, s) && Shape(c, s) && Published(c.doc, s.mon) && c.Valid() && Enabled(c, s, a)
    ensures PrefillInv(c, Apply(c, s, a))
  {
    hide PrefillInv, Shape, Frozen, IsLatest, Enabled, Apply;
    if !ByPrefill(a) {
      BranchPrefillKept(c, s, a);
    } else if a.DecodeChunk? {
      DecodeChunkKept(c, s);
    } else if a.Resume? {
      ResumeKept(c, s);
    } else if a.CommitPlain? {
      CommitPlainKept(c, s);
    } else if a.PublishKv? {
      PublishKept(c, s);
    } else if a.ExportKv? || a.ExportNothing? {
      ExportKept(c, s, a);
    } else {
      OtherPrefillKept(c, s, a);
    }
  }

  lemma BranchPrefillKept(c: Config, s: State, a: Action)
    requires PrefillInv(c, s) && Enabled(c, s, a) && !ByPrefill(a)
    ensures PrefillInv(c, Apply(c, s, a))
  {
    hide Enabled, Apply;
    BranchFrame(c, s, a);
  }

  lemma ExportKept(c: Config, s: State, a: Action)
    requires PrefillInv(c, s) && Enabled(c, s, a) && (a.ExportKv? || a.ExportNothing?)
    ensures PrefillInv(c, Apply(c, s, a))
  {
  }

  lemma CommitPlainKept(c: Config, s: State)
    requires PrefillInv(c, s) && Shape(c, s) && Published(c.doc, s.mon) && Enabled(c, s, CommitPlain)
    ensures PrefillInv(c, Apply(c, s, CommitPlain))
  {
    PublishPlainKeeps(c.doc, s.mon, s.prefilled);
  }

  /** Publishing a milestone leaves the context as it is: only a restore can start from the new base. */
  lemma PublishKept(c: Config, s: State)
    requires PrefillInv(c, s) && Shape(c, s) && Published(c.doc, s.mon) && Enabled(c, s, PublishKv)
    ensures PrefillInv(c, Apply(c, s, PublishKv))
  {
    hide Published, Base, Span, Export, CommitPoint;
    var s' := Apply(c, s, PublishKv);
    var n, data := s.prefilled, s.phase.data;
    NextCommitPoint(c.Total(), s.mon.watermark, n);
    assert c.Gate(n);
    PublishedBases(c.doc, s.mon, n, data);
    assert Holds(c, s', Base(s'.mon.snapshots, n - 1));
  }

  lemma OtherPrefillKept(c: Config, s: State, a: Action)
    requires PrefillInv(c, s) && Shape(c, s) && c.Valid() && Enabled(c, s, a) && ByPrefill(a)
    requires a.Start? || a.FreeContext? || a.ConsumersGone? || a.MarkComplete? || a.ReleaseContext?
      || a.FulfilPrefill? || a.PrefillThrows?
    ensures PrefillInv(c, Apply(c, s, a))
  {
    assert Span(c.doc, 0, 0) == [];
    hide Span, Base, CommitPoint;
    if a.PrefillThrows? {
      ThrowKept(c, s, a.prefillSite);
    }
  }

  /** A failed prefill promises only that its context is gone. */
  lemma ThrowKept(c: Config, s: State, site: PrefillSite)
    requires s.prefilled <= c.Total() && Enabled(c, s, PrefillThrows(site))
    ensures PrefillInv(c, Apply(c, s, PrefillThrows(site)))
  {
  }

  lemma MonitorKept(c: Config, s: State, a: Action)
    requires MonitorInv(c, s) && PrefillInv(c, s) && Shape(c, s) && Enabled(c, s, a)
    ensures MonitorInv(c, Apply(c, s, a))
  {
    hide MonitorInv, PrefillInv, Shape, Apply;
    if !ByPrefill(a) {
      BranchMonitorKept(c, s, a);
    } else if a.CommitPlain? {
      PlainMonitorKept(c, s);
    } else if a.PublishKv? {
      PublishKvKept(c, s);
    } else if a.ExportKv? || a.ExportNothing? {
      ExportMonitorKept(c, s, a);
    } else {
      QuietMonitorKept(c, s, a);
    }
  }

  /** An export publishes nothing; until it is published the canonical triple promises nothing. */
  lemma ExportMonitorKept(c: Config, s: State, a: Action)
    requires MonitorInv(c, s) && Enabled(c, s, a) && (a.ExportKv? || a.ExportNothing?)
    ensures MonitorInv(c, Apply(c, s, a))
  {
  }

  lemma QuietMonitorKept(c: Config, s: State, a: Action)
    requires MonitorInv(c, s) && Enabled(c, s, a) && ByPrefill(a) && !a.CommitPlain? && !a.PublishKv?
    requires !a.ExportKv? && !a.ExportNothing?
    ensures MonitorInv(c, Apply(c, s, a))
  {
    QuietPrefill(c, s, a);
  }

  /** Signals change nothing that the monitor promises about the document. */
  lemma BranchMonitorKept(c: Config, s: State, a: Action)
    requires MonitorInv(c, s) && Enabled(c, s, a) && !ByPrefill(a)
    ensures MonitorInv(c, Apply(c, s, a))
  {
    hide Enabled, Apply;
    BranchFrame(c, s, a);
    CountersAreApart(c.doc, s.mon, Apply(c, s, a).mon);
  }

  lemma PlainMonitorKept(c: Config, s: State)
    requires MonitorInv(c, s) && PrefillInv(c, s) && Shape(c, s) && Enabled(c, s, CommitPlain)
    ensures MonitorInv(c, Apply(c, s, CommitPlain))
  {
    PublishPlainKeeps(c.doc, s.mon, s.prefilled);
  }

  /** Publishing makes the canonical triple consistent again. */
  lemma PublishKvKept(c: Config, s: State)
    requires MonitorInv(c, s) && PrefillInv(c, s) && Shape(c, s) && Enabled(c, s, PublishKv)
    ensures MonitorInv(c, Apply(c, s, PublishKv))
  {
    PublishExportKeeps(c.doc, s.mon, s.prefilled, s.phase.data);
    ExportIsCanonical(s.mon, s.prefilled, s.phase.data, s.canonical.value);
  }

  /** The other prefill actions change neither the canonical triple nor what is frozen. */
  lemma QuietPrefill(c: Config, s: State, a: Action)
    requires Enabled(c, s, a) && ByPrefill(a) && !a.CommitPlain? && !a.PublishKv?
    requires !a.ExportKv? && !a.ExportNothing?
    ensures var s' := Apply(c, s, a);
      && s'.canonical == s.canonical && s'.mon.(complete := s.mon.complete) == s.mon
      && !s'.phase.Exporting? && !s.phase.Exporting?
  {
  }

  predicate Signals(a: Action) { a.SignalDone? || a.Catch? }

  /** Only SignalDone and Catch change who has signalled, and only for their own branch. */
  lemma SignalStep(c: Config, s: State, a: Action, n: Name)
    requires Shape(c, s) && Enabled(c, s, a) && n in c.Branches()
    ensures Signalled(Apply(c, s, a).Pc(n)) <==> Signalled(s.Pc(n)) || (Signals(a) && a.n == n)
    ensures Signals(a) ==> !Signalled(s.Pc(a.n))
    ensures Apply(c, s, a).pcs.Keys == s.pcs.Keys
    ensures Apply(c, s, a).mon.remaining == (if Signals(a) then s.mon.Signal(c.Req(a.n)).remaining else s.mon.remaining)
  {
    hide Enabled, Apply;
    if ByPrefill(a) {
      PrefillFrame(c, s, a);
    } else {
      BranchSignalStep(c, s, a, n);
    }
  }

  lemma BranchSignalStep(c: Config, s: State, a: Action, n: Name)
    requires s.pcs.Keys == c.Branches() && Enabled(c, s, a) && !ByPrefill(a) && n in c.Branches()
    ensures Signalled(Apply(c, s, a).Pc(n)) <==> Signalled(s.Pc(n)) || (Signals(a) && a.n == n)
    ensures Signals(a) ==> !Signalled(s.Pc(a.n))
    ensures Apply(c, s, a).pcs.Keys == s.pcs.Keys
    ensures Apply(c, s, a).mon.remaining == (if Signals(a) then s.mon.Signal(c.Req(a.n)).remaining else s.mon.remaining)
  {
  }

  /** The unsignalled consumers of w lose exactly the branch that signals. */
  lemma UnsignalledStep(c: Config, s: State, a: Action, w: int)
    requires Shape(c, s) && Enabled(c, s, a)
    ensures var before, after := Unsignalled(c, s.pcs, w), Unsignalled(c, Apply(c, s, a).pcs, w);
      if Signals(a) && c.Req(a.n) == w then a.n in before && after == before - {a.n} else after == before
  {
    hide Enabled, Apply;
    var pcs, pcs' := s.pcs, Apply(c, s, a).pcs;
    var signaller := if Signals(a) then {a.n} else {};
    forall n | n in c.Branches()
      ensures n in pcs && n in pcs' && (Signalled(pcs'[n]) <==> Signalled(pcs[n]) || n in signaller)
      ensures n in signaller ==> !Signalled(pcs[n])
    {
      SignalStep(c, s, a, n);
    }
    if Signals(a) {
      BranchFrame(c, s, a);
    }
    UnsignalledLose(c, pcs, pcs', signaller, w);
  }

  lemma UnsignalledLose(c: Config, pcs: map<Name, Pc>, pcs': map<Name, Pc>, signaller: set<Name>, w: int)
    requires signaller <= c.Branches() && forall n :: n in c.Branches() ==>
      n in pcs && n in pcs' && (Signalled(pcs'[n]) <==> Signalled(pcs[n]) || n in signaller)
    ensures Unsignalled(c, pcs', w) == Unsignalled(c, pcs, w) - signaller
    ensures forall n :: n in signaller && c.Req(n) == w && !Signalled(pcs[n]) ==> n in Unsignalled(c, pcs, w)
    ensures forall n :: n in signaller && c.Req(n) != w ==> n !in Unsignalled(c, pcs, w)
  {
  }

  /** A counter changes only when its consumer signals, and then both sides drop by one. */
  lemma CounterKept(c: Config, s: State, a: Action)
    requires CounterInv(c, s) && Shape(c, s) && Enabled(c, s, a)
    ensures CounterInv(c, Apply(c, s, a))
  {
    hide Enabled, Apply;
    var s' := Apply(c, s, a);
    SignalStepCounters(c, s, a);
    forall w | w in c.Milestones()
      ensures s'.mon.remaining[w] == |Unsignalled(c, s'.pcs, w)|
    {
      UnsignalledStep(c, s, a, w);
    }
  }

  lemma SignalStepCounters(c: Config, s: State, a: Action)
    requires Enabled(c, s, a) && Shape(c, s) && CounterInv(c, s)
    ensures var r := Apply(c, s, a).mon.remaining;
      r.Keys == s.mon.remaining.Keys
      && forall w :: w in r ==> r[w] == s.mon.remaining[w] - (if Signals(a) && c.Req(a.n) == w then 1 else 0)
  {
    if ByPrefill(a) {
      PrefillFrame(c, s, a);
    }
  }

  lemma WaitKept(c: Config, s: State, a: Action)
    requires WaitInv(c, s) && Shape(c, s) && MonitorInv(c, s) && PrefillInv(c, s) && Enabled(c, s, a)
    ensures WaitInv(c, Apply(c, s, a))
  {
    hide DependencyMet, MonitorInv, PrefillInv, Shape;
    var s' := Apply(c, s, a);
    if a.Crash? {
      CrashIsAtFirstMissing(c, s, a.n);
    }
    forall n, j | n in c.Branches() && 0 <= j < Passed(c, n, s'.Pc(n)) && j < |c.Deps(n)|
      ensures DependencyMet(c, s', n, c.Deps(n)[j])
    {
      MetIsStable(c, s, a, n, c.Deps(n)[j]);
    }
  }

  /** A met dependency stays met: watermarks only rise and promises stay fulfilled. */
  lemma MetIsStable(c: Config, s: State, a: Action, n: Name, dep: Name)
    requires Shape(c, s) && PrefillInv(c, s) && Enabled(c, s, a)
    ensures DependencyMet(c, s, n, dep) ==> DependencyMet(c, Apply(c, s, a), n, dep)
  {
    if !ByPrefill(a) {
      BranchFrame(c, s, a);
      EndedIsFinal(c, s, a);
    } else {
      PrefillFrame(c, s, a);
      WatermarkRises(c, s, a);
    }
  }

  /** A fulfilled promise is never set again, and never changes its verdict. */
  lemma EndedIsFinal(c: Config, s: State, a: Action)
    requires Enabled(c, s, a) && !ByPrefill(a)
    ensures forall n :: s.Pc(n).Ended? ==> Apply(c, s, a).Pc(n) == s.Pc(n)
  {
  }

  /** The watermark never falls although it is assigned without a maximum, and publishing raises it. */
  lemma WatermarkRises(c: Config, s: State, a: Action)
    requires PrefillInv(c, s) && Enabled(c, s, a) && ByPrefill(a)
    ensures s.mon.watermark <= Apply(c, s, a).mon.watermark
    ensures a.CommitPlain? || a.PublishKv? ==> s.mon.watermark < Apply(c, s, a).mon.watermark
    ensures !a.CommitPlain? && !a.PublishKv? ==> s.mon.watermark == Apply(c, s, a).mon.watermark
    ensures s.phase.Ended? ==> Apply(c, s, a).phase == s.phase
  {
  }

  lemma BranchKept(c: Config, s: State, a: Action)
    requires BranchInv(c, s) && MonitorInv(c, s) && PrefillInv(c, s) && LockInv(c, s) && Shape(c, s)
    requires c.Valid() && Enabled(c, s, a)
    ensures BranchInv(c, Apply(c, s, a))
  {
    if a.PublishKv? {
      PublishMovesNoFork(c, s);
    } else if ByPrefill(a) {
      PrefillFrame(c, s, a);
      OnlyPublishFreezes(c, s, a);
    } else {
      ActorsKept(c, s, a);
    }
  }

  lemma ActorsKept(c: Config, s: State, a: Action)
    requires BranchInv(c, s) && MonitorInv(c, s) && LockInv(c, s) && Shape(c, s) && c.Valid()
    requires Enabled(c, s, a) && !ByPrefill(a)
    ensures BranchInv(c, Apply(c, s, a))
  {
    hide MonitorInv, LockInv, Shape, PcInv, Enabled, Apply;
    BranchFrame(c, s, a);
    if ByBranch(a) {
      ActorKept(c, s, a);
    }
  }

  lemma OnlyPublishFreezes(c: Config, s: State, a: Action)
    requires Enabled(c, s, a) && ByPrefill(a) && !a.PublishKv?
    ensures Apply(c, s, a).mon.snapshots == s.mon.snapshots
  {
  }

  /** What is frozen later changes nothing for a branch that has read its source. */
  lemma PublishMovesNoFork(c: Config, s: State)
    requires BranchInv(c, s) && Frozen(c.doc, s.mon) && PrefillInv(c, s) && Enabled(c, s, PublishKv)
    ensures BranchInv(c, Apply(c, s, PublishKv))
  {
    var s' := Apply(c, s, PublishKv);
    forall n | n in c.Branches()
      ensures PcInv(c, s'.mon.snapshots, n, s'.Pc(n))
    {
      PcIsStable(c, s.mon.snapshots, n, s.Pc(n), s.prefilled, Snapshot(s.phase.data, s.prefilled));
    }
  }

  lemma PcIsStable(c: Config, snapshots: map<int, Snapshot>, n: Name, pc: Pc, w: int, snapshot: Snapshot)
    requires PcInv(c, snapshots, n, pc) && 0 < w && forall v :: v in snapshots ==> v < w
    ensures PcInv(c, snapshots[w := snapshot], n, pc)
  {
    var at := ForkedAt(pc);
    if at.Some? && at.value < w {
      BaseIsStable(snapshots, w, snapshot, at.value);
    }
  }

  lemma ActorKept(c: Config, s: State, a: Action)
    requires BranchInv(c, s) && MonitorInv(c, s) && LockInv(c, s) && Shape(c, s) && c.Valid()
    requires Enabled(c, s, a) && ByBranch(a)
    ensures PcInv(c, s.mon.snapshots, Actor(a), Apply(c, s, a).Pc(Actor(a)))
  {
    hide MonitorInv, LockInv, Shape, Base, BytesAt, WithinBudget, Export;
    var n := Actor(a);
    assert PcInv(c, s.mon.snapshots, n, s.Pc(n));
    if a.Enter? {
      EnterKept(c, s, n);
    } else if a.Restore? {
      RestoreKept(c, s, n);
    }
  }

  lemma RestoreKept(c: Config, s: State, n: Name)
    requires PcInv(c, s.mon.snapshots, n, s.Pc(n)) && MonitorInv(c, s) && c.Valid() && Enabled(c, s, Restore(n))
    ensures PcInv(c, s.mon.snapshots, n, Apply(c, s, Restore(n)).Pc(n))
  {
    var len := s.Pc(n).len;
    if len in s.mon.snapshots {
      RestoredIsSpan(c.doc, s.mon, len);
    }
  }

  /** While a branch holds the lock, what it reads as its fork source is what is frozen at its fork length. */
  lemma EnterKept(c: Config, s: State, n: Name)
    requires MonitorInv(c, s) && LockInv(c, s) && Shape(c, s) && c.Valid() && Enabled(c, s, Enter(n))
    ensures PcInv(c, s.mon.snapshots, n, Apply(c, s, Enter(n)).Pc(n))
  {
    ForkSourceSound(c.doc, s.mon, s.canonical, c.Req(n));
  }

  lemma LateKept(c: Config, s: State, a: Action)
    requires LateInv(c, s) && WaitInv(c, s) && Shape(c, s) && PrefillInv(c, s) && MonitorInv(c, s) && Enabled(c, s, a)
    ensures LateInv(c, Apply(c, s, a))
  {
    if ByPrefill(a) {
      PrefillFrame(c, s, a);
      EndedPrefillIsFinal(c, s, a);
    } else {
      LateBranchKept(c, s, a);
    }
  }

  lemma LateBranchKept(c: Config, s: State, a: Action)
    requires LateInv(c, s) && WaitInv(c, s) && Shape(c, s) && Enabled(c, s, a) && !ByPrefill(a)
    ensures LateInv(c, Apply(c, s, a))
  {
    hide WaitInv, Shape, AwaitsPrefill, Enabled, Apply;
    BranchFrame(c, s, a);
    if ByBranch(a) && AwaitsPrefill(c, Actor(a)) {
      LateActor(c, s, a);
    }
  }

  lemma EndedPrefillIsFinal(c: Config, s: State, a: Action)
    requires Enabled(c, s, a) && ByPrefill(a)
    ensures !s.PrefillFulfilled()
  {
  }

  lemma LateActor(c: Config, s: State, a: Action)
    requires WaitInv(c, s) && Shape(c, s) && Enabled(c, s, a) && ByBranch(a)
    requires AwaitsPrefill(c, Actor(a))
    ensures var before, after := ForkedAt(s.Pc(Actor(a))), ForkedAt(Apply(c, s, a).Pc(Actor(a)));
      after.Some? ==> after == before || (s.PrefillFulfilled() && after.value == s.mon.prefixSeqLen)
  {
    hide WaitInv, Shape, Reaches;
    var n := Actor(a);
    if a.Enter? {
      var u :| Upstream(c, n, u) && c.prefill in c.Deps(u) && c.Req(u) < 0;
      PassedPrefill(c, s, n, u);
    }
  }

  // ------------------------------------------------------------------
  // Gates are passed only when nobody behind them waits for more
  // ------------------------------------------------------------------

  /** The worker is behind all its waits: at the entry of execute, or further. */
  predicate PastWaits(c: Config, n: Name, pc: Pc) {
    Started(pc) || pc == Waiting(|c.Deps(n)|)
  }

  /** If a worker is past its waits, every branch on any walk of waits from it has ended. */
  lemma {:induction false} PassedAlong(c: Config, s: State, p: seq<Name>, i: nat)
    requires WaitInv(c, s) && Shape(c, s) && i < |p| && IsWalk(WaitGraph(c), p) && p[|p| - 1] in c.Branches()
    requires PastWaits(c, p[0], s.Pc(p[0]))
    ensures p[i] in c.Branches() && PastWaits(c, p[i], s.Pc(p[i]))
    ensures i > 0 ==> s.Pc(p[i]).Ended?
  {
    if i > 0 {
      PassedAlong(c, s, p, i - 1);
      assert p[i - 1] in WaitGraph(c) && p[i] in c.Deps(p[i - 1]);
      var j :| 0 <= j < |c.Deps(p[i - 1])| && c.Deps(p[i - 1])[j] == p[i];
      assert DependencyMet(c, s, p[i - 1], c.Deps(p[i - 1])[j]);
      assert i < |p| - 1 ==> p[i] in WaitGraph(c);
    }
  }

  lemma PassedUpstream(c: Config, s: State, v: Name, u: Name)
    requires WaitInv(c, s) && Shape(c, s) && PastWaits(c, v, s.Pc(v)) && Upstream(c, v, u)
    ensures PastWaits(c, u, s.Pc(u)) && (u == v || s.Pc(u).Ended?)
  {
    var p :| IsWalk(WaitGraph(c), p) && p[0] == v && p[|p| - 1] == u;
    PassedAlong(c, s, p, |p| - 1);
  }

  lemma StartedUpstream(c: Config, s: State, v: Name, u: Name)
    requires WaitInv(c, s) && Shape(c, s) && Started(s.Pc(v)) && Upstream(c, v, u)
    ensures Started(s.Pc(u)) && (u == v || s.Pc(u).Ended?)
  {
    PassedUpstream(c, s, v, u);
  }

  /** A worker past its waits has every wait on the prefiller along the way satisfied. */
  lemma PassedPrefill(c: Config, s: State, v: Name, u: Name)
    requires WaitInv(c, s) && Shape(c, s) && PastWaits(c, v, s.Pc(v)) && Upstream(c, v, u) && c.prefill in c.Deps(u)
    ensures PrefillMet(c, s, u)
  {
    PassedUpstream(c, s, v, u);
    var j :| 0 <= j < |c.Deps(u)| && c.Deps(u)[j] == c.prefill;
    assert DependencyMet(c, s, u, c.Deps(u)[j]);
  }

  /** While the prefill runs, a worker that started needs no more than the watermark. */
  lemma StartedNeedsWithin(c: Config, s: State, v: Name)
    requires WaitInv(c, s) && Shape(c, s) && Started(s.Pc(v)) && !s.PrefillFulfilled()
    ensures NeedsWithin(c, v, s.mon.watermark)
  {
    forall u | Upstream(c, v, u)
      ensures DirectNeeds(c, u, s.mon.watermark)
    {
      StartedUpstream(c, s, v, u);
      forall j | 0 <= j < |c.Deps(u)|
        ensures c.Deps(u)[j] in c.nodes && (c.Deps(u)[j] == c.prefill ==> 0 <= c.Req(u) <= s.mon.watermark)
      {
        assert DependencyMet(c, s, u, c.Deps(u)[j]);
      }
    }
  }

  /** The only way through a gate is the prefiller's wait returning at it. */
  lemma GateOpens(c: Config, s: State, a: Action, m: int)
    requires PrefillInv(c, s) && Published(c.doc, s.mon) && Shape(c, s) && c.Valid() && Enabled(c, s, a)
    requires GatePassed(c, Apply(c, s, a), m)
    ensures GatePassed(c, s, m) || (a.ConsumersGone? && m == s.mon.watermark == s.prefilled)
  {
    if !ByPrefill(a) {
      BranchFrame(c, s, a);
    } else if a.CommitPlain? || a.PublishKv? {
      CommitOpensNothing(c, s, a, m);
    } else {
      WatermarkRises(c, s, a);
    }
  }

  lemma CommitOpensNothing(c: Config, s: State, a: Action, m: int)
    requires PrefillInv(c, s) && Shape(c, s) && Enabled(c, s, a) && (a.CommitPlain? || a.PublishKv?)
    requires GatePassed(c, Apply(c, s, a), m)
    ensures GatePassed(c, s, m)
  {
    NextCommitPoint(c.Total(), s.mon.watermark, m);
  }

  lemma GateKept(c: Config, s: State, a: Action)
    requires Inv(c, s) && Enabled(c, s, a)
    ensures GateInv(c, Apply(c, s, a))
  {
    var s' := Apply(c, s, a);
    forall m | GatePassed(c, s', m)
      ensures Unsignalled(c, s'.pcs, m) == {} && forall v :: v in c.Consumers(m) ==> NeedsWithin(c, v, m)
    {
      UnsignalledStep(c, s, a, m);
      GateOpens(c, s, a, m);
      if !GatePassed(c, s, m) {
        GateMoment(c, s, m);
      }
    }
  }

  /** At the moment the wait returns, every consumer of the gate signalled, hence started, hence needed nothing more. */
  lemma GateMoment(c: Config, s: State, m: int)
    requires Shape(c, s) && WaitInv(c, s) && CounterInv(c, s) && c.Gate(m)
    requires s.phase.Parked? && s.mon.ConsumersDone(m) && m == s.mon.watermark
    ensures Unsignalled(c, s.pcs, m) == {} && forall v :: v in c.Consumers(m) ==> NeedsWithin(c, v, m)
  {
    assert |Unsignalled(c, s.pcs, m)| == 0;
    forall v | v in c.Consumers(m)
      ensures NeedsWithin(c, v, m)
    {
      assert v !in Unsignalled(c, s.pcs, m);
      StartedNeedsWithin(c, s, v);
    }
  }

  // ------------------------------------------------------------------
  // Every reachable state
  // ------------------------------------------------------------------

  lemma InitialInv(c: Config, buffer: Option<seq<byte>>)
    requires c.Valid() && BufferMatches(c, buffer)
    ensures Inv(c, Initial(c, buffer))
  {
    var s := Initial(c, buffer);
    forall w | w in c.Milestones()
      ensures s.mon.remaining[w] == |Unsignalled(c, s.pcs, w)|
    {
      assert Unsignalled(c, s.pcs, w) == c.Consumers(w);
    }
  }

  lemma StepInv(c: Config, s: State, a: Action)
    requires Inv(c, s) && Enabled(c, s, a)
    ensures Inv(c, Apply(c, s, a))
  {
    ShapeKept(c, s, a);
    LockKept(c, s, a);
    PrefillKept(c, s, a);
    MonitorKept(c, s, a);
    CounterKept(c, s, a);
    WaitKept(c, s, a);
    BranchKept(c, s, a);
    LateKept(c, s, a);
    GateKept(c, s, a);
  }

  /** The invariant holds after every run, whatever the interleaving and the failures. */
  lemma {:induction false} RunInv(c: Config, s: State, run: seq<Action>)
    requires Inv(c, s) && IsRun(c, s, run)
    ensures Inv(c, After(c, s, run))
    decreases |run|
  {
    if run != [] {
      StepInv(c, s, run[0]);
      RunInv(c, Apply(c, s, run[0]), run[1..]);
    }
  }

  ghost predicate Reachable(c: Config, s: State) {
    exists buffer, run ::
      BufferMatches(c, buffer) && IsRun(c, Initial(c, buffer), run) && s == After(c, Initial(c, buffer), run)
  }

  lemma ReachableInv(c: Config, s: State)
    requires c.Valid() && Reachable(c, s)
    ensures Inv(c, s)
  {
    var buffer, run :| BufferMatches(c, buffer) && IsRun(c, Initial(c, buffer), run)
                       && s == After(c, Initial(c, buffer), run);
    InitialInv(c, buffer);
    RunInv(c, Initial(c, buffer), run);
  }
}
