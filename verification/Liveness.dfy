/** Termination of every run, and the exact condition under which no run gets stuck. */
module Liveness {
  import opened Common
  import opened KvCache
  import opened PrefixSpec
  import opened ForkSpec
  import opened ContextBudget
  import opened DependencyGraph
  import opened Protocol
  import opened ProtocolInvariant

  // ------------------------------------------------------------------
  // Work left
  // ------------------------------------------------------------------

  function PhaseWork(c: Config, s: State): nat
    requires s.prefilled <= c.Total()
  {
    var tokens := 10 * (c.Total() - s.prefilled);
    match s.phase
    case Boot => tokens + 7
    case Head => tokens + 6
    case Decoded => tokens + 15
    case Exporting(_) => tokens + 14
    case Committed => tokens + 13
    case Parked => tokens + 12
    case Resuming => tokens + 11
    case Finishing => 3
    case Leaving(_) => 2
    case Ended(_) => 0
  }

  function PcWork(c: Config, n: Name, pc: Pc): nat {
    match pc
    case Waiting(i) => 8 + (if i <= |c.Deps(n)| then |c.Deps(n)| - i else 0)
    case Sizing(_, _) => 7
    case Copied(_, _) => 6
    case Live(_, _) => 5
    case Forked(_, _) => 4
    case Throwing => 3
    case Leaving(_) => 2
    case Ended(_) => 0
    case Crashed => 0
  }

  ghost function BranchWork(c: Config, s: State, names: set<Name>): nat {
    if names == {} then 0 else
      var n :| n in names;
      PcWork(c, n, s.Pc(n)) + BranchWork(c, s, names - {n})
  }

  /** Tokens left, prefill phase, every branch's place in its dependency list and in execute, and the final join. */
  ghost function Work(c: Config, s: State): nat
    requires s.prefilled <= c.Total()
  {
    PhaseWork(c, s) + BranchWork(c, s, c.Branches()) + (if s.freed then 0 else 1)
  }

  lemma {:induction false} BranchWorkSplit(c: Config, s: State, names: set<Name>, n: Name)
    requires n in names
    ensures BranchWork(c, s, names) == PcWork(c, n, s.Pc(n)) + BranchWork(c, s, names - {n})
    decreases names
  {
    var m :| m in names && BranchWork(c, s, names) == PcWork(c, m, s.Pc(m)) + BranchWork(c, s, names - {m});
    if m != n {
      BranchWorkSplit(c, s, names - {m}, n);
      BranchWorkSplit(c, s, names - {n}, m);
      assert names - {m} - {n} == names - {n} - {m};
    }
  }

  lemma {:induction false} BranchWorkFrame(c: Config, s: State, s': State, names: set<Name>)
    requires forall n :: n in names ==> s.Pc(n) == s'.Pc(n)
    ensures BranchWork(c, s, names) == BranchWork(c, s', names)
    decreases names
  {
    if names != {} {
      var n :| n in names;
      BranchWorkSplit(c, s, names, n);
      BranchWorkSplit(c, s', names, n);
      BranchWorkFrame(c, s, s', names - {n});
    }
  }

  lemma PcWorkFalls(c: Config, s: State, a: Action)
    requires Shape(c, s) && Enabled(c, s, a) && ByBranch(a)
    ensures PcWork(c, Actor(a), Apply(c, s, a).Pc(Actor(a))) < PcWork(c, Actor(a), s.Pc(Actor(a)))
  {
  }

  lemma PhaseWorkFalls(c: Config, s: State, a: Action)
    requires s.prefilled <= c.Total() && Enabled(c, s, a) && ByPrefill(a)
    requires Apply(c, s, a).prefilled <= c.Total()
    ensures PhaseWork(c, Apply(c, s, a)) < PhaseWork(c, s)
  {
  }

  lemma PrefillUsesWork(c: Config, s: State, a: Action)
    requires PrefillInv(c, s) && Enabled(c, s, a) && ByPrefill(a) && Apply(c, s, a).prefilled <= c.Total()
    ensures Work(c, Apply(c, s, a)) < Work(c, s)
  {
    PrefillFrame(c, s, a);
    PhaseWorkFalls(c, s, a);
    BranchWorkFrame(c, s, Apply(c, s, a), c.Branches());
  }

  lemma BranchUsesWork(c: Config, s: State, a: Action)
    requires s.prefilled <= c.Total() && Shape(c, s) && WaitInv(c, s) && Enabled(c, s, a) && ByBranch(a)
    ensures Apply(c, s, a).prefilled <= c.Total() && Work(c, Apply(c, s, a)) < Work(c, s)
  {
    var s', n := Apply(c, s, a), Actor(a);
    BranchFrame(c, s, a);
    BranchShape(c, s, a);
    PcWorkFalls(c, s, a);
    BranchWorkSplit(c, s, c.Branches(), n);
    BranchWorkSplit(c, s', c.Branches(), n);
    BranchWorkFrame(c, s, s', c.Branches() - {n});
  }

  /** Every action, of whichever worker and whether or not something fails, uses up work. */
  lemma StepUsesWork(c: Config, s: State, a: Action)
    requires PrefillInv(c, s) && Shape(c, s) && WaitInv(c, s) && Published(c.doc, s.mon) && c.Valid()
    requires Enabled(c, s, a)
    ensures Apply(c, s, a).prefilled <= c.Total() && Work(c, Apply(c, s, a)) < Work(c, s)
  {
    if ByPrefill(a) {
      PrefillKept(c, s, a);
      PrefillUsesWork(c, s, a);
    } else if ByBranch(a) {
      BranchUsesWork(c, s, a);
    } else {
      BranchWorkFrame(c, s, Apply(c, s, a), c.Branches());
    }
  }

  /** No run is longer than the work it starts with: the pipeline cannot run forever. */
  lemma {:induction false} RunsAreBounded(c: Config, s: State, run: seq<Action>)
    requires Inv(c, s) && IsRun(c, s, run)
    ensures |run| <= Work(c, s)
    decreases |run|
  {
    if run != [] {
      StepInv(c, s, run[0]);
      StepUsesWork(c, s, run[0]);
      RunsAreBounded(c, Apply(c, s, run[0]), run[1..]);
    }
  }

  // ------------------------------------------------------------------
  // Progress
  // ------------------------------------------------------------------

  predicate AllDone(c: Config, s: State) {
    s.phase.Ended? && forall n :: n in c.Branches() ==> s.Pc(n).Ended?
  }

  /** Everything v transitively waits for has happened. */
  ghost predicate NeedsMet(c: Config, s: State, v: Name) {
    forall u :: Upstream(c, v, u) ==> DirectMet(c, s, u)
  }

  predicate DirectMet(c: Config, s: State, u: Name) {
    forall j :: 0 <= j < |c.Deps(u)| ==> c.Deps(u)[j] in c.nodes && (c.Deps(u)[j] == c.prefill ==> PrefillMet(c, s, u))
  }

  /** An action of some worker that is not a failure of the prefiller. */
  predicate Advances(c: Config, s: State, a: Action) {
    Enabled(c, s, a) && !a.PrefillThrows? && !a.FreeAll?
  }

  /** The engine, the tokenizer or the allocator failed, as opposed to a check of the worker's own. */
  predicate EngineFails(a: Action) {
    match a
    case ExportNothing(_) => true
    case PrefillThrows(site) => !site.BindContext? && !site.DocumentSize? && !site.CommitExport?
    case BranchThrows(_, site) =>
      !site.ReadSource? && !site.BufferSize? && !site.BindBranch? && !site.EmptyPromptSite? && !site.OverBudget?
      && !site.OversizePrompt?
    case _ => false
  }

  /** Whoever holds the lock can take its next step without a failure of the engine. */
  lemma HolderProgress(c: Config, s: State) returns (a: Action)
    requires Shape(c, s) && LockInv(c, s) && PrefillInv(c, s) && BranchInv(c, s) && Frozen(c.doc, s.mon)
    requires c.Valid() && s.guard.Some?
    ensures Enabled(c, s, a) && !EngineFails(a) && !a.FreeAll?
    ensures a.PrefillThrows? ==> s.phase.Decoded? && c.Gate(s.prefilled) && !ExportFits(s)
  {
    if s.guard.value == c.prefill {
      a := PrefillHolderProgress(c, s);
    } else {
      a := BranchHolderProgress(c, s, s.guard.value);
    }
  }

  lemma PrefillHolderProgress(c: Config, s: State) returns (a: Action)
    requires Shape(c, s) && PrefillInv(c, s) && (s.phase.Decoded? || s.phase.Exporting?)
    ensures Enabled(c, s, a) && !EngineFails(a) && ByPrefill(a)
    ensures a.PrefillThrows? ==> s.phase.Decoded? && c.Gate(s.prefilled) && !ExportFits(s)
  {
    if s.phase.Exporting? {
      a := PublishKv;
    } else if s.prefilled !in s.mon.milestones {
      a := CommitPlain;
    } else {
      NextCommitPoint(c.Total(), s.mon.watermark, s.prefilled);
      a := if ExportFits(s) then ExportKv else PrefillThrows(CommitExport);
    }
  }

  lemma BranchHolderProgress(c: Config, s: State, n: Name) returns (a: Action)
    requires n in c.Branches() && HoldsLock(s.Pc(n)) && PcInv(c, s.mon.snapshots, n, s.Pc(n))
    requires Frozen(c.doc, s.mon) && c.Valid()
    ensures Enabled(c, s, a) && !EngineFails(a) && ByBranch(a)
  {
    match s.Pc(n)
    case Sizing(_, data) => a := if |data| <= c.branchCap then Allocate(n) else BranchThrows(n, BufferSize);
    case Copied(len, data) =>
      CopiedIsRestorable(c, s, n);
      a := if CanRestore(data, s.canonical.Some?) then Restore(n) else BranchThrows(n, BindBranch);
    case Live(len, _) =>
      a := if c.Prompt(n) == [] then BranchThrows(n, EmptyPromptSite)
           else if !WithinBudget(len, |c.Prompt(n)|, c.nCtx) then BranchThrows(n, OverBudget)
           else if |c.Prompt(n)| > c.nBatch then BranchThrows(n, OversizePrompt)
           else DecodePrompt(n);
    case Forked(_, _) => a := SignalDone(n);
  }

  /** What a branch copied can be restored, or is empty with nothing to bind. */
  lemma CopiedIsRestorable(c: Config, s: State, n: Name)
    requires s.Pc(n).Copied? && PcInv(c, s.mon.snapshots, n, s.Pc(n)) && Frozen(c.doc, s.mon) && c.Valid()
    ensures CanRestore(s.Pc(n).data, s.canonical.Some?) || (s.Pc(n).data == [] && s.canonical.None?)
  {
    var len := s.Pc(n).len;
    if len in s.mon.snapshots {
      RestoredIsSpan(c.doc, s.mon, len);
    }
  }

  /** A branch whose own dependencies exist can step, unless it waits for a branch that has not ended. */
  lemma BranchCanStep(c: Config, s: State, v: Name) returns (a: Option<Action>)
    requires Shape(c, s) && LockInv(c, s) && s.guard.None? && v in c.Branches() && !s.Pc(v).Ended?
    requires DirectMet(c, s, v)
    ensures a.Some? ==> Enabled(c, s, a.value) && ByBranch(a.value) && !EngineFails(a.value)
    ensures a.None? ==>
      (s.Pc(v).Waiting? && s.Pc(v).i < |c.Deps(v)| && c.Deps(v)[s.Pc(v).i] in c.Branches()
       && !s.Pc(c.Deps(v)[s.Pc(v).i]).Ended?)
  {
    assert !HoldsLock(s.Pc(v));
    assert !s.Pc(v).Crashed?;
    match s.Pc(v)
    case Waiting(i) =>
      if i == |c.Deps(v)| {
        a := Some(if ForkSource(s.mon, s.canonical, c.Req(v)).Ok? then Enter(v) else BranchThrows(v, ReadSource));
      } else {
        a := if DependencyMet(c, s, v, c.Deps(v)[i]) then Some(Proceed(v)) else None;
      }
    case Throwing => a := Some(Catch(v));
    case Leaving(_) => a := Some(Fulfil(v));
    case _ => assert false;
  }

  /** No cycle of waits can be reached from v. */
  ghost predicate NoCycleFrom(c: Config, v: Name) {
    forall q :: IsCycle(WaitGraph(c), q) ==> !Reaches(WaitGraph(c), v, q[0])
  }

  /** From a branch whose needs are met, a walk down its unfinished waits ends at one that can step. */
  lemma {:induction false} BranchProgress(c: Config, s: State, p: seq<Name>) returns (a: Action)
    requires Shape(c, s) && LockInv(c, s) && s.guard.None?
    requires IsWalk(WaitGraph(c), p) && (forall i :: 0 <= i < |p| ==> p[i] in c.Branches()) && NoCycleFrom(c, p[0])
    requires NeedsMet(c, s, p[0]) && !s.Pc(p[|p| - 1]).Ended?
    ensures Enabled(c, s, a) && ByBranch(a) && !EngineFails(a)
    decreases |c.Branches()| + 1 - |p|
  {
    assert WaitGraph(c).Keys == c.Branches();
    if |p| > |c.Branches()| {
      var i, q := LongWalkHasCycle(WaitGraph(c), p);
      WalkPrefix(WaitGraph(c), p, i);
    }
    var v := p[|p| - 1];
    assert Upstream(c, p[0], v);
    var step := BranchCanStep(c, s, v);
    if step.Some? {
      a := step.value;
    } else {
      var u := c.Deps(v)[s.Pc(v).i];
      WalkExtends(WaitGraph(c), p, u);
      a := BranchProgress(c, s, p + [u]);
    }
  }

  /** Nothing is left to do, except for the main thread. */
  ghost predicate Quiescent(c: Config, s: State) {
    forall a :: Enabled(c, s, a) ==> a.FreeAll?
  }

  lemma EndedNeedsMet(c: Config, s: State, v: Name)
    requires WaitInv(c, s) && Shape(c, s) && Started(s.Pc(v))
    ensures NeedsMet(c, s, v)
  {
    forall u | Upstream(c, v, u)
      ensures DirectMet(c, s, u)
    {
      StartedUpstream(c, s, v, u);
      forall j | 0 <= j < |c.Deps(u)|
        ensures c.Deps(u)[j] in c.nodes && (c.Deps(u)[j] == c.prefill ==> PrefillMet(c, s, u))
      {
        assert DependencyMet(c, s, u, c.Deps(u)[j]);
      }
    }
  }

  // ------------------------------------------------------------------
  // The exact condition
  // ------------------------------------------------------------------

  /** No check inside the prefiller itself fails: the document fits, and so does each export. */
  ghost predicate PrefillSafe(c: Config) {
    && c.Total() < c.Limit() && c.canonicalCap.Some?
    && forall m :: c.Gate(m) ==> |Export(DocCells(c.doc, m))| <= c.canonicalCap.value
  }

  /**
   * Nobody waits for what cannot come: the waits are acyclic, they name registered nodes, no
   * branch waits for more tokens than the document has, and no branch that the prefiller
   * itself waits for at a gate transitively waits for progress beyond that gate.
   */
  ghost predicate WellGated(c: Config) {
    && !Cyclic(WaitGraph(c))
    && (forall v :: v in c.Branches() ==> DirectPossible(c, v))
    && (forall v :: v in c.Branches() && c.Gate(c.Req(v)) ==> NeedsWithin(c, v, c.Req(v)))
  }

  /** Every branch that the prefiller waits for at a gate can come to signal it. */
  ghost predicate GatesSound(c: Config) {
    forall v :: v in c.Branches() && c.Gate(c.Req(v)) ==> NeedsWithin(c, v, c.Req(v)) && NoCycleFrom(c, v)
  }

  predicate DirectPossible(c: Config, v: Name) {
    forall j :: 0 <= j < |c.Deps(v)| ==>
      c.Deps(v)[j] in c.nodes && (c.Deps(v)[j] == c.prefill ==> c.Req(v) <= c.Total())
  }

  /** What a milestone exports is no more than the document up to it. */
  lemma ExportsAreBounded(c: Config, s: State)
    requires PrefillInv(c, s) && PrefillSafe(c) && s.phase.Decoded? && c.Gate(s.prefilled) && Shape(c, s)
    ensures ExportFits(s)
  {
    assert |s.ctx.value| <= |DocCells(c.doc, s.prefilled)|;
  }

  lemma ResumeAdvances(c: Config, s: State)
    requires s.phase.Resuming? && s.guard.None? && s.canonical.Some? && s.prefilled in s.mon.snapshots
    requires var data := s.mon.snapshots[s.prefilled].data; data == [] || Import(data).1 == |data|
    ensures Advances(c, s, Resume)
  {
  }

  lemma GateIsFrozen(c: Config, s: State)
    requires PrefillInv(c, s) && Frozen(c.doc, s.mon) && Shape(c, s) && s.phase.Resuming?
    ensures s.prefilled in s.mon.snapshots && s.canonical.Some?
  {
  }

  /** A frozen milestone can always be restored. */
  lemma ResumePossible(c: Config, s: State)
    requires PrefillInv(c, s) && Frozen(c.doc, s.mon) && Shape(c, s) && c.Valid()
    requires s.phase.Resuming? && s.guard.None?
    ensures Advances(c, s, Resume)
  {
    hide Frozen, PrefillInv, Base, Import, Span, Restored, Shape, Advances;
    GateIsFrozen(c, s);
    RestoredIsSpan(c.doc, s.mon, s.prefilled);
    ResumeAdvances(c, s);
  }

  lemma PrefillProgress(c: Config, s: State) returns (a: Action)
    requires PrefillInv(c, s) && Published(c.doc, s.mon) && Shape(c, s) && LockInv(c, s) && c.Valid()
    requires PrefillSafe(c) && !PrefillFailed(s) && s.guard.None?
    requires !s.phase.Parked? && !s.phase.Ended?
    ensures Advances(c, s, a) && !EngineFails(a)
  {
    assert !s.phase.Decoded? && !s.phase.Exporting?;
    if s.phase.Resuming? {
      ResumePossible(c, s);
      a := Resume;
    } else if s.phase.Boot? {
      a := Start;
    } else {
      a := UnlockedProgress(c, s);
    }
  }

  lemma UnlockedProgress(c: Config, s: State) returns (a: Action)
    requires PrefillInv(c, s) && c.Valid() && s.guard.None?
    requires s.phase.Head? || s.phase.Committed? || s.phase.Finishing? || s.phase.Leaving?
    ensures Advances(c, s, a) && !EngineFails(a)
  {
    match s.phase
    case Head => a := if s.prefilled < c.Total() then DecodeChunk else MarkComplete;
    case Committed => a := FreeContext;
    case Finishing => a := ReleaseContext;
    case Leaving(_) => a := FulfilPrefill;
  }

  /** A branch can step whenever a gate keeps the prefiller waiting for branches that can come. */
  lemma GateProgress(c: Config, s: State) returns (a: Action)
    requires c.Gate(s.prefilled) && s.prefilled == s.mon.watermark && CounterInv(c, s) && LockInv(c, s) && Shape(c, s)
    requires GatesSound(c) && s.guard.None? && !s.mon.ConsumersDone(s.prefilled)
    ensures Enabled(c, s, a) && ByBranch(a) && !EngineFails(a)
  {
    assert |Unsignalled(c, s.pcs, s.prefilled)| > 0;
    var v :| v in Unsignalled(c, s.pcs, s.prefilled);
    GateNeedsMet(c, s, v);
    a := BranchProgress(c, s, [v]);
  }

  /** What a well-gated consumer waits for is there once the prefiller waits for the consumer. */
  lemma GateNeedsMet(c: Config, s: State, v: Name)
    requires NeedsWithin(c, v, s.mon.watermark)
    ensures NeedsMet(c, s, v)
  {
    forall u | Upstream(c, v, u)
      ensures DirectMet(c, s, u)
    {
      assert DirectNeeds(c, u, s.mon.watermark);
    }
  }

  /** After a complete prefill nothing that is possible at all is still to come. */
  lemma FinalNeedsMet(c: Config, s: State, v: Name)
    requires (forall u :: Upstream(c, v, u) ==> DirectPossible(c, u)) && s.phase.Ended? && s.mon.watermark == c.Total()
    ensures NeedsMet(c, s, v)
  {
    forall u | Upstream(c, v, u)
      ensures DirectMet(c, s, u)
    {
      assert DirectPossible(c, u);
    }
  }

  lemma HolderAdvances(c: Config, s: State) returns (a: Action)
    requires Shape(c, s) && LockInv(c, s) && PrefillInv(c, s) && BranchInv(c, s) && MonitorInv(c, s)
    requires PrefillSafe(c) && c.Valid() && s.guard.Some?
    ensures Advances(c, s, a) && !EngineFails(a)
  {
    a := HolderProgress(c, s);
    if a.PrefillThrows? {
      ExportsAreBounded(c, s);
    }
  }

  /** Under the condition, every unfinished state of a prefill that has not failed can go on without failing. */
  lemma Progress(c: Config, s: State) returns (a: Action)
    requires Inv(c, s) && PrefillSafe(c) && WellGated(c) && !PrefillFailed(s) && !AllDone(c, s)
    ensures Advances(c, s, a) && !EngineFails(a)
  {
    hide Shape, LockInv, PrefillInv, BranchInv, Published, WellGated, PrefillSafe, PrefillFailed;
    WellGatedIsSound(c);
    if s.guard.Some? {
      a := HolderAdvances(c, s);
    } else if s.phase.Parked? {
      a := ParkedProgress(c, s);
    } else if s.phase.Ended? {
      a := EndedProgress(c, s);
    } else {
      a := PrefillProgress(c, s);
    }
  }

  lemma WellGatedIsSound(c: Config)
    requires WellGated(c)
    ensures GatesSound(c) && forall v :: NoCycleFrom(c, v)
  {
  }

  lemma ParkedProgress(c: Config, s: State) returns (a: Action)
    requires PrefillInv(c, s) && CounterInv(c, s) && LockInv(c, s) && Shape(c, s)
    requires GatesSound(c) && s.guard.None? && s.phase.Parked?
    ensures Advances(c, s, a) && !EngineFails(a)
  {
    hide CounterInv, LockInv, Shape, GatesSound;
    if s.mon.ConsumersDone(s.prefilled) {
      a := ConsumersGone;
    } else {
      a := GateProgress(c, s);
    }
  }

  lemma EndedProgress(c: Config, s: State) returns (a: Action)
    requires Shape(c, s) && LockInv(c, s) && PrefillInv(c, s) && WellGated(c) && s.guard.None? && !AllDone(c, s)
    requires s.phase.Ended? && !PrefillFailed(s)
    ensures Advances(c, s, a) && !EngineFails(a)
  {
    var v :| v in c.Branches() && !s.Pc(v).Ended?;
    FinalNeedsMet(c, s, v);
    a := BranchProgress(c, s, [v]);
  }

  /** No branch on a cycle of waits ever starts. */
  lemma {:induction false} CycleNeverStarts(c: Config, s: State, run: seq<Action>, p: seq<Name>)
    requires Inv(c, s) && IsRun(c, s, run) && IsCycle(WaitGraph(c), p)
    requires forall k :: 0 <= k < |p| ==> p[k] in c.Branches() && !Started(s.Pc(p[k]))
    ensures forall k :: 0 <= k < |p| ==> !Started(After(c, s, run).Pc(p[k]))
    decreases |run|
  {
    if run != [] {
      var a := run[0];
      StepInv(c, s, a);
      forall k | 0 <= k < |p|
        ensures !Started(Apply(c, s, a).Pc(p[k]))
      {
        var i := if k == |p| - 1 then 0 else k;
        assert p[i] in WaitGraph(c) && p[i + 1] in c.Deps(p[i]);
        StartNeedsEnded(c, s, a, p[i], p[i + 1]);
      }
      CycleNeverStarts(c, Apply(c, s, a), run[1..], p);
    }
  }

  lemma StartNeedsEnded(c: Config, s: State, a: Action, v: Name, u: Name)
    requires WaitInv(c, s) && Enabled(c, s, a) && v in c.Branches() && u in c.Branches() && u in c.Deps(v)
    requires !Started(s.Pc(v)) && !Started(s.Pc(u))
    ensures !Started(Apply(c, s, a).Pc(v))
  {
    if ByPrefill(a) {
      PrefillFrame(c, s, a);
    } else {
      var j :| 0 <= j < |c.Deps(v)| && c.Deps(v)[j] == u;
      assert s.Pc(v) == Waiting(|c.Deps(v)|) ==> DependencyMet(c, s, v, c.Deps(v)[j]);
    }
  }

  /** A cycle of waits among the branches keeps every run from completing. */
  lemma CycleBlocks(c: Config, buffer: Option<seq<byte>>, run: seq<Action>)
    requires c.Valid() && BufferMatches(c, buffer) && IsRun(c, Initial(c, buffer), run)
    requires Cyclic(WaitGraph(c))
    ensures !AllDone(c, After(c, Initial(c, buffer), run))
  {
    var p :| IsCycle(WaitGraph(c), p);
    assert forall k :: 0 <= k < |p| - 1 ==> p[k] in WaitGraph(c);
    hide Inv, IsRun, After;
    InitialInv(c, buffer);
    CycleNeverStarts(c, Initial(c, buffer), run, p);
    assert p[0] in c.Branches() && !Started(After(c, Initial(c, buffer), run).Pc(p[0]));
  }

  /** Past waits were waits for what exists. */
  lemma PastWaitsPossible(c: Config, s: State, v: Name)
    requires WaitInv(c, s) && Shape(c, s) && s.mon.watermark <= c.Total() && Started(s.Pc(v)) && v in c.Branches()
    ensures forall u :: Upstream(c, v, u) ==> DirectPossible(c, u)
  {
    EndedNeedsMet(c, s, v);
    forall u | Upstream(c, v, u)
      ensures DirectPossible(c, u)
    {
      assert DirectMet(c, s, u);
    }
  }

  /** A worker that started is not waiting for a cycle. */
  lemma StartedSeesNoCycle(c: Config, buffer: Option<seq<byte>>, run: seq<Action>, v: Name)
    requires c.Valid() && BufferMatches(c, buffer) && IsRun(c, Initial(c, buffer), run)
    requires v in c.Branches() && Started(After(c, Initial(c, buffer), run).Pc(v))
    ensures NoCycleFrom(c, v)
  {
    var s0 := Initial(c, buffer);
    InitialInv(c, buffer);
    RunInv(c, s0, run);
    forall q | IsCycle(WaitGraph(c), q)
      ensures !Reaches(WaitGraph(c), v, q[0])
    {
      assert forall k :: 0 <= k < |q| - 1 ==> q[k] in WaitGraph(c);
      CycleNeverStarts(c, s0, run, q);
      if Reaches(WaitGraph(c), v, q[0]) {
        StartedUpstream(c, After(c, s0, run), v, q[0]);
      }
    }
  }

  /**
   * Where a run ends, a branch has finished if and only if everything it transitively waits for
   * has happened and it waits for no cycle; this covers failed prefills, unregistered
   * dependencies and prefills stuck at a gate alike, on any graph.
   */
  lemma FinishedExactly(c: Config, s: State, v: Name)
    requires c.Valid() && Reachable(c, s) && Quiescent(c, s) && v in c.Branches()
    ensures s.Pc(v).Ended? <==> NeedsMet(c, s, v) && NoCycleFrom(c, v)
  {
    ReachableInv(c, s);
    if s.guard.Some? {
      var a := HolderProgress(c, s);
    }
    if s.Pc(v).Ended? {
      EndedNeedsMet(c, s, v);
      var buffer, run :| BufferMatches(c, buffer) && IsRun(c, Initial(c, buffer), run)
                         && s == After(c, Initial(c, buffer), run);
      StartedSeesNoCycle(c, buffer, run, v);
    } else if NeedsMet(c, s, v) && NoCycleFrom(c, v) {
      var a := BranchProgress(c, s, [v]);
    }
  }

  /** Once the prefill has succeeded, every gate was passed, and its consumers started. */
  lemma CompletedGatesPassed(c: Config, s: State, v: Name)
    requires GateInv(c, s) && PrefillInv(c, s) && Shape(c, s) && s.phase.Ended? && !PrefillFailed(s)
    requires v in c.Branches() && c.Gate(c.Req(v))
    ensures NeedsWithin(c, v, c.Req(v)) && Started(s.Pc(v))
  {
    assert GatePassed(c, s, c.Req(v));
    assert v in c.Consumers(c.Req(v)) && v !in Unsignalled(c, s.pcs, c.Req(v));
  }

  /** A run in which the prefill succeeds proves that its gates could open. */
  lemma CompletedGatesSound(c: Config, buffer: Option<seq<byte>>, run: seq<Action>)
    requires c.Valid() && BufferMatches(c, buffer) && IsRun(c, Initial(c, buffer), run)
    requires After(c, Initial(c, buffer), run).phase.Ended? && !PrefillFailed(After(c, Initial(c, buffer), run))
    ensures GatesSound(c)
  {
    InitialInv(c, buffer);
    RunInv(c, Initial(c, buffer), run);
    forall v | v in c.Branches() && c.Gate(c.Req(v))
      ensures NeedsWithin(c, v, c.Req(v)) && NoCycleFrom(c, v)
    {
      CompletedGatesPassed(c, After(c, Initial(c, buffer), run), v);
      StartedSeesNoCycle(c, buffer, run, v);
    }
  }

  /** A run in which the prefill succeeds and everybody finishes proves the condition. */
  lemma CompletionNeedsCondition(c: Config, buffer: Option<seq<byte>>, run: seq<Action>)
    requires c.Valid() && BufferMatches(c, buffer) && IsRun(c, Initial(c, buffer), run)
    requires AllDone(c, After(c, Initial(c, buffer), run)) && !PrefillFailed(After(c, Initial(c, buffer), run))
    ensures WellGated(c)
  {
    var s0 := Initial(c, buffer);
    InitialInv(c, buffer);
    RunInv(c, s0, run);
    if Cyclic(WaitGraph(c)) {
      CycleBlocks(c, buffer, run);
    }
    CompletedGatesSound(c, buffer, run);
    forall v | v in c.Branches()
      ensures DirectPossible(c, v)
    {
      PastWaitsPossible(c, After(c, s0, run), v);
      SelfUpstream(c, v);
    }
  }

  predicate Healthy(run: seq<Action>) {
    forall i :: 0 <= i < |run| ==> !run[i].PrefillThrows?
  }

  /** No worker can take a step, other than a failure of the prefiller. */
  ghost predicate Stuck(c: Config, s: State) {
    forall a :: !Advances(c, s, a)
  }

  lemma StepAdvances(c: Config, s: State, a: Action)
    requires Inv(c, s) && Enabled(c, s, a)
    ensures s.prefilled <= c.Total() && Inv(c, Apply(c, s, a))
    ensures Apply(c, s, a).prefilled <= c.Total() && Work(c, Apply(c, s, a)) < Work(c, s)
  {
    StepInv(c, s, a);
    StepUsesWork(c, s, a);
  }

  /** Every state can be run, without prefill failures, to one that is stuck. */
  lemma {:induction false} RunUntilStuck(c: Config, s: State) returns (run: seq<Action>)
    requires Inv(c, s)
    ensures IsRun(c, s, run) && Healthy(run) && Stuck(c, After(c, s, run))
    decreases Work(c, s)
  {
    hide Inv, Enabled, Apply;
    if Stuck(c, s) {
      run := [];
    } else {
      var a :| Advances(c, s, a);
      StepAdvances(c, s, a);
      var rest := RunUntilStuck(c, Apply(c, s, a));
      run := [a] + rest;
      assert run[1..] == rest;
    }
  }

  /** Only PrefillThrows makes the prefill fail. */
  lemma {:induction false} HealthyRunsStayHealthy(c: Config, s: State, run: seq<Action>)
    requires IsRun(c, s, run) && Healthy(run) && !PrefillFailed(s)
    ensures !PrefillFailed(After(c, s, run))
    decreases |run|
  {
    if run != [] {
      HealthyStep(c, s, run[0]);
      HealthyRunsStayHealthy(c, Apply(c, s, run[0]), run[1..]);
    }
  }

  lemma HealthyStep(c: Config, s: State, a: Action)
    requires Enabled(c, s, a) && !a.PrefillThrows? && !PrefillFailed(s)
    ensures !PrefillFailed(Apply(c, s, a))
  {
    if !ByPrefill(a) {
      BranchFrame(c, s, a);
    }
  }

  /** In every unfinished state that a run without prefill failures reaches, somebody can go on. */
  ghost predicate DeadlockFree(c: Config, buffer: Option<seq<byte>>) {
    forall run ::
      IsRun(c, Initial(c, buffer), run) && Healthy(run) && !AllDone(c, After(c, Initial(c, buffer), run)) ==>
      !Stuck(c, After(c, Initial(c, buffer), run))
  }

  /** Some run without prefill failures lets every worker fulfil its promise. */
  ghost predicate CanComplete(c: Config, buffer: Option<seq<byte>>) {
    exists run :: IsRun(c, Initial(c, buffer), run) && Healthy(run) && AllDone(c, After(c, Initial(c, buffer), run))
  }

  /**
   * Exact deadlock-freedom: a pipeline whose prefill does not fail can never get stuck if and
   * only if it is well gated, and if it is not well gated no run at all completes.
   */
  lemma DeadlockFreeExactly(c: Config, buffer: Option<seq<byte>>)
    requires c.Valid() && PrefillSafe(c) && BufferMatches(c, buffer)
    ensures DeadlockFree(c, buffer) <==> WellGated(c)
    ensures CanComplete(c, buffer) <==> WellGated(c)
  {
    var s0 := Initial(c, buffer);
    InitialInv(c, buffer);
    forall run | IsRun(c, s0, run) && Healthy(run)
      ensures AllDone(c, After(c, s0, run)) ==> WellGated(c)
      ensures WellGated(c) && !AllDone(c, After(c, s0, run)) ==> !Stuck(c, After(c, s0, run))
    {
      var s := After(c, s0, run);
      RunInv(c, s0, run);
      HealthyRunsStayHealthy(c, s0, run);
      if AllDone(c, s) {
        CompletionNeedsCondition(c, buffer, run);
      } else if WellGated(c) {
        var a := Progress(c, s);
        assert Advances(c, s, a);
      }
    }
    var run := RunUntilStuck(c, s0);
    assert AllDone(c, After(c, s0, run)) || !DeadlockFree(c, buffer);
  }

  // ------------------------------------------------------------------
  // The join
  // ------------------------------------------------------------------

  /** v fulfils its promise in the end: no cycle, no missing name and no missing token lies behind it. */
  ghost predicate Ends(c: Config, v: Name) {
    NoCycleFrom(c, v) && forall u :: Upstream(c, v, u) ==> DirectPossible(c, u)
  }

  /** The wait of v on dep returns in the end. */
  ghost predicate WaitReturns(c: Config, v: Name, dep: Name) {
    if dep == c.prefill then c.Req(v) <= c.Total() else Ends(c, dep)
  }

  /**
   * Every worker terminates, though perhaps by crashing at an unregistered name: all its waits
   * before the first such name return, and every branch the prefiller waits for can signal.
   */
  ghost predicate Joinable(c: Config) {
    && GatesSound(c)
    && forall v, j :: v in c.Branches() && 0 <= j < FirstMissing(c, v) ==> WaitReturns(c, v, c.Deps(v)[j])
  }

  /** After a complete prefill, every unterminated worker of a joinable pipeline, or one it waits for, can step. */
  lemma UnjoinedProgress(c: Config, s: State, v: Name) returns (a: Action)
    requires Shape(c, s) && LockInv(c, s) && WaitInv(c, s) && PrefillInv(c, s) && Joinable(c) && s.guard.None?
    requires s.phase.Ended? && !PrefillFailed(s)
    requires v in c.Branches() && !s.Pc(v).Ended? && !s.Pc(v).Crashed?
    ensures Enabled(c, s, a) && ByBranch(a)
  {
    assert !HoldsLock(s.Pc(v));
    match s.Pc(v)
    case Waiting(i) =>
      if i == |c.Deps(v)| {
        a := if ForkSource(s.mon, s.canonical, c.Req(v)).Ok? then Enter(v) else BranchThrows(v, ReadSource);
      } else if c.Deps(v)[i] !in c.nodes {
        a := Crash(v);
      } else if DependencyMet(c, s, v, c.Deps(v)[i]) {
        a := Proceed(v);
      } else {
        BeforeMissing(c, s, v);
        a := AwaitedProgress(c, s, v, c.Deps(v)[i]);
      }
    case Throwing => a := Catch(v);
    case Leaving(_) => a := Fulfil(v);
    case _ => assert false;
  }

  /** A worker never stands beyond its first unregistered name. */
  lemma BeforeMissing(c: Config, s: State, v: Name)
    requires WaitInv(c, s) && v in c.Branches() && s.Pc(v).Waiting? && s.Pc(v).i < |c.Deps(v)|
    requires c.Deps(v)[s.Pc(v).i] in c.nodes
    ensures s.Pc(v).i < FirstMissing(c, v)
  {
    PassedAreRegistered(c, s, v);
  }

  lemma AwaitedProgress(c: Config, s: State, v: Name, u: Name) returns (a: Action)
    requires Shape(c, s) && LockInv(c, s) && s.guard.None? && s.phase.Ended? && s.mon.watermark == c.Total()
    requires u in c.nodes && WaitReturns(c, v, u) && !DependencyMet(c, s, v, u)
    ensures Enabled(c, s, a) && ByBranch(a)
  {
    FinalNeedsMet(c, s, u);
    a := BranchProgress(c, s, [u]);
  }

  lemma JoinProgress(c: Config, s: State) returns (a: Action)
    requires Inv(c, s) && PrefillSafe(c) && Joinable(c) && !PrefillFailed(s) && !AllTerminated(c, s)
    ensures Advances(c, s, a)
  {
    hide Shape, LockInv, PrefillInv, BranchInv, WaitInv, Published, GatesSound, PrefillSafe, PrefillFailed;
    if s.guard.Some? {
      a := HolderAdvances(c, s);
    } else if s.phase.Parked? {
      a := ParkedProgress(c, s);
    } else if s.phase.Ended? {
      var v :| v in c.Branches() && !s.Pc(v).Ended? && !s.Pc(v).Crashed?;
      a := UnjoinedProgress(c, s, v);
    } else {
      a := PrefillProgress(c, s);
    }
  }

  /** A run that ends with every worker terminated and the prefill successful proves the condition. */
  lemma JoinNeedsCondition(c: Config, buffer: Option<seq<byte>>, run: seq<Action>)
    requires c.Valid() && BufferMatches(c, buffer) && IsRun(c, Initial(c, buffer), run)
    requires AllTerminated(c, After(c, Initial(c, buffer), run)) && !PrefillFailed(After(c, Initial(c, buffer), run))
    ensures Joinable(c)
  {
    var s0 := Initial(c, buffer);
    var s := After(c, s0, run);
    InitialInv(c, buffer);
    RunInv(c, s0, run);
    CompletedGatesSound(c, buffer, run);
    forall v | v in c.Branches() && Started(s.Pc(v))
      ensures NoCycleFrom(c, v)
    {
      StartedSeesNoCycle(c, buffer, run, v);
    }
    WaitsReturned(c, s);
  }

  lemma WaitsReturned(c: Config, s: State)
    requires WaitInv(c, s) && Shape(c, s) && s.mon.watermark <= c.Total() && AllTerminated(c, s)
    requires forall v :: v in c.Branches() && Started(s.Pc(v)) ==> NoCycleFrom(c, v)
    ensures forall v, j :: v in c.Branches() && 0 <= j < FirstMissing(c, v) ==> WaitReturns(c, v, c.Deps(v)[j])
  {
    forall v, j | v in c.Branches() && 0 <= j < FirstMissing(c, v)
      ensures WaitReturns(c, v, c.Deps(v)[j])
    {
      var dep := c.Deps(v)[j];
      assert DependencyMet(c, s, v, dep);
      if dep != c.prefill {
        PastWaitsPossible(c, s, dep);
      }
    }
  }

  /** Every run without prefill failures that can go no further has terminated every worker. */
  ghost predicate AlwaysJoins(c: Config, buffer: Option<seq<byte>>) {
    forall run :: IsRun(c, Initial(c, buffer), run) && Healthy(run) && Stuck(c, After(c, Initial(c, buffer), run)) ==>
      AllTerminated(c, After(c, Initial(c, buffer), run))
  }

  ghost predicate CanJoin(c: Config, buffer: Option<seq<byte>>) {
    exists run ::
      IsRun(c, Initial(c, buffer), run) && Healthy(run) && AllTerminated(c, After(c, Initial(c, buffer), run))
  }

  /**
   * Exactly when execute_pipeline returns: a pipeline whose prefill does not fail always comes
   * to its join if and only if it is joinable, and otherwise it never does.
   */
  lemma JoinExactly(c: Config, buffer: Option<seq<byte>>)
    requires c.Valid() && PrefillSafe(c) && BufferMatches(c, buffer)
    ensures AlwaysJoins(c, buffer) <==> Joinable(c)
    ensures CanJoin(c, buffer) <==> Joinable(c)
  {
    var s0 := Initial(c, buffer);
    InitialInv(c, buffer);
    forall run | IsRun(c, s0, run) && Healthy(run)
      ensures AllTerminated(c, After(c, s0, run)) ==> Joinable(c)
      ensures Joinable(c) && !AllTerminated(c, After(c, s0, run)) ==> !Stuck(c, After(c, s0, run))
    {
      var s := After(c, s0, run);
      RunInv(c, s0, run);
      HealthyRunsStayHealthy(c, s0, run);
      if AllTerminated(c, s) {
        JoinNeedsCondition(c, buffer, run);
      } else if Joinable(c) {
        var a := JoinProgress(c, s);
        assert Advances(c, s, a);
      }
    }
    var run := RunUntilStuck(c, s0);
    assert AllTerminated(c, After(c, s0, run)) || !AlwaysJoins(c, buffer);
  }

  /** Keeping every promise and returning from the join differ only by unregistered names. */
  lemma JoinableWhenRegistered(c: Config)
    ensures WellGated(c) <==> Joinable(c) && forall v :: v in c.Branches() ==> !Orphaned(c, v)
  {
    if WellGated(c) {
      WellGatedJoins(c);
    } else if Joinable(c) && forall v :: v in c.Branches() ==> !Orphaned(c, v) {
      RegisteredJoinIsGated(c);
    }
  }

  lemma WellGatedJoins(c: Config)
    requires WellGated(c)
    ensures Joinable(c) && forall v :: v in c.Branches() ==> !Orphaned(c, v)
  {
    WellGatedIsSound(c);
    forall v | v in c.Branches()
      ensures !Orphaned(c, v)
      ensures forall j :: 0 <= j < FirstMissing(c, v) ==> WaitReturns(c, v, c.Deps(v)[j])
    {
      assert DirectPossible(c, v);
    }
  }

  /** A branch on a cycle has a wait that never returns. */
  lemma CycleNeverReturns(c: Config, p: seq<Name>)
    requires IsCycle(WaitGraph(c), p)
    ensures p[0] in c.Branches() && exists j :: 0 <= j < |c.Deps(p[0])| && !WaitReturns(c, p[0], c.Deps(p[0])[j])
  {
    var q := CycleTurns(WaitGraph(c), p);
    assert p[0] in WaitGraph(c) && q[0] in WaitGraph(c) && p[1] in c.Deps(p[0]);
    var j :| 0 <= j < |c.Deps(p[0])| && c.Deps(p[0])[j] == p[1];
    assert IsWalk(WaitGraph(c), [p[1]]);
    assert !NoCycleFrom(c, p[1]);
    assert !WaitReturns(c, p[0], c.Deps(p[0])[j]);
  }

  lemma RegisteredJoinIsGated(c: Config)
    requires Joinable(c) && forall v :: v in c.Branches() ==> !Orphaned(c, v)
    ensures WellGated(c)
  {
    if p :| IsCycle(WaitGraph(c), p) {
      CycleNeverReturns(c, p);
    }
    forall v | v in c.Branches()
      ensures DirectPossible(c, v)
    {
      forall j | 0 <= j < |c.Deps(v)|
        ensures c.Deps(v)[j] in c.nodes && (c.Deps(v)[j] == c.prefill ==> c.Req(v) <= c.Total())
      {
        assert WaitReturns(c, v, c.Deps(v)[j]);
      }
    }
  }
}
