/** How runs end when the engine does not fail, and what its failures can do. */
module Outcomes {
  import opened Common
  import opened KvCache
  import opened PrefixSpec
  import opened ForkSpec
  import opened ContextBudget
  import opened Protocol
  import opened ProtocolInvariant
  import opened Liveness
  import opened Safety

  // ------------------------------------------------------------------
  // Runs without engine failures
  // ------------------------------------------------------------------

  predicate Faultless(run: seq<Action>) {
    forall i :: 0 <= i < |run| ==> !EngineFails(run[i])
  }

  /**
   * The branch waits, directly or through other branches, until the prefiller has come at
   * least as far as it needs.
   */
  ghost predicate Anchored(c: Config, n: Name) {
    exists u :: Upstream(c, n, u) && c.prefill in c.Deps(u) && (c.Req(u) < 0 || 0 <= c.Req(n) <= c.Req(u))
  }

  lemma DirectlyAnchored(c: Config, n: Name)
    requires n in c.Branches() && c.prefill in c.Deps(n)
    ensures Anchored(c, n)
  {
    SelfUpstream(c, n);
  }

  /** The length at which an anchored branch forks, if it can. */
  ghost predicate ForksAt(c: Config, n: Name, len: int) {
    if c.Req(n) >= 0 then len == c.Req(n) else IsLatest(c.Total(), c.Milestones(), c.Total(), len)
  }

  /**
   * What a branch needs to fork at `len`: a frozen milestone that fits its buffer, or no prefix
   * at all if it named none, and a non-empty prompt that passes the budget check and is no
   * longer than the engine takes in one batch.
   */
  ghost predicate CanFork(c: Config, n: Name, len: int) {
    && (if len == 0 then c.Req(n) < 0 else c.Gate(len) && |Export(DocCells(c.doc, len))| <= c.branchCap)
    && PromptFits(c, n, len)
  }

  ghost predicate NothingEmpty(s: State) {
    && (forall w :: w in s.mon.snapshots ==> s.mon.snapshots[w].data != [])
    && (s.phase.Exporting? ==> s.phase.data != [])
  }

  /** Whoever is anchored and threw could not have forked. */
  ghost predicate ThrowsExplained(c: Config, s: State) {
    forall n, len :: n in c.Branches() && Anchored(c, n) && HasThrown(s.Pc(n)) && ForksAt(c, n, len) ==>
      !CanFork(c, n, len)
  }

  ghost predicate FaultlessInv(c: Config, s: State) {
    NothingEmpty(s) && !PrefillFailed(s) && ThrowsExplained(c, s)
  }

  /** The prefiller's own checks never fail in a safe configuration. */
  lemma OwnChecksPass(c: Config, s: State, a: Action)
    requires PrefillInv(c, s) && Published(c.doc, s.mon) && Shape(c, s) && PrefillSafe(c) && Enabled(c, s, a)
    ensures a.PrefillThrows? ==> EngineFails(a)
  {
    if a.PrefillThrows? && a.prefillSite.CommitExport? {
      NextCommitPoint(c.Total(), s.mon.watermark, s.prefilled);
      ExportsAreBounded(c, s);
    }
  }

  lemma NothingEmptyKept(c: Config, s: State, a: Action)
    requires NothingEmpty(s) && Enabled(c, s, a) && !EngineFails(a)
    ensures NothingEmpty(Apply(c, s, a))
  {
    if !ByPrefill(a) {
      BranchFrame(c, s, a);
    } else if !a.PublishKv? {
      OnlyPublishFreezes(c, s, a);
      ExportingStep(c, s, a);
    }
  }

  /** The prefill an anchored branch waited for is as far as it needs. */
  lemma WaitedForPrefill(c: Config, s: State, n: Name)
    requires WaitInv(c, s) && Shape(c, s) && n in c.Branches() && Anchored(c, n) && PastWaits(c, n, s.Pc(n))
    ensures s.PrefillFulfilled() || 0 <= c.Req(n) <= s.mon.watermark
  {
    var u :| Upstream(c, n, u) && c.prefill in c.Deps(u) && (c.Req(u) < 0 || 0 <= c.Req(n) <= c.Req(u));
    PassedPrefill(c, s, n, u);
  }

  lemma LatestIsUnique(total: int, milestones: set<int>, a: int, b: int)
    requires IsLatest(total, milestones, total, a) && IsLatest(total, milestones, total, b)
    ensures a == b
  {
  }

  /** Where a branch forked is where it could only have forked. */
  lemma ForkPoint(c: Config, s: State, n: Name)
    requires BranchInv(c, s) && LateInv(c, s) && PrefillInv(c, s) && Published(c.doc, s.mon) && Shape(c, s)
    requires !PrefillFailed(s) && n in c.Branches() && Anchored(c, n) && ForkedAt(s.Pc(n)).Some?
    ensures forall len :: ForksAt(c, n, len) <==> len == ForkedAt(s.Pc(n)).value
  {
    var at := ForkedAt(s.Pc(n)).value;
    assert PcInv(c, s.mon.snapshots, n, s.Pc(n));
    if c.Req(n) < 0 {
      assert AwaitsPrefill(c, n);
      forall len | ForksAt(c, n, len)
        ensures len == at
      {
        LatestIsUnique(c.Total(), c.Milestones(), len, at);
      }
    }
  }

  /** Without empty exports, what is frozen at a gate is the document's whole export. */
  lemma FrozenWhole(c: Config, s: State, w: int)
    requires Frozen(c.doc, s.mon) && NothingEmpty(s) && w in s.mon.snapshots
    ensures 0 < w <= c.Total() && s.mon.snapshots[w].data == Export(DocCells(c.doc, w))
  {
    FrozenBytesExactly(c.doc, s.mon, w);
  }

  /** A branch past its waits finds no source only if nothing can be frozen where it forks. */
  lemma NoSourceExplained(c: Config, s: State, n: Name)
    requires WaitInv(c, s) && MonitorInv(c, s) && PrefillInv(c, s) && Shape(c, s) && !PrefillFailed(s)
    requires Anchored(c, n) && BranchCanThrow(c, s, n, ReadSource)
    ensures c.Req(n) >= 0 && !c.Gate(c.Req(n))
  {
    WaitedForPrefill(c, s, n);
  }

  /** A buffer that is too small for the fork is too small for the document prefix. */
  lemma BufferExplained(c: Config, s: State, n: Name, len: int)
    requires BranchInv(c, s) && LateInv(c, s) && PrefillInv(c, s) && Published(c.doc, s.mon) && Shape(c, s)
    requires !PrefillFailed(s) && NothingEmpty(s) && Anchored(c, n) && BranchCanThrow(c, s, n, BufferSize)
    requires ForksAt(c, n, len)
    ensures !CanFork(c, n, len)
  {
    ForkPoint(c, s, n);
    assert PcInv(c, s.mon.snapshots, n, s.Pc(n));
    FrozenWhole(c, s, len);
  }

  /** There is always something to bind to. */
  lemma BindIsPossible(c: Config, s: State, n: Name)
    requires BranchInv(c, s) && LateInv(c, s) && PrefillInv(c, s) && NothingEmpty(s) && !PrefillFailed(s)
    requires n in c.Branches() && Anchored(c, n) && s.Pc(n).Copied? && s.Pc(n).data == []
    ensures s.canonical.Some?
  {
    assert PcInv(c, s.mon.snapshots, n, s.Pc(n));
    assert AwaitsPrefill(c, n);
  }

  lemma PromptExplained(c: Config, s: State, n: Name, site: BranchSite, len: int)
    requires BranchInv(c, s) && LateInv(c, s) && PrefillInv(c, s) && Published(c.doc, s.mon) && Shape(c, s)
    requires !PrefillFailed(s) && Anchored(c, n) && BranchCanThrow(c, s, n, site)
    requires (site.EmptyPromptSite? || site.OverBudget? || site.OversizePrompt?) && ForksAt(c, n, len)
    ensures !CanFork(c, n, len)
  {
    ForkPoint(c, s, n);
  }

  /** Each of a branch's own checks fails only where the branch could not have forked. */
  lemma ThrowExplained(c: Config, s: State, n: Name, site: BranchSite, len: int)
    requires BranchInv(c, s) && LateInv(c, s) && PrefillInv(c, s) && MonitorInv(c, s) && WaitInv(c, s) && Shape(c, s)
    requires !PrefillFailed(s) && NothingEmpty(s) && Anchored(c, n) && ForksAt(c, n, len)
    requires BranchCanThrow(c, s, n, site) && !EngineFails(BranchThrows(n, site))
    ensures !CanFork(c, n, len)
  {
    hide Anchored, BranchInv, LateInv, PrefillInv, Published, Shape, WaitInv, NothingEmpty;
    if site.ReadSource? {
      NoSourceExplained(c, s, n);
    } else if site.BufferSize? {
      BufferExplained(c, s, n, len);
    } else if site.BindBranch? {
      BindIsPossible(c, s, n);
    } else {
      PromptExplained(c, s, n, site, len);
    }
  }

  /** A worker is known to have thrown from the step in which it did. */
  lemma ThrownStep(c: Config, s: State, a: Action, n: Name)
    requires Enabled(c, s, a) && HasThrown(Apply(c, s, a).Pc(n))
    ensures HasThrown(s.Pc(n)) || (a.BranchThrows? && a.n == n)
  {
    if ByPrefill(a) {
      PrefillFrame(c, s, a);
    }
  }

  lemma FaultlessStep(c: Config, s: State, a: Action)
    requires Inv(c, s) && FaultlessInv(c, s) && PrefillSafe(c) && Enabled(c, s, a) && !EngineFails(a)
    ensures !a.PrefillThrows? && FaultlessInv(c, Apply(c, s, a))
  {
    OwnChecksPass(c, s, a);
    NothingEmptyKept(c, s, a);
    HealthyStep(c, s, a);
    forall n, len | n in c.Branches() && Anchored(c, n) && HasThrown(Apply(c, s, a).Pc(n)) && ForksAt(c, n, len)
      ensures !CanFork(c, n, len)
    {
      ThrownStep(c, s, a, n);
      if !HasThrown(s.Pc(n)) {
        ThrowExplained(c, s, n, a.site, len);
      }
    }
  }

  lemma {:induction false} FaultlessRun(c: Config, s: State, run: seq<Action>)
    requires Inv(c, s) && FaultlessInv(c, s) && PrefillSafe(c) && IsRun(c, s, run) && Faultless(run)
    ensures Healthy(run) && Inv(c, After(c, s, run)) && FaultlessInv(c, After(c, s, run))
    decreases |run|
  {
    hide Inv, FaultlessInv, Enabled, Apply;
    if run != [] {
      StepInv(c, s, run[0]);
      FaultlessStep(c, s, run[0]);
      FaultlessRun(c, Apply(c, s, run[0]), run[1..]);
      assert forall i :: 0 < i < |run| ==> run[i] == run[1..][i - 1];
    }
  }

  lemma InitialFaultless(c: Config, buffer: Option<seq<byte>>)
    ensures FaultlessInv(c, Initial(c, buffer))
  {
  }

  lemma FaultlessFromStart(c: Config, buffer: Option<seq<byte>>, run: seq<Action>)
    requires c.Valid() && PrefillSafe(c) && BufferMatches(c, buffer)
    requires IsRun(c, Initial(c, buffer), run) && Faultless(run)
    ensures Healthy(run) && Inv(c, After(c, Initial(c, buffer), run))
    ensures FaultlessInv(c, After(c, Initial(c, buffer), run))
  {
    hide Inv, FaultlessInv, IsRun, After;
    InitialInv(c, buffer);
    InitialFaultless(c, buffer);
    FaultlessRun(c, Initial(c, buffer), run);
  }

  /** Without overflow, what CanFork demands in numbers: a commit point, room for its export and for the prompt. */
  lemma CanForkMeans(c: Config, n: Name, len: int)
    requires c.Valid() && n in c.Branches() && ForksAt(c, n, len) && c.nCtx <= 0x7fff_ffff
    requires len + |c.nodes[n].prompt| + 128 <= 0x7fff_ffff
    ensures var prompt := c.nodes[n].prompt;
      CanFork(c, n, len) <==>
        && (len == 0 ==> c.nodes[n].req < 0)
        && 0 <= len <= |c.doc| && (len % 128 == 0 || len == |c.doc|) && (len > 0 ==> 4 + 8 * len <= c.branchCap)
        && prompt != [] && |prompt| <= c.nBatch && len + |prompt| + 128 <= c.nCtx
  {
    InRange(c.nCtx);
    if len >= 0 {
      InRange(len + |c.nodes[n].prompt| + 128);
    }
    hide Wrap32;
    if c.Req(n) > 0 {
      assert c.Req(n) in c.Milestones();
    }
  }

  /** A branch that succeeded could fork where it did. */
  lemma SuccessExplained(c: Config, s: State, n: Name, len: int)
    requires BranchInv(c, s) && LateInv(c, s) && PrefillInv(c, s) && Published(c.doc, s.mon) && Shape(c, s)
    requires !PrefillFailed(s) && NothingEmpty(s) && n in c.Branches() && Anchored(c, n)
    requires VerdictOf(s, n).Some? && VerdictOf(s, n).value.Succeeded? && ForksAt(c, n, len)
    ensures VerdictOf(s, n).value == Succeeded(len, BaselineKv(c.doc[..Max(0, Min(len, c.Total()))], c.Prompt(n)))
    ensures 0 <= len <= c.Total() && CanFork(c, n, len)
  {
    ForkPoint(c, s, n);
    assert PcInv(c, s.mon.snapshots, n, s.Pc(n));
    BaseIsZeroExactly(c.doc, s.mon, len);
    ForkIsBaselineExactly(c.doc, 0, len, c.Prompt(n));
    if len in s.mon.snapshots {
      FrozenWhole(c, s, len);
    }
  }

  /**
   * When the engine does not fail, a branch that waits far enough on the prefiller, directly or
   * through others, and finishes succeeds if and only if it can fork: its watermark is a commit
   * point (or it named none), the prefix fits its buffer, and its prompt is not empty, passes
   * the budget check and fits one batch. It then holds the unshared agent's KV.
   */
  lemma BranchSucceedsExactly(c: Config, buffer: Option<seq<byte>>, run: seq<Action>, n: Name, len: int)
    requires c.Valid() && PrefillSafe(c) && BufferMatches(c, buffer)
    requires IsRun(c, Initial(c, buffer), run) && Faultless(run)
    requires n in c.Branches() && Anchored(c, n) && ForksAt(c, n, len)
    requires After(c, Initial(c, buffer), run).Pc(n).Ended?
    ensures var verdict := After(c, Initial(c, buffer), run).Pc(n).verdict;
      && (verdict.Succeeded? <==> CanFork(c, n, len))
      && (verdict.Succeeded? ==>
            0 <= len <= c.Total() && verdict == Succeeded(len, BaselineKv(c.doc[..len], c.Prompt(n))))
  {
    var s := After(c, Initial(c, buffer), run);
    FaultlessFromStart(c, buffer, run);
    VerdictExplained(c, s, n, len);
  }

  lemma VerdictExplained(c: Config, s: State, n: Name, len: int)
    requires BranchInv(c, s) && LateInv(c, s) && PrefillInv(c, s) && Published(c.doc, s.mon) && Shape(c, s)
    requires FaultlessInv(c, s) && n in c.Branches() && Anchored(c, n) && ForksAt(c, n, len) && s.Pc(n).Ended?
    ensures s.Pc(n).verdict.Succeeded? <==> CanFork(c, n, len)
    ensures s.Pc(n).verdict.Succeeded? ==>
      0 <= len <= c.Total() && s.Pc(n).verdict == Succeeded(len, BaselineKv(c.doc[..len], c.Prompt(n)))
  {
    hide Anchored, CanFork, ForksAt, BranchInv, LateInv, PrefillInv, Published, Shape;
    if s.Pc(n).verdict.Succeeded? {
      SuccessExplained(c, s, n, len);
    } else {
      assert HasThrown(s.Pc(n));
    }
  }

  lemma FaultlessMeansHealthy(c: Config, s: State)
    requires FaultlessInv(c, s)
    ensures !PrefillFailed(s)
  {
  }

  /** A well-gated pipeline has a run without engine failures in which every worker finishes. */
  lemma {:induction false} CompleteWithoutFaults(c: Config, s: State) returns (run: seq<Action>)
    requires Inv(c, s) && FaultlessInv(c, s) && PrefillSafe(c) && WellGated(c)
    ensures IsRun(c, s, run) && Faultless(run) && AllDone(c, After(c, s, run))
    decreases Work(c, s)
  {
    hide Inv, FaultlessInv, PrefillSafe, WellGated, Enabled, Apply;
    if AllDone(c, s) {
      run := [];
    } else {
      FaultlessMeansHealthy(c, s);
      var a := Progress(c, s);
      StepAdvances(c, s, a);
      FaultlessStep(c, s, a);
      var rest := CompleteWithoutFaults(c, Apply(c, s, a));
      run := [a] + rest;
      assert run[1..] == rest;
    }
  }

  /** A run without engine failures of a well-gated pipeline ends with exactly the branches that can fork successful. */
  lemma WellGatedOutcome(c: Config, buffer: Option<seq<byte>>, run: seq<Action>, n: Name, len: int)
    requires c.Valid() && PrefillSafe(c) && WellGated(c) && BufferMatches(c, buffer)
    requires IsRun(c, Initial(c, buffer), run) && Faultless(run) && Stuck(c, After(c, Initial(c, buffer), run))
    requires n in c.Branches() && Anchored(c, n) && ForksAt(c, n, len)
    ensures After(c, Initial(c, buffer), run).Pc(n).Ended?
    ensures After(c, Initial(c, buffer), run).Pc(n).verdict.Succeeded? <==> CanFork(c, n, len)
  {
    FaultlessFromStart(c, buffer, run);
    DeadlockFreeExactly(c, buffer);
    BranchSucceedsExactly(c, buffer, run, n, len);
  }

  // ------------------------------------------------------------------
  // Failures of the prefiller
  // ------------------------------------------------------------------

  /** Once the prefill has ended, whoever waits for more than was committed never starts. */
  lemma {:induction false} StrandedForever(c: Config, s: State, run: seq<Action>, n: Name, u: Name)
    requires Inv(c, s) && IsRun(c, s, run) && s.phase.Ended? && n in c.Branches()
    requires Upstream(c, n, u) && c.prefill in c.Deps(u) && c.Req(u) > s.mon.watermark
    ensures !Started(After(c, s, run).Pc(n)) && After(c, s, run).phase.Ended?
    decreases |run|
  {
    if run == [] {
      if Started(s.Pc(n)) {
        PassedPrefill(c, s, n, u);
      }
    } else {
      StepInv(c, s, run[0]);
      EndedStays(c, s, run[0]);
      StrandedForever(c, Apply(c, s, run[0]), run[1..], n, u);
    }
  }

  lemma EndedStays(c: Config, s: State, a: Action)
    requires Enabled(c, s, a) && s.phase.Ended?
    ensures Apply(c, s, a).phase.Ended? && Apply(c, s, a).mon.watermark == s.mon.watermark
  {
    if ByPrefill(a) {
      EndedPrefillIsFinal(c, s, a);
    } else {
      BranchFrame(c, s, a);
    }
  }

  /**
   * A failing prefiller does leave dependents hanging: in every pipeline with a branch u at a
   * positive watermark, a run in which the first context cannot be created leaves u, and every
   * branch n that waits for it, waiting for ever, and with them the join, whatever happens next.
   */
  lemma PrefillFailureHangs(c: Config, buffer: Option<seq<byte>>, n: Name, u: Name) returns (run: seq<Action>)
    requires c.Valid() && BufferMatches(c, buffer) && n in c.Branches()
    requires Upstream(c, n, u) && c.prefill in c.Deps(u) && c.Req(u) > 0
    ensures IsRun(c, Initial(c, buffer), run)
    ensures var s := After(c, Initial(c, buffer), run);
      && PrefillFailed(s) && s.phase.Ended?
      && forall more :: IsRun(c, s, more) ==>
        !After(c, s, more).Pc(n).Ended? && (!Orphaned(c, n) ==> !AllTerminated(c, After(c, s, more)))
  {
    var s0 := Initial(c, buffer);
    run := FirstAction(c, s0, PrefillThrows(CreateContext));
    run := NextAction(c, s0, run, FulfilPrefill);
    var s := After(c, s0, run);
    InitialInv(c, buffer);
    RunInv(c, s0, run);
    NothingAfterFailure(c, s, n, u);
  }

  lemma NothingAfterFailure(c: Config, s: State, n: Name, u: Name)
    requires Inv(c, s) && s.phase.Ended? && n in c.Branches()
    requires Upstream(c, n, u) && c.prefill in c.Deps(u) && c.Req(u) > s.mon.watermark
    ensures forall more :: IsRun(c, s, more) ==>
      !After(c, s, more).Pc(n).Ended? && (!Orphaned(c, n) ==> !AllTerminated(c, After(c, s, more)))
  {
    forall more | IsRun(c, s, more)
      ensures !After(c, s, more).Pc(n).Ended?
      ensures !Orphaned(c, n) ==> !AllTerminated(c, After(c, s, more))
    {
      RunInv(c, s, more);
      StrandedForever(c, s, more, n, u);
    }
  }

  /**
   * A context can outlive the pipeline: where there is no branch and the tokenizer fails, the
   * join returns and the pool is freed while the prefiller's context is still open.
   */
  lemma LeakOutlivesJoin(c: Config, buffer: Option<seq<byte>>) returns (run: seq<Action>)
    requires c.Valid() && BufferMatches(c, buffer) && buffer.Some? && c.Branches() == {}
    ensures IsRun(c, Initial(c, buffer), run)
    ensures After(c, Initial(c, buffer), run).freed && After(c, Initial(c, buffer), run).open == 1
  {
    var s0 := Initial(c, buffer);
    run := FirstAction(c, s0, PrefillThrows(TokenizeDocument));
    run := NextAction(c, s0, run, FulfilPrefill);
    run := NextAction(c, s0, run, FreeAll);
  }

  /**
   * The guard's own rule, that every engine call of a node is made under the lock, is not kept
   * by the prefiller's set-up: a branch without dependencies can be inside execute when the
   * prefiller creates its first context.
   */
  lemma SetUpIgnoresLock(c: Config, buffer: Option<seq<byte>>, n: Name) returns (run: seq<Action>)
    requires c.Valid() && BufferMatches(c, buffer) && buffer.Some? && c.Total() < c.Limit()
    requires n in c.Branches() && c.Deps(n) == [] && c.Req(n) < 0
    ensures IsRun(c, Initial(c, buffer), run)
    ensures var s := After(c, Initial(c, buffer), run); InsideExecute(s.Pc(n)) && Enabled(c, s, Start)
  {
    run := FirstAction(c, Initial(c, buffer), Enter(n));
  }

  // ------------------------------------------------------------------
  // Empty exports
  // ------------------------------------------------------------------

  const ROOT: Name := "Prefiller"
  const FORK: Name := "Branch"

  /** A document of one token, and one branch that forks behind it. */
  function OneForkConfig(document: Token, prompt: Token): Config {
    Config(map[ROOT := Prefill, FORK := Branch(1, [prompt])], map[FORK := [ROOT]], ROOT,
           [document], 4096, 1, Some(64), 64)
  }

  lemma OneForkShape(c: Config, document: Token, prompt: Token)
    requires c == OneForkConfig(document, prompt)
    ensures c.Valid() && c.Branches() == {FORK} && c.Milestones() == {1} && c.Gate(1) && PrefillSafe(c)
    ensures c.Req(FORK) == 1 && c.Deps(FORK) == [ROOT] && c.Prompt(FORK) == [prompt] && c.Total() < c.Limit()
  {
    assert FORK in c.Branches() && c.Req(FORK) == 1;
    assert forall m :: c.Gate(m) ==> m == 1;
    assert Wrap32(4096) == 4096;
  }

  /** The prefiller's part: the only token is decoded, and its milestone is exported as nothing. */
  lemma EmptyMilestone(c: Config, s0: State, junk: seq<byte>) returns (run: seq<Action>)
    requires c.Valid() && c.Branches() == {FORK} && c.Milestones() == {1} && c.Total() == 1 < c.Limit()
    requires s0 == Initial(c, Some(junk))
    ensures IsRun(c, s0, run)
    ensures var s := After(c, s0, run);
      && s.phase.Parked? && s.pcs == s0.pcs && s.guard.None? && s.canonical == Some(junk) && s.mon.watermark == 1
      && s.mon.snapshots == map[1 := Snapshot([], 1)]
  {
    run := FirstAction(c, s0, Start);
    run := NextAction(c, s0, run, DecodeChunk);
    var s := After(c, s0, run);
    assert s.phase.Decoded? && s.prefilled == 1 && s.mon == s0.mon;
    run := NextAction(c, s0, run, ExportNothing(junk));
    run := NextAction(c, s0, run, PublishKv);
    run := NextAction(c, s0, run, FreeContext);
  }

  /** The branch's part: it forks from the empty snapshot. */
  lemma EnterFromNothing(c: Config, s0: State, before: seq<Action>) returns (run: seq<Action>)
    requires IsRun(c, s0, before) && c.Valid() && c.Branches() == {FORK}
    requires c.Req(FORK) == 1 && c.Deps(FORK) == [c.prefill]
    requires var s := After(c, s0, before);
      && s.Pc(FORK) == Waiting(0) && s.guard.None? && s.canonical.Some? && s.mon.watermark == 1
      && 1 in s.mon.snapshots && s.mon.snapshots[1] == Snapshot([], 1)
    ensures IsRun(c, s0, run) && After(c, s0, run).Pc(FORK) == Copied(1, []) && After(c, s0, run).canonical.Some?
  {
    run := NextAction(c, s0, before, Proceed(FORK));
    var s := After(c, s0, run);
    assert s.Pc(FORK) == Waiting(1) && ForkSource(s.mon, s.canonical, 1) == Ok((1, []));
    run := NextAction(c, s0, run, Enter(FORK));
  }

  /** Nothing is restored. */
  lemma RestoreNothing(c: Config, s0: State, before: seq<Action>) returns (run: seq<Action>)
    requires IsRun(c, s0, before) && c.Branches() == {FORK}
    requires After(c, s0, before).Pc(FORK) == Copied(1, []) && After(c, s0, before).canonical.Some?
    ensures IsRun(c, s0, run) && After(c, s0, run).Pc(FORK) == Live(1, [])
  {
    run := NextAction(c, s0, before, Restore(FORK));
  }

  /** The prompt is decoded behind nothing. */
  lemma FinishFromNothing(c: Config, s0: State, before: seq<Action>) returns (run: seq<Action>)
    requires IsRun(c, s0, before) && c.Branches() == {FORK} && PromptFits(c, FORK, 1)
    requires After(c, s0, before).Pc(FORK) == Live(1, [])
    ensures IsRun(c, s0, run)
    ensures VerdictOf(After(c, s0, run), FORK) == Some(Succeeded(1, CellsAt(c.Prompt(FORK), 1)))
  {
    run := NextAction(c, s0, before, DecodePrompt(FORK));
    assert [] + CellsAt(c.Prompt(FORK), 1) == CellsAt(c.Prompt(FORK), 1);
    run := NextAction(c, s0, run, SignalDone(FORK));
  }

  /**
   * An export of no bytes is not an error anywhere: in a safe configuration a branch succeeds
   * at fork length 1 with a KV that lacks the document.
   */
  lemma EmptyExportForksNothing(document: Token, prompt: Token, junk: seq<byte>) returns (run: seq<Action>)
    requires |junk| == 64
    ensures var c := OneForkConfig(document, prompt); var s0 := Initial(c, Some(junk));
      && c.Valid() && PrefillSafe(c) && BufferMatches(c, Some(junk)) && IsRun(c, s0, run)
      && VerdictOf(After(c, s0, run), FORK) == Some(Succeeded(1, [Cell(prompt, 1)]))
      && BaselineKv(c.doc[..1], c.Prompt(FORK)) == [Cell(document, 0), Cell(prompt, 1)]
  {
    var c := OneForkConfig(document, prompt);
    var s0 := Initial(c, Some(junk));
    OneForkShape(c, document, prompt);
    run := EmptyMilestone(c, s0, junk);
    assert Wrap32(1 + 1 + HEADROOM) == 130 && Wrap32(4096) == 4096;
    run := EnterFromNothing(c, s0, run);
    run := RestoreNothing(c, s0, run);
    run := FinishFromNothing(c, s0, run);
    assert CellsAt(c.Prompt(FORK), 1) == [Cell(prompt, 1)];
  }
}
