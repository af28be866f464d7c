/** The shipped example pipeline: one branch at watermark 512, one that waits for the whole prefill. */
module AuditPipeline {
  import opened Common
  import opened KvCache
  import opened PrefixSpec
  import opened ForkSpec
  import opened ContextBudget
  import opened DependencyGraph
  import opened Protocol
  import opened ProtocolInvariant
  import opened Liveness
  import opened Safety
  import opened Outcomes
  import opened Orchestration

  const PREFILLER: Name := "Prefiller"
  const SECURITY: Name := "SecurityAuditor"
  const LICENSE: Name := "LicenseChecker"

  function AuditConfig(doc: seq<Token>, security: seq<Token>, license: seq<Token>,
                       nCtx: nat, nBatch: nat, canonicalCap: nat, branchCap: nat): Config
  {
    Config(map[PREFILLER := Prefill, SECURITY := Branch(512, security), LICENSE := Branch(-1, license)],
           WithEdge(WithEdge(map[], SECURITY, PREFILLER), LICENSE, PREFILLER),
           PREFILLER, doc, nCtx, nBatch, Some(canonicalCap), branchCap)
  }

  ghost predicate IsAudit(c: Config) {
    && c.nodes.Keys == {PREFILLER, SECURITY, LICENSE} && c.prefill == PREFILLER
    && c.nodes[PREFILLER].Prefill? && c.nodes[SECURITY].Branch? && c.nodes[LICENSE].Branch?
    && c.nodes[SECURITY].req == 512 && c.nodes[LICENSE].req == -1
    && c.Deps(PREFILLER) == [] && c.Deps(SECURITY) == [PREFILLER] && c.Deps(LICENSE) == [PREFILLER]
  }

  lemma AuditShape(doc: seq<Token>, security: seq<Token>, license: seq<Token>,
                   nCtx: nat, nBatch: nat, canonicalCap: nat, branchCap: nat)
    ensures IsAudit(AuditConfig(doc, security, license, nCtx, nBatch, canonicalCap, branchCap))
  {
  }

  /** Every wait of the example is a branch's wait on the prefiller. */
  lemma AuditStep(c: Config, p: seq<Name>, i: nat)
    requires IsAudit(c) && IsWalk(WaitGraph(c), p) && i < |p| - 1
    ensures p[i] != PREFILLER && p[i + 1] == PREFILLER
  {
    assert p[i] in WaitGraph(c) && p[i + 1] in c.Deps(p[i]);
  }

  lemma AuditWaits(c: Config, p: seq<Name>)
    requires IsAudit(c) && IsWalk(WaitGraph(c), p) && |p| > 1
    ensures p[1] == PREFILLER && |p| == 2 && p[0] != PREFILLER
  {
    if |p| > 2 {
      AuditStep(c, p, 1);
    }
    AuditStep(c, p, 0);
  }

  /** The example is well gated if and only if its document has at least 512 tokens. */
  lemma AuditWellGated(c: Config)
    requires IsAudit(c)
    ensures WellGated(c) <==> c.Total() >= 512
  {
    if p :| IsCycle(WaitGraph(c), p) {
      AuditWaits(c, p);
    }
    forall v, u | v in c.Branches() && Upstream(c, v, u)
      ensures u == v
    {
      var p :| IsWalk(WaitGraph(c), p) && p[0] == v && p[|p| - 1] == u;
      if |p| > 1 {
        AuditWaits(c, p);
      }
    }
    assert SECURITY in c.Branches() && c.Deps(SECURITY)[0] == PREFILLER;
    assert DirectPossible(c, SECURITY) <==> c.Total() >= 512;
    assert DirectPossible(c, LICENSE);
    assert DirectNeeds(c, SECURITY, 512);
  }

  /**
   * Exactly the documents of at least 512 tokens let the example finish: on a shorter one the
   * security branch waits for ever, and so does the join.
   */
  lemma AuditCompletesExactly(doc: seq<Token>, security: seq<Token>, license: seq<Token>, nCtx: nat, nBatch: nat,
                              canonicalCap: nat, branchCap: nat, buffer: Option<seq<byte>>)
    requires var c := AuditConfig(doc, security, license, nCtx, nBatch, canonicalCap, branchCap);
      c.Valid() && PrefillSafe(c) && BufferMatches(c, buffer)
    ensures var c := AuditConfig(doc, security, license, nCtx, nBatch, canonicalCap, branchCap);
      && (CanComplete(c, buffer) <==> |doc| >= 512) && (DeadlockFree(c, buffer) <==> |doc| >= 512)
      && (CanJoin(c, buffer) <==> |doc| >= 512) && (AlwaysJoins(c, buffer) <==> |doc| >= 512)
  {
    var c := AuditConfig(doc, security, license, nCtx, nBatch, canonicalCap, branchCap);
    AuditShape(doc, security, license, nCtx, nBatch, canonicalCap, branchCap);
    AuditWellGated(c);
    AuditRegistered(c);
    JoinableWhenRegistered(c);
    DeadlockFreeExactly(c, buffer);
    JoinExactly(c, buffer);
  }

  lemma AuditRegistered(c: Config)
    requires IsAudit(c)
    ensures forall v :: v in c.Branches() ==> !Orphaned(c, v)
  {
  }

  lemma AuditMilestones(c: Config)
    requires IsAudit(c)
    ensures c.Milestones() == {512} && (CommitPoint(c.Total(), 512) <==> c.Total() >= 512)
  {
    assert SECURITY in c.Branches() && c.Req(SECURITY) == 512;
    assert c.Branches() == {SECURITY, LICENSE};
  }

  /**
   * The branch that waits for the whole prefill forks from the first 512 tokens, however long
   * the document is, and from nothing if it is shorter.
   */
  lemma LicenseCheckerForksAt512(c: Config, s: State)
    requires IsAudit(c) && c.Valid() && Reachable(c, s) && s.phase == Phase.Ended(true)
    requires VerdictOf(s, LICENSE).Some? && VerdictOf(s, LICENSE).value.Succeeded?
    ensures VerdictOf(s, LICENSE).value.len == if c.Total() >= 512 then 512 else 0
  {
    hide IsAudit, Reachable, AwaitsPrefill, CommitPoint;
    FinalCanonicalPrefix(c, s);
    AuditAwaitsPrefill(c);
    LateForkLength(c, s, LICENSE);
    AuditMilestones(c);
    assert c.Total() >= 512 ==> IsGate(c.Total(), c.Milestones(), 512);
  }

  lemma AuditAwaitsPrefill(c: Config)
    requires IsAudit(c)
    ensures LICENSE in c.Branches() && AwaitsPrefill(c, LICENSE) && Anchored(c, LICENSE)
  {
    assert c.Deps(LICENSE)[0] == PREFILLER;
    SelfUpstream(c, LICENSE);
    DirectlyAnchored(c, LICENSE);
  }

  lemma AuditForksAt(c: Config)
    requires IsAudit(c) && c.Total() >= 512
    ensures c.Req(LICENSE) == -1 && ForksAt(c, LICENSE, 512) && c.Gate(512)
  {
    AuditMilestones(c);
    assert IsGate(c.Total(), c.Milestones(), 512);
  }

  /**
   * It does so without any failure: on every longer document whose branches fit, a run ends
   * with every worker finished and this branch successful, on a KV that lacks everything
   * after the first 512 tokens.
   */
  lemma LicenseCheckerMissesDocument(c: Config, buffer: Option<seq<byte>>) returns (run: seq<Action>)
    requires IsAudit(c) && c.Valid() && PrefillSafe(c) && BufferMatches(c, buffer) && c.Total() > 512
    requires PromptFits(c, LICENSE, 512) && |Export(DocCells(c.doc, 512))| <= c.branchCap
    ensures IsRun(c, Initial(c, buffer), run) && Faultless(run) && AllDone(c, After(c, Initial(c, buffer), run))
    ensures After(c, Initial(c, buffer), run).Pc(LICENSE)
         == Pc.Ended(Succeeded(512, BaselineKv(c.doc[..512], c.Prompt(LICENSE))))
    ensures BaselineKv(c.doc[..512], c.Prompt(LICENSE)) != BaselineKv(c.doc, c.Prompt(LICENSE))
  {
    AuditForksAt(c);
    AuditWellGated(c);
    AuditAwaitsPrefill(c);
    hide IsAudit, WellGated, PrefillSafe, Inv, FaultlessInv, IsRun, After, Anchored, AwaitsPrefill, ForksAt;
    InitialInv(c, buffer);
    InitialFaultless(c, buffer);
    run := CompleteWithoutFaults(c, Initial(c, buffer));
    BranchSucceedsExactly(c, buffer, run, LICENSE, 512);
    assert |BaselineKv(c.doc[..512], c.Prompt(LICENSE))| < |BaselineKv(c.doc, c.Prompt(LICENSE))|;
  }
}
