/** What holds in every reachable state and over every run, whatever fails and however the workers interleave. */
module Safety {
  import opened Common
  import opened KvCache
  import opened PrefixSpec
  import opened ForkSpec
  import opened ContextBudget
  import opened DependencyGraph
  import opened Protocol
  import opened ProtocolInvariant
  import opened Liveness

  // ------------------------------------------------------------------
  // Data
  // ------------------------------------------------------------------

  /** The verdict a branch leaves execute with, once it has one. */
  function VerdictOf(s: State, n: Name): Option<Verdict> {
    match s.Pc(n)
    case Leaving(v) => Some(v)
    case Ended(v) => Some(v)
    case _ => None
  }

  /** No gate up to w was exported empty. */
  predicate FullyExported(snapshots: map<int, Snapshot>, w: int) {
    forall g :: g in snapshots && g <= w ==> snapshots[g].data != []
  }

  lemma BaseIsZeroExactly(doc: seq<Token>, m: Monitor, w: int)
    requires Frozen(doc, m)
    ensures Base(m.snapshots, w) == 0 <==> FullyExported(m.snapshots, w)
  {
    assert forall g :: g in m.snapshots ==> g > 0;
  }

  /**
   * Fork equals recompute, exactly: a branch that succeeds holds the KV that an agent sharing
   * nothing computes from the same document prefix and prompt if and only if no gate up to its
   * fork length was exported empty; otherwise the document is missing up to the last such
   * gate. A watermark branch forked at exactly the watermark it asked for.
   */
  lemma ForkEqualsRecompute(c: Config, s: State, n: Name)
    requires c.Valid() && Reachable(c, s) && n in c.Branches()
    requires VerdictOf(s, n).Some? && VerdictOf(s, n).value.Succeeded?
    ensures var Succeeded(len, kv) := VerdictOf(s, n).value;
      && 0 <= len <= c.Total()
      && (kv == BaselineKv(c.doc[..len], c.Prompt(n)) <==> FullyExported(s.mon.snapshots, len))
      && (var b := Base(s.mon.snapshots, len); kv == CellsAt(c.doc[b..len] + c.Prompt(n), b))
      && (c.nodes[n].req >= 0 ==> len == c.nodes[n].req && CommitPoint(c.Total(), len))
  {
    ReachableInv(c, s);
    assert PcInv(c, s.mon.snapshots, n, s.Pc(n));
    var Succeeded(len, kv) := VerdictOf(s, n).value;
    ForkIsBaselineExactly(c.doc, Base(s.mon.snapshots, len), len, c.Prompt(n));
    BaseIsZeroExactly(c.doc, s.mon, len);
  }

  /**
   * Token by token: a branch that succeeds holds the document's tokens from the last empty
   * gate on, each at its own position, and its prompt behind them; with no empty gate, the
   * whole document prefix.
   */
  lemma KvTokenByToken(c: Config, s: State, n: Name)
    requires c.Valid() && Reachable(c, s) && n in c.Branches()
    requires VerdictOf(s, n).Some? && VerdictOf(s, n).value.Succeeded?
    ensures var Succeeded(len, kv) := VerdictOf(s, n).value;
      var b, prompt := Base(s.mon.snapshots, len), c.nodes[n].prompt;
      && b <= len <= |c.doc| && |kv| == len - b + |prompt|
      && (forall i :: 0 <= i < |kv| ==> kv[i] == Cell(if b + i < len then c.doc[b + i] else prompt[b + i - len], b + i))
      && (FullyExported(s.mon.snapshots, len) ==> b == 0)
  {
    hide Reachable;
    ForkEqualsRecompute(c, s, n);
    SucceededBase(c, s, n);
    var Succeeded(len, kv) := VerdictOf(s, n).value;
    var b := Base(s.mon.snapshots, len);
    hide CellsAt, Base, FullyExported, BaselineKv;
    CellsInOrder(c.doc[b..len] + c.Prompt(n), b);
  }

  lemma SucceededBase(c: Config, s: State, n: Name)
    requires c.Valid() && Reachable(c, s) && n in c.Branches()
    requires VerdictOf(s, n).Some? && VerdictOf(s, n).value.Succeeded?
    ensures var len := VerdictOf(s, n).value.len;
      && 0 <= len && Base(s.mon.snapshots, len) <= len
      && (FullyExported(s.mon.snapshots, len) ==> Base(s.mon.snapshots, len) == 0)
  {
    ReachableInv(c, s);
    assert PcInv(c, s.mon.snapshots, n, s.Pc(n));
    BaseIsZeroExactly(c.doc, s.mon, VerdictOf(s, n).value.len);
  }

  /** In a run without empty exports, a branch that succeeded holds document and prompt, token by token. */
  lemma KvTokenByTokenOverRuns(c: Config, buffer: Option<seq<byte>>, run: seq<Action>, n: Name)
    requires c.Valid() && BufferMatches(c, buffer) && IsRun(c, Initial(c, buffer), run) && n in c.Branches()
    requires forall a :: a in run ==> !a.ExportNothing?
    requires var v := VerdictOf(After(c, Initial(c, buffer), run), n); v.Some? && v.value.Succeeded?
    ensures var Succeeded(len, kv) := VerdictOf(After(c, Initial(c, buffer), run), n).value;
      var prompt := c.nodes[n].prompt;
      && 0 <= len <= |c.doc| && |kv| == len + |prompt|
      && forall i :: 0 <= i < |kv| ==> kv[i] == Cell(if i < len then c.doc[i] else prompt[i - len], i)
  {
    NoEmptyExports(c, Initial(c, buffer), run);
    ForkEqualsRecomputeOverRuns(c, buffer, run, n);
    var Succeeded(len, kv) := VerdictOf(After(c, Initial(c, buffer), run), n).value;
    CellsInOrder(c.doc[..len] + c.Prompt(n), 0);
  }

  lemma {:induction false} NoEmptyExports(c: Config, s: State, run: seq<Action>)
    requires IsRun(c, s, run) && forall a :: a in run ==> !a.ExportNothing?
    ensures EmptyExports(c, s, run) == {}
    decreases |run|
  {
    if run != [] {
      NoEmptyExports(c, Apply(c, s, run[0]), run[1..]);
    }
  }

  /** What is frozen restores, token by token, to the document from the last empty gate on. */
  lemma SnapshotTokenByToken(c: Config, s: State, w: int)
    requires c.Valid() && Reachable(c, s) && w in s.mon.snapshots && s.mon.snapshots[w].data != []
    ensures var (cells, used) := Import(s.mon.snapshots[w].data);
      var b := Base(s.mon.snapshots, w);
      && b <= w <= |c.doc| && used == |s.mon.snapshots[w].data| && |cells| == w - b
      && forall i :: 0 <= i < |cells| ==> cells[i] == Cell(c.doc[b + i], b + i)
  {
    hide Import, Base, Frozen, PrefillInv, BranchInv;
    ReachableInv(c, s);
    FrozenTokenByToken(c.doc, s.mon, w);
  }

  lemma FrozenTokenByToken(doc: seq<Token>, m: Monitor, w: int)
    requires Frozen(doc, m) && |doc| <= INT32_MAX && w in m.snapshots && m.snapshots[w].data != []
    ensures var (cells, used) := Import(m.snapshots[w].data);
      var b := Base(m.snapshots, w);
      && b <= w <= |doc| && used == |m.snapshots[w].data| && |cells| == w - b
      && forall i :: 0 <= i < |cells| ==> cells[i] == Cell(doc[b + i], b + i)
  {
    hide Import, Span, Frozen, Base;
    RestoredIsSpan(doc, m, w);
    SpanIs(doc, Base(m.snapshots, w), w);
  }

  /** Watermark zero is never frozen, so a branch that asks for it always throws. */
  lemma WatermarkZeroAlwaysThrows(c: Config, s: State, n: Name)
    requires c.Valid() && Reachable(c, s) && n in c.Branches() && c.Req(n) == 0
    ensures VerdictOf(s, n).Some? ==> VerdictOf(s, n).value == Threw
    ensures !s.Pc(n).Sizing? && !s.Pc(n).Copied? && !s.Pc(n).Live? && !s.Pc(n).Forked?
  {
    ReachableInv(c, s);
    assert PcInv(c, s.mon.snapshots, n, s.Pc(n));
    assert 0 !in s.mon.snapshots;
  }

  /**
   * Whoever succeeds had a prompt that is not empty, that is one legal batch, and that leaves
   * the headroom of 128 tokens wherever the sums stay within int32.
   */
  lemma SucceededPrompt(c: Config, s: State, n: Name)
    requires c.Valid() && Reachable(c, s) && n in c.Branches()
    requires VerdictOf(s, n).Some? && VerdictOf(s, n).value.Succeeded?
    ensures var len, prompt := VerdictOf(s, n).value.len, c.nodes[n].prompt;
      && prompt != [] && |prompt| <= c.nBatch
      && (c.nCtx <= 0x7fff_ffff && len + |prompt| + 128 <= 0x7fff_ffff ==> len + |prompt| + 128 <= c.nCtx)
  {
    ReachableInv(c, s);
    assert PcInv(c, s.mon.snapshots, n, s.Pc(n));
    if c.nCtx <= 0x7fff_ffff && VerdictOf(s, n).value.len + |c.Prompt(n)| + 128 <= 0x7fff_ffff {
      LimitIsContext(c);
      BudgetHolds(c, n, VerdictOf(s, n).value.len);
    }
  }

  /** A prompt above n_batch is never decoded, however much room the budget check finds for it. */
  lemma OversizePromptAlwaysThrows(c: Config, s: State, n: Name)
    requires c.Valid() && Reachable(c, s) && n in c.Branches() && |c.Prompt(n)| > c.nBatch
    ensures VerdictOf(s, n).Some? ==> VerdictOf(s, n).value == Threw
  {
    ReachableInv(c, s);
    assert PcInv(c, s.mon.snapshots, n, s.Pc(n));
  }

  /** What is frozen at w is the document's export, whole, if and only if no gate up to w was exported empty. */
  lemma FrozenBytesExactly(doc: seq<Token>, m: Monitor, w: int)
    requires Frozen(doc, m) && w in m.snapshots
    ensures 0 < w <= |doc| && (m.snapshots[w].data == Export(DocCells(doc, w)) <==> FullyExported(m.snapshots, w))
  {
    assert FrozenAt(doc, m.snapshots, w);
    BaseIsZeroExactly(doc, m, w);
  }

  /**
   * A branch that the watermark wait let through finds its snapshot if and only if its
   * watermark is one that the chunked loop commits; it is the document's export if and only if
   * no gate up to it was exported empty.
   */
  lemma SnapshotAvailability(c: Config, s: State, n: Name)
    requires c.Valid() && Reachable(c, s) && n in c.Branches() && 0 < c.Req(n) <= s.mon.watermark
    ensures var w := c.Req(n); var source := ForkSource(s.mon, s.canonical, w);
      && (source.Ok? <==> w <= c.Total() && (w % 128 == 0 || w == c.Total()))
      && (source.Ok? ==> source.value.0 == w)
      && (source.Ok? ==> (source.value.1 == Export(DocCells(c.doc, w)) <==> FullyExported(s.mon.snapshots, w)))
      && (source.Raised? ==> source == Raised(MissingSnapshot))
  {
    ReachableInv(c, s);
    assert c.Req(n) in c.Milestones();
    if c.Req(n) in s.mon.snapshots {
      assert FrozenAt(c.doc, s.mon.snapshots, c.Req(n));
      FrozenBytesExactly(c.doc, s.mon, c.Req(n));
    }
  }

  /** In every reachable state the frozen watermarks are the registered commit points published so far. */
  lemma SnapshotDomain(c: Config, s: State)
    requires c.Valid() && Reachable(c, s)
    ensures s.mon.snapshots.Keys == set w | w in c.Milestones() && CommitPoint(c.Total(), w) && w <= s.mon.watermark
  {
    ReachableInv(c, s);
    var frozen := set w | w in c.Milestones() && CommitPoint(c.Total(), w) && w <= s.mon.watermark;
    assert forall w :: w in s.mon.snapshots.Keys <==> w in frozen;
  }

  /** Once the prefill completed, the canonical prefix is the largest registered commit point, or 0. */
  lemma FinalCanonicalPrefix(c: Config, s: State)
    requires c.Valid() && Reachable(c, s) && s.phase.Ended? && s.phase.ok
    ensures IsLatest(c.Total(), c.Milestones(), c.Total(), s.mon.prefixSeqLen)
    ensures c.Total() > 0 ==> (s.mon.prefixSeqLen == c.Total() <==> c.Total() in c.Milestones())
  {
    ReachableInv(c, s);
    EndedAtTotal(c, s);
    if c.Total() > 0 {
      LatestAtTotal(c.Total(), c.Milestones(), s.mon.prefixSeqLen);
    }
  }

  lemma EndedAtTotal(c: Config, s: State)
    requires PrefillInv(c, s) && Published(c.doc, s.mon) && Shape(c, s) && s.phase.Ended? && s.phase.ok
    ensures IsLatest(c.Total(), c.Milestones(), c.Total(), s.mon.prefixSeqLen)
  {
  }

  lemma LatestAtTotal(total: int, milestones: set<int>, len: int)
    requires IsLatest(total, milestones, total, len) && total > 0
    ensures len == total <==> total in milestones
  {
    assert IsGate(total, milestones, total) <==> total in milestones;
  }

  /**
   * A branch that waits for the whole prefill sees the whole document if and only if the
   * document length happens to be some branch's watermark and no export was empty.
   */
  lemma FullPrefillBranchSeesDocument(c: Config, s: State, n: Name)
    requires c.Valid() && Reachable(c, s) && n in c.Branches() && AwaitsPrefill(c, n) && c.Total() > 0
    requires s.phase.Ended? && s.phase.ok && VerdictOf(s, n).Some? && VerdictOf(s, n).value.Succeeded?
    ensures VerdictOf(s, n).value.len == c.Total() <==> c.Total() in c.Milestones()
    ensures VerdictOf(s, n).value.kv == BaselineKv(c.doc, c.Prompt(n)) <==>
      c.Total() in c.Milestones() && FullyExported(s.mon.snapshots, c.Total())
  {
    FinalForkLength(c, s, n);
    ForkEqualsRecompute(c, s, n);
    var Succeeded(len, kv) := VerdictOf(s, n).value;
    assert c.doc[..c.Total()] == c.doc;
    if len < c.Total() {
      assert |kv| < |BaselineKv(c.doc, c.Prompt(n))|;
    }
  }

  lemma FinalForkLength(c: Config, s: State, n: Name)
    requires c.Valid() && Reachable(c, s) && n in c.Branches() && AwaitsPrefill(c, n) && c.Total() > 0
    requires s.phase.Ended? && s.phase.ok && VerdictOf(s, n).Some? && VerdictOf(s, n).value.Succeeded?
    ensures VerdictOf(s, n).value.len == c.Total() <==> c.Total() in c.Milestones()
  {
    FinalCanonicalPrefix(c, s);
    LateForkLength(c, s, n);
  }

  /** A branch that waits for the whole prefill forks at the final canonical length. */
  lemma LateForkLength(c: Config, s: State, n: Name)
    requires c.Valid() && Reachable(c, s) && n in c.Branches() && AwaitsPrefill(c, n)
    requires VerdictOf(s, n).Some? && VerdictOf(s, n).value.Succeeded?
    ensures VerdictOf(s, n).value.len == s.mon.prefixSeqLen
  {
    ReachableInv(c, s);
    assert ForkedAt(s.Pc(n)).Some?;
  }

  /**
   * The canonical triple is consistent in every state outside the export itself, hence in
   * every state in which a branch can read it: the first prefix_kv_serial_bytes bytes are what
   * was frozen at prefix_seq_len, and they encode the document up to there if and only if no
   * gate up to there was exported empty.
   */
  lemma CanonicalCoherence(c: Config, s: State)
    requires c.Valid() && Reachable(c, s) && s.canonical.Some?
    ensures s.guard != Some(c.prefill) ==> !s.phase.Exporting?
    ensures !s.phase.Exporting? ==>
      && Canonical(s.mon, s.canonical.value) && 0 <= s.mon.prefixSeqLen <= c.Total()
      && (s.canonical.value[..s.mon.prefixKvBytes] == Export(DocCells(c.doc, s.mon.prefixSeqLen)) <==>
            s.mon.prefixSeqLen > 0 && FullyExported(s.mon.snapshots, s.mon.prefixSeqLen))
  {
    ReachableInv(c, s);
    var len := s.mon.prefixSeqLen;
    if !s.phase.Exporting? {
      if len in s.mon.snapshots {
        FrozenBytesExactly(c.doc, s.mon, len);
      } else {
        assert |Export(DocCells(c.doc, 0))| == 4;
      }
    }
  }

  /**
   * At every head of the chunk loop, after any number of teardowns, the live context is the
   * document prefix if and only if no gate so far was exported empty; otherwise the silent
   * restore has dropped the document up to the last such gate.
   */
  lemma PrefillContextIsDocument(c: Config, s: State)
    requires c.Valid() && Reachable(c, s) && s.phase.Head?
    ensures s.prefilled <= c.Total() && s.mon.watermark == s.prefilled
    ensures s.ctx == Some(CellsAt(c.doc[..s.prefilled], 0)) <==> FullyExported(s.mon.snapshots, s.prefilled)
    ensures var b := Base(s.mon.snapshots, s.prefilled);
      b <= s.prefilled && s.ctx == Some(CellsAt(c.doc[b..s.prefilled], b))
    ensures var b := Base(s.mon.snapshots, s.prefilled);
      && s.ctx.Some? && |s.ctx.value| == s.prefilled - b
      && forall i :: 0 <= i < |s.ctx.value| ==> s.ctx.value[i] == Cell(c.doc[b + i], b + i)
  {
    hide Published;
    ReachableInv(c, s);
    HeadContext(c, s);
    CellsInOrder(c.doc[Base(s.mon.snapshots, s.prefilled)..s.prefilled], Base(s.mon.snapshots, s.prefilled));
  }

  lemma HeadContext(c: Config, s: State)
    requires PrefillInv(c, s) && Published(c.doc, s.mon) && s.phase.Head?
    ensures s.ctx == Some(CellsAt(c.doc[..s.prefilled], 0)) <==> FullyExported(s.mon.snapshots, s.prefilled)
    ensures var b := Base(s.mon.snapshots, s.prefilled);
      b <= s.prefilled && s.ctx == Some(CellsAt(c.doc[b..s.prefilled], b))
  {
    BaseIsZeroExactly(c.doc, s.mon, s.prefilled);
    hide Published;
    var b := Base(s.mon.snapshots, s.prefilled);
    assert |CellsAt(c.doc[b..s.prefilled], b)| == s.prefilled - b;
    assert c.doc[0..s.prefilled] == c.doc[..s.prefilled];
  }

  lemma PrefillPositions(c: Config, s: State)
    requires PrefillInv(c, s) && s.ctx.Some?
    ensures forall i :: 0 <= i < |s.ctx.value| ==> 0 <= s.ctx.value[i].pos < c.Limit()
  {
  }

  lemma BranchPositions(c: Config, snapshots: map<int, Snapshot>, n: Name, len: int, kv: seq<Cell>)
    requires ForkVerdict(c, snapshots, n, len, kv) && len + |c.Prompt(n)| + 128 <= 0x7fff_ffff
    ensures forall i :: 0 <= i < |kv| ==> 0 <= kv[i].pos < c.Limit() - 128
  {
    BudgetHolds(c, n, len);
    hide WithinBudget, Wrap32;
    ForkIsBaselineExactly(c.doc, Base(snapshots, len), len, c.Prompt(n));
  }

  lemma BudgetHolds(c: Config, n: Name, len: int)
    requires PromptFits(c, n, len) && len + |c.Prompt(n)| + 128 <= 0x7fff_ffff
    ensures 0 <= len && len + |c.Prompt(n)| <= c.Limit() - 128
  {
  }

  /**
   * Positions stay inside the context: below n_ctx for the prefiller, and below n_ctx - 128
   * for a branch whose int32 budget sum does not overflow.
   */
  lemma PositionRange(c: Config, s: State, n: Name)
    requires c.Valid() && Reachable(c, s) && n in c.Branches()
    ensures c.nCtx <= 0x7fff_ffff ==> c.Limit() == c.nCtx
    ensures s.ctx.Some? ==> forall i :: 0 <= i < |s.ctx.value| ==> 0 <= s.ctx.value[i].pos < c.Limit()
    ensures VerdictOf(s, n).Some? && VerdictOf(s, n).value.Succeeded? ==>
      var Succeeded(len, kv) := VerdictOf(s, n).value;
      len + |c.Prompt(n)| + 128 <= 0x7fff_ffff ==>
        forall i :: 0 <= i < |kv| ==> 0 <= kv[i].pos < c.Limit() - 128
  {
    hide Reachable, PrefillInv, Published, Base, Span, ForkKv, WithinBudget;
    LimitIsContext(c);
    hide Wrap32;
    ReachableInv(c, s);
    if s.ctx.Some? {
      PrefillPositions(c, s);
    }
    if VerdictOf(s, n).Some? && VerdictOf(s, n).value.Succeeded? {
      var Succeeded(len, kv) := VerdictOf(s, n).value;
      assert PcInv(c, s.mon.snapshots, n, s.Pc(n));
      if len + |c.Prompt(n)| + 128 <= 0x7fff_ffff {
        BranchPositions(c, s.mon.snapshots, n, len, kv);
      }
    }
  }

  lemma LimitIsContext(c: Config)
    ensures c.nCtx <= 0x7fff_ffff ==> c.Limit() == c.nCtx
  {
  }

  // ------------------------------------------------------------------
  // Runs
  // ------------------------------------------------------------------

  /** Over any stretch of a run the watermark never falls and what was frozen stays bit for bit. */
  lemma {:induction false} SnapshotsAreImmutable(c: Config, s: State, run: seq<Action>)
    requires Inv(c, s) && IsRun(c, s, run)
    ensures s.mon.watermark <= After(c, s, run).mon.watermark
    ensures forall w :: w in s.mon.snapshots ==>
      w in After(c, s, run).mon.snapshots && After(c, s, run).mon.snapshots[w] == s.mon.snapshots[w]
    decreases |run|
  {
    if run != [] {
      StepInv(c, s, run[0]);
      StepKeepsSnapshots(c, s, run[0]);
      SnapshotsAreImmutable(c, Apply(c, s, run[0]), run[1..]);
    }
  }

  lemma StepKeepsSnapshots(c: Config, s: State, a: Action)
    requires PrefillInv(c, s) && Published(c.doc, s.mon) && Enabled(c, s, a)
    ensures s.mon.watermark <= Apply(c, s, a).mon.watermark
    ensures forall w :: w in s.mon.snapshots ==>
      w in Apply(c, s, a).mon.snapshots && Apply(c, s, a).mon.snapshots[w] == s.mon.snapshots[w]
  {
    if ByPrefill(a) {
      WatermarkRises(c, s, a);
    } else {
      BranchFrame(c, s, a);
    }
  }

  function CountSignals(run: seq<Action>, n: Name): nat {
    if run == [] then 0 else (if Signals(run[0]) && run[0].n == n then 1 else 0) + CountSignals(run[1..], n)
  }

  function CountFulfils(run: seq<Action>, n: Name): nat {
    if run == [] then 0 else (if run[0].Fulfil? && run[0].n == n then 1 else 0) + CountFulfils(run[1..], n)
  }

  /** Every branch signals its milestone and fulfils its promise at most once, on success and failure paths alike. */
  lemma {:induction false} SignalsAndFulfilsOnce(c: Config, s: State, run: seq<Action>, n: Name)
    requires Inv(c, s) && IsRun(c, s, run) && n in c.Branches()
    ensures CountSignals(run, n) == Bit(Signalled(After(c, s, run).Pc(n))) - Bit(Signalled(s.Pc(n)))
    ensures CountFulfils(run, n) == Bit(After(c, s, run).Pc(n).Ended?) - Bit(s.Pc(n).Ended?)
    decreases |run|
  {
    if run != [] {
      StepInv(c, s, run[0]);
      SignalStep(c, s, run[0], n);
      FulfilStep(c, s, run[0], n);
      SignalsAndFulfilsOnce(c, Apply(c, s, run[0]), run[1..], n);
    }
  }

  lemma FulfilStep(c: Config, s: State, a: Action, n: Name)
    requires Enabled(c, s, a)
    ensures Bit(Apply(c, s, a).Pc(n).Ended?) == Bit(s.Pc(n).Ended?) + Bit(a.Fulfil? && a.n == n)
  {
    if ByPrefill(a) {
      PrefillFrame(c, s, a);
    }
  }

  /** The gates whose export the engine left empty during a run. */
  function EmptyExports(c: Config, s: State, run: seq<Action>): set<int>
    requires IsRun(c, s, run)
    decreases |run|
  {
    if run == [] then {} else
      (if run[0].ExportNothing? then {s.prefilled} else {}) + EmptyExports(c, Apply(c, s, run[0]), run[1..])
  }

  /** The gates that hold no bytes, including one about to be published. */
  function Empties(s: State): set<int> {
    EmptyGates(s.mon.snapshots) + (if s.phase == Exporting([]) then {s.prefilled} else {})
  }

  function EmptyGates(snapshots: map<int, Snapshot>): set<int> {
    set w | w in snapshots && snapshots[w].data == []
  }

  lemma EmptyGatesGrow(snapshots: map<int, Snapshot>, n: int, snapshot: Snapshot)
    requires n !in snapshots
    ensures EmptyGates(snapshots[n := snapshot]) == EmptyGates(snapshots) + (if snapshot.data == [] then {n} else {})
  {
  }

  /** A gate holds no bytes if and only if the engine reported none when it was exported. */
  lemma {:induction false} EmptiesAreEmptyExports(c: Config, s: State, run: seq<Action>)
    requires Inv(c, s) && IsRun(c, s, run)
    ensures forall w :: w in Empties(After(c, s, run)) <==> w in Empties(s) || w in EmptyExports(c, s, run)
    decreases |run|
  {
    if run != [] {
      StepInv(c, s, run[0]);
      EmptiesStep(c, s, run[0]);
      EmptiesAreEmptyExports(c, Apply(c, s, run[0]), run[1..]);
    }
  }

  lemma EmptiesStep(c: Config, s: State, a: Action)
    requires PrefillInv(c, s) && Published(c.doc, s.mon) && Enabled(c, s, a)
    ensures Empties(Apply(c, s, a)) == Empties(s) + (if a.ExportNothing? then {s.prefilled} else {})
  {
    if a.PublishKv? {
      PublishEmpties(c, s);
    } else if ByPrefill(a) {
      OnlyPublishFreezes(c, s, a);
      ExportingStep(c, s, a);
    } else {
      BranchFrame(c, s, a);
    }
  }

  lemma PublishEmpties(c: Config, s: State)
    requires PrefillInv(c, s) && Published(c.doc, s.mon) && Enabled(c, s, PublishKv)
    ensures Empties(Apply(c, s, PublishKv)) == Empties(s)
  {
    assert s.prefilled !in s.mon.snapshots;
    EmptyGatesGrow(s.mon.snapshots, s.prefilled, Snapshot(s.phase.data, s.prefilled));
  }

  /** An empty export is pending exactly after the engine reported no bytes. */
  lemma ExportingStep(c: Config, s: State, a: Action)
    requires Enabled(c, s, a) && ByPrefill(a) && !a.PublishKv?
    ensures !s.phase.Exporting? && (Apply(c, s, a).phase == Exporting([]) <==> a.ExportNothing?)
    ensures a.ExportNothing? ==> Apply(c, s, a).prefilled == s.prefilled
  {
  }

  /**
   * Fork equals recompute, over runs: a branch that succeeded holds the unshared agent's KV if
   * and only if the run has no empty export at or before its fork length. Without any, it
   * always does, whatever else failed and however the workers interleaved.
   */
  lemma ForkEqualsRecomputeOverRuns(c: Config, buffer: Option<seq<byte>>, run: seq<Action>, n: Name)
    requires c.Valid() && BufferMatches(c, buffer) && IsRun(c, Initial(c, buffer), run) && n in c.Branches()
    requires var v := VerdictOf(After(c, Initial(c, buffer), run), n); v.Some? && v.value.Succeeded?
    ensures var Succeeded(len, kv) := VerdictOf(After(c, Initial(c, buffer), run), n).value;
      && 0 <= len <= c.Total()
      && (kv == BaselineKv(c.doc[..len], c.Prompt(n)) <==>
            forall w :: w in EmptyExports(c, Initial(c, buffer), run) ==> w > len)
  {
    var s := After(c, Initial(c, buffer), run);
    EmptiesFromStart(c, buffer, run);
    assert Reachable(c, s);
    ReachableInv(c, s);
    EmptiesBelow(c, s, n);
    ForkEqualsRecompute(c, s, n);
  }

  lemma EmptiesFromStart(c: Config, buffer: Option<seq<byte>>, run: seq<Action>)
    requires c.Valid() && BufferMatches(c, buffer) && IsRun(c, Initial(c, buffer), run)
    ensures Empties(After(c, Initial(c, buffer), run)) == EmptyExports(c, Initial(c, buffer), run)
  {
    var s0 := Initial(c, buffer);
    InitialInv(c, buffer);
    EmptiesAreEmptyExports(c, s0, run);
    var before, after, exported := Empties(s0), Empties(After(c, s0, run)), EmptyExports(c, s0, run);
    assert before == {};
    assert forall w :: w in after <==> w in exported;
  }

  /** Up to a fork length, the empty gates are frozen ones. */
  lemma EmptiesBelow(c: Config, s: State, n: Name)
    requires PrefillInv(c, s) && Published(c.doc, s.mon) && BranchInv(c, s) && n in c.Branches()
    requires VerdictOf(s, n).Some? && VerdictOf(s, n).value.Succeeded?
    ensures var len := VerdictOf(s, n).value.len;
      FullyExported(s.mon.snapshots, len) <==> forall w :: w in Empties(s) ==> w > len
  {
    assert PcInv(c, s.mon.snapshots, n, s.Pc(n));
    var len := VerdictOf(s, n).value.len;
    assert s.phase.Exporting? ==> s.prefilled > len;
    assert forall w :: w in s.mon.snapshots && s.mon.snapshots[w].data == [] ==> w in Empties(s);
  }

  // ------------------------------------------------------------------
  // Gates and contexts
  // ------------------------------------------------------------------

  /** Behind a passed gate every consumer has signalled. */
  lemma BehindGate(c: Config, s: State, m: int)
    requires GateInv(c, s) && Shape(c, s) && GatePassed(c, s, m)
    ensures Unsignalled(c, s.pcs, m) == {} && forall v :: v in c.Consumers(m) ==> Signalled(s.Pc(v))
  {
    forall v | v in c.Consumers(m)
      ensures Signalled(s.Pc(v))
    {
      assert v !in Unsignalled(c, s.pcs, m);
    }
  }

  /** Decoding beyond a gate means that it was passed. */
  lemma DecodedBeyondGate(c: Config, s: State, m: int)
    requires PrefillInv(c, s) && Published(c.doc, s.mon) && c.Gate(m) && m < s.prefilled && !PrefillFailed(s)
    ensures GatePassed(c, s, m)
  {
    if s.phase.Decoded? || s.phase.Exporting? {
      NextCommitPoint(c.Total(), s.mon.watermark, m);
    }
  }

  /**
   * The prefiller decodes and publishes beyond a milestone only after every consumer of that
   * milestone has signalled, and the counter it waits on always equals the number of
   * consumers that have not.
   */
  lemma MilestoneGate(c: Config, s: State, m: int)
    requires c.Valid() && Reachable(c, s) && m in c.Milestones()
    ensures m in s.mon.remaining && s.mon.remaining[m] == |Unsignalled(c, s.pcs, m)|
    ensures CommitPoint(c.Total(), m) && (m < s.mon.watermark || (m < s.prefilled && !PrefillFailed(s))) ==>
      s.mon.remaining[m] == 0 && forall v :: v in c.Consumers(m) ==> Signalled(s.Pc(v))
  {
    ReachableInv(c, s);
    if CommitPoint(c.Total(), m) && (m < s.mon.watermark || (m < s.prefilled && !PrefillFailed(s))) {
      if m < s.prefilled && !PrefillFailed(s) {
        DecodedBeyondGate(c, s, m);
      }
      BehindGate(c, s, m);
    }
  }

  predicate InsideContext(pc: Pc) { pc.Sizing? || pc.Live? }

  /** Branches that have a context of their own, or the pool's disposable one, at this moment. */
  function InContext(c: Config, s: State): set<Name> {
    set n | n in c.Branches() && InsideContext(s.Pc(n))
  }

  /** The contexts that some worker is still going to free. */
  function Owned(c: Config, s: State): nat {
    Bit(s.ctx.Some?) + |InContext(c, s)|
  }

  /** The throw leaves its context behind. */
  predicate Leaks(a: Action) {
    (a.PrefillThrows? && PrefillLeaks(a.prefillSite)) || (a.BranchThrows? && BranchLeaks(a.site))
  }

  function CountLeaks(run: seq<Action>): nat {
    if run == [] then 0 else Bit(Leaks(run[0])) + CountLeaks(run[1..])
  }

  predicate HasThrown(pc: Pc) {
    pc.Throwing? || pc == Pc.Leaving(Threw) || pc == Pc.Ended(Threw)
  }

  function Throwers(c: Config, s: State): set<Name> {
    set n | n in c.Branches() && HasThrown(s.Pc(n))
  }

  /** The workers that have thrown, the prefiller among them. */
  function Failures(c: Config, s: State): nat {
    Bit(PrefillFailed(s)) + |Throwers(c, s)|
  }

  lemma PrefillOpenStep(c: Config, s: State, a: Action)
    requires PrefillInv(c, s) && Enabled(c, s, a) && ByPrefill(a)
    ensures var s' := Apply(c, s, a);
      && s'.open - Bit(s'.ctx.Some?) == s.open - Bit(s.ctx.Some?) + Bit(Leaks(a))
      && Bit(Leaks(a)) + Bit(PrefillFailed(s)) <= Bit(PrefillFailed(s'))
  {
  }

  lemma BranchOpenStep(c: Config, s: State, a: Action)
    requires Enabled(c, s, a) && ByBranch(a)
    ensures var before, after := s.Pc(Actor(a)), Apply(c, s, a).Pc(Actor(a));
      && Apply(c, s, a).open - Bit(InsideContext(after)) == s.open - Bit(InsideContext(before)) + Bit(Leaks(a))
      && Bit(Leaks(a)) + Bit(HasThrown(before)) <= Bit(HasThrown(after))
  {
  }

  lemma OpenStep(c: Config, s: State, a: Action)
    requires PrefillInv(c, s) && Enabled(c, s, a)
    ensures var s' := Apply(c, s, a);
      && s'.open - Owned(c, s') == s.open - Owned(c, s) + Bit(Leaks(a))
      && Bit(Leaks(a)) + Failures(c, s) <= Failures(c, s')
  {
    hide Enabled, Apply, PrefillInv;
    var s' := Apply(c, s, a);
    if ByPrefill(a) {
      PrefillFrame(c, s, a);
      PrefillOpenStep(c, s, a);
      assert InContext(c, s') == InContext(c, s) && Throwers(c, s') == Throwers(c, s);
    } else if ByBranch(a) {
      BranchOpens(c, s, a);
    } else {
      FreeOpenStep(c, s, a);
    }
  }

  lemma FreeOpenStep(c: Config, s: State, a: Action)
    requires Enabled(c, s, a) && a.FreeAll?
    ensures var s' := Apply(c, s, a);
      && s'.open - Owned(c, s') == s.open - Owned(c, s) && !Leaks(a) && Failures(c, s) == Failures(c, s')
  {
    assert InContext(c, Apply(c, s, a)) == InContext(c, s) && Throwers(c, Apply(c, s, a)) == Throwers(c, s);
  }

  lemma BranchOpens(c: Config, s: State, a: Action)
    requires Enabled(c, s, a) && ByBranch(a)
    ensures var s' := Apply(c, s, a);
      && s'.open - Owned(c, s') == s.open - Owned(c, s) + Bit(Leaks(a))
      && Bit(Leaks(a)) + Failures(c, s) <= Failures(c, s')
  {
    hide Enabled, Apply;
    var s' := Apply(c, s, a);
    BranchFrame(c, s, a);
    BranchOpenStep(c, s, a);
    OneChanges(InContext(c, s), InContext(c, s'), Actor(a));
    OneChanges(Throwers(c, s), Throwers(c, s'), Actor(a));
  }

  /**
   * Conservation of contexts: over any stretch of a run the contexts open beyond those that a
   * worker still owns grow by one for every throw at a site that does not free, and every
   * worker throws there at most once.
   */
  lemma {:induction false} OpenContexts(c: Config, s: State, run: seq<Action>)
    requires Inv(c, s) && IsRun(c, s, run)
    ensures var s' := After(c, s, run);
      && s'.open - Owned(c, s') == s.open - Owned(c, s) + CountLeaks(run)
      && CountLeaks(run) + Failures(c, s) <= Failures(c, s')
    decreases |run|
  {
    if run != [] {
      StepInv(c, s, run[0]);
      OpenStep(c, s, run[0]);
      OpenContexts(c, Apply(c, s, run[0]), run[1..]);
    }
  }

  lemma AtMostOneBranchContext(c: Config, s: State)
    requires LockInv(c, s)
    ensures |InContext(c, s)| <= 1
    ensures s.guard.None? ==> InContext(c, s) == {}
  {
    if n :| n in InContext(c, s) {
      assert InContext(c, s) == {n};
    }
  }

  lemma OwnedBound(c: Config, s: State)
    requires LockInv(c, s) && PrefillInv(c, s)
    ensures Owned(c, s) <= 2
    ensures s.phase.Parked? ==> Owned(c, s) <= 1
    ensures AllTerminated(c, s) ==> Owned(c, s) == 0
  {
    AtMostOneBranchContext(c, s);
    if AllTerminated(c, s) {
      assert InContext(c, s) == {};
    }
  }

  /**
   * Apart from the contexts that throws left behind, one at most for each worker that threw,
   * at most two are ever open, at most one while the prefiller waits at a gate, and none once
   * every worker has terminated.
   */
  lemma ContextBound(c: Config, buffer: Option<seq<byte>>, run: seq<Action>)
    requires c.Valid() && BufferMatches(c, buffer) && IsRun(c, Initial(c, buffer), run)
    ensures var s := After(c, Initial(c, buffer), run);
      && CountLeaks(run) <= s.open <= 2 + CountLeaks(run)
      && (s.phase.Parked? ==> s.open <= 1 + CountLeaks(run))
      && (AllTerminated(c, s) ==> s.open == CountLeaks(run))
      && CountLeaks(run) <= Failures(c, s)
  {
    var s0 := Initial(c, buffer);
    InitialInv(c, buffer);
    RunInv(c, s0, run);
    assert Throwers(c, s0) == {} && InContext(c, s0) == {};
    OpenContexts(c, s0, run);
    OwnedBound(c, After(c, s0, run));
  }

  /**
   * The plain bounds: in a run without a throw at a site that does not free, such as any in
   * which the prefiller does not fail and no branch fails to bind or tokenize, at most two
   * contexts are ever open, at most one at a gate, and none after the join.
   */
  lemma PlainContextBound(c: Config, buffer: Option<seq<byte>>, run: seq<Action>)
    requires c.Valid() && BufferMatches(c, buffer) && IsRun(c, Initial(c, buffer), run)
    requires forall a :: a in run && a.PrefillThrows? ==>
      a.prefillSite in {CreateContext, DocumentSize, RecreateContext}
    requires forall a :: a in run && a.BranchThrows? ==> !a.site.BindBranch? && !a.site.TokenizePrompt?
    ensures var s := After(c, Initial(c, buffer), run);
      0 <= s.open <= 2 && (s.phase.Parked? ==> s.open <= 1) && (AllTerminated(c, s) ==> s.open == 0)
  {
    ContextBound(c, buffer, run);
    NoLeaks(run);
  }

  /** A context with a restored prefix, or what became of it. */
  predicate HasForked(pc: Pc) {
    || pc.Live? || pc.Forked?
    || ((pc.Leaving? || pc.Ended?) && pc.verdict.Succeeded?)
  }

  /** Without a staging buffer there is nothing to restore and nothing to bind to. */
  lemma NullBufferStep(c: Config, s: State, a: Action, n: Name)
    requires PcInv(c, s.mon.snapshots, n, s.Pc(n)) && MonitorInv(c, s) && Enabled(c, s, a)
    requires s.canonical.None? && !HasForked(s.Pc(n))
    ensures Apply(c, s, a).canonical.None? && !HasForked(Apply(c, s, a).Pc(n))
  {
    assert forall w :: w !in s.mon.snapshots;
    if ByPrefill(a) {
      PrefillFrame(c, s, a);
    }
  }

  lemma {:induction false} NullBufferRun(c: Config, s: State, run: seq<Action>, n: Name)
    requires Inv(c, s) && IsRun(c, s, run) && n in c.Branches() && s.canonical.None? && !HasForked(s.Pc(n))
    ensures !HasForked(After(c, s, run).Pc(n))
    decreases |run|
  {
    if run != [] {
      StepInv(c, s, run[0]);
      NullBufferStep(c, s, run[0], n);
      NullBufferRun(c, Apply(c, s, run[0]), run[1..], n);
    }
  }

  /** A pipeline without a staging buffer: no branch ever succeeds. */
  lemma NullBufferNeverForks(c: Config, run: seq<Action>, n: Name)
    requires c.Valid() && c.canonicalCap.None? && IsRun(c, Initial(c, None), run) && n in c.Branches()
    ensures var v := VerdictOf(After(c, Initial(c, None), run), n); v.Some? ==> v.value == Threw
  {
    InitialInv(c, None);
    NullBufferRun(c, Initial(c, None), run, n);
  }

  /** The seven sites, by name: exactly there a throw leaves one context more open than its worker still owns. */
  lemma LeakingSites(c: Config, s: State, a: Action)
    requires PrefillInv(c, s) && Enabled(c, s, a)
    ensures var s' := Apply(c, s, a);
      var leaks :=
        || (a.PrefillThrows?
            && a.prefillSite in {BindContext, TokenizeDocument, DecodeDocument, CommitExport, RestoreContext})
        || (a.BranchThrows? && a.site in {BindBranch, TokenizePrompt});
      s'.open - Owned(c, s') == s.open - Owned(c, s) + if leaks then 1 else 0
  {
    hide Enabled, Apply, PrefillInv, Owned;
    OpenStep(c, s, a);
  }

  lemma {:induction false} NoLeaks(run: seq<Action>)
    requires forall a :: a in run ==> !Leaks(a)
    ensures CountLeaks(run) == 0
  {
    if run != [] {
      NoLeaks(run[1..]);
    }
  }

  /** The prefiller's steps that call the engine, or commit, inside a locked section. */
  predicate PrefillUsesEngine(a: Action) {
    a.DecodeChunk? || a.CommitPlain? || a.ExportKv? || a.ExportNothing? || a.PublishKv? || a.FreeContext? || a.Resume?
    || (a.PrefillThrows?
        && (a.prefillSite.DecodeDocument? || a.prefillSite.CommitExport? || a.prefillSite.RecreateContext?
            || a.prefillSite.RestoreContext?))
  }

  /** A branch's steps inside execute. */
  predicate BranchUsesEngine(a: Action) {
    a.Enter? || a.Allocate? || a.Restore? || a.DecodePrompt? || a.SignalDone? || a.BranchThrows?
  }

  /** A branch has read its fork source and not yet left execute. */
  predicate InsideExecute(pc: Pc) {
    pc.Sizing? || pc.Copied? || pc.Live? || pc.Forked?
  }

  /**
   * Mutual exclusion: while a branch is inside execute, the prefiller can take no step that
   * calls the engine in its chunk loop, and no other branch can take one of its own; while the
   * prefiller is between decoding and publishing, no branch can.
   */
  lemma EngineExclusion(c: Config, s: State, a: Action)
    requires c.Valid() && Reachable(c, s) && Enabled(c, s, a)
    ensures PrefillUsesEngine(a) ==> forall m :: m in c.Branches() ==> !InsideExecute(s.Pc(m))
    ensures BranchUsesEngine(a) ==>
      && !s.phase.Decoded? && !s.phase.Exporting?
      && forall m :: m in c.Branches() && m != a.n ==> !InsideExecute(s.Pc(m))
  {
    hide Enabled, InsideExecute, LockInv, Reachable;
    ReachableInv(c, s);
    if PrefillUsesEngine(a) {
      PrefillExclusion(c, s, a);
    } else if BranchUsesEngine(a) {
      BranchExclusion(c, s, a);
    }
  }

  lemma PrefillExclusion(c: Config, s: State, a: Action)
    requires LockInv(c, s) && c.Valid() && Enabled(c, s, a) && PrefillUsesEngine(a)
    ensures forall m :: m in c.Branches() ==> !InsideExecute(s.Pc(m))
  {
    assert s.guard in {None, Some(c.prefill)};
    forall m | m in c.Branches()
      ensures !InsideExecute(s.Pc(m))
    {
      assert !HoldsLock(s.Pc(m));
    }
  }

  lemma BranchExclusion(c: Config, s: State, a: Action)
    requires LockInv(c, s) && c.Valid() && Enabled(c, s, a) && BranchUsesEngine(a)
    ensures !s.phase.Decoded? && !s.phase.Exporting?
    ensures forall m :: m in c.Branches() && m != a.n ==> !InsideExecute(s.Pc(m))
  {
    assert a.n in c.Branches() && s.guard in {None, Some(a.n)};
    forall m | m in c.Branches() && m != a.n
      ensures !InsideExecute(s.Pc(m))
    {
      assert !HoldsLock(s.Pc(m));
    }
  }

  /** The pool is freed only after every worker has terminated. */
  lemma FreedAfterJoin(c: Config, s: State)
    requires c.Valid() && Reachable(c, s) && s.freed
    ensures AllTerminated(c, s) && s.guard.None?
  {
    ReachableInv(c, s);
  }

  // ------------------------------------------------------------------
  // Order, completion and failure
  // ------------------------------------------------------------------

  /**
   * When a branch has begun to execute, every branch it transitively waits for has ended, and
   * every wait on the prefiller along the way is satisfied.
   */
  lemma ExecutionOrder(c: Config, s: State, v: Name, u: Name)
    requires c.Valid() && Reachable(c, s) && Started(s.Pc(v)) && v in c.Branches() && Upstream(c, v, u)
    ensures u != v ==> s.Pc(u).Ended?
    ensures c.prefill in c.Deps(u) ==>
      if c.nodes[u].req >= 0 then s.mon.watermark >= c.nodes[u].req else s.phase.Ended?
  {
    ReachableInv(c, s);
    StartedUpstream(c, s, v, u);
    EndedNeedsMet(c, s, v);
    assert DirectMet(c, s, u);
    if c.prefill in c.Deps(u) {
      var j :| 0 <= j < |c.Deps(u)| && c.Deps(u)[j] == c.prefill;
      assert c.Deps(u)[j] == c.prefill;
    }
  }

  lemma DoneCanBeFreed(c: Config, s: State)
    requires AllDone(c, s)
    ensures s.freed || Enabled(c, s, FreeAll)
  {
  }

  /** Where everybody is done, every branch signalled and fulfilled exactly once on the way. */
  lemma DoneCounts(c: Config, s0: State, run: seq<Action>, n: Name)
    requires Inv(c, s0) && IsRun(c, s0, run) && n in c.Branches() && s0.Pc(n).Waiting? && After(c, s0, run).Pc(n).Ended?
    ensures CountFulfils(run, n) == 1 && CountSignals(run, n) == 1
  {
    SignalsAndFulfilsOnce(c, s0, run, n);
  }

  /**
   * A well-gated pipeline terminates: every run is bounded, and one in which the prefill does
   * not fail ends, whichever branches fail, with every promise fulfilled exactly once, so that
   * the join returns and the pool is freed.
   */
  lemma EveryMaximalRunCompletes(c: Config, buffer: Option<seq<byte>>, run: seq<Action>)
    requires c.Valid() && PrefillSafe(c) && WellGated(c) && BufferMatches(c, buffer)
    requires IsRun(c, Initial(c, buffer), run) && Healthy(run)
    ensures |run| <= Work(c, Initial(c, buffer))
    ensures Stuck(c, After(c, Initial(c, buffer), run)) ==>
      && AllDone(c, After(c, Initial(c, buffer), run))
      && (After(c, Initial(c, buffer), run).freed || Enabled(c, After(c, Initial(c, buffer), run), FreeAll))
      && forall n :: n in c.Branches() ==> CountFulfils(run, n) == 1 && CountSignals(run, n) == 1
  {
    var s0 := Initial(c, buffer);
    var s := After(c, s0, run);
    InitialInv(c, buffer);
    RunsAreBounded(c, s0, run);
    DeadlockFreeExactly(c, buffer);
    if Stuck(c, s) {
      assert AllDone(c, s);
      DoneCanBeFreed(c, s);
      forall n | n in c.Branches()
        ensures CountFulfils(run, n) == 1 && CountSignals(run, n) == 1
      {
        DoneCounts(c, s0, run, n);
      }
    }
  }

  /** v needs nothing from the prefiller beyond `level` tokens; waiting for its completion is no obstacle. */
  ghost predicate ServedBy(c: Config, v: Name, level: int) {
    forall u :: Upstream(c, v, u) ==>
      forall j :: 0 <= j < |c.Deps(u)| ==> c.Deps(u)[j] in c.nodes && (c.Deps(u)[j] == c.prefill ==> c.Req(u) <= level)
  }

  /**
   * If the prefiller fails with watermark w, then where the run ends exactly those branches
   * have finished that transitively wait for no watermark above w, no unregistered node and no
   * cycle.
   */
  lemma PrefillFailureExactly(c: Config, s: State, v: Name)
    requires c.Valid() && Reachable(c, s) && Quiescent(c, s) && v in c.Branches()
    requires PrefillFailed(s)
    ensures s.phase == Phase.Ended(false)
    ensures s.Pc(v).Ended? <==> ServedBy(c, v, s.mon.watermark) && NoCycleFrom(c, v)
  {
    ReachableInv(c, s);
    assert s.phase.Leaving? ==> Enabled(c, s, FulfilPrefill);
    FinishedExactly(c, s, v);
    ServedIsMet(c, s, v);
  }

  lemma ServedIsMet(c: Config, s: State, v: Name)
    requires s.phase.Ended? && 0 <= s.mon.watermark
    ensures NeedsMet(c, s, v) <==> ServedBy(c, v, s.mon.watermark)
  {
    if NeedsMet(c, s, v) {
      forall u | Upstream(c, v, u)
        ensures forall j :: 0 <= j < |c.Deps(u)| ==>
          c.Deps(u)[j] in c.nodes && (c.Deps(u)[j] == c.prefill ==> c.Req(u) <= s.mon.watermark)
      {
        assert DirectMet(c, s, u);
      }
    }
    if ServedBy(c, v, s.mon.watermark) {
      forall u | Upstream(c, v, u)
        ensures DirectMet(c, s, u)
      {
      }
    }
  }
}
