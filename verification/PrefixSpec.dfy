/**
 * What the shared monitor promises about the document: which milestones are frozen, and
 * what the canonical buffer holds. The prefiller's methods and the whole-pipeline
 * transition system are both measured against these predicates.
 */
module PrefixSpec {
  import opened Common
  import opened KvCache

  const PREFILL_CHUNK := 128

  datatype Snapshot = Snapshot(data: seq<byte>, seqLen: int)

  /** The fields of PipelineState that its mutex protects, with its critical sections as functions. */
  datatype Monitor = Monitor(
    watermark: int,
    prefixSeqLen: int,
    prefixKvBytes: nat,
    complete: bool,
    milestones: set<int>,
    snapshots: map<int, Snapshot>,
    remaining: map<int, int>)
  {
    function RegisterMilestone(w: int): Monitor {
      this.(milestones := milestones + {w})
    }

    function RegisterConsumer(w: int): Monitor {
      if w <= 0 then this
      else this.(remaining := remaining[w := (if w in remaining then remaining[w] else 0) + 1])
    }

    /** The commit of a watermark that no branch registered. */
    function PublishPlain(n: int): Monitor {
      this.(watermark := n)
    }

    /** The second critical section of a milestone commit; `data` is empty if the engine exported nothing. */
    function PublishExport(n: int, data: seq<byte>): Monitor {
      this.(watermark := n, prefixSeqLen := n, prefixKvBytes := |data|, snapshots := snapshots[n := Snapshot(data, n)])
    }

    function Signal(w: int): Monitor {
      if w <= 0 || w !in remaining then this else this.(remaining := remaining[w := remaining[w] - 1])
    }

    function MarkComplete(): Monitor {
      this.(complete := true)
    }

    predicate ConsumersDone(w: int) {
      w <= 0 || w !in remaining || remaining[w] <= 0
    }
  }

  const FRESH := Monitor(0, 0, 0, false, {}, map[], map[])

  /** The watermarks that the chunked loop commits for a document of `total` tokens. */
  predicate CommitPoint(total: int, w: int) {
    0 < w <= total && (w % PREFILL_CHUNK == 0 || w == total)
  }

  /** A milestone at which the prefiller really stops and exports. */
  predicate IsGate(total: int, milestones: set<int>, w: int) {
    w in milestones && CommitPoint(total, w)
  }

  /** The document's own KV from token b up to token n, at its own positions. */
  function Span(doc: seq<Token>, b: int, n: int): seq<Cell>
    requires 0 <= b <= n <= |doc|
  {
    CellsAt(doc[b..n], b)
  }

  lemma SpanIs(doc: seq<Token>, b: nat, n: nat)
    requires b <= n <= |doc|
    ensures Span(doc, b, n) == CellsAt(doc[b..n], b) && |Span(doc, b, n)| == n - b
    ensures forall i :: 0 <= i < n - b ==> Span(doc, b, n)[i] == Cell(doc[b + i], b + i)
    ensures b == n ==> Span(doc, b, n) == []
  {
  }

  /** The document's own KV after n tokens. */
  function DocCells(doc: seq<Token>, n: int): seq<Cell>
    requires 0 <= n <= |doc|
  {
    Span(doc, 0, n)
  }

  /**
   * The last gate up to w whose export reported no bytes, or 0: a context that is restored
   * from there starts empty.
   */
  function Base(snapshots: map<int, Snapshot>, w: int): (g: nat)
    ensures g <= Max(w, 0)
    ensures g > 0 ==> g in snapshots && snapshots[g].data == []
    ensures forall v :: g < v <= w && v in snapshots ==> snapshots[v].data != []
  {
    if w <= 0 then 0 else if w in snapshots && snapshots[w].data == [] then w else Base(snapshots, w - 1)
  }

  /** Nothing between a and b was exported empty, so both have the same base. */
  lemma {:induction false} BaseSkips(snapshots: map<int, Snapshot>, a: int, b: int)
    requires a <= b && forall v :: a < v <= b && v in snapshots ==> snapshots[v].data != []
    ensures Base(snapshots, b) == Base(snapshots, a)
    decreases b - a
  {
    if a < b {
      BaseSkips(snapshots, a, b - 1);
    }
  }

  /** What is frozen later does not change the base of an earlier watermark. */
  lemma {:induction false} BaseIsStable(snapshots: map<int, Snapshot>, n: int, snapshot: Snapshot, w: int)
    requires w < n
    ensures Base(snapshots[n := snapshot], w) == Base(snapshots, w)
    decreases w
  {
    if w > 0 {
      BaseIsStable(snapshots, n, snapshot, w - 1);
    }
  }

  /** `len` is the largest frozen milestone up to `bound`, or 0 when there is none. */
  predicate IsLatest(total: int, milestones: set<int>, bound: int, len: int) {
    && (len == 0 || (IsGate(total, milestones, len) && len <= bound))
    && (forall w :: IsGate(total, milestones, w) && w <= bound ==> w <= len)
  }

  /** The bytes frozen at a watermark; none at 0. */
  function BytesAt(snapshots: map<int, Snapshot>, w: int): seq<byte> {
    if w in snapshots then snapshots[w].data else []
  }

  /** A frozen blob is either empty or the export of the document since the last empty one. */
  ghost predicate FrozenAt(doc: seq<Token>, snapshots: map<int, Snapshot>, w: int)
    requires w in snapshots
  {
    && 0 <= w <= |doc| && snapshots[w].seqLen == w
    && (snapshots[w].data == [] || snapshots[w].data == Export(Span(doc, Base(snapshots, w), w)))
  }

  /** The snapshot map holds exactly the registered commit points reached so far, each with its own export. */
  ghost predicate Frozen(doc: seq<Token>, m: Monitor) {
    && (forall w :: w in m.snapshots <==> IsGate(|doc|, m.milestones, w) && w <= m.watermark)
    && (forall w :: w in m.snapshots ==> FrozenAt(doc, m.snapshots, w))
  }

  /** The triple (canonical buffer, prefix_seq_len, prefix_kv_serial_bytes) agrees with the last frozen milestone. */
  ghost predicate Canonical(m: Monitor, buffer: seq<byte>) {
    && (m.prefixSeqLen == 0 || m.prefixSeqLen in m.snapshots)
    && m.prefixKvBytes <= |buffer|
    && buffer[..m.prefixKvBytes] == BytesAt(m.snapshots, m.prefixSeqLen)
  }

  /** Everything the monitor promises while the watermark is `m.watermark`. */
  ghost predicate Published(doc: seq<Token>, m: Monitor) {
    && 0 <= m.watermark <= |doc|
    && (m.watermark == 0 || CommitPoint(|doc|, m.watermark))
    && Frozen(doc, m)
    && IsLatest(|doc|, m.milestones, m.watermark, m.prefixSeqLen)
  }

  /** Before the end of the document the watermark is a whole number of chunks. */
  lemma ChunkBoundary(doc: seq<Token>, m: Monitor)
    requires Published(doc, m) && m.watermark < |doc|
    ensures 0 <= m.watermark && m.watermark % PREFILL_CHUNK == 0
  {
  }

  /** The consumer counters are no part of what is promised about the document. */
  lemma CountersAreApart(doc: seq<Token>, m: Monitor, m': Monitor)
    requires Published(doc, m) && m'.(remaining := m.remaining) == m
    ensures Published(doc, m')
  {
  }

  /** Nobody is still to signal at any gate up to `bound`. */
  ghost predicate Served(doc: seq<Token>, m: Monitor, bound: int) {
    forall w :: IsGate(|doc|, m.milestones, w) && w <= bound ==> m.ConsumersDone(w)
  }

  /** Serving the next commit point, if it is a gate, serves everything up to it. */
  lemma ServedUpToNext(doc: seq<Token>, m: Monitor, m': Monitor, from: int)
    requires Served(doc, m, from) && 0 <= from < |doc| && from % PREFILL_CHUNK == 0
    requires m'.milestones == m.milestones && forall w :: m.ConsumersDone(w) ==> m'.ConsumersDone(w)
    requires var next := Min(from + PREFILL_CHUNK, |doc|); next in m.milestones ==> m'.ConsumersDone(next)
    ensures Served(doc, m', Min(from + PREFILL_CHUNK, |doc|))
  {
    forall w | IsGate(|doc|, m'.milestones, w) && w <= Min(from + PREFILL_CHUNK, |doc|)
      ensures m'.ConsumersDone(w)
    {
      NextCommitPoint(|doc|, from, w);
      assert w <= from ==> m.ConsumersDone(w);
    }
  }

  /** One chunk past a non-final commit point is the next commit point, with none in between. */
  lemma NextCommitPoint(total: int, from: int, w: int)
    requires 0 <= from < total && from % PREFILL_CHUNK == 0
    ensures CommitPoint(total, Min(from + PREFILL_CHUNK, total))
    ensures CommitPoint(total, w) && from < w <= Min(from + PREFILL_CHUNK, total) ==>
      w == Min(from + PREFILL_CHUNK, total)
  {
  }

  /** Publishing an unregistered watermark freezes nothing, keeps every promise and moves no base. */
  lemma PublishPlainKeeps(doc: seq<Token>, m: Monitor, n: int)
    requires Published(doc, m) && m.watermark < |doc| && m.watermark % PREFILL_CHUNK == 0
    requires n == Min(m.watermark + PREFILL_CHUNK, |doc|) && n !in m.milestones
    ensures Published(doc, m.PublishPlain(n))
    ensures Base(m.snapshots, n) == Base(m.snapshots, m.watermark)
  {
    BaseSkips(m.snapshots, m.watermark, n);
    forall w {
      NextCommitPoint(|doc|, m.watermark, w);
    }
  }

  /** The frozen milestones after one more was published. */
  lemma PublishedDomain(doc: seq<Token>, m: Monitor, n: int, data: seq<byte>)
    requires Published(doc, m) && m.watermark < |doc| && m.watermark % PREFILL_CHUNK == 0
    requires n == Min(m.watermark + PREFILL_CHUNK, |doc|) && n in m.milestones
    ensures n !in m.snapshots && n > m.watermark
    ensures var m' := m.PublishExport(n, data);
      forall w :: w in m'.snapshots <==> IsGate(|doc|, m.milestones, w) && w <= n
    ensures IsLatest(|doc|, m.milestones, n, n)
  {
    forall w {
      NextCommitPoint(|doc|, m.watermark, w);
    }
  }

  /** The bases after one more was published: only the new milestone's own can be new. */
  lemma PublishedBases(doc: seq<Token>, m: Monitor, n: int, data: seq<byte>)
    requires Published(doc, m) && n > m.watermark
    ensures var m' := m.PublishExport(n, data);
      && (forall w :: w < n ==> Base(m'.snapshots, w) == Base(m.snapshots, w))
      && Base(m'.snapshots, n - 1) == Base(m.snapshots, m.watermark)
      && Base(m'.snapshots, n) == (if data == [] then n else Base(m.snapshots, m.watermark))
  {
    forall w | w < n
      ensures Base(m.PublishExport(n, data).snapshots, w) == Base(m.snapshots, w)
    {
      BaseIsStable(m.snapshots, n, Snapshot(data, n), w);
    }
    BaseSkips(m.snapshots, m.watermark, n - 1);
  }

  /** Publishing a registered watermark freezes exactly that milestone, overwriting none. */
  lemma PublishExportKeeps(doc: seq<Token>, m: Monitor, n: int, data: seq<byte>)
    requires Published(doc, m) && m.watermark < |doc| && m.watermark % PREFILL_CHUNK == 0
    requires n == Min(m.watermark + PREFILL_CHUNK, |doc|) && n in m.milestones
    requires data == [] || data == Export(Span(doc, Base(m.snapshots, m.watermark), n))
    ensures n !in m.snapshots
    ensures Published(doc, m.PublishExport(n, data))
  {
    PublishedDomain(doc, m, n, data);
    PublishedBases(doc, m, n, data);
    var m' := m.PublishExport(n, data);
    forall w | w in m'.snapshots
      ensures FrozenAt(doc, m'.snapshots, w)
    {
      assert w != n ==> FrozenAt(doc, m.snapshots, w);
    }
  }

  /** Exporting into the buffer and publishing leaves the canonical triple consistent. */
  lemma ExportIsCanonical(m: Monitor, n: int, data: seq<byte>, buffer: seq<byte>)
    requires |data| <= |buffer| && buffer[..|data|] == data
    ensures Canonical(m.PublishExport(n, data), buffer)
  {
  }

  /** A non-empty frozen blob restores to exactly what was exported. */
  lemma SpanExportRoundTrip(doc: seq<Token>, b: int, n: int)
    requires 0 <= b <= n <= |doc| <= INT32_MAX
    ensures Import(Export(Span(doc, b, n))) == (Span(doc, b, n), |Export(Span(doc, b, n))|)
    ensures |Export(Span(doc, b, n))| > 0
  {
    ExportRoundTrip(Span(doc, b, n), []);
  }

  /** Decoding the next chunk extends the document's KV from one commit point to the next. */
  lemma ChunkExtendsSpan(doc: seq<Token>, b: nat, from: nat, count: nat, nBatch: nat)
    requires nBatch > 0 && b <= from && from + count <= |doc|
    ensures Span(doc, b, from) + Flatten(Batches(doc, from, count, nBatch)) == Span(doc, b, from + count)
  {
    BatchesPartition(doc, from, count, nBatch);
    SpanExtends(doc, b, from, count);
  }

  lemma SpanExtends(doc: seq<Token>, b: nat, from: nat, count: nat)
    requires b <= from && from + count <= |doc|
    ensures Span(doc, b, from) + CellsAt(doc[from..from + count], from) == Span(doc, b, from + count)
  {
    CellsAtConcat(doc[b..from], doc[from..from + count], b);
    assert doc[b..from + count] == doc[b..from] + doc[from..from + count];
  }

  // ------------------------------------------------------------------
  // The batches of a whole prefill
  // ------------------------------------------------------------------

  /** Every llama_decode batch from token `from` to the end: batches within chunks. */
  function AllBatches(doc: seq<Token>, from: nat, nBatch: nat): seq<seq<Cell>>
    requires from <= |doc| && nBatch > 0
    decreases |doc| - from
  {
    if from == |doc| then [] else
      var chunk := Min(PREFILL_CHUNK, |doc| - from);
      Batches(doc, from, chunk, nBatch) + AllBatches(doc, from + chunk, nBatch)
  }

  /** One turn of the chunk loop. */
  lemma AllBatchesStep(doc: seq<Token>, from: nat, nBatch: nat)
    requires from <= |doc| && nBatch > 0
    ensures from == |doc| ==> AllBatches(doc, from, nBatch) == []
    ensures from < |doc| ==>
      var next := Min(from + PREFILL_CHUNK, |doc|);
      AllBatches(doc, from, nBatch) == Batches(doc, from, next - from, nBatch) + AllBatches(doc, next, nBatch)
  {
  }

  /** Across both nested chunkings the batches are the document, in order, and each is within n_batch. */
  lemma AllBatchesInOrder(doc: seq<Token>, nBatch: nat)
    requires nBatch > 0
    ensures |Flatten(AllBatches(doc, 0, nBatch))| == |doc|
    ensures forall i :: 0 <= i < |doc| ==> Flatten(AllBatches(doc, 0, nBatch))[i] == Cell(doc[i], i)
    ensures forall k :: 0 <= k < |AllBatches(doc, 0, nBatch)| ==> 0 < |AllBatches(doc, 0, nBatch)[k]| <= nBatch
  {
    hide Flatten, AllBatches, Span;
    AllBatchesPartition(doc, 0, nBatch);
    SpanIs(doc, 0, |doc|);
  }

  lemma {:induction false} AllBatchesPartition(doc: seq<Token>, from: nat, nBatch: nat)
    requires from <= |doc| && nBatch > 0
    ensures Flatten(AllBatches(doc, from, nBatch)) == Span(doc, from, |doc|)
    ensures forall k :: 0 <= k < |AllBatches(doc, from, nBatch)| ==> 0 < |AllBatches(doc, from, nBatch)[k]| <= nBatch
    decreases |doc| - from
  {
    if from < |doc| {
      var chunk := Min(PREFILL_CHUNK, |doc| - from);
      var first, rest := Batches(doc, from, chunk, nBatch), AllBatches(doc, from + chunk, nBatch);
      AllBatchesPartition(doc, from + chunk, nBatch);
      BatchesPartition(doc, from, chunk, nBatch);
      FlattenConcat(first, rest);
      SpanSplits(doc, from, from + chunk);
      hide CellsAt, Flatten, Batches;
      forall k | 0 <= k < |first|
        ensures 0 < |first[k]| <= nBatch
      {
        BatchesBounded(doc, from, chunk, nBatch, k);
      }
    }
  }

  lemma SpanSplits(doc: seq<Token>, from: nat, to: nat)
    requires from <= to <= |doc|
    ensures CellsAt(doc[from..to], from) + Span(doc, to, |doc|) == Span(doc, from, |doc|)
  {
    CellsAtConcat(doc[from..to], doc[to..|doc|], from);
    assert doc[from..|doc|] == doc[from..to] + doc[to..|doc|];
  }

  lemma {:induction false} FlattenConcat(a: seq<seq<Cell>>, b: seq<seq<Cell>>)
    ensures Flatten(a + b) == Flatten(a) + Flatten(b)
  {
    if a == [] {
      assert a + b == b;
    } else {
      FlattenConcat(a[1..], b);
      assert (a + b)[1..] == a[1..] + b && (a + b)[0] == a[0];
      ConcatAssoc(a[0], Flatten(a[1..]), Flatten(b));
    }
  }
}
