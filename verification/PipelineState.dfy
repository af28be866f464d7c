/** The shared blackboard. Each method is a critical section of its mutex, proved against Monitor. */
module Pipeline {
  import opened Common
  import opened KvCache
  import opened Llama
  import opened HostMemory
  import opened PrefixSpec

  class PipelineState {
    var canonical: HostBuffer?
    var watermark: int
    var prefixSeqLen: int
    var prefixKvBytes: nat
    var complete: bool
    var milestones: set<int>
    var snapshots: map<int, Snapshot>
    var remaining: map<int, int>

    constructor (canonical: HostBuffer?)
      ensures this.canonical == canonical && View() == FRESH
    {
      this.canonical := canonical;
      watermark, prefixSeqLen, prefixKvBytes, complete := 0, 0, 0, false;
      milestones, snapshots, remaining := {}, map[], map[];
    }

    function View(): Monitor
      reads this
    {
      Monitor(watermark, prefixSeqLen, prefixKvBytes, complete, milestones, snapshots, remaining)
    }

    /** The bytes of the staging buffer, if there is one. */
    function Buffer(): Option<seq<byte>>
      reads this, if canonical == null then {} else {canonical.data}
    {
      if canonical == null then None else Some(canonical.data[..])
    }

    ghost function Storage(): set<object>
      reads this
    {
      if canonical == null then {} else {canonical.data}
    }

    method RegisterSnapshotMilestone(tokenCount: int) returns (r: Outcome)
      modifies this`milestones
      ensures r == (if tokenCount <= 0 then Fail(NonPositiveMilestone) else Pass)
      ensures View() == (if tokenCount <= 0 then old(View()) else old(View()).RegisterMilestone(tokenCount))
    {
      if tokenCount <= 0 {
        return Fail(NonPositiveMilestone);
      }
      milestones := milestones + {tokenCount};
      r := Pass;
    }

    method RegisterMilestoneConsumer(tokenCount: int)
      modifies this`remaining
      ensures View() == old(View()).RegisterConsumer(tokenCount)
    {
      if tokenCount <= 0 {
        return;
      }
      if tokenCount !in remaining {
        remaining := remaining[tokenCount := 0];
      }
      remaining := remaining[tokenCount := remaining[tokenCount] + 1];
    }

    method SignalMilestoneConsumed(tokenCount: int)
      modifies this`remaining
      ensures View() == old(View()).Signal(tokenCount)
    {
      if tokenCount <= 0 || tokenCount !in remaining {
        return;
      }
      remaining := remaining[tokenCount := remaining[tokenCount] - 1];
    }

    method MarkPrefillComplete()
      modifies this`complete
      ensures View() == old(View()).MarkComplete()
    {
      complete := true;
    }

    predicate IsSnapshotMilestone(tokenCount: int)
      reads this`milestones
    {
      tokenCount in milestones
    }

    /** The value the watermark wait tests each time it is woken; negative requirements are a wiring mistake. */
    method PollWatermark(required: int) returns (r: Result<bool>)
      ensures required < 0 ==> r == Raised(NegativeTokens)
      ensures required >= 0 ==> r == Ok(watermark >= required)
    {
      r := if required < 0 then Raised(NegativeTokens) else Ok(watermark >= required);
    }

    /**
     * The first phase of a milestone commit: serialises the context into the staging buffer
     * and copies the bytes out. Nothing is published. An engine that reports no bytes, here or
     * when asked for the size, is not treated as an error.
     */
    method ExportPrefix(ctx: LlamaContext) returns (r: Result<seq<byte>>)
      requires ctx.live
      modifies Storage(), ctx.engine`failed
      ensures old(ctx.engine.failed) ==> ctx.engine.failed
      ensures canonical == null ==> r == Ok([])
      ensures r.Raised? ==>
        && r.fault == BufferTooSmall && canonical != null && canonical.data.Length < |Export(ctx.cells)|
        && Buffer() == old(Buffer())
      ensures r.Ok? && canonical != null ==> Exported(ctx.cells, old(Buffer()).value, r.value, ctx.engine.failed)
    {
      if canonical == null {
        return Ok([]);
      }
      var need := ctx.GetSize();
      if canonical.data.Length < need {
        return Raised(BufferTooSmall);
      }
      var nw := ctx.GetData(canonical.data);
      assert canonical.data[..nw] == canonical.data[..][..nw];
      r := Ok(canonical.data[..nw]);
    }

    /**
     * What an export into the staging buffer leaves there: the whole serialised context in
     * front of the old bytes, or, if the engine reported none, anything.
     */
    ghost predicate Exported(cells: seq<Cell>, before: seq<byte>, data: seq<byte>, failed: bool)
      reads this, Storage()
    {
      && canonical != null && canonical.data.Length == |before| && |data| <= |before|
      && canonical.data[..|data|] == data
      && if data == [] then failed else data == Export(cells) && canonical.data[..] == data + before[|data|..]
    }

    /** The second phase: everything a branch can see changes at once. */
    method PublishExported(tokensReady: int, data: seq<byte>)
      modifies this`watermark, this`prefixSeqLen, this`prefixKvBytes, this`snapshots
      ensures View() == old(View()).PublishExport(tokensReady, data)
    {
      watermark, prefixSeqLen, prefixKvBytes := tokensReady, tokensReady, |data|;
      snapshots := snapshots[tokensReady := Snapshot(data, tokensReady)];
    }

    method CommitWatermark(ctx: LlamaContext?, tokensReady: int) returns (r: Outcome)
      requires ctx != null ==> ctx.live
      modifies this`watermark, this`prefixSeqLen, this`prefixKvBytes, this`snapshots, Storage()
      modifies (if ctx == null then {} else {ctx.engine})`failed
      ensures ctx == null ==> r == Fail(NullContext)
      ensures ctx != null ==> (old(ctx.engine.failed) ==> ctx.engine.failed)
      ensures ctx != null && tokensReady < 0 ==> r == Fail(NegativeTokens)
      ensures r != Pass ==> View() == old(View()) && Buffer() == old(Buffer())
      ensures ctx != null && tokensReady >= 0 && tokensReady !in milestones ==>
        r == Pass && View() == old(View()).PublishPlain(tokensReady) && Buffer() == old(Buffer())
      ensures ctx != null && tokensReady >= 0 && tokensReady in milestones && canonical == null ==>
        r == Pass && View() == old(View()).PublishExport(tokensReady, [])
      ensures ctx != null && tokensReady >= 0 && tokensReady in milestones && canonical != null ==>
        if r == Pass then
          && tokensReady in snapshots && View() == old(View()).PublishExport(tokensReady, snapshots[tokensReady].data)
          && Exported(ctx.cells, old(Buffer()).value, snapshots[tokensReady].data, ctx.engine.failed)
        else r == Fail(BufferTooSmall) && canonical.data.Length < |Export(ctx.cells)|
    {
      if ctx == null {
        return Fail(NullContext);
      }
      if tokensReady < 0 {
        return Fail(NegativeTokens);
      }
      if tokensReady !in milestones {
        watermark := tokensReady;
        return Pass;
      }
      var exported := ExportPrefix(ctx);
      if exported.Raised? {
        return Fail(exported.fault);
      }
      PublishExported(tokensReady, exported.value);
      r := Pass;
    }

    method TryGetPrefixSnapshot(w: int) returns (r: Option<Snapshot>)
      ensures r == (if w in snapshots then Some(snapshots[w]) else None)
    {
      r := if w in snapshots then Some(snapshots[w]) else None;
    }

    /**
     * The prefiller's condition wait, in a run where the other workers signal in the order
     * `arrivals`: it is re-tested after every signal, and returns at the first one that leaves
     * no consumer of `w`. Without such a signal the prefiller stays blocked.
     */
    method WaitForMilestoneConsumers(w: int, arrivals: seq<int>) returns (resumed: bool, used: nat)
      modifies this`remaining
      ensures used <= |arrivals|
      ensures View() == SignalAll(old(View()), arrivals[..used])
      ensures resumed == View().ConsumersDone(w)
      ensures !resumed ==> used == |arrivals|
      ensures forall k :: 0 <= k < used ==> !SignalAll(old(View()), arrivals[..k]).ConsumersDone(w)
    {
      used := 0;
      while !(w <= 0 || w !in remaining || remaining[w] <= 0) && used < |arrivals|
        invariant 0 <= used <= |arrivals|
        invariant View() == SignalAll(old(View()), arrivals[..used])
        invariant forall k :: 0 <= k < used ==> !SignalAll(old(View()), arrivals[..k]).ConsumersDone(w)
        decreases |arrivals| - used
      {
        assert arrivals[..used + 1][..used] == arrivals[..used];
        SignalMilestoneConsumed(arrivals[used]);
        used := used + 1;
      }
      resumed := w <= 0 || w !in remaining || remaining[w] <= 0;
    }
  }

  function SignalAll(m: Monitor, arrivals: seq<int>): Monitor {
    if arrivals == [] then m else SignalAll(m, arrivals[..|arrivals| - 1]).Signal(arrivals[|arrivals| - 1])
  }

  function CountOf(arrivals: seq<int>, w: int): nat {
    if arrivals == [] then 0 else
      CountOf(arrivals[..|arrivals| - 1], w) + (if arrivals[|arrivals| - 1] == w then 1 else 0)
  }

  /** Signals only ever lower the counters, each by the number of its own signals. */
  lemma {:induction false} SignalsLowerCounters(m: Monitor, arrivals: seq<int>)
    ensures SignalAll(m, arrivals).(remaining := m.remaining) == m
    ensures SignalAll(m, arrivals).remaining.Keys == m.remaining.Keys
    ensures forall w :: w in m.remaining && w > 0 ==>
      SignalAll(m, arrivals).remaining[w] == m.remaining[w] - CountOf(arrivals, w)
  {
    if arrivals != [] {
      SignalsLowerCounters(m, arrivals[..|arrivals| - 1]);
    }
  }

  /** A gate once open stays open. */
  lemma SignalsKeepDone(m: Monitor, arrivals: seq<int>)
    ensures forall w :: m.ConsumersDone(w) ==> SignalAll(m, arrivals).ConsumersDone(w)
  {
    SignalsLowerCounters(m, arrivals);
  }
}
