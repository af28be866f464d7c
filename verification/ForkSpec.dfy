/** Which KV bytes a branch forks from, and the reference KV it should end up with. */
module ForkSpec {
  import opened Common
  import opened KvCache
  import opened PrefixSpec

  /**
   * A branch that names a watermark reads the snapshot frozen there; one that waits for the
   * whole prefill reads the canonical buffer. The pair is (fork_prefix_len, fork bytes).
   */
  function ForkSource(m: Monitor, buffer: Option<seq<byte>>, req: int): Result<(int, seq<byte>)> {
    if req >= 0 then
      if req in m.snapshots then Ok((m.snapshots[req].seqLen, m.snapshots[req].data)) else Raised(MissingSnapshot)
    else if m.prefixKvBytes == 0 then Ok((m.prefixSeqLen, []))
    else if buffer.None? then Raised(NullBuffer)
    else if m.prefixKvBytes > |buffer.value| then Raised(BufferTooSmall)
    else Ok((m.prefixSeqLen, buffer.value[..m.prefixKvBytes]))
  }

  /** What a fresh context holds after restoring the bytes; no bytes restore nothing. */
  function Restored(data: seq<byte>): seq<Cell> { if data == [] then [] else Import(data).0 }

  /** Either nothing is restored and the staging buffer is bound, or the bytes are a well-formed export. */
  predicate CanRestore(data: seq<byte>, canonicalExists: bool) {
    if data == [] then canonicalExists else Import(data).1 == |data|
  }

  /** The KV of an agent that decodes document and prompt itself, sharing nothing. */
  function BaselineKv(doc: seq<Token>, prompt: seq<Token>): seq<Cell> {
    CellsAt(doc + prompt, 0)
  }

  /** The KV of a branch that forked at len, when the last empty export was at gate b. */
  function ForkKv(doc: seq<Token>, b: int, len: int, prompt: seq<Token>): seq<Cell>
    requires 0 <= b <= len <= |doc|
  {
    Span(doc, b, len) + CellsAt(prompt, len)
  }

  /** A fork is the unshared agent's KV if and only if no gate below it was exported empty. */
  lemma ForkIsBaselineExactly(doc: seq<Token>, b: int, len: int, prompt: seq<Token>)
    requires 0 <= b <= len <= |doc|
    ensures ForkKv(doc, b, len, prompt) == CellsAt(doc[b..len] + prompt, b)
    ensures ForkKv(doc, b, len, prompt) == BaselineKv(doc[..len], prompt) <==> b == 0
  {
    CellsAtConcat(doc[b..len], prompt, b);
    if b > 0 {
      assert |ForkKv(doc, b, len, prompt)| < |BaselineKv(doc[..len], prompt)|;
    } else {
      assert doc[0..len] == doc[..len];
    }
  }

  /** Restoring what is frozen at w yields the document since the last empty export. */
  lemma RestoredIsSpan(doc: seq<Token>, m: Monitor, w: int)
    requires Frozen(doc, m) && w in m.snapshots && |doc| <= INT32_MAX
    ensures 0 < w <= |doc| && Restored(m.snapshots[w].data) == Span(doc, Base(m.snapshots, w), w)
    ensures m.snapshots[w].data == [] || Import(m.snapshots[w].data).1 == |m.snapshots[w].data|
  {
    assert FrozenAt(doc, m.snapshots, w);
    SpanExportRoundTrip(doc, Base(m.snapshots, w), w);
  }

  /**
   * In a coherent monitor, whatever a branch can fork from is what is frozen at its length,
   * and a named watermark is forked at exactly that length.
   */
  lemma ForkSourceSound(doc: seq<Token>, m: Monitor, buffer: Option<seq<byte>>, req: int)
    requires Frozen(doc, m)
    requires buffer.Some? ==> Canonical(m, buffer.value)
    requires buffer.None? ==> m.prefixSeqLen == 0 && m.prefixKvBytes == 0
    requires ForkSource(m, buffer, req).Ok?
    ensures var (len, data) := ForkSource(m, buffer, req).value;
      && 0 <= len <= |doc| && data == BytesAt(m.snapshots, len)
      && (req >= 0 ==> len == req) && (req < 0 ==> len == m.prefixSeqLen)
      && (len in m.snapshots || (len == 0 && req < 0))
  {
    assert 0 !in m.snapshots;
    if req >= 0 {
      assert FrozenAt(doc, m.snapshots, req);
    }
  }
}
