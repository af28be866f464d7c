/** The unshared agent of the benchmark: the simple reference that forking must agree with. */
module Baseline {
  import opened Common
  import opened KvCache
  import opened Llama
  import opened PrefixSpec
  import opened ForkSpec

  /** Decodes the tokens at positions from 0, in batches of at most n_batch. */
  method DecodeTokensChunked(lctx: LlamaContext, tokens: seq<Token>) returns (r: Outcome)
    requires lctx.nBatch > 0 && lctx.live
    modifies lctx`cells, lctx.engine`failed, lctx.engine`calls
    ensures r in {Pass, Fail(DecodeFailed)} && lctx.engine.failed == (old(lctx.engine.failed) || r != Pass)
    ensures r == Pass ==> lctx.cells == old(lctx.cells) + CellsAt(tokens, 0)
    ensures r == Pass ==>
      && |lctx.cells| == |old(lctx.cells)| + |tokens|
      && forall i :: 0 <= i < |tokens| ==> lctx.cells[|old(lctx.cells)| + i] == Cell(tokens[i], i)
  {
    hide CellsAt, Span;
    SpanIs(tokens, 0, 0);
    var offset := 0;
    while offset < |tokens|
      invariant 0 <= offset <= |tokens| && lctx.engine.failed == old(lctx.engine.failed)
      invariant lctx.cells == old(lctx.cells) + Span(tokens, 0, offset)
    {
      var chunk := Min(lctx.nBatch, |tokens| - offset);
      var batch := FillBatch(tokens, offset, chunk, offset);
      var rc := lctx.Decode(batch);
      if rc != 0 {
        return Fail(DecodeFailed);
      }
      SpanExtends(tokens, 0, offset, chunk);
      ConcatAssoc(old(lctx.cells), Span(tokens, 0, offset), batch[..]);
      offset := offset + chunk;
    }
    SpanIs(tokens, 0, offset);
    assert tokens[0..offset] == tokens;
    r := Pass;
  }

  /** Document, then prompt, in one private context, which the throws of its first half leave behind. */
  method RunBaselineAgent(engine: Engine, docTokens: seq<Token>, prompt: seq<Token>, nBatch: nat)
    returns (r: Result<seq<Cell>>)
    requires nBatch > 0
    modifies engine
    ensures r.Ok? ==> engine.failed == old(engine.failed) && |prompt| <= nBatch
    ensures r.Ok? ==> r.value == BaselineKv(docTokens, prompt) && |r.value| == |docTokens| + |prompt|
    ensures r.Ok? ==> forall i :: 0 <= i < |r.value| ==>
      r.value[i] == Cell(if i < |docTokens| then docTokens[i] else prompt[i - |docTokens|], i)
    ensures r.Raised? ==>
      match r.fault
      case ContextCreationFailed => engine.failed && engine.open == old(engine.open)
      case DecodeFailed => engine.failed && engine.open == old(engine.open) + 1
      case TokenizeFailed => engine.failed && engine.open == old(engine.open) + 1
      case PromptDecodeFailed => (engine.failed || |prompt| > nBatch) && engine.open == old(engine.open)
      case _ => false
    ensures r.Ok? ==> engine.open == old(engine.open)
    ensures !engine.failed ==> (r.Ok? <==> |prompt| <= nBatch)
  {
    var lctx := InitFromModel(engine, nBatch);
    if lctx == null {
      return Raised(ContextCreationFailed);
    }
    var prefilled := DecodeTokensChunked(lctx, docTokens);
    if prefilled != Pass {
      return Raised(prefilled.fault);
    }
    var fails := engine.Fails();
    if fails {
      return Raised(TokenizeFailed);
    }
    var batch := FillBatch(prompt, 0, |prompt|, |docTokens|);
    assert prompt[0..|prompt|] == prompt;
    var rc := lctx.Decode(batch);
    if rc != 0 {
      lctx.Free();
      return Raised(PromptDecodeFailed);
    }
    CellsAtConcat(docTokens, prompt, 0);
    CellsInOrder(docTokens + prompt, 0);
    r := Ok(lctx.cells);
    lctx.Free();
  }
}
