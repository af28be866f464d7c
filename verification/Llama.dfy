/**
 * The part of the inference engine that the pipeline calls: a context that holds the KV of
 * sequence lane 0. Engine failures are arbitrary, so every call may also report one; the
 * engine remembers that one happened, how many contexts are open, and what was decoded.
 */
module Llama {
  import opened Common
  import opened KvCache

  class Engine {
    ghost var failed: bool
    ghost var open: int               // contexts created and not yet freed
    ghost var calls: seq<seq<Cell>>   // every batch that llama_decode accepted, in order

    constructor ()
      ensures !failed && open == 0 && calls == []
    {
      failed, open, calls := false, 0, [];
    }

    /** Whether the engine fails at this point. */
    method Fails() returns (b: bool)
      modifies this`failed
      ensures failed == (old(failed) || b)
    {
      b := *;
      if b {
        failed := true;
      }
    }
  }

  class LlamaContext {
    const engine: Engine
    const nBatch: nat
    var cells: seq<Cell>
    ghost var live: bool

    constructor (engine: Engine, nBatch: nat)
      ensures this.engine == engine && this.nBatch == nBatch && cells == [] && live
    {
      this.engine, this.nBatch := engine, nBatch;
      cells, live := [], true;
    }

    /** llama_free. */
    method Free()
      requires live
      modifies this`live, engine`open
      ensures !live && engine.open == old(engine.open) - 1
    {
      live := false;
      engine.open := engine.open - 1;
    }

    /**
     * llama_decode: appends the batch, or reports a non-zero code and leaves the KV alone. It
     * refuses a batch above n_batch, which is the caller's mistake and no failure of the engine.
     */
    method Decode(batch: array<Cell>) returns (rc: int)
      requires live
      modifies this`cells, engine`failed, engine`calls
      ensures batch.Length > nBatch ==> rc != 0
      ensures engine.failed == (old(engine.failed) || (rc != 0 && batch.Length <= nBatch))
      ensures rc == 0 ==> cells == old(cells) + batch[..] && engine.calls == old(engine.calls) + [batch[..]]
      ensures rc != 0 ==> cells == old(cells) && engine.calls == old(engine.calls)
    {
      if batch.Length > nBatch {
        return -1;
      }
      var fails := engine.Fails();
      if fails {
        return 1;
      }
      cells, engine.calls := cells + batch[..], engine.calls + [batch[..]];
      rc := 0;
    }

    /** llama_state_seq_get_size: the size of an export, or 0 when the engine cannot tell. */
    method GetSize() returns (n: nat)
      requires live
      modifies engine`failed
      ensures old(engine.failed) ==> engine.failed
      ensures n == |Export(cells)| || (n == 0 && engine.failed)
    {
      var fails := engine.Fails();
      n := if fails then 0 else |Export(cells)|;
    }

    /**
     * llama_state_seq_get_data: overwrites the start of `dst` with the serialised lane. When
     * the engine cannot, it reports 0 bytes, and what it wrote by then is anybody's guess.
     */
    method GetData(dst: array<byte>) returns (nw: nat)
      requires live
      modifies dst, engine`failed
      ensures nw == 0 || nw == |Export(cells)| <= dst.Length
      ensures nw > 0 ==> dst[..] == Export(cells) + old(dst[..])[nw..] && engine.failed == old(engine.failed)
      ensures nw == 0 ==> engine.failed || |Export(cells)| > dst.Length
      ensures old(engine.failed) ==> engine.failed
    {
      var fails := engine.Fails();
      var data := Export(cells);
      if fails || |data| > dst.Length {
        var junk: seq<byte> := *;
        forall i | 0 <= i < dst.Length {
          dst[i] := if i < |junk| then junk[i] else dst[i];
        }
        return 0;
      }
      nw := |data|;
      forall i | 0 <= i < nw {
        dst[i] := data[i];
      }
    }

    /** llama_state_seq_set_data: installs a serialised lane and reports the bytes consumed. */
    method SetData(data: seq<byte>) returns (n: nat)
      requires live
      modifies this`cells, engine`failed
      ensures old(engine.failed) ==> engine.failed
      ensures !engine.failed ==> n == Import(data).1
      ensures n == |data| && n > 0 ==> n == Import(data).1 && cells == Import(data).0
    {
      var fails := engine.Fails();
      if fails {
        return 0;
      }
      cells, n := Import(data).0, Import(data).1;
    }
  }

  /** llama_init_from_model: a fresh, empty context, or null. */
  method InitFromModel(engine: Engine, nBatch: nat) returns (lctx: LlamaContext?)
    modifies engine`failed, engine`open
    ensures engine.failed == (old(engine.failed) || lctx == null)
    ensures engine.open == old(engine.open) + Bit(lctx != null)
    ensures lctx != null ==>
      fresh(lctx) && lctx.engine == engine && lctx.nBatch == nBatch && lctx.cells == [] && lctx.live
  {
    var fails := engine.Fails();
    if fails {
      return null;
    }
    lctx := new LlamaContext(engine, nBatch);
    engine.open := engine.open + 1;
  }

  /**
   * The batch-filling loop that the prefiller, the branches and the baseline share: tokens
   * tokens[cur..cur+chunk) go to positions basePos, basePos+1, ...
   */
  method FillBatch(tokens: seq<Token>, cur: nat, chunk: nat, basePos: int) returns (batch: array<Cell>)
    requires cur + chunk <= |tokens|
    ensures fresh(batch) && batch.Length == chunk
    ensures forall k :: 0 <= k < chunk ==> batch[k] == Cell(tokens[cur + k], basePos + k)
    ensures batch[..] == CellsAt(tokens[cur..cur + chunk], basePos)
  {
    batch := new Cell[chunk](_ => Cell(0, 0));
    var i := 0;
    while i < chunk
      invariant 0 <= i <= chunk == batch.Length
      invariant forall k :: 0 <= k < i ==> batch[k] == Cell(tokens[cur + k], basePos + k)
    {
      batch[i] := Cell(tokens[cur + i], basePos + i);
      i := i + 1;
    }
  }
}
