/**
 * The KV contents of a llama_context on sequence lane 0, and the serialised form
 * that llama_state_seq_get_data and llama_state_seq_set_data exchange.
 */
module KvCache {
  import opened Common

  type Token = int32

  /** One KV slot of the prefix lane: which token was decoded, and at which RoPE position. */
  datatype Cell = Cell(token: Token, pos: int)

  /** The cells produced by decoding `tokens` at consecutive positions from `base`. */
  function CellsAt(tokens: seq<Token>, base: int): (cells: seq<Cell>) {
    seq(|tokens|, i requires 0 <= i < |tokens| => Cell(tokens[i], base + i))
  }

  /** Token i stands at position base + i. */
  lemma CellsInOrder(tokens: seq<Token>, base: int)
    ensures |CellsAt(tokens, base)| == |tokens|
    ensures forall i :: 0 <= i < |tokens| ==> CellsAt(tokens, base)[i] == Cell(tokens[i], base + i)
  {
  }

  lemma CellsAtConcat(a: seq<Token>, b: seq<Token>, base: int)
    ensures CellsAt(a + b, base) == CellsAt(a, base) + CellsAt(b, base + |a|)
  {
  }

  // ------------------------------------------------------------------
  // Batching
  // ------------------------------------------------------------------

  /** The llama_decode batches that cover tokens[offset..offset+count), each at most nBatch long. */
  function Batches(tokens: seq<Token>, offset: nat, count: nat, nBatch: nat): seq<seq<Cell>>
    requires nBatch > 0 && offset + count <= |tokens|
    decreases count
  {
    if count == 0 then [] else
      var chunk := Min(nBatch, count);
      [CellsAt(tokens[offset..offset + chunk], offset)]
      + Batches(tokens, offset + chunk, count - chunk, nBatch)
  }

  /** One turn of the batching loop. */
  lemma BatchesStep(tokens: seq<Token>, offset: nat, count: nat, nBatch: nat)
    requires nBatch > 0 && offset + count <= |tokens|
    ensures Batches(tokens, offset, count, nBatch) == if count == 0 then [] else
      var chunk := Min(nBatch, count);
      [CellsAt(tokens[offset..offset + chunk], offset)] + Batches(tokens, offset + chunk, count - chunk, nBatch)
  {
  }

  function Flatten(batches: seq<seq<Cell>>): seq<Cell> {
    if batches == [] then [] else batches[0] + Flatten(batches[1..])
  }

  /** Put back together, the batches are the slice itself, in order and at its own positions. */
  lemma {:induction false} BatchesPartition(tokens: seq<Token>, offset: nat, count: nat, nBatch: nat)
    requires nBatch > 0 && offset + count <= |tokens|
    ensures Flatten(Batches(tokens, offset, count, nBatch)) == CellsAt(tokens[offset..offset + count], offset)
    decreases count
  {
    if count == 0 {
      assert CellsAt(tokens[offset..offset], offset) == [];
    } else {
      hide CellsAt;
      var chunk := Min(nBatch, count);
      var first, rest := tokens[offset..offset + chunk], tokens[offset + chunk..offset + count];
      var more := Batches(tokens, offset + chunk, count - chunk, nBatch);
      BatchesPartition(tokens, offset + chunk, count - chunk, nBatch);
      CellsAtConcat(first, rest, offset);
      assert tokens[offset..offset + count] == first + rest;
      assert ([CellsAt(first, offset)] + more)[1..] == more;
    }
  }

  /** No batch is empty, none exceeds n_batch, and all but the last are full. */
  lemma {:induction false} BatchesBounded(tokens: seq<Token>, offset: nat, count: nat, nBatch: nat, k: nat)
    requires nBatch > 0 && offset + count <= |tokens|
    requires k < |Batches(tokens, offset, count, nBatch)|
    ensures 0 < |Batches(tokens, offset, count, nBatch)[k]| <= nBatch
    ensures k < |Batches(tokens, offset, count, nBatch)| - 1 ==> |Batches(tokens, offset, count, nBatch)[k]| == nBatch
    decreases count
  {
    var chunk := Min(nBatch, count);
    if k > 0 {
      BatchesBounded(tokens, offset + chunk, count - chunk, nBatch, k - 1);
    }
  }

  // ------------------------------------------------------------------
  // Serialisation
  // ------------------------------------------------------------------

  const WORD: int := 0x1_0000_0000

  /** Little-endian two's complement, as a 32-bit machine stores the value. */
  function Word(x: int): seq<byte> {
    var u := x % WORD;
    var q1 := u / 256;
    var q2 := q1 / 256;
    [u % 256, q1 % 256, q2 % 256, q2 / 256]
  }

  function UnWord(b: seq<byte>): int32
    requires |b| == 4
  {
    var u := b[0] as int + 0x100 * (b[1] as int) + 0x1_0000 * (b[2] as int) + 0x100_0000 * (b[3] as int);
    if u > INT32_MAX then u - WORD else u
  }

  lemma WordRoundTrip(x: int32)
    ensures |Word(x)| == 4 && UnWord(Word(x)) == x
  {
    var u := x % WORD;
    var q1 := u / 256;
    var q2 := q1 / 256;
    assert u == u % 256 + 256 * (q1 % 256 + 256 * (q2 % 256 + 256 * (q2 / 256)));
  }

  function CellBytes(cells: seq<Cell>): (b: seq<byte>)
    ensures |b| == 8 * |cells|
  {
    if cells == [] then [] else Word(cells[0].token) + Word(cells[0].pos) + CellBytes(cells[1..])
  }

  function ParseCells(b: seq<byte>, n: nat): seq<Cell>
    requires |b| == 8 * n
    decreases n
  {
    if n == 0 then [] else [Cell(UnWord(b[..4]), UnWord(b[4..8]))] + ParseCells(b[8..], n - 1)
  }

  /** llama_state_seq_get_data: a cell count, then token and position of every cell. */
  function Export(cells: seq<Cell>): (b: seq<byte>)
    ensures |b| == 4 + 8 * |cells|
  {
    Word(|cells|) + CellBytes(cells)
  }

  /** llama_state_seq_set_data: the cells it installs and the byte count it reports (0 on a malformed blob). */
  function Import(b: seq<byte>): (seq<Cell>, nat) {
    if |b| < 4 then ([], 0) else
      var n := UnWord(b[..4]);
      if n < 0 || |b| < 4 + 8 * n then ([], 0) else (ParseCells(b[4..4 + 8 * n], n), 4 + 8 * n)
  }

  predicate Positions32(cells: seq<Cell>) {
    forall i :: 0 <= i < |cells| ==> INT32_MIN <= cells[i].pos <= INT32_MAX
  }

  lemma {:induction false} CellBytesRoundTrip(cells: seq<Cell>)
    requires Positions32(cells)
    ensures ParseCells(CellBytes(cells), |cells|) == cells
  {
    if cells != [] {
      var b, rest := CellBytes(cells), cells[1..];
      WordRoundTrip(cells[0].token);
      WordRoundTrip(cells[0].pos);
      assert b[..4] == Word(cells[0].token) && b[4..8] == Word(cells[0].pos) && b[8..] == CellBytes(rest);
      CellBytesRoundTrip(rest);
    }
  }

  /**
   * What is exported can be restored exactly, even when other bytes follow it in a larger
   * buffer, and the reported byte count is the exported one.
   */
  lemma ExportRoundTrip(cells: seq<Cell>, tail: seq<byte>)
    requires Positions32(cells) && |cells| <= INT32_MAX
    ensures Import(Export(cells) + tail) == (cells, |Export(cells)|)
    ensures Import(Export(cells)) == (cells, |Export(cells)|)
  {
    WordRoundTrip(|cells|);
    CellBytesRoundTrip(cells);
    var e := Export(cells);
    assert e[..4] == Word(|cells|) && e[4..] == CellBytes(cells);
    assert (e + tail)[..4] == Word(|cells|) && (e + tail)[4..4 + 8 * |cells|] == CellBytes(cells);
    assert e[4..4 + 8 * |cells|] == CellBytes(cells);
  }
}
