/** Datatypes and small facts shared by every module. */
module Common {

  datatype Option<+T> = None | Some(value: T)

  /** The exceptions that the modelled functions throw, one constructor per throw site. */
  datatype Fault =
    | NullContext
    | NullBuffer
    | NegativeTokens
    | NonPositiveMilestone
    | BufferTooSmall
    | AllocationFailed
    | ContextCreationFailed
    | PoolContextFailed
    | DocumentTooLong
    | TokenizeFailed
    | BudgetTokenizeFailed
    | DecodeFailed
    | PromptDecodeFailed
    | MissingSnapshot
    | RestoreMismatch
    | EmptyPrompt
    | BudgetExceeded
    | DuplicateNode
    | DependencyCycle(from: string, to: string)

  datatype Result<+T> = Ok(value: T) | Raised(fault: Fault)

  datatype Outcome = Pass | Fail(fault: Fault)

  type Name = string

  const INT32_MAX: int := 0x7fff_ffff
  const INT32_MIN: int := -0x8000_0000

  type int32 = x: int | -0x8000_0000 <= x <= 0x7fff_ffff

  type byte = x: int | 0 <= x < 256

  function Min(a: int, b: int): int { if a <= b then a else b }

  function Bit(b: bool): nat { if b then 1 else 0 }

  function Max(a: int, b: int): int { if a >= b then a else b }

  lemma ConcatAssoc<T>(a: seq<T>, b: seq<T>, c: seq<T>)
    ensures a + (b + c) == (a + b) + c
  {
  }

  /** Two sets that differ in at most one element differ in size by as much. */
  lemma OneChanges<T>(a: set<T>, b: set<T>, x: T)
    requires forall y :: y != x ==> (y in a <==> y in b)
    ensures |b| + Bit(x in a) == |a| + Bit(x in b)
  {
    assert a - {x} == b - {x};
    assert |a| == |a - {x}| + Bit(x in a) && |b| == |b - {x}| + Bit(x in b);
  }

  /** A sequence longer than the finite set it draws from repeats an element. */
  lemma Pigeonhole<T>(p: seq<T>, pool: set<T>) returns (i: nat, j: nat)
    requires forall k :: 0 <= k < |p| ==> p[k] in pool
    requires |p| > |pool|
    ensures i < j < |p| && p[i] == p[j]
  {
    var last := |p| - 1;
    if k :| 0 <= k < last && p[k] == p[last] {
      i, j := k, last;
    } else {
      i, j := Pigeonhole(p[..last], pool - {p[last]});
    }
  }
}
