/** The fail-fast check that a branch fits behind its prefix, in the int32 arithmetic of the code. */
module ContextBudget {
  import opened Common
  import opened KvCache
  import opened Llama

  const HEADROOM := 128

  /** Conversion to int32, modulo 2^32 into the signed range. */
  function Wrap32(x: int): int32 {
    var u := x % WORD;
    if u > INT32_MAX then u - WORD else u
  }

  /** The verdict of the check for the longest of the branch prompts. */
  predicate WithinBudget(prefixTokens: int, maxBranch: int, nCtx: int) {
    0 <= prefixTokens && Wrap32(prefixTokens + maxBranch + HEADROOM) <= Wrap32(nCtx)
  }

  /** The largest token count among the prompts, each cast to int32 first. */
  function Longest(prompts: seq<seq<Token>>): nat {
    if prompts == [] then 0 else
      Max(Wrap32(|prompts[|prompts| - 1]|), Longest(prompts[..|prompts| - 1]))
  }

  /** For prompts whose lengths are int32 values, as the tokenizer reports them, it is their maximum. */
  lemma {:induction false} LongestIsMaximal(prompts: seq<seq<Token>>)
    requires forall p :: p in prompts ==> |p| <= INT32_MAX
    ensures forall p :: p in prompts ==> |p| <= Longest(prompts)
    ensures Longest(prompts) == 0 || exists p :: p in prompts && |p| == Longest(prompts)
  {
    if prompts != [] {
      var last := |prompts| - 1;
      var rest := prompts[..last];
      assert forall p :: p in prompts <==> p in rest || p == prompts[last];
      LongestIsMaximal(rest);
      InRange(|prompts[last]|);
      hide Wrap32;
      assert Longest(prompts) == Max(|prompts[last]|, Longest(rest));
    }
  }

  lemma InRange(n: int32)
    requires n >= 0
    ensures Wrap32(n) == n
  {
  }

  /** n_ctx, every prompt's length and every sum stay within int32. */
  predicate NoOverflow(prefixTokens: int, prompts: seq<seq<Token>>, nCtx: nat) {
    && nCtx <= 0x7fff_ffff && prefixTokens + 128 <= 0x7fff_ffff
    && forall p :: p in prompts ==> |p| <= 0x7fff_ffff && prefixTokens + |p| + 128 <= 0x7fff_ffff
  }

  /** Without overflow the verdict is the documented inequality for every prompt. */
  lemma VerdictMeaning(prefixTokens: int, prompts: seq<seq<Token>>, nCtx: nat)
    requires 0 <= prefixTokens && NoOverflow(prefixTokens, prompts, nCtx)
    ensures WithinBudget(prefixTokens, Longest(prompts), nCtx) <==>
      prefixTokens + 128 <= nCtx && forall p :: p in prompts ==> prefixTokens + |p| + 128 <= nCtx
  {
    LongestIsMaximal(prompts);
    InRange(nCtx);
    InRange(prefixTokens + Longest(prompts) + 128);
  }

  method ValidateContextBudget(engine: Engine, prefixTokens: int, branchPrompts: seq<seq<Token>>, nCtx: nat)
    returns (r: Outcome)
    modifies engine
    ensures engine.open == old(engine.open) && engine.calls == old(engine.calls)
    ensures engine.failed == (old(engine.failed) || r == Fail(BudgetTokenizeFailed))
    ensures prefixTokens < 0 <==> r == Fail(NegativeTokens)
    ensures r == Pass ==> WithinBudget(prefixTokens, Longest(branchPrompts), nCtx)
    ensures r == Fail(BudgetExceeded) ==> !WithinBudget(prefixTokens, Longest(branchPrompts), nCtx)
    ensures r in {Pass, Fail(NegativeTokens), Fail(BudgetTokenizeFailed), Fail(BudgetExceeded)}
    ensures NoOverflow(prefixTokens, branchPrompts, nCtx) && r == Pass ==>
      prefixTokens + 128 <= nCtx && forall p :: p in branchPrompts ==> prefixTokens + |p| + 128 <= nCtx
    ensures NoOverflow(prefixTokens, branchPrompts, nCtx) && r == Fail(BudgetExceeded) ==>
      prefixTokens + 128 > nCtx || exists p :: p in branchPrompts && prefixTokens + |p| + 128 > nCtx
  {
    hide NoOverflow, Wrap32;
    if prefixTokens >= 0 && NoOverflow(prefixTokens, branchPrompts, nCtx) {
      VerdictMeaning(prefixTokens, branchPrompts, nCtx);
    }
    if prefixTokens < 0 {
      return Fail(NegativeTokens);
    }
    var maxBranch := 0;
    var i := 0;
    while i < |branchPrompts|
      invariant 0 <= i <= |branchPrompts|
      invariant maxBranch == Longest(branchPrompts[..i])
      invariant engine.failed == old(engine.failed)
      invariant engine.open == old(engine.open) && engine.calls == old(engine.calls)
    {
      var fails := engine.Fails();
      if fails {
        return Fail(BudgetTokenizeFailed);
      }
      assert branchPrompts[..i + 1][..i] == branchPrompts[..i];
      maxBranch := Max(maxBranch, Wrap32(|branchPrompts[i]|));
      i := i + 1;
    }
    assert branchPrompts[..i] == branchPrompts;
    var limit := Wrap32(nCtx);
    var required := Wrap32(prefixTokens + maxBranch + HEADROOM);
    r := if required > limit then Fail(BudgetExceeded) else Pass;
  }

  /**
   * The check means what its documentation says, prefix + longest branch + headroom <= n_ctx,
   * exactly when the int32 sum does not wrap to a value that n_ctx still admits.
   */
  lemma BudgetExact(prefixTokens: int32, maxBranch: int32, nCtx: nat)
    requires 0 <= prefixTokens && 0 <= maxBranch && nCtx <= 0x7fff_ffff
    ensures (WithinBudget(prefixTokens, maxBranch, nCtx) <==> prefixTokens + maxBranch + 128 <= nCtx)
       <==> (prefixTokens + maxBranch + 128 <= 0x7fff_ffff || prefixTokens + maxBranch + 128 - 0x1_0000_0000 > nCtx)
  {
    var sum := prefixTokens + maxBranch + 128;
    if sum > INT32_MAX {
      if sum < WORD {
        assert Wrap32(sum) == sum - WORD;
      } else {
        assert sum % WORD == sum - WORD;
      }
    }
  }

  /** A document and a prompt of 2^30 tokens each pass the check for a 4096-token context. */
  lemma BudgetOverflowWitness()
    ensures WithinBudget(0x4000_0000, 0x4000_0000, 4096)
    ensures 0x4000_0000 + 0x4000_0000 + 128 > 4096
  {
    assert Wrap32(0x8000_0080) == 0x8000_0080 - WORD;
  }
}
