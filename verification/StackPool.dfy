/** The pool of thread stacks: a fixed array used as a stack of free addresses. */
module StackPool {
  import opened Prelude

  const TOTAL_STACK_PAGES := 10000
  const PAGES_PER_STACK := 250
  const TOTAL_POSSIBLE_STACKS := TOTAL_STACK_PAGES / PAGES_PER_STACK
  const PAGE_SIZE := 4096

  function StackAddress(base: nat, i: nat): nat {
    base + i * PAGES_PER_STACK * PAGE_SIZE
  }

  /** Distinct stacks do not overlap. */
  lemma StacksDisjoint(base: nat, i: nat, j: nat)
    requires i < j
    ensures StackAddress(base, i) + 1_024_000 <= StackAddress(base, j)
    ensures StackAddress(base, i) == base + i * 1_024_000
  {
    assert j * (PAGES_PER_STACK * PAGE_SIZE) >= (i + 1) * (PAGES_PER_STACK * PAGE_SIZE);
  }

  class Pool {
    var stacks: array<nat>
    var tail: nat

    ghost predicate Valid()
      reads this
    {
      stacks.Length == TOTAL_POSSIBLE_STACKS && tail <= stacks.Length
    }

    /** The free stacks, the next one to be handed out last. */
    ghost function Free(): seq<nat>
      requires Valid()
      reads this, stacks
    {
      stacks[..tail]
    }

    constructor Init(base: nat)
      ensures Valid() && fresh(stacks)
      ensures Free() == seq(40, i requires 0 <= i < 40 => base + i * 1_024_000)
    {
      tail := TOTAL_POSSIBLE_STACKS;
      stacks := new nat[TOTAL_POSSIBLE_STACKS];
      new;
      for i := 0 to TOTAL_POSSIBLE_STACKS
        invariant stacks.Length == TOTAL_POSSIBLE_STACKS && tail == TOTAL_POSSIBLE_STACKS && fresh(stacks)
        invariant forall j :: 0 <= j < i ==> stacks[j] == StackAddress(base, j)
      {
        stacks[i] := StackAddress(base, i);
      }
    }

    /** More returned stacks than there are slots is a fatal error in the source. */
    method Push(addr: nat) returns (ok: bool)
      requires Valid()
      modifies this`tail, stacks
      ensures Valid() && ok == (old(tail) < TOTAL_POSSIBLE_STACKS)
      ensures Free() == if ok then old(Free()) + [addr] else old(Free())
    {
      if tail >= TOTAL_POSSIBLE_STACKS {
        return false;
      }
      stacks[tail] := addr;
      tail := tail + 1;
      return true;
    }

    method Pop() returns (addr: Option<nat>)
      requires Valid()
      modifies this`tail
      ensures Valid()
      ensures addr == if old(Free()) == [] then None else Some(old(Free())[|old(Free())| - 1])
      ensures Free() == if old(Free()) == [] then [] else old(Free())[..|old(Free())| - 1]
    {
      if tail == 0 {
        return None;
      }
      tail := tail - 1;
      addr := Some(stacks[tail]);
    }

    /** The number of stacks that are handed out. */
    method Size() returns (n: nat)
      requires Valid()
      ensures n + |Free()| == TOTAL_POSSIBLE_STACKS
    {
      n := TOTAL_POSSIBLE_STACKS - tail;
    }
  }
}
