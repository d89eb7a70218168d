/*
 * The round-robin register allocator of the code generator: ten temporary
 * registers `$t0`..`$t9` and eight saved registers `$s0`..`$s7`, each handed
 * out in rotation, with nothing ever freed.
 */
module Registers {
  const TempRegisters: seq<string> := ["$t0", "$t1", "$t2", "$t3", "$t4", "$t5", "$t6", "$t7", "$t8", "$t9"]
  const SavedRegisters: seq<string> := ["$s0", "$s1", "$s2", "$s3", "$s4", "$s5", "$s6", "$s7"]

  /** The register the `n`-th allocation hands out when the rotation starts at `start`. */
  function TempAfter(start: nat, n: nat): string
  {
    TempRegisters[(start + n) % 10]
  }

  /** What `n` consecutive `allocateTemp` calls return, starting at index `start`. */
  function TempRun(start: nat, n: nat): (regs: seq<string>)
    ensures |regs| == n
    ensures forall i :: 0 <= i < n ==> regs[i] == TempAfter(start, i)
  {
    seq(n, i requires 0 <= i < n => TempAfter(start, i))
  }

  /** The ten temporary registers are ten different names. */
  lemma TempRegistersDistinct()
    ensures forall i, j :: 0 <= i < j < 10 ==> TempRegisters[i] != TempRegisters[j]
  {
    forall i, j | 0 <= i < j < 10
      ensures TempRegisters[i] != TempRegisters[j]
    {
      assert TempRegisters[i][2] != TempRegisters[j][2];
    }
  }

  /**
   * Any ten consecutive allocations hand out each of `$t0`..`$t9` exactly
   * once: no two of them coincide, and every temporary register appears.
   */
  lemma {:induction false} TenConsecutiveCoverAll(start: nat)
    ensures forall i, j :: 0 <= i < j < 10 ==> TempRun(start, 10)[i] != TempRun(start, 10)[j]
    ensures forall r :: r in TempRegisters <==> r in TempRun(start, 10)
  {
    var run := TempRun(start, 10);
    TempRegistersDistinct();
    forall i, j | 0 <= i < j < 10
      ensures run[i] != run[j]
    {
      ModuloSameStep(start + i, j - i);
      assert (start + i) + (j - i) == start + j;
    }
    forall r | r in TempRegisters
      ensures r in run
    {
      var k :| 0 <= k < 10 && TempRegisters[k] == r;
      var i := (k + 10 - start % 10) % 10;
      assert (start + i) % 10 == k by {
        ModuloShift(start, k);
      }
      assert run[i] == r;
    }
  }

  /** Two numbers less than ten apart, and apart at all, differ modulo ten. */
  lemma ModuloSameStep(a: nat, d: nat)
    requires 0 < d < 10
    ensures a % 10 != (a + d) % 10
  {
  }

  lemma ModuloShift(start: nat, k: nat)
    requires k < 10
    ensures (start + (k + 10 - start % 10) % 10) % 10 == k
  {
  }

  /** The allocator object: the next index into each rotation, and the number of temporaries handed out. */
  class RegisterAllocator {
    var currentTemp: nat
    var currentSaved: nat
    var usageCount: nat

    ghost predicate Valid()
      reads this
    {
      currentTemp < 10 && currentSaved < 8
    }

    constructor()
      ensures Valid() && currentTemp == 0 && currentSaved == 0 && usageCount == 0
    {
      currentTemp := 0;
      currentSaved := 0;
      usageCount := 0;
    }

    /** `allocateTemp`: the current temporary; the rotation moves on and the count rises by one. */
    method AllocateTemp() returns (reg: string)
      requires Valid()
      modifies this
      ensures Valid() && reg == TempRegisters[old(currentTemp)] && reg in TempRegisters
      ensures currentTemp == (old(currentTemp) + 1) % 10
      ensures usageCount == old(usageCount) + 1 && currentSaved == old(currentSaved)
    {
      reg := TempRegisters[currentTemp];
      currentTemp := (currentTemp + 1) % 10;
      usageCount := usageCount + 1;
    }

    /** `allocateSaved`: the current saved register; `usageCount` does not change. */
    method AllocateSaved() returns (reg: string)
      requires Valid()
      modifies this
      ensures Valid() && reg == SavedRegisters[old(currentSaved)] && reg in SavedRegisters
      ensures currentSaved == (old(currentSaved) + 1) % 8
      ensures usageCount == old(usageCount) && currentTemp == old(currentTemp)
    {
      reg := SavedRegisters[currentSaved];
      currentSaved := (currentSaved + 1) % 8;
    }

    /** `reset`: both rotations restart; `usageCount` is kept. */
    method Reset()
      modifies this
      ensures Valid() && currentTemp == 0 && currentSaved == 0 && usageCount == old(usageCount)
    {
      currentTemp := 0;
      currentSaved := 0;
    }

    /** Not a method of the source: a harness showing that `n` calls of
        AllocateTemp in a row hand out `TempRun` from the current index. */
    method AllocateRun(n: nat) returns (regs: seq<string>)
      requires Valid()
      modifies this
      ensures Valid() && regs == TempRun(old(currentTemp), n)
      ensures currentTemp == (old(currentTemp) + n) % 10 && usageCount == old(usageCount) + n
      ensures currentSaved == old(currentSaved)
    {
      regs := [];
      var i := 0;
      while i < n
        invariant Valid() && i <= n && currentSaved == old(currentSaved)
        invariant currentTemp == (old(currentTemp) + i) % 10 && usageCount == old(usageCount) + i
        invariant regs == TempRun(old(currentTemp), i)
      {
        var r := AllocateTemp();
        regs := regs + [r];
        i := i + 1;
      }
    }

    /** `getStats`: the allocation count and the sizes of the two register lists. */
    function GetStats(): (st: Stats)
      reads this
      ensures st.totalAllocations == usageCount
      ensures st.tempRegistersAvailable == |TempRegisters| && st.savedRegistersAvailable == |SavedRegisters|
    {
      Stats(usageCount, |TempRegisters|, |SavedRegisters|)
    }
  }

  /** The `{totalAllocations, tempRegistersAvailable, savedRegistersAvailable}` object of `getStats`. */
  datatype Stats = Stats(totalAllocations: nat, tempRegistersAvailable: nat, savedRegistersAvailable: nat)
}
