/** Request numbers: a shared 32-bit counter, bumped atomically, whose value 0 is never handed out. */
module SequenceNumbers {

  const SEQ_WIDTH: nat := 0x1_0000_0000

  // The counter after one atomic Add(1).
  function Bump(counter: nat): nat {
    (counter + 1) % SEQ_WIDTH
  }

  // The n-th number handed out, counting from 1.
  function Number(n: nat): nat
    requires n >= 1
  {
    (n - 1) % (SEQ_WIDTH - 1) + 1
  }

  class Counter {
    var value: nat
    ghost var handed: nat   // how many numbers have been handed out

    ghost predicate Valid()
      reads this
    {
      value == if handed == 0 then 0 else Number(handed)
    }

    constructor ()
      ensures Valid() && handed == 0
    {
      value, handed := 0, 0;
    }

    method Next() returns (num: nat)
      requires Valid()
      modifies this
      ensures Valid() && handed == old(handed) + 1
      ensures num == Number(handed) && num == value
    {
      NumberSteps(handed);
      while true
        invariant handed == old(handed)
        invariant value == old(value) || (old(value) == SEQ_WIDTH - 1 && value == 0)
        decreases if value == SEQ_WIDTH - 1 then 1 else 0
      {
        value := Bump(value);
        if value != 0 {
          handed := handed + 1;
          return value;
        }
      }
    }
  }

  // One number follows another by a bump, or by two across the forbidden 0.
  lemma NumberSteps(n: nat)
    ensures Number(n + 1) == if n == 0 then Bump(0) else if Number(n) == SEQ_WIDTH - 1 then Bump(Bump(Number(n))) else Bump(Number(n))
    ensures 1 <= Number(n + 1) < SEQ_WIDTH
  {
  }

  /** Two numbers coincide exactly when a whole number of 2^32 - 1 allocations lies between them. */
  lemma NumbersCoincide(m: nat, n: nat)
    requires 1 <= m <= n
    ensures Number(m) == Number(n) <==> (n - m) % (SEQ_WIDTH - 1) == 0
  {
    var w := SEQ_WIDTH - 1;
    var a, b := m - 1, n - 1;
    assert a == w * (a / w) + a % w && b == w * (b / w) + b % w;
    assert b - a == w * (b / w - a / w) + (b % w - a % w);
  }

  /** The first k numbers are pairwise different exactly when k <= 2^32 - 1. */
  lemma NumbersDistinct(k: nat)
    ensures (forall m, n :: 1 <= m < n <= k ==> Number(m) != Number(n)) <==> k <= SEQ_WIDTH - 1
  {
    if k > SEQ_WIDTH - 1 {
      assert Number(1) == Number(SEQ_WIDTH);
    }
  }
}
