/** EventLoopThreadPool.cc: which loop the k-th connection gets. */
module ThreadPools {

  /** `++next_`, back to 0 at the end of the list. */
  function NextIndex(loops: nat, next: nat): nat {
    if loops == 0 || next + 1 >= loops then 0 else next + 1
  }

  /** `next_` after `k` calls of `getNextLoop`. */
  function Turn(loops: nat, k: nat): (i: nat)
    ensures if loops == 0 then i == 0 else i < loops
  {
    if k == 0 then 0 else NextIndex(loops, Turn(loops, k - 1))
  }

  lemma MulAtLeast(m: nat, d: nat)
    requires d > 0
    ensures m * d >= m
  {
  }

  lemma ModUnique(m: nat, q: nat, r: nat, q': nat, r': nat)
    requires r < m && r' < m && m * q + r == m * q' + r'
    ensures r == r'
  {
    if q > q' {
      assert m * (q - q') == m * q - m * q';
      MulAtLeast(m, q - q');
    } else if q' > q {
      assert m * (q' - q) == m * q' - m * q;
      MulAtLeast(m, q' - q);
    }
  }

  /** `k` calls are `q` full rounds and the turns of the current one. */
  lemma {:induction false} TurnQuotient(loops: nat, k: nat) returns (q: nat)
    requires loops > 0
    ensures k == loops * q + Turn(loops, k)
  {
    if k == 0 {
      q := 0;
    } else {
      q := TurnQuotient(loops, k - 1);
      if Turn(loops, k - 1) + 1 >= loops {
        assert loops * (q + 1) == loops * q + loops;
        q := q + 1;
      }
    }
  }

  lemma RemainderIs(m: nat, k: nat, q: nat, r: nat)
    requires r < m && k == m * q + r
    ensures r == k % m
  {
    ModUnique(m, q, r, k / m, k % m);
  }

  /** The k-th connection goes to loop `k mod N`. */
  lemma TurnIsMod(loops: nat, k: nat)
    requires loops > 0
    ensures Turn(loops, k) == k % loops
  {
    var q := TurnQuotient(loops, k);
    RemainderIs(loops, k, q, Turn(loops, k));
  }

  /** How many of the first `k` connections loop `i` gets. */
  function Load(loops: nat, k: nat, i: nat): nat {
    if k == 0 then 0 else Load(loops, k - 1, i) + if Turn(loops, k - 1) == i then 1 else 0
  }

  /** The load is one round more on the loops already served in this round: so no two loops ever
      differ by more than one connection. */
  lemma {:induction false} FairLoad(loops: nat, k: nat, i: nat, j: nat)
    requires i < j < loops
    ensures Load(loops, k, i) == Load(loops, k, j) + if i < Turn(loops, k) <= j then 1 else 0
  {
    if k > 0 {
      FairLoad(loops, k - 1, i, j);
    }
  }

  class EventLoopThreadPool<L> {
    const baseLoop: L
    var started: bool
    var numThreads: nat
    var next: nat
    var loops: seq<L>
    /** How many loops have been given out since `Start`. */
    ghost var given: nat

    ghost predicate Valid()
      reads this
    {
      next == Turn(|loops|, given) && (started ==> |loops| == numThreads) && (!started ==> loops == [])
    }

    constructor (baseLoop: L)
      ensures Valid() && !started && this.baseLoop == baseLoop && numThreads == 0
    {
      this.baseLoop := baseLoop;
      started, numThreads, next, loops := false, 0, 0, [];
      given := 0;
    }

    method SetThreadNum(n: nat)
      requires Valid() && !started
      modifies `numThreads
      ensures Valid() && numThreads == n
    {
      numThreads := n;
    }

    /** `spawned` are the loops that the started threads hand back, having called the callback
        themselves; `initialized` are those it is called for here. */
    method Start(spawned: seq<L>, callback: bool) returns (initialized: seq<L>)
      requires Valid() && !started && |spawned| == numThreads
      modifies this
      ensures Valid() && started && loops == spawned && given == 0 && numThreads == old(numThreads)
      ensures initialized == if spawned == [] && callback then [baseLoop] else []
    {
      started := true;
      given := 0;
      for i := 0 to numThreads
        modifies `loops
        invariant loops == spawned[..i]
      {
        loops := loops + [spawned[i]];
      }
      initialized := if numThreads == 0 && callback then [baseLoop] else [];
    }

    method GetNextLoop() returns (loop: L)
      requires Valid()
      modifies `next, `given
      ensures Valid() && given == old(given) + 1
      ensures loop == if loops == [] then baseLoop else loops[old(given) % |loops|]
    {
      loop := baseLoop;
      ghost var k := given;
      if loops != [] {
        TurnIsMod(|loops|, given);
        loop := loops[next];
        next := next + 1;
        if next >= |loops| {
          next := 0;
        }
      }
      given := given + 1;
    }

    method GetAllLoops() returns (all: seq<L>)
      requires Valid()
      ensures all == if loops == [] then [baseLoop] else loops
      ensures all != []
    {
      if |loops| == 0 {
        all := [baseLoop];
      } else {
        all := loops;
      }
    }
  }
}
