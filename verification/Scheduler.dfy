/** The worker's round-robin scheduler, cmd/worker/main.go. */
module Scheduler {
  import opened Common

  /** What a processor does when it is tried: report an idle cycle, a processed one, or an error. */
  datatype Cycle = Idle | Processed | Broken

  /** The first processor from `next` on, wrapping around, that is not idle. */
  function Pick(cycles: seq<Cycle>, next: nat, offset: nat): (r: Option<nat>)
    requires next < |cycles| && offset <= |cycles|
    ensures r.Some? ==> r.value < |cycles| && !cycles[r.value].Idle?
    decreases |cycles| - offset
  {
    if offset == |cycles| then None
    else
      var index := (next + offset) % |cycles|;
      if !cycles[index].Idle? then Some(index) else Pick(cycles, next, offset + 1)
  }

  /** How many places p is ahead of next on the ring. */
  function Ahead(p: nat, next: nat, n: nat): nat
    requires p < n && next < n
  {
    if p >= next then p - next else p + n - next
  }

  lemma OnceAround(p: nat, n: nat)
    requires p < n
    ensures (p + n) % n == p
  {
    var q, r := (p + n) / n, (p + n) % n;
    assert p + n == q * n + r;
  }

  lemma AheadIsOffset(p: nat, next: nat, n: nat)
    requires p < n && next < n
    ensures Ahead(p, next, n) < n && (next + Ahead(p, next, n)) % n == p
  {
    if p < next {
      OnceAround(p, n);
      assert next + Ahead(p, next, n) == p + n;
    } else {
      assert next + Ahead(p, next, n) == p;
    }
  }

  /** It is the nearest: everything before it on the ring is idle. */
  lemma {:induction false} PickIsNearest(cycles: seq<Cycle>, next: nat, offset: nat, p: nat)
    requires next < |cycles| && offset <= |cycles| && p < |cycles| && !cycles[p].Idle?
             && offset <= Ahead(p, next, |cycles|)
    ensures var r := Pick(cycles, next, offset);
            r.Some? && offset <= Ahead(r.value, next, |cycles|) <= Ahead(p, next, |cycles|)
    decreases |cycles| - offset
  {
    var n := |cycles|;
    AheadIsOffset(p, next, n);
    var index := (next + offset) % n;
    RingPlace(next, offset, n);
    if cycles[index].Idle? {
      PickIsNearest(cycles, next, offset + 1, p);
    }
  }

  lemma RingPlace(next: nat, offset: nat, n: nat)
    requires next < n && offset < n
    ensures Ahead((next + offset) % n, next, n) == offset
  {
    if next + offset >= n {
      assert (next + offset) % n == next + offset - n;
    }
  }

  class FairScheduler {
    const count: nat
    var next: nat

    ghost predicate Valid()
      reads this
    {
      count == 0 || next < count
    }

    constructor (count: nat)
      ensures Valid() && this.count == count && next == 0
    {
      this.count := count;
      next := 0;
    }

    /** One call, with what each processor does if it is tried; tried is how many were. An idle
        result means that every processor was tried, once, and was idle. */
    method RunOnce(cycles: seq<Cycle>) returns (result: Cycle, tried: nat)
      requires Valid() && |cycles| == count
      modifies this
      ensures Valid()
      ensures count == 0 ==> result.Idle? && tried == 0 && next == old(next)
      ensures count > 0 ==> match Pick(cycles, old(next), 0)
                            case Some(p) => result == cycles[p] && next == (p + 1) % count
                                && tried == Ahead(p, old(next), count) + 1
                            case None => result.Idle? && tried == count && next == old(next)
    {
      if count == 0 {
        return Idle, 0;
      }
      for offset := 0 to count
        invariant next == old(next) && Pick(cycles, next, 0) == Pick(cycles, next, offset)
      {
        var index := (next + offset) % count;
        RingPlace(next, offset, count);
        if !cycles[index].Idle? {
          next := (index + 1) % count;
          return cycles[index], offset + 1;
        }
      }
      return Idle, count;
    }
  }

  /** What next becomes by a call. */
  function NextAfter(cycles: seq<Cycle>, next: nat): nat
    requires next < |cycles|
  {
    match Pick(cycles, next, 0)
    case Some(p) => (p + 1) % |cycles|
    case None => next
  }

  /** Whether processor p is the one executed at some call of the run. */
  predicate Executed(run: seq<seq<Cycle>>, next: nat, n: nat, p: nat)
    requires next < n && forall cycles: seq<Cycle> :: cycles in run ==> |cycles| == n
    decreases |run|
  {
    run != [] && (Pick(run[0], next, 0) == Some(p) || Executed(run[1..], NextAfter(run[0], next), n, p))
  }

  /** A processor that always has work is executed within as many calls as it is places ahead,
      whatever the others do; so within n calls from any state. */
  lemma {:induction false} BusyProcessorIsServed(run: seq<seq<Cycle>>, next: nat, n: nat, p: nat)
    requires next < n && p < n && (forall cycles: seq<Cycle> :: cycles in run ==> |cycles| == n && !cycles[p].Idle?)
    requires |run| > Ahead(p, next, n)
    ensures Executed(run, next, n, p)
    decreases |run|
  {
    assert run[0] in run;
    PickIsNearest(run[0], next, 0, p);
    var q := Pick(run[0], next, 0).value;
    if q != p {
      CloserNext(p, q, next, n);
      BusyProcessorIsServed(run[1..], NextAfter(run[0], next), n, p);
    }
  }

  lemma RingSuccessor(q: nat, n: nat)
    requires q < n
    ensures (q + 1) % n == if q + 1 == n then 0 else q + 1
  {}

  lemma CloserNext(p: nat, q: nat, next: nat, n: nat)
    requires p < n && q < n && next < n && p != q && Ahead(q, next, n) <= Ahead(p, next, n)
    ensures (q + 1) % n < n && Ahead(p, (q + 1) % n, n) < Ahead(p, next, n)
  {
    RingSuccessor(q, n);
  }

  lemma FairWithinRound(run: seq<seq<Cycle>>, next: nat, n: nat, p: nat)
    requires next < n && p < n && |run| == n && forall cycles: seq<Cycle> :: cycles in run ==>
             |cycles| == n && !cycles[p].Idle?
    ensures Executed(run, next, n, p)
  {
    AheadIsOffset(p, next, n);
    BusyProcessorIsServed(run, next, n, p);
  }
}
