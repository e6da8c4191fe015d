/** Timers and the priority queue that orders them: a binary heap over shared, mutable timers. */
module TimerHeaps {
  class Timer {
    var expiration: int
    const interval: int
    const repeat: bool
    var deleted: bool
    const seqNum: nat
    ghost const when_: int           // the expiration it was made with

    ghost var runs: seq<int>         // the tick at which each run happened
    ghost var cancelledAt: nat       // how many runs there had been when it was cancelled

    constructor (when_: int, interval: int, seqNum: nat)
      ensures expiration == when_ && this.interval == interval && repeat == (interval > 0)
      ensures !deleted && this.seqNum == seqNum && runs == [] && this.when_ == when_
    {
      expiration, this.interval, repeat := when_, interval, interval > 0;
      deleted, this.seqNum := false, seqNum;
      this.when_, runs, cancelledAt := when_, [], 0;
    }

    method Restart(now: int)
      modifies this`expiration
      ensures expiration == now + interval
    {
      expiration := now + interval;
    }

    method SetDelete()
      modifies this`deleted, this`cancelledAt
      ensures deleted && cancelledAt == if old(deleted) then old(cancelledAt) else |runs|
    {
      cancelledAt := if deleted then cancelledAt else |runs|;
      deleted := true;
    }
  }

  /** The queue's comparator: true when `a` must come out after `b`. */
  predicate TimerCmp(a: Timer, b: Timer)
    reads a, b
  {
    if a.expiration == b.expiration then a.seqNum > b.seqNum else a.expiration > b.expiration
  }

  function Parent(k: nat): nat
    requires k > 0
  {
    (k - 1) / 2
  }

  /** No element comes out after one of its children. */
  ghost predicate HeapOrdered(h: seq<Timer>)
    reads h
  {
    forall k :: 0 < k < |h| ==> !TimerCmp(h[Parent(k)], h[k])
  }

  /** Heap order everywhere except between `i` and its children, whose parent they may pass. */
  ghost predicate OrderedBelow(h: seq<Timer>, i: nat)
    reads h
  {
    && (forall k :: 0 < k < |h| && Parent(k) != i ==> !TimerCmp(h[Parent(k)], h[k]))
    && (0 < i < |h| ==> forall k :: 0 < k < |h| && Parent(k) == i ==> !TimerCmp(h[Parent(i)], h[k]))
  }

  /** Heap order everywhere except between `i` and its parent. */
  ghost predicate OrderedAbove(h: seq<Timer>, i: nat)
    reads h
  {
    && (forall k :: 0 < k < |h| && k != i ==> !TimerCmp(h[Parent(k)], h[k]))
    && (0 < i < |h| ==> forall k :: 0 < k < |h| && Parent(k) == i ==> !TimerCmp(h[Parent(i)], h[k]))
  }

  /** The top of a heap comes out no later than anything in it. */
  lemma {:induction false} TopIsFirst(h: seq<Timer>, k: nat)
    requires HeapOrdered(h) && k < |h|
    ensures !TimerCmp(h[0], h[k])
    decreases k
  {
    if k > 0 {
      TopIsFirst(h, Parent(k));
    }
  }

  function Swapped(h: seq<Timer>, i: nat, j: nat): (r: seq<Timer>)
    requires i < |h| && j < |h|
  {
    h[i := h[j]][j := h[i]]
  }

  lemma SwappedSame(h: seq<Timer>, i: nat, j: nat)
    requires i < |h| && j < |h|
    ensures |Swapped(h, i, j)| == |h| && multiset(Swapped(h, i, j)) == multiset(h)
  {
  }

  /** priority_queue::push: the new element rises past parents that must come out after it. */
  method PushHeap(h: seq<Timer>, t: Timer) returns (r: seq<Timer>)
    requires HeapOrdered(h)
    ensures HeapOrdered(r) && multiset(r) == multiset(h) + multiset{t}
  {
    r := h + [t];
    var i := |h|;
    while i > 0 && TimerCmp(r[Parent(i)], r[i])
      invariant 0 <= i < |r| && multiset(r) == multiset(h) + multiset{t}
      invariant OrderedAbove(r, i)
      decreases i
    {
      RiseKeeps(r, i);
      SwappedSame(r, i, Parent(i));
      r := Swapped(r, i, Parent(i));
      i := Parent(i);
    }
  }

  lemma RiseKeeps(r: seq<Timer>, i: nat)
    requires 0 < i < |r| && OrderedAbove(r, i) && TimerCmp(r[Parent(i)], r[i])
    ensures OrderedAbove(Swapped(r, i, Parent(i)), Parent(i))
  {
    var p, s := Parent(i), Swapped(r, i, Parent(i));
    forall k | 0 < k < |s| && k != p
      ensures !TimerCmp(s[Parent(k)], s[k])
    {
      assert Parent(k) != k;
      if k != i && Parent(k) == p {
        assert !TimerCmp(r[p], r[k]);
      }
    }
    forall k | 0 < p && 0 < k < |s| && Parent(k) == p
      ensures !TimerCmp(s[Parent(p)], s[k])
    {
      assert !TimerCmp(r[Parent(p)], r[p]);
      assert k != i ==> !TimerCmp(r[p], r[k]);
    }
  }

  lemma DropTop(h: seq<Timer>)
    requires |h| > 1
    ensures var last := |h| - 1; multiset(h[..last][0 := h[last]]) == multiset(h) - multiset{h[0]}
  {
    var last := |h| - 1;
    assert h == [h[0]] + h[1..last] + [h[last]];
    assert h[..last][0 := h[last]] == [h[last]] + h[1..last];
  }

  /** priority_queue::pop: the last element takes the top's place and sinks. */
  method PopHeap(h: seq<Timer>) returns (r: seq<Timer>)
    requires HeapOrdered(h) && h != []
    ensures HeapOrdered(r) && multiset(r) == multiset(h) - multiset{h[0]}
    ensures |r| == |h| - 1
  {
    var last := |h| - 1;
    if last == 0 {
      r := [];
      assert h == [h[0]];
    } else {
      r := h[..last][0 := h[last]];
      DropTop(h);
      ghost var was := multiset(r);
      var i := 0;
      var child := Smaller(r, i);
      while child < |r| && TimerCmp(r[i], r[child])
        invariant 0 <= i < |r| == last && multiset(r) == was
        invariant OrderedBelow(r, i) && child == Smaller(r, i)
        decreases |r| - i
      {
        SinkKeeps(r, i);
        SwappedSame(r, i, child);
        r := Swapped(r, i, child);
        i := child;
        child := Smaller(r, i);
      }
      SunkOrdered(r, i);
    }
  }

  /** The child of `i` that comes out first, or |h| when there is none. */
  function Smaller(h: seq<Timer>, i: nat): nat
    reads h
  {
    var l := 2 * i + 1;
    if l >= |h| then |h|
    else if l + 1 < |h| && TimerCmp(h[l], h[l + 1]) then l + 1
    else l
  }

  lemma SinkKeeps(r: seq<Timer>, i: nat)
    requires i < |r| && OrderedBelow(r, i)
    requires Smaller(r, i) < |r| && TimerCmp(r[i], r[Smaller(r, i)])
    ensures OrderedBelow(Swapped(r, i, Smaller(r, i)), Smaller(r, i))
    ensures Smaller(r, i) > i
  {
    var c := Smaller(r, i);
    var s := Swapped(r, i, c);
    assert Parent(c) == i;
    forall k | 0 < k < |s| && Parent(k) != c
      ensures !TimerCmp(s[Parent(k)], s[k])
    {
      if k == c {
        assert s[i] == r[c] && s[c] == r[i];
      } else if k == i {
        assert !TimerCmp(r[Parent(i)], r[c]);
      } else if Parent(k) == i {
        assert k == 2 * i + 1 || k == 2 * i + 2;
        assert s[i] == r[c] && s[k] == r[k];
      } else {
        assert s[k] == r[k] && s[Parent(k)] == r[Parent(k)];
      }
    }
    forall k | 0 < k < |s| && Parent(k) == c
      ensures !TimerCmp(s[Parent(c)], s[k])
    {
      assert !TimerCmp(r[c], r[k]);
    }
  }

  lemma SunkOrdered(r: seq<Timer>, i: nat)
    requires i < |r| && OrderedBelow(r, i)
    requires Smaller(r, i) < |r| ==> !TimerCmp(r[i], r[Smaller(r, i)])
    ensures HeapOrdered(r)
  {
    forall k | 0 < k < |r| && Parent(k) == i
      ensures !TimerCmp(r[i], r[k])
    {
      assert k == 2 * i + 1 || k == 2 * i + 2;
    }
  }
}
