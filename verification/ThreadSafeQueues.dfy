/** The two-lock linked queue. Each method is one atomic step. A step of `push` is enabled while
    its thread holds the tail lock, a step of a pop while its thread holds the head lock; the two
    kinds interleave freely. Since a lock has one holder, the holder's program counter is enough:
    threads waiting for a lock have no effect on the state. */
module ThreadSafeQueues {
  import opened Options

  class Node<T> {
    var val: Option<T>
    var next: Node?<T>

    constructor ()
      ensures val == None && next == null
    {
      val, next := None, null;
    }
  }

  datatype PushPc<T> =
    | PushIdle
    | TailLocked(x: T, p: Node<T>)
    | ValSet(x: T, p: Node<T>)
    | Linked(x: T, p: Node<T>)

  datatype PopPc<T> =
    | PopIdle
    | HeadLocked
    | SawData
    | Moved(oldHead: Node<T>)

  datatype Event<T> = PushEvent(x: T) | PopEvent

  /** A push under way: its value, and how many of its four steps are done. */
  datatype Half<T> = Half(x: T, done: nat)

  function HalfOf<T>(pc: PushPc<T>): Option<Half<T>> {
    match pc
    case PushIdle => None
    case TailLocked(x, _) => Some(Half(x, 1))
    case ValSet(x, _) => Some(Half(x, 2))
    case Linked(x, _) => Some(Half(x, 3))
  }

  /** One step of the pushers: a new push begins, or the one under way goes on, and with its last step
      its value arrives. */
  function Onward<T>(half: Option<Half<T>>, x: T): (Option<Half<T>>, seq<T>) {
    match half
    case None => (Some(Half(x, 1)), [])
    case Some(h) => if h.done < 3 then (Some(Half(h.x, h.done + 1)), []) else (None, [h.x])
  }

  /** The push under way after the first `n` events of a schedule, and the values arrived by then. */
  function Arrived<T>(half: Option<Half<T>>, schedule: seq<Event<T>>, n: nat): (Option<Half<T>>, seq<T>)
    requires n <= |schedule|
  {
    if n == 0 then (half, [])
    else
      var (h, values) := Arrived(half, schedule, n - 1);
      match schedule[n - 1]
      case PopEvent => (h, values)
      case PushEvent(x) => var (h', more) := Onward(h, x); (h', values + more)
  }

  /** How far a pop has come. */
  datatype Stage = Resting | Looking | Seen | Moving

  function StageOf<T>(pc: PopPc<T>): Stage {
    match pc
    case PopIdle => Resting
    case HeadLocked => Looking
    case SawData => Seen
    case Moved(_) => Moving
  }

  /** The queue on values: the push and the pop under way, and what waits. */
  datatype Play<T> = Play(half: Option<Half<T>>, stage: Stage, waiting: seq<T>)

  /** One event, and what it delivers. */
  function AfterEvent<T>(p: Play<T>, e: Event<T>): (Play<T>, seq<T>) {
    match e
    case PushEvent(x) => var (half, more) := Onward(p.half, x); (p.(half := half, waiting := p.waiting + more), [])
    case PopEvent =>
      match p.stage
      case Resting => (p.(stage := Looking), [])
      case Looking => (if p.half.Some? then p else p.(stage := if p.waiting == [] then Resting else Seen), [])
      case Seen => (p.(stage := Moving), [])
      case Moving =>
        if p.waiting == [] then (p.(stage := Resting), [])
        else (p.(stage := Resting, waiting := p.waiting[1..]), [p.waiting[0]])
  }

  function Played<T>(p: Play<T>, schedule: seq<Event<T>>, n: nat): (Play<T>, seq<T>)
    requires n <= |schedule|
  {
    if n == 0 then (p, [])
    else
      var (q, out) := Played(p, schedule, n - 1);
      var (r, more) := AfterEvent(q, schedule[n - 1]);
      (r, out + more)
  }

  /** With no push half done, four steps of a pop per value deliver what waits, oldest first. */
  lemma {:induction false} PopsDeliver<T>(p: Play<T>, schedule: seq<Event<T>>, k: nat)
    requires p.half == None && p.stage == Resting && k <= |p.waiting|
    requires 4 * k <= |schedule| && forall i :: 0 <= i < 4 * k ==> schedule[i] == PopEvent
    ensures Played(p, schedule, 4 * k) == (p.(waiting := p.waiting[k..]), p.waiting[..k])
  {
    if k > 0 {
      PopsDeliver(p, schedule, k - 1);
      var n := 4 * (k - 1);
      var q := p.(waiting := p.waiting[k - 1..]);
      var out := p.waiting[..k - 1];
      assert out + [] == out;
      assert Played(p, schedule, n + 1) == (q.(stage := Looking), out);
      assert Played(p, schedule, n + 2) == (q.(stage := Seen), out);
      assert Played(p, schedule, n + 3) == (q.(stage := Moving), out);
      assert q.waiting[1..] == p.waiting[k..] && out + [q.waiting[0]] == p.waiting[..k];
    }
  }

  /** Four steps of one push make its value wait, last. */
  lemma PushArrives<T>(p: Play<T>, schedule: seq<Event<T>>)
    requires p.half == None && |schedule| >= 4 && forall i :: 0 <= i < 4 ==> schedule[i].PushEvent?
    ensures Played(p, schedule, 4) == (p.(waiting := p.waiting + [schedule[0].x]), [])
    ensures Arrived(None, schedule, 4) == (None, [schedule[0].x])
  {
    var none: seq<T> := [];
    var x := schedule[0].x;
    assert Played(p, schedule, 0) == (p, none) && none + none == none && p.waiting + none == p.waiting;
    assert Played(p, schedule, 1) == (p.(half := Some(Half(x, 1))), none);
    assert Played(p, schedule, 2) == (p.(half := Some(Half(x, 2))), none);
    assert Played(p, schedule, 3) == (p.(half := Some(Half(x, 3))), none);
    assert none + [x] == [x];
    assert Arrived(None, schedule, 1) == (Some(Half(x, 1)), none);
    assert Arrived(None, schedule, 2) == (Some(Half(x, 2)), none);
    assert Arrived(None, schedule, 3) == (Some(Half(x, 3)), none);
  }

  /** With nothing waiting, a pop gives up and delivers nothing. */
  lemma PopsNothing<T>(p: Play<T>, schedule: seq<Event<T>>)
    requires p.half == None && p.stage == Resting && p.waiting == []
    requires |schedule| >= 2 && schedule[0] == schedule[1] == PopEvent
    ensures Played(p, schedule, 2) == (p, [])
  {
    var none: seq<T> := [];
    assert Played(p, schedule, 0) == (p, none) && none + none == none;
    assert Played(p, schedule, 1) == (p.(stage := Looking), none);
  }

  class ThreadSafeQueue<T> {
    var head: Node?<T>
    var tail: Node<T>
    var pushing: PushPc<T>
    var popping: PopPc<T>

    ghost var spine: seq<Node<T>>  // the chain from the logical head to the dummy tail
    ghost var pushed: seq<T>       // values in the order the tail lock admitted them
    ghost var popped: seq<T>       // values delivered so far

    ghost function Repr(): set<object>
      reads this
    {
      (set n | n in spine :: n as object) +
      (match pushing case PushIdle => {} case TailLocked(_, p) => {p} case ValSet(_, p) => {p} case Linked(_, p) => {p})
    }

    /** A finite chain of distinct nodes, each but the last linked to its successor. */
    ghost predicate Chain()
      reads this, spine
    {
      && |spine| >= 1
      && (forall i, j :: 0 <= i < j < |spine| ==> spine[i] != spine[j])
      && (forall i :: 0 <= i < |spine| - 1 ==> spine[i].next == spine[i + 1] && spine[i].val.Some?)
      && tail == spine[|spine| - 1]
    }

    ghost predicate PushInv()
      requires Chain()
      reads this, spine, Repr()
    {
      match pushing
      case PushIdle => tail.next == null && tail.val == None
      case TailLocked(x, p) => tail.next == null && tail.val == None && Spare(p)
      case ValSet(x, p) => tail.next == null && tail.val == Some(x) && Spare(p)
      case Linked(x, p) => tail.next == p && tail.val == Some(x) && Spare(p)
    }

    ghost predicate Spare(p: Node<T>)
      reads this, p
    {
      p !in spine && p.next == null && p.val == None
    }

    ghost predicate PopInv()
      requires |spine| >= 1
      reads this
    {
      match popping
      case PopIdle => head == spine[0]
      case HeadLocked => head == spine[0]
      case SawData => head == spine[0] && |spine| >= 2
      case Moved(oldHead) => head == null && oldHead == spine[0] && |spine| >= 2
    }

    /** Values still on the chain, oldest first. */
    ghost function Waiting(): seq<T>
      requires Chain()
      reads this, spine
    {
      seq(|spine| - 1, i requires 0 <= i < |spine| - 1 && Chain() reads this, spine => spine[i].val.value)
    }

    ghost predicate Valid()
      reads this, spine, Repr()
    {
      && Chain() && PushInv() && PopInv()
      && popped + Waiting() == pushed
    }

    /** The queue as it is. */
    ghost function ThePlay(): Play<T>
      requires Chain()
      reads this, spine
    {
      Play(HalfOf(pushing), StageOf(popping), Waiting())
    }

    constructor ()
      ensures Valid() && fresh(Repr()) && pushed == [] && popped == [] && pushing.PushIdle? && popping.PopIdle?
    {
      var dummy := new Node<T>();
      head, tail := dummy, dummy;
      pushing, popping := PushIdle, PopIdle;
      spine, pushed, popped := [dummy], [], [];
    }

    // ---- push: the new node is made before the lock is taken ----

    method PushLock(x: T)
      requires Valid() && pushing.PushIdle?
      modifies this
      ensures Valid() && fresh(Repr() - old(Repr()))
      ensures pushing.TailLocked? && pushing.x == x && popping == old(popping)
      ensures pushed == old(pushed) && popped == old(popped) && spine == old(spine)
    {
      var p := new Node<T>();
      pushing := TailLocked(x, p);
      assert Waiting() == old(Waiting());
    }

    method PushSetVal()
      requires Valid() && pushing.TailLocked?
      modifies this`pushing, tail
      ensures Valid() && Repr() == old(Repr())
      ensures pushing == ValSet(old(pushing.x), old(pushing.p)) && spine == old(spine)
    {
      tail.val := Some(pushing.x);
      pushing := ValSet(pushing.x, pushing.p);
      assert Waiting() == old(Waiting());
    }

    method PushLink()
      requires Valid() && pushing.ValSet?
      modifies this`pushing, tail
      ensures Valid() && Repr() == old(Repr())
      ensures pushing == Linked(old(pushing.x), old(pushing.p)) && spine == old(spine)
    {
      tail.next := pushing.p;
      pushing := Linked(pushing.x, pushing.p);
      assert Waiting() == old(Waiting());
    }

    /** Moving `tail_` publishes the value: this is the point where the push takes effect. */
    method PushSetTail()
      requires Valid() && pushing.Linked?
      modifies this`pushing, this`tail, this`spine, this`pushed
      ensures Valid() && Repr() == old(Repr())
      ensures pushing.PushIdle? && pushed == old(pushed) + [old(pushing.x)]
      ensures old(spine) <= spine && |spine| == |old(spine)| + 1
    {
      var x, newTail := pushing.x, pushing.p;
      tail := newTail;
      spine := spine + [newTail];
      pushed := pushed + [x];
      pushing := PushIdle;
      assert forall n :: n in spine <==> n in old(spine) || n == newTail;
      assert Waiting() == old(Waiting()) + [x];
      assert popped + Waiting() == (popped + old(Waiting())) + [x];
    }

    // ---- pop ----

    method PopLock()
      requires Valid() && popping.PopIdle?
      modifies this`popping
      ensures Valid() && Repr() == old(Repr()) && popping.HeadLocked? && Waiting() == old(Waiting())
    {
      popping := HeadLocked;
      assert Waiting() == old(Waiting());
    }

    /** head_ against getTail(), which takes the tail lock: no push is half done. `empty()` and the
        predicate of the waiting pop make the same test. On an empty queue the head lock is given
        up, by `tryPop` to return nothing and by `waitAndPop` to sleep. */
    method PopTest() returns (data: bool)
      requires Valid() && popping.HeadLocked? && pushing.PushIdle?
      modifies this`popping
      ensures Valid() && Repr() == old(Repr())
      ensures (data <==> Waiting() != []) && Waiting() == old(Waiting())
      ensures popping == if data then SawData else PopIdle
    {
      data := head != tail;
      popping := if data then SawData else PopIdle;
      assert Waiting() == old(Waiting());
    }

    /** oldHead = move(head_). Pushes may have run since the test; none can undo what it saw. */
    method PopMoveHead() returns (x: T)
      requires Valid() && popping.SawData?
      modifies this`popping, this`head
      ensures Valid() && Repr() == old(Repr())
      ensures popping == Moved(old(head)) && head == null && Waiting() == old(Waiting())
      ensures |Waiting()| >= 1 && x == Waiting()[0]
    {
      x := head.val.value;
      popping := Moved(head);
      head := null;
      assert Waiting() == old(Waiting());
    }

    static lemma DropFirst(s: seq<Node<T>>)
      requires |s| >= 1 && forall i, j :: 0 <= i < j < |s| ==> s[i] != s[j]
      ensures forall n :: n in s[1..] <==> n in s && n != s[0]
    {
      assert s == [s[0]] + s[1..];
    }

    /** head_ = move(oldHead->next_); the value leaves with the old node. */
    method PopAdvance()
      requires Valid() && popping.Moved?
      modifies this, spine[0]
      ensures Valid() && Repr() == old(Repr()) - {old(spine[0])}
      ensures popping.PopIdle? && pushing == old(pushing) && tail == old(tail)
      ensures |old(Waiting())| >= 1 && popped == old(popped) + [old(Waiting())[0]]
      ensures pushed == old(pushed) && spine == old(spine)[1..] && Waiting() == old(Waiting())[1..]
    {
      var oldHead := popping.oldHead;
      ghost var waiting := Waiting();
      DropFirst(spine);
      head := oldHead.next;
      oldHead.next := null;
      popped := popped + [waiting[0]];
      spine := spine[1..];
      popping := PopIdle;
      assert Waiting() == waiting[1..];
      assert popped + Waiting() == old(popped) + waiting;
    }

    // ---- Whole runs ----

    method PushStep(x: T)
      requires Valid()
      modifies this, Repr()
      ensures Valid() && fresh(Repr() - old(Repr()))
      ensures popped == old(popped)
      ensures var (half, more) := Onward(HalfOf(old(pushing)), x); HalfOf(pushing) == half && pushed == old(pushed) + more
      ensures (ThePlay(), []) == AfterEvent(old(ThePlay()), PushEvent(x))
    {
      ghost var was := Waiting();
      assert tail in spine;
      match pushing {
        case PushIdle => PushLock(x);
        case TailLocked(_, _) => PushSetVal();
        case ValSet(_, _) => PushLink();
        case Linked(_, _) => PushSetTail();
      }
      Still(old(popped), was, pushed[|old(pushed)|..], Waiting());
    }

    static lemma Still(popped: seq<T>, was: seq<T>, more: seq<T>, waiting: seq<T>)
      requires popped + waiting == popped + was + more
      ensures waiting == was + more
    {
      assert waiting == (popped + waiting)[|popped|..] && was + more == (popped + was + more)[|popped|..];
    }

    /** A pop that needs the tail lock while a push holds it stays where it is. */
    method PopStep() returns (out: Option<T>)
      requires Valid()
      modifies this, Repr()
      ensures Valid() && fresh(Repr() - old(Repr()))
      ensures pushed == old(pushed) && pushing == old(pushing)
      ensures popped == old(popped) + if out.Some? then [out.value] else []
      ensures (ThePlay(), if out.Some? then [out.value] else []) == AfterEvent(old(ThePlay()), PopEvent)
    {
      out := None;
      assert spine[0] in spine;
      match popping {
        case PopIdle => PopLock();
        case HeadLocked =>
          if pushing.PushIdle? {
            var data := PopTest();
          }
        case SawData => var x := PopMoveHead();
        case Moved(oldHead) =>
          out := oldHead.val;
          PopAdvance();
      }
    }

    /** Any interleaving whatsoever delivers a prefix of what was pushed, in order, once each,
        and what was pushed but not delivered is still on the chain. */
    method Run(schedule: seq<Event<T>>) returns (delivered: seq<T>)
      requires Valid()
      modifies this, Repr()
      ensures Valid() && fresh(Repr() - old(Repr()))
      ensures popped == old(popped) + delivered
      ensures pushed == old(pushed) + Arrived(HalfOf(old(pushing)), schedule, |schedule|).1
      ensures (ThePlay(), delivered) == Played(old(ThePlay()), schedule, |schedule|)
      ensures old(Waiting()) + Arrived(HalfOf(old(pushing)), schedule, |schedule|).1 == delivered + Waiting()
    {
      hide Chain, PushInv, PopInv, Onward, AfterEvent;
      ghost var half := HalfOf(pushing);
      delivered := [];
      for i := 0 to |schedule|
        invariant Valid() && fresh(Repr() - old(Repr()))
        invariant popped == old(popped) + delivered
        invariant Arrived(half, schedule, i).0 == HalfOf(pushing)
        invariant pushed == old(pushed) + Arrived(half, schedule, i).1
        invariant (ThePlay(), delivered) == Played(old(ThePlay()), schedule, i)
      {
        match schedule[i] {
          case PushEvent(x) =>
            PushStep(x);
            assert delivered + [] == delivered;
          case PopEvent =>
            var out := PopStep();
            delivered := delivered + if out.Some? then [out.value] else [];
        }
      }
      ghost var values := Arrived(half, schedule, |schedule|).1;
      Cancel(old(popped), old(Waiting()), values, delivered, Waiting());
    }

    static lemma Cancel(a: seq<T>, b: seq<T>, c: seq<T>, d: seq<T>, e: seq<T>)
      requires a + b + c == a + d + e
      ensures b + c == d + e
    {
      assert b + c == (a + b + c)[|a|..] && d + e == (a + d + e)[|a|..];
    }

    /** What the invariant says of every reachable state: values come out in the order they went
        in, each once, and a pop never touches the node a push is writing. */
    lemma Fifo()
      requires Valid()
      ensures popped <= pushed && pushed[|popped|..] == Waiting()
      ensures popping.SawData? || popping.Moved? ==> spine[0] != tail
      ensures forall i, j :: 0 <= i < j < |spine| ==> spine[i] != spine[j]
    {
      assert pushed == popped + Waiting();
    }
  }
}
