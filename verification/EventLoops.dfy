/** The reactor's task queue and its wakeup protocol: one loop thread, any number of other
    threads. Poll blocks without a timeout, so a task is run only if somebody makes poll return.
    Each method is one atomic step; a lock-protected region is one step. */
module EventLoops {
  type Tid = nat

  /** Where the loop thread is. The states from `Dispatch` to `Swap` come before the queue is next
      taken; `Running(i)` is between tasks, `Executing(i)` inside task i of the batch. */
  datatype LoopPc =
    | Check
    | Poll
    | Dispatch(wakeActive: bool)
    | SetCalling
    | Swap
    | Running(i: nat)
    | Executing(i: nat)
    | Stopped

  /** Another thread: idle, or between its push (or its store to quit_) and its wakeup write. */
  datatype ThreadPc = Idle | MustWake

  datatype Event<T> =
    | LoopStep(wake: bool)
    | LoopPush(own: T)
    | LoopAfterPush
    | LoopQuit
    | OtherPush(t: Tid, task: T)
    | OtherQuit(q: Tid)
    | OtherWake(w: Tid)

  /** The largest value an eventfd counter holds; a write that would pass it fails. */
  const EVENTFD_MAX: nat := 0xFFFF_FFFF_FFFF_FFFE

  ghost predicate WakerIn(threads: map<Tid, ThreadPc>) {
    exists t :: t in threads && threads[t] == MustWake
  }

  /** What one event does to the other threads. */
  function Served<T>(threads: map<Tid, ThreadPc>, e: Event<T>): map<Tid, ThreadPc> {
    match e
    case OtherPush(t, _) => if t in threads && threads[t].Idle? then threads[t := MustWake] else threads
    case OtherQuit(t) => if t in threads && threads[t].Idle? then threads[t := MustWake] else threads
    case OtherWake(t) => if t in threads && threads[t].MustWake? then threads[t := Idle] else threads
    case _ => threads
  }

  function AllServed<T>(threads: map<Tid, ThreadPc>, schedule: seq<Event<T>>, n: nat): map<Tid, ThreadPc>
    requires n <= |schedule|
  {
    if n == 0 then threads else Served(AllServed(threads, schedule, n - 1), schedule[n - 1])
  }

  /** The whole loop on values. */
  datatype Loop<T> = Loop(
    quit: bool, calling: bool, functors: seq<T>, counter: nat, pc: LoopPc, batch: seq<T>, selfPushed: bool,
    threads: map<Tid, ThreadPc>, pushed: seq<T>, executed: seq<T>)

  /** Where a step of the loop thread leads, and what it does there. */
  function Advanced<T>(l: Loop<T>, wake: bool): Loop<T> {
    match l.pc
    case Check => l.(pc := if l.quit then Stopped else Poll)
    case Poll => l.(pc := Dispatch(wake && l.counter > 0))
    case Dispatch(active) =>
      if active then l.(counter := 0, pc := Dispatch(false)) else if l.selfPushed then l else l.(pc := SetCalling)
    case SetCalling => l.(calling := true, pc := Swap)
    case Swap => l.(batch := l.functors, functors := [], pc := Running(0))
    case Running(i) =>
      if i < |l.batch| then l.(executed := l.executed + [l.batch[i]], pc := Executing(i))
      else l.(calling := false, batch := [], pc := Check)
    case Executing(i) => if l.selfPushed then l else l.(pc := Running(i + 1))
    case Stopped => l
  }

  /** A wakeup adds one to the counter, as long as there is room. */
  function Woken(counter: nat): nat {
    if counter < EVENTFD_MAX then counter + 1 else counter
  }

  predicate Own<T>(l: Loop<T>) {
    (l.pc.Dispatch? || l.pc.Executing?) && !l.selfPushed
  }

  predicate In<T>(l: Loop<T>, t: Tid, pc: ThreadPc) {
    t in l.threads && l.threads[t] == pc
  }

  function After<T>(l: Loop<T>, e: Event<T>): Loop<T> {
    match e
    case LoopStep(wake) => Advanced(l, wake)
    case LoopPush(f) => if Own(l) then l.(functors := l.functors + [f], pushed := l.pushed + [f], selfPushed := true) else l
    case LoopAfterPush =>
      if l.selfPushed then l.(selfPushed := false, counter := if l.calling then Woken(l.counter) else l.counter) else l
    case LoopQuit => if Own(l) then l.(quit := true) else l
    case OtherPush(t, f) =>
      if In(l, t, Idle) then l.(functors := l.functors + [f], pushed := l.pushed + [f], threads := l.threads[t := MustWake]) else l
    case OtherQuit(t) => if In(l, t, Idle) then l.(quit := true, threads := l.threads[t := MustWake]) else l
    case OtherWake(t) => if In(l, t, MustWake) then l.(counter := Woken(l.counter), threads := l.threads[t := Idle]) else l
  }

  function AfterAll<T>(l: Loop<T>, schedule: seq<Event<T>>, n: nat): Loop<T>
    requires n <= |schedule|
  {
    if n == 0 then l else After(AfterAll(l, schedule, n - 1), schedule[n - 1])
  }

  /** Nobody's quit, wakeup or self-announcement goes unheard. */
  lemma AllHeard<T>(l: Loop<T>, t: Tid)
    ensures Own(l) ==> After(l, LoopQuit).quit
    ensures In(l, t, Idle) ==> After(l, OtherQuit(t)).quit && In(After(l, OtherQuit(t)), t, MustWake)
    ensures In(l, t, MustWake) ==> After(l, OtherWake(t)).counter > 0 && In(After(l, OtherWake(t)), t, Idle)
    ensures l.selfPushed && l.calling ==> After(l, LoopAfterPush).counter > 0
    ensures l.pc.Check? && l.quit ==> After(l, LoopStep(true)).pc == Stopped == After(l, LoopStep(false)).pc
  {
  }

  /** Left to itself, a woken loop goes round in so many steps, runs every task that waits, in order,
      each once, and polls again or stops. */
  lemma RoundRuns<T>(l: Loop<T>, schedule: seq<Event<T>>)
    requires l.pc.Poll? && l.counter > 0 && !l.selfPushed
    requires |schedule| == 7 + 2 * |l.functors| && forall k :: 0 <= k < |schedule| ==> schedule[k] == LoopStep(true)
    ensures AfterAll(l, schedule, |schedule|)
         == l.(functors := [], counter := 0, calling := false, batch := [],
               executed := l.executed + l.functors, pc := if l.quit then Stopped else Poll)
  {
    hide AfterAll, Advanced;
    NoStep(l, schedule);
    var m := l.(pc := Running(0), counter := 0, calling := true, batch := l.functors, functors := []);
    ToTheBatch(l, m, schedule);
    TasksRun(l, m, schedule, |l.functors|);
    assert l.functors[..|l.functors|] == l.functors;
    var done := m.(pc := Running(|l.functors|), executed := l.executed + l.functors);
    var check := done.(calling := false, batch := [], pc := Check);
    FromRunning(done);
    OneStep(l, schedule, 5 + 2 * |l.functors|, done);
    FromRunning(check);
    OneStep(l, schedule, 6 + 2 * |l.functors|, check);
  }

  lemma NoStep<T>(l: Loop<T>, schedule: seq<Event<T>>)
    ensures AfterAll(l, schedule, 0) == l
  {
  }

  lemma OneStep<T>(l: Loop<T>, schedule: seq<Event<T>>, n: nat, a: Loop<T>)
    requires n < |schedule| && schedule[n] == LoopStep(true) && AfterAll(l, schedule, n) == a
    ensures AfterAll(l, schedule, n + 1) == Advanced(a, true)
  {
  }

  lemma FromPoll<T>(l: Loop<T>)
    requires l.pc.Poll? && l.counter > 0
    ensures Advanced(l, true) == l.(pc := Dispatch(true))
  {
  }

  lemma FromDispatch<T>(l: Loop<T>)
    ensures l.pc == Dispatch(true) ==> Advanced(l, true) == l.(pc := Dispatch(false), counter := 0)
    ensures l.pc == Dispatch(false) && !l.selfPushed ==> Advanced(l, true) == l.(pc := SetCalling)
    ensures l.pc == SetCalling ==> Advanced(l, true) == l.(pc := Swap, calling := true)
    ensures l.pc == Swap ==> Advanced(l, true) == l.(pc := Running(0), batch := l.functors, functors := [])
  {
  }

  lemma FromRunning<T>(l: Loop<T>)
    ensures l.pc.Running? && l.pc.i < |l.batch| ==>
              Advanced(l, true) == l.(pc := Executing(l.pc.i), executed := l.executed + [l.batch[l.pc.i]])
    ensures l.pc.Running? && l.pc.i >= |l.batch| ==> Advanced(l, true) == l.(calling := false, batch := [], pc := Check)
    ensures l.pc.Executing? && !l.selfPushed ==> Advanced(l, true) == l.(pc := Running(l.pc.i + 1))
    ensures l.pc.Check? ==> Advanced(l, true) == l.(pc := if l.quit then Stopped else Poll)
  {
  }

  lemma ToTheBatch<T>(l: Loop<T>, m: Loop<T>, schedule: seq<Event<T>>)
    requires l.pc.Poll? && l.counter > 0 && !l.selfPushed && AfterAll(l, schedule, 0) == l
    requires |schedule| >= 5 && forall k :: 0 <= k < |schedule| ==> schedule[k] == LoopStep(true)
    requires m == l.(pc := Running(0), counter := 0, calling := true, batch := l.functors, functors := [])
    ensures AfterAll(l, schedule, 5) == m
  {
    hide AfterAll, Advanced;
    var a := l.(pc := Dispatch(true));
    FromPoll(l);
    OneStep(l, schedule, 0, l);
    var b := a.(pc := Dispatch(false), counter := 0);
    FromDispatch(a);
    OneStep(l, schedule, 1, a);
    var c := b.(pc := SetCalling);
    FromDispatch(b);
    OneStep(l, schedule, 2, b);
    var d := c.(pc := Swap, calling := true);
    FromDispatch(c);
    OneStep(l, schedule, 3, c);
    FromDispatch(d);
    OneStep(l, schedule, 4, d);
  }

  /** One task after the other. */
  lemma {:induction false} TasksRun<T>(l: Loop<T>, m: Loop<T>, schedule: seq<Event<T>>, i: nat)
    requires m.pc == Running(0) && !m.selfPushed && i <= |m.batch|
    requires 5 + 2 * i <= |schedule| && forall k :: 0 <= k < |schedule| ==> schedule[k] == LoopStep(true)
    requires AfterAll(l, schedule, 5) == m
    ensures AfterAll(l, schedule, 5 + 2 * i) == m.(pc := Running(i), executed := m.executed + m.batch[..i])
  {
    hide AfterAll, Advanced;
    if i == 0 {
      assert m.executed + m.batch[..0] == m.executed;
    } else {
      TasksRun(l, m, schedule, i - 1);
      var n := 5 + 2 * (i - 1);
      var a := m.(pc := Running(i - 1), executed := m.executed + m.batch[..i - 1]);
      assert m.batch[..i] == m.batch[..i - 1] + [m.batch[i - 1]];
      assert m.executed + m.batch[..i] == a.executed + [m.batch[i - 1]];
      var b := a.(pc := Executing(i - 1), executed := m.executed + m.batch[..i]);
      FromRunning(a);
      OneStep(l, schedule, n, a);
      FromRunning(b);
      OneStep(l, schedule, n + 1, b);
    }
  }

  function Tasks<T>(e: Event<T>): seq<T> {
    match e
    case LoopPush(f) => [f]
    case OtherPush(_, f) => [f]
    case _ => []
  }

  /** The tasks of those of the first `n` events that took place. */
  function Taken<T>(schedule: seq<Event<T>>, took: seq<bool>, n: nat): seq<T>
    requires n <= |schedule| && n <= |took|
  {
    if n == 0 then [] else Taken(schedule, took, n - 1) + if took[n - 1] then Tasks(schedule[n - 1]) else []
  }

  lemma {:induction false} TakenSame<T>(schedule: seq<Event<T>>, a: seq<bool>, b: seq<bool>, n: nat)
    requires n <= |schedule| && n <= |a| && a <= b
    ensures Taken(schedule, a, n) == Taken(schedule, b, n)
  {
    if n > 0 {
      TakenSame(schedule, a, b, n - 1);
    }
  }

  class EventLoop<T> {
    var quit: bool
    var callingFunctors: bool
    var functors: seq<T>
    var counter: nat           // the eventfd
    var pc: LoopPc
    var batch: seq<T>          // runFunctors' local vector
    var selfPushed: bool       // the loop thread is inside its own queueInLoop, after the push
    var threads: map<Tid, ThreadPc>

    ghost var pushed: seq<T>   // every task, in push-lock order
    ghost var executed: seq<T> // every task run, in order
    ghost var mark: nat        // how many tasks had been pushed at the last swap

    ghost function TheLoop(): Loop<T>
      reads this
    {
      Loop(quit, callingFunctors, functors, counter, pc, batch, selfPushed, threads, pushed, executed)
    }

    ghost predicate BeforeSwap()
      reads this
    {
      pc.Dispatch? || pc.SetCalling? || pc.Swap?
    }

    /** Tasks of the current batch that have not started. */
    ghost function Unstarted(): seq<T>
      reads this
    {
      match pc
      case Running(i) => if i <= |batch| then batch[i..] else []
      case Executing(i) => if i < |batch| then batch[i + 1..] else []
      case _ => []
    }

    ghost predicate Control()
      reads this
    {
      && (callingFunctors <==> pc.Swap? || pc.Running? || pc.Executing?)
      && (selfPushed ==> pc.Dispatch? || pc.Executing?)
      && (pc.Running? ==> pc.i <= |batch|)
      && (pc.Executing? ==> pc.i < |batch|)
      && (pc == Dispatch(true) ==> counter > 0)
      && counter <= EVENTFD_MAX
    }

    /** Nothing waits unnoticed: a queued task or a quit request is covered by a positive counter,
        by a thread about to write it, or by the loop being on its way to look. */
    ghost predicate Covered()
      reads this
    {
      && (functors != [] ==> counter > 0 || WakerIn(threads) || BeforeSwap() || selfPushed)
      && (quit && pc.Poll? ==> counter > 0 || WakerIn(threads))
    }

    ghost predicate Accounted()
      reads this
    {
      && executed + Unstarted() + functors == pushed
      && mark <= |executed| + |Unstarted()|
    }

    ghost predicate Valid()
      reads this
    {
      Control() && Covered() && Accounted()
    }

    /** The state on entry to the loop, with any tasks queued before it already announced. */
    constructor (tids: set<Tid>)
      ensures Valid() && pc == Check && functors == [] && pushed == [] && executed == []
      ensures threads.Keys == tids
    {
      quit, callingFunctors, functors, counter := false, false, [], 0;
      pc, batch, selfPushed := Check, [], false;
      threads := map t | t in tids :: Idle;
      pushed, executed, mark := [], [], 0;
    }

    // ---- The loop thread ----

    method CheckQuit()
      requires Valid() && pc.Check?
      modifies this`pc
      ensures Valid() && pc == if quit then Stopped else Poll
    {
      pc := if quit then Stopped else Poll;
    }

    /** Poll returns: with the wakeup channel among the active ones only if the counter is positive,
        and possibly without it, for other channels or an interrupt. */
    method PollReturn(wake: bool)
      requires Valid() && pc.Poll? && (wake ==> counter > 0)
      modifies this`pc
      ensures Valid() && pc == Dispatch(wake)
    {
      pc := Dispatch(wake);
    }

    /** The wakeup channel's handler: the read takes the whole counter. */
    method HandleRead()
      requires Valid() && pc == Dispatch(true)
      modifies this`pc, this`counter
      ensures Valid() && pc == Dispatch(false) && counter == 0
    {
      counter := 0;
      pc := Dispatch(false);
    }

    method EndDispatch()
      requires Valid() && pc == Dispatch(false) && !selfPushed
      modifies this`pc
      ensures Valid() && pc == SetCalling
    {
      pc := SetCalling;
    }

    method EnterRunFunctors()
      requires Valid() && pc.SetCalling?
      modifies this`pc, this`callingFunctors
      ensures Valid() && pc == Swap
    {
      callingFunctors := true;
      pc := Swap;
    }

    /** Every task pushed so far is now executed or in the batch. */
    method SwapFunctors()
      requires Valid() && pc.Swap?
      modifies this`pc, this`batch, this`functors, this`mark
      ensures Valid() && pc == Running(0) && functors == [] && batch == old(functors)
      ensures mark == |pushed|
    {
      batch, functors := functors, [];
      pc := Running(0);
      mark := |pushed|;
    }

    method StartTask()
      requires Valid() && pc.Running? && pc.i < |batch|
      modifies this`pc, this`executed
      ensures Valid() && pc == Executing(old(pc.i)) && executed == old(executed) + [batch[old(pc.i)]]
    {
      NextOf(executed, batch, pc.i, functors);
      executed := executed + [batch[pc.i]];
      pc := Executing(pc.i);
    }

    static lemma NextOf(done: seq<T>, batch: seq<T>, i: nat, rest: seq<T>)
      requires i < |batch|
      ensures done + batch[i..] + rest == (done + [batch[i]]) + batch[i + 1..] + rest
      ensures |batch[i..]| == 1 + |batch[i + 1..]|
    {
      assert batch[i..] == [batch[i]] + batch[i + 1..];
    }

    method FinishTask()
      requires Valid() && pc.Executing? && !selfPushed
      modifies this`pc
      ensures Valid() && pc == Running(old(pc.i) + 1)
    {
      pc := Running(pc.i + 1);
    }

    method LeaveRunFunctors()
      requires Valid() && pc.Running? && pc.i == |batch|
      modifies this`pc, this`callingFunctors, this`batch
      ensures Valid() && pc == Check && batch == []
      ensures mark <= |executed|
    {
      callingFunctors := false;
      batch := [];
      pc := Check;
    }

    /** queueInLoop called on the loop thread, by a handler or by a task: the locked push. */
    method QueueOnLoop(f: T)
      requires Valid() && (pc.Dispatch? || pc.Executing?) && !selfPushed
      modifies this`functors, this`pushed, this`selfPushed
      ensures Valid() && functors == old(functors) + [f] && pushed == old(pushed) + [f] && selfPushed
    {
      functors := functors + [f];
      pushed := pushed + [f];
      selfPushed := true;
      assert executed + Unstarted() + functors == (executed + Unstarted() + old(functors)) + [f];
    }

    /** ... and the test after it. From a handler nothing is written: the swap is still to come. */
    method AfterQueueOnLoop()
      requires Valid() && selfPushed
      modifies this`selfPushed, this`counter
      ensures Valid() && !selfPushed
      ensures counter == if pc.Executing? && old(counter) < EVENTFD_MAX then old(counter) + 1 else old(counter)
    {
      if callingFunctors {
        Wakeup();
      }
      selfPushed := false;
    }

    method QuitOnLoop()
      requires Valid() && (pc.Dispatch? || pc.Executing?) && !selfPushed
      modifies this`quit
      ensures Valid() && quit
    {
      quit := true;
    }

    /** write(wakeupFd_, 1); at the limit it fails and the counter stays positive. */
    method Wakeup()
      modifies this`counter
      ensures counter == if old(counter) < EVENTFD_MAX then old(counter) + 1 else old(counter)
    {
      if counter < EVENTFD_MAX {
        counter := counter + 1;
      }
    }

    // ---- Other threads ----

    method QueueFrom(t: Tid, f: T)
      requires Valid() && t in threads && threads[t].Idle?
      modifies this`functors, this`pushed, this`threads
      ensures Valid() && functors == old(functors) + [f] && pushed == old(pushed) + [f]
      ensures threads == old(threads)[t := MustWake]
    {
      functors := functors + [f];
      pushed := pushed + [f];
      threads := threads[t := MustWake];
      assert threads[t] == MustWake;
      assert executed + Unstarted() + functors == (executed + Unstarted() + old(functors)) + [f];
    }

    method QuitFrom(t: Tid)
      requires Valid() && t in threads && threads[t].Idle?
      modifies this`quit, this`threads
      ensures Valid() && quit && threads == old(threads)[t := MustWake]
    {
      quit := true;
      threads := threads[t := MustWake];
      assert threads[t] == MustWake;
    }

    method WakeFrom(t: Tid)
      requires Valid() && t in threads && threads[t].MustWake?
      modifies this`counter, this`threads
      ensures Valid() && counter > 0 && old(counter) <= counter && threads == old(threads)[t := Idle]
      ensures counter == Woken(old(counter))
    {
      Wakeup();
      threads := threads[t := Idle];
    }

    // ---- What the invariant says of every reachable state ----

    /** A loop asleep in poll with work or a quit request waiting will be woken. */
    lemma NoLostWakeup()
      requires Valid() && pc.Poll? && (functors != [] || quit)
      ensures counter > 0 || exists t :: t in threads && threads[t] == MustWake
    {
    }

    /** Tasks run at most once, in the order pushed; what had been pushed at the last swap has run
        by the time the loop polls again. */
    lemma ExecutionOrder()
      requires Valid()
      ensures executed <= pushed
      ensures pc.Poll? ==> mark <= |executed| && executed + functors == pushed
    {
      assert pushed == executed + (Unstarted() + functors);
    }

    // ---- Whole runs ----

    /** One step of the loop thread on its own account. */
    method LoopAdvance(wake: bool)
      requires Valid()
      modifies this
      ensures Valid() && pushed == old(pushed) && threads == old(threads)
      ensures old(executed) <= executed && quit == old(quit)
      ensures TheLoop() == Advanced(old(TheLoop()), wake)
    {
      match pc {
        case Check => CheckQuit();
        case Poll => PollReturn(wake && counter > 0);
        case Dispatch(active) =>
          if active {
            HandleRead();
          } else if !selfPushed {
            EndDispatch();
          }
        case SetCalling => EnterRunFunctors();
        case Swap => SwapFunctors();
        case Running(i) =>
          if i < |batch| {
            StartTask();
          } else {
            LeaveRunFunctors();
          }
        case Executing(i) =>
          if !selfPushed {
            FinishTask();
          }
        case Stopped =>
      }
    }

    /** Whether an event that brings a task can take place now. */
    predicate Pushes(e: Event<T>)
      reads this
    {
      match e
      case LoopPush(_) => (pc.Dispatch? || pc.Executing?) && !selfPushed
      case OtherPush(t, _) => t in threads && threads[t].Idle?
      case _ => false
    }

    method Step(e: Event<T>)
      requires Valid()
      modifies this
      ensures Valid() && old(executed) <= executed && threads == Served(old(threads), e)
      ensures pushed == old(pushed) + if old(Pushes(e)) then Tasks(e) else []
      ensures TheLoop() == After(old(TheLoop()), e)
    {
      match e {
        case LoopStep(wake) => LoopAdvance(wake);
        case LoopPush(f) =>
          if (pc.Dispatch? || pc.Executing?) && !selfPushed {
            QueueOnLoop(f);
          }
        case LoopAfterPush =>
          if selfPushed {
            AfterQueueOnLoop();
          }
        case LoopQuit =>
          if (pc.Dispatch? || pc.Executing?) && !selfPushed {
            QuitOnLoop();
          }
        case OtherPush(t, f) =>
          if t in threads && threads[t].Idle? {
            QueueFrom(t, f);
          }
        case OtherQuit(t) =>
          if t in threads && threads[t].Idle? {
            QuitFrom(t);
          }
        case OtherWake(t) =>
          if t in threads && threads[t].MustWake? {
            WakeFrom(t);
          }
      }
    }

    /** Any schedule of any threads: no wakeup is lost and no task is lost, repeated or reordered.
        `took` tells which pushes took place; those of other threads did exactly when their thread
        was idle. */
    method Run(schedule: seq<Event<T>>) returns (ghost took: seq<bool>)
      requires Valid()
      modifies this
      ensures Valid() && |took| == |schedule| && pushed == old(pushed) + Taken(schedule, took, |schedule|)
      ensures forall k :: 0 <= k < |schedule| && schedule[k].OtherPush? ==>
                var others := AllServed(old(threads), schedule, k);
                took[k] <==> schedule[k].t in others && others[schedule[k].t].Idle?
      ensures TheLoop() == AfterAll(old(TheLoop()), schedule, |schedule|)
      ensures old(executed) <= executed <= pushed
      ensures pc.Poll? && (functors != [] || quit) ==> counter > 0 || WakerIn(threads)
      ensures pc.Poll? ==> executed + functors == pushed
    {
      hide Control, Covered, Accounted, After;
      took := [];
      for k := 0 to |schedule|
        invariant Valid() && old(executed) <= executed && |took| == k
        invariant TheLoop() == AfterAll(old(TheLoop()), schedule, k)
        invariant pushed == old(pushed) + Taken(schedule, took, k) && threads == AllServed(old(threads), schedule, k)
        invariant forall j :: 0 <= j < k && schedule[j].OtherPush? ==>
                    var others := AllServed(old(threads), schedule, j);
                    took[j] <==> schedule[j].t in others && others[schedule[j].t].Idle?
      {
        ghost var was := took;
        took := took + [Pushes(schedule[k])];
        TakenSame(schedule, was, took, k);
        Step(schedule[k]);
      }
      ExecutionOrder();
      Announced();
    }

    lemma Announced()
      requires Valid()
      ensures pc.Poll? && (functors != [] || quit) ==> counter > 0 || WakerIn(threads)
    {
    }

    /** What everybody may do while the loop thread stays where it is: other threads push, quit and
        write their wakeups in any order, and the handler or task the loop is in pushes and quits. */
    method Meanwhile(events: seq<Event<T>>)
      requires Valid() && !selfPushed
      modifies this`quit, this`functors, this`counter, this`selfPushed, this`threads, this`pushed
      ensures Valid() && !selfPushed && (old(quit) ==> quit) && old(counter) <= counter
      ensures old(pushed) <= pushed && functors == old(functors) + pushed[|old(pushed)|..]
    {
      ghost var new' := [];
      for k := 0 to |events|
        invariant Valid() && !selfPushed && (old(quit) ==> quit) && old(counter) <= counter
        invariant pushed == old(pushed) + new' && functors == old(functors) + new'
      {
        ghost var more := One(events[k]);
        new' := new' + more;
      }
    }

    method One(e: Event<T>) returns (ghost more: seq<T>)
      requires Valid() && !selfPushed
      modifies this`quit, this`functors, this`counter, this`selfPushed, this`threads, this`pushed
      ensures Valid() && !selfPushed && (old(quit) ==> quit) && old(counter) <= counter
      ensures pushed == old(pushed) + more && functors == old(functors) + more
      ensures more == (if old(Pushes(e)) then Tasks(e) else []) && threads == Served(old(threads), e)
    {
      more := [];
      match e {
        case LoopStep(_) =>
        case LoopAfterPush =>
        case LoopPush(f) =>
          if pc.Dispatch? || pc.Executing? {
            QueueOnLoop(f);
            AfterQueueOnLoop();
            more := [f];
          }
        case LoopQuit =>
          if pc.Dispatch? || pc.Executing? {
            QuitOnLoop();
          }
        case OtherPush(t, f) =>
          if t in threads && threads[t].Idle? {
            QueueFrom(t, f);
            more := [f];
          }
        case OtherQuit(t) =>
          if t in threads && threads[t].Idle? {
            QuitFrom(t);
          }
        case OtherWake(t) =>
          if t in threads && threads[t].MustWake? {
            WakeFrom(t);
          }
      }
    }

    /** Progress: a loop at poll with work or a quit request waiting can always go once round, whatever
        everybody does at every point on the way; if it is not yet woken, a thread that owes it the
        wakeup writes it first. The turn runs exactly the tasks present at the swap, in order; what is
        pushed later, by those very tasks or by others, is exactly the new queue, and is announced
        when the loop polls again. `around` holds what happens at the points outside the batch, and
        `within` what happens before and during each task of it. */
    method Turn(around: seq<seq<Event<T>>>, within: seq<seq<Event<T>>>)
      requires Valid() && pc.Poll? && (functors != [] || quit)
      modifies this
      ensures Valid() && old(pushed) <= pushed && |old(pushed)| <= mark <= |pushed|
      ensures executed == pushed[..mark] && functors == pushed[mark..]
      ensures pc == (if quit then Stopped else Poll) && (old(quit) ==> quit)
      ensures pc.Poll? && functors != [] ==> counter > 0 || WakerIn(threads)
    {
      WakeAndSwap(around);
      RunBatch(within, pushed);
      Meanwhile(Nth(around, 5));
      LeaveRunFunctors();
      Meanwhile(Nth(around, 6));
      CheckQuit();
    }

    /** From poll to the swap. */
    method WakeAndSwap(around: seq<seq<Event<T>>>)
      requires Valid() && pc.Poll? && (functors != [] || quit)
      modifies this`quit, this`functors, this`counter, this`selfPushed, this`threads, this`pushed
      modifies this`pc, this`callingFunctors, this`batch, this`mark
      ensures Valid() && pc == Running(0) && !selfPushed && functors == [] && mark == |pushed|
      ensures old(pushed) <= pushed && (old(quit) ==> quit)
    {
      hide Covered, Accounted;
      BeWoken(Nth(around, 0));
      PollReturn(true);
      Meanwhile(Nth(around, 1));
      HandleRead();
      Meanwhile(Nth(around, 2));
      EndDispatch();
      Meanwhile(Nth(around, 3));
      EnterRunFunctors();
      Meanwhile(Nth(around, 4));
      SwapFunctors();
    }

    static function Nth(events: seq<seq<Event<T>>>, k: nat): seq<Event<T>> {
      if k < |events| then events[k] else []
    }

    method BeWoken(events: seq<Event<T>>)
      requires Valid() && pc.Poll? && (functors != [] || quit)
      modifies this`quit, this`functors, this`counter, this`selfPushed, this`threads, this`pushed
      ensures Valid() && counter > 0 && !selfPushed && (old(quit) ==> quit) && old(pushed) <= pushed
    {
      Meanwhile(events);
      if counter == 0 {
        NoLostWakeup();
        var t :| t in threads && threads[t] == MustWake;
        WakeFrom(t);
      }
    }

    /** The batch runs to its end, while the queue collects what is pushed meanwhile. */
    method RunBatch(within: seq<seq<Event<T>>>, ghost present: seq<T>)
      requires Valid() && pc == Running(0) && !selfPushed && functors == [] && pushed == present && mark == |present|
      modifies this`quit, this`functors, this`counter, this`selfPushed, this`threads, this`pushed, this`executed, this`pc
      ensures Valid() && pc.Running? && pc.i == |batch| && !selfPushed && (old(quit) ==> quit)
      ensures executed == present && present <= pushed && functors == pushed[|present|..]
    {
      var i := 0;
      while i < |batch|
        invariant Valid() && i <= |batch| && pc == Running(i) && !selfPushed && (old(quit) ==> quit)
        invariant executed + batch[i..] == present && present <= pushed && functors == pushed[|present|..]
      {
        RunTask(i, within, present);
        i := i + 1;
      }
    }

    method RunTask(i: nat, within: seq<seq<Event<T>>>, ghost present: seq<T>)
      requires Valid() && i < |batch| && pc == Running(i) && !selfPushed
      requires executed + batch[i..] == present && present <= pushed && functors == pushed[|present|..]
      modifies this`quit, this`functors, this`counter, this`selfPushed, this`threads, this`pushed, this`executed, this`pc
      ensures Valid() && pc == Running(i + 1) && !selfPushed && (old(quit) ==> quit)
      ensures executed + batch[i + 1..] == present && present <= pushed && functors == pushed[|present|..]
    {
      hide Covered, Accounted;
      Meanwhile(Nth(within, 2 * i));
      StartTask();
      Meanwhile(Nth(within, 2 * i + 1));
      FinishTask();
      assert batch[i..] == [batch[i]] + batch[i + 1..];
    }
  }
}
