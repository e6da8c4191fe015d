/** The timer scheduler: a heap of shared timers, lazy cancellation, repetition, and one hardware
    alarm. Times are nanoseconds on the monotonic clock; every reading of the clock is a parameter. */
module TimerManagers {
  import opened Options
  import opened TimerHeaps
  import opened TimerPasses

  class TimerManager {
    var timers: seq<Timer>
    var alarm: Alarm
    var made: seq<Timer>           // every timer made, by sequence number: the handles users hold

    ghost var marked: set<nat>     // the handles of those cancelled
    ghost var added: set<Timer>    // those that have been put in the queue
    ghost var expired: set<Timer>  // those taken out in the current pass, not yet put back
    ghost var tick: int            // the time of the current pass
    ghost var todo: set<Timer>     // those of the current pass whose turn is still to come
    ghost var log: seq<Tick>       // every run, in order

    /** The queue is a heap of timers fit to wait. */
    static ghost predicate Queue(timers: seq<Timer>)
      reads timers
    {
      HeapOrdered(timers) && NoDuplicates(timers) && forall t :: t in timers ==> Waits(t)
    }

    /** Sequence numbers count the timers made, so no two share one. */
    static ghost predicate Numbered(made: seq<Timer>) {
      && (forall t :: t in made ==> t.seqNum < |made| && made[t.seqNum] == t && (t.repeat <==> t.interval > 0))
      && (forall i :: 0 <= i < |made| ==> made[i].seqNum == i)
    }

    static ghost predicate Marked(made: seq<Timer>, marked: set<nat>)
      reads made
    {
      && (forall t :: t in made ==> (t.deleted <==> t.seqNum in marked))
      && (forall h :: h in marked ==> h < |made|)
    }

    static ghost predicate Logged(made: seq<Timer>, log: seq<Tick>)
      reads made
    {
      && (forall t :: t in made ==> t.runs == Times(log, t.seqNum))
      && (forall r :: r in log ==> r.handle < |made|)
    }

    static ghost predicate Records(made: seq<Timer>, added: set<Timer>)
      reads made
    {
      && (forall t :: t in made ==> Paced(t))
      && (forall t :: t in made && t !in added ==> t.runs == [])
    }

    /** A timer is in the queue, out for the current pass, or neither. */
    ghost predicate Placed()
      reads this
    {
      && (forall t :: t in added ==> t in made) && expired <= added
      && (forall t :: t in timers ==> t in added && t !in expired)
    }

    ghost predicate Valid()
      reads this, made, timers
    {
      Numbered(made) && Records(made, added) && Placed() && Queue(timers)
    }

    /** Of those out for the pass, the ones whose turn is still to come are fit to run, and the others
        have run just now unless they were cancelled. */
    static ghost predicate Ready(todo: set<Timer>, expired: set<Timer>, tick: int)
      reads expired
    {
      && todo <= expired
      && (forall t :: t in todo ==> Waits(t) && t.expiration <= tick)
      && (forall t :: t in expired && t !in todo && !t.deleted ==> t.runs != [] && LastRun(t) == tick)
    }

    /** The summaries of what has happened so far are right about every timer. */
    ghost predicate Kept()
      reads this, made, expired
    {
      Marked(made, marked) && Logged(made, log) && Ready(todo, expired, tick)
    }

    ghost function Made(): set<Timer>
      reads this
    {
      set t | t in made
    }

    ghost function TheBook(): Book
      reads this, timers
    {
      Book(Orders(made), marked, log, TheHorizon())
    }

    ghost function TheHorizon(): Horizon
      reads this, timers
    {
      Horizon(alarm, if timers == [] then None else Some(timers[0].expiration))
    }

    /** A non-empty queue is covered by an alarm at exactly the top's expiration. */
    ghost predicate Agreed()
      reads this, timers
    {
      timers != [] ==> alarm == Armed(timers[0].expiration)
    }

    constructor ()
      ensures Valid() && Kept() && Agreed() && timers == [] && made == [] && alarm == Disarmed && expired == {}
    {
      timers, alarm, made := [], Disarmed, [];
      marked, added, expired, todo, tick, log := {}, {}, {}, {}, 0, [];
    }

    /** The remaining time is split into seconds and nanoseconds with truncating division. */
    method ResetTimerFd(expiration: int, clock: int)
      modifies this`alarm
      ensures alarm == ArmedFor(old(alarm), clock, expiration)
      ensures expiration > clock ==> alarm == Armed(expiration)
      ensures expiration == clock ==> alarm == Disarmed
      ensures expiration < clock ==> alarm == old(alarm)
    {
      var nsec := expiration - clock;
      var sec := if nsec >= 0 then nsec / SECOND else -((-nsec) / SECOND);
      alarm := SetTime(alarm, clock, sec, nsec - sec * SECOND);
    }

    /** make_shared<Timer>: on any thread, ahead of its being added. */
    method NewTimer(when_: int, interval: int) returns (t: Timer)
      requires Valid()
      modifies this`made
      ensures Valid() && t.seqNum == |old(made)| && fresh(t) && made == old(made) + [t]
      ensures t.expiration == t.when_ == when_ && t.interval == interval && !t.deleted && t.runs == []
      ensures t !in added
    {
      t := new Timer(when_, interval, |made|);
      made := made + [t];
    }

    twostate lemma KeptNew(new t: Timer)
      requires old(Kept()) && made == old(made) + [t] && marked == old(marked) && log == old(log)
      requires todo == old(todo) && expired == old(expired) && tick == old(tick)
      requires forall x :: x in expired ==>
                 x.expiration == old(x.expiration) && x.runs == old(x.runs) && x.deleted == old(x.deleted)
      requires t.seqNum == |old(made)| && !t.deleted && t.runs == []
      requires forall x :: x in old(made) ==> x.deleted == old(x.deleted) && x.runs == old(x.runs)
      ensures Kept()
    {
      NoTimes(log, |old(made)|);
    }

    /** Puts a timer that is outside the queue into it. */
    method Insert(t: Timer) returns (earliestChanged: bool)
      requires Valid() && t in made && t !in timers && Waits(t)
      modifies this`timers, this`added, this`expired
      ensures Valid() && multiset(timers) == multiset(old(timers)) + multiset{t}
      ensures earliestChanged <==> old(timers) == [] || old(timers[0].expiration) > t.expiration
      ensures timers[0].expiration == if earliestChanged then t.expiration else old(timers[0].expiration)
      ensures added == old(added) + {t} && expired == old(expired) - {t}
    {
      hide Records, Numbered, Queue, NoDuplicates;
      QueueTop();
      earliestChanged := false;
      ghost var was := timers;
      if timers != [] {
        if timers[0].expiration > t.expiration {
          earliestChanged := true;
        }
        timers := PushHeap(timers, t);
      } else {
        timers := PushHeap(timers, t);
        earliestChanged := true;
      }
      Pushed(timers, was, t);
      RecordsMore(made, added, t);
      added, expired := added + {t}, expired - {t};
    }

    lemma QueueTop()
      requires Queue(timers)
      ensures HeapOrdered(timers)
    {
    }

    static lemma Pushed(h: seq<Timer>, was: seq<Timer>, t: Timer)
      requires Queue(was) && HeapOrdered(h) && multiset(h) == multiset(was) + multiset{t} && t !in was && Waits(t)
      ensures Queue(h) && h != [] && forall x :: x in h <==> x in was || x == t
      ensures h[0].expiration == if was != [] && was[0].expiration <= t.expiration then was[0].expiration else t.expiration
    {
      Members(h, was, t);
      TopOfPush(h, was, t);
    }

    static lemma RecordsMore(made: seq<Timer>, added: set<Timer>, t: Timer)
      requires Records(made, added)
      ensures Records(made, added + {t})
    {
    }

    static lemma Members(h: seq<Timer>, was: seq<Timer>, t: Timer)
      requires multiset(h) == multiset(was) + multiset{t}
      ensures forall x :: x in h <==> x in was || x == t
      ensures t !in was && NoDuplicates(was) ==> NoDuplicates(h)
      ensures |h| == |was| + 1
    {
      assert forall x :: x in h <==> x in multiset(h);
      assert forall x :: x in was <==> x in multiset(was);
      assert |h| == |multiset(h)| && |was| == |multiset(was)|;
    }

    static lemma TopOfPush(h: seq<Timer>, was: seq<Timer>, t: Timer)
      requires HeapOrdered(h) && HeapOrdered(was) && multiset(h) == multiset(was) + multiset{t}
      ensures h != []
      ensures h[0].expiration == if was != [] && was[0].expiration <= t.expiration then was[0].expiration else t.expiration
    {
      Members(h, was, t);
      assert h[0] in h && t in h;
      forall x | x in h
        ensures !TimerCmp(h[0], x)
      {
        var k :| 0 <= k < |h| && h[k] == x;
        TopIsFirst(h, k);
      }
      if was != [] {
        assert was[0] in h;
        if h[0] in was {
          var k :| 0 <= k < |was| && was[k] == h[0];
          TopIsFirst(was, k);
        }
      }
    }

    /** The alarm follows the top, exactly when the new expiration is still in the future. */
    method AddTimerInLoop(t: Timer, clock: int)
      requires Valid() && t in made && t !in added
      modifies this`timers, this`added, this`expired, this`alarm
      ensures Valid() && multiset(timers) == multiset(old(timers)) + multiset{t}
      ensures added == old(added) + {t} && expired == old(expired) - {t}
      ensures TheHorizon() == AfterAdd(old(TheHorizon()), t.expiration, clock)
      ensures old(Agreed()) && clock < t.expiration ==> Agreed()
      ensures (old(timers) != [] && old(timers[0].expiration) <= t.expiration) || t.expiration < clock ==> alarm == old(alarm)
      ensures (old(timers) == [] || t.expiration < old(timers[0].expiration)) && clock < t.expiration ==> alarm == Armed(t.expiration)
    {
      var earliestChanged := Insert(t);
      if earliestChanged {
        ResetTimerFd(t.expiration, clock);
      }
    }

    /** The mark is all there is to a cancellation; a timer already gone is left alone. */
    method CancelInLoop(timeId: Timer?)
      requires Valid() && (timeId != null ==> timeId in made)
      modifies this`marked, Made()`deleted, Made()`cancelledAt
      ensures Valid() && (old(Agreed()) ==> Agreed())
      ensures forall t :: t in made ==> t.deleted == (old(t.deleted) || t == timeId)
      ensures marked == old(marked) + if timeId != null then {timeId.seqNum} else {}
    {
      if timeId != null {
        timeId.SetDelete();
        marked := marked + {timeId.seqNum};
      }
    }

    twostate lemma CancelKept(h: nat)
      requires old(Valid()) && old(Kept()) && h < |made| && marked == old(marked) + {h}
      requires made == old(made) && log == old(log) && expired == old(expired) && todo == old(todo) && tick == old(tick)
      requires forall t :: t in made ==> t.deleted == (old(t.deleted) || t == made[h])
      requires forall t :: t in made ==> t.runs == old(t.runs) && t.expiration == old(t.expiration)
      ensures Kept() && h in marked && made[h].seqNum == h
    {
      hide Records, Queue;
      assert forall x :: x in expired ==> x in made;
    }

    /** Takes out every timer due by `now`: returned are exactly the live ones, in queue order; left
        are exactly the later ones. */
    method GetExpired(now: int) returns (due: seq<Timer>)
      requires Valid() && expired == {}
      modifies this`timers, this`expired, this`tick
      ensures Valid() && tick == now
      ensures forall t :: t in timers <==> t in old(timers) && t.expiration > now
      ensures forall t :: t in due <==> t in old(timers) && t.expiration <= now && !t.deleted
      ensures forall t :: t in due ==> Waits(t)
      ensures InOrder(due) && expired == Among(due)
      ensures TheHorizon() == Horizon(alarm, FirstLater(old(timers), now))
    {
      hide Records, Numbered, HeapOrdered, NoDuplicates;
      due := [];
      tick := now;
      while timers != [] && timers[0].expiration <= now
        invariant Valid() && tick == now
        invariant forall t :: t in timers ==> t in old(timers)
        invariant forall t :: t in old(timers) && t !in timers ==> t.expiration <= now && (t.deleted || t in due)
        invariant forall t :: t in due ==> t in old(timers) && t.expiration <= now && !t.deleted && Waits(t)
        invariant InOrder(due) && forall e, t :: e in due && t in timers ==> TimerCmp(t, e)
        invariant expired == Among(due)
        decreases |timers|
      {
        due := TakeTop(due);
      }
      if timers != [] {
        TopBefore();
        assert timers[0] in timers;
      }
      FirstLaterIs(old(timers), now, TheHorizon().top);
    }

    /** One round: the top leaves the queue, and joins the batch unless it was cancelled. */
    method TakeTop(due: seq<Timer>) returns (due': seq<Timer>)
      requires Valid() && timers != [] && expired == Among(due)
      requires InOrder(due) && forall e, t :: e in due && t in timers ==> TimerCmp(t, e)
      modifies this`timers, this`expired
      ensures Valid() && |timers| < |old(timers)| && expired == Among(due')
      ensures forall t :: t in timers <==> t in old(timers) && t != old(timers[0])
      ensures due' == if old(timers[0]).deleted then due else due + [old(timers[0])]
      ensures InOrder(due') && forall e, t :: e in due' && t in timers ==> TimerCmp(t, e)
    {
      hide Records, Numbered;
      var top := timers[0];
      TopBefore();
      due' := due;
      if !top.deleted {
        due' := due + [top];
      }
      Pop();
      expired := Among(due');
    }

    method Pop()
      requires Queue(timers) && timers != []
      modifies this`timers
      ensures Queue(timers) && |timers| < |old(timers)|
      ensures forall t :: t in timers <==> t in old(timers) && t != old(timers[0])
    {
      ghost var was, top := timers, timers[0];
      timers := PopHeap(timers);
      Members(was, timers, top);
      assert multiset(was)[top] == 1;
    }

    /** Everything else in the queue comes out strictly after the top. */
    lemma TopBefore()
      requires Valid() && timers != []
      ensures forall t :: t in timers && t != timers[0] ==> TimerCmp(t, timers[0])
      ensures forall t :: t in timers ==> timers[0].expiration <= t.expiration
      ensures forall t :: t in timers && t != timers[0] && t.expiration == timers[0].expiration ==> timers[0].seqNum < t.seqNum
    {
      assert timers[0] in timers;
      forall t | t in timers
        ensures t != timers[0] ==> TimerCmp(t, timers[0])
        ensures timers[0].expiration <= t.expiration
        ensures t != timers[0] && t.expiration == timers[0].expiration ==> timers[0].seqNum < t.seqNum
      {
        var k :| 0 <= k < |timers| && timers[k] == t;
        TopIsFirst(timers, k);
        assert t in made && timers[0] in made;
      }
    }

    // ---- A pass ----

    /** While anything is queued the alarm goes off no later than any of it is due. */
    lemma AlarmCovers()
      requires Valid() && Agreed() && timers != []
      ensures alarm.Armed? && forall t :: t in timers ==> alarm.at <= t.expiration
    {
      TopBefore();
    }

    /** One thing a callback does: a timer more, or at most one marked. */
    method Perform(a: Action)
      requires Valid() && Kept()
      modifies this`timers, this`added, this`alarm, this`made, this`expired, this`marked
      modifies Made()`deleted, Made()`cancelledAt
      ensures Valid() && Kept() && Grown(old(made), old(timers), old(added), made, timers, added) && expired == old(expired)
      ensures TheBook() == AfterAction(old(TheBook()), a)
      ensures |made| == |old(made)| + (if a.Add? then 1 else 0) && old(made) <= made
      ensures a.Add? ==> var t := made[|old(made)|];
                fresh(t) && t in timers && t.expiration == t.when_ == a.when_ && t.interval == a.interval
      ensures forall i :: 0 <= i < |made| ==>
                (made[i].deleted <==> i < |old(made)| && (old(made[i].deleted) || a == Cancel(i)))
      ensures a.Add? ==> var first := old(timers) == [] || a.when_ < old(timers[0].expiration);
                && (!first || a.when_ < a.clock ==> alarm == old(alarm))
                && (first && a.clock < a.when_ ==> alarm == Armed(a.when_))
      ensures a.Cancel? ==> alarm == old(alarm)
    {
      hide Valid, Kept, Grown, AfterAction;
      match a {
        case Add(when_, interval, clock) =>
          PerformAdd(a);
        case Cancel(handle) =>
          PerformCancel(handle);
      }
    }

    method PerformAdd(a: Action)
      requires Valid() && Kept() && a.Add?
      modifies this`timers, this`added, this`alarm, this`made, this`expired
      ensures Valid() && Kept() && Grown(old(made), old(timers), old(added), made, timers, added) && expired == old(expired)
      ensures |made| == |old(made)| + 1 && old(made) <= made
      ensures var t := made[|old(made)|];
              fresh(t) && t in timers && t.expiration == t.when_ == a.when_ && t.interval == a.interval && !t.deleted
      ensures TheBook() == AfterAction(old(TheBook()), a)
      ensures var first := old(timers) == [] || a.when_ < old(timers[0].expiration);
              && (!first || a.when_ < a.clock ==> alarm == old(alarm))
              && (first && a.clock < a.when_ ==> alarm == Armed(a.when_))
    {
      hide Marked, Logged, Ready, Queue, Records, Numbered;
      var t := NewTimer(a.when_, a.interval);
      KeptNew(t);
      ghost var was := timers;
      assert t !in expired && expired - {t} == expired;
      AddTimerInLoop(t, a.clock);
      Members(timers, was, t);
      assert made[|old(made)|..] == [t];
    }

    method PerformCancel(handle: nat)
      requires Valid() && Kept()
      modifies this`marked, Made()`deleted, Made()`cancelledAt
      ensures Valid() && Kept() && Grown(made, timers, added, made, timers, added)
      ensures TheBook() == AfterAction(old(TheBook()), Cancel(handle))
      ensures forall i :: 0 <= i < |made| ==> (made[i].deleted <==> old(made[i].deleted) || i == handle)
    {
      hide Valid, Kept;
      label before:
      if handle < |made| {
        var t := made[handle];
        CancelInLoop(t);
        SameHandle@before(handle);
        CancelKept@before(handle);
      }
    }

    twostate lemma SameHandle(h: nat)
      requires old(Valid()) && h < |old(made)| && made == old(made)
      ensures made[h].seqNum == h && forall i :: 0 <= i < |made| && made[i] == made[h] ==> i == h
    {
    }

    /** Timers have been made and added, but only new ones, and all the new ones. */
    static ghost predicate Grown(made: seq<Timer>, timers: seq<Timer>, added: set<Timer>,
                                 made': seq<Timer>, timers': seq<Timer>, added': set<Timer>)
    {
      && made <= made'
      && Among(timers') == Among(timers) + Among(made'[|made|..])
      && added' == added + Among(made'[|made|..])
    }

    static lemma GrownChain(m0: seq<Timer>, t0: seq<Timer>, a0: set<Timer>, m1: seq<Timer>, t1: seq<Timer>, a1: set<Timer>,
                            m2: seq<Timer>, t2: seq<Timer>, a2: set<Timer>)
      requires Grown(m0, t0, a0, m1, t1, a1) && Grown(m1, t1, a1, m2, t2, a2)
      ensures Grown(m0, t0, a0, m2, t2, a2) && |m0| <= |m1| && m1 <= m2
    {
      assert m2[|m0|..] == m1[|m0|..] + m2[|m1|..];
    }

    static lemma GrownNone(m: seq<Timer>, t: seq<Timer>, a: set<Timer>)
      ensures Grown(m, t, a, m, t, a)
    {
    }

    /** One timer, given by its handle, has run at this tick. */
    twostate predicate HasRun(h: nat)
      reads this, made
    {
      && made == old(made) && added == old(added) && expired == old(expired) && timers == old(timers)
      && tick == old(tick) && marked == old(marked)
      && h < |made| && made[h] in old(todo) && !made[h].deleted && todo == old(todo) - {made[h]}
      && log == old(log) + [Tick(h, tick)]
      && forall x :: x in made ==>
           && x.deleted == old(x.deleted) && x.expiration == old(x.expiration) && x.cancelledAt == old(x.cancelledAt)
           && x.runs == old(x.runs) + if x == made[h] then [tick] else []
    }

    twostate lemma RunValid(h: nat)
      requires old(Valid()) && old(Kept()) && HasRun(h)
      ensures Valid()
    {
      hide Marked, Logged;
      assert forall x :: x in timers ==> x != made[h] && x in made;
    }

    twostate lemma RunKept(h: nat)
      requires old(Valid()) && old(Kept()) && HasRun(h)
      ensures Kept()
    {
      hide Records, Queue, Logged, Ready;
      RunLogged(h);
      RunReady(h);
    }

    twostate lemma RunLogged(h: nat)
      requires old(Valid()) && old(Kept()) && HasRun(h)
      ensures Logged(made, log)
    {
      hide Records, Queue, Marked, Ready;
      forall x | x in made ensures x.runs == Times(log, x.seqNum) {
        TimesOne(old(log), Tick(h, tick), x.seqNum);
      }
    }

    twostate lemma RunReady(h: nat)
      requires old(Valid()) && old(Kept()) && HasRun(h)
      ensures Ready(todo, expired, tick)
    {
      hide Records, Queue, Marked, Logged;
      assert forall x :: x in expired ==> x in made;
    }

    /** The run itself. */
    method Record(t: Timer)
      requires Valid() && Kept() && t in todo && !t.deleted
      modifies this`log, this`todo, {t}`runs
      ensures Valid() && Kept() && log == old(log) + [Tick(t.seqNum, tick)] && todo == old(todo) - {t}
      ensures TheHorizon() == old(TheHorizon())
    {
      hide Valid, Kept;
      Placement(t);
      log := log + [Tick(t.seqNum, tick)];
      t.runs := t.runs + [tick];
      todo := todo - {t};
      RunValid(t.seqNum);
      RunKept(t.seqNum);
    }

    /** A run of one due timer, and whatever its callback does. */
    method RunOne(t: Timer, actions: seq<Action>)
      requires Valid() && Kept() && t in todo && !t.deleted
      modifies this`timers, this`added, this`alarm, this`made, this`expired, this`marked, this`log, this`todo
      modifies Made()`deleted, Made()`cancelledAt, {t}`runs
      ensures Valid() && Kept() && Grown(old(made), old(timers), old(added), made, timers, added) && expired == old(expired)
      ensures old(made) <= made && forall i :: |old(made)| <= i < |made| ==> fresh(made[i]) && made[i].expiration == made[i].when_
      ensures todo == old(todo) - {t}
      ensures TheBook() == AfterActions(old(TheBook()).(log := old(log) + [Tick(t.seqNum, tick)]), actions, |actions|)
    {
      hide Valid, Kept, Grown, AfterAction, TheHorizon, Orders;
      Record(t);
      GrownNone(made, timers, added);
      ghost var b := TheBook();
      for k := 0 to |actions|
        invariant Valid() && Kept() && Grown(old(made), old(timers), old(added), made, timers, added) && expired == old(expired)
        invariant forall i :: |old(made)| <= i < |made| ==> fresh(made[i]) && made[i].expiration == made[i].when_
        invariant old(made) <= made && todo == old(todo) - {t}
        invariant TheBook() == AfterActions(b, actions, k)
      {
        ghost var m, q, d := made, timers, added;
        Perform(actions[k]);
        GrownChain(old(made), old(timers), old(added), m, q, d, made, timers, added);
      }
    }

    /** The batch in order: a timer cancelled meanwhile by an earlier callback of the same batch that
        ran is passed over, and no other; the timers that the callbacks ask for are made and queued. */
    method RunDue(due: seq<Timer>, script: seq<seq<Action>>)
      requires Valid() && Kept() && expired == todo == Among(due) && InOrder(due)
      modifies this`timers, this`added, this`alarm, this`made, this`expired, this`marked, this`log, this`todo
      modifies Made()`deleted, Made()`cancelledAt, Among(due)`runs
      ensures Valid() && Kept() && Grown(old(made), old(timers), old(added), made, timers, added) && expired == old(expired)
      ensures forall i :: |old(made)| <= i < |made| ==> fresh(made[i]) && made[i].expiration == made[i].when_
      ensures todo == {}
      ensures TheBook() == AfterBatch(old(TheBook()), script, SeqNums(due), tick, |due|)
    {
      hide Valid, Kept, Grown, InOrder, Distinct, AfterTurn, TheHorizon, Orders;
      GrownNone(made, timers, added);
      InOrderDistinct(due);
      assert due[0..] == due;
      for i := 0 to |due|
        invariant Valid() && Kept() && Grown(old(made), old(timers), old(added), made, timers, added) && expired == old(expired)
        invariant forall k :: |old(made)| <= k < |made| ==> fresh(made[k]) && made[k].expiration == made[k].when_
        invariant old(made) <= made && todo == Among(due[i..])
        invariant TheBook() == AfterBatch(old(TheBook()), script, SeqNums(due), tick, i)
      {
        ghost var m, q, d := made, timers, added;
        AmongStep(due, i);
        RunNext(due[i], Script(script, i));
        GrownChain(old(made), old(timers), old(added), m, q, d, made, timers, added);
      }
    }

    static ghost predicate Distinct(due: seq<Timer>) {
      forall i, j :: 0 <= i < j < |due| ==> due[i] != due[j]
    }

    static lemma AmongStep(due: seq<Timer>, i: nat)
      requires Distinct(due) && i < |due|
      ensures due[i] in Among(due[i..]) && Among(due[i + 1..]) == Among(due[i..]) - {due[i]}
    {
      assert due[i..] == [due[i]] + due[i + 1..];
      assert forall k :: i + 1 <= k < |due| ==> due[i + 1..][k - i - 1] == due[k];
    }

    static lemma InOrderDistinct(due: seq<Timer>)
      requires InOrder(due)
      ensures Distinct(due)
    {
      forall i, j | 0 <= i < j < |due| ensures due[i] != due[j] {
        assert TimerCmp(due[j], due[i]);
      }
    }

    /** The body of the pass's loop. */
    method RunNext(key: Timer, actions: seq<Action>)
      requires Valid() && Kept() && key in todo
      modifies this`timers, this`added, this`alarm, this`made, this`expired, this`marked, this`log, this`todo
      modifies Made()`deleted, Made()`cancelledAt, {key}`runs
      ensures Valid() && Kept() && Grown(old(made), old(timers), old(added), made, timers, added) && expired == old(expired)
      ensures forall k :: |old(made)| <= k < |made| ==> fresh(made[k]) && made[k].expiration == made[k].when_
      ensures old(made) <= made && todo == old(todo) - {key}
      ensures TheBook() == AfterTurn(old(TheBook()), key.seqNum, actions, tick)
    {
      hide Grown, Valid, Kept, TheHorizon, AfterActions, Orders;
      Placement(key);
      if !key.deleted {
        RunOne(key, actions);
      } else {
        PassOver(key);
        GrownNone(made, timers, added);
      }
    }

    method PassOver(key: Timer)
      requires Valid() && Kept() && key.deleted
      modifies this`todo
      ensures Valid() && Kept() && todo == old(todo) - {key} && TheBook() == old(TheBook())
    {
      todo := todo - {key};
    }

    lemma Placement(key: Timer)
      requires Valid() && Kept() && key in todo
      ensures key in made && key.seqNum < |made| && made[key.seqNum] == key && (key.deleted <==> key.seqNum in marked)
    {
    }

    /** Whether a timer of the batch goes back into the queue. */
    predicate Requeued(t: Timer)
      reads t
    {
      t.repeat && !t.deleted
    }

    /** Live repeating timers go back, re-keyed while outside the heap; cancelled ones are cleared
        off the top; the alarm is set for the first live one. */
    method Reset(due: seq<Timer>, now: int, clock: int)
      requires Valid() && now == tick && expired == Among(due) && InOrder(due)
      requires forall t :: t in due && !t.deleted ==> t.runs != [] && LastRun(t) == now
      modifies this`timers, this`added, this`alarm, this`expired, Made()`expiration
      ensures Valid() && expired == {} && added == old(added)
      ensures forall t :: t in timers ==> t in old(timers) || (t in due && Requeued(t))
      ensures forall t :: t in made && !t.deleted && (t in old(timers) || (t in due && t.repeat)) ==> t in timers
      ensures forall t :: t in made ==>
                t.expiration == if t in due && Requeued(t) then now + t.interval else old(t.expiration)
      ensures timers != [] ==> !timers[0].deleted && alarm == ArmedFor(old(alarm), clock, timers[0].expiration)
      ensures timers == [] ==> alarm == old(alarm)
    {
      PutBack(due, now);
      ArmForFirstLive(clock);
    }

    method ArmForFirstLive(clock: int)
      requires Valid()
      modifies this`timers, this`alarm
      ensures Valid()
      ensures forall t :: t in timers ==> t in old(timers)
      ensures forall t :: t in old(timers) && !t.deleted ==> t in timers
      ensures timers != [] ==> !timers[0].deleted && alarm == ArmedFor(old(alarm), clock, timers[0].expiration)
      ensures timers == [] ==> alarm == old(alarm)
    {
      hide Records, Numbered;
      while timers != []
        invariant Valid() && alarm == old(alarm)
        invariant forall t :: t in timers ==> t in old(timers)
        invariant forall t :: t in old(timers) && !t.deleted ==> t in timers
        decreases |timers|
      {
        if !timers[0].deleted {
          ResetTimerFd(timers[0].expiration, clock);
          break;
        } else {
          Pop();
        }
      }
    }

    method PutBack(due: seq<Timer>, now: int)
      requires Valid() && now == tick && expired == Among(due) && InOrder(due)
      requires forall t :: t in due && !t.deleted ==> t.runs != [] && LastRun(t) == now
      modifies this`timers, this`added, this`expired, Made()`expiration
      ensures Valid() && expired == {} && added == old(added)
      ensures forall t :: t in timers <==> t in old(timers) || (t in due && Requeued(t))
      ensures forall t :: t in made ==>
                t.expiration == if t in due && Requeued(t) then now + t.interval else old(t.expiration)
    {
      hide Records, Numbered, Queue;
      for i := 0 to |due|
        invariant Valid() && added == old(added) && expired == Among(due[i..])
        invariant forall t :: t in timers <==> t in old(timers) || (t in due[..i] && Requeued(t))
        invariant forall t :: t in made ==>
                    t.expiration == if t in due[..i] && Requeued(t) then now + t.interval else old(t.expiration)
      {
        var key := due[i];
        assert due[i..] == [key] + due[i + 1..] && due[..i + 1] == due[..i] + [key];
        assert forall j :: i < j < |due| ==> TimerCmp(due[j], key);
        PutBackOne(key, now);
      }
      assert due[..|due|] == due;
    }

    method PutBackOne(key: Timer, now: int)
      requires Valid() && now == tick && key in expired
      requires !key.deleted ==> key.runs != [] && LastRun(key) == now
      modifies this`timers, this`added, this`expired, key`expiration
      ensures Valid() && added == old(added) && expired == old(expired) - {key}
      ensures forall t :: t in timers <==> t in old(timers) || (t == key && Requeued(t))
      ensures key.expiration == if Requeued(key) then now + key.interval else old(key.expiration)
    {
      if key.repeat && !key.deleted {
        key.Restart(now);
        ghost var was := timers;
        var _ := Insert(key);
        Members(timers, was, key);
      } else {
        expired := expired - {key};
      }
    }

    /** Waiting, not cancelled, and due by `now`. */
    ghost predicate Due(t: Timer, now: int)
      reads this, t
    {
      t in timers && t.expiration <= now && !t.deleted
    }

    /** The turns of a batch begin. */
    ghost method BeginTurns(due: seq<Timer>)
      requires Valid() && Marked(made, marked) && Logged(made, log) && expired == Among(due)
      requires forall t :: t in due ==> t.expiration <= tick && Waits(t)
      modifies this`todo
      ensures Valid() && Kept() && todo == Among(due)
    {
      todo := Among(due);
    }

    twostate lemma KeptStays()
      requires old(Kept()) && made == old(made) && marked == old(marked) && log == old(log) && todo == expired == {}
      requires forall t :: t in made ==> t.deleted == old(t.deleted) && t.runs == old(t.runs)
      ensures Kept()
    {
    }

    /** The scheduler as a pass finds it: the due timers out, and a fired alarm read. */
    ghost function Opened(now: int): Book
      reads this, timers
    {
      Book(Orders(made), marked, log, Horizon(AfterRead(alarm, now), FirstLater(timers, now)))
    }

    /** The batch of a pass: exactly the live timers due by `now`, in queue order. */
    twostate predicate Picked(new due: seq<Timer>, now: int) {
      && (forall t :: t in due ==> t in old(timers) && old(Due(t, now)))
      && (forall t :: t in old(timers) && old(Due(t, now)) ==> t in due)
      && old(allocated(due)) && old(Sorted(due))
    }

    twostate lemma PickedMeans(new due: seq<Timer>, now: int)
      requires Picked(due, now)
      ensures forall t :: t in due ==> t in old(timers)
      ensures forall t :: t in old(timers) && !old(t.deleted) ==> (t in due <==> old(t.expiration) <= now)
    {
    }

    /** What its callbacks come to is `left`: which timers have been made, who is marked, and what has
        run. */
    twostate predicate Batched(new due: seq<Timer>, script: seq<seq<Action>>, now: int, left: Book)
      reads this, made, timers
    {
      && Picked(due, now) && left == AfterBatch(old(Opened(now)), script, SeqNums(due), now, |due|)
      && Orders(made) == left.orders && marked == left.marked && log == left.log
      && old(made) <= made && (forall t :: t in old(made) && old(t.deleted) ==> t.deleted)
      && (forall i :: 0 <= i < |made| ==> (made[i].deleted <==> i in left.marked))
      && (forall i :: |old(made)| <= i < |made| ==> fresh(made[i]) && made[i].expiration == made[i].when_)
    }

    /** The callbacks of a pass. */
    method RunPass(now: int, script: seq<seq<Action>>) returns (due: seq<Timer>, ghost left: Book)
      requires Valid() && Kept() && expired == {}
      modifies this, Made()`deleted, Made()`cancelledAt, Made()`runs
      ensures Valid() && Kept() && expired == Among(due) && todo == {} && InOrder(due) && tick == now
      ensures Batched(due, script, now, left)
      ensures forall t :: t in timers ==> (t in old(timers) && t.expiration > now) || t in made[|old(made)|..]
      ensures forall t :: t in old(timers) && t.expiration > now ==> t in timers
      ensures forall i :: |old(made)| <= i < |made| ==> made[i] in timers
      ensures added == old(added) + Among(made[|old(made)|..])
      ensures alarm == left.horizon.alarm && RanOnce(due, now)
      ensures AllLate(script) ==>
                left.horizon.alarm == if old(alarm).Armed? && old(alarm).at <= now then Disarmed else old(alarm)
    {
      hide Valid, Kept, Grown, AfterBatch, FirstLater, Orders, Picked, InOrder;
      QueueMade();
      label before:
      ghost var b := Opened(now);
      due := OpenPass(now);
      ghost var m, q, d := made, timers, added;
      label out:
      RunDue(due, script);
      StillInOrder@out(due);
      left := TheBook();
      GrownMeans(m, q, d, made, timers, added);
      MarksMean();
      RunsMean@before(script, now, due, b);
      if AllLate(script) {
        LateAdds(b, script, SeqNums(due), now, |due|);
      }
      BatchSince(b, script, SeqNums(due), now, |due|);
      MarksStay@before();
    }

    /** The handles marked are those of the timers cancelled. */
    lemma MarksMean()
      requires Valid() && Kept()
      ensures forall i :: 0 <= i < |made| ==> (made[i].deleted <==> i in marked)
    {
    }

    twostate lemma MarksStay()
      requires old(Valid()) && old(Kept()) && Valid() && Kept() && old(made) <= made && old(marked) <= marked
      ensures forall t :: t in old(made) && old(t.deleted) ==> t.deleted
    {
      assert forall t :: t in old(made) ==> t in made;
    }

    static lemma GrownMeans(m0: seq<Timer>, t0: seq<Timer>, a0: set<Timer>, m1: seq<Timer>, t1: seq<Timer>, a1: set<Timer>)
      requires Grown(m0, t0, a0, m1, t1, a1)
      ensures m0 <= m1 && a1 == a0 + Among(m1[|m0|..])
      ensures forall t :: t in t1 ==> t in t0 || t in m1[|m0|..]
      ensures forall t :: t in t0 ==> t in t1
      ensures forall i :: |m0| <= i < |m1| ==> m1[i] in t1
    {
      assert forall t :: t in Among(t1) <==> t in t1;
      assert forall t :: t in Among(t0) <==> t in t0;
      forall i | |m0| <= i < |m1| ensures m1[i] in t1 {
        assert m1[i] in m1[|m0|..];
      }
    }

    twostate lemma StillInOrder(due: seq<Timer>)
      requires forall t :: t in due ==> t.expiration == old(t.expiration)
      ensures InOrder(due) <==> old(InOrder(due))
    {
      assert forall i, j :: 0 <= i < |due| && 0 <= j < |due| ==>
          (TimerCmp(due[j], due[i]) <==> old(TimerCmp(due[j], due[i])));
    }

    twostate lemma StillSorted(due: seq<Timer>)
      requires old(InOrder(due))
      ensures old(Sorted(due))
    {
      forall i, j | 0 <= i < j < |due|
        ensures old(due[i].expiration < due[j].expiration
                    || (due[i].expiration == due[j].expiration && due[i].seqNum < due[j].seqNum))
      {
        assert old(TimerCmp(due[j], due[i]));
      }
    }

    /** A pass opens: the batch is taken out, and nobody has had his turn. */
    method OpenPass(now: int) returns (due: seq<Timer>)
      requires Valid() && Kept() && expired == {}
      modifies this`timers, this`expired, this`tick, this`todo, this`alarm
      ensures Valid() && Kept() && expired == todo == Among(due) <= Made() && InOrder(due) && tick == now
      ensures forall t :: t in timers <==> t in old(timers) && t.expiration > now
      ensures TheHorizon() == Horizon(AfterRead(old(alarm), now), FirstLater(old(timers), now))
      ensures forall t :: t in due ==> t in old(timers)
      ensures Picked(due, now) && Distinct(due) && forall k :: 0 <= k < |due| ==> due[k].seqNum !in marked
    {
      hide Marked, Logged, Queue, Records, Numbered, InOrder, FirstLater;
      LiveUnmarked();
      QueueMade();
      label before:
      ReadTimerFd(now);
      due := GetExpired(now);
      BeginTurns(due);
      forall k | 0 <= k < |due| ensures due[k].seqNum !in marked && due[k] in old(timers) && old(allocated(due[k])) {
        assert due[k] in due;
      }
      assert old(allocated(due));
      StillInOrder@before(due);
      StillSorted@before(due);
      InOrderDistinct(due);
    }

    /** The timerfd's handler: one whole pass, at time `now`, with callbacks that may add and cancel
        timers; `clock` is the time when the alarm is set again. The batch runs as `Batched` says;
        one-shots leave, live repeating timers come back exactly one interval after `now`, timers not
        yet due and those the callbacks added stay, and no live timer is lost. The final alarm follows
        from where the callbacks left it, and is right exactly when it was set in time. */
    method HandleRead(now: int, script: seq<seq<Action>>, clock: int) returns (ghost due: seq<Timer>, ghost left: Book)
      requires Valid() && Kept() && expired == {}
      modifies this, Made()`deleted, Made()`cancelledAt, Made()`runs, Made()`expiration
      ensures Valid() && Kept() && expired == {} && todo == {}
      ensures Batched(due, script, now, left)
      ensures added == old(added) + Among(made[|old(made)|..])
      ensures forall t :: t in timers ==> t in old(timers) || t in made[|old(made)|..]
      ensures forall t :: t in old(timers) && !t.deleted ==> (t in timers <==> old(t.expiration) > now || t.repeat)
      ensures forall i :: |old(made)| <= i < |made| && !made[i].deleted ==> made[i] in timers
      ensures forall t :: t in old(made) ==>
                t.expiration == if t in due && Requeued(t) then now + t.interval else old(t.expiration)
      ensures RanOnce(due, now)
      ensures AllLate(script) ==>
                left.horizon.alarm == if old(alarm).Armed? && old(alarm).at <= now then Disarmed else old(alarm)
      ensures timers == [] || timers[0].expiration < clock ==> alarm == left.horizon.alarm
      ensures timers != [] && timers[0].expiration == clock ==> alarm == Disarmed
      ensures timers != [] && timers[0].expiration > clock ==> alarm == Armed(timers[0].expiration)
      ensures timers != [] ==> !timers[0].deleted
      ensures Agreed() <==> timers == [] || clock < timers[0].expiration
                            || (timers[0].expiration < clock && left.horizon.alarm == Armed(timers[0].expiration))
    {
      hide Valid, Kept, AfterBatch, FirstLater, InOrder, Orders, Picked;
      QueueMade();
      label before:
      var batch;
      batch, left := RunPass(now, script);
      PickedMeans@before(batch, now);
      due := batch;
      NewcomersFresh(|old(made)|);
      FinishPass(batch, now, clock);
    }

    /** Of the timers there were, those of the batch not cancelled have run once, and nobody else. */
    twostate predicate RanOnce(new due: seq<Timer>, now: int)
      reads this, made
    {
      && (forall t :: t in made && t in old(made) && t in due && !t.deleted ==> t.runs == old(t.runs) + [now])
      && (forall t :: t in made && t in old(made) && t !in due ==> t.runs == old(t.runs))
    }

    /** What the specification's log says of each timer's record. */
    twostate lemma RunsMean(new script: seq<seq<Action>>, new now: int, new due: seq<Timer>, new b: Book)
      requires old(Valid()) && old(Kept()) && Valid() && Kept() && old(made) <= made && b.log == old(log)
      requires log == AfterBatch(b, script, SeqNums(due), now, |due|).log
      requires marked == AfterBatch(b, script, SeqNums(due), now, |due|).marked
      requires forall i, j :: 0 <= i < j < |due| ==> due[i] != due[j]
      requires forall t :: t in due ==> t in old(made)
      ensures RanOnce(due, now)
    {
      hide AfterBatch, Queue, Records, Times, Ran;
      var batch := SeqNums(due);
      assert forall j :: 0 <= j < |due| ==> due[j] in due;
      forall t | t in old(made)
        ensures t in due && !t.deleted ==> t.runs == old(t.runs) + [now]
        ensures t !in due ==> t.runs == old(t.runs)
      {
        assert t in made;
        BatchTimes(b, script, batch, now, |batch|, t.seqNum);
        if t in due && !t.deleted {
          var j :| 0 <= j < |due| && due[j] == t;
          MarksGrow(b, script, batch, now, j, |batch|);
          RanIf(b, script, batch, now, j);
        }
      }
    }

    /** From the last callback to the end. */
    method FinishPass(due: seq<Timer>, now: int, clock: int)
      requires Valid() && Kept() && expired == Among(due) && todo == {} && InOrder(due) && tick == now
      modifies this`timers, this`added, this`alarm, this`expired, Made()`expiration
      ensures Valid() && Kept() && expired == {} && added == old(added)
      ensures forall t :: t in timers ==> t in old(timers) || (t in due && Requeued(t))
      ensures forall t :: t in made && !t.deleted && (t in old(timers) || (t in due && t.repeat)) ==> t in timers
      ensures forall t :: t in made ==>
                t.expiration == if t in due && Requeued(t) then now + t.interval else old(t.expiration)
      ensures forall t :: t in old(timers) ==> t !in due && t.expiration == old(t.expiration)
      ensures timers != [] ==> !timers[0].deleted && alarm == ArmedFor(old(alarm), clock, timers[0].expiration)
      ensures timers == [] ==> alarm == old(alarm)
    {
      hide Valid, Kept, InOrder;
      label ran:
      HaveRun(due);
      Reset(due, now, clock);
      KeptStays@ran();
    }

    lemma QueueMade()
      requires Valid()
      ensures forall t :: t in timers ==> t in made && t in added
    {
    }

    lemma HaveRun(due: seq<Timer>)
      requires Valid() && Kept() && expired == Among(due) && todo == {}
      ensures forall t :: t in due && !t.deleted ==> t.runs != [] && LastRun(t) == tick
      ensures Among(due) <= Made() && forall t :: t in timers ==> t in made && t !in due
    {
    }

    lemma NewcomersFresh(n: nat)
      requires Valid() && n <= |made|
      ensures forall i :: n <= i < |made| ==> made[i] in made && made[i] in made[n..]
      ensures forall t :: t in made[n..] ==> t !in made[..n]
    {
    }

    /** The read takes an alarm that has fired; re-set since, it has nothing to give. */
    method ReadTimerFd(now: int)
      modifies this`alarm
      ensures alarm == AfterRead(old(alarm), now)
      ensures old(alarm).Armed? && old(alarm).at <= now ==> alarm == Disarmed
      ensures !(old(alarm).Armed? && old(alarm).at <= now) ==> alarm == old(alarm)
    {
      if alarm.Armed? && alarm.at <= now {
        alarm := Disarmed;
      }
    }

    /** What every reachable state satisfies: of each timer, ticks an interval apart, a one-shot at
        most one run, no run after cancellation; and a queue that is a heap of timers not yet due
        again. */
    lemma Discipline(t: Timer)
      requires Valid() && t in made
      ensures forall i, j :: 0 <= i < j < |t.runs| ==> t.runs[i] + t.interval * (j - i) <= t.runs[j]
      ensures !t.repeat ==> |t.runs| <= 1
      ensures t.deleted ==> |t.runs| == t.cancelledAt
      ensures t in timers && t.runs != [] ==> t.repeat && LastRun(t) + t.interval <= t.expiration
    {
      forall i, j | 0 <= i < j < |t.runs|
        ensures t.runs[i] + t.interval * (j - i) <= t.runs[j]
      {
        Spacing(t, i, j);
      }
    }

    static lemma {:induction false} Spacing(t: Timer, i: nat, j: nat)
      requires Paced(t) && i < j < |t.runs|
      ensures t.runs[i] + t.interval * (j - i) <= t.runs[j]
      decreases j
    {
      assert t.runs[j - 1] + t.interval <= t.runs[j];
      if i < j - 1 {
        Spacing(t, i, j - 1);
        assert t.interval * (j - i) == t.interval * (j - 1 - i) + t.interval;
      }
    }

    /** The alarm can be lost: two live timers due at 10 and 12, a pass at 10 whose callbacks take
        until 13, and the second timer waits with no alarm set. */
    static method Overrun() returns (m: TimerManager)
      ensures fresh(m) && m.Valid() && m.timers != [] && !m.timers[0].deleted && m.timers[0].expiration == 12
      ensures m.alarm == Disarmed
    {
      hide TimerManager.Valid, TimerManager.Kept, InOrder, Grown, Among, FirstLater;
      m := new TimerManager();
      ghost var m0, q0, d0 := m.made, m.timers, m.added;
      m.PerformAdd(Add(10, 0, 0));
      GrownMeans(m0, q0, d0, m.made, m.timers, m.added);
      ghost var m1, q1, d1, t := m.made, m.timers, m.added, m.made[0];
      m.PerformAdd(Add(12, 0, 0));
      GrownMeans(m1, q1, d1, m.made, m.timers, m.added);
      ghost var u := m.made[1];
      m.TimersKnown();
      assert m.made == [t, u] && t.expiration == 10 && u.expiration == 12 && !u.deleted && !t.repeat;
      assert m.made[1] in m.timers && forall x :: x in m.timers ==> x == t || x == u;
      assert m.alarm == Armed(10);
      Second(m, t, u);
    }

    static method Second(m: TimerManager, ghost t: Timer, ghost u: Timer)
      requires m.Valid() && m.Kept() && m.expired == {} && m.made == [t, u] && m.alarm == Armed(10)
      requires t.expiration == 10 && u.expiration == 12 && !u.deleted && !t.repeat
      requires u in m.timers && forall x :: x in m.timers ==> x == t || x == u
      modifies m, m.Made()`deleted, m.Made()`cancelledAt, m.Made()`runs, m.Made()`expiration
      ensures m.Valid() && m.timers != [] && m.timers[0] == u && u.expiration == 12 && !u.deleted && m.alarm == Disarmed
    {
      hide TimerManager.Valid, TimerManager.Kept, AfterBatch, InOrder, Among, FirstLater;
      ghost var b := m.Opened(10);
      m.MarksMean();
      var due, left := m.HandleRead(10, [], 13);
      QuietPass(b, SeqNums(due), 10, |due|);
      assert |Orders(m.made)| == |m.made| && m.made[1] == u;
      assert m.made == [t, u];
      assert u !in due && u in m.timers && m.timers[0] in m.timers;
    }

    // ---- Whole runs ----

    /** Whether all expirations and intervals of timers are among those foreseen. */
    ghost predicate Foreseen(instants: set<int>, intervals: set<int>)
      reads this, made
    {
      forall t :: t in made ==> t.expiration in instants && (t.repeat ==> t.interval in intervals)
    }

    /** Made, and not yet added. */
    ghost predicate Waiting(pending: seq<Timer>, whens: seq<int>)
      reads this, pending
    {
      && |pending| == |whens|
      && (forall i :: 0 <= i < |pending| ==> pending[i] in made && pending[i] !in added && pending[i].expiration == whens[i])
      && Distinct(pending)
    }

    /** When each waiting timer that is not cancelled is due. */
    ghost function TheLive(): map<nat, int>
      reads this, made
    {
      map h: nat | h < |made| && made[h] in timers && !made[h].deleted :: made[h].expiration
    }

    ghost function TheSched(pending: seq<Timer>): Sched
      reads this, made
    {
      Sched(Orders(made), marked, log, TheLive(), SeqNums(pending))
    }

    twostate lemma LivePassed(new now: int, new due: seq<Timer>, new left: Book)
      requires old(Valid()) && Valid() && old(made) <= made && Orders(made) == left.orders
      requires forall i :: 0 <= i < |made| ==> (made[i].deleted <==> i in left.marked)
      requires forall t :: t in old(made) && old(t.deleted) ==> t.deleted
      requires forall t :: t in due ==> t in old(timers)
      requires forall t :: t in old(timers) && !old(t.deleted) ==> (t in due <==> old(t.expiration) <= now)
      requires forall t :: t in timers ==> t in old(timers) || t in made[|old(made)|..]
      requires forall t :: t in old(timers) && !t.deleted ==> (t in timers <==> old(t.expiration) > now || t.repeat)
      requires forall i :: |old(made)| <= i < |made| ==> made[i].expiration == made[i].when_ && (!made[i].deleted ==> made[i] in timers)
      requires forall t :: t in old(made) ==>
                 t.expiration == if t in due && Requeued(t) then now + t.interval else old(t.expiration)
      ensures TheLive() == LiveAfter(old(TheLive()), |old(made)|, left.orders, left.marked, now)
    {
      hide Queue, Records;
      forall h: nat
        ensures h in TheLive() <==> NextDue(old(TheLive()), |old(made)|, left.orders, left.marked, now, h).Some?
        ensures h in TheLive() ==> TheLive()[h] == NextDue(old(TheLive()), |old(made)|, left.orders, left.marked, now, h).value
      {
        if h < |old(made)| {
          assert made[h] == old(made)[h] && made[h] in old(made) && made[h] in made;
          assert made[h] !in made[|old(made)|..];
          assert left.orders[h].interval == made[h].interval;
        } else if h < |made| {
          assert left.orders[h].when_ == made[h].when_;
        }
      }
    }

    /** The batch in order, by handles. */
    twostate lemma PassBatch(new now: int, new due: seq<Timer>)
      requires old(Valid()) && Picked(due, now)
      ensures IsBatch(old(TheLive()), now, SeqNums(due))
    {
      hide Queue, Records;
      assert forall t :: t in due ==> t in old(timers) && t in old(added) && t in old(made);
      assert forall j :: 0 <= j < |due| ==> due[j] in due;
      forall h ensures h in SeqNums(due) <==> h in old(TheLive()) && old(TheLive())[h] <= now {
        if h in SeqNums(due) {
          var j :| 0 <= j < |due| && SeqNums(due)[j] == h;
          assert old(made)[h] == due[j];
        }
        if h in old(TheLive()) && old(TheLive())[h] <= now {
          assert old(Due(made[h], now));
          var j :| 0 <= j < |due| && due[j] == old(made)[h];
          assert SeqNums(due)[j] == h;
        }
      }
    }

    /** A pass whose re-arming is in time leaves the alarm in agreement with the queue. */
    method Pass(now: int, script: seq<seq<Action>>, after: int, pending: seq<Timer>, ghost whens: seq<int>,
                ghost instants: set<int>, ghost intervals: set<int>)
      requires Valid() && Kept() && expired == {} && Waiting(pending, whens)
      modifies this, Made()`deleted, Made()`cancelledAt, Made()`runs, Made()`expiration
      ensures Valid() && Kept() && expired == {} && Waiting(pending, whens)
      ensures Since(old(marked), old(log), marked, log) && fresh(Made() - old(Made())) && old(made) <= made
      ensures Goes(PassEvent(now, script, after), old(TheSched(pending)), TheSched(pending))
      ensures PassInTime(now, script, after, instants, intervals) && old(Foreseen(instants, intervals)) ==>
                Agreed() && Foreseen(instants, intervals)
    {
      hide Valid, Kept, AfterBatch, FirstLater, InOrder, PassInTime, Distinct, Since;
      QueueMade();
      LiveUnmarked();
      ghost var b := Opened(now);
      label before:
      var due, left := HandleRead(now, script, after);
      PassedGoes@before(now, script, after, due, left, pending);
      forall k | 0 <= k < |due| ensures SeqNums(due)[k] !in old(marked) {
        assert due[k] in due;
      }
      NewcomersFresh(|old(made)|);
      BatchSince(b, script, SeqNums(due), now, |due|);
      if PassInTime(now, script, after, instants, intervals) && old(Foreseen(instants, intervals)) {
        PassAddsInTime(b, script, SeqNums(due), now, after, instants, intervals);
        NewInTime(made, |old(made)|, after, instants, intervals);
        TimersKnown();
        InTimeUse(now, script, after, instants, intervals);
        assert Foreseen(instants, intervals);
        assert timers != [] ==> after < timers[0].expiration;
      }
    }

    twostate lemma PassedGoes(new now: int, new script: seq<seq<Action>>, new after: int, new due: seq<Timer>, new left: Book, pending: seq<Timer>)
      requires old(Valid()) && Valid() && Batched(due, script, now, left)
      requires forall t :: t in timers ==> t in old(timers) || t in made[|old(made)|..]
      requires forall t :: t in old(timers) && !t.deleted ==> (t in timers <==> old(t.expiration) > now || t.repeat)
      requires forall i :: |old(made)| <= i < |made| && !made[i].deleted ==> made[i] in timers
      requires forall t :: t in old(made) ==>
                 t.expiration == if t in due && Requeued(t) then now + t.interval else old(t.expiration)
      ensures Goes(PassEvent(now, script, after), old(TheSched(pending)), TheSched(pending))
    {
      hide Queue, Records, Numbered, AfterBatch, Orders, FirstLater, Picked, IsBatch, LiveAfter;
      PickedMeans(due, now);
      PassBatch(now, due);
      LivePassed(now, due, left);
      var s := old(TheSched(pending));
      AlarmApart(BookOf(s), old(Opened(now)), script, SeqNums(due), now, |due|);
      assert |old(Orders(made))| == |old(made)| by {
        OrdersLength(old(made));
      }
      PassGoes(s, TheSched(pending), now, script, after, SeqNums(due));
    }

    static lemma OrdersLength(made: seq<Timer>)
      ensures |Orders(made)| == |made|
    {
    }

    static lemma PassGoes(s: Sched, s': Sched, now: int, script: seq<seq<Action>>, after: int, batch: seq<nat>)
      requires IsBatch(s.live, now, batch) && s' == AfterPass(s, now, script, batch)
      ensures Goes(PassEvent(now, script, after), s, s')
    {
    }

    static lemma NewInTime(made: seq<Timer>, n: nat, after: int, instants: set<int>, intervals: set<int>)
      requires forall i :: n <= i < |made| ==> OrderInTime(Orders(made)[i], after, instants, intervals)
      ensures forall i :: n <= i < |made| ==>
                after < made[i].when_ && made[i].when_ in instants && (made[i].interval > 0 ==> made[i].interval in intervals)
    {
      assert forall i :: n <= i < |made| ==> Orders(made)[i] == Order(made[i].when_, made[i].interval);
    }

    lemma LiveUnmarked()
      requires Valid() && Kept()
      ensures forall t :: t in timers && !t.deleted ==> t.seqNum !in marked
      ensures forall h :: h in marked ==> h < |made|
    {
    }

    lemma TimersKnown()
      requires Valid()
      ensures forall t :: t in made ==> (t.repeat <==> t.interval > 0)
      ensures timers != [] ==> timers[0] in timers && timers[0] in made
    {
    }

    /** Any one event. */
    method Take(e: Event, pending: seq<Timer>, ghost whens: seq<int>, ghost instants: set<int>, ghost intervals: set<int>)
      returns (pending': seq<Timer>)
      requires Valid() && Kept() && expired == {} && Waiting(pending, whens)
      modifies this, Made()`deleted, Made()`cancelledAt, Made()`runs, Made()`expiration
      ensures Valid() && Kept() && expired == {} && Waiting(pending', AfterEvent(whens, e))
      ensures Since(old(marked), old(log), marked, log) && fresh(Made() - old(Made())) && old(made) <= made
      ensures e.CancelEvent? && e.c < |old(made)| ==> e.c in marked
      ensures Goes(e, old(TheSched(pending)), TheSched(pending'))
      ensures EventInTime(e, whens, instants, intervals) && old(Foreseen(instants, intervals)) && old(Agreed()) ==>
                Agreed() && Foreseen(instants, intervals)
    {
      hide Valid, Kept, Waiting, Since, PassInTime, Agreed, Foreseen, Goes, TheSched;
      match e {
        case MakeEvent(when_, interval) => pending' := TakeMake(when_, interval, pending, whens, instants, intervals);
        case AddEvent(i, clock) => pending' := TakeAdd(i, clock, pending, whens, instants, intervals);
        case CancelEvent(c) =>
          TakeCancel(c, pending, whens, instants, intervals);
          pending' := pending;
        case PassEvent(now, script, after) =>
          Pass(now, script, after, pending, whens, instants, intervals);
          pending' := pending;
      }
    }

    method TakeMake(when_: int, interval: int, pending: seq<Timer>, ghost whens: seq<int>,
                    ghost instants: set<int>, ghost intervals: set<int>) returns (pending': seq<Timer>)
      requires Valid() && Kept() && expired == {} && Waiting(pending, whens)
      modifies this`made
      ensures Valid() && Kept() && Waiting(pending', whens + [when_])
      ensures Since(marked, log, marked, log) && fresh(Made() - old(Made())) && old(made) <= made
      ensures Goes(MakeEvent(when_, interval), old(TheSched(pending)), TheSched(pending'))
      ensures when_ in instants && (interval > 0 ==> interval in intervals) && old(Foreseen(instants, intervals)) && old(Agreed()) ==>
                Agreed() && Foreseen(instants, intervals)
    {
      hide Queue, Records, Marked, Logged, Ready, Numbered;
      TimersKnown();
      label before:
      var t := NewTimer(when_, interval);
      TimersKnown();
      KeptNew(t);
      pending' := pending + [t];
      MadeGoes@before(t, pending);
    }

    twostate lemma MadeGoes(new t: Timer, pending: seq<Timer>)
      requires old(Valid()) && made == old(made) + [t] && timers == old(timers) && t !in timers
      requires marked == old(marked) && log == old(log) && t.seqNum == |old(made)|
      requires forall x :: x in old(made) ==> x.deleted == old(x.deleted) && x.expiration == old(x.expiration)
      ensures Goes(MakeEvent(t.when_, t.interval), old(TheSched(pending)), TheSched(pending + [t]))
    {
      hide Queue, Records;
      var o := Order(t.when_, t.interval);
      assert Orders(made) == old(Orders(made)) + [o];
      assert SeqNums(pending + [t]) == SeqNums(pending) + [|old(made)|];
      forall h: nat ensures h in TheLive() <==> h in old(TheLive())
                    ensures h in TheLive() ==> TheLive()[h] == old(TheLive())[h] {
        if h < |old(made)| {
          assert made[h] == old(made)[h] && made[h] in old(made);
        }
      }
      assert TheLive() == old(TheLive());
    }

    method TakeAdd(i: nat, clock: int, pending: seq<Timer>, ghost whens: seq<int>,
                   ghost instants: set<int>, ghost intervals: set<int>) returns (pending': seq<Timer>)
      requires Valid() && Kept() && expired == {} && Waiting(pending, whens)
      modifies this`timers, this`added, this`expired, this`alarm
      ensures Valid() && Kept() && expired == {} && Waiting(pending', AfterEvent(whens, AddEvent(i, clock)))
      ensures Since(marked, log, marked, log)
      ensures Goes(AddEvent(i, clock), old(TheSched(pending)), TheSched(pending'))
      ensures (i < |whens| ==> clock < whens[i]) && old(Foreseen(instants, intervals)) && old(Agreed()) ==>
                Agreed() && Foreseen(instants, intervals)
    {
      hide Queue, Records, Marked, Logged, Ready, Numbered;
      pending' := pending;
      if i < |pending| {
        var t := pending[i];
        pending' := pending[..i] + pending[i + 1..];
        Without(pending, i, pending');
        assert expired - {t} == expired;
        label before:
        ghost var was := timers;
        Unrun(t);
        AddTimerInLoop(t, clock);
        Members(timers, was, t);
        AddedGoes@before(i, clock, pending);
      }
    }

    lemma Unrun(t: Timer)
      requires Valid() && t in made && t !in added
      ensures t.expiration == t.when_
    {
    }

    twostate lemma AddedGoes(new i: nat, new clock: int, pending: seq<Timer>)
      requires old(Valid()) && old(Kept()) && i < |pending| && made == old(made) && marked == old(marked) && log == old(log)
      requires forall j :: 0 <= j < |pending| ==> pending[j] in made && pending[j] !in old(added)
      requires forall x :: x in timers <==> x in old(timers) || x == pending[i]
      requires pending[i].expiration == pending[i].when_
      requires forall x :: x in made ==> x.deleted == old(x.deleted) && x.expiration == old(x.expiration)
      ensures Goes(AddEvent(i, clock), old(TheSched(pending)), TheSched(pending[..i] + pending[i + 1..]))
    {
      hide Queue, Records, Logged, Ready;
      var t, s := pending[i], old(TheSched(pending));
      var rest := pending[..i] + pending[i + 1..];
      assert SeqNums(rest) == SeqNums(pending)[..i] + SeqNums(pending)[i + 1..];
      assert Orders(made)[t.seqNum] == Order(t.when_, t.interval);
      forall h: nat ensures h in TheLive() <==> h in AfterAdded(s, i).live
                    ensures h in TheLive() ==> TheLive()[h] == AfterAdded(s, i).live[h] {
        if h < |made| {
          assert made[h] in made && (made[h] == t <==> h == t.seqNum);
        }
      }
      assert TheLive() == AfterAdded(s, i).live;
    }

    static lemma Without(pending: seq<Timer>, i: nat, rest: seq<Timer>)
      requires Distinct(pending) && i < |pending| && rest == pending[..i] + pending[i + 1..]
      ensures Distinct(rest) && forall k :: 0 <= k < |rest| ==> rest[k] != pending[i]
    {
    }

    method TakeCancel(c: nat, pending: seq<Timer>, ghost whens: seq<int>, ghost instants: set<int>, ghost intervals: set<int>)
      requires Valid() && Kept() && expired == {} && Waiting(pending, whens)
      modifies this`marked, Made()`deleted, Made()`cancelledAt
      ensures Valid() && Kept() && Waiting(pending, whens)
      ensures Since(old(marked), log, marked, log) && marked == old(marked) + if c < |made| then {c} else {}
      ensures Goes(CancelEvent(c), old(TheSched(pending)), TheSched(pending))
      ensures old(Foreseen(instants, intervals)) && old(Agreed()) ==> Agreed() && Foreseen(instants, intervals)
    {
      hide Valid, Kept;
      label before:
      if c < |made| {
        CancelInLoop(made[c]);
        SameHandle@before(c);
        CancelKept@before(c);
        CancelledGoes@before(c, pending);
      }
    }

    twostate lemma CancelledGoes(new c: nat, pending: seq<Timer>)
      requires old(Valid()) && c < |made| && made == old(made) && timers == old(timers) && log == old(log)
      requires marked == old(marked) + {c}
      requires forall x :: x in made ==> x.deleted == (old(x.deleted) || x == made[c]) && x.expiration == old(x.expiration)
      ensures Goes(CancelEvent(c), old(TheSched(pending)), TheSched(pending))
    {
      hide Queue, Records;
      forall h: nat ensures h in TheLive() <==> h in old(TheLive()) && h != c
                    ensures h in TheLive() ==> TheLive()[h] == old(TheLive())[h] {
        if h < |made| {
          assert made[h] in made && (made[h] == made[c] <==> h == c);
        }
      }
      assert TheLive() == old(TheLive()) - {c};
      OrdersLength(made);
    }

    /** Any sequence of timers made and added, cancellations and passes takes the scheduler exactly
        through the states of its specification; a timer once cancelled stays cancelled and never runs
        again. If the schedule is in time, by the instants and intervals that
        bound all expirations, the alarm agrees with the queue at the end, and so at every event. */
    method Run(schedule: seq<Event>, ghost instants: set<int>, ghost intervals: set<int>)
      returns (ghost trace: seq<Sched>, ghost unadded: seq<Timer>)
      requires Valid() && Kept() && expired == {}
      modifies this, Made()`deleted, Made()`cancelledAt, Made()`runs, Made()`expiration
      ensures Valid() && Kept() && expired == {}
      ensures Since(old(marked), old(log), marked, log) && old(made) <= made
      ensures forall k :: 0 <= k < |schedule| && schedule[k].CancelEvent? && schedule[k].c < |old(made)| ==> schedule[k].c in marked
      ensures |trace| == |schedule| + 1 && trace[0] == old(TheSched([])) && trace[|schedule|] == TheSched(unadded)
      ensures forall k :: 0 <= k < |schedule| ==> Goes(schedule[k], trace[k], trace[k + 1])
      ensures InTime(schedule, instants, intervals) && old(Foreseen(instants, intervals)) && old(Agreed()) ==> Agreed()
    {
      hide Valid, Kept, Waiting, Since, EventInTime, Agreed, Foreseen, InTime, Whens, AfterEvent, Goes, TheSched;
      var pending: seq<Timer> := [];  // made on other threads, their adds not yet run
      NoneWaiting(schedule);
      trace := [TheSched(pending)];
      for k := 0 to |schedule|
        invariant Valid() && Kept() && expired == {} && Waiting(pending, Whens(schedule[..k]))
        invariant Since(old(marked), old(log), marked, log) && fresh(Made() - old(Made())) && old(made) <= made
        invariant forall j :: 0 <= j < k && schedule[j].CancelEvent? && schedule[j].c < |old(made)| ==> schedule[j].c in marked
        invariant |trace| == k + 1 && trace[0] == old(TheSched([])) && trace[k] == TheSched(pending)
        invariant forall j :: 0 <= j < k ==> Goes(schedule[j], trace[j], trace[j + 1])
        invariant InTime(schedule, instants, intervals) && old(Foreseen(instants, intervals)) && old(Agreed()) ==>
                    Agreed() && Foreseen(instants, intervals)
      {
        ghost var m, l := marked, log;
        pending := Take(schedule[k], pending, Whens(schedule[..k]), instants, intervals);
        WhensStep(schedule, k, instants, intervals);
        SinceMeans(m, l, marked, log);
        SinceChain(old(marked), old(log), m, l, marked, log);
        trace := trace + [TheSched(pending)];
      }
      unadded := pending;
    }

    lemma NoneWaiting(schedule: seq<Event>)
      ensures Waiting([], Whens(schedule[..0])) && Since(marked, log, marked, log)
    {
    }
  }
}
