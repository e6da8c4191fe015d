/** What the timer scheduler should do, on values: the alarm, the order and the effects of one pass,
    and the schedules that leave the alarm in time. */
module TimerPasses {
  import opened Options
  import opened TimerHeaps

  /** The timerfd: not set, or set to fire at an absolute time. */
  datatype Alarm = Disarmed | Armed(at: int)

  const SECOND: int := 1000000000

  /** timerfd_settime with a relative value: a negative field is refused and nothing changes; zero
      disarms; otherwise the alarm is set that far from now. */
  function SetTime(alarm: Alarm, clock: int, sec: int, nsec: int): Alarm {
    if sec < 0 || nsec < 0 then alarm
    else if sec == 0 && nsec == 0 then Disarmed
    else Armed(clock + sec * SECOND + nsec)
  }

  /** What arming for `expiration` comes to: right exactly when the expiration is in the future. */
  function ArmedFor(alarm: Alarm, clock: int, expiration: int): Alarm {
    if expiration > clock then Armed(expiration)
    else if expiration == clock then Disarmed
    else alarm
  }

  /** Arming is exact if and only if the expiration is still to come, or an alarm for that very time
      was already set and the refused call left it. */
  lemma ArmedExactly(alarm: Alarm, clock: int, expiration: int)
    ensures ArmedFor(alarm, clock, expiration) == Armed(expiration) <==>
            expiration > clock || (expiration < clock && alarm == Armed(expiration))
  {
  }

  /** Comes out in queue order: by expiration, then by sequence number. */
  ghost predicate InOrder(ts: seq<Timer>)
    reads ts
  {
    forall i, j :: 0 <= i < j < |ts| ==> TimerCmp(ts[j], ts[i])
  }

  /** That is: earlier first, and of those due together the one made first. */
  ghost predicate Sorted(ts: seq<Timer>)
    reads ts
  {
    forall i, j :: 0 <= i < j < |ts| ==>
      ts[i].expiration < ts[j].expiration || (ts[i].expiration == ts[j].expiration && ts[i].seqNum < ts[j].seqNum)
  }

  ghost predicate NoDuplicates(h: seq<Timer>) {
    forall t :: t in h ==> multiset(h)[t] == 1
  }

  /** The record of one timer: ticks at least an interval apart, a one-shot at most once, and no run
      after cancellation. */
  ghost predicate Paced(t: Timer)
    reads t
  {
    && (forall i :: 0 <= i < |t.runs| - 1 ==> t.runs[i] + t.interval <= t.runs[i + 1])
    && (!t.repeat ==> |t.runs| <= 1)
    && (t.runs == [] ==> t.expiration == t.when_)
    && (t.deleted ==> |t.runs| == t.cancelledAt)
  }

  ghost function LastRun(t: Timer): int
    requires t.runs != []
    reads t
  {
    t.runs[|t.runs| - 1]
  }

  /** Fit to wait in the queue: not due again before its interval is over, and if it has run, it is
      a repeating one. */
  ghost predicate Waits(t: Timer)
    reads t
  {
    t.runs != [] ==> t.repeat && LastRun(t) + t.interval <= t.expiration
  }

  /** What one run of a callback may do to the scheduler: set a timer, at some reading of the clock,
      or cancel one by its handle. */
  datatype Action = Add(when_: int, interval: int, clock: int) | Cancel(handle: nat)

  datatype Event =
    | MakeEvent(when_: int, interval: int)
    | AddEvent(i: nat, clock: int)
    | CancelEvent(c: nat)
    | PassEvent(now: int, script: seq<seq<Action>>, after: int)

  // ---- What a pass should come to, on values ----

  /** What was asked of a timer when it was made. */
  datatype Order = Order(when_: int, interval: int)

  /** One run: which timer, by its handle, and when. */
  datatype Tick = Tick(handle: nat, at: int)

  /** The alarm, and the earliest expiration in the queue. */
  datatype Horizon = Horizon(alarm: Alarm, top: Option<int>)

  /** A scheduler on values: the timers made, by handle, the handles of those cancelled, what has run,
      and the alarm. */
  datatype Book = Book(orders: seq<Order>, marked: set<nat>, log: seq<Tick>, horizon: Horizon)

  ghost function Orders(made: seq<Timer>): seq<Order> {
    seq(|made|, i requires 0 <= i < |made| => Order(made[i].when_, made[i].interval))
  }

  /** A new timer moves the alarm only if it comes before all that wait. */
  function AfterAdd(h: Horizon, when_: int, clock: int): Horizon {
    if h.top.Some? && h.top.value <= when_ then h else Horizon(ArmedFor(h.alarm, clock, when_), Some(when_))
  }

  /** A handle nobody holds yet cancels nothing. */
  function AfterAction(b: Book, a: Action): Book {
    match a
    case Add(when_, interval, clock) =>
      b.(orders := b.orders + [Order(when_, interval)], horizon := AfterAdd(b.horizon, when_, clock))
    case Cancel(handle) => if handle < |b.orders| then b.(marked := b.marked + {handle}) else b
  }

  /** The first `n` things a callback does. */
  function AfterActions(b: Book, actions: seq<Action>, n: nat): Book
    requires n <= |actions|
  {
    if n == 0 then b else AfterAction(AfterActions(b, actions, n - 1), actions[n - 1])
  }

  /** One turn of the pass's loop: a marked timer is passed over, another runs. */
  function AfterTurn(b: Book, handle: nat, actions: seq<Action>, tick: int): Book {
    if handle in b.marked then b else AfterActions(b.(log := b.log + [Tick(handle, tick)]), actions, |actions|)
  }

  /** What the callback of the k-th timer of the batch does. */
  function Script(script: seq<seq<Action>>, k: nat): seq<Action> {
    if k < |script| then script[k] else []
  }

  /** The first `k` turns of a batch, given by sequence numbers. */
  function AfterBatch(b: Book, script: seq<seq<Action>>, batch: seq<nat>, tick: int, k: nat): Book
    requires k <= |batch|
  {
    if k == 0 then b else AfterTurn(AfterBatch(b, script, batch, tick, k - 1), batch[k - 1], Script(script, k - 1), tick)
  }

  /** The k-th of the batch is not cancelled when its turn comes. */
  predicate Ran(b: Book, script: seq<seq<Action>>, batch: seq<nat>, tick: int, k: nat)
    requires k < |batch|
  {
    batch[k] !in AfterBatch(b, script, batch, tick, k).marked
  }

  lemma RanIf(b: Book, script: seq<seq<Action>>, batch: seq<nat>, tick: int, k: nat)
    requires k < |batch|
    ensures Ran(b, script, batch, tick, k) <==> batch[k] !in AfterBatch(b, script, batch, tick, k).marked
  {
  }

  // ---- What that means, timer by timer ----

  function Adds(actions: seq<Action>, n: nat): seq<Order>
    requires n <= |actions|
  {
    if n == 0 then []
    else Adds(actions, n - 1) + if actions[n - 1].Add? then [Order(actions[n - 1].when_, actions[n - 1].interval)] else []
  }

  /** The timers that callbacks ask for, of those callbacks that run. */
  function BatchAdds(b: Book, script: seq<seq<Action>>, batch: seq<nat>, tick: int, k: nat): seq<Order>
    requires k <= |batch|
  {
    if k == 0 then []
    else
      BatchAdds(b, script, batch, tick, k - 1)
      + if k - 1 < |script| && Ran(b, script, batch, tick, k - 1) then Adds(script[k - 1], |script[k - 1]|) else []
  }

  lemma {:induction false} ActionsAdd(b: Book, actions: seq<Action>, n: nat)
    requires n <= |actions|
    ensures AfterActions(b, actions, n).orders == b.orders + Adds(actions, n)
    ensures AfterActions(b, actions, n).log == b.log
  {
    if n > 0 {
      ActionsAdd(b, actions, n - 1);
    }
  }

  /** Timers are made for exactly the adds of the callbacks that run, in that order. */
  lemma {:induction false} AddsExplained(b: Book, script: seq<seq<Action>>, batch: seq<nat>, tick: int, k: nat)
    requires k <= |batch|
    ensures AfterBatch(b, script, batch, tick, k).orders == b.orders + BatchAdds(b, script, batch, tick, k)
  {
    if k > 0 {
      AddsExplained(b, script, batch, tick, k - 1);
      var a := AfterBatch(b, script, batch, tick, k - 1);
      var actions := Script(script, k - 1);
      ActionsAdd(a.(log := a.log + [Tick(batch[k - 1], tick)]), actions, |actions|);
    }
  }

  /** The m-th thing a callback does is to cancel this handle, and there is such a timer by then. */
  predicate CancelsAt(b: Book, actions: seq<Action>, handle: nat, m: nat) {
    m < |actions| && actions[m] == Cancel(handle) && handle < |b.orders| + |Adds(actions, m)|
  }

  lemma {:induction false} ActionsMark(b: Book, actions: seq<Action>, n: nat, handle: nat)
    requires n <= |actions|
    ensures handle in AfterActions(b, actions, n).marked <==>
            handle in b.marked || exists m :: 0 <= m < n && CancelsAt(b, actions, handle, m)
  {
    if n > 0 {
      ActionsMark(b, actions, n - 1, handle);
      ActionsAdd(b, actions, n - 1);
      assert CancelsAt(b, actions, handle, n - 1) <==>
             actions[n - 1] == Cancel(handle) && handle < |AfterActions(b, actions, n - 1).orders|;
    }
  }

  /** The j-th of the batch runs, and its callback cancels the handle. */
  ghost predicate CancelledBy(b: Book, script: seq<seq<Action>>, batch: seq<nat>, tick: int, handle: nat, j: nat) {
    && j < |batch| && j < |script| && Ran(b, script, batch, tick, j)
    && exists m :: 0 <= m < |script[j]| && CancelsAt(AfterBatch(b, script, batch, tick, j), script[j], handle, m)
  }

  /** A timer, whether waiting before or made by a callback of the batch, is cancelled exactly when it
      was before or a callback that ran cancelled it after it was made. */
  lemma {:induction false} MarksExplained(b: Book, script: seq<seq<Action>>, batch: seq<nat>, tick: int, k: nat, handle: nat)
    requires k <= |batch|
    ensures handle in AfterBatch(b, script, batch, tick, k).marked <==>
            handle in b.marked || exists j :: 0 <= j < k && CancelledBy(b, script, batch, tick, handle, j)
  {
    if k > 0 {
      MarksExplained(b, script, batch, tick, k - 1, handle);
      var a := AfterBatch(b, script, batch, tick, k - 1);
      var actions := Script(script, k - 1);
      var a' := a.(log := a.log + [Tick(batch[k - 1], tick)]);
      ActionsMark(a', actions, |actions|, handle);
      assert forall m :: CancelsAt(a, actions, handle, m) <==> CancelsAt(a', actions, handle, m);
      assert CancelledBy(b, script, batch, tick, handle, k - 1) <==>
             batch[k - 1] !in a.marked && exists m :: 0 <= m < |actions| && CancelsAt(a, actions, handle, m);
      hide CancelledBy, CancelsAt, AfterActions;
    }
  }

  /** The runs, in order: all of the batch but those cancelled by their turn. */
  function Runs(b: Book, script: seq<seq<Action>>, batch: seq<nat>, tick: int, k: nat): seq<Tick>
    requires k <= |batch|
  {
    if k == 0 then []
    else Runs(b, script, batch, tick, k - 1) + if Ran(b, script, batch, tick, k - 1) then [Tick(batch[k - 1], tick)] else []
  }

  lemma {:induction false} RunsExplained(b: Book, script: seq<seq<Action>>, batch: seq<nat>, tick: int, k: nat)
    requires k <= |batch|
    ensures AfterBatch(b, script, batch, tick, k).log == b.log + Runs(b, script, batch, tick, k)
  {
    if k > 0 {
      RunsExplained(b, script, batch, tick, k - 1);
      var a := AfterBatch(b, script, batch, tick, k - 1);
      var actions := Script(script, k - 1);
      ActionsAdd(a.(log := a.log + [Tick(batch[k - 1], tick)]), actions, |actions|);
    }
  }

  /** One turn or many, cancellations stay. */
  lemma {:induction false} MarksGrow(b: Book, script: seq<seq<Action>>, batch: seq<nat>, tick: int, j: nat, k: nat)
    requires j <= k <= |batch|
    ensures AfterBatch(b, script, batch, tick, j).marked <= AfterBatch(b, script, batch, tick, k).marked
  {
    if j < k {
      MarksGrow(b, script, batch, tick, j, k - 1);
      var a := AfterBatch(b, script, batch, tick, k - 1);
      var actions := Script(script, k - 1);
      var c := a.(log := a.log + [Tick(batch[k - 1], tick)]);
      forall h | h in a.marked ensures h in AfterActions(c, actions, |actions|).marked {
        ActionsMark(c, actions, |actions|, h);
      }
    }
  }

  /** If all that callbacks set are timers already overdue, the alarm stays as it was. */
  lemma {:induction false} LateActions(b: Book, actions: seq<Action>, n: nat)
    requires n <= |actions| && forall a :: a in actions && a.Add? ==> a.when_ < a.clock
    ensures AfterActions(b, actions, n).horizon.alarm == b.horizon.alarm
  {
    if n > 0 {
      LateActions(b, actions, n - 1);
      assert actions[n - 1] in actions;
    }
  }

  ghost predicate AllLate(script: seq<seq<Action>>) {
    forall j, a :: 0 <= j < |script| && a in script[j] && a.Add? ==> a.when_ < a.clock
  }

  lemma {:induction false} LateAdds(b: Book, script: seq<seq<Action>>, batch: seq<nat>, tick: int, k: nat)
    requires k <= |batch| && AllLate(script)
    ensures AfterBatch(b, script, batch, tick, k).horizon.alarm == b.horizon.alarm
  {
    if k > 0 {
      LateAdds(b, script, batch, tick, k - 1);
      var a := AfterBatch(b, script, batch, tick, k - 1);
      var actions := Script(script, k - 1);
      LateActions(a.(log := a.log + [Tick(batch[k - 1], tick)]), actions, |actions|);
    }
  }

  /** When one timer ran. */
  ghost function Times(log: seq<Tick>, h: nat): seq<int> {
    if log == [] then []
    else Times(log[..|log| - 1], h) + if log[|log| - 1].handle == h then [log[|log| - 1].at] else []
  }

  lemma {:induction false} NoTimes(log: seq<Tick>, h: nat)
    requires forall r :: r in log ==> r.handle < h
    ensures Times(log, h) == []
  {
    if log != [] {
      NoTimes(log[..|log| - 1], h);
    }
  }

  lemma TimesOne(log: seq<Tick>, r: Tick, h: nat)
    ensures Times(log + [r], h) == Times(log, h) + if r.handle == h then [r.at] else []
  {
    assert (log + [r])[..|log|] == log;
  }

  /** A member of the batch runs at its tick exactly if it is not cancelled by its turn, and nobody
      else runs. */
  lemma {:induction false} BatchTimes(b: Book, script: seq<seq<Action>>, batch: seq<nat>, tick: int, k: nat, h: nat)
    requires k <= |batch| && forall i, j :: 0 <= i < j < |batch| ==> batch[i] != batch[j]
    ensures Times(AfterBatch(b, script, batch, tick, k).log, h)
         == Times(b.log, h) + if exists j :: 0 <= j < k && batch[j] == h && Ran(b, script, batch, tick, j) then [tick] else []
  {
    if k > 0 {
      BatchTimes(b, script, batch, tick, k - 1, h);
      var a := AfterBatch(b, script, batch, tick, k - 1);
      var actions := Script(script, k - 1);
      ActionsAdd(a.(log := a.log + [Tick(batch[k - 1], tick)]), actions, |actions|);
      TimesOne(a.log, Tick(batch[k - 1], tick), h);
      assert AfterBatch(b, script, batch, tick, k).log
          == a.log + if Ran(b, script, batch, tick, k - 1) then [Tick(batch[k - 1], tick)] else [];
      hide AfterBatch, Times;
    }
  }

  /** An alarm that has fired is gone once it is read. */
  function AfterRead(alarm: Alarm, now: int): Alarm {
    if alarm.Armed? && alarm.at <= now then Disarmed else alarm
  }

  /** Since then: whoever was cancelled stays cancelled and has not run. */
  ghost predicate Since(marked: set<nat>, log: seq<Tick>, marked': set<nat>, log': seq<Tick>) {
    marked <= marked' && log <= log' && forall k :: |log| <= k < |log'| ==> log'[k].handle !in marked
  }

  lemma SinceMeans(m: set<nat>, l: seq<Tick>, m': set<nat>, l': seq<Tick>)
    requires Since(m, l, m', l')
    ensures m <= m'
  {
  }

  lemma SinceChain(m0: set<nat>, l0: seq<Tick>, m1: set<nat>, l1: seq<Tick>, m2: set<nat>, l2: seq<Tick>)
    requires Since(m0, l0, m1, l1) && Since(m1, l1, m2, l2)
    ensures Since(m0, l0, m2, l2)
  {
  }

  /** A batch that holds nobody cancelled before runs nobody cancelled before. */
  lemma {:induction false} BatchSince(b: Book, script: seq<seq<Action>>, batch: seq<nat>, tick: int, k: nat)
    requires k <= |batch| && forall j :: 0 <= j < |batch| ==> batch[j] !in b.marked
    ensures var a := AfterBatch(b, script, batch, tick, k); Since(b.marked, b.log, a.marked, a.log)
  {
    if k > 0 {
      BatchSince(b, script, batch, tick, k - 1);
      var a := AfterBatch(b, script, batch, tick, k - 1);
      var actions := Script(script, k - 1);
      var c := a.(log := a.log + [Tick(batch[k - 1], tick)]);
      ActionsAdd(c, actions, |actions|);
      forall h | h in a.marked ensures h in AfterActions(c, actions, |actions|).marked {
        ActionsMark(c, actions, |actions|, h);
      }
    }
  }

  /** With callbacks that do nothing, a pass makes and cancels nobody and leaves the alarm alone. */
  lemma {:induction false} QuietPass(b: Book, batch: seq<nat>, tick: int, k: nat)
    requires k <= |batch|
    ensures var a := AfterBatch(b, [], batch, tick, k);
            a.orders == b.orders && a.marked == b.marked && a.horizon == b.horizon
  {
    if k > 0 {
      QuietPass(b, batch, tick, k - 1);
    }
  }

  // ---- The whole scheduler on values ----

  /** All that matters but the alarm: the timers made, by handle, who is cancelled, what has run, when
      each waiting timer that is not cancelled is due, and the timers made but not yet added. */
  datatype Sched = Sched(orders: seq<Order>, marked: set<nat>, log: seq<Tick>, live: map<nat, int>, pending: seq<nat>)

  /** Those due by `now`, the earlier first, and of those due together the one made first. */
  ghost predicate IsBatch(live: map<nat, int>, now: int, batch: seq<nat>) {
    && (forall h :: h in batch <==> h in live && live[h] <= now)
    && (forall i, j :: 0 <= i < j < |batch| ==> Earlier(live, batch[i], batch[j]))
  }

  predicate Earlier(live: map<nat, int>, g: nat, h: nat) {
    g in live && h in live && (live[g] < live[h] || (live[g] == live[h] && g < h))
  }

  lemma NotBoth(live: map<nat, int>)
    ensures forall g, h :: Earlier(live, g, h) ==> g != h && !Earlier(live, h, g)
  {
  }

  /** When a timer is due after a pass that found it in `live`, or whose callbacks made it, the `n`-th
      or later: those not cancelled wait on, or for one interval more, or for the first time. */
  function NextDue(live: map<nat, int>, n: nat, orders: seq<Order>, marked: set<nat>, now: int, h: nat): Option<int> {
    if h in marked || h >= |orders| then None
    else if n <= h then Some(orders[h].when_)
    else if h !in live then None
    else if live[h] > now then Some(live[h])
    else if orders[h].interval > 0 then Some(now + orders[h].interval)
    else None
  }

  ghost function LiveAfter(live: map<nat, int>, n: nat, orders: seq<Order>, marked: set<nat>, now: int): map<nat, int> {
    map h: nat | h < |orders| && NextDue(live, n, orders, marked, now, h).Some? :: NextDue(live, n, orders, marked, now, h).value
  }

  function BookOf(s: Sched): Book {
    Book(s.orders, s.marked, s.log, Horizon(Disarmed, None))
  }

  ghost function AfterPass(s: Sched, now: int, script: seq<seq<Action>>, batch: seq<nat>): Sched {
    var b := AfterBatch(BookOf(s), script, batch, now, |batch|);
    Sched(b.orders, b.marked, b.log, LiveAfter(s.live, |s.orders|, b.orders, b.marked, now), s.pending)
  }

  ghost function AfterAdded(s: Sched, i: nat): Sched
    requires i < |s.pending|
  {
    var h := s.pending[i];
    s.(pending := s.pending[..i] + s.pending[i + 1..],
       live := if h in s.marked || h >= |s.orders| then s.live else s.live[h := s.orders[h].when_])
  }

  /** One event of a run. */
  ghost predicate Goes(e: Event, s: Sched, s': Sched) {
    match e
    case MakeEvent(when_, interval) =>
      s' == s.(orders := s.orders + [Order(when_, interval)], pending := s.pending + [|s.orders|])
    case AddEvent(i, _) => s' == if i < |s.pending| then AfterAdded(s, i) else s
    case CancelEvent(c) => s' == if c < |s.orders| then s.(marked := s.marked + {c}, live := s.live - {c}) else s
    case PassEvent(now, script, _) => exists batch :: IsBatch(s.live, now, batch) && s' == AfterPass(s, now, script, batch)
  }

  /** The alarm has no part in it. */
  lemma {:induction false} AlarmApart(b: Book, c: Book, script: seq<seq<Action>>, batch: seq<nat>, tick: int, k: nat)
    requires k <= |batch| && c == b.(horizon := c.horizon)
    ensures var d := AfterBatch(c, script, batch, tick, k);
            d == AfterBatch(b, script, batch, tick, k).(horizon := d.horizon)
  {
    if k > 0 {
      AlarmApart(b, c, script, batch, tick, k - 1);
      var d, a := AfterBatch(c, script, batch, tick, k - 1), AfterBatch(b, script, batch, tick, k - 1);
      var tk := Tick(batch[k - 1], tick);
      ActionsApart(a.(log := a.log + [tk]), d.(log := d.log + [tk]), Script(script, k - 1), |Script(script, k - 1)|);
    }
  }

  lemma {:induction false} ActionsApart(b: Book, c: Book, actions: seq<Action>, n: nat)
    requires n <= |actions| && c == b.(horizon := c.horizon)
    ensures var d := AfterActions(c, actions, n); d == AfterActions(b, actions, n).(horizon := d.horizon)
  {
    if n > 0 {
      ActionsApart(b, c, actions, n - 1);
    }
  }

  /** There is only one such batch. */
  lemma {:induction false} OneBatch(live: map<nat, int>, now: int, a: seq<nat>, b: seq<nat>)
    requires IsBatch(live, now, a) && IsBatch(live, now, b)
    ensures a == b
  {
    BatchPrefix(live, now, a, b, |a|);
    BatchPrefix(live, now, b, a, |b|);
    assert a[..|a|] == a && b[..|b|] == b;
  }

  lemma {:induction false} BatchPrefix(live: map<nat, int>, now: int, a: seq<nat>, b: seq<nat>, k: nat)
    requires IsBatch(live, now, a) && IsBatch(live, now, b) && k <= |a|
    ensures k <= |b| && a[..k] == b[..k]
  {
    if k > 0 {
      BatchPrefix(live, now, a, b, k - 1);
      assert forall i :: 0 <= i < k - 1 ==> a[..k - 1][i] == b[..k - 1][i] == a[i] == b[i];
      NextSame(live, now, a, b, k - 1);
    }
  }

  lemma NextSame(live: map<nat, int>, now: int, a: seq<nat>, b: seq<nat>, n: nat)
    requires IsBatch(live, now, a) && IsBatch(live, now, b) && n < |a| && n <= |b|
    requires forall i :: 0 <= i < n ==> a[i] == b[i]
    ensures n < |b| && a[n] == b[n]
  {
    hide Earlier;
    NotBoth(live);
    assert a[n] in a;
    var j :| 0 <= j < |b| && b[j] == a[n];
    assert b[n] in b;
    var i :| 0 <= i < |a| && a[i] == b[n];
  }

  // ---- Schedules that leave the alarm in time ----

  /** The expirations of the timers made and not yet added, after an event. */
  function AfterEvent(whens: seq<int>, e: Event): seq<int> {
    match e
    case MakeEvent(when_, _) => whens + [when_]
    case AddEvent(i, _) => if i < |whens| then whens[..i] + whens[i + 1..] else whens
    case _ => whens
  }

  function Whens(schedule: seq<Event>): seq<int> {
    if schedule == [] then [] else AfterEvent(Whens(schedule[..|schedule| - 1]), schedule[|schedule| - 1])
  }

  /** A timer foreseen, and asked for before it is due. */
  ghost predicate OrderInTime(o: Order, after: int, instants: set<int>, intervals: set<int>) {
    after < o.when_ && o.when_ in instants && (o.interval > 0 ==> o.interval in intervals)
  }

  /** No instant foreseen falls between the time of the pass and the time of its re-arming, nor any
      timer its callbacks ask for. */
  ghost predicate PassInTime(now: int, script: seq<seq<Action>>, after: int, instants: set<int>, intervals: set<int>) {
    && (forall e :: e in instants && now < e ==> after < e)
    && (forall v :: v in intervals ==> now + v in instants)
    && (forall k, a :: 0 <= k < |script| && a in script[k] && a.Add? ==>
          OrderInTime(Order(a.when_, a.interval), after, instants, intervals))
  }

  lemma InTimeUse(now: int, script: seq<seq<Action>>, after: int, instants: set<int>, intervals: set<int>)
    requires PassInTime(now, script, after, instants, intervals)
    ensures forall e :: e in instants && now < e ==> after < e
    ensures forall v :: v in intervals ==> now + v in instants
  {
  }

  lemma {:induction false} AddsInTime(actions: seq<Action>, n: nat, after: int, instants: set<int>, intervals: set<int>)
    requires n <= |actions|
    requires forall a :: a in actions && a.Add? ==> OrderInTime(Order(a.when_, a.interval), after, instants, intervals)
    ensures forall o :: o in Adds(actions, n) ==> OrderInTime(o, after, instants, intervals)
  {
    if n > 0 {
      AddsInTime(actions, n - 1, after, instants, intervals);
      assert actions[n - 1] in actions;
    }
  }

  lemma {:induction false} BatchInTime(b: Book, script: seq<seq<Action>>, batch: seq<nat>, now: int, k: nat, after: int,
                                       instants: set<int>, intervals: set<int>)
    requires k <= |batch| && PassInTime(now, script, after, instants, intervals)
    ensures forall o :: o in BatchAdds(b, script, batch, now, k) ==> OrderInTime(o, after, instants, intervals)
  {
    hide AfterBatch, Adds;
    if k > 0 {
      BatchInTime(b, script, batch, now, k - 1, after, instants, intervals);
      var actions := Script(script, k - 1);
      AddsInTime(actions, |actions|, after, instants, intervals);
      hide OrderInTime;
    }
  }

  lemma PassAddsInTime(b: Book, script: seq<seq<Action>>, batch: seq<nat>, now: int, after: int,
                       instants: set<int>, intervals: set<int>)
    requires PassInTime(now, script, after, instants, intervals)
    ensures var a := AfterBatch(b, script, batch, now, |batch|);
            && b.orders <= a.orders
            && forall i :: |b.orders| <= i < |a.orders| ==> OrderInTime(a.orders[i], after, instants, intervals)
  {
    AddsExplained(b, script, batch, now, |batch|);
    BatchInTime(b, script, batch, now, |batch|, after, instants, intervals);
    var adds := BatchAdds(b, script, batch, now, |batch|);
    assert forall i :: 0 <= i < |adds| ==> adds[i] in adds;
  }

  /** ... and a timer added outside a pass is added before it is due. */
  ghost predicate EventInTime(e: Event, whens: seq<int>, instants: set<int>, intervals: set<int>) {
    match e
    case MakeEvent(when_, interval) => when_ in instants && (interval > 0 ==> interval in intervals)
    case AddEvent(i, clock) => i < |whens| ==> clock < whens[i]
    case CancelEvent(_) => true
    case PassEvent(now, script, after) => PassInTime(now, script, after, instants, intervals)
  }

  ghost predicate InTime(schedule: seq<Event>, instants: set<int>, intervals: set<int>) {
    forall k :: 0 <= k < |schedule| ==> EventInTime(schedule[k], Whens(schedule[..k]), instants, intervals)
  }

  lemma WhensStep(schedule: seq<Event>, k: nat, instants: set<int>, intervals: set<int>)
    requires k < |schedule|
    ensures Whens(schedule[..k + 1]) == AfterEvent(Whens(schedule[..k]), schedule[k])
    ensures InTime(schedule, instants, intervals) ==> EventInTime(schedule[k], Whens(schedule[..k]), instants, intervals)
  {
    assert schedule[..k + 1][..k] == schedule[..k];
  }

  function SeqNums(due: seq<Timer>): seq<nat> {
    seq(|due|, k requires 0 <= k < |due| => due[k].seqNum)
  }

  /** The earliest expiration later than `now`. */
  ghost function FirstLater(ts: seq<Timer>, now: int): Option<int>
    reads ts
  {
    if ts == [] then None
    else
      var m, e := FirstLater(ts[1..], now), ts[0].expiration;
      if e > now && (m == None || e < m.value) then Some(e) else m
  }

  lemma {:induction false} FirstLaterIs(ts: seq<Timer>, now: int, first: Option<int>)
    requires first == None ==> forall t :: t in ts ==> t.expiration <= now
    requires first.Some? ==> first.value > now && (exists t :: t in ts && t.expiration == first.value)
                             && forall t :: t in ts ==> t.expiration <= now || first.value <= t.expiration
    ensures FirstLater(ts, now) == first
  {
    FirstLaterLeast(ts, now);
  }

  lemma {:induction false} FirstLaterLeast(ts: seq<Timer>, now: int)
    ensures forall t :: t in ts && t.expiration > now ==>
              FirstLater(ts, now).Some? && FirstLater(ts, now).value <= t.expiration
    ensures FirstLater(ts, now).Some? ==>
              FirstLater(ts, now).value > now && exists t :: t in ts && t.expiration == FirstLater(ts, now).value
  {
    if ts != [] {
      FirstLaterLeast(ts[1..], now);
      assert ts == [ts[0]] + ts[1..];
    }
  }

  ghost function Among(ts: seq<Timer>): set<Timer> {
    set t | t in ts
  }
}
