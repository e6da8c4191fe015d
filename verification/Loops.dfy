/** One loop and its connections on values: a slot for each descriptor, a pool of closed connections,
    and the ledger of lives, and what each step of the loop comes to. `C` is the identity of a
    connection. */
module Loops {
  import opened ByteStreams
  import opened Faces
  import opened Lives
  import opened NetBuffers
  import opened Options
  import opened Stories
  import opened Wire

  /** What user code does, from inside any callback, to the open connection of a descriptor. */
  datatype Act = Act(fd: int, deed: Deed)

  /** One event reported by the kernel, with all that its handling will meet. */
  datatype Event = Event(fd: int, revents: bv32, read: ReadResult, wr: WriteResult, script: seq<Act>)

  datatype Step =
    | Dispatching(events: seq<Event>)
    | Acting(script: seq<Act>)  // a timer's callback, a functor or a write-complete callback
    | Creating(fd: int, script: seq<Act>, guarded: bool)
    | ForceClosing

  /** The events and answers that end a connection. */
  predicate Ends(revents: bv32, read: ReadResult) {
    || (Wants(revents, EPOLLHUP) && !Wants(revents, EPOLLIN))
    || (Wants(revents, EPOLLIN | EPOLLPRI | EPOLLHUP) && read == Received([]))
  }

  /** ... and those that bring data to the user. */
  predicate Delivers(revents: bv32, read: ReadResult) {
    && !(Wants(revents, EPOLLHUP) && !Wants(revents, EPOLLIN))
    && Wants(revents, EPOLLIN | EPOLLPRI | EPOLLHUP) && read.Received? && read.bytes != []
  }

  /** The bits behind this: a hang-up without input, or an empty read on input, priority input or
      hang-up. */
  lemma EventBits(revents: bv32, read: ReadResult)
    ensures Ends(revents, read)
       <==> (revents & 0x10 != 0 && revents & 0x01 == 0) || (revents & 0x13 != 0 && read == Received([]))
    ensures Delivers(revents, read)
       <==> !(revents & 0x10 != 0 && revents & 0x01 == 0) && revents & 0x13 != 0 && read.Received? && read.bytes != []
    ensures Wants(revents, EPOLLOUT) <==> revents & 0x04 != 0
  {
  }

  /** The kernel delivers no more than there is room for, and there is always room for this much. */
  predicate Fitted(read: ReadResult, got: ReadResult) {
    got == read || (read.Received? && got.Received? && got.bytes <= read.bytes && EXTRA <= |got.bytes|)
  }

  /** The same events, with the reads as the kernel answered them. */
  predicate Answered(events: seq<Event>, told: seq<Event>) {
    && |told| == |events|
    && forall k :: 0 <= k < |events| ==>
         told[k] == events[k].(read := told[k].read) && Fitted(events[k].read, told[k].read)
  }

  predicate AnsweredStep(step: Step, did: Step) {
    if step.Dispatching? then did.Dispatching? && Answered(step.events, did.events) else did == step
  }

  datatype World<C(==)> = World(
    none: C,              // the null pointer, which is nobody's identity
    slots: map<int, C>,
    pool: seq<C>,
    open: set<int>,
    ledger: Ledger<C>
  ) {
    predicate Held(fd: int) {
      fd in slots && slots[fd] in ledger.lives
    }

    function At(fd: int): C {
      if fd in slots then slots[fd] else none
    }

    function LifeOf(c: C): Life {
      if c in ledger.lives then ledger.lives[c] else Life(0, FreshFace(0), [])
    }

    function FaceOf(c: C): Face {
      LifeOf(c).face
    }

    /** The connection shows something else, and its story goes on. */
    function Show(c: C, f: Face, items: seq<Item>): World<C> {
      this.(ledger := ledger.(lives := ledger.lives[c := Life(LifeOf(c).number, f, LifeOf(c).story + items)]))
    }

    // ---- User code ----

    function Did(c: C, deed: Deed): World<C> {
      var w := Show(c, AfterDeed(FaceOf(c), deed), [ByUser(deed)]);
      if deed.ForceClose? && IsOpen(FaceOf(c))
      then w.(ledger := w.ledger.(pending := ledger.pending + [c], asked := ledger.asked + [LifeOf(c).number]))
      else w
    }

    function AfterAct(act: Act): World<C> {
      if Held(act.fd) then Did(slots[act.fd], act.deed) else this
    }

    function AfterScript(script: seq<Act>, n: nat): World<C>
      requires n <= |script|
    {
      if n == 0 then this else AfterScript(script, n - 1).AfterAct(script[n - 1])
    }

    // ---- Events ----

    function Closed(c: C): World<C> {
      var fd := FaceOf(c).sockFd;
      Show(c, AfterClose(FaceOf(c)), []).(slots := slots[fd := none], pool := pool + [c], open := open - {fd})
    }

    function Fed(c: C, bytes: seq<byte>): World<C> {
      Show(c, AfterInputOf(FaceOf(c), bytes), [FromPeer(bytes)])
    }

    /** A closed descriptor delivers nothing. */
    function AfterReading(c: C, read: ReadResult, script: seq<Act>): World<C> {
      if FaceOf(c).state.Disconnected? || read.Failed? then this
      else if read.bytes == [] then Closed(c)
      else Fed(c, read.bytes).AfterScript(script, |script|)
    }

    function AfterHangUp(c: C): World<C> {
      if Wants(FaceOf(c).revents, EPOLLHUP) && !Wants(FaceOf(c).revents, EPOLLIN) then Closed(c) else this
    }

    function AfterInput(c: C, read: ReadResult, script: seq<Act>): World<C> {
      if Wants(FaceOf(c).revents, EPOLLIN | EPOLLPRI | EPOLLHUP) then AfterReading(c, read, script) else this
    }

    function AfterOutput(c: C, wr: WriteResult): World<C> {
      if Wants(FaceOf(c).revents, EPOLLOUT) && IsOpen(FaceOf(c)) then Show(c, AfterWritable(FaceOf(c), wr), [Writable(wr)])
      else this
    }

    function Handled(c: C, e: Event): World<C> {
      AfterHangUp(c).AfterInput(c, e.read, e.script).AfterOutput(c, e.wr)
    }

    function Reported(e: Event): World<C> {
      Show(At(e.fd), FaceOf(At(e.fd)).(revents := e.revents), [])
    }

    function AllReported(events: seq<Event>, n: nat): World<C>
      requires n <= |events|
    {
      if n == 0 then this else AllReported(events, n - 1).Reported(events[n - 1])
    }

    /** All are reported before the first is handled, each to the connection that has its slot then. */
    function Dispatched(events: seq<Event>, n: nat): World<C>
      requires n <= |events|
    {
      if n == 0 then AllReported(events, |events|)
      else Dispatched(events, n - 1).Handled(At(events[n - 1].fd), events[n - 1])
    }

    /** Only reads already made matter. */
    lemma {:induction false} DispatchedSame(a: seq<Event>, b: seq<Event>, n: nat)
      requires n <= |a| == |b| && forall k :: 0 <= k < |a| ==> a[k].fd == b[k].fd && a[k].revents == b[k].revents
      requires forall k :: 0 <= k < n ==> a[k] == b[k]
      ensures Dispatched(a, n) == Dispatched(b, n)
    {
      if n == 0 {
        ReportedSame(a, b, |a|);
      } else {
        DispatchedSame(a, b, n - 1);
      }
    }

    lemma {:induction false} ReportedSame(a: seq<Event>, b: seq<Event>, n: nat)
      requires n <= |a| == |b| && forall k :: 0 <= k < |a| ==> a[k].fd == b[k].fd && a[k].revents == b[k].revents
      ensures AllReported(a, n) == AllReported(b, n)
    {
      if n > 0 {
        ReportedSame(a, b, n - 1);
      }
    }

    /** The kernel reports descriptors it watches, each once. */
    predicate Reportable(events: seq<Event>) {
      && (forall i :: 0 <= i < |events| ==> Held(events[i].fd) && FaceOf(At(events[i].fd)).status.Added?)
      && (forall i, j :: 0 <= i < j < |events| ==> events[i].fd != events[j].fd)
    }

    // ---- Beginning and end of a life ----

    /** Whoever is last in the pool, or with nobody there, somebody new. */
    predicate Comes(c: C) {
      c != none && if pool != [] then c == pool[|pool| - 1] else c !in ledger.lives
    }

    function Begun(c: C, fd: int): World<C> {
      this.(slots := slots[fd := c], open := open + {fd}, pool := if pool == [] then [] else pool[..|pool| - 1],
            ledger := ledger.(lives := ledger.lives[c := Life(if c in ledger.lives then LifeOf(c).number + 1 else 0, OpenFace(fd), [])]))
    }

    /** The oldest request to close is carried out. */
    function Served(): World<C>
      requires ledger.pending != [] && ledger.asked != []
    {
      var c := ledger.pending[0];
      var ends := IsOpen(FaceOf(c));
      var w := this.(ledger := ledger.(pending := ledger.pending[1..], asked := ledger.asked[1..],
        closings := ledger.closings + [Closing(c, ledger.asked[0], if ends then Some(LifeOf(c).number) else None)]));
      if ends then w.Closed(c) else w
    }

    /** Of a pool whose last has a request to close waiting, a guarded step takes nothing. */
    predicate Takes(fd: int, guarded: bool) {
      fd !in open && (guarded ==> pool == [] || pool[|pool| - 1] !in ledger.pending)
    }

    /** One step of a run. What is not possible does nothing. */
    ghost predicate Steps(step: Step, w: World<C>) {
      match step
      case Dispatching(events) => w == if Reportable(events) then Dispatched(events, |events|) else this
      case Acting(script) => w == AfterScript(script, |script|)
      case Creating(fd, script, guarded) =>
        if Takes(fd, guarded) then Comes(w.At(fd)) && w == Begun(w.At(fd), fd).AfterScript(script, |script|) else w == this
      case ForceClosing => w == if ledger.pending != [] && ledger.asked != [] then Served() else this
    }

    // ---- What holds of every world ----

    /** Slots hold nobody, or the open connections, each under its own descriptor; the pool holds
        closed ones, each once. */
    ghost predicate Orderly() {
      none !in ledger.lives && Credible(ledger) && Slotted() && Pooled()
    }

    ghost predicate Slotted() {
      && (forall fd :: fd in slots && slots[fd] != none ==> Held(fd))
      && (forall fd :: Held(fd) ==> fd in open && FaceOf(slots[fd]).sockFd == fd && IsOpen(FaceOf(slots[fd])))
      && (forall c :: c in ledger.lives && IsOpen(FaceOf(c)) ==> At(FaceOf(c).sockFd) == c)
    }

    ghost predicate Pooled() {
      && (forall c :: c in pool ==> c in ledger.lives && !IsOpen(FaceOf(c)))
      && (forall i, j :: 0 <= i < j < |pool| ==> pool[i] != pool[j])
    }

    /** Nobody's life begins or ends. */
    ghost predicate GoesOnTo(w: World<C>) {
      && w == this.(ledger := w.ledger) && Carries(ledger, w.ledger)
      && forall c :: c in ledger.lives ==> c in w.ledger.lives && GoesOn(ledger.lives[c].face, w.ledger.lives[c].face)
    }

    /** One connection shows something else, for a reason that goes into its story. */
    ghost predicate Shows(c: C, f: Face, items: seq<Item>, w: World<C>) {
      && c in ledger.lives && |items| <= 1 && Explained(f, LifeOf(c).story + items)
      && w.ledger.closings == ledger.closings
      && w.ledger.lives == ledger.lives[c := Life(LifeOf(c).number, f, LifeOf(c).story + items)]
      && (|| (w.ledger.pending == ledger.pending && w.ledger.asked == ledger.asked)
          || (w.ledger.pending == ledger.pending + [c] && w.ledger.asked == ledger.asked + [LifeOf(c).number]))
    }

    function NotesOf(c: C, items: seq<Item>): seq<Note<C>> {
      if items == [] then [] else [Note(c, items[0])]
    }

    lemma ShownFollows(c: C, f: Face, items: seq<Item>, w: World<C>)
      requires Credible(ledger) && Shows(c, f, items, w) && Extends(FaceOf(c).io, f.io)
      ensures Carries(ledger, w.ledger) && Credible(w.ledger) && Noted(ledger.lives, w.ledger.lives, NotesOf(c, items))
      ensures f.revents == FaceOf(c).revents ==> SameRevents(ledger.lives, w.ledger.lives)
    {
      hide Explained, Extends;
      CarriesOne(ledger, w.ledger, c, w.ledger.lives[c]);
      CarriesKeeps(ledger, w.ledger);
      assert forall d :: To(NotesOf(c, items), d) == if d == c then items else [];
    }

    lemma ShownGoesOn(c: C, f: Face, items: seq<Item>, w: World<C>)
      requires Credible(ledger) && Shows(c, f, items, w) && GoesOn(FaceOf(c), f) && w == this.(ledger := w.ledger)
      ensures GoesOnTo(w) && Credible(w.ledger) && Noted(ledger.lives, w.ledger.lives, NotesOf(c, items))
    {
      hide Explained, Extends, Carries, Noted, Past;
      ShownFollows(c, f, items, w);
      forall d | d in ledger.lives ensures GoesOn(ledger.lives[d].face, w.ledger.lives[d].face) {
        SameExtends(ledger.lives[d].face.io);
      }
    }

    lemma DidGoesOn(c: C, deed: Deed)
      requires Credible(ledger) && c in ledger.lives && IsOpen(FaceOf(c))
      ensures GoesOnTo(Did(c, deed)) && Credible(Did(c, deed).ledger)
      ensures Noted(ledger.lives, Did(c, deed).ledger.lives, [Note(c, ByUser(deed))])
    {
      hide AfterDeed, Explained, Noted, GoesOnTo, GoesOn, Past;
      DeedGoesOn(FaceOf(c), deed);
      DidExplained(FaceOf(c), LifeOf(c).story, deed);
      ShownGoesOn(c, AfterDeed(FaceOf(c), deed), [ByUser(deed)], Did(c, deed));
    }

    lemma OrderlyOn(w: World<C>)
      requires Orderly() && GoesOnTo(w) && Credible(w.ledger)
      ensures w.Orderly()
    {
      hide Extends, Credible;
    }

    lemma GoesOnChain(v: World<C>, w: World<C>)
      requires GoesOnTo(v) && v.GoesOnTo(w)
      ensures GoesOnTo(w)
    {
      CarriesChain(ledger, v.ledger, w.ledger);
      hide Carries;
    }

    lemma StaysHere()
      requires Past(ledger)
      ensures GoesOnTo(this)
    {
      CarriesNone(ledger);
    }

    /** What user code does, and to whom. */
    function Notes(script: seq<Act>, n: nat): seq<Note<C>>
      requires n <= |script|
    {
      if n == 0 then []
      else
        var act := script[n - 1];
        Notes(script, n - 1) + if Held(act.fd) then [Note(slots[act.fd], ByUser(act.deed))] else []
    }

    /** User code begins and ends no life, and all it does goes into the stories of those it does it to. */
    lemma {:induction false} ScriptGoesOn(script: seq<Act>, n: nat)
      requires Orderly() && n <= |script|
      ensures GoesOnTo(AfterScript(script, n)) && AfterScript(script, n).Orderly()
      ensures Noted(ledger.lives, AfterScript(script, n).ledger.lives, Notes(script, n))
    {
      hide Orderly, GoesOnTo, Noted;
      OrderlyMeans();
      if n == 0 {
        StaysHere();
        NotedNothing(ledger.lives);
      } else {
        ScriptGoesOn(script, n - 1);
        var v, act := AfterScript(script, n - 1), script[n - 1];
        v.ActGoesOn(act);
        GoesOnChain(v, v.AfterAct(act));
        SameSlots(v);
        var more := if Held(act.fd) then [Note(slots[act.fd], ByUser(act.deed))] else [];
        NotedChain(ledger.lives, v.ledger.lives, v.AfterAct(act).ledger.lives, Notes(script, n - 1), more);
      }
    }

    lemma OrderlyMeans()
      requires Orderly()
      ensures Past(ledger) && Credible(ledger)
      ensures forall fd :: Held(fd) ==> IsOpen(FaceOf(slots[fd]))
    {
      hide Explained;
    }

    lemma SameSlots(w: World<C>)
      requires GoesOnTo(w)
      ensures w.slots == slots && w.pool == pool && w.open == open && w.none == none
      ensures forall fd :: w.Held(fd) <==> Held(fd)
    {
    }

    lemma ActGoesOn(act: Act)
      requires Orderly()
      ensures GoesOnTo(AfterAct(act)) && AfterAct(act).Orderly()
      ensures Noted(ledger.lives, AfterAct(act).ledger.lives,
                    if Held(act.fd) then [Note(slots[act.fd], ByUser(act.deed))] else [])
    {
      hide Orderly, GoesOnTo, IsOpen, Did, Credible;
      OrderlyMeans();
      NotedNothing(ledger.lives);
      if Held(act.fd) {
        DidGoesOn(slots[act.fd], act.deed);
      } else {
        StaysHere();
      }
      OrderlyOn(AfterAct(act));
    }

    lemma {:induction false} SameNotes(w: World<C>, script: seq<Act>, n: nat)
      requires n <= |script| && w.slots == slots && w.ledger.lives.Keys == ledger.lives.Keys
      ensures w.Notes(script, n) == Notes(script, n)
    {
      if n > 0 {
        SameNotes(w, script, n - 1);
      }
    }

    /** Nobody else's life begins or ends, and this one's at most ends. */
    ghost predicate Follows(c: C, w: World<C>) {
      && Carries(ledger, w.ledger) && SameRevents(ledger.lives, w.ledger.lives)
      && (forall d :: d in ledger.lives && d != c ==> (IsOpen(w.FaceOf(d)) <==> IsOpen(FaceOf(d))))
      && w.FaceOf(c).sockFd == FaceOf(c).sockFd
      && if w.FaceOf(c).state.Disconnected? == FaceOf(c).state.Disconnected? then w == this.(ledger := w.ledger)
         else w == this.(slots := slots[FaceOf(c).sockFd := none], pool := pool + [c], open := open - {FaceOf(c).sockFd},
                         ledger := w.ledger)
    }

    lemma FollowsChain(c: C, v: World<C>, w: World<C>)
      requires c in ledger.lives && Follows(c, v) && v.Follows(c, w)
      requires FaceOf(c).state.Disconnected? ==> v.FaceOf(c).state.Disconnected?
      requires v.FaceOf(c).state.Disconnected? ==> w.FaceOf(c).state.Disconnected?
      ensures Follows(c, w)
    {
      CarriesChain(ledger, v.ledger, w.ledger);
      hide Carries;
    }

    lemma GoingFollows(c: C, w: World<C>)
      requires GoesOnTo(w) && c in ledger.lives
      ensures Follows(c, w) && w.FaceOf(c).state.Disconnected? == FaceOf(c).state.Disconnected?
      ensures c in w.ledger.lives && w.FaceOf(c).revents == FaceOf(c).revents
      ensures IsOpen(w.FaceOf(c)) <==> IsOpen(FaceOf(c))
    {
      hide Extends;
    }

    /** The connection is open, and so in its slot. */
    ghost predicate Home(c: C) {
      Orderly() && c in ledger.lives && IsOpen(FaceOf(c))
    }

    lemma ClosedFollows(c: C)
      requires Home(c)
      ensures Follows(c, Closed(c)) && Closed(c).Orderly() && Closed(c).FaceOf(c) == AfterClose(FaceOf(c))
      ensures !IsOpen(Closed(c).FaceOf(c)) && Closed(c).FaceOf(c).revents == FaceOf(c).revents
      ensures Noted(ledger.lives, Closed(c).ledger.lives, [])
    {
      hide Extends, Carries, Noted, Past, Slotted, Pooled, Explained;
      var f := AfterClose(FaceOf(c));
      CloseExtends(FaceOf(c));
      ClosedExplained(FaceOf(c), LifeOf(c).story);
      assert LifeOf(c).story + [] == LifeOf(c).story;
      ShownFollows(c, f, [], Closed(c));
      ClosedSlots(c);
      ClosedPool(c);
    }

    lemma ClosedSlots(c: C)
      requires Slotted() && none !in ledger.lives && c in ledger.lives && IsOpen(FaceOf(c))
      ensures Closed(c).Slotted()
    {
    }

    lemma ClosedPool(c: C)
      requires Pooled() && c in ledger.lives && IsOpen(FaceOf(c))
      ensures Closed(c).Pooled()
    {
    }

    lemma FedGoesOn(c: C, bytes: seq<byte>)
      requires Credible(ledger) && c in ledger.lives
      ensures GoesOnTo(Fed(c, bytes)) && Credible(Fed(c, bytes).ledger)
      ensures Noted(ledger.lives, Fed(c, bytes).ledger.lives, [Note(c, FromPeer(bytes))])
    {
      hide Extends, Explained, Noted, GoesOnTo, Past;
      var f := AfterInputOf(FaceOf(c), bytes);
      SameExtends(f.io);
      FedExplained(FaceOf(c), LifeOf(c).story, bytes);
      ShownGoesOn(c, f, [FromPeer(bytes)], Fed(c, bytes));
    }

    lemma OutputGoesOn(c: C, wr: WriteResult)
      requires Credible(ledger) && c in ledger.lives
      ensures GoesOnTo(AfterOutput(c, wr)) && Credible(AfterOutput(c, wr).ledger)
      ensures Noted(ledger.lives, AfterOutput(c, wr).ledger.lives,
                    if Wants(FaceOf(c).revents, EPOLLOUT) && IsOpen(FaceOf(c)) then [Note(c, Writable(wr))] else [])
    {
      hide AfterWritable, Noted, GoesOnTo, Past, Wants, IsOpen, Explained;
      StaysHere();
      NotedNothing(ledger.lives);
      if IsOpen(FaceOf(c)) {
        WrittenGoesOn(c, wr);
      }
    }

    lemma WrittenGoesOn(c: C, wr: WriteResult)
      requires Credible(ledger) && c in ledger.lives && IsOpen(FaceOf(c))
      ensures var w := Show(c, AfterWritable(FaceOf(c), wr), [Writable(wr)]);
              GoesOnTo(w) && Credible(w.ledger) && Noted(ledger.lives, w.ledger.lives, [Note(c, Writable(wr))])
    {
      hide AfterWritable, Noted, Past, Explained, GoesOnTo, GoesOn;
      var f := AfterWritable(FaceOf(c), wr);
      WritableGoesOn(FaceOf(c), wr);
      WrittenExplained(FaceOf(c), LifeOf(c).story, wr);
      ShownGoesOn(c, f, [Writable(wr)], Show(c, f, [Writable(wr)]));
    }

    lemma DidKeeps(c: C, deed: Deed)
      requires Orderly() && c in ledger.lives && IsOpen(FaceOf(c))
      ensures Credible(Did(c, deed).ledger)
    {
      hide Credible, GoesOnTo, Noted, Did;
      DidGoesOn(c, deed);
    }

    lemma FedKeeps(c: C, bytes: seq<byte>)
      requires Orderly() && c in ledger.lives
      ensures Credible(Fed(c, bytes).ledger)
    {
      hide Credible, GoesOnTo, Noted, Fed;
      FedGoesOn(c, bytes);
    }

    lemma WrittenKeeps(c: C, wr: WriteResult)
      requires Orderly() && c in ledger.lives && IsOpen(FaceOf(c))
      ensures Credible(Show(c, AfterWritable(FaceOf(c), wr), [Writable(wr)]).ledger)
    {
      hide Credible, GoesOnTo, Noted, Show;
      WrittenGoesOn(c, wr);
    }

    lemma ClosedKeeps(c: C)
      requires Home(c)
      ensures Credible(Closed(c).ledger)
    {
      hide Explained;
      ClosedFollows(c);
    }

    /** Reading and what the user makes of it. */
    lemma ReadingFollows(c: C, read: ReadResult, script: seq<Act>)
      requires Home(c)
      ensures var w := AfterReading(c, read, script);
              && Follows(c, w) && w.Orderly() && (w.FaceOf(c).state.Disconnected? <==> read == Received([]))
              && (IsOpen(w.FaceOf(c)) <==> read != Received([]))
              && c in w.ledger.lives && w.FaceOf(c).revents == FaceOf(c).revents
              && Noted(ledger.lives, w.ledger.lives,
                       if read.Received? && read.bytes != [] then [Note(c, FromPeer(read.bytes))] + Notes(script, |script|) else [])
    {
      hide Orderly, GoesOnTo, Noted, Follows, IsOpen, Credible;
      HomeMeans(c);
      if read.Received? && read.bytes != [] {
        var v := Fed(c, read.bytes);
        var w := v.AfterScript(script, |script|);
        FedGoesOn(c, read.bytes);
        OrderlyOn(v);
        v.ScriptGoesOn(script, |script|);
        GoesOnChain(v, w);
        GoingFollows(c, w);
        SameSlots(v);
        SameNotes(v, script, |script|);
        NotedChain(ledger.lives, v.ledger.lives, w.ledger.lives, [Note(c, FromPeer(read.bytes))], Notes(script, |script|));
      } else {
        StaysHere();
        GoingFollows(c, this);
        NotedNothing(ledger.lives);
        ClosedFollows(c);
      }
    }

    lemma HomeMeans(c: C)
      requires Home(c)
      ensures Orderly() && Past(ledger) && Credible(ledger) && c in ledger.lives && IsOpen(FaceOf(c))
      ensures !FaceOf(c).state.Disconnected?
    {
      hide Explained;
    }

    /** What one event does to its connection and lets the user do: a read that delivers adds its bytes
        and lets the user act, and a report that the socket can take more is answered by a write, unless
        the event has ended the connection before. */
    function EventNotes(c: C, e: Event, revents: bv32): seq<Note<C>> {
      InputNotes(c, e, revents)
      + if Wants(revents, EPOLLOUT) && !Ends(revents, e.read) then [Note(c, Writable(e.wr))] else []
    }

    /** An event handled at an open connection ends it exactly if it says so, and nobody else, and
        otherwise does to the stories what it should. */
    lemma HandledFollows(c: C, e: Event)
      requires Home(c)
      ensures var w := Handled(c, e);
              && Follows(c, w) && w.Orderly()
              && (w.FaceOf(c).state.Disconnected? <==> Ends(FaceOf(c).revents, e.read))
              && Noted(ledger.lives, w.ledger.lives, EventNotes(c, e, FaceOf(c).revents))
    {
      hide Orderly, GoesOnTo, Noted, Follows, IsOpen, Wants, Notes, Credible, Ends, AfterHangUp, AfterInput, AfterOutput;
      HomeMeans(c);
      var v := AfterHangUp(c).AfterInput(c, e.read, e.script);
      var w := v.AfterOutput(c, e.wr);
      var more := if Wants(FaceOf(c).revents, EPOLLOUT) && !Ends(FaceOf(c).revents, e.read) then [Note(c, Writable(e.wr))] else [];
      InputFollows(c, e);
      v.OrderlyMeans();
      v.OutputGoesOn(c, e.wr);
      v.OrderlyOn(w);
      v.GoingFollows(c, w);
      FollowsChain(c, v, w);
      NotedChain(ledger.lives, v.ledger.lives, w.ledger.lives, InputNotes(c, e, FaceOf(c).revents), more);
    }

    function InputNotes(c: C, e: Event, revents: bv32): seq<Note<C>> {
      if Delivers(revents, e.read) then [Note(c, FromPeer(e.read.bytes))] + Notes(e.script, |e.script|) else []
    }

    /** Up to the answer to write interest. */
    lemma InputFollows(c: C, e: Event)
      requires Home(c)
      ensures var v := AfterHangUp(c).AfterInput(c, e.read, e.script);
              && Follows(c, v) && v.Orderly() && c in v.ledger.lives && v.FaceOf(c).revents == FaceOf(c).revents
              && (v.FaceOf(c).state.Disconnected? <==> Ends(FaceOf(c).revents, e.read))
              && (IsOpen(v.FaceOf(c)) <==> !Ends(FaceOf(c).revents, e.read))
              && Noted(ledger.lives, v.ledger.lives, InputNotes(c, e, FaceOf(c).revents))
    {
      hide Orderly, GoesOnTo, Noted, Follows, IsOpen, Wants, Notes, Credible;
      HomeMeans(c);
      ClosedFollows(c);
      ReadingFollows(c, e.read, e.script);
      StaysHere();
      GoingFollows(c, this);
      NotedNothing(ledger.lives);
      FollowsMeans(c, AfterHangUp(c).AfterInput(c, e.read, e.script));
    }

    /** A write event at a connection with bytes waiting is answered. */
    lemma WriteAnswered(c: C, e: Event)
      requires Home(c) && Wants(FaceOf(c).revents, EPOLLOUT) && !Ends(FaceOf(c).revents, e.read) && e.wr.Wrote?
      ensures var f, g := AfterHangUp(c).AfterInput(c, e.read, e.script).FaceOf(c), Handled(c, e).FaceOf(c);
              f.output != [] && !f.io.broken && f.io.halfCloses == 0 ==>
                var k := Min(e.wr.n, |f.output|);
                && g.io.accepted == f.io.accepted + f.output[..k] && g.output == f.output[k..]
                && (k == |f.output| ==>
                      && !Wants(g.events, WRITE_EVENT) && g.io.completions == f.io.completions + 1
                      && (f.state.Disconnecting? ==> g.io.halfCloses == 1 && g.io.shut == g.io.sends))
    {
      hide Orderly, Noted, Follows, Wants, Credible, AfterReading, AfterWritable;
      HomeMeans(c);
      ReadingFollows(c, e.read, e.script);
      var f := AfterHangUp(c).AfterInput(c, e.read, e.script).FaceOf(c);
      if f.output != [] && !f.io.broken && f.io.halfCloses == 0 {
        WritableAnswers(f, e.wr.n);
      }
    }

    lemma FollowsMeans(c: C, w: World<C>)
      requires Follows(c, w) && c in ledger.lives
      ensures c in w.ledger.lives
    {
    }

    // ---- A dispatch as a whole ----

    /** Each event empties the slot of its own descriptor if it ends the connection there, */
    function Emptied(events: seq<Event>, n: nat): map<int, C>
      requires n <= |events|
    {
      if n == 0 then slots
      else
        var e := events[n - 1];
        if Ends(e.revents, e.read) then Emptied(events, n - 1)[e.fd := none] else Emptied(events, n - 1)
    }

    /** sends that connection to the pool, */
    function Enders(events: seq<Event>, n: nat): seq<C>
      requires n <= |events|
    {
      if n == 0 then []
      else
        var e := events[n - 1];
        Enders(events, n - 1) + if Ends(e.revents, e.read) then [At(e.fd)] else []
    }

    /** and does to the stories what it should, the user reaching whoever is still there. */
    function AllNotes(events: seq<Event>, n: nat): seq<Note<C>>
      requires n <= |events|
    {
      if n == 0 then []
      else
        var e := events[n - 1];
        AllNotes(events, n - 1)
        + this.(slots := Emptied(events, n - 1)).EventNotes(At(e.fd), e, e.revents)
    }

    /** Reported for a descriptor whose connection is open, and not yet handled. */
    ghost predicate Due(e: Event, c: C) {
      Home(c) && FaceOf(c).sockFd == e.fd && FaceOf(c).revents == e.revents
    }

    ghost predicate DispatchedTo(events: seq<Event>, n: nat, w: World<C>)
      requires n <= |events|
    {
      && w.Orderly() && w.none == none && Carries(ledger, w.ledger)
      && w.slots == Emptied(events, n) && w.pool == pool + Enders(events, n)
      && Noted(ledger.lives, w.ledger.lives, AllNotes(events, n))
      && forall k :: n <= k < |events| ==> w.Due(events[k], At(events[k].fd))
    }

    /** Reports change nothing but what is reported. */
    ghost predicate ReportedTo(events: seq<Event>, n: nat, w: World<C>)
      requires n <= |events|
    {
      && w == this.(ledger := w.ledger) && Carries(ledger, w.ledger) && w.Orderly()
      && Noted(ledger.lives, w.ledger.lives, [])
      && (forall c :: c in ledger.lives ==> w.FaceOf(c) == FaceOf(c).(revents := w.FaceOf(c).revents))
      && (forall k :: 0 <= k < n ==> w.FaceOf(At(events[k].fd)).revents == events[k].revents)
    }

    lemma {:induction false} AllReportedFollows(events: seq<Event>, n: nat)
      requires Orderly() && Reportable(events) && n <= |events|
      ensures ReportedTo(events, n, AllReported(events, n))
    {
      hide Orderly, Noted, Carries, ReportedTo, Reported;
      if n == 0 {
        NoneReported(events);
      } else {
        AllReportedFollows(events, n - 1);
        OneReported(events, n - 1, AllReported(events, n - 1));
      }
    }

    lemma NoneReported(events: seq<Event>)
      requires Orderly()
      ensures ReportedTo(events, 0, this)
    {
      StaysHere();
      NotedNothing(ledger.lives);
    }

    lemma OneReported(events: seq<Event>, n: nat, v: World<C>)
      requires Orderly() && Reportable(events) && n < |events| && ReportedTo(events, n, v)
      ensures ReportedTo(events, n + 1, v.Reported(events[n]))
    {
      hide Noted, Carries, Past, IsOpen, Reported, Pooled, Credible;
      var e, c := events[n], At(events[n].fd);
      assert Held(e.fd);
      var quiet: seq<Note<C>> := [];
      v.ReportedFollows(c, e);
      CarriesChain(ledger, v.ledger, v.Reported(e).ledger);
      NotedChain(ledger.lives, v.ledger.lives, v.Reported(e).ledger.lives, quiet, quiet);
      assert quiet + quiet == quiet;
      forall k | 0 <= k < n ensures At(events[k].fd) != c {
        assert FaceOf(At(events[k].fd)).sockFd == events[k].fd != e.fd == FaceOf(c).sockFd;
      }
    }

    lemma ReportedFollows(c: C, e: Event)
      requires Orderly() && Held(e.fd) && c == At(e.fd)
      ensures var w := Reported(e);
              && w == this.(ledger := w.ledger) && Carries(ledger, w.ledger) && w.Orderly()
              && Noted(ledger.lives, w.ledger.lives, [])
              && w.ledger.lives == ledger.lives[c := LifeOf(c).(face := FaceOf(c).(revents := e.revents))]
    {
      hide Extends, Carries, Noted, Past, Slotted, Pooled, IsOpen, Explained;
      var f := FaceOf(c).(revents := e.revents);
      SameExtends(f.io);
      ReportExplained(FaceOf(c), LifeOf(c).story, e.revents);
      assert LifeOf(c).story + [] == LifeOf(c).story;
      ShownFollows(c, f, [], Reported(e));
      ShowOrderly(c, f);
    }

    lemma ShowOrderly(c: C, f: Face)
      requires Slotted() && Pooled() && c in ledger.lives
      requires f.state == FaceOf(c).state && f.sockFd == FaceOf(c).sockFd
      ensures Show(c, f, []).Slotted() && Show(c, f, []).Pooled()
    {
    }

    /** Exactly those connections end whose own events end them, in the order of their events, each
        still in its slot when its turn comes, and every story goes on as it should. */
    lemma {:induction false} DispatchFollows(events: seq<Event>, n: nat)
      requires Orderly() && Reportable(events) && n <= |events|
      ensures DispatchedTo(events, n, Dispatched(events, n))
    {
      hide Orderly, Reportable, DispatchedTo, ReportedTo, Handled, AllReported;
      if n == 0 {
        AllReportedFollows(events, |events|);
        FirstDue(events, AllReported(events, |events|));
      } else {
        DispatchFollows(events, n - 1);
        OneDispatched(events, n - 1, Dispatched(events, n - 1));
      }
    }

    lemma NoneDispatched(events: seq<Event>)
      ensures Dispatched(events, 0) == AllReported(events, |events|)
    {
    }

    /** Nothing is taken from the pool meanwhile. */
    lemma DispatchEnds(events: seq<Event>)
      requires Orderly() && Reportable(events)
      ensures var w := Dispatched(events, |events|);
              w.slots == Emptied(events, |events|) && w.pool == pool + Enders(events, |events|)
    {
      DispatchFollows(events, |events|);
    }

    lemma FirstDue(events: seq<Event>, w: World<C>)
      requires Orderly() && Reportable(events) && ReportedTo(events, |events|, w)
      ensures DispatchedTo(events, 0, w)
    {
      hide Noted, Carries, Past;
    }

    lemma OneDispatched(events: seq<Event>, n: nat, v: World<C>)
      requires Orderly() && Reportable(events) && n < |events| && DispatchedTo(events, n, v)
      ensures DispatchedTo(events, n + 1, v.Handled(At(events[n].fd), events[n]))
    {
      hide Ends, Delivers, Noted, Orderly, Home, Handled, Carries, Follows, Notes;
      var c, e := At(events[n].fd), events[n];
      var w := v.Handled(c, e);
      assert v.Due(e, c);
      v.HandledFollows(c, e);
      v.FollowsOpen(c, w, e.fd);
      CarriesChain(ledger, v.ledger, w.ledger);
      NotedChain(ledger.lives, v.ledger.lives, w.ledger.lives, AllNotes(events, n), v.EventNotes(c, e, e.revents));
      CarriesLives(v);
      this.(slots := Emptied(events, n)).SameNotes(v, e.script, |e.script|);
      forall k | n + 1 <= k < |events| ensures w.Due(events[k], At(events[k].fd)) {
        assert v.Due(events[k], At(events[k].fd));
        v.StillDue(c, w, e.fd, events[k], At(events[k].fd));
      }
    }

    lemma CarriesLives(w: World<C>)
      requires Carries(ledger, w.ledger)
      ensures w.ledger.lives.Keys == ledger.lives.Keys
    {
    }

    lemma FollowsOpen(c: C, w: World<C>, fd: int)
      requires Home(c) && Follows(c, w) && FaceOf(c).sockFd == fd
      ensures w.none == none && Carries(ledger, w.ledger)
      ensures w.slots == (if w.FaceOf(c).state.Disconnected? then slots[fd := none] else slots)
      ensures w.pool == pool + if w.FaceOf(c).state.Disconnected? then [c] else []
    {
    }

    lemma StillDue(c: C, w: World<C>, fd: int, e: Event, d: C)
      requires Home(c) && FaceOf(c).sockFd == fd && Follows(c, w) && w.Orderly() && Due(e, d) && e.fd != fd
      ensures w.Due(e, d)
    {
      hide Past, IsOpen, Extends;
      assert Held(e.fd) && w.Held(e.fd);
    }

    // ---- Any step ----

    /** A new life begins in an empty slot, and shows nothing of an earlier one. */
    lemma BegunFollows(c: C, fd: int)
      requires Orderly() && Comes(c) && fd !in open
      ensures Begun(c, fd).Orderly() && Begins(ledger, Begun(c, fd).ledger, c)
      ensures Begun(c, fd).FaceOf(c) == OpenFace(fd)
      ensures forall d :: d in ledger.lives && d != c ==> Begun(c, fd).ledger.lives[d] == ledger.lives[d]
    {
      hide Past, Extends, Slotted, Pooled, Explained;
      FreshExplained(fd);
      BeginsKeeps(ledger, Begun(c, fd).ledger, c);
      BegunSlots(c, fd);
      BegunPool(c, fd);
    }

    lemma BegunSlots(c: C, fd: int)
      requires Slotted() && Pooled() && Comes(c) && fd !in open && none !in ledger.lives
      ensures Begun(c, fd).Slotted()
    {
      hide Comes;
      ComesClosed(c);
      var w := Begun(c, fd);
      forall d | w.Held(d) && d != fd ensures Held(d) && w.slots[d] == slots[d] != c {
        assert slots[d] != none;
      }
    }

    lemma ComesClosed(c: C)
      requires Pooled() && Comes(c)
      ensures c != none && (c in ledger.lives ==> !IsOpen(FaceOf(c)))
    {
      if pool != [] {
        assert c in pool;
      }
    }

    lemma BegunPool(c: C, fd: int)
      requires Pooled() && Comes(c)
      ensures Begun(c, fd).Pooled()
    {
      var w := Begun(c, fd);
      forall k | 0 <= k < |w.pool| ensures w.pool[k] == pool[k] != c && w.pool[k] in pool {}
    }

    lemma BegunMeans(c: C, fd: int)
      ensures var w := Begun(c, fd);
              && w.Held(fd) && w.slots[fd] == c && IsOpen(w.FaceOf(c)) && w.ledger.lives.Keys == ledger.lives.Keys + {c}
              && w.LifeOf(c).number == (if c in ledger.lives then LifeOf(c).number + 1 else 0)
              && w.ledger.pending == ledger.pending && w.ledger.asked == ledger.asked && w.ledger.closings == ledger.closings
              && w.open == open + {fd}
    {
    }

    /** A forced close of an open connection queues a request by its present life, and no more. */
    lemma Forced(fd: int)
      requires Held(fd) && IsOpen(FaceOf(slots[fd]))
      ensures var c, w := slots[fd], AfterAct(Act(fd, ForceClose));
              && w == this.(ledger := w.ledger) && w.ledger.lives.Keys == ledger.lives.Keys
              && w.ledger.pending == ledger.pending + [c] && w.ledger.asked == ledger.asked + [LifeOf(c).number]
              && w.ledger.closings == ledger.closings && IsOpen(w.FaceOf(c)) && w.LifeOf(c).number == LifeOf(c).number
    {
    }

    lemma ServedFollows()
      requires Orderly() && ledger.pending != []
      ensures ledger.asked != [] && Served().Orderly()
      ensures Serves(ledger, Served().ledger) && Noted(ledger.lives, Served().ledger.lives, [])
    {
      hide Orderly, Noted, Serves, Carries, Credible, Past;
      PendingKnown();
      var c := ledger.pending[0];
      var v := this.(ledger := ledger.(pending := ledger.pending[1..], asked := ledger.asked[1..],
        closings := ledger.closings + [Closing(c, ledger.asked[0], if IsOpen(FaceOf(c)) then Some(LifeOf(c).number) else None)]));
      LessOrderly(v);
      NotedNothing(ledger.lives);
      if IsOpen(FaceOf(c)) {
        v.ClosedFollows(c);
      } else {
        v.OrderlyMeans();
        v.StaysHere();
      }
      ServedServes(v, Served());
    }

    lemma PendingKnown()
      requires Orderly() && ledger.pending != []
      ensures |ledger.asked| == |ledger.pending| && ledger.pending[0] in ledger.lives
    {
      hide Explained, Slotted, Pooled;
    }

    lemma ServedServes(v: World<C>, w: World<C>)
      requires ledger.pending != [] && ledger.asked != [] && ledger.pending[0] in ledger.lives
      requires var c := ledger.pending[0];
               v.ledger == ledger.(pending := ledger.pending[1..], asked := ledger.asked[1..],
                 closings := ledger.closings + [Closing(c, ledger.asked[0], if IsOpen(FaceOf(c)) then Some(LifeOf(c).number) else None)])
      requires w.ledger == v.ledger.(lives := w.ledger.lives) && Carries(v.ledger, w.ledger)
      ensures Serves(ledger, w.ledger)
    {
      hide Extends;
    }

    lemma LessOrderly(w: World<C>)
      requires Orderly() && ledger.pending != [] && ledger.asked != []
      requires w == this.(ledger := w.ledger) && w.ledger.lives == ledger.lives
      requires w.ledger.pending == ledger.pending[1..] && w.ledger.asked == ledger.asked[1..]
      ensures w.Orderly() && ledger.pending[0] in ledger.lives
    {
    }

    /** What happens in a step, and to whom. */
    function StepNotes(step: Step, w: World<C>): seq<Note<C>> {
      match step
      case Dispatching(events) => if Reportable(events) then AllNotes(events, |events|) else []
      case Acting(script) => Notes(script, |script|)
      case Creating(fd, script, guarded) =>
        if Takes(fd, guarded) then Begun(w.At(fd), fd).Notes(script, |script|) else []
      case ForceClosing => []
    }

    /** The story of whoever is in the same life has gone on by these notes; whoever has begun another
        has no other story. */
    ghost predicate Tells(w: World<C>, notes: seq<Note<C>>) {
      forall c :: c in w.ledger.lives ==>
        w.LifeOf(c).story
        == (if c in ledger.lives && LifeOf(c).number == w.LifeOf(c).number then LifeOf(c).story else []) + To(notes, c)
    }

    lemma TellsSame(w: World<C>, notes: seq<Note<C>>, c: C)
      requires Tells(w, notes) && c in ledger.lives && c in w.ledger.lives && LifeOf(c).number == w.LifeOf(c).number
      ensures w.LifeOf(c).story == LifeOf(c).story + To(notes, c)
    {
    }

    lemma TellsFirst(w: World<C>, notes: seq<Note<C>>, c: C)
      requires Tells(w, notes) && c in w.ledger.lives
      requires c !in ledger.lives || LifeOf(c).number != w.LifeOf(c).number
      ensures w.LifeOf(c).story == To(notes, c)
    {
    }

    lemma TellsOf(w: World<C>, notes: seq<Note<C>>)
      requires Noted(ledger.lives, w.ledger.lives, notes) && SameLives(ledger.lives, w.ledger.lives)
      ensures Tells(w, notes)
    {
    }

    lemma TellsNew(c: C, fd: int, w: World<C>, notes: seq<Note<C>>)
      requires Orderly() && Comes(c)
      requires Noted(Begun(c, fd).ledger.lives, w.ledger.lives, notes) && SameLives(Begun(c, fd).ledger.lives, w.ledger.lives)
      ensures Tells(w, notes)
    {
      hide Extends;
    }

    /** Every step keeps the loop in order, and every story goes on by exactly what happens in it. */
    lemma StepFollows(step: Step, w: World<C>)
      requires Orderly() && Steps(step, w)
      ensures w.Orderly() && Tells(w, StepNotes(step, w))
    {
      hide Orderly, Tells, Noted, GoesOnTo, Reportable, Dispatched, Served, Comes, Begun, Notes, AllNotes, AfterScript;
      NotedNothing(ledger.lives);
      OrderlyMeans();
      StaysHere();
      GoingTells(this, []);
      match step {
        case Dispatching(events) =>
          if Reportable(events) {
            DispatchFollows(events, |events|);
            DispatchedTells(events, w);
          }
        case Acting(script) =>
          ScriptGoesOn(script, |script|);
          GoingTells(w, Notes(script, |script|));
        case Creating(fd, script, guarded) =>
          if Takes(fd, guarded) {
            assert fd !in open;
            CreatingFollows(fd, script, w);
          }
        case ForceClosing =>
          if ledger.pending != [] {
            ServedFollows();
            ServedTells(w);
          }
      }
    }

    /** One operation from outside any event reaches the open connection it names, */
    lemma OneAct(act: Act, w: World<C>)
      requires Orderly() && Steps(Acting([act]), w) && Held(act.fd)
      ensures var c := slots[act.fd]; c in w.ledger.lives && w.LifeOf(c).story == LifeOf(c).story + [ByUser(act.deed)]
    {
      assert AfterScript([act], 0) == this;
      assert AfterScript([act], 1) == AfterAct(act);
      hide AfterDeed;
    }

    /** one event with a quiet callback delivers what was read and answers what was asked, */
    lemma OneEvent(e: Event, w: World<C>)
      requires Orderly() && Reportable([e]) && Steps(Dispatching([e]), w) && e.script == [] && !Ends(e.revents, e.read)
      ensures var c := At(e.fd);
              && c in w.ledger.lives && c in ledger.lives
              && w.LifeOf(c).story == LifeOf(c).story
                 + (if Wants(e.revents, EPOLLIN | EPOLLPRI | EPOLLHUP) && e.read.Received? then [FromPeer(e.read.bytes)] else [])
                 + (if Wants(e.revents, EPOLLOUT) then [Writable(e.wr)] else [])
    {
      hide Orderly, Reportable, Dispatched, Tells, Wants, Ends, AllNotes, DispatchedTo;
      var c := At(e.fd);
      ReportableMeans([e]);
      assert Held([e][0].fd);
      StepFollows(Dispatching([e]), w);
      DispatchFollows([e], 1);
      DispatchedLives([e], w);
      TellsSame(w, AllNotes([e], 1), c);
      OneEventNotes(e);
    }

    lemma OneEventNotes(e: Event)
      requires e.script == [] && !Ends(e.revents, e.read)
      ensures To(AllNotes([e], 1), At(e.fd))
           == (if Wants(e.revents, EPOLLIN | EPOLLPRI | EPOLLHUP) && e.read.Received? then [FromPeer(e.read.bytes)] else [])
              + (if Wants(e.revents, EPOLLOUT) then [Writable(e.wr)] else [])
    {
      hide Wants;
      var c := At(e.fd);
      var d := if Delivers(e.revents, e.read) then [Note(c, FromPeer(e.read.bytes))] else [];
      var o := if Wants(e.revents, EPOLLOUT) then [Note(c, Writable(e.wr))] else [];
      assert AllNotes([e], 0) == [];
      assert AllNotes([e], 1) == d + o;
      ToConcat(d, o, c);
      OneNote(c, FromPeer(if e.read.Received? then e.read.bytes else []));
      OneNote(c, Writable(e.wr));
    }

    lemma OneNote(c: C, x: Item)
      ensures To([Note(c, x)], c) == [x]
    {
      assert To([], c) == [];
    }

    lemma ReportableMeans(events: seq<Event>)
      requires Reportable(events)
      ensures forall i :: 0 <= i < |events| ==> Held(events[i].fd)
    {
    }

    lemma DispatchedLives(events: seq<Event>, w: World<C>)
      requires DispatchedTo(events, |events|, w)
      ensures forall c :: c in ledger.lives ==> c in w.ledger.lives && w.LifeOf(c).number == LifeOf(c).number
    {
      hide Noted, Orderly, Extends;
    }

    /** and a new connection's callback reaches it. */
    lemma OneBirth(fd: int, deed: Deed, w: World<C>)
      requires Orderly() && Steps(Creating(fd, [Act(fd, deed)], false), w) && fd !in open
      ensures var c := w.At(fd); c in w.ledger.lives && w.LifeOf(c).story == [ByUser(deed)]
    {
      var c := w.At(fd);
      var u := Begun(c, fd);
      assert u.AfterScript([Act(fd, deed)], 0) == u;
      assert u.AfterScript([Act(fd, deed)], 1) == u.AfterAct(Act(fd, deed));
      hide AfterDeed;
    }

    lemma GoingTells(w: World<C>, notes: seq<Note<C>>)
      requires GoesOnTo(w) && Noted(ledger.lives, w.ledger.lives, notes)
      ensures Tells(w, notes)
    {
      hide Noted, Extends;
      TellsOf(w, notes);
    }

    lemma DispatchedTells(events: seq<Event>, w: World<C>)
      requires DispatchedTo(events, |events|, w)
      ensures w.Orderly() && Tells(w, AllNotes(events, |events|))
    {
      hide Noted, Extends, AllNotes, Orderly;
      TellsOf(w, AllNotes(events, |events|));
    }

    lemma ServedTells(w: World<C>)
      requires Serves(ledger, w.ledger) && Noted(ledger.lives, w.ledger.lives, [])
      ensures Tells(w, [])
    {
      hide Noted, Extends;
      TellsOf(w, []);
    }

    lemma CreatingFollows(fd: int, script: seq<Act>, w: World<C>)
      requires Orderly() && fd !in open && Comes(w.At(fd))
      requires w == Begun(w.At(fd), fd).AfterScript(script, |script|)
      ensures w.Orderly() && Tells(w, Begun(w.At(fd), fd).Notes(script, |script|))
    {
      hide Orderly, Noted, Comes, Begun, Notes, AfterScript, Tells, Extends;
      var c := w.At(fd);
      var u := Begun(c, fd);
      BegunFollows(c, fd);
      u.ScriptGoesOn(script, |script|);
      TellsNew(c, fd, w, u.Notes(script, |script|));
    }

    /** Within a life, history only grows; no request is lost, repeated or reordered; and a step that takes nobody from the pool with a request
        waiting leaves every request to the life that made it, and ends no other life by it. */
    ghost predicate Improves(guarded: bool, w: World<C>) {
      && Onward(ledger.lives, w.ledger.lives) && ledger.closings <= w.ledger.closings
      && Requests(ledger) <= Requests(w.ledger)
      && (guarded && Current(ledger) ==>
            Current(w.ledger) && forall k :: |ledger.closings| <= k < |w.ledger.closings| ==> Honest(w.ledger.closings[k]))
    }

    lemma CarriesImproves(w: World<C>)
      requires Carries(ledger, w.ledger)
      ensures Improves(true, w)
    {
      CarriesKeeps(ledger, w.ledger);
      CarriesRequests(ledger, w.ledger);
      hide Current, Onward, Requests;
    }

    lemma ImprovesChain(g: bool, h: bool, v: World<C>, w: World<C>)
      requires Improves(g, v) && v.Improves(h, w)
      ensures Improves(g && h, w)
    {
      OnwardChain(ledger.lives, v.ledger.lives, w.ledger.lives);
      hide Current, Onward, Honest, Requests;
    }

    lemma BegunImproves(c: C, fd: int)
      requires Orderly() && Comes(c) && fd !in open
      ensures Improves(pool == [] || pool[|pool| - 1] !in ledger.pending, Begun(c, fd))
    {
      BegunFollows(c, fd);
      BeginsKeeps(ledger, Begun(c, fd).ledger, c);
      NewHasNone(c);
      hide Current, Onward, Honest, Begins;
      BeginsMeans(ledger, Begun(c, fd).ledger, c);
    }

    lemma NewHasNone(c: C)
      requires Past(ledger)
      ensures c !in ledger.lives ==> c !in ledger.pending
    {
    }

    lemma ServedImproves(w: World<C>)
      requires Serves(ledger, w.ledger) && |ledger.asked| == |ledger.pending|
      ensures Improves(true, w)
    {
      ServesKeeps(ledger, w.ledger);
      ServesRequests(ledger, w.ledger);
      hide Current, Onward, Honest, Requests;
    }

    lemma StepImproves(step: Step, w: World<C>)
      requires Orderly() && Steps(step, w)
      ensures Improves(Guarded(step), w)
    {
      hide Orderly, GoesOnTo, Reportable, Dispatched, Served, Comes, Begun, AfterScript, Improves, Carries, Serves, Noted;
      OrderlyMeans();
      CarriesNone(ledger);
      CarriesImproves(this);
      Less(true, Guarded(step), this);
      match step {
        case Dispatching(events) =>
          if Reportable(events) {
            DispatchFollows(events, |events|);
            DispatchedCarries(events, w);
            CarriesImproves(w);
          }
        case Acting(script) =>
          ScriptGoesOn(script, |script|);
          GoingCarries(w);
          CarriesImproves(w);
        case Creating(fd, script, guarded) =>
          if Takes(fd, guarded) {
            var u := Begun(w.At(fd), fd);
            BegunFollows(w.At(fd), fd);
            BegunImproves(w.At(fd), fd);
            u.ScriptGoesOn(script, |script|);
            u.GoingCarries(w);
            u.CarriesImproves(w);
            var clear := pool == [] || pool[|pool| - 1] !in ledger.pending;
            ImprovesChain(clear, true, u, w);
            Less(clear && true, guarded, w);
          }
        case ForceClosing =>
          if ledger.pending != [] {
            ServedFollows();
            ServedImproves(w);
          }
      }
    }

    lemma Less(g: bool, h: bool, w: World<C>)
      requires Improves(g, w) && (h ==> g)
      ensures Improves(h, w)
    {
    }

    lemma DispatchedCarries(events: seq<Event>, w: World<C>)
      requires DispatchedTo(events, |events|, w)
      ensures Carries(ledger, w.ledger)
    {
    }

    lemma GoingCarries(w: World<C>)
      requires GoesOnTo(w)
      ensures Carries(ledger, w.ledger)
    {
    }
  }

  lemma BeginsMeans<C>(l: Ledger<C>, m: Ledger<C>, c: C)
    requires Begins(l, m, c)
    ensures m.pending == l.pending && m.closings == l.closings && Requests(m) == Requests(l)
  {
  }

  predicate Guarded(step: Step) {
    step.Creating? ==> step.guarded
  }

  // ---- Whole runs ----

  ghost predicate IsRun<C>(schedule: seq<Step>, trace: seq<World<C>>) {
    && |trace| == |schedule| + 1
    && forall k :: 0 <= k < |schedule| ==> trace[k].Steps(schedule[k], trace[k + 1])
  }

  lemma {:induction false} RunOrderly<C>(schedule: seq<Step>, trace: seq<World<C>>, n: nat)
    requires IsRun(schedule, trace) && trace[0].Orderly() && n <= |schedule|
    ensures trace[n].Orderly()
    ensures trace[0].Improves((forall k :: 0 <= k < |schedule| ==> Guarded(schedule[k])), trace[n])
  {
    hide World.Orderly, World.Improves, World.Steps, Carries;
    var g := forall k :: 0 <= k < |schedule| ==> Guarded(schedule[k]);
    if n == 0 {
      trace[0].OrderlyMeans();
      CarriesNone(trace[0].ledger);
      trace[0].CarriesImproves(trace[0]);
      trace[0].Less(true, g, trace[0]);
    } else {
      RunOrderly(schedule, trace, n - 1);
      assert trace[n - 1].Steps(schedule[n - 1], trace[n]);
      trace[n - 1].StepFollows(schedule[n - 1], trace[n]);
      trace[n - 1].StepImproves(schedule[n - 1], trace[n]);
      trace[0].ImprovesChain(g, Guarded(schedule[n - 1]), trace[n - 1], trace[n]);
      trace[0].Less(g && Guarded(schedule[n - 1]), g, trace[n]);
    }
  }

  /** What happens from the i-th step up to the j-th. */
  function Told<C>(schedule: seq<Step>, trace: seq<World<C>>, i: nat, j: nat): seq<Note<C>>
    requires i <= j <= |schedule| < |trace|
  {
    if i == j then [] else Told(schedule, trace, i, j - 1) + trace[j - 1].StepNotes(schedule[j - 1], trace[j])
  }

  /** For as long as a life lasts, its story goes on by exactly what the schedule has happen to it, in
      order. */
  lemma {:induction false} LifeLong<C>(schedule: seq<Step>, trace: seq<World<C>>, i: nat, j: nat, c: C)
    requires IsRun(schedule, trace) && trace[0].Orderly() && i <= j <= |schedule|
    requires c in trace[i].ledger.lives && c in trace[j].ledger.lives
    requires trace[i].LifeOf(c).number == trace[j].LifeOf(c).number
    ensures trace[j].LifeOf(c).story == trace[i].LifeOf(c).story + To(Told(schedule, trace, i, j), c)
  {
    hide World.Orderly, World.Steps, World.StepNotes, World.Tells;
    if i < j {
      var v, w := trace[j - 1], trace[j];
      SameBetween(schedule, trace, i, j - 1, j, c);
      LifeLong(schedule, trace, i, j - 1, c);
      RunOrderly(schedule, trace, j - 1);
      assert v.Steps(schedule[j - 1], w);
      v.StepFollows(schedule[j - 1], w);
      v.TellsSame(w, v.StepNotes(schedule[j - 1], w), c);
      ToConcat(Told(schedule, trace, i, j - 1), v.StepNotes(schedule[j - 1], w), c);
    }
  }

  lemma SameBetween<C>(schedule: seq<Step>, trace: seq<World<C>>, i: nat, k: nat, j: nat, c: C)
    requires IsRun(schedule, trace) && trace[0].Orderly() && i <= k <= j <= |schedule|
    requires c in trace[i].ledger.lives && c in trace[j].ledger.lives
    requires trace[i].LifeOf(c).number == trace[j].LifeOf(c).number
    ensures c in trace[k].ledger.lives && trace[k].LifeOf(c).number == trace[i].LifeOf(c).number
  {
    hide World.Orderly, World.Steps, Extends;
    LaterRun(schedule, trace, i, k);
    LaterRun(schedule, trace, k, j);
  }

  lemma {:induction false} LaterRun<C>(schedule: seq<Step>, trace: seq<World<C>>, i: nat, j: nat)
    requires IsRun(schedule, trace) && trace[0].Orderly() && i <= j <= |schedule|
    ensures Onward(trace[i].ledger.lives, trace[j].ledger.lives)
  {
    hide World.Orderly, World.Steps, Onward;
    RunOrderly(schedule, trace, i);
    assert IsRun(schedule[i..], trace[i..]);
    RunOrderly(schedule[i..], trace[i..], j - i);
  }

  lemma {:induction false} ToldSplit<C>(schedule: seq<Step>, trace: seq<World<C>>, i: nat, k: nat, j: nat)
    requires i <= k <= j <= |schedule| < |trace|
    ensures Told(schedule, trace, i, j) == Told(schedule, trace, i, k) + Told(schedule, trace, k, j)
  {
    hide World.StepNotes;
    if k < j {
      ToldSplit(schedule, trace, i, k, j - 1);
    }
  }

  /** From its beginning, that is everything. */
  lemma WholeLife<C>(schedule: seq<Step>, trace: seq<World<C>>, i: nat, j: nat, c: C)
    requires IsRun(schedule, trace) && trace[0].Orderly() && i < j <= |schedule|
    requires c in trace[i + 1].ledger.lives && c in trace[j].ledger.lives
    requires trace[i + 1].LifeOf(c).number == trace[j].LifeOf(c).number
    requires c !in trace[i].ledger.lives || trace[i].LifeOf(c).number < trace[i + 1].LifeOf(c).number
    ensures trace[j].LifeOf(c).story == To(Told(schedule, trace, i, j), c)
  {
    hide World.Orderly, World.Steps, World.StepNotes, World.Tells;
    RunOrderly(schedule, trace, i);
    assert trace[i].Steps(schedule[i], trace[i + 1]);
    trace[i].StepFollows(schedule[i], trace[i + 1]);
    trace[i].TellsFirst(trace[i + 1], trace[i].StepNotes(schedule[i], trace[i + 1]), c);
    LifeLong(schedule, trace, i + 1, j, c);
    ToldSplit(schedule, trace, i, i + 1, j);
    ToConcat(Told(schedule, trace, i, i + 1), Told(schedule, trace, i + 1, j), c);
    assert Told(schedule, trace, i, i + 1) == trace[i].StepNotes(schedule[i], trace[i + 1]);
  }
}
