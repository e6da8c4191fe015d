/** One loop's connections: channels registered with epoll, the connection state machine with its
    output stream, and the recycling of closed connections through a pool. Results of system calls
    are parameters; the methods fit them to what the kernel can answer. */
module Reactor {
  import opened ByteStreams
  import opened Faces
  import opened Lives
  import opened Loops
  import opened NetBuffers
  import opened Options
  import opened Stories
  import opened Wire

  const EBADF: int := 9

  datatype Op = CtlAdd | CtlMod | CtlDel

  /** One entry of the kernel's interest set. */
  datatype Interest = Interest(mask: bv32, ptr: Channel)

  /** An open descriptor whose channel's status tells whether the kernel watches it. */
  ghost predicate Registered(interest: map<int, Interest>, open: set<int>, ch: Channel, fd: int, status: Status) {
    && fd in open
    && (status.Added? <==> fd in interest)
    && (status.Added? ==> interest[fd].ptr == ch)
  }

  /** ... with exactly the events the channel asked for. */
  ghost predicate Agrees(interest: map<int, Interest>, open: set<int>, ch: Channel, fd: int, status: Status, events: bv32) {
    && Registered(interest, open, ch, fd, status)
    && (status.Added? ==> interest[fd].mask == events)
  }

  class Channel {
    const loop: Epoll
    var fd: int
    var events: bv32
    var revents: bv32
    var status: Status
    var eventHandling: bool
    var addedToLoop: bool

    constructor (loop: Epoll, fd: int)
      ensures this.loop == loop && this.fd == fd && events == NONE_EVENT && revents == NONE_EVENT
      ensures status == New && !eventHandling && !addedToLoop
    {
      this.loop, this.fd := loop, fd;
      events, revents, status := NONE_EVENT, NONE_EVENT, New;
      eventHandling, addedToLoop := false, false;
    }

    ghost predicate Ready()
      reads this, loop
    {
      Agrees(loop.interest, loop.open, this, fd, status, events)
    }

    /** It has asked for these events. */
    twostate predicate Asked(mask: bv32)
      reads this
    {
      && events == mask && addedToLoop
      && status == if old(status).Added? && mask == NONE_EVENT then Deleted else Added
    }

    predicate IsWriting()
      reads this
    {
      Wants(events, WRITE_EVENT)
    }

    predicate IsReading()
      reads this
    {
      Wants(events, READ_EVENT)
    }

    method EnableEvents(mask: bv32)
      requires Ready()
      modifies this`events, this`status, this`addedToLoop, loop`interest, loop`channels
      ensures Ready() && Asked(With(old(events), mask))
      ensures forall d :: d != fd ==> Same(old(loop.interest), loop.interest, d)
    {
      events := events | mask;
      Update();
    }

    method DisableEvents(mask: bv32)
      requires Ready()
      modifies this`events, this`status, this`addedToLoop, loop`interest, loop`channels
      ensures Ready() && Asked(Without(old(events), mask))
      ensures forall d :: d != fd ==> Same(old(loop.interest), loop.interest, d)
    {
      events := events & !mask;
      Update();
    }

    method DisableAll()
      requires Ready()
      modifies this`events, this`status, this`addedToLoop, loop`interest, loop`channels
      ensures Ready() && events == NONE_EVENT && addedToLoop
      ensures status == if old(status).Added? then Deleted else Added
      ensures forall d :: d != fd ==> Same(old(loop.interest), loop.interest, d)
    {
      events := NONE_EVENT;
      Update();
    }

    method Update()
      requires Registered(loop.interest, loop.open, this, fd, status)
      modifies this`status, this`addedToLoop, loop`interest, loop`channels
      ensures Ready() && addedToLoop
      ensures status == if old(status).Added? && events == NONE_EVENT then Deleted else Added
      ensures forall d :: d != fd ==> Same(old(loop.interest), loop.interest, d)
    {
      addedToLoop := true;
      loop.UpdateChannel(this);
    }

    method Remove() returns (refused: bool)
      requires events == NONE_EVENT && Registered(loop.interest, loop.open, this, fd, status)
      modifies this`addedToLoop, this`status
      modifies loop`interest, loop`open, loop`connections, loop`connectionsPool
      ensures status == New && !addedToLoop
      ensures loop.open == old(loop.open) - {fd} && loop.interest == old(loop.interest) - {fd}
      ensures loop.connectionsPool == old(loop.connectionsPool)
                                      + [if fd in old(loop.connections) then old(loop.connections)[fd] else null]
      ensures loop.connections == old(loop.connections)[fd := null]
      ensures refused <==> old(status) == Added
    {
      addedToLoop := false;
      refused := loop.RemoveChannel(this);
    }

    method ChannelReset(socketId: int)
      modifies this
      ensures fd == socketId && events == NONE_EVENT && revents == NONE_EVENT && status == New
      ensures !eventHandling && !addedToLoop
    {
      fd := socketId;
      events := NONE_EVENT;
      revents := NONE_EVENT;
      status := New;
      eventHandling := false;
      addedToLoop := false;
    }
  }

  /** Two interest sets have the same entry, or none, for a descriptor. */
  ghost predicate Same(a: map<int, Interest>, b: map<int, Interest>, fd: int) {
    (fd in a <==> fd in b) && (fd in a ==> a[fd] == b[fd])
  }

  lemma SameSelf(a: map<int, Interest>)
    ensures forall d :: Same(a, a, d)
  {
  }

  lemma SameRest(a: map<int, Interest>, b: map<int, Interest>, fd: int)
    requires forall d :: d != fd ==> Same(a, b, d)
    ensures a - {fd} == b - {fd}
  {
    assert forall d :: d in a - {fd} <==> d != fd && d in a;
    forall d | d in a - {fd} ensures d in b - {fd} && a[d] == b[d] {
      assert Same(a, b, d);
    }
    forall d | d in b - {fd} ensures d in a - {fd} {
      assert Same(a, b, d);
    }
  }

  class Epoll {
    // the kernel's side
    var interest: map<int, Interest>
    var open: set<int>
    // the loop's side
    var channels: map<int, Channel>
    var connections: map<int, TcpConnection?>
    var connectionsPool: seq<TcpConnection?>
    var pending: seq<TcpConnection>  // functors queued by forceClose

    ghost var conns: set<TcpConnection>                  // every connection ever made here
    ghost var owner: map<object, TcpConnection>          // the connection each heap object belongs to
    ghost var lives: map<TcpConnection?, Life>
    ghost var asked: seq<nat>                            // the life behind each pending request
    ghost var closings: seq<Closing<TcpConnection?>>     // requests carried out

    constructor ()
      ensures Sane() && conns == {} && open == {} && connections == map[] && connectionsPool == []
      ensures TheLedger() == Ledger(map[], [], [], []) && owner == map[]
    {
      interest, open, channels := map[], {}, map[];
      connections, connectionsPool, pending := map[], [], [];
      conns, owner, lives, asked, closings := {}, map[], map[], [], [];
    }

    ghost function TheLedger(): Ledger<TcpConnection?>
      reads this
    {
      Ledger(lives, pending, asked, closings)
    }

    /** All of it, on values. */
    ghost function TheWorld(): World<TcpConnection?>
      reads this
    {
      World(null, connections, connectionsPool, open, TheLedger())
    }

    ghost predicate Owned(c: TcpConnection)
      reads this, c.inputBuffer, c.outputBuffer
    {
      && c in owner && owner[c] == c && c.channel in owner && owner[c.channel] == c
      && c.inputBuffer in owner && owner[c.inputBuffer] == c && c.inputBuffer.buffer in owner && owner[c.inputBuffer.buffer] == c
      && c.outputBuffer in owner && owner[c.outputBuffer] == c && c.outputBuffer.buffer in owner && owner[c.outputBuffer.buffer] == c
    }

    /** Every connection is in exactly one of two places: open under its own descriptor, or in the
        pool with no trace of its last life in the kernel. */
    ghost predicate Sound(c: TcpConnection)
      requires c.loop == this
      reads this, c, c.Footprint()
    {
      if c.state.Disconnected? then c.Idle() else c.Live() && !c.state.Connecting?
    }

    /** The ledger shows what it shows. */
    ghost predicate Recorded(c: TcpConnection)
      reads this, c, c.channel, c.inputBuffer, c.inputBuffer.buffer, c.outputBuffer, c.outputBuffer.buffer
    {
      c in lives && c.inputBuffer.Indexed() && c.outputBuffer.Indexed() && lives[c].face == c.TheFace()
    }

    /** Each connection has its heap to itself, and is sound and recorded. */
    ghost predicate Housed()
      reads this, owner.Keys
    {
      && this !in owner && lives.Keys == conns
      && (forall c :: c in conns ==> c.loop == this && c in owner.Keys && c.inputBuffer in owner.Keys && c.outputBuffer in owner.Keys && Owned(c))
      && (forall c :: c in conns ==> Sound(c) && Recorded(c))
    }

    /** The tables lead to the right connections. */
    ghost predicate Tabled()
      reads this, conns
    {
      && (forall fd :: fd in connections && connections[fd] != null ==>
            connections[fd] in conns && connections[fd].sockFd == fd && !connections[fd].state.Disconnected?)
      && (forall fd :: fd in interest ==> fd in connections && connections[fd] != null)
      && (forall e :: e in connectionsPool ==> e != null && e in conns && e.state.Disconnected?)
      && (forall i, j :: 0 <= i < j < |connectionsPool| ==> connectionsPool[i] != connectionsPool[j])
    }

    ghost predicate Sane()
      reads this, owner.Keys, conns
    {
      Housed() && Tabled() && Credible(TheLedger())
    }

    /** Among open connections, exactly this one has the descriptor. */
    ghost predicate Sole(c: TcpConnection, fd: int)
      reads this, conns
    {
      forall e :: e in conns && !e.state.Disconnected? ==> (e.sockFd == fd <==> e == c)
    }

    // ---- What the invariant says of every reachable state ----

    lemma Placed(c: TcpConnection)
      requires Sane() && c in conns && c.loop == this && !c.state.Disconnected?
      ensures c.Live() && !c.state.Connecting? && c.sockFd in connections && connections[c.sockFd] == c
    {
      assert Sound(c);
    }

    /** The interest set holds channels of open connections only. */
    lemma Watched(fd: int)
      requires Sane() && fd in interest
      ensures fd in connections && connections[fd] != null
      ensures connections[fd] in conns && connections[fd].loop == this && !connections[fd].state.Disconnected?
      ensures interest[fd].ptr == connections[fd].channel && interest[fd].mask == connections[fd].channel.events
    {
      Placed(connections[fd]);
    }

    /** Open or pooled, never both; and whatever is pooled has left no registration behind. */
    lemma OneHome(c: TcpConnection)
      requires Sane() && c in conns
      ensures c in connectionsPool <==> c.state.Disconnected?
      ensures c in connectionsPool <==> forall fd :: fd in connections ==> connections[fd] != c
      ensures forall fd :: fd in connections && connections[fd] == c ==> fd == c.sockFd
      ensures c in connectionsPool ==> forall fd :: fd in interest ==> interest[fd].ptr != c.channel
    {
      assert Sound(c) && Owned(c);
      forall fd | fd in interest && interest[fd].ptr == c.channel ensures !c.state.Disconnected? {
        Watched(fd);
        assert Owned(connections[fd]);
      }
    }

    /** For every connection ever made, status and kernel agree, down to the event mask. */
    lemma Agreement(c: TcpConnection)
      requires Sane() && c in conns
      ensures c.channel.status.Added? <==> exists fd :: fd in interest && interest[fd].ptr == c.channel
      ensures forall fd :: fd in interest && interest[fd].ptr == c.channel ==>
                fd == c.channel.fd == c.sockFd && interest[fd].mask == c.channel.events
    {
      assert Sound(c) && Owned(c);
      forall fd | fd in interest && interest[fd].ptr == c.channel ensures connections[fd] == c && !c.state.Disconnected? {
        Watched(fd);
        assert Owned(connections[fd]);
      }
    }

    lemma ClosedOnce(c: TcpConnection)
      requires Sane() && c in conns
      ensures c.io.closes == if c.state.Disconnected? then 1 else 0
    {
      assert Sound(c);
    }

    /** Of every connection ever made, at every moment: what the socket took is a prefix of what was
        sent, and with what waits it is all of it unless the socket failed; write interest is on
        exactly while bytes wait; the sending side is shut at most once, with everything sent until
        then handed over, and for certain once a connection asked to shut down has drained. */
    lemma Integrity(c: TcpConnection)
      requires Sane() && c in conns
      ensures c.io.accepted <= c.io.sends
      ensures c.io.dropped ==> c.io.broken
      ensures !c.io.dropped ==> c.io.accepted + c.outputBuffer.Contents() == c.io.sends
      ensures !c.state.Disconnected? ==> (c.channel.IsWriting() <==> c.outputBuffer.Contents() != [])
      ensures c.io.halfCloses <= 1 && (c.io.halfCloses == 1 && !c.io.broken ==> c.io.accepted == c.io.shut)
      ensures c.state.Disconnecting? && c.io.asked && c.outputBuffer.Contents() == [] ==> c.io.halfCloses == 1
      ensures c in lives && lives[c].face.io == c.io
    {
      assert Sound(c) && Recorded(c);
    }

    lemma OwnDescriptor(c: TcpConnection)
      requires Sane() && c in conns && (c.state.Disconnected? ==> c.sockFd !in open)
      ensures Sole(c, c.sockFd)
    {
      forall e | e in conns && !e.state.Disconnected? && e.sockFd == c.sockFd ensures e == c {
        Placed(e);
        if !c.state.Disconnected? {
          Placed(c);
        }
      }
    }

    lemma NothingAt(fd: int, c: TcpConnection)
      requires Sane() && fd !in open && (c in conns ==> c.state.Disconnected?)
      ensures fd !in interest && (fd in connections ==> connections[fd] == null)
      ensures Sole(c, fd)
    {
      forall e | e in conns && !e.state.Disconnected? ensures e.sockFd in open {
        Placed(e);
      }
    }

    lemma Mine(c: TcpConnection)
      requires Sane() && c in conns
      ensures c.loop == this && c.Listed() && Credible(TheLedger()) && c.Footprint() <= owner.Keys
    {
    }

    lemma Posted(fd: int)
      requires Sane() && fd in connections && connections[fd] != null
      ensures connections[fd] in conns && connections[fd].loop == this
      ensures connections[fd].sockFd == fd && !connections[fd].state.Disconnected?
    {
    }

    // ---- Steps ----

    /** The invariant on values. */
    lemma WorldOrderly()
      requires Sane()
      ensures TheWorld().Orderly()
    {
      forall c | c in conns ensures c.loop == this && Recorded(c) && Sound(c) {}
      forall c | c in conns && !c.state.Disconnected? ensures !c.state.Connecting? && c.sockFd in open
        && c.sockFd in connections && connections[c.sockFd] == c {
        Placed(c);
      }
    }

    /** What the ledger shows of a connection. */
    lemma Shown(c: TcpConnection)
      requires Sane() && c in conns
      ensures c in lives && c.inputBuffer.Indexed() && c.outputBuffer.Indexed() && TheWorld().FaceOf(c) == c.TheFace()
      ensures c.state.Disconnected? <==> !IsOpen(c.TheFace())
    {
      assert Sound(c);
    }

    /** Where work on one connection starts from. */
    lemma Ready(c: TcpConnection)
      requires Sane() && c in conns
      ensures c.loop == this && c.Listed() && c.Footprint() <= owner.Keys && TheWorld().Orderly() && Credible(TheLedger())
      ensures c in lives && c.inputBuffer.Indexed() && c.outputBuffer.Indexed() && TheWorld().FaceOf(c) == c.TheFace()
      ensures (c.state.Disconnected? <==> !IsOpen(c.TheFace())) && (c.state.Disconnected? || !c.state.Connecting?)
      ensures c.channel.fd == c.sockFd && (c.sockFd !in open ==> c.state.Disconnected?)
      ensures !c.state.Disconnected? || c.sockFd !in open ==> Sole(c, c.sockFd)
      ensures !c.state.Disconnected? ==> c.sockFd in connections && connections[c.sockFd] == c
    {
      Mine(c);
      Shown(c);
      WorldOrderly();
      c.OpenWhenLive();
      if !c.state.Disconnected? {
        Placed(c);
      }
      if !c.state.Disconnected? || c.sockFd !in open {
        OwnDescriptor(c);
      }
      hide Sane, World.Orderly, TcpConnection.Listed, Sole;
    }

    /** What has been added to the heap of connections is new. */
    twostate predicate Spread()
      reads this
    {
      && (forall o :: o in old(owner) ==> o in owner)
      && (forall o :: o in owner ==> o in old(owner) || fresh(o))
    }

    /** What a connection allocated becomes its own, and the ledger follows it. */
    ghost method Enroll(c: TcpConnection)
      requires forall o :: o in c.Footprint() && o in owner ==> owner[o] == c
      requires c.inputBuffer.Indexed() && c.outputBuffer.Indexed()
      modifies this`owner, this`lives, this`conns
      ensures Owned(c) && Recorded(c) && conns == old(conns) + {c}
      ensures forall o :: o in old(owner) ==> o in owner && owner[o] == old(owner)[o]
      ensures forall o :: o in owner ==> o in old(owner) || o in c.Footprint()
      ensures lives == old(lives)[c := Life(0, c.TheFace(), [])]
    {
      owner := map o | o in owner.Keys + c.Footprint() :: if o in c.Footprint() then c else owner[o];
      lives := lives[c := Life(0, c.TheFace(), [])];
      conns := conns + {c};
    }

    /** The same, for a connection that was here before. */
    ghost method Relist(c: TcpConnection, number: nat, story: seq<Item>)
      requires c in owner && owner[c] == c && c.channel in owner && owner[c.channel] == c
      requires c.inputBuffer in owner && owner[c.inputBuffer] == c && c.outputBuffer in owner && owner[c.outputBuffer] == c
      requires c.inputBuffer.Indexed() && c.outputBuffer.Indexed()
      modifies this`owner, this`lives
      ensures Owned(c) && Recorded(c)
      ensures c.loop == this && old(Sound(c)) ==> Sound(c)
      ensures owner == old(owner)[c.inputBuffer.buffer := c][c.outputBuffer.buffer := c]
      ensures lives == old(lives)[c := Life(number, c.TheFace(), story)]
    {
      owner := owner[c.inputBuffer.buffer := c];
      owner := owner[c.outputBuffer.buffer := c];
      lives := lives[c := Life(number, c.TheFace(), story)];
    }

    /** User code, from inside any callback, on the open connection of a descriptor, if there is one. */
    method Do(act: Act)
      requires Sane()
      modifies this, owner.Keys
      ensures Sane() && conns == old(conns) && Spread()
      ensures TheWorld() == old(TheWorld()).AfterAct(act)
    {
      hide Sane, AfterDeed, IsOpen;
      InConns();
      if act.fd in connections && connections[act.fd] != null {
        Posted(act.fd);
        DoOn(connections[act.fd], act.deed);
      }
    }

    lemma InConns()
      requires Sane()
      ensures lives.Keys == conns
    {
    }

    method DoOn(c: TcpConnection, deed: Deed)
      requires Sane() && c in conns && !c.state.Disconnected?
      modifies this, owner.Keys
      ensures Sane() && conns == old(conns) && Spread()
      ensures TheWorld() == old(TheWorld()).Did(c, deed)
    {
      hide Sane, Sole, TcpConnection.Valid, TcpConnection.Listed, TcpConnection.Alone, TcpConnection.Elsewhere, TcpConnection.Apart, Carries, Credible, SameRevents, Extends,
        AfterDeed, IsOpen, World.Orderly, World.GoesOnTo;
      Ready(c);
      ghost var w := TheWorld();
      label before:
      c.Suffer(deed);
      c.AloneAgain@before(c.sockFd);
      assert TheWorld() == w.Did(c, deed);
      w.DidKeeps(c, deed);
      c.StaysPut@before();
    }

    method Perform(script: seq<Act>)
      requires Sane()
      modifies this, owner.Keys
      ensures Sane() && conns == old(conns) && Spread()
      ensures TheWorld() == old(TheWorld()).AfterScript(script, |script|)
    {
      hide Sane;
      for i := 0 to |script|
        invariant Sane() && conns == old(conns) && Spread()
        invariant TheWorld() == old(TheWorld()).AfterScript(script, i)
      {
        Do(script[i]);
      }
    }

    // ---- Runs ----

    /** The kernel reports registered descriptors only, each once. The interest set names the
        channel, and the channel's callbacks are those of its connection. */
    ghost predicate Reportable(events: seq<Event>)
      reads this
    {
      && (forall i :: 0 <= i < |events| ==> events[i].fd in interest)
      && (forall i, j :: 0 <= i < j < |events| ==> events[i].fd != events[j].fd)
    }

    /** ... which is to say those whose connections are marked as added. */
    lemma ReportableSame(events: seq<Event>)
      requires Sane()
      ensures Reportable(events) <==> TheWorld().Reportable(events)
    {
      forall fd ensures fd in interest <==> TheWorld().Held(fd) && TheWorld().FaceOf(TheWorld().At(fd)).status.Added? {
        WatchedSame(fd);
      }
    }

    lemma WatchedSame(fd: int)
      requires Sane()
      ensures fd in interest <==> TheWorld().Held(fd) && TheWorld().FaceOf(TheWorld().At(fd)).status.Added?
    {
      hide Tabled, IsOpen;
      InConns();
      if fd in interest {
        Watched(fd);
        Placed(connections[fd]);
        Shown(connections[fd]);
        Posted(fd);
      } else if TheWorld().Held(fd) {
        Posted(fd);
        Placed(connections[fd]);
        Shown(connections[fd]);
      }
    }

    /** One round of the loop's dispatch. The channels are collected before the first is handled;
        each is still open under its descriptor when its turn comes, so that exactly those end whose
        own event says so, and nothing is taken from the pool meanwhile. */
    method Dispatch(events: seq<Event>) returns (ghost told: seq<Event>)
      requires Sane() && Reportable(events)
      modifies this, owner.Keys
      ensures Sane() && conns == old(conns) && Spread()
      ensures Answered(events, told) && TheWorld() == old(TheWorld()).Dispatched(told, |told|)
      ensures connections == old(TheWorld()).Emptied(told, |told|)
      ensures connectionsPool == old(connectionsPool) + old(TheWorld()).Enders(told, |told|)
    {
      hide Sane, Reportable, Answered, World.Orderly, World.Reportable, World.Dispatched, World.Emptied, World.Enders;
      ReportableSame(events);
      WorldOrderly();
      ChannelsOwned();
      ghost var w := TheWorld();
      told := events;
      AnsweredSelf(events);
      var active := FillActiveChannels(events);
      w.NoneDispatched(events);
      for i := 0 to |events|
        invariant Sane() && conns == old(conns) && Spread() && Answered(events, told) && |told| == |events|
        invariant TheWorld() == w.Dispatched(told, i)
      {
        told := HandleNext(events, active[i], i, w, told);
      }
      AnsweredReportable(w, events, told);
      w.DispatchEnds(told);
    }

    method HandleNext(events: seq<Event>, c: TcpConnection, i: nat, ghost w: World<TcpConnection?>, ghost told: seq<Event>)
      returns (ghost now: seq<Event>)
      requires Sane() && i < |events| == |told| && w.Orderly() && w.Reportable(events) && Answered(events, told)
      requires TheWorld() == w.Dispatched(told, i) && c == w.At(events[i].fd)
      modifies this, owner.Keys
      ensures Sane() && conns == old(conns) && Spread() && |now| == |events|
      ensures Answered(events, now) && TheWorld() == w.Dispatched(now, i + 1)
    {
      hide Sane, Answered, Ends, World.Orderly, World.Reportable, World.Handled, World.AllReported, World.DispatchedTo;
      AnsweredReportable(w, events, told);
      SameFds(events, told);
      ReadyFor(w, told, i);
      ghost var got := c.HandleEvent(events[i]);
      now := told[i := events[i].(read := got)];
      AnsweredOne(events, told, i, got);
      w.DispatchedSame(told, now, i);
    }

    /** When its turn comes, a collected channel's connection is open. */
    lemma ReadyFor(w: World<TcpConnection?>, told: seq<Event>, i: nat)
      requires Sane() && i < |told| && TheWorld() == w.Dispatched(told, i) && w.Orderly() && w.Reportable(told)
      ensures var c := w.At(told[i].fd); c != null && c in conns && c.loop == this && !c.state.Disconnected?
    {
      hide Tabled, World.Slotted, World.Pooled, World.Dispatched, World.Reportable, Noted, World.Emptied, World.Enders, Carries;
      var c := w.At(told[i].fd);
      w.DispatchFollows(told, i);
      assert TheWorld().Due(told[i], c);
      Shown(c);
    }

    static lemma AnsweredSelf(events: seq<Event>)
      ensures Answered(events, events)
    {
    }

    static lemma SameFds(events: seq<Event>, told: seq<Event>)
      requires Answered(events, told)
      ensures |told| == |events|
      ensures forall k :: 0 <= k < |events| ==> told[k].fd == events[k].fd && told[k].revents == events[k].revents
    {
    }

    static lemma AnsweredOne(events: seq<Event>, told: seq<Event>, i: nat, got: ReadResult)
      requires Answered(events, told) && i < |events| && Fitted(events[i].read, got)
      ensures |told| == |events|
      ensures var told' := told[i := events[i].(read := got)];
              && Answered(events, told')
              && forall k :: 0 <= k < |told| ==> told'[k].fd == told[k].fd && told'[k].revents == told[k].revents
    {
    }

    static lemma AnsweredReportable(w: World<TcpConnection?>, events: seq<Event>, told: seq<Event>)
      requires Answered(events, told)
      ensures w.Reportable(told) <==> w.Reportable(events)
    {
      assert forall k :: 0 <= k < |events| ==> told[k].fd == events[k].fd;
    }

    lemma ChannelsOwned()
      requires Sane()
      ensures forall ch :: ch in Channels() ==> ch in owner.Keys
    {
    }

    ghost function Channels(): set<Channel>
      reads this
    {
      set c | c in conns :: c.channel
    }

    /** The interest set names the channel, and the channel's callbacks are those of its connection. */
    method FillActiveChannels(events: seq<Event>) returns (active: seq<TcpConnection>)
      requires Sane() && Reportable(events)
      modifies this`lives, this`owner, Channels()`revents
      ensures Sane() && Spread() && |active| == |events|
      ensures TheWorld() == old(TheWorld()).AllReported(events, |events|)
      ensures forall k :: 0 <= k < |events| ==> active[k] == old(TheWorld()).At(events[k].fd)
    {
      hide Sane, World.Reported;
      active := [];
      for i := 0 to |events|
        invariant Sane() && Spread() && Reportable(events) && |active| == i
        invariant TheWorld() == old(TheWorld()).AllReported(events, i)
        invariant forall k :: 0 <= k < i ==> active[k] == old(TheWorld()).At(events[k].fd)
      {
        var c := Report(events[i]);
        active := active + [c];
      }
    }

    method Report(e: Event) returns (c: TcpConnection)
      requires Sane() && e.fd in interest
      modifies this`lives, this`owner, Channels()`revents
      ensures Sane() && Spread() && c == TheWorld().At(e.fd) && TheWorld() == old(TheWorld()).Reported(e)
    {
      hide Sane;
      Watched(e.fd);
      Mine(connections[e.fd]);
      c := connections[e.fd];
      assert interest[e.fd].ptr == c.channel;
      c.SetRevents(e.revents);
    }

    /** Any mixture of dispatches, new connections, forced closes and other callbacks, in any order,
        with any answers from the kernel: the loop goes exactly through the worlds that its
        specification on values goes through. Steps that are not possible when their turn comes do
        nothing. Histories only grow within a life; requests to close are carried out in the order made,
        each once; and if no connection is taken from the pool while a request to close it is waiting,
        every request ends, if anything, the life that made it. */
    method Run(schedule: seq<Step>) returns (ghost did: seq<Step>, ghost trace: seq<World<TcpConnection?>>)
      requires Sane()
      modifies this, owner.Keys
      ensures Sane() && conns >= old(conns)
      ensures |did| == |schedule| && forall k :: 0 <= k < |schedule| ==> AnsweredStep(schedule[k], did[k])
      ensures IsRun(did, trace) && trace[0] == old(TheWorld()) && trace[|schedule|] == TheWorld()
      ensures Onward(old(lives), lives) && old(closings) <= closings && Requests(old(TheLedger())) <= Requests(TheLedger())
      ensures (forall k :: 0 <= k < |schedule| ==> Guarded(schedule[k])) && old(Current(TheLedger())) ==>
                Current(TheLedger()) && forall k :: |old(closings)| <= k < |closings| ==> Honest(closings[k])
    {
      hide Sane, World.Steps, World.Orderly, Current, Onward, Honest, AnsweredStep, Requests;
      WorldOrderly();
      did, trace := [], [TheWorld()];
      for i := 0 to |schedule|
        invariant Sane() && conns >= old(conns) && Spread()
        invariant |did| == i && forall k :: 0 <= k < i ==> AnsweredStep(schedule[k], did[k])
        invariant IsRun(did, trace) && trace[0] == old(TheWorld()) && trace[i] == TheWorld()
      {
        ghost var took := TakeStep(schedule[i]);
        did, trace := did + [took], trace + [TheWorld()];
      }
      RunOrderly(did, trace, |did|);
      GuardedSame(schedule, did);
    }

    static lemma GuardedSame(schedule: seq<Step>, did: seq<Step>)
      requires |did| == |schedule| && forall k :: 0 <= k < |schedule| ==> AnsweredStep(schedule[k], did[k])
      ensures (forall k :: 0 <= k < |schedule| ==> Guarded(schedule[k])) <==> (forall k :: 0 <= k < |did| ==> Guarded(did[k]))
    {
      assert forall k :: 0 <= k < |did| ==> (Guarded(did[k]) <==> Guarded(schedule[k]));
    }

    method TakeStep(step: Step) returns (ghost did: Step)
      requires Sane()
      modifies this, owner.Keys
      ensures Sane() && conns >= old(conns) && Spread()
      ensures AnsweredStep(step, did) && old(TheWorld()).Steps(did, TheWorld())
    {
      hide Sane, Answered, World.Reportable, World.Dispatched, World.AfterScript, World.Served, World.Comes, World.Begun, Credible;
      ghost var w := TheWorld();
      did := step;
      match step {
        case Dispatching(events) =>
          AnsweredSelf(events);
          ReportableSame(events);
          if (forall k :: 0 <= k < |events| ==> events[k].fd in interest)
             && (forall j, k :: 0 <= j < k < |events| ==> events[j].fd != events[k].fd) {
            ghost var told := Dispatch(events);
            AnsweredReportable(w, events, told);
            did := Dispatching(told);
          }
        case Acting(script) =>
          Perform(script);
        case Creating(fd, script, guarded) =>
          if fd !in open && (guarded ==> connectionsPool == [] || connectionsPool[|connectionsPool| - 1] !in pending) {
            var conn := Welcome(fd, script);
          }
        case ForceClosing =>
          Records();
          if pending != [] {
            var c, done := NextPending();
          }
      }
    }

    lemma Records()
      requires Sane()
      ensures Credible(TheLedger()) && Past(TheLedger()) && |asked| == |pending|
    {
    }

    /** A new connection, and what its connection callback does. */
    method Welcome(fd: int, script: seq<Act>) returns (conn: TcpConnection)
      requires Sane() && fd !in open
      modifies this, owner.Keys
      ensures Sane() && conns >= old(conns) && Spread()
      ensures TheWorld().At(fd) == conn && old(TheWorld()).Comes(conn)
      ensures TheWorld() == old(TheWorld()).Begun(conn, fd).AfterScript(script, |script|)
    {
      hide Sane, World.Orderly, World.Comes, World.GoesOnTo;
      conn := CreateConnection(fd);
      ghost var u := TheWorld();
      WorldOrderly();
      Perform(script);
      u.ScriptGoesOn(script, |script|);
      u.SameSlots(TheWorld());
    }

    /** What every connection shows, at every moment, its story explains: its sends and what of them its
        socket has taken, what it has received and what of that its user has taken, whether it was asked
        to leave and how, and what completions and half-closes that has come to. */
    lemma Explains(c: TcpConnection)
      requires Sane() && c in conns
      ensures c in lives && c.inputBuffer.Indexed() && c.outputBuffer.Indexed() && Explained(c.TheFace(), lives[c].story)
    {
      Shown(c);
    }

    /** Once the first thing its user did to make it leave was to shut it down, a connection is asked to
        shut down, and whenever it is open with nothing waiting, its sending side has been shut, once. */
    lemma Graceful(c: TcpConnection)
      requires Sane() && c in conns && c in lives && Leaving(lives[c].story) == Some(Shutdown)
      ensures c.io.asked && !c.state.Connected?
      ensures !c.state.Disconnected? && c.outputBuffer.Contents() == [] ==> c.io.halfCloses == 1
    {
      Explains(c);
      Integrity(c);
      if !c.state.Disconnected? {
        Placed(c);
      }
    }

    /** From the moment a life begins, whatever the kernel answers and whatever everybody does: the
        connection's story is exactly what the schedule has had happen to it since. So what it has been
        sent is what the scripts have sent to it, in order; what the socket has taken is a prefix of
        that, and with what waits it is all of it unless data was given up after a fatal error; and what
        is in the input is what the reads have delivered, less what the user has taken. */
    lemma EndToEnd(schedule: seq<Step>, trace: seq<World<TcpConnection?>>, i: nat, c: TcpConnection)
      requires Sane() && c in conns && c in lives
      requires IsRun(schedule, trace) && trace[0].Orderly() && trace[|schedule|] == TheWorld() && i < |schedule|
      requires c in trace[i + 1].ledger.lives && trace[i + 1].LifeOf(c).number == lives[c].number
      requires c !in trace[i].ledger.lives || trace[i].LifeOf(c).number < lives[c].number
      ensures var story := To(Told(schedule, trace, i, |schedule|), c);
              && lives[c].story == story && c.io.sends == Sent(story) && c.io.accepted <= Sent(story)
              && (!c.io.dropped ==> c.io.accepted + c.outputBuffer.Contents() == Sent(story))
              && Taken(story) <= |Delivered(story)| && c.inputBuffer.Indexed()
              && c.inputBuffer.Contents() == Delivered(story)[Taken(story)..]
              && (Leaving(story) == Some(Shutdown) && !c.state.Disconnected? && c.outputBuffer.Contents() == [] ==>
                    c.io.halfCloses == 1)
    {
      hide Sane, IsRun, World.Orderly;
      WholeLife(schedule, trace, i, |schedule|, c);
      Explains(c);
      Integrity(c);
      if Leaving(lives[c].story) == Some(Shutdown) {
        Graceful(c);
      }
    }

    /** The next queued request to close is carried out: it ends the connection's present life,
        whichever that is, unless the connection is already closed. */
    method NextPending() returns (c: TcpConnection, ghost done: Closing<TcpConnection?>)
      requires Sane() && pending != []
      modifies this, owner.Keys
      ensures Sane() && conns == old(conns) && Spread()
      ensures |old(asked)| == |old(pending)| && TheWorld() == old(TheWorld()).Served()
      ensures c == old(pending)[0] && c.state.Disconnected? && open <= old(open)
      ensures connectionsPool == old(connectionsPool) + if c in old(connectionsPool) then [] else [c]
      ensures forall d :: d in old(connections) && old(connections)[d] != c ==> d in connections && connections[d] == old(connections)[d]
      ensures Serves(old(TheLedger()), TheLedger())
      ensures c in old(lives) && closings == old(closings) + [done]
      ensures done == Closing(c, old(asked)[0], if c in old(connectionsPool) then None else Some(old(lives)[c].number))
    {
      hide Sane, Serves, World.Orderly, IsOpen;
      WorldOrderly();
      FirstPending();
      ghost var w := TheWorld();
      w.ServedFollows();
      c := Dequeue();
      Homes(c);
      Shown(c);
      ghost var pooled := c in connectionsPool;
      c.ForceCloseInLoop();
      done := Closing(c, w.ledger.asked[0], if pooled then None else Some(w.ledger.lives[c].number));
      ghost var v := TheWorld();
      Log(done);
      ServedMeaning(w, c);
    }

    static lemma ServedMeaning(w: World<TcpConnection?>, c: TcpConnection)
      requires w.Orderly() && w.ledger.pending != [] && w.ledger.asked != [] && c == w.ledger.pending[0] && c in w.ledger.lives
      ensures var v := w.Served();
              && v.pool == w.pool + (if IsOpen(w.FaceOf(c)) then [c] else []) && v.open <= w.open
              && forall d :: d in w.slots && w.slots[d] != c ==> d in v.slots && v.slots[d] == w.slots[d]
    {
      hide Credible, World.Pooled;
      if IsOpen(w.FaceOf(c)) {
        assert w.At(w.FaceOf(c).sockFd) == c;
      }
    }

    ghost method Log(entry: Closing<TcpConnection>)
      requires Sane()
      modifies this`closings
      ensures Sane() && closings == old(closings) + [entry]
    {
      hide Housed, Tabled;
      HousedMeans();
      label before:
      closings := closings + [entry];
      QueueOnly@before();
    }

    lemma FirstPending()
      requires Sane() && pending != []
      ensures |asked| == |pending| && pending[0] in conns && pending[0] in lives
    {
    }

    lemma Homes(c: TcpConnection)
      requires Sane() && c in conns
      ensures c.loop == this && (c in connectionsPool <==> c.state.Disconnected?)
      ensures !c.state.Disconnected? ==> c.sockFd in connections && connections[c.sockFd] == c
    {
      assert Sound(c);
    }

    method Dequeue() returns (c: TcpConnection)
      requires Sane() && pending != []
      modifies this`pending, this`asked
      ensures Sane() && c == old(pending)[0] && c in conns && c.loop == this
      ensures |old(asked)| == |old(pending)| && pending == old(pending)[1..] && asked == old(asked)[1..]
    {
      hide Housed, Tabled;
      HousedMeans();
      label before:
      c := pending[0];
      pending := pending[1..];
      asked := asked[1..];
      QueueOnly@before();
    }

    lemma HousedMeans()
      requires Housed() && Credible(TheLedger())
      ensures forall i :: 0 <= i < |pending| ==> pending[i] in conns && pending[i].loop == this
      ensures this !in owner && |asked| == |pending|
    {
    }

    /** The queue of requests is no part of the rest. */
    twostate lemma QueueOnly()
      requires old(Housed()) && old(Tabled()) && forall o :: o in old(owner) ==> unchanged(o)
      requires owner == old(owner) && conns == old(conns) && lives == old(lives) && open == old(open)
      requires interest == old(interest) && connections == old(connections) && connectionsPool == old(connectionsPool)
      ensures Housed() && Tabled()
    {
      forall e | e in conns ensures Owned(e) && Sound(e) && Recorded(e) {
        assert old(Owned(e) && Sound(e) && Recorded(e));
      }
    }

    /** If the connection taken from the pool has a request waiting, then the requests already queued,
        and nothing else, end its new life at the bidding of an earlier one. */
    method Misfire(fd: int) returns (conn: TcpConnection)
      requires Sane() && fd !in open && Current(TheLedger())
      requires connectionsPool != [] && connectionsPool[|connectionsPool| - 1] in pending
      modifies this, owner.Keys
      ensures Sane() && conn == old(connectionsPool)[|old(connectionsPool)| - 1] && conn.state.Disconnected?
      ensures closings != [] && closings[|closings| - 1].conn == conn && !Honest(closings[|closings| - 1])
    {
      hide Sane, Current, Begins, Serves, Late, TcpConnection.TheFace, World.Begun, World.Comes;
      ghost var l := TheLedger();
      PoolTop();
      conn := CreateConnection(fd);
      assert (connectionsPool + [conn])[|connectionsPool|] == conn;
      OutOfDate(l, TheLedger(), conn);
      Drain(conn, fd, lives[conn].number);
    }

    method Drain(conn: TcpConnection, fd: int, ghost n: nat)
      requires Sane() && fd in connections && connections[fd] == conn && conn in pending && Late(TheLedger(), conn, n)
      modifies this, owner.Keys
      ensures Sane() && Spread() && conn.state.Disconnected?
      ensures closings != [] && closings[|closings| - 1].conn == conn && !Honest(closings[|closings| - 1])
    {
      hide Sane, Serves, Late, World.Served;
      while pending[0] != conn
        invariant Sane() && Spread() && conn in pending
        invariant fd in connections && connections[fd] == conn
        invariant Late(TheLedger(), conn, n)
        decreases |pending|
      {
        ghost var m := TheLedger();
        var c, done := NextPending();
        StillLate(m, TheLedger(), conn, n);
      }
      Posted(fd);
      Homes(conn);
      LateFirst(TheLedger(), conn, n);
      var c, done := NextPending();
    }

    /** All requests waiting for the connection are from before its n-th life. */
    static ghost predicate Late(l: Ledger<TcpConnection?>, c: TcpConnection, n: nat) {
      && |l.asked| == |l.pending| && c in l.lives && l.lives[c].number == n
      && forall i :: 0 <= i < |l.pending| && l.pending[i] == c ==> l.asked[i] < n
    }

    static lemma OutOfDate(l: Ledger<TcpConnection?>, m: Ledger<TcpConnection?>, c: TcpConnection)
      requires Current(l) && Begins(l, m, c) && c in l.pending
      ensures c in m.lives && c in m.pending && m.pending == l.pending && Late(m, c, m.lives[c].number)
    {
      forall i | 0 <= i < |m.pending| && m.pending[i] == c ensures m.asked[i] < m.lives[c].number {
        assert Prompt(l, i);
      }
    }

    static lemma StillLate(l: Ledger<TcpConnection?>, m: Ledger<TcpConnection?>, c: TcpConnection, n: nat)
      requires Serves(l, m) && Late(l, c, n) && l.pending[0] != c && c in l.pending
      ensures Late(m, c, n) && c in m.pending && |m.pending| < |l.pending|
    {
      var i :| 0 <= i < |l.pending| && l.pending[i] == c;
      assert m.pending[i - 1] == c;
    }

    static lemma LateFirst(l: Ledger<TcpConnection?>, c: TcpConnection, n: nat)
      requires Late(l, c, n) && l.pending != [] && l.pending[0] == c
      ensures |l.asked| == |l.pending| && l.asked[0] < n && c in l.lives && l.lives[c].number == n
    {
    }

    lemma PoolTop()
      requires Sane() && connectionsPool != []
      ensures var c := connectionsPool[|connectionsPool| - 1];
              c != null && c in conns && c.loop == this && c.state.Disconnected? && c.Valid() && c in lives
    {
      var c := connectionsPool[|connectionsPool| - 1];
      assert c in connectionsPool;
      assert Sound(c);
    }

    /** From nothing: a connection is asked to close twice, closes, is recycled, and the second request
        ends its second life. */
    static method StaleForceClose() returns (loop: Epoll, conn: TcpConnection)
      ensures fresh(loop) && loop.Sane() && conn.state.Disconnected?
      ensures loop.closings == [Closing(conn, 0, Some(0)), Closing(conn, 0, Some(1))]
    {
      hide Epoll.Sane, AfterDeed, TcpConnection.TheFace, World.AfterAct, World.Begun, World.Comes, Begins;
      loop := new Epoll();
      ghost var w := loop.TheWorld();
      conn := loop.CreateConnection(5);
      w.BegunMeans(conn, 5);
      loop.TheWorld().Forced(5);
      loop.Do(Act(5, ForceClose));
      loop.TheWorld().Forced(5);
      loop.Do(Act(5, ForceClose));
      loop.StaleAgain(conn);
    }

    method StaleAgain(conn: TcpConnection)
      requires Sane() && connectionsPool == [] && open == {5} && 5 in connections && connections[5] == conn
      requires pending == [conn, conn] && asked == [0, 0] && closings == [] && conn in lives && lives[conn].number == 0
      modifies this, owner.Keys
      ensures Sane() && conn.state.Disconnected?
      ensures closings == [Closing(conn, 0, Some(0)), Closing(conn, 0, Some(1))]
    {
      hide Sane, Serves, World.Served;
      ghost var l := TheLedger();
      var c, done := NextPending();
      ServedMeans(l, TheLedger());
      assert connectionsPool == [conn] && pending == [conn] && asked == [0];
      StaleLast(conn);
    }

    method StaleLast(conn: TcpConnection)
      requires Sane() && connectionsPool == [conn] && 6 !in open
      requires pending == [conn] && asked == [0] && closings == [Closing(conn, 0, Some(0))] && conn in lives && lives[conn].number == 0
      modifies this, owner.Keys
      ensures Sane() && conn.state.Disconnected?
      ensures closings == [Closing(conn, 0, Some(0)), Closing(conn, 0, Some(1))]
    {
      hide Sane, Serves, Begins, TcpConnection.TheFace, World.Served, World.Begun, World.Comes;
      ghost var m := TheLedger();
      var again := CreateConnection(6);
      assert (connectionsPool + [again])[0] == conn && connectionsPool == [];
      BegunMeans(m, TheLedger(), conn);
      var c, done := NextPending();
      assert done == Closing(conn, 0, Some(1));
    }

    static lemma ServedMeans(l: Ledger<TcpConnection?>, m: Ledger<TcpConnection?>)
      requires Serves(l, m)
      ensures m.pending == l.pending[1..] && m.asked == l.asked[1..] && l.lives.Keys == m.lives.Keys
      ensures forall c :: c in l.lives ==> m.lives[c].number == l.lives[c].number
    {
    }

    static lemma BegunMeans(l: Ledger<TcpConnection?>, m: Ledger<TcpConnection?>, c: TcpConnection)
      requires Begins(l, m, c) && c in l.lives
      ensures c in m.lives && m.lives[c].number == l.lives[c].number + 1
      ensures m.pending == l.pending && m.asked == l.asked && m.closings == l.closings
    {
    }

    /** The kernel hands over a descriptor it has in no other use, and whichever way the connection
        comes about, it looks like a new one. */
    method CreateConnection(sockFd: int) returns (conn: TcpConnection)
      requires Sane() && sockFd !in open
      modifies this, owner.Keys
      ensures Sane() && Spread() && conn in conns && conn.inputBuffer.Indexed() && conn.outputBuffer.Indexed()
      ensures conn.TheFace() == OpenFace(sockFd) && !conn.channel.eventHandling
      ensures connections == old(connections)[sockFd := conn] && open == old(open) + {sockFd}
      ensures old(connectionsPool) != [] ==> conns == old(conns) && connectionsPool + [conn] == old(connectionsPool)
      ensures old(connectionsPool) == [] ==> conns == old(conns) + {conn} && fresh(conn) && connectionsPool == []
      ensures conn.state.Connected? && conn.reading && conn.inputBuffer.Contents() == [] == conn.outputBuffer.Contents()
      ensures sockFd in interest && interest[sockFd].ptr == conn.channel && interest[sockFd].mask & 0x05 == 0x01
      ensures Begins(old(TheLedger()), TheLedger(), conn) && (conn in old(conns) || fresh(conn))
      ensures old(TheWorld()).Comes(conn) && TheWorld() == old(TheWorld()).Begun(conn, sockFd)
    {
      hide Sane, Begins, World.Comes, World.Begun;
      if connectionsPool != [] {
        conn := Recycle(sockFd);
      } else {
        conn := Make(sockFd);
      }
      WatchedOpen(conn, sockFd);
    }

    lemma WatchedOpen(c: TcpConnection, fd: int)
      requires Sane() && c in conns && c.inputBuffer.Indexed() && c.outputBuffer.Indexed() && c.TheFace() == OpenFace(fd)
      ensures c.state.Connected? && c.reading && c.inputBuffer.Contents() == [] == c.outputBuffer.Contents()
      ensures fd in interest && interest[fd].ptr == c.channel && interest[fd].mask & 0x05 == 0x01
    {
      hide Housed, Tabled, Credible;
      Mine(c);
      Placed(c);
    }

    method Recycle(sockFd: int) returns (conn: TcpConnection)
      requires Sane() && sockFd !in open && connectionsPool != []
      modifies this, owner.Keys
      ensures Sane() && Spread() && conn in conns && conn in old(conns) && conn.inputBuffer.Indexed() && conn.outputBuffer.Indexed()
      ensures conn.TheFace() == OpenFace(sockFd) && !conn.channel.eventHandling
      ensures connections == old(connections)[sockFd := conn] && open == old(open) + {sockFd}
      ensures conns == old(conns) && connectionsPool + [conn] == old(connectionsPool)
      ensures Begins(old(TheLedger()), TheLedger(), conn)
      ensures old(TheWorld()).Comes(conn) && TheWorld() == old(TheWorld()).Begun(conn, sockFd)
    {
      hide Sane, Sole, TcpConnection.Valid, TcpConnection.Listed, TcpConnection.Alone, TcpConnection.Elsewhere, TcpConnection.Apart, Credible, Begins;
      PoolTop();
      conn := connectionsPool[|connectionsPool| - 1];
      NothingAt(sockFd, conn);
      Mine(conn);
      ghost var l, number := TheLedger(), lives[conn].number + 1;
      label before:
      ReissueListed(sockFd, conn, number);
      conn.AloneAgain@before(sockFd);
      HasBegun(l, TheLedger(), conn, sockFd);
      conn.StaysOpened@before(sockFd);
    }

    lemma ValidWhenListed(c: TcpConnection)
      requires c.Listed()
      ensures c.Valid()
    {
    }

    method ReissueListed(sockFd: int, ghost conn: TcpConnection, ghost number: nat)
      requires connectionsPool != [] && connectionsPool[|connectionsPool| - 1] == conn
      requires conn.loop == this && conn.Listed() && sockFd !in interest
      modifies this`open, this`interest, this`channels, this`connections, this`connectionsPool
      modifies this`owner, this`lives
      modifies conn, conn.channel, conn.inputBuffer, conn.outputBuffer
      ensures conn.Listed() && conn.Relisted() && conn.Elsewhere() && conn.Apart(sockFd)
      ensures conn.inputBuffer.Indexed() && conn.outputBuffer.Indexed()
      ensures conn.TheFace() == OpenFace(sockFd) && !conn.channel.eventHandling
      ensures connections == old(connections)[sockFd := conn] && open == old(open) + {sockFd}
      ensures connectionsPool == old(connectionsPool)[..|old(connectionsPool)| - 1]
      ensures lives == old(lives)[conn := Life(number, conn.TheFace(), [])]
    {
      hide TcpConnection.Valid, TcpConnection.Live, TcpConnection.Idle, TcpConnection.Listed, Same, Owned, Recorded, Sound,
        Buffer.Contents, FreshFace;
      ValidWhenListed(conn);
      conn.Stakes();
      Reissue(sockFd, conn);
      conn.SoundAgain();
      Relist(conn, number, []);
      conn.ListedAgain();
    }

    static lemma HasBegun(l: Ledger<TcpConnection?>, m: Ledger<TcpConnection?>, c: TcpConnection, fd: int)
      requires Credible(l) && m.pending == l.pending && m.asked == l.asked && m.closings == l.closings
      requires m.lives == l.lives[c := Life(if c in l.lives then l.lives[c].number + 1 else 0, OpenFace(fd), [])]
      ensures Begins(l, m, c) && Credible(m)
    {
      hide Explained;
      BeginsKeeps(l, m, c);
      FreshExplained(fd);
    }

    method Reissue(sockFd: int, ghost conn: TcpConnection)
      requires connectionsPool != [] && connectionsPool[|connectionsPool| - 1] == conn
      requires conn.loop == this && conn.Valid() && sockFd !in interest
      modifies this`open, this`interest, this`channels, this`connections, this`connectionsPool
      modifies conn, conn.channel, conn.inputBuffer, conn.outputBuffer
      ensures conn.Live() && conn.inputBuffer.buffer == old(conn.inputBuffer.buffer) && conn.outputBuffer.buffer == old(conn.outputBuffer.buffer)
      ensures conn.TheFace() == OpenFace(sockFd) && !conn.channel.eventHandling
      ensures forall d :: d != sockFd ==> Same(old(interest), interest, d)
      ensures connections == old(connections)[sockFd := conn] && open == old(open) + {sockFd}
      ensures connectionsPool == old(connectionsPool)[..|old(connectionsPool)| - 1]
    {
      hide TcpConnection.Live, Streams, Wants;
      var back := connectionsPool[|connectionsPool| - 1];
      back.ConnectReset(sockFd);
      connectionsPool := connectionsPool[..|connectionsPool| - 1];
      Enter(back);
    }

    method Make(sockFd: int) returns (conn: TcpConnection)
      requires Sane() && sockFd !in open && connectionsPool == []
      modifies this, owner.Keys
      ensures Sane() && Spread() && conn in conns && conn.inputBuffer.Indexed() && conn.outputBuffer.Indexed()
      ensures conn.TheFace() == OpenFace(sockFd) && !conn.channel.eventHandling
      ensures connections == old(connections)[sockFd := conn] && open == old(open) + {sockFd}
      ensures conns == old(conns) + {conn} && fresh(conn) && connectionsPool == []
      ensures Begins(old(TheLedger()), TheLedger(), conn)
      ensures old(TheWorld()).Comes(conn) && TheWorld() == old(TheWorld()).Begun(conn, sockFd)
    {
      hide Sane, Sole, TcpConnection.Valid, TcpConnection.Listed, TcpConnection.Alone, TcpConnection.Elsewhere, TcpConnection.Apart, Credible, Begins;
      Records();
      OldOnes();
      ghost var l := TheLedger();
      conn := new TcpConnection(this, sockFd);
      ghost var heap := conn.Footprint();
      assert forall o :: o in heap ==> fresh(o);
      NothingAt(sockFd, conn);
      label before:
      EnterListed(conn);
      conn.AloneNew@before(sockFd);
      assert forall o :: o in owner ==> o in old(owner) || o in heap;
      HasBegun(l, TheLedger(), conn, sockFd);
      conn.StaysOpened@before(sockFd);
    }

    method EnterListed(conn: TcpConnection)
      requires conn.loop == this && conn.Valid() && conn.sockFd !in interest && lives.Keys == conns && this !in owner
      requires conn.TheFace() == FreshFace(conn.sockFd) && !conn.channel.eventHandling && conn !in conns
      requires forall o :: o in conn.Footprint() ==> o !in owner
      modifies this`open, this`interest, this`channels, this`connections, conn`state, conn.channel
      modifies this`owner, this`lives, this`conns
      ensures conn.Listed() && conn.Elsewhere() && conn.Apart(conn.sockFd) && conns == old(conns) + {conn}
      ensures conn.inputBuffer.Indexed() && conn.outputBuffer.Indexed()
      ensures forall o :: o in owner ==> o in old(owner) || o in conn.Footprint()
      ensures forall o :: o in old(owner) ==> o in owner && owner[o] == old(owner)[o]
      ensures conn.inputBuffer.buffer == old(conn.inputBuffer.buffer) && conn.outputBuffer.buffer == old(conn.outputBuffer.buffer)
      ensures conn.sockFd == old(conn.sockFd)
      ensures conn.TheFace() == OpenFace(conn.sockFd) && !conn.channel.eventHandling
      ensures connections == old(connections)[conn.sockFd := conn] && open == old(open) + {conn.sockFd}
      ensures lives == old(lives)[conn := Life(0, conn.TheFace(), [])]
    {
      hide TcpConnection.Valid, TcpConnection.Listed, Same, Owned, Recorded, Sound;
      Enter(conn);
      conn.SoundAgain();
      Enroll(conn);
      conn.SoundAgain();
      conn.ListedAgain();
    }

    lemma OldOnes()
      requires Sane()
      ensures lives.Keys == conns <= set c | c in conns && c in owner.Keys
      ensures this !in owner
    {
    }

    method Enter(conn: TcpConnection)
      requires conn.loop == this && conn.Valid() && conn.sockFd !in interest
      requires conn.TheFace() == FreshFace(conn.sockFd) && !conn.channel.eventHandling
      modifies this`open, this`interest, this`channels, this`connections, conn`state, conn.channel
      ensures conn.Live() && conn.inputBuffer.buffer == old(conn.inputBuffer.buffer) && conn.outputBuffer.buffer == old(conn.outputBuffer.buffer)
      ensures conn.TheFace() == OpenFace(old(conn.sockFd)) && !conn.channel.eventHandling
      ensures forall d :: d != conn.sockFd ==> Same(old(interest), interest, d)
      ensures connections == old(connections)[conn.sockFd := conn] && open == old(open) + {conn.sockFd}
    {
      open := open + {conn.sockFd};
      connections := connections[conn.sockFd := conn];
      conn.ConnectEstablished();
    }

    /** epoll_ctl: refused when the operation does not fit the interest set. */
    method Ctl(op: Op, ch: Channel) returns (ok: bool)
      modifies this`interest
      ensures ok <==> match op
                      case CtlAdd => ch.fd in open && ch.fd !in old(interest)
                      case _ => ch.fd in old(interest)
      ensures !ok ==> interest == old(interest)
      ensures ok ==> interest == if op.CtlDel? then old(interest) - {ch.fd}
                                 else old(interest)[ch.fd := Interest(ch.events, ch)]
    {
      match op {
        case CtlAdd =>
          ok := ch.fd in open && ch.fd !in interest;
          if ok {
            interest := interest[ch.fd := Interest(ch.events, ch)];
          }
        case CtlMod =>
          ok := ch.fd in interest;
          if ok {
            interest := interest[ch.fd := Interest(ch.events, ch)];
          }
        case CtlDel =>
          ok := ch.fd in interest;
          interest := interest - {ch.fd};
      }
    }

    /** From any registered state, whatever the channel now asks for: every operation issued is
        legal, and afterwards kernel and channel agree. */
    method UpdateChannel(channel: Channel)
      requires Registered(interest, open, channel, channel.fd, channel.status)
      modifies this`interest, this`channels, channel`status
      ensures Agrees(interest, open, channel, channel.fd, channel.status, channel.events)
      ensures channel.status == if old(channel.status).Added? && channel.events == NONE_EVENT then Deleted else Added
      ensures forall d :: d != channel.fd ==> Same(old(interest), interest, d)
    {
      var ok: bool;
      if channel.status.New? || channel.status.Deleted? {
        if channel.status.New? {
          channels := channels[channel.fd := channel];
        }
        channel.status := Added;
        ok := Ctl(CtlAdd, channel);
      } else {
        if channel.events == NONE_EVENT {
          ok := Ctl(CtlDel, channel);
          channel.status := Deleted;
        } else {
          ok := Ctl(CtlMod, channel);
        }
      }
      assert ok;
    }

    /** The connection moves to the pool and its descriptor is closed, which takes it out of the
        interest set. A delete asked for after that is always refused. */
    method RemoveChannel(channel: Channel) returns (refused: bool)
      requires Registered(interest, open, channel, channel.fd, channel.status)
      modifies this`interest, this`open, this`connections, this`connectionsPool, channel`status
      ensures channel.status == New
      ensures open == old(open) - {channel.fd} && interest == old(interest) - {channel.fd}
      ensures connectionsPool == old(connectionsPool) + [if channel.fd in old(connections) then old(connections)[channel.fd] else null]
      ensures connections == old(connections)[channel.fd := null]
      ensures refused <==> old(channel.status) == Added
    {
      var fd := channel.fd;
      var moved := if fd in connections then connections[fd] else null;
      connections := connections[fd := null];
      connectionsPool := connectionsPool + [moved];
      Close(fd);
      refused := false;
      if channel.status.Added? {
        var ok := Ctl(CtlDel, channel);
        refused := !ok;
      }
      channel.status := New;
    }

    method RemoveConnection(conn: TcpConnection) returns (refused: bool)
      requires conn.loop == this && conn.channel.loop == this && conn.channel.Ready() && conn.sockFd == conn.channel.fd
      requires conn.state.Disconnected? && conn.channel.events == NONE_EVENT
      modifies conn`state, conn.channel
      modifies this`interest, this`open, this`channels, this`connections, this`connectionsPool
      ensures conn.state.Disconnected? && conn.channel.events == NONE_EVENT && conn.channel.status == New
      ensures conn.channel.fd == conn.sockFd && !conn.channel.addedToLoop
      ensures conn.channel.eventHandling == old(conn.channel.eventHandling)
      ensures conn.channel.revents == old(conn.channel.revents)
      ensures interest == old(interest) - {conn.sockFd} && open == old(open) - {conn.sockFd}
      ensures connections == old(connections)[conn.sockFd := null]
      ensures connectionsPool == old(connectionsPool)
                                 + [if conn.sockFd in old(connections) then old(connections)[conn.sockFd] else null]
      ensures refused <==> old(conn.channel.status).Added?
    {
      var told: bool;
      refused, told := conn.ConnectDestroyed();
    }

    /** close(2) on the only descriptor of a socket also ends its registration. */
    method Close(fd: int)
      modifies this`open, this`interest
      ensures open == old(open) - {fd} && interest == old(interest) - {fd}
    {
      open := open - {fd};
      interest := interest - {fd};
    }
  }

  class TcpConnection {
    const loop: Epoll
    const channel: Channel
    const inputBuffer: Buffer
    const outputBuffer: Buffer
    var state: StateE
    var sockFd: int
    var reading: bool
    var io: Io  // the socket, and the history of this life

    ghost function Footprint(): set<object>
      reads inputBuffer, outputBuffer
    {
      {this, channel, inputBuffer, inputBuffer.buffer, outputBuffer, outputBuffer.buffer}
    }

    ghost predicate Valid()
      reads this, Footprint()
    {
      Wired() && Streams(state, channel.IsWriting(), outputBuffer.Contents(), io)
    }

    /** Its parts belong together. */
    ghost predicate Wired()
      reads this, Footprint()
    {
      && channel.loop == loop
      && inputBuffer != outputBuffer && inputBuffer.buffer != outputBuffer.buffer
      && inputBuffer.Valid() && outputBuffer.Valid()
      && sockFd == channel.fd
    }

    /** Open for business on its loop. */
    ghost predicate Live()
      reads this, Footprint(), loop
    {
      && Valid() && channel.Ready() && !state.Disconnected?
      && sockFd in loop.connections && loop.connections[sockFd] == this
    }

    /** Closed, and waiting in the pool. */
    ghost predicate Idle()
      reads this, Footprint(), loop
    {
      && Valid() && state.Disconnected?
      && channel.events == NONE_EVENT && channel.status == New
      && this in loop.connectionsPool
    }

    ghost function TheFace(): Face
      requires inputBuffer.Indexed() && outputBuffer.Indexed()
      reads this, channel, inputBuffer, inputBuffer.buffer, outputBuffer, outputBuffer.buffer
    {
      Face(state, sockFd, channel.fd, channel.events, channel.revents, channel.status,
           channel.addedToLoop, reading,
           inputBuffer.Contents(), outputBuffer.Contents(), io)
    }

    /** A live connection stays live under the same descriptor, and touches no other descriptor's
        registration. */
    twostate predicate Steady()
      reads this, Footprint(), loop
    {
      && Live() && sockFd == old(sockFd)
      && (inputBuffer.buffer == old(inputBuffer.buffer) || fresh(inputBuffer.buffer))
      && (outputBuffer.buffer == old(outputBuffer.buffer) || fresh(outputBuffer.buffer))
      && forall d :: d != sockFd ==> Same(old(loop.interest), loop.interest, d)
    }

    /** Only this connection, under one descriptor, has been worked on. */
    twostate predicate Alone(fd: int)
      reads *
    {
      && loop !in loop.owner && loop.conns == old(loop.conns) + {this}
      && loop.lives.Keys == old(loop.lives.Keys) + {this}
      && (forall e :: e in old(loop.lives) && e != this ==> e in loop.lives && loop.lives[e] == old(loop.lives)[e])
      && (forall o :: o in old(loop.owner) ==> o in loop.owner && loop.owner[o] == old(loop.owner)[o])
      && Elsewhere() && Apart(fd)
    }

    /** What belongs to other connections is as it was, */
    twostate predicate Elsewhere()
      reads *
    {
      forall o :: o in old(loop.owner) && old(loop.owner)[o] != this ==> unchanged(o)
    }

    /** ... and so are the tables under other descriptors. */
    twostate predicate Apart(fd: int)
      reads loop
    {
      forall d :: d != fd ==>
        && Same(old(loop.interest), loop.interest, d) && (d in loop.open <==> d in old(loop.open))
        && (d in loop.connections <==> d in old(loop.connections))
        && (d in loop.connections ==> loop.connections[d] == old(loop.connections)[d])
    }

    /** The books have been brought up to date for it. */
    twostate predicate Relisted()
      reads this, inputBuffer, outputBuffer, loop
    {
      && loop.conns == old(loop.conns)
      && (inputBuffer.buffer == old(inputBuffer.buffer) || fresh(inputBuffer.buffer))
      && (outputBuffer.buffer == old(outputBuffer.buffer) || fresh(outputBuffer.buffer))
      && loop.owner == old(loop.owner)[inputBuffer.buffer := this][outputBuffer.buffer := this]
      && this in old(loop.lives) && this in loop.lives && loop.lives == old(loop.lives)[this := loop.lives[this]]
    }

    twostate lemma AloneNew(fd: int)
      requires Listed() && Elsewhere() && Apart(fd) && loop.conns == old(loop.conns) + {this}
      requires this !in old(loop.lives) && this in loop.lives && loop.lives == old(loop.lives)[this := loop.lives[this]]
      requires forall o :: o in old(loop.owner) ==> o in loop.owner && loop.owner[o] == old(loop.owner)[o]
      ensures Alone(fd)
    {
      hide Valid, Elsewhere, Apart, Epoll.Sound, Epoll.Recorded, Epoll.Owned;
    }

    twostate lemma AloneAgain(fd: int)
      requires old(Listed()) && Listed() && Relisted() && Elsewhere() && Apart(fd)
      ensures Alone(fd) && loop.Spread() && loop.lives.Keys == old(loop.lives.Keys)
    {
      hide Valid, Elsewhere, Apart, Epoll.Sound, Epoll.Recorded;
      assert old(loop.Owned(this));
    }

    /** Everything its loop knows about it is right. */
    ghost predicate Listed()
      reads this, Footprint(), loop
    {
      && this in loop.conns && loop.lives.Keys == loop.conns && loop !in loop.owner
      && loop.Owned(this) && loop.Recorded(this) && loop.Sound(this)
    }

    /** Work on one connection leaves every other connection as it was. */
    twostate lemma Others(fd: int)
      requires old(loop.Housed()) && old(loop.Sole(this, fd)) && Alone(fd)
      requires forall e :: e in old(loop.connectionsPool) && e != this ==> e in loop.connectionsPool
      ensures forall e :: e in old(loop.conns) && e != this ==>
                loop.Owned(e) && loop.Sound(e) && loop.Recorded(e) && e.state == old(e.state) && e.sockFd == old(e.sockFd)
    {
      hide Streams, TheFace;
      forall e | e in old(loop.conns) && e != this
        ensures loop.Owned(e) && loop.Sound(e) && loop.Recorded(e) && e.state == old(e.state) && e.sockFd == old(e.sockFd)
      {
        assert old(loop.Sound(e)) && old(loop.Recorded(e)) && old(loop.Owned(e));
        assert unchanged(e) && unchanged(e.channel) && unchanged(e.inputBuffer) && unchanged(e.outputBuffer);
        assert unchanged(e.inputBuffer.buffer) && unchanged(e.outputBuffer.buffer);
      }
    }

    twostate lemma StaysHoused(fd: int)
      requires old(loop.Housed()) && old(loop.Sole(this, fd)) && Alone(fd) && Listed()
      requires forall e :: e in old(loop.connectionsPool) && e != this ==> e in loop.connectionsPool
      ensures loop.Housed()
      ensures forall e :: e in old(loop.conns) && e != this ==> e.state == old(e.state) && e.sockFd == old(e.sockFd)
    {
      hide Valid, Channel.Ready, Epoll.Sole, Epoll.Sound, Epoll.Recorded;
      Others(fd);
    }

    /** The connection is as sound as before, in the same place. */
    twostate lemma StaysPut()
      requires old(loop.Sane()) && this in old(loop.conns) && old(loop.Sole(this, sockFd)) && Alone(sockFd) && Listed()
      requires sockFd == old(sockFd) && state.Disconnected? == old(state.Disconnected?)
      requires old(state.Disconnected?) ==> loop.interest == old(loop.interest)
      requires loop.connections == old(loop.connections) && loop.connectionsPool == old(loop.connectionsPool)
      requires Credible(loop.TheLedger())
      ensures loop.Sane()
    {
      hide Valid, Channel.Ready, Epoll.Owned, Epoll.Recorded, Epoll.Housed, Credible;
      StaysHoused(sockFd);
      forall d | d in loop.interest ensures d in loop.connections && loop.connections[d] != null {
        if d != sockFd {
          assert Same(old(loop.interest), loop.interest, d);
        }
      }
    }

    /** It has closed. */
    twostate lemma StaysClosed()
      requires old(loop.Sane()) && this in old(loop.conns) && old(loop.Sole(this, sockFd)) && Alone(sockFd) && Listed()
      requires sockFd == old(sockFd) && state.Disconnected? && !old(state.Disconnected?)
      requires loop.interest == old(loop.interest) - {sockFd}
      requires loop.connections == old(loop.connections)[sockFd := null]
      requires loop.connectionsPool == old(loop.connectionsPool) + [this]
      requires Credible(loop.TheLedger())
      ensures loop.Sane()
    {
      hide Valid, Channel.Ready, Epoll.Owned, Epoll.Sound, Epoll.Recorded, Epoll.Housed, Credible;
      StaysHoused(sockFd);
      assert forall e :: e in loop.connectionsPool <==> e in old(loop.connectionsPool) || e == this;
    }

    twostate lemma PoolLess()
      requires old(loop.Tabled())
      requires if this in old(loop.conns) then old(loop.connectionsPool) == loop.connectionsPool + [this]
               else loop.connectionsPool == old(loop.connectionsPool)
      ensures forall e :: e in loop.connectionsPool ==> e in old(loop.connectionsPool) && e != this
      ensures forall i, j :: 0 <= i < j < |loop.connectionsPool| ==> loop.connectionsPool[i] != loop.connectionsPool[j]
    {
      if this in old(loop.conns) {
        var n := |loop.connectionsPool|;
        assert old(loop.connectionsPool)[n] == this;
        forall i | 0 <= i < n ensures loop.connectionsPool[i] in old(loop.connectionsPool) && loop.connectionsPool[i] != this {
          assert old(loop.connectionsPool)[i] == loop.connectionsPool[i];
        }
        assert forall i :: 0 <= i < n ==> loop.connectionsPool[i] == old(loop.connectionsPool)[i];
      }
    }

    /** It begins a life: for the first time, or taken off the end of the pool. */
    twostate lemma StaysOpened(fd: int)
      requires old(loop.Sane()) && old(loop.Sole(this, fd)) && Alone(fd) && Listed()
      requires this in old(loop.conns) ==> old(state.Disconnected?)
      requires sockFd == fd && !state.Disconnected? && loop.connections == old(loop.connections)[fd := this]
      requires if this in old(loop.conns) then old(loop.connectionsPool) == loop.connectionsPool + [this]
               else loop.connectionsPool == old(loop.connectionsPool)
      requires Credible(loop.TheLedger())
      ensures loop.Sane()
    {
      hide Valid, Channel.Ready, Epoll.Owned, Epoll.Sound, Epoll.Recorded, Epoll.Housed, Credible;
      assert forall e :: e in old(loop.connectionsPool) ==> e in loop.connectionsPool || e == this;
      PoolLess();
      StaysHoused(fd);
      forall d | d in loop.interest && d != fd ensures d in loop.connections && loop.connections[d] != null {
        assert Same(old(loop.interest), loop.interest, d);
      }
    }

    constructor (loop: Epoll, sockFd: int)
      ensures Valid() && fresh(Footprint()) && this.loop == loop
      ensures TheFace() == FreshFace(sockFd) && !channel.eventHandling
    {
      this.loop := loop;
      state, this.sockFd, reading, io := Connecting, sockFd, true, FRESH_IO;
      channel := new Channel(loop, sockFd);
      inputBuffer := new Buffer();
      outputBuffer := new Buffer();
    }

    /** A pooled connection begins a new life, and nothing shows that it is not a new one. */
    method ConnectReset(sockFd: int)
      requires Valid()
      modifies this, channel, inputBuffer, outputBuffer
      ensures Valid() && inputBuffer.buffer == old(inputBuffer.buffer) && outputBuffer.buffer == old(outputBuffer.buffer)
      ensures TheFace() == FreshFace(sockFd) && !channel.eventHandling
    {
      state := Connecting;
      this.sockFd := sockFd;
      channel.ChannelReset(sockFd);
      reading := true;
      inputBuffer.RetrieveAll();
      outputBuffer.RetrieveAll();
      io := FRESH_IO;
    }

    // ---- Sending ----

    method Write(data: seq<byte>, wr: WriteResult) returns (r: WriteResult)
      modifies this`io
      ensures r == Fit(wr, |data|, old(io))
      ensures io == match r
                    case Wrote(n) => old(io).(accepted := old(io).accepted + data[..n])
                    case Fatal => old(io).(broken := true)
                    case _ => old(io)
    {
      r := Fit(wr, |data|, io);
      match r {
        case Wrote(n) => io := io.(accepted := io.accepted + data[..n]);
        case Fatal => io := io.(broken := true);
        case _ =>
      }
    }

    /** The send primitive. The socket is tried directly only when nothing is waiting; what it does
        not take waits in the output buffer, unless the socket failed for good. */
    method SendInLoop(data: seq<byte>, wr: WriteResult)
      requires Live() || (Valid() && state.Disconnected?)
      modifies this`io, channel`events, channel`status, channel`addedToLoop, loop`interest, loop`channels
      modifies outputBuffer, outputBuffer.buffer
      ensures Valid() && (old(Live()) ==> Steady())
      ensures state.Disconnected? ==> loop.interest == old(loop.interest)
      ensures TheFace() == AfterSending(old(TheFace()), data, wr)
      ensures state == old(state) && (!state.Disconnected? ==> io.sends == old(io.sends) + data)
      ensures !state.Disconnected? && old(outputBuffer.Contents()) != [] ==>
                io.accepted == old(io.accepted) && outputBuffer.Contents() == old(outputBuffer.Contents()) + data
      ensures !state.Disconnected? && old(outputBuffer.Contents() == [] && !io.broken && io.halfCloses == 0) && wr.Wrote? ==>
                var n := Min(wr.n, |data|);
                && io.accepted == old(io.accepted) + data[..n] && outputBuffer.Contents() == data[n..]
                && io.completions == old(io.completions) + (if n == |data| then 1 else 0)
                && (n < |data| ==> channel.IsWriting())
    {
      SendMeans(TheFace(), data, wr);
      if !state.Disconnected? {
        SendLive(data, wr);
      }
    }

    /** What the specification of a send comes to. */
    static lemma SendMeans(f: Face, data: seq<byte>, wr: WriteResult)
      ensures var g := AfterSending(f, data, wr);
              && (!f.state.Disconnected? ==> g.io.sends == f.io.sends + data)
              && (!f.state.Disconnected? && f.output != [] ==> g.io.accepted == f.io.accepted && g.output == f.output + data)
              && (!f.state.Disconnected? && f.output == [] && !f.io.broken && f.io.halfCloses == 0 && wr.Wrote? ==>
                    var n := Min(wr.n, |data|);
                    && g.io.accepted == f.io.accepted + data[..n] && g.output == data[n..]
                    && g.io.completions == f.io.completions + (if n == |data| then 1 else 0))
    {
      hide With;
    }

    method SendLive(data: seq<byte>, wr: WriteResult)
      requires Live()
      modifies this`io, channel`events, channel`status, channel`addedToLoop, loop`interest, loop`channels
      modifies outputBuffer, outputBuffer.buffer
      ensures Steady() && TheFace() == AfterSending(old(TheFace()), data, wr)
    {
      hide Live, Streams, Channel.Ready, Channel.IsWriting, Wired, TheFace, With, AfterSend, Asking;
      Parts();
      SendKeeps(state, outputBuffer.Contents(), io, data, wr);
      label before:
      var nwrote, faultError := Attempt(data, wr);
      IoOnly@before();
      if !faultError && nwrote < |data| {
        Await(data[nwrote..]);
      } else {
        assert outputBuffer.Contents() + [] == outputBuffer.Contents();
      }
      Joints();
      Whole();
    }

    lemma Joints()
      requires Wired()
      ensures inputBuffer.Indexed() && outputBuffer.Indexed() && sockFd == channel.fd
      ensures TheFace().output == outputBuffer.Contents() && TheFace().io == io && TheFace().state == state
    {
    }

    twostate lemma IoOnly()
      requires old(Wired()) && unchanged(channel) && unchanged(inputBuffer) && unchanged(outputBuffer)
      requires unchanged(inputBuffer.buffer) && unchanged(outputBuffer.buffer)
      requires state == old(state) && sockFd == old(sockFd) && reading == old(reading)
      ensures Wired() && TheFace() == old(TheFace()).(io := io)
    {
    }

    lemma Parts()
      requires Live()
      ensures Wired() && channel.Ready() && Streams(state, channel.IsWriting(), outputBuffer.Contents(), io)
      ensures inputBuffer.Indexed() && outputBuffer.Valid()
      ensures (channel.IsWriting() <==> outputBuffer.Contents() != []) && !state.Disconnected?
      ensures TheFace().output == outputBuffer.Contents() && TheFace().io == io && TheFace().state == state
      ensures sockFd == channel.fd && sockFd in loop.connections && loop.connections[sockFd] == this
    {
    }

    lemma Whole()
      requires outputBuffer.Indexed() && Wired() && channel.Ready() && !state.Disconnected?
      requires Streams(state, channel.IsWriting(), outputBuffer.Contents(), io)
      requires sockFd in loop.connections && loop.connections[sockFd] == this
      ensures Live()
    {
    }

    /** The direct try, made only when nothing is waiting. */
    method Attempt(data: seq<byte>, wr: WriteResult) returns (nwrote: nat, faultError: bool)
      requires outputBuffer.Valid() && (channel.IsWriting() <==> outputBuffer.Contents() != [])
      modifies this`io
      ensures nwrote <= |data| && (faultError ==> outputBuffer.Contents() == [] && data[nwrote..] == data)
      ensures (io, if faultError then [] else outputBuffer.Contents() + data[nwrote..])
           == AfterSend(outputBuffer.Contents(), old(io), data, wr)
    {
      nwrote, faultError := 0, false;
      assert io.accepted + data[..0] == io.accepted;
      if !channel.IsWriting() && outputBuffer.ReadableBytes() == 0 {
        var r := Write(data, wr);
        match r {
          case Wrote(n) =>
            nwrote := n;
            if nwrote == |data| {
              io := io.(completions := io.completions + 1);
            }
          case Fatal =>
            faultError := true;
          case _ =>
        }
      }
      io := io.(sends := io.sends + data, dropped := io.dropped || (faultError && nwrote < |data|));
    }

    /** What the socket did not take waits in the output buffer, with write interest. */
    method Await(rest: seq<byte>)
      requires Wired() && channel.Ready() && rest != []
      requires channel.IsWriting() <==> outputBuffer.Contents() != []
      modifies channel`events, channel`status, channel`addedToLoop, loop`interest, loop`channels
      modifies outputBuffer, outputBuffer.buffer
      ensures Wired() && channel.Ready() && channel.IsWriting()
      ensures outputBuffer.buffer == old(outputBuffer.buffer) || fresh(outputBuffer.buffer)
      ensures outputBuffer.Contents() == old(outputBuffer.Contents()) + rest
      ensures var f := old(TheFace()).(output := outputBuffer.Contents());
              TheFace() == if old(channel.IsWriting()) then f else Asking(f, With(f.events, WRITE_EVENT))
      ensures forall d :: d != channel.fd ==> Same(old(loop.interest), loop.interest, d)
    {
      outputBuffer.Append(rest);
      if !channel.IsWriting() {
        channel.EnableEvents(WRITE_EVENT);
      }
    }

    /** The socket can take more. Once the buffer drains, write interest goes, and a connection
        that is closing down is half-closed. */
    method HandleWrite(wr: WriteResult)
      requires Live() || Idle()
      modifies this`io, channel`events, channel`status, channel`addedToLoop, loop`interest, loop`channels
      modifies outputBuffer
      ensures Valid() && (old(Live()) ==> Steady()) && outputBuffer.buffer == old(outputBuffer.buffer)
      ensures (old(Idle()) ==> Idle()) && forall d :: d != sockFd ==> Same(old(loop.interest), loop.interest, d)
      ensures state.Disconnected? || old(outputBuffer.Contents()) == [] ==> loop.interest == old(loop.interest)
      ensures TheFace() == AfterWritable(old(TheFace()), wr)
      ensures !state.Disconnected? && old(outputBuffer.Contents() != [] && !io.broken && io.halfCloses == 0) && wr.Wrote? ==>
                var out := old(outputBuffer.Contents()); var n := Min(wr.n, |out|);
                && io.accepted == old(io.accepted) + out[..n] && outputBuffer.Contents() == out[n..]
                && (n == |out| ==> !channel.IsWriting() && io.completions == old(io.completions) + 1
                                   && (state.Disconnecting? ==> io.halfCloses == 1 && io.shut == io.sends))
    {
      if wr.Wrote? && !state.Disconnected? && outputBuffer.Contents() != [] && !io.broken && io.halfCloses == 0 {
        WritableAnswers(TheFace(), wr.n);
      }
      assert channel.IsWriting() <==> outputBuffer.Contents() != [] && !state.Disconnected?;
      SameSelf(loop.interest);
      if channel.IsWriting() {
        if outputBuffer.ReadableBytes() > 0 {
          HandOver(wr);
        }
      }
    }

    method HandOver(wr: WriteResult)
      requires Live() && outputBuffer.Contents() != []
      modifies this`io, channel`events, channel`status, channel`addedToLoop, loop`interest, loop`channels
      modifies outputBuffer
      ensures Steady() && outputBuffer.buffer == old(outputBuffer.buffer)
      ensures TheFace() == AfterWritable(old(TheFace()), wr)
    {
      hide Live, Streams, Channel.Ready, Channel.IsWriting, Wired, TheFace, AfterWritable, Flushed, Emptied;
      Parts();
      WritableStakes(wr);
      var n := Flush(wr);
      FinishFlush(n);
      Joints();
      Whole();
    }

    lemma WritableStakes(wr: WriteResult)
      requires Live() && outputBuffer.Contents() != [] && inputBuffer.Indexed()
      ensures channel.IsWriting() && TheFace().output != []
      ensures var f, g := Flushed(TheFace(), wr), AfterWritable(TheFace(), wr);
              g == (if f.output == [] then Emptied(f) else f) && Streams(g.state, g.output != [], g.output, g.io)
    {
      hide Emptied, Flushed, Without;
      WriteKeeps(state, outputBuffer.Contents(), io, wr);
      WritableStream(TheFace(), wr);
      WritableState(TheFace(), wr);
    }

    method FinishFlush(n: nat)
      requires Wired() && channel.Ready() && channel.IsWriting() && outputBuffer.Indexed() && inputBuffer.Indexed()
      requires n > 0 || TheFace().output != []
      modifies this`io, channel`events, channel`status, channel`addedToLoop, loop`interest, loop`channels
      ensures Wired() && channel.Ready() && (channel.IsWriting() <==> TheFace().output != [])
      ensures TheFace() == if old(TheFace()).output == [] then Emptied(old(TheFace())) else old(TheFace())
      ensures forall d :: d != channel.fd ==> Same(old(loop.interest), loop.interest, d)
    {
      hide Channel.Ready, Channel.IsWriting, Wired, TheFace, Emptied;
      Joints();
      SameSelf(loop.interest);
      if n > 0 && outputBuffer.ReadableBytes() == 0 {
        label flushed:
        Joined();
        Drained();
        DrainedOnly@flushed();
        Joints();
      }
    }

    lemma Joined()
      requires Wired()
      ensures channel.loop == loop
    {
    }

    twostate lemma FlushOnly(wr: WriteResult)
      requires old(Wired()) && unchanged(channel) && unchanged(inputBuffer) && unchanged(inputBuffer.buffer)
      requires outputBuffer.Valid() && outputBuffer.buffer == old(outputBuffer.buffer)
      requires state == old(state) && sockFd == old(sockFd) && reading == old(reading)
      requires old(outputBuffer.Indexed())
      requires var out := old(outputBuffer.Contents()); var r := Fit(wr, |out|, old(io));
               var n := if r.Wrote? then r.n else 0;
               && n <= |out| && outputBuffer.Contents() == out[n..]
               && io == old(io).(accepted := old(io.accepted) + out[..n], broken := old(io.broken) || r.Fatal?)
      ensures Wired() && TheFace() == Flushed(old(TheFace()), wr)
    {
    }

    twostate lemma DrainedOnly()
      requires old(Wired()) && channel.Asked(Without(old(channel.events), WRITE_EVENT))
      requires channel.fd == old(channel.fd) && channel.revents == old(channel.revents)
      requires unchanged(inputBuffer) && unchanged(outputBuffer)
      requires unchanged(inputBuffer.buffer) && unchanged(outputBuffer.buffer)
      requires state == old(state) && sockFd == old(sockFd) && reading == old(reading)
      requires io == if state.Disconnecting?
                     then old(io).(completions := old(io.completions) + 1, halfCloses := old(io.halfCloses) + 1, shut := old(io.sends))
                     else old(io).(completions := old(io.completions) + 1)
      ensures Wired() && TheFace() == Emptied(old(TheFace()))
    {
      hide Without;
    }

    /** One write(2) of everything that waits. */
    method Flush(wr: WriteResult) returns (n: nat)
      requires Wired() && outputBuffer.Valid() && inputBuffer.Indexed()
      modifies this`io, outputBuffer
      ensures Wired() && outputBuffer.Indexed() && outputBuffer.buffer == old(outputBuffer.buffer)
      ensures TheFace() == Flushed(old(TheFace()), wr) && (n == 0 ==> TheFace().output == old(TheFace()).output)
    {
      label before:
      n := WriteOut(wr);
      FlushOnly@before(wr);
    }

    method WriteOut(wr: WriteResult) returns (n: nat)
      requires outputBuffer.Valid()
      modifies this`io, outputBuffer
      ensures outputBuffer.Valid() && outputBuffer.buffer == old(outputBuffer.buffer)
      ensures var out := old(outputBuffer.Contents()); var r := Fit(wr, |out|, old(io));
              && n == (if r.Wrote? then r.n else 0) <= |out|
              && outputBuffer.Contents() == out[n..]
              && io == old(io).(accepted := old(io.accepted) + out[..n], broken := old(io.broken) || r.Fatal?)
    {
      var out := outputBuffer.buffer[outputBuffer.reader..outputBuffer.writer];
      assert io.accepted + out[..0] == io.accepted;
      var r := Write(out, wr);
      n := if r.Wrote? then r.n else 0;
      if n > 0 {
        outputBuffer.Retrieve(n);
      }
    }

    method Drained()
      requires channel.Ready() && channel.loop == loop
      modifies this`io, channel`events, channel`status, channel`addedToLoop, loop`interest, loop`channels
      ensures channel.Ready() && !channel.IsWriting() && channel.Asked(Without(old(channel.events), WRITE_EVENT))
      ensures io == if state.Disconnecting?
                    then old(io).(completions := old(io.completions) + 1, halfCloses := old(io.halfCloses) + 1, shut := old(io.sends))
                    else old(io).(completions := old(io.completions) + 1)
      ensures forall d :: d != channel.fd ==> Same(old(loop.interest), loop.interest, d)
    {
      hide Channel.IsWriting, Channel.Ready, Without, Wants, Same;
      StopWriting();
      io := io.(completions := io.completions + 1);
      if state.Disconnecting? {
        ShutdownInLoop();
      }
    }

    method StopWriting()
      requires channel.Ready() && channel.loop == loop
      modifies channel`events, channel`status, channel`addedToLoop, loop`interest, loop`channels
      ensures channel.Ready() && !channel.IsWriting() && channel.Asked(Without(old(channel.events), WRITE_EVENT))
      ensures forall d :: d != channel.fd ==> Same(old(loop.interest), loop.interest, d)
    {
      hide Channel.Ready, Same;
      channel.DisableEvents(WRITE_EVENT);
    }

    method ShutdownInLoop()
      modifies this`io
      ensures io == if channel.IsWriting() then old(io)
                    else old(io).(halfCloses := old(io.halfCloses) + 1, shut := old(io.sends))
    {
      if !channel.IsWriting() {
        io := io.(halfCloses := io.halfCloses + 1, shut := io.sends);
      }
    }

    method Shutdown()
      requires Live() || Idle()
      modifies this`state, this`io
      ensures old(Live()) ==> Steady()
      ensures Valid() && TheFace() == AfterShutdown(old(TheFace()))
      ensures !old(state).Connected? ==> state == old(state) && io == old(io)
      ensures old(state).Connected? ==>
                && state == Disconnecting && io.asked && io.sends == old(io.sends) && io.accepted == old(io.accepted)
                && (outputBuffer.Contents() == [] ==> io.halfCloses == old(io.halfCloses) + 1 == 1 && io.shut == io.sends)
                && (outputBuffer.Contents() != [] ==> io.halfCloses == 0)
    {
      if state.Connected? {
        state := Disconnecting;
        io := io.(asked := true);
        ShutdownInLoop();
      }
    }

    /** Which of its lives this is. */
    ghost function Number(): nat
      reads this, loop
    {
      if this in loop.lives then loop.lives[this].number else 0
    }

    ghost function Story(): seq<Item>
      reads this, loop
    {
      if this in loop.lives then loop.lives[this].story else []
    }

    /** Closing is put off to the functor phase. */
    method ForceClose()
      requires Live() || Idle()
      modifies this`state, loop`pending, loop`asked
      ensures old(Live()) ==> Steady()
      ensures Valid() && TheFace() == AfterDeed(old(TheFace()), Deed.ForceClose)
      ensures state == (if old(state).Connected? || old(state).Disconnecting? then Disconnecting else old(state))
      ensures var acts := old(state).Connected? || old(state).Disconnecting?;
              && loop.pending == old(loop.pending) + (if acts then [this] else [])
              && loop.asked == old(loop.asked) + if acts then [Number()] else []
    {
      if state.Connected? || state.Disconnecting? {
        state := Disconnecting;
        loop.pending := loop.pending + [this];
        loop.asked := loop.asked + [Number()];
      }
    }

    // ---- Reading ----

    method StartReadInLoop()
      requires Live()
      modifies this`reading, channel`events, channel`status, channel`addedToLoop, loop`interest, loop`channels
      ensures Steady() && reading && channel.IsReading() && TheFace() == AfterStart(old(TheFace()))
    {
      hide Wants, With, Channel.Ready, Streams;
      ReadInterest(channel.events);
      if !reading || !channel.IsReading() {
        channel.EnableEvents(READ_EVENT);
        reading := true;
      }
    }

    method StopReadInLoop()
      requires Live()
      modifies this`reading, channel`events, channel`status, channel`addedToLoop, loop`interest, loop`channels
      ensures Steady() && !reading && !channel.IsReading() && TheFace() == AfterStop(old(TheFace()))
    {
      hide Wants, Without, Channel.Ready, Streams;
      ReadInterest(channel.events);
      if reading || channel.IsReading() {
        channel.DisableEvents(READ_EVENT);
        reading := false;
      }
    }

    /** A user takes bytes out of the input buffer. */
    method Take(n: nat)
      requires Live()
      modifies inputBuffer
      ensures Steady() && TheFace() == AfterDeed(old(TheFace()), Deed.Take(n))
      ensures inputBuffer.Contents() == old(inputBuffer.Contents())[Min(n, |old(inputBuffer.Contents())|)..]
    {
      hide Streams, Wants, Same, AfterSending, AfterShutdown, AfterStart, AfterStop;
      SameSelf(loop.interest);
      if n <= inputBuffer.ReadableBytes() {
        inputBuffer.Retrieve(n);
      } else {
        inputBuffer.RetrieveAll();
      }
    }

    method Undergo(deed: Deed)
      requires Live() && !state.Connecting?
      modifies this`state, this`io, this`reading, channel`events, channel`status, channel`addedToLoop
      modifies inputBuffer, outputBuffer, outputBuffer.buffer, loop`interest, loop`channels, loop`pending, loop`asked
      ensures Steady() && !state.Connecting? && !state.Disconnected? && TheFace() == AfterDeed(old(TheFace()), deed)
      ensures loop.pending == old(loop.pending) + if deed.ForceClose? then [this] else []
      ensures loop.asked == old(loop.asked) + if deed.ForceClose? then [Number()] else []
    {
      hide Channel.Ready, Streams, AfterSending, AfterShutdown, AfterStart, AfterStop;
      DeedGoesOn(TheFace(), deed);
      match deed {
        case Send(data, wr) => SendInLoop(data, wr);
        case Shutdown => Shutdown();
        case ForceClose => ForceClose();
        case StartRead => StartReadInLoop();
        case StopRead => StopReadInLoop();
        case Take(n) => Take(n);
      }
    }

    // ---- The same, with the loop's books kept ----

    /** What being listed gives to work with, and what it takes. */
    lemma Stakes()
      requires Listed()
      ensures this in loop.conns && loop.lives.Keys == loop.conns && loop !in loop.owner && this in loop.lives
      ensures inputBuffer.Indexed() && outputBuffer.Indexed() && loop.lives[this] == Life(Number(), TheFace(), Story())
      ensures this in loop.owner && loop.owner[this] == this && channel in loop.owner && loop.owner[channel] == this
      ensures inputBuffer in loop.owner && loop.owner[inputBuffer] == this
      ensures inputBuffer.buffer in loop.owner && loop.owner[inputBuffer.buffer] == this
      ensures outputBuffer in loop.owner && loop.owner[outputBuffer] == this
      ensures outputBuffer.buffer in loop.owner && loop.owner[outputBuffer.buffer] == this
      ensures if state.Disconnected? then Idle() else Live() && !state.Connecting?
    {
    }

    lemma SoundAgain()
      requires if state.Disconnected? then Idle() else Live() && !state.Connecting?
      ensures loop.Sound(this) && inputBuffer.Indexed() && outputBuffer.Indexed()
    {
    }

    lemma ListedAgain()
      requires this in loop.conns && loop.lives.Keys == loop.conns && loop !in loop.owner
      requires loop.Owned(this) && loop.Recorded(this) && loop.Sound(this)
      ensures Listed()
    {
    }

    method Suffer(deed: Deed)
      requires Listed() && !state.Disconnected?
      modifies this`state, this`io, this`reading, channel`events, channel`status, channel`addedToLoop
      modifies inputBuffer, outputBuffer, outputBuffer.buffer, loop`interest, loop`channels, loop`pending, loop`asked
      modifies loop`owner, loop`lives
      ensures Listed() && Relisted() && Elsewhere() && Apart(sockFd) && sockFd == old(sockFd) && !state.Disconnected?
      ensures loop.lives == old(loop.lives)[this := Life(old(Number()), AfterDeed(old(loop.lives[this].face), deed), old(Story()) + [ByUser(deed)])]
      ensures loop.pending == old(loop.pending) + if deed.ForceClose? then [this] else []
      ensures loop.asked == old(loop.asked) + if deed.ForceClose? then [loop.lives[this].number] else []
    {
      hide Valid, Live, Idle, AfterDeed, AfterWritable, AfterClose, AfterInputOf, Streams, Listed, TheFace, Epoll.Owned, Epoll.Recorded, Epoll.Sound,
        Buffer.Contents, FitRead, Channel.IsReading, Same;
      Stakes();
      Undergo(deed);
      SoundAgain();
      loop.Relist(this, Number(), Story() + [ByUser(deed)]);
      ListedAgain();
    }

    method WriteListed(wr: WriteResult)
      requires Listed()
      modifies this`io, channel`events, channel`status, channel`addedToLoop, loop`interest, loop`channels
      modifies outputBuffer, loop`owner, loop`lives
      ensures Listed() && Relisted() && Elsewhere() && Apart(sockFd) && sockFd == old(sockFd) && state == old(state)
      ensures state.Disconnected? ==> loop.interest == old(loop.interest)
      ensures loop.lives == old(loop.lives)[this := Life(old(Number()), AfterWritable(old(loop.lives[this].face), wr),
                old(Story()) + if state.Disconnected? then [] else [Writable(wr)])]
    {
      hide Valid, Live, Idle, AfterDeed, AfterWritable, AfterClose, AfterInputOf, Streams, Listed, TheFace, Epoll.Owned, Epoll.Recorded, Epoll.Sound,
        Buffer.Contents, FitRead, Channel.IsReading, Same;
      Stakes();
      HandleWrite(wr);
      SoundAgain();
      loop.Relist(this, Number(), Story() + if state.Disconnected? then [] else [Writable(wr)]);
      ListedAgain();
    }

    method ReadListed(read: ReadResult) returns (n: int, ghost got: ReadResult)
      requires Listed()
      modifies inputBuffer, inputBuffer.buffer, loop`owner, loop`lives
      ensures Listed() && Relisted() && Elsewhere() && Apart(sockFd)
      ensures Fitted(read, got) && n == if channel.fd !in loop.open || got.Failed? then -1 else |got.bytes|
      ensures loop.lives == old(loop.lives)[this := Life(old(Number()),
                AfterInputOf(old(loop.lives[this].face), if n > 0 then got.bytes else []),
                old(Story()) + if n > 0 then [FromPeer(got.bytes)] else [])]
    {
      hide Valid, Live, Idle, AfterDeed, AfterWritable, AfterClose, AfterInputOf, Streams, Listed, TheFace, Epoll.Owned, Epoll.Recorded, Epoll.Sound,
        Buffer.Contents, Channel.IsReading, Same;
      Stakes();
      SameSelf(loop.interest);
      n, got := ReadSome(read);
      SoundAgain();
      loop.Relist(this, Number(), Story() + if n > 0 then [FromPeer(got.bytes)] else []);
      ListedAgain();
    }

    method CloseListed()
      requires Listed() && !state.Disconnected?
      modifies this`state, this`io, channel
      modifies loop`interest, loop`open, loop`channels, loop`connections, loop`connectionsPool
      modifies loop`owner, loop`lives
      ensures Listed() && Relisted() && Elsewhere() && Apart(sockFd) && sockFd == old(sockFd) && state.Disconnected?
      ensures loop.interest == old(loop.interest) - {sockFd} && loop.open == old(loop.open) - {sockFd}
      ensures loop.connections == old(loop.connections)[sockFd := null]
      ensures loop.connectionsPool == old(loop.connectionsPool) + [this]
      ensures loop.lives == old(loop.lives)[this := Life(old(Number()), AfterClose(old(loop.lives[this].face)), old(Story()))]
    {
      hide Valid, Live, Idle, AfterDeed, AfterWritable, AfterClose, AfterInputOf, Streams, Listed, TheFace, Epoll.Owned, Epoll.Recorded, Epoll.Sound,
        Buffer.Contents, FitRead, Channel.IsReading;
      Stakes();
      var refused := HandleClose();
      SoundAgain();
      loop.Relist(this, Number(), Story());
      ListedAgain();
    }

    // ---- Beginning and end of a life ----

    method ConnectEstablished()
      requires Live() && state.Connecting?
      modifies this`state, channel`events, channel`status, channel`addedToLoop, loop`interest, loop`channels
      ensures Steady() && inputBuffer.buffer == old(inputBuffer.buffer) && outputBuffer.buffer == old(outputBuffer.buffer)
      ensures TheFace() == old(TheFace()).(state := Connected, events := With(old(channel.events), READ_EVENT),
                                           status := Added, addedToLoop := true)
      ensures channel.eventHandling == old(channel.eventHandling)
    {
      assert Streams(Connected, channel.IsWriting(), outputBuffer.Contents(), io);
      hide Streams;
      state := Connected;
      channel.EnableEvents(READ_EVENT);
      assert channel.IsWriting() == old(channel.IsWriting());
    }

    /** The assert on the state is the source's. The kernel refuses the closing delete exactly when
        the connection was not being watched when it closed. */
    method HandleClose() returns (refused: bool)
      requires Live() && !state.Connecting?
      modifies this`state, this`io, channel
      modifies loop`interest, loop`open, loop`channels, loop`connections, loop`connectionsPool
      ensures Idle() && state.Disconnected? && sockFd == old(sockFd) && !channel.addedToLoop
      ensures TheFace() == AfterClose(old(TheFace())) && channel.eventHandling == old(channel.eventHandling)
      ensures loop.interest == old(loop.interest) - {sockFd} && loop.open == old(loop.open) - {sockFd}
      ensures loop.connections == old(loop.connections)[sockFd := null]
      ensures loop.connectionsPool == old(loop.connectionsPool) + [this]
      ensures refused <==> !old(channel.status).Added?
    {
      hide Live, Idle, Valid, Wired, TheFace, Streams;
      Parts();
      label before:
      assert state.Connected? || state.Disconnecting?;
      state := Disconnected;
      io := io.(closes := io.closes + 1);
      channel.DisableAll();
      SameRest(old(loop.interest), loop.interest, sockFd);
      refused := loop.RemoveConnection(this);
      ClosedUp@before();
    }

    twostate lemma ClosedUp()
      requires old(Live()) && state.Disconnected? && io == old(io).(closes := old(io.closes) + 1)
      requires channel.events == NONE_EVENT && channel.status == New && !channel.addedToLoop
      requires channel.fd == old(channel.fd) && channel.revents == old(channel.revents)
      requires sockFd == old(sockFd) && reading == old(reading) && this in loop.connectionsPool
      requires unchanged(inputBuffer) && unchanged(outputBuffer)
      requires unchanged(inputBuffer.buffer) && unchanged(outputBuffer.buffer)
      ensures Idle() && TheFace() == AfterClose(old(TheFace()))
    {
      hide Streams, Wants;
      CloseKeeps(old(state), old(channel.IsWriting()), channel.IsWriting(), outputBuffer.Contents(), old(io));
    }

    method ConnectDestroyed() returns (refused: bool, told: bool)
      requires channel.loop == loop && channel.Ready() && sockFd == channel.fd
      requires state.Connected? || channel.events == NONE_EVENT
      modifies this`state, channel
      modifies loop`interest, loop`open, loop`channels, loop`connections, loop`connectionsPool
      ensures state == if old(state).Connected? then Disconnected else old(state)
      ensures channel.events == NONE_EVENT && channel.status == New && !channel.addedToLoop
      ensures channel.fd == sockFd && channel.eventHandling == old(channel.eventHandling) && channel.revents == old(channel.revents)
      ensures loop.interest == old(loop.interest) - {sockFd} && loop.open == old(loop.open) - {sockFd}
      ensures loop.connections == old(loop.connections)[sockFd := null]
      ensures loop.connectionsPool == old(loop.connectionsPool)
                                      + [if sockFd in old(loop.connections) then old(loop.connections)[sockFd] else null]
      ensures !old(state).Connected? ==> (refused <==> old(channel.status).Added?)
      ensures told <==> old(state).Connected?  // the connection callback is called
    {
      told := false;
      if state.Connected? {
        state := Disconnected;
        channel.DisableAll();
        SameRest(old(loop.interest), loop.interest, sockFd);
        told := true;
      }
      refused := channel.Remove();
    }

    // ---- Events, with every other connection of the loop around ----

    /** The connections are the same ones as before, on a heap that has at most grown. */
    twostate predicate Outcome()
      reads loop
    {
      loop.conns == old(loop.conns) && loop.Spread()
    }

    method Retire()
      requires loop.Sane() && this in loop.conns && !state.Disconnected?
      modifies loop, loop.owner.Keys
      ensures loop.Sane() && Outcome() && state.Disconnected? && sockFd !in loop.open
      ensures loop.TheWorld() == old(loop.TheWorld()).Closed(this)
    {
      hide Epoll.Sane, Epoll.Sole, Valid, Listed, Alone, Elsewhere, Apart, Credible, Carries, SameRevents, Extends,
        AfterClose, World.Orderly, World.Follows;
      loop.Ready(this);
      ghost var w := loop.TheWorld();
      label before:
      CloseListed();
      AloneAgain@before(sockFd);
      assert w.LifeOf(this).story + [] == w.LifeOf(this).story;
      w.ClosedKeeps(this);
      StaysClosed@before();
    }

    /** What read(2) on the channel's descriptor can answer: a closed descriptor answers EBADF. */
    function FitRead(read: ReadResult, open: bool, room: nat): ReadResult {
      if !open then Failed(EBADF)
      else if read.Received? && |read.bytes| > room then Received(read.bytes[..room])
      else read
    }

    /** A failed read changes nothing, an empty one closes the connection, and data is stored and
        handed to the user, whose operations reach any open connection. `got` is what the kernel
        answered. */
    method HandleRead(read: ReadResult, script: seq<Act>) returns (ghost got: ReadResult)
      requires loop.Sane() && this in loop.conns && (state.Disconnected? ==> sockFd !in loop.open)
      modifies loop, loop.owner.Keys
      ensures loop.Sane() && Outcome() && Fitted(read, got) && (state.Disconnected? ==> sockFd !in loop.open)
      ensures loop.TheWorld() == old(loop.TheWorld()).AfterReading(this, got, script)
    {
      hide Epoll.Sane, World.Closed, World.Fed, World.AfterScript, World.Orderly, Noted;
      loop.Shown(this);
      var n;
      n, got := Receive(read);
      if n > 0 {
        loop.WorldOrderly();
        loop.Shown(this);
        loop.TheWorld().ScriptGoesOn(script, |script|);
        loop.Perform(script);
        loop.Shown(this);
      } else if n == 0 {
        Retire();
      }
    }

    method Receive(read: ReadResult) returns (n: int, ghost got: ReadResult)
      requires loop.Sane() && this in loop.conns && (state.Disconnected? ==> sockFd !in loop.open)
      modifies loop`owner, loop`lives, loop`conns, loop.owner.Keys
      ensures loop.Sane() && Outcome() && state == old(state) && sockFd == old(sockFd) && Fitted(read, got)
      ensures n == if state.Disconnected? || got.Failed? then -1 else |got.bytes|
      ensures loop.TheWorld() == if n > 0 then old(loop.TheWorld()).Fed(this, got.bytes) else old(loop.TheWorld())
    {
      hide Epoll.Sane, Epoll.Sole, Valid, Listed, Alone, Elsewhere, Apart, Credible, Fitted, World.Orderly, World.GoesOnTo, Noted;
      loop.Ready(this);
      ghost var w := loop.TheWorld();
      label before:
      n, got := ReadListed(read);
      AloneAgain@before(sockFd);
      if n > 0 {
        w.FedKeeps(this, got.bytes);
      } else {
        NothingIn(w.FaceOf(this));
        assert w.LifeOf(this).story + [] == w.LifeOf(this).story;
        assert loop.TheWorld() == w;
      }
      StaysPut@before();
    }

    lemma OpenWhenLive()
      requires Listed()
      ensures channel.fd == sockFd && (!state.Disconnected? ==> sockFd in loop.open)
    {
    }

    method ReadSome(read: ReadResult) returns (n: int, ghost got: ReadResult)
      requires Live() || Idle()
      modifies inputBuffer, inputBuffer.buffer
      ensures (old(Live()) ==> Live()) && (old(Idle()) ==> Idle())
      ensures inputBuffer.buffer == old(inputBuffer.buffer) || fresh(inputBuffer.buffer)
      ensures old(inputBuffer.Indexed() && outputBuffer.Indexed()) && inputBuffer.Indexed() && outputBuffer.Indexed()
      ensures Fitted(read, got) && n == if channel.fd !in loop.open || got.Failed? then -1 else |got.bytes|
      ensures TheFace() == AfterInputOf(old(TheFace()), if n > 0 then got.bytes else [])
      ensures inputBuffer.Contents() == old(inputBuffer.Contents()) + if n > 0 then got.bytes else []
    {
      var room := inputBuffer.WriteableBytes() + if inputBuffer.WriteableBytes() < EXTRA then EXTRA else 0;
      var savedErrno;
      n, savedErrno := inputBuffer.ReadFd(FitRead(read, channel.fd in loop.open, room));
      got := FitRead(read, true, room);
    }

    method ReportWritable(wr: WriteResult)
      requires loop.Sane() && this in loop.conns && (state.Disconnected? ==> sockFd !in loop.open)
      modifies loop, loop.owner.Keys
      ensures loop.Sane() && Outcome() && state == old(state) && sockFd == old(sockFd)
      ensures this in old(loop.lives)
      ensures loop.TheWorld() == if state.Disconnected? then old(loop.TheWorld())
                                 else old(loop.TheWorld()).Show(this, AfterWritable(old(loop.lives[this].face), wr), [Writable(wr)])
    {
      hide Epoll.Sane, Epoll.Sole, Valid, Listed, Alone, Elsewhere, Apart, Credible, Carries, SameRevents, Extends, AfterWritable,
        World.Orderly, World.GoesOnTo, Noted;
      loop.Ready(this);
      ghost var w := loop.TheWorld();
      label before:
      WriteListed(wr);
      AloneAgain@before(sockFd);
      if !state.Disconnected? {
        w.WrittenKeeps(this, wr);
      } else {
        WritableClosed(w.FaceOf(this), wr);
        assert w.LifeOf(this).story + [] == w.LifeOf(this).story;
        assert loop.TheWorld() == w;
      }
      StaysPut@before();
    }

    method SetHandling(handling: bool)
      requires loop.Sane() && this in loop.conns && (state.Disconnected? ==> sockFd !in loop.open)
      modifies channel`eventHandling
      ensures loop.Sane() && channel.eventHandling == handling
    {
      hide Epoll.Sane, Epoll.Sole, Credible;
      loop.Ready(this);
      loop.Records();
      label before:
      channel.eventHandling := handling;
      StaysPut@before();
    }

    method SetRevents(revents: bv32)
      requires loop.Sane() && this in loop.conns && (state.Disconnected? ==> sockFd !in loop.open)
      modifies {channel}`revents, loop`lives, loop`owner
      ensures loop.Sane() && loop.Spread() && this in old(loop.lives)
      ensures loop.TheWorld() == old(loop.TheWorld()).Show(this, old(loop.lives[this].face).(revents := revents), [])
    {
      hide Epoll.Sane, Epoll.Sole, Credible, Listed, Alone, Elsewhere, Apart;
      loop.Ready(this);
      loop.Records();
      ghost var l := loop.TheLedger();
      label before:
      SetListed(revents);
      AloneAgain@before(sockFd);
      assert old(Story()) + [] == old(Story());
      ReportCredible(l, loop.TheLedger(), this, revents);
      StaysPut@before();
    }

    static lemma ReportCredible(l: Ledger<TcpConnection?>, m: Ledger<TcpConnection?>, c: TcpConnection, revents: bv32)
      requires Credible(l) && m == l.(lives := m.lives) && c in l.lives
      requires m.lives == l.lives[c := l.lives[c].(face := l.lives[c].face.(revents := revents))]
      ensures Credible(m)
    {
      hide Explained;
      ReportExplained(l.lives[c].face, l.lives[c].story, revents);
    }

    method SetListed(revents: bv32)
      requires Listed()
      modifies {channel}`revents, loop`lives, loop`owner
      ensures Listed() && Elsewhere() && Apart(sockFd) && Relisted()
      ensures this in old(loop.lives)
      ensures loop.lives == old(loop.lives)[this := Life(old(Number()), old(loop.lives[this].face).(revents := revents), old(Story()))]
    {
      channel.revents := revents;
      loop.Relist(this, Number(), Story());
    }

    /** For every event mask, every answer of the kernel and every callback: the connection closes
        exactly when its event or its read says so, once, and no other connection closes at all. */
    method HandleEvent(e: Event) returns (ghost got: ReadResult)
      requires loop.Sane() && this in loop.conns && !state.Disconnected?
      modifies loop, loop.owner.Keys
      ensures loop.Sane() && Outcome() && Fitted(e.read, got)
      ensures loop.TheWorld() == old(loop.TheWorld()).Handled(this, e.(read := got))
      ensures io.closes == if old(Ends(channel.revents, e.read)) then 1 else 0
      ensures state.Disconnected? <==> old(Ends(channel.revents, e.read))
    {
      hide Epoll.Sane, Epoll.Owned, Ends, Fitted, World.Orderly, World.Follows, Noted, World.AfterHangUp, World.AfterInput, AfterWritable, Wants;
      loop.Ready(this);
      ghost var w := loop.TheWorld();
      SetHandling(true);
      got := CloseOrRead(e);
      assert loop.Spread();
      Answer(e.wr);
      assert loop.Spread();
      loop.Ready(this);
      loop.ClosedOnce(this);
      w.HandledFollows(this, e.(read := got));
      FittedEnds(old(channel.revents), e.read, got);
    }

    /** The last part of it. */
    method Answer(wr: WriteResult)
      requires loop.Sane() && this in loop.conns && (state.Disconnected? ==> sockFd !in loop.open)
      modifies loop, loop.owner.Keys
      ensures loop.Sane() && Outcome()
      ensures loop.TheWorld() == old(loop.TheWorld()).AfterOutput(this, wr)
    {
      hide Epoll.Sane, AfterWritable, Wants;
      loop.Ready(this);
      if Wants(channel.revents, EPOLLOUT) {
        ReportWritable(wr);
        assert loop.Spread();
      }
      loop.Mine(this);
      SetHandling(false);
    }

    static lemma FittedEnds(revents: bv32, read: ReadResult, got: ReadResult)
      requires Fitted(read, got)
      ensures Ends(revents, got) <==> Ends(revents, read)
    {
      hide Wants;
    }

    method CloseOrRead(e: Event) returns (ghost got: ReadResult)
      requires loop.Sane() && this in loop.conns && !state.Disconnected?
      modifies loop, loop.owner.Keys
      ensures loop.Sane() && Outcome() && Fitted(e.read, got) && (state.Disconnected? ==> sockFd !in loop.open)
      ensures loop.TheWorld() == old(loop.TheWorld()).AfterHangUp(this).AfterInput(this, got, e.script)
    {
      hide Epoll.Sane, Epoll.Owned, World.AfterHangUp, World.AfterInput;
      HangUp();
      assert loop.Spread();
      got := ReadIn(e.read, e.script);
      assert loop.Spread();
    }

    method HangUp()
      requires loop.Sane() && this in loop.conns && !state.Disconnected?
      modifies loop, loop.owner.Keys
      ensures loop.Sane() && Outcome() && (state.Disconnected? ==> sockFd !in loop.open)
      ensures loop.TheWorld() == old(loop.TheWorld()).AfterHangUp(this)
    {
      hide Epoll.Sane, World.Closed, Wants;
      loop.Ready(this);
      if Wants(channel.revents, EPOLLHUP) && !Wants(channel.revents, EPOLLIN) {
        Retire();
      }
    }

    method ReadIn(read: ReadResult, script: seq<Act>) returns (ghost got: ReadResult)
      requires loop.Sane() && this in loop.conns && (state.Disconnected? ==> sockFd !in loop.open)
      modifies loop, loop.owner.Keys
      ensures loop.Sane() && Outcome() && Fitted(read, got) && (state.Disconnected? ==> sockFd !in loop.open)
      ensures loop.TheWorld() == old(loop.TheWorld()).AfterInput(this, got, script)
    {
      hide Epoll.Sane, World.AfterReading, Wants;
      got := read;
      loop.Ready(this);
      if Wants(channel.revents, EPOLLIN | EPOLLPRI | EPOLLHUP) {
        got := HandleRead(read, script);
      }
    }

    method ForceCloseInLoop()
      requires loop.Sane() && this in loop.conns
      modifies loop, loop.owner.Keys
      ensures loop.Sane() && Outcome() && state.Disconnected? && this in old(loop.lives)
      ensures loop.TheWorld() == if old(IsOpen(loop.lives[this].face)) then old(loop.TheWorld()).Closed(this) else old(loop.TheWorld())
    {
      hide Epoll.Sane, Epoll.Owned, World.Closed;
      loop.Mine(this);
      loop.Shown(this);
      if state.Connected? || state.Disconnecting? {
        Retire();
      }
    }
  }
}
