/** What one connection shows, on values, and what everything that can happen to it does to that. */
module Faces {
  import opened ByteStreams
  import opened Wire

  const EPOLLIN: bv32 := 0x01
  const EPOLLPRI: bv32 := 0x02
  const EPOLLOUT: bv32 := 0x04
  const EPOLLHUP: bv32 := 0x10

  const NONE_EVENT: bv32 := 0
  const READ_EVENT: bv32 := 0x03
  const WRITE_EVENT: bv32 := 0x04

  datatype Status = New | Added | Deleted

  /** Everything a connection shows to its users and to the loop, callbacks aside, and aside from the
      mark that an event is being handled. */
  datatype Face = Face(
    state: StateE, sockFd: int, fd: int, events: bv32, revents: bv32, status: Status,
    addedToLoop: bool, reading: bool,
    input: seq<byte>, output: seq<byte>, io: Io)

  function FreshFace(fd: int): Face {
    Face(Connecting, fd, fd, NONE_EVENT, NONE_EVENT, New, false, true, [], [], FRESH_IO)
  }

  /** ... once its connection callback is due. */
  function OpenFace(fd: int): Face {
    FreshFace(fd).(state := Connected, events := READ_EVENT, status := Added, addedToLoop := true)
  }

  /** What user code does to a connection. */
  datatype Deed = Send(data: seq<byte>, wr: WriteResult) | Shutdown | ForceClose | StartRead | StopRead | Take(n: nat)

  predicate Wants(events: bv32, mask: bv32) {
    events & mask != 0
  }

  function With(events: bv32, mask: bv32): bv32 {
    events | mask
  }

  function Without(events: bv32, mask: bv32): bv32 {
    events & !mask
  }

  /** Read interest is no write interest. */
  lemma ReadInterest(events: bv32)
    ensures Wants(With(events, READ_EVENT), READ_EVENT) && !Wants(Without(events, READ_EVENT), READ_EVENT)
    ensures Wants(With(events, READ_EVENT), WRITE_EVENT) == Wants(events, WRITE_EVENT)
    ensures Wants(Without(events, READ_EVENT), WRITE_EVENT) == Wants(events, WRITE_EVENT)
  {
  }

  /** Nor the other way round. */
  lemma WriteInterest(events: bv32)
    ensures Wants(With(events, WRITE_EVENT), WRITE_EVENT) && !Wants(Without(events, WRITE_EVENT), WRITE_EVENT)
    ensures Wants(With(events, WRITE_EVENT), READ_EVENT) == Wants(events, READ_EVENT)
    ensures Wants(Without(events, WRITE_EVENT), READ_EVENT) == Wants(events, READ_EVENT)
  {
  }

  /** The channel asks for another set of events: an empty one ends a registration, but begins one
      where there is none. */
  function Asking(f: Face, events: bv32): Face {
    f.(events := events, addedToLoop := true, status := if f.status.Added? && events == NONE_EVENT then Deleted else Added)
  }

  function AfterDeed(f: Face, deed: Deed): Face {
    match deed
    case Send(data, wr) => AfterSending(f, data, wr)
    case Shutdown => AfterShutdown(f)
    case ForceClose => if IsOpen(f) then f.(state := Disconnecting) else f
    case StartRead => AfterStart(f)
    case StopRead => AfterStop(f)
    case Take(n) => f.(input := if n <= |f.input| then f.input[n..] else [])
  }

  /** Write interest begins with the first byte that has to wait. */
  function AfterSending(f: Face, data: seq<byte>, wr: WriteResult): Face {
    if f.state.Disconnected? then f
    else
      var (io, out) := AfterSend(f.output, f.io, data, wr);
      var g := f.(io := io, output := out);
      if f.output == [] && out != [] then Asking(g, With(f.events, WRITE_EVENT)) else g
  }

  function AfterShutdown(f: Face): Face {
    if !f.state.Connected? then f
    else if f.output != [] then f.(state := Disconnecting, io := f.io.(asked := true))
    else f.(state := Disconnecting, io := f.io.(asked := true, halfCloses := f.io.halfCloses + 1, shut := f.io.sends))
  }

  function AfterStart(f: Face): Face {
    if !f.reading || !Wants(f.events, READ_EVENT) then Asking(f, With(f.events, READ_EVENT)).(reading := true) else f
  }

  function AfterStop(f: Face): Face {
    if f.reading || Wants(f.events, READ_EVENT) then Asking(f, Without(f.events, READ_EVENT)).(reading := false) else f
  }

  predicate IsOpen(f: Face) {
    f.state.Connected? || f.state.Disconnecting?
  }

  /** The socket can take more, and answers a write of all that waits. */
  function AfterWritable(f: Face, wr: WriteResult): Face {
    if f.output == [] || f.state.Disconnected? then f
    else
      var g := Flushed(f, wr);
      if g.output == [] then Emptied(g) else g
  }

  function Flushed(f: Face, wr: WriteResult): Face {
    var r := Fit(wr, |f.output|, f.io);
    var n := if r.Wrote? then r.n else 0;
    f.(io := f.io.(accepted := f.io.accepted + f.output[..n], broken := f.io.broken || r.Fatal?), output := f.output[n..])
  }

  /** Once nothing waits, write interest ends, and a connection that is closing down is half-closed. */
  function Emptied(f: Face): Face {
    var io := f.io.(completions := f.io.completions + 1);
    Asking(f.(io := if f.state.Disconnecting? then io.(halfCloses := io.halfCloses + 1, shut := io.sends) else io),
           Without(f.events, WRITE_EVENT))
  }

  /** A healthy socket takes as much of what waits as it answers, from the front; once that is all of
      it, write interest ends, the completion is counted, and a connection that is closing down is
      half-closed with everything sent handed over. */
  lemma WritableAnswers(f: Face, n: nat)
    requires f.output != [] && !f.state.Disconnected? && !f.io.broken && f.io.halfCloses == 0
    ensures var g, k := AfterWritable(f, Wrote(n)), if n < |f.output| then n else |f.output|;
            && g.io.accepted == f.io.accepted + f.output[..k] && g.output == f.output[k..] && !g.io.broken
            && (k < |f.output| ==> g.events == f.events && g.io.completions == f.io.completions && g.io.halfCloses == 0)
            && (k == |f.output| ==>
                  && !Wants(g.events, WRITE_EVENT) && g.io.completions == f.io.completions + 1
                  && g.io.halfCloses == (if f.state.Disconnecting? then 1 else 0)
                  && (f.state.Disconnecting? ==> g.io.shut == g.io.sends))
  {
    hide Without, Wants;
    WriteInterest(f.events);
  }

  lemma WritableState(f: Face, wr: WriteResult)
    ensures var g := AfterWritable(f, wr);
            && g.state == f.state && g.input == f.input && g.reading == f.reading && g.io.asked == f.io.asked
            && (Wants(g.events, READ_EVENT) <==> Wants(f.events, READ_EVENT))
  {
    hide Without, Wants, Flushed, Emptied;
    WriteInterest(f.events);
    FlushedState(f, wr);
    EmptiedState(Flushed(f, wr));
  }

  lemma FlushedState(f: Face, wr: WriteResult)
    ensures var g := Flushed(f, wr);
            && g.state == f.state && g.input == f.input && g.reading == f.reading && g.io.asked == f.io.asked && g.events == f.events
  {
    hide Fit;
  }

  lemma EmptiedState(f: Face)
    ensures var g := Emptied(f);
            && g.state == f.state && g.input == f.input && g.reading == f.reading && g.io.asked == f.io.asked
            && g.events == Without(f.events, WRITE_EVENT)
  {
    hide Without;
  }

  lemma WritableStream(f: Face, wr: WriteResult)
    requires f.output != [] && !f.state.Disconnected?
    ensures var g := AfterWritable(f, wr); (g.io, g.output) == AfterWrite(f.state, f.output, f.io, wr)
  {
    hide Without;
  }

  function AfterInputOf(f: Face, bytes: seq<byte>): Face {
    f.(input := f.input + bytes)
  }

  lemma WritableClosed(f: Face, wr: WriteResult)
    requires f.state.Disconnected?
    ensures AfterWritable(f, wr) == f
  {
  }

  lemma NothingIn(f: Face)
    ensures AfterInputOf(f, []) == f
  {
  }

  function AfterClose(f: Face): Face {
    f.(state := Disconnected, io := f.io.(closes := f.io.closes + 1), events := NONE_EVENT, status := New, addedToLoop := false)
  }

  /** The same connection in the same life, further on, and as open as before. */
  ghost predicate GoesOn(f: Face, g: Face) {
    && Extends(f.io, g.io) && g.sockFd == f.sockFd && g.revents == f.revents
    && (g.state.Disconnected? <==> f.state.Disconnected?) && (IsOpen(g) <==> IsOpen(f))
  }

  /** What is added to the sends of an open connection. */
  function Spoken(deed: Deed): seq<byte> {
    if deed.Send? then deed.data else []
  }

  lemma AskingGoesOn(f: Face, g: Face, events: bv32)
    requires GoesOn(f, g)
    ensures GoesOn(f, Asking(g, events)) && Asking(g, events).io == g.io
  {
    hide Extends;
  }

  lemma DeedGoesOn(f: Face, deed: Deed)
    ensures GoesOn(f, AfterDeed(f, deed))
    ensures !f.state.Disconnected? ==> AfterDeed(f, deed).io.sends == f.io.sends + Spoken(deed)
  {
    hide AfterSending, AfterShutdown, AfterStart, AfterStop;
    match deed {
      case Send(data, wr) => SendingGoesOn(f, data, wr);
      case Shutdown => ShutdownGoesOn(f);
      case StartRead => ReadingGoesOn(f);
      case StopRead => ReadingGoesOn(f);
      case _ =>
    }
  }

  lemma SendingGoesOn(f: Face, data: seq<byte>, wr: WriteResult)
    ensures GoesOn(f, AfterSending(f, data, wr))
    ensures !f.state.Disconnected? ==> AfterSending(f, data, wr).io.sends == f.io.sends + data
  {
    hide AfterSend, Extends, Asking, With, Without;
    SameExtends(f.io);
    SendExtends(f.output, f.io, data, wr);
    var (io, out) := AfterSend(f.output, f.io, data, wr);
    AskingGoesOn(f, f.(io := io, output := out), With(f.events, WRITE_EVENT));
  }

  lemma ShutdownGoesOn(f: Face)
    ensures GoesOn(f, AfterShutdown(f)) && AfterShutdown(f).io.sends == f.io.sends
  {
    hide Extends;
    SameExtends(f.io);
    ShutdownExtends(f.io);
  }

  lemma ShutdownExtends(io: Io)
    ensures Extends(io, io.(asked := true))
    ensures Extends(io, io.(asked := true, halfCloses := io.halfCloses + 1, shut := io.sends))
  {
  }

  lemma ReadingGoesOn(f: Face)
    ensures GoesOn(f, AfterStart(f)) && AfterStart(f).io == f.io
    ensures GoesOn(f, AfterStop(f)) && AfterStop(f).io == f.io
  {
    hide Asking, Extends, With, Without, Wants;
    SameExtends(f.io);
    AskingGoesOn(f, f, With(f.events, READ_EVENT));
    AskingGoesOn(f, f, Without(f.events, READ_EVENT));
  }

  lemma WritableGoesOn(f: Face, wr: WriteResult)
    ensures GoesOn(f, AfterWritable(f, wr)) && AfterWritable(f, wr).io.sends == f.io.sends
  {
    hide AfterWrite, Extends, With, Without, Fit;
    SameExtends(f.io);
    WriteExtends(f.state, f.output, f.io, wr);
    if f.output != [] && !f.state.Disconnected? {
      WritableStream(f, wr);
    }
  }

  lemma CloseExtends(f: Face)
    ensures Extends(f.io, AfterClose(f).io)
  {
  }
}
