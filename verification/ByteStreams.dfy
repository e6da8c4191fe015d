/** The output side of a connection on values: the connection's states, the history of its socket, and
    what sends, write events and closing do to that history and to the bytes that wait. */
module ByteStreams {
  import opened Wire

  datatype StateE = Disconnected | Connecting | Connected | Disconnecting

  /** What write(2) answers. */
  datatype WriteResult = Wrote(n: nat) | WouldBlock | Fatal | OtherError

  /** The history of one life of a connection, as its socket sees it. */
  datatype Io = Io(
    sends: seq<byte>,     // everything handed to sendInLoop
    accepted: seq<byte>,  // everything the kernel took
    broken: bool,         // a fatal error was seen
    dropped: bool,        // data was given up because of one
    asked: bool,          // shutdown() took effect
    halfCloses: nat,      // calls of shutdownWrite
    shut: seq<byte>,      // what had been sent at the last of them
    completions: nat,     // write-complete callbacks queued
    closes: nat           // runs of handleClose
  )

  const FRESH_IO := Io([], [], false, false, false, 0, [], 0, 0)

  /** The kernel's side of a write: it takes at most what it is given, and nothing more on a socket
      that has failed for good or whose sending side is shut. */
  function Fit(wr: WriteResult, len: nat, io: Io): WriteResult {
    match wr
    case Wrote(n) =>
      if n > 0 && (io.broken || io.halfCloses > 0) then Fatal else Wrote(if n <= len then n else len)
    case _ => wr
  }

  /** The joint invariant of one life: byte order, write interest, and graceful close. */
  ghost predicate Streams(state: StateE, writing: bool, out: seq<byte>, io: Io) {
    && (!state.Disconnected? ==> (writing <==> out != []))
    && io.accepted <= io.sends
    && (!io.dropped ==> io.accepted + out == io.sends)
    && (io.dropped ==> io.broken)
    && io.halfCloses <= 1
    && (io.halfCloses == 1 && !io.broken ==> io.accepted == io.shut)
    && (state.Connecting? || state.Connected? ==> io.halfCloses == 0 && !io.asked)
    && (state.Disconnecting? && io.asked && out == [] ==> io.halfCloses == 1)
    && (if state.Disconnected? then io.closes == 1 else io.closes == 0)
  }

  /** Within one life, history only grows. */
  ghost predicate Extends(a: Io, b: Io) {
    && a.sends <= b.sends && a.accepted <= b.accepted
    && (a.broken ==> b.broken) && (a.dropped ==> b.dropped) && (a.asked ==> b.asked)
    && a.halfCloses <= b.halfCloses && a.completions <= b.completions && a.closes <= b.closes
  }

  /** Everything sent has been handed over, unless it was given up. */
  ghost predicate Complete(out: seq<byte>, io: Io) {
    out == [] && (io.dropped || io.accepted == io.sends)
  }

  /** What one send does to the history and to the bytes that wait. The socket is tried only when
      nothing waits, and all it did not take waits unless it failed for good. */
  function AfterSend(out: seq<byte>, io: Io, data: seq<byte>, wr: WriteResult): (r: (Io, seq<byte>)) {
    var r := if out == [] then Fit(wr, |data|, io) else WouldBlock;
    var n := if r.Wrote? then r.n else 0;
    (io.(sends := io.sends + data, accepted := io.accepted + data[..n], broken := io.broken || r.Fatal?,
         dropped := io.dropped || (r.Fatal? && data != []),
         completions := io.completions + if r.Wrote? && n == |data| then 1 else 0),
     if r.Fatal? then out else out + data[n..])
  }

  lemma SendKeeps(state: StateE, out: seq<byte>, io: Io, data: seq<byte>, wr: WriteResult)
    requires Streams(state, out != [], out, io) && !state.Disconnected?
    ensures var (io', out') := AfterSend(out, io, data, wr);
            && Streams(state, out' != [], out', io') && Extends(io, io')
            && (io'.completions > io.completions ==> Complete(out', io'))
  {
    var (io', out') := AfterSend(out, io, data, wr);
    var n := |io'.accepted| - |io.accepted|;
    assert io.accepted + data[..0] == io.accepted;
    if io.dropped {
      assert io'.accepted == io.accepted;
    } else {
      assert n > 0 ==> out == [];
      assert io'.accepted + data[n..] == io.accepted + data;
      assert !io'.dropped ==> io'.accepted + out' == io'.sends;
    }
  }

  /** Closing keeps it too, whatever is still waiting. */
  lemma CloseKeeps(state: StateE, writing: bool, writing': bool, out: seq<byte>, io: Io)
    requires Streams(state, writing, out, io) && !state.Disconnected?
    ensures Streams(Disconnected, writing', out, io.(closes := io.closes + 1))
  {
  }

  /** What one answer to write interest does to them. */
  function AfterWrite(state: StateE, out: seq<byte>, io: Io, wr: WriteResult): (r: (Io, seq<byte>)) {
    var r := if out == [] then WouldBlock else Fit(wr, |out|, io);
    var n := if r.Wrote? then r.n else 0;
    var closing := out != [] && n == |out| && state.Disconnecting?;
    (io.(accepted := io.accepted + out[..n], broken := io.broken || r.Fatal?,
         halfCloses := io.halfCloses + if closing then 1 else 0, shut := if closing then io.sends else io.shut,
         completions := io.completions + if out != [] && n == |out| then 1 else 0),
     out[n..])
  }

  /** Bytes only move from the buffer to the socket, and the socket's sending side is shut only
      when there is nothing left to hand over. */
  lemma WriteKeeps(state: StateE, out: seq<byte>, io: Io, wr: WriteResult)
    requires Streams(state, out != [], out, io) && !state.Disconnected?
    ensures var (io', out') := AfterWrite(state, out, io, wr);
            && Streams(state, out' != [], out', io') && Extends(io, io')
            && (io'.completions > io.completions ==> Complete(out', io'))
            && io'.accepted + out' == io.accepted + out && io'.sends == io.sends
            && (io'.halfCloses > io.halfCloses ==> out' == [] && (io.dropped || io'.accepted == io'.sends))
  {
    var (io', out') := AfterWrite(state, out, io, wr);
    var n := |out| - |out'|;
    if n == 0 {
      assert out[..0] == [] && out[0..] == out;
      assert io' == io.(broken := io'.broken, accepted := io.accepted + []);
    } else {
      WriteSome(state, out, io, n);
    }
  }

  lemma WriteSome(state: StateE, out: seq<byte>, io: Io, n: nat)
    requires Streams(state, true, out, io) && !state.Disconnected?
    requires 0 < n <= |out| && !io.broken && io.halfCloses == 0
    ensures io.accepted + out[..n] + out[n..] == io.sends && !io.dropped
  {
    assert out == out[..n] + out[n..];
  }

  /** What a healthy socket is offered and takes, and what that completes: a send with nothing waiting
      offers its data, */
  lemma SendFigures(out: seq<byte>, io: Io, data: seq<byte>, wr: WriteResult)
    ensures var (io', out') := AfterSend(out, io, data, wr);
            var k := if out == [] && wr.Wrote? then if wr.n < |data| then wr.n else |data| else 0;
            && io'.sends == io.sends + data && (io.broken ==> io'.broken)
            && (!io'.broken ==>
                  && io'.accepted == io.accepted + data[..k] && out' == out + data[k..] && io'.halfCloses == io.halfCloses
                  && io'.completions == io.completions + if out == [] && wr.Wrote? && k == |data| then 1 else 0)
            && (!io.broken && io.halfCloses == 0 && !(out == [] && wr.Fatal?) ==> !io'.broken)
  {
  }

  /** and a report that it can take more offers all that waits. */
  lemma WriteFigures(state: StateE, out: seq<byte>, io: Io, wr: WriteResult)
    requires out != []
    ensures var (io', out') := AfterWrite(state, out, io, wr);
            var k := if wr.Wrote? then if wr.n < |out| then wr.n else |out| else 0;
            && io'.sends == io.sends && (io.broken ==> io'.broken)
            && (!io'.broken ==>
                  && io'.accepted == io.accepted + out[..k] && out' == out[k..]
                  && io'.completions == io.completions + (if k == |out| then 1 else 0)
                  && io'.halfCloses == io.halfCloses + if k == |out| && state.Disconnecting? then 1 else 0)
            && (!io.broken && io.halfCloses == 0 && !wr.Fatal? ==> !io'.broken)
  {
  }

  lemma SameExtends(io: Io)
    ensures Extends(io, io)
  {
  }

  /** Whatever the kernel answers, history grows. */
  lemma SendExtends(out: seq<byte>, io: Io, data: seq<byte>, wr: WriteResult)
    ensures Extends(io, AfterSend(out, io, data, wr).0) && AfterSend(out, io, data, wr).0.sends == io.sends + data
  {
  }

  lemma WriteExtends(state: StateE, out: seq<byte>, io: Io, wr: WriteResult)
    ensures Extends(io, AfterWrite(state, out, io, wr).0) && AfterWrite(state, out, io, wr).0.sends == io.sends
  {
    hide Fit;
  }
}
