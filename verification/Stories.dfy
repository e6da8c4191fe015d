/** One life of a connection as a story: what its user did, what its peer sent, and what its socket
    answered. The story alone says what the connection has come to. */
module Stories {
  import opened ByteStreams
  import opened Faces
  import opened Options
  import opened Wire

  datatype Item = ByUser(deed: Deed) | FromPeer(bytes: seq<byte>) | Writable(wr: WriteResult)

  function Min(a: nat, b: nat): nat {
    if a < b then a else b
  }

  /** Everything sent, in order. */
  function Sent(s: seq<Item>): seq<byte> {
    if s == [] then []
    else
      var x := s[|s| - 1];
      Sent(s[..|s| - 1]) + if x.ByUser? && x.deed.Send? then x.deed.data else []
  }

  /** Everything received, in order. */
  function Delivered(s: seq<Item>): seq<byte> {
    if s == [] then []
    else
      var x := s[|s| - 1];
      Delivered(s[..|s| - 1]) + if x.FromPeer? then x.bytes else []
  }

  /** How much of that the user has taken. */
  function Taken(s: seq<Item>): nat {
    if s == [] then 0
    else
      var r, x := s[..|s| - 1], s[|s| - 1];
      if x.ByUser? && x.deed.Take? then Min(Taken(r) + x.deed.n, |Delivered(r)|) else Taken(r)
  }

  /** The first request to leave, be it gently or at once: later ones change nothing. */
  function Leaving(s: seq<Item>): Option<Deed> {
    if s == [] then None
    else
      var r, x := s[..|s| - 1], s[|s| - 1];
      if Leaving(r).None? && x.ByUser? && (x.deed.Shutdown? || x.deed.ForceClose?) then Some(x.deed) else Leaving(r)
  }

  /** Whether the user last asked to read. */
  function Reads(s: seq<Item>): bool {
    if s == [] then true
    else
      var r, x := s[..|s| - 1], s[|s| - 1];
      if x.ByUser? && x.deed.StartRead? then true else if x.ByUser? && x.deed.StopRead? then false else Reads(r)
  }

  /** How many bytes the socket is offered, if it is tried: all that waits when it reports that it can
      take more, and what is sent just when nothing waits. */
  function Offer(waiting: nat, x: Item): Option<nat> {
    match x
    case ByUser(Send(data, _)) => if waiting == 0 then Some(|data|) else None
    case Writable(_) => if waiting > 0 then Some(waiting) else None
    case _ => None
  }

  function Answer(x: Item): Option<nat> {
    match x
    case ByUser(Send(_, Wrote(n))) => Some(n)
    case Writable(Wrote(n)) => Some(n)
    case _ => None
  }

  function Takes(waiting: nat, x: Item): nat {
    if Offer(waiting, x).Some? && Answer(x).Some? then Min(Answer(x).value, Offer(waiting, x).value) else 0
  }

  /** The socket takes all it is offered, and then nothing waits. */
  predicate Clears(waiting: nat, x: Item) {
    Offer(waiting, x).Some? && Answer(x).Some? && Offer(waiting, x).value <= Answer(x).value
  }

  /** How many of the bytes sent still wait, as long as the socket is healthy. */
  function Waiting(s: seq<Item>): (n: nat)
    ensures n <= |Sent(s)|
  {
    if s == [] then 0
    else
      var r, x := s[..|s| - 1], s[|s| - 1];
      Waiting(r) + (if x.ByUser? && x.deed.Send? then |x.deed.data| else 0) - Takes(Waiting(r), x)
  }

  /** How often everything has been handed over. */
  function Completed(s: seq<Item>): nat {
    if s == [] then 0
    else
      var r, x := s[..|s| - 1], s[|s| - 1];
      Completed(r) + if Clears(Waiting(r), x) then 1 else 0
  }

  /** How often the sending side has been shut: on a request to shut down with nothing waiting, and
      when all that waited on a connection that is to leave has been handed over. */
  function HalfClosed(s: seq<Item>): nat {
    if s == [] then 0
    else
      var r, x := s[..|s| - 1], s[|s| - 1];
      HalfClosed(r)
      + (if x.ByUser? && x.deed.Shutdown? && Leaving(r).None? && Waiting(r) == 0 then 1 else 0)
      + if x.Writable? && Clears(Waiting(r), x) && Leaving(r).Some? then 1 else 0
  }

  // ---- What the story says of the connection ----

  ghost predicate Inbound(f: Face, s: seq<Item>) {
    && Taken(s) <= |Delivered(s)| && f.input == Delivered(s)[Taken(s)..]
    && (f.reading <==> Reads(s)) && (IsOpen(f) ==> (Wants(f.events, READ_EVENT) <==> Reads(s)))
  }

  ghost predicate Leaves(f: Face, s: seq<Item>) {
    && (f.io.asked <==> Leaving(s) == Some(Shutdown))
    && (IsOpen(f) ==> (f.state.Connected? <==> Leaving(s).None?))
  }

  /** The socket has taken all but the last `waiting` bytes, and those wait. */
  ghost predicate Divided(sent: seq<byte>, waiting: nat, accepted: seq<byte>, output: seq<byte>) {
    waiting <= |sent| && accepted == sent[..|sent| - waiting] && output == sent[|sent| - waiting..]
  }

  lemma DividedTake(sent: seq<byte>, waiting: nat, accepted: seq<byte>, output: seq<byte>, k: nat)
    requires Divided(sent, waiting, accepted, output) && k <= waiting
    ensures |output| == waiting && Divided(sent, waiting - k, accepted + output[..k], output[k..])
  {
  }

  lemma DividedOffer(sent: seq<byte>, accepted: seq<byte>, output: seq<byte>, data: seq<byte>, k: nat)
    requires Divided(sent, 0, accepted, output) && k <= |data|
    ensures output == [] && Divided(sent + data, |data| - k, accepted + data[..k], output + data[k..])
  {
  }

  lemma DividedWait(sent: seq<byte>, waiting: nat, accepted: seq<byte>, output: seq<byte>, data: seq<byte>)
    requires Divided(sent, waiting, accepted, output)
    ensures |output| == waiting && Divided(sent + data, waiting + |data|, accepted + data[..0], output + data[0..])
  {
    assert data[..0] == [] && data[0..] == data;
    assert (sent + data)[|sent| - waiting..] == sent[|sent| - waiting..] + data;
  }

  ghost predicate Outbound(f: Face, s: seq<Item>) {
    && f.io.sends == Sent(s)
    && (!f.io.broken ==>
          && Divided(Sent(s), Waiting(s), f.io.accepted, f.output)
          && f.io.completions == Completed(s) && f.io.halfCloses == HalfClosed(s))
  }

  ghost predicate Explained(f: Face, s: seq<Item>) {
    Inbound(f, s) && Leaves(f, s) && Outbound(f, s)
  }

  lemma NextIn(s: seq<Item>, x: Item)
    ensures Sent(s + [x]) == Sent(s) + if x.ByUser? && x.deed.Send? then x.deed.data else []
    ensures Delivered(s + [x]) == Delivered(s) + if x.FromPeer? then x.bytes else []
    ensures Taken(s + [x]) == if x.ByUser? && x.deed.Take? then Min(Taken(s) + x.deed.n, |Delivered(s)|) else Taken(s)
    ensures Leaving(s + [x]) == if Leaving(s).None? && x.ByUser? && (x.deed.Shutdown? || x.deed.ForceClose?)
                                then Some(x.deed) else Leaving(s)
    ensures Reads(s + [x]) == (if x.ByUser? && x.deed.StartRead? then true
                               else if x.ByUser? && x.deed.StopRead? then false else Reads(s))
  {
    hide Min;
    var t := s + [x];
    assert t[..|t| - 1] == s && t[|t| - 1] == x;
  }

  lemma NextOut(s: seq<Item>, x: Item)
    ensures Waiting(s + [x])
         == Waiting(s) + (if x.ByUser? && x.deed.Send? then |x.deed.data| else 0) - Takes(Waiting(s), x)
  {
    hide Takes, Sent;
    var t := s + [x];
    assert t[..|t| - 1] == s && t[|t| - 1] == x;
  }

  lemma NextCount(s: seq<Item>, x: Item)
    ensures Completed(s + [x]) == Completed(s) + if Clears(Waiting(s), x) then 1 else 0
    ensures HalfClosed(s + [x])
         == HalfClosed(s) + (if x.ByUser? && x.deed.Shutdown? && Leaving(s).None? && Waiting(s) == 0 then 1 else 0)
            + if x.Writable? && Clears(Waiting(s), x) && Leaving(s).Some? then 1 else 0
  {
    hide Clears, Waiting, Leaving;
    var t := s + [x];
    assert t[..|t| - 1] == s && t[|t| - 1] == x;
  }

  /** One item more. */
  lemma Next(s: seq<Item>, x: Item)
    ensures Sent(s + [x]) == Sent(s) + if x.ByUser? && x.deed.Send? then x.deed.data else []
    ensures Delivered(s + [x]) == Delivered(s) + if x.FromPeer? then x.bytes else []
    ensures Taken(s + [x]) == if x.ByUser? && x.deed.Take? then Min(Taken(s) + x.deed.n, |Delivered(s)|) else Taken(s)
    ensures Leaving(s + [x]) == if Leaving(s).None? && x.ByUser? && (x.deed.Shutdown? || x.deed.ForceClose?)
                                then Some(x.deed) else Leaving(s)
    ensures Reads(s + [x]) == (if x.ByUser? && x.deed.StartRead? then true
                               else if x.ByUser? && x.deed.StopRead? then false else Reads(s))
    ensures Waiting(s + [x])
         == Waiting(s) + (if x.ByUser? && x.deed.Send? then |x.deed.data| else 0) - Takes(Waiting(s), x)
    ensures Completed(s + [x]) == Completed(s) + if Clears(Waiting(s), x) then 1 else 0
    ensures HalfClosed(s + [x])
         == HalfClosed(s) + (if x.ByUser? && x.deed.Shutdown? && Leaving(s).None? && Waiting(s) == 0 then 1 else 0)
            + if x.Writable? && Clears(Waiting(s), x) && Leaving(s).Some? then 1 else 0
  {
    hide Sent, Delivered, Taken, Leaving, Reads, Waiting, Completed, HalfClosed, Takes, Clears, Min;
    NextIn(s, x);
    NextOut(s, x);
    NextCount(s, x);
  }

  lemma FreshExplained(fd: int)
    ensures Explained(OpenFace(fd), [])
  {
  }

  lemma FedExplained(f: Face, s: seq<Item>, bytes: seq<byte>)
    requires Explained(f, s)
    ensures Explained(AfterInputOf(f, bytes), s + [FromPeer(bytes)])
  {
    Next(s, FromPeer(bytes));
    hide Wants, Sent, Delivered, Taken, Leaving, Reads, Waiting, Completed, HalfClosed;
  }

  lemma ClosedExplained(f: Face, s: seq<Item>)
    requires Explained(f, s)
    ensures Explained(AfterClose(f), s)
  {
    hide Wants;
  }

  lemma ReportExplained(f: Face, s: seq<Item>, revents: bv32)
    requires Explained(f, s)
    ensures Explained(f.(revents := revents), s)
  {
    hide Wants;
  }

  lemma WrittenExplained(f: Face, s: seq<Item>, wr: WriteResult)
    requires IsOpen(f) && Explained(f, s)
    ensures Explained(AfterWritable(f, wr), s + [Writable(wr)])
  {
    hide AfterWritable, Inbound, Leaves, Outbound;
    WrittenRest(f, s, wr);
    WrittenOutbound(f, s, wr);
  }

  /** All else stays. */
  lemma WrittenRest(f: Face, s: seq<Item>, wr: WriteResult)
    requires IsOpen(f) && Inbound(f, s) && Leaves(f, s)
    ensures Inbound(AfterWritable(f, wr), s + [Writable(wr)]) && Leaves(AfterWritable(f, wr), s + [Writable(wr)])
  {
    hide AfterWritable, Wants, Sent, Delivered, Taken, Leaving, Reads, Waiting, Completed, HalfClosed;
    Next(s, Writable(wr));
    assert Delivered(s) + [] == Delivered(s);
    WritableState(f, wr);
  }

  lemma WrittenOutbound(f: Face, s: seq<Item>, wr: WriteResult)
    requires IsOpen(f) && Leaves(f, s) && Outbound(f, s)
    ensures Outbound(AfterWritable(f, wr), s + [Writable(wr)])
  {
    hide AfterWritable, AfterWrite, Outbound;
    if f.output != [] {
      WritableStream(f, wr);
      WriteFigures(f.state, f.output, f.io, wr);
      FlushedOutbound(f, AfterWritable(f, wr), s, wr);
    } else {
      IdleOutbound(f, s, wr);
    }
  }

  /** With nothing waiting, the socket is not tried. */
  lemma IdleOutbound(f: Face, s: seq<Item>, wr: WriteResult)
    requires f.output == [] && Outbound(f, s)
    ensures Outbound(AfterWritable(f, wr), s + [Writable(wr)])
  {
    hide Sent, Delivered, Taken, Leaving, Reads, Waiting, Completed, HalfClosed;
    Next(s, Writable(wr));
    assert Sent(s) + [] == Sent(s);
  }

  lemma FlushedOutbound(f: Face, g: Face, s: seq<Item>, wr: WriteResult)
    requires (f.state.Disconnecting? <==> Leaving(s).Some?) && Outbound(f, s) && f.output != []
    requires g.io.sends == f.io.sends && (f.io.broken ==> g.io.broken)
    requires !g.io.broken ==>
               var k := if wr.Wrote? then if wr.n < |f.output| then wr.n else |f.output| else 0;
               && g.io.accepted == f.io.accepted + f.output[..k] && g.output == f.output[k..]
               && g.io.completions == f.io.completions + (if k == |f.output| then 1 else 0)
               && g.io.halfCloses == f.io.halfCloses + if k == |f.output| && f.state.Disconnecting? then 1 else 0
    ensures Outbound(g, s + [Writable(wr)])
  {
    hide Wants, Divided, Sent, Delivered, Taken, Leaving, Reads, Waiting, Completed, HalfClosed;
    var x := Writable(wr);
    Next(s, x);
    assert Sent(s) + [] == Sent(s);
    if !g.io.broken {
      DividedTake(Sent(s), Waiting(s), f.io.accepted, f.output, Takes(Waiting(s), x));
    }
  }

  lemma DidExplained(f: Face, s: seq<Item>, deed: Deed)
    requires IsOpen(f) && Explained(f, s)
    ensures Explained(AfterDeed(f, deed), s + [ByUser(deed)])
  {
    hide Explained, Outbound, Inbound, Leaves, AfterDeed, AfterSending, AfterShutdown, AfterStart, AfterStop;
    assert Inbound(f, s) && Leaves(f, s) && Outbound(f, s) by {
      Parts(f, s);
    }
    DidInbound(f, s, deed);
    DidLeaves(f, s, deed);
    DidOutbound(f, s, deed);
    Parts(AfterDeed(f, deed), s + [ByUser(deed)]);
  }

  lemma Parts(f: Face, s: seq<Item>)
    ensures Explained(f, s) <==> Inbound(f, s) && Leaves(f, s) && Outbound(f, s)
  {
  }

  lemma DidInbound(f: Face, s: seq<Item>, deed: Deed)
    requires IsOpen(f) && Inbound(f, s)
    ensures Inbound(AfterDeed(f, deed), s + [ByUser(deed)])
  {
    hide Wants, Without, With, AfterSend, Sent, Delivered, Taken, Leaving, Reads, Waiting, Completed, HalfClosed;
    Next(s, ByUser(deed));
    assert Delivered(s) + [] == Delivered(s);
    WriteInterest(f.events);
    ReadInterest(f.events);
  }

  lemma DidLeaves(f: Face, s: seq<Item>, deed: Deed)
    requires IsOpen(f) && Leaves(f, s)
    ensures Leaves(AfterDeed(f, deed), s + [ByUser(deed)])
  {
    hide Wants, Without, With, Sent, Delivered, Taken, Leaving, Reads, Waiting, Completed, HalfClosed;
    Next(s, ByUser(deed));
  }

  lemma DidOutbound(f: Face, s: seq<Item>, deed: Deed)
    requires IsOpen(f) && Leaves(f, s) && Outbound(f, s)
    ensures Outbound(AfterDeed(f, deed), s + [ByUser(deed)])
  {
    hide Wants, Without, With, AfterSending, Sent, Delivered, Taken, Leaving, Reads, Waiting, Completed, HalfClosed;
    Next(s, ByUser(deed));
    assert Sent(s) + [] == Sent(s);
    if deed.Send? {
      SentOutbound(f, s, deed.data, deed.wr);
    }
  }

  lemma SendingStream(f: Face, data: seq<byte>, wr: WriteResult)
    requires IsOpen(f)
    ensures var g := AfterSending(f, data, wr); (g.io, g.output) == AfterSend(f.output, f.io, data, wr)
  {
    hide AfterSend, With;
  }

  lemma SentOutbound(f: Face, s: seq<Item>, data: seq<byte>, wr: WriteResult)
    requires IsOpen(f) && Outbound(f, s)
    ensures Outbound(AfterSending(f, data, wr), s + [ByUser(Send(data, wr))])
  {
    hide AfterSend, AfterSending, Outbound;
    SendFigures(f.output, f.io, data, wr);
    SendingStream(f, data, wr);
    OfferedOutbound(f, AfterSending(f, data, wr), s, data, wr);
  }

  lemma OfferedOutbound(f: Face, g: Face, s: seq<Item>, data: seq<byte>, wr: WriteResult)
    requires Outbound(f, s) && g.io.sends == f.io.sends + data && (f.io.broken ==> g.io.broken)
    requires !g.io.broken ==>
               var k := if f.output == [] && wr.Wrote? then if wr.n < |data| then wr.n else |data| else 0;
               && g.io.accepted == f.io.accepted + data[..k] && g.output == f.output + data[k..]
               && g.io.halfCloses == f.io.halfCloses
               && g.io.completions == f.io.completions + if f.output == [] && wr.Wrote? && k == |data| then 1 else 0
    ensures Outbound(g, s + [ByUser(Send(data, wr))])
  {
    hide Divided, Sent, Delivered, Taken, Leaving, Reads, Waiting, Completed, HalfClosed;
    var x := ByUser(Send(data, wr));
    Next(s, x);
    if !g.io.broken {
      DividedWait(Sent(s), Waiting(s), f.io.accepted, f.output, data);
      if Waiting(s) == 0 {
        DividedOffer(Sent(s), f.io.accepted, f.output, data, Takes(0, x));
      }
    }
  }
}
