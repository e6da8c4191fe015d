/** The multi-buffer asynchronous logger: any number of producers and one writer thread exchange a
    handful of heap buffers by moving pointers. Each method is one atomic step: a region under the
    logger's mutex, or one step of the writer between such regions. */
module AsyncLoggers {
  import opened LogBooks
  import opened LogHistory
  import opened LogStreams
  import opened Options

  /** The buffers' bytes, one buffer after the other. */
  ghost function Texts(bs: seq<FixedBuffer>): string
    requires forall b :: b in bs ==> b.Valid()
    reads bs, set b | b in bs :: b.data
  {
    if bs == [] then "" else bs[0].Text() + Texts(bs[1..])
  }

  lemma {:induction false} TextsShort(bs: seq<FixedBuffer>)
    requires forall b :: b in bs ==> b.Valid() && b.size == LARGE_BUFFER
    ensures |Texts(bs)| <= LARGE_BUFFER * |bs|
  {
    if bs != [] {
      TextsShort(bs[1..]);
      assert bs[0] in bs && |bs[0].Text()| <= LARGE_BUFFER;
    }
  }

  lemma {:induction false} ConcatLong(lines: seq<string>)
    requires forall x :: x in lines ==> |x| == LARGE_BUFFER - 1
    ensures |Concat(lines)| == (LARGE_BUFFER - 1) * |lines|
  {
    if lines != [] {
      var rest, last := lines[..|lines| - 1], lines[|lines| - 1];
      assert forall x :: x in rest ==> x in lines;
      assert last in lines;
      ConcatLong(rest);
      assert |Concat(lines)| == |Concat(rest)| + |last|;
      hide Concat;
    }
  }

  ghost function Appended(schedule: seq<Event>): seq<string> {
    if schedule == [] then [] else Appended(schedule[..|schedule| - 1]) + Brought(schedule[|schedule| - 1])
  }

  ghost function Brought(e: Event): seq<string> {
    if e.AppendEvent? then [e.line] else []
  }

  ghost function Weight(e: Event): nat {
    if e.AppendEvent? then |e.line| else 0
  }

  datatype Event = AppendEvent(line: string) | WriterEvent | StopEvent

  /** The bytes a schedule brings, and the writer's steps in it. */
  ghost function Bytes(schedule: seq<Event>): nat {
    if schedule == [] then 0 else Bytes(schedule[..|schedule| - 1]) + Weight(schedule[|schedule| - 1])
  }

  ghost function WriterSteps(schedule: seq<Event>): nat {
    if schedule == [] then 0
    else WriterSteps(schedule[..|schedule| - 1]) + if schedule[|schedule| - 1].WriterEvent? then 1 else 0
  }

  /** At most so many writer steps lie between two swaps, with a batch of at most 25. */
  const CYCLE: nat := 30

  /** How many steps ago, at most, the writer last swapped. */
  ghost function Age(pc: WriterPc): nat {
    match pc
    case Writing(k) => 1 + k
    case Recycling => MAX_BATCH + 2
    case Top => MAX_BATCH + 3
    case Entering => MAX_BATCH + 4
    case Waiting => CYCLE
    case _ => 0
  }

  /** The producers never bring 12.5 buffers' worth of bytes while the writer makes the steps of one
      cycle; at the start, what is queued already counts too. */
  ghost predicate Unhurried(schedule: seq<Event>, queued: nat) {
    forall i, j :: 0 <= i <= j <= |schedule| && WriterSteps(schedule[i..j]) <= CYCLE ==>
      (if i == 0 then queued else 0) + 2 * Bytes(schedule[i..j]) < MAX_BATCH * LARGE_BUFFER
  }

  lemma OneMore(schedule: seq<Event>, i: nat, j: nat)
    requires i <= j < |schedule|
    ensures Bytes(schedule[i..j + 1]) == Bytes(schedule[i..j]) + Weight(schedule[j])
    ensures Appended(schedule[..j + 1]) == Appended(schedule[..j]) + Brought(schedule[j])
    ensures WriterSteps(schedule[i..j + 1]) == WriterSteps(schedule[i..j]) + if schedule[j].WriterEvent? then 1 else 0
    ensures Bytes([]) == 0 == WriterSteps([])
  {
    assert schedule[i..j + 1] == schedule[i..j] + [schedule[j]];
    assert schedule[..j + 1] == schedule[..j] + [schedule[j]];
  }

  /** Of the lines that came since, exactly those too long for any buffer were lost, and no earlier
      ones. */
  ghost predicate OnlyOverlong(lines: seq<string>, lost: set<nat>, lines': seq<string>, lost': set<nat>) {
    forall n :: n in lost' <==> n in lost || (|lines| <= n < |lines'| && |lines'[n]| >= LARGE_BUFFER)
  }

  lemma OnlyOverlongChain(lines: seq<string>, lost: set<nat>, lines': seq<string>, lost': set<nat>, lines'': seq<string>, lost'': set<nat>)
    requires lines <= lines' <= lines''
    requires OnlyOverlong(lines, lost, lines', lost') && OnlyOverlong(lines', lost', lines'', lost'')
    ensures OnlyOverlong(lines, lost, lines'', lost'')
  {
  }

  ghost function Held(b: FixedBuffer?): Option<FixedBuffer> {
    if b == null then None else Some(b)
  }

  /** Each buffer has storage of its own, holding what the bookkeeping expects it to hold. */
  ghost predicate Stored(repr: set<object>, owner: map<array<char>, FixedBuffer>, book: Book<FixedBuffer>)
    reads repr
  {
    && (forall d :: d in owner ==> d in repr)
    && (forall b :: b in book.slot ==>
          && b in repr && b.data in repr && b.data in owner && owner[b.data] == b
          && b.Valid() && b.size == LARGE_BUFFER
          && (book.slot[b].Free? || b.Text() == book.Expected(b)))
  }

  lemma StoredMove(repr: set<object>, owner: map<array<char>, FixedBuffer>, book: Book<FixedBuffer>, book': Book<FixedBuffer>)
    requires Stored(repr, owner, book) && book.Agrees(book')
    ensures Stored(repr, owner, book')
  {
  }

  lemma StoredInitial(b1: FixedBuffer, b2: FixedBuffer)
    requires b1 != b2 && b1.data != b2.data && b1.Valid() && b2.Valid()
    requires b1.size == b2.size == LARGE_BUFFER && b1.cur == b2.cur == 0
    ensures Stored({b1, b1.data, b2, b2.data}, map[b1.data := b1, b2.data := b2], Initial(b1, b2))
  {
    InitialInv(b1, b2);
  }

  lemma StoredSupply(repr: set<object>, owner: map<array<char>, FixedBuffer>, book: Book<FixedBuffer>, b: FixedBuffer, s: Slot)
    requires Stored(repr, owner, book) && b !in book.slot && b.data !in owner
    requires b.Valid() && b.size == LARGE_BUFFER && b.cur == 0
    requires s.Next? || s.Spare1? || s.Spare2?
    ensures Stored(repr + {b, b.data}, owner[b.data := b], book.Supply(b, s))
  {
  }

  /** The storage side of an append. */
  method AppendTo(b: FixedBuffer, line: string, ghost repr: set<object>, ghost owner: map<array<char>, FixedBuffer>,
                  ghost book: Book<FixedBuffer>, ghost book': Book<FixedBuffer>)
    requires Stored(repr, owner, book) && book.AgreesBut(book', b)
    requires book'.Expected(b) == book.Expected(b) + if |line| < LARGE_BUFFER then line else ""
    requires b.Valid() && (b.Avail() > |line| || b.Text() == "")
    modifies b, b.data
    ensures Stored(repr, owner, book')
  {
    b.Append(line);
  }

  /** What the pace of a run depends on: a measure of what waits for the writer, the number of whole
      buffers in it, the size of the batch, the writer's place, and how many lines there are, how many
      of them have been handed to the writer, and how many the file answers for. */
  datatype Pace = Pace(queued: nat, full: nat, batch: nat, pc: WriterPc, lines: nat, handed: nat, filed: nat) {
    ghost predicate Swaps(p: Pace) {
      p.pc == Trimming != pc
    }
  }

  ghost predicate InBatch(p: Pace) {
    p.pc.Writing? ==> p.pc.k <= p.batch
  }

  /** What one event does to it. */
  ghost predicate Moves(p: Pace, q: Pace, e: Event) {
    && LARGE_BUFFER * p.full <= p.queued
    && (if p.Swaps(q)
        then e == WriterEvent && (p.pc == Entering || p.pc == Waiting) && q.queued == 0 && q.batch == p.full + 1
        else q.queued <= p.queued + 2 * Weight(e) && q.batch <= p.batch && (p.pc == Trimming ==> e != WriterEvent || q.pc != Trimming))
    && (p.pc == Stopped ==> q.pc == Stopped) && InBatch(q)
    && q.lines == p.lines + |Brought(e)| && p.filed <= q.filed
    && (if p.Swaps(q) then q.handed == q.lines && p.filed == p.handed else q.handed == p.handed)
    && (p.batch <= MAX_BATCH && q.pc != Trimming && q.pc != Stopped ==>
          Age(q.pc) >= Age(p.pc) + if e == WriterEvent then 1 else 0)
  }

  /** With the last swap at `since`: no batch was oversized, what waits has come since then, and the
      next swap is not late. */
  ghost predicate OnPace(schedule: seq<Event>, start: nat, since: nat, i: nat, p: Pace)
    requires since <= i <= |schedule|
  {
    && p.batch <= MAX_BATCH
    && p.queued <= (if since == 0 then start else 0) + 2 * Bytes(schedule[since..i])
    && (p.pc != Stopped ==> WriterSteps(schedule[since..i]) <= Age(p.pc))
  }

  lemma PaceKept(schedule: seq<Event>, start: nat, since: nat, i: nat, p: Pace, q: Pace)
    requires Unhurried(schedule, start) && since <= i < |schedule|
    requires OnPace(schedule, start, since, i, p) && Moves(p, q, schedule[i])
    ensures OnPace(schedule, start, if p.Swaps(q) then i + 1 else since, i + 1, q)
  {
    OneMore(schedule, since, i);
    if p.Swaps(q) {
      assert schedule[i + 1..i + 1] == [];
    }
  }

  /** With the last swap at `since` and the one before at `prev`: what had come by the last is with the
      writer, what had come by the one before is in the file, and there are not many steps between. */
  ghost predicate Delivering(schedule: seq<Event>, first: nat, prev: nat, since: nat, i: nat, p: Pace)
    requires i <= |schedule|
  {
    && prev <= since <= i && InBatch(p)
    && p.lines == first + |Appended(schedule[..i])|
    && (since > 0 ==> p.handed >= first + |Appended(schedule[..since])|)
    && (prev > 0 ==> p.filed >= first + |Appended(schedule[..prev])|)
    && WriterSteps(schedule[prev..since]) <= CYCLE + 1
  }

  lemma DeliveringKept(schedule: seq<Event>, start: nat, first: nat, prev: nat, since: nat, i: nat, p: Pace, q: Pace)
    requires since <= i < |schedule| && OnPace(schedule, start, since, i, p)
    requires Delivering(schedule, first, prev, since, i, p) && Moves(p, q, schedule[i])
    ensures Delivering(schedule, first, if p.Swaps(q) then since else prev, if p.Swaps(q) then i + 1 else since, i + 1, q)
  {
    OneMore(schedule, since, i);
  }

  lemma NoSteps()
    ensures WriterSteps([]) == 0
  {
  }

  lemma {:induction false} StepsSplit(schedule: seq<Event>, a: nat, b: nat, c: nat)
    requires a <= b <= c <= |schedule|
    ensures WriterSteps(schedule[a..c]) == WriterSteps(schedule[a..b]) + WriterSteps(schedule[b..c])
    decreases c
  {
    hide Appended, Bytes, WriterSteps;
    NoSteps();
    if b < c {
      StepsSplit(schedule, a, b, c - 1);
      OneMore(schedule, a, c - 1);
      OneMore(schedule, b, c - 1);
    } else {
      assert schedule[b..c] == [];
    }
  }

  lemma {:induction false} AppendedGrows(schedule: seq<Event>, a: nat, b: nat)
    requires a <= b <= |schedule|
    ensures |Appended(schedule[..a])| <= |Appended(schedule[..b])|
    decreases b
  {
    hide Appended, Bytes, WriterSteps;
    if a < b {
      AppendedGrows(schedule, a, b - 1);
      OneMore(schedule, 0, b - 1);
    }
  }

  /** Whatever came two cycles of the writer ago is in the file. */
  lemma Arrived(schedule: seq<Event>, start: nat, first: nat, prev: nat, since: nat, p: Pace, i: nat)
    requires since <= |schedule| && OnPace(schedule, start, since, |schedule|, p) && p.pc != Stopped
    requires Delivering(schedule, first, prev, since, |schedule|, p)
    requires i <= |schedule| && WriterSteps(schedule[i..]) > 2 * CYCLE + 1
    ensures p.filed >= first + |Appended(schedule[..i])|
  {
    var n := |schedule|;
    assert schedule[i..n] == schedule[i..];
    StepsSplit(schedule, prev, since, n);
    if i > prev {
      StepsSplit(schedule, prev, i, n);
    }
    StepsSplit(schedule, 0, i, n);
    AppendedGrows(schedule, i, if i <= prev then prev else i);
  }

  /** A run so far: `f` at the start, `g` now. */
  ghost predicate Progress<B>(schedule: seq<Event>, start: nat, slow: bool, prev: nat, since: nat, i: nat, f: Flow<B>, g: Flow<B>, p: Pace) {
    && since <= i <= |schedule|
    && g.lines == f.lines + Appended(schedule[..i]) && f.file <= g.file
    && (slow ==> OnPace(schedule, start, since, i, p) && OnlyOverlong(f.lines, f.lost, g.lines, g.lost)
                 && Delivering(schedule, |f.lines|, prev, since, i, p))
  }

  lemma ProgressStart<B>(schedule: seq<Event>, slow: bool, f: Flow<B>, p: Pace)
    requires slow ==> p.batch <= MAX_BATCH
    requires p.lines == |f.lines| && InBatch(p)
    ensures Progress(schedule, p.queued, slow, 0, 0, 0, f, f, p)
  {
    assert schedule[..0] == [] == schedule[0..0];
    assert f.lines + [] == f.lines;
  }

  lemma ProgressKept<B>(schedule: seq<Event>, start: nat, slow: bool, prev: nat, since: nat, i: nat, f: Flow<B>, g: Flow<B>, p: Pace, h: Flow<B>, q: Pace)
    requires Progress(schedule, start, slow, prev, since, i, f, g, p) && i < |schedule|
    requires slow ==> Unhurried(schedule, start)
    requires h.lines == g.lines + Brought(schedule[i]) && g.file <= h.file && Moves(p, q, schedule[i])
    requires !(p.pc == Trimming && p.batch > MAX_BATCH) ==> OnlyOverlong(g.lines, g.lost, h.lines, h.lost)
    ensures Progress(schedule, start, slow, if p.Swaps(q) then since else prev, if p.Swaps(q) then i + 1 else since, i + 1, f, h, q)
  {
    OneMore(schedule, since, i);
    assert h.lines == f.lines + Appended(schedule[..i + 1]);
    if slow {
      PaceKept(schedule, start, since, i, p, q);
      DeliveringKept(schedule, start, |f.lines|, prev, since, i, p, q);
      OnlyOverlongChain(f.lines, f.lost, g.lines, g.lost, h.lines, h.lost);
    }
  }

  lemma Finished<B>(schedule: seq<Event>, start: nat, slow: bool, prev: nat, since: nat, f: Flow<B>, g: Flow<B>, p: Pace)
    requires Progress(schedule, start, slow, prev, since, |schedule|, f, g, p)
    ensures g.lines == f.lines + Appended(schedule) && f.file <= g.file
    ensures slow ==> OnlyOverlong(f.lines, f.lost, g.lines, g.lost)
    ensures slow && p.pc != Stopped ==> forall i :: 0 <= i <= |schedule| && WriterSteps(schedule[i..]) > 2 * CYCLE + 1 ==>
                                              p.filed >= |f.lines| + |Appended(schedule[..i])|
  {
    assert schedule[..|schedule|] == schedule;
    if slow && p.pc != Stopped {
      forall i | 0 <= i <= |schedule| && WriterSteps(schedule[i..]) > 2 * CYCLE + 1
        ensures p.filed >= |f.lines| + |Appended(schedule[..i])|
      {
        Arrived(schedule, start, |f.lines|, prev, since, p, i);
      }
    }
  }

  class AsyncLogger {
    // shared under the mutex
    var currentBuffer: FixedBuffer
    var nextBuffer: FixedBuffer?
    var buffers: seq<FixedBuffer>
    var running: bool
    // the writer's locals
    var newBuffer1: FixedBuffer?
    var newBuffer2: FixedBuffer?
    var bufferToWrite: seq<FixedBuffer>
    var pc: WriterPc
    // the output, append-only
    var file: string

    ghost var Repr: set<object>
    ghost var owner: map<array<char>, FixedBuffer>
    ghost var book: Book<FixedBuffer>

    /** The pointers are where the bookkeeping says. */
    ghost predicate Booked(k: Book<FixedBuffer>)
      reads this
    {
      && k.current == currentBuffer
      && k.next == Held(nextBuffer)
      && k.full == buffers
      && k.spare1 == Held(newBuffer1)
      && k.spare2 == Held(newBuffer2)
      && k.batch == bufferToWrite
      && k.pc == pc
      && k.flow.file == file
    }

    ghost predicate Valid()
      reads this, Repr
    {
      && this !in Repr
      && Booked(book) && Stored(Repr, owner, book) && book.Inv()
    }

    constructor ()
      ensures Valid() && fresh(Repr)
      ensures pc == NotStarted && file == "" && book.flow.lines == [] && book.flow.lost == {}
      ensures buffers == [] && bufferToWrite == [] && Queued() == 0
    {
      var b1 := new FixedBuffer(LARGE_BUFFER);
      var b2 := new FixedBuffer(LARGE_BUFFER);
      currentBuffer, nextBuffer, buffers, running := b1, b2, [], false;
      newBuffer1, newBuffer2, bufferToWrite, pc, file := null, null, [], NotStarted, "";
      Repr := {b1, b1.data, b2, b2.data};
      owner := map[b1.data := b1, b2.data := b2];
      book := Initial(b1, b2);
      new;
      AtRest(b1, b2);
    }

    lemma AtRest(b1: FixedBuffer, b2: FixedBuffer)
      requires b1 != b2 && b1.data != b2.data && b1.Valid() && b2.Valid()
      requires b1.size == b2.size == LARGE_BUFFER && b1.cur == b2.cur == 0
      requires Repr == {b1, b1.data, b2, b2.data} && owner == map[b1.data := b1, b2.data := b2]
      requires book == Initial(b1, b2) && Booked(book)
      ensures Valid()
    {
      hide Book.Handed, Book.Inv, Stored;
      StoredInitial(b1, b2);
      InitialInv(b1, b2);
    }

    /** A measure of what waits for the writer: whole buffers, and the text of the current one. */
    ghost function Queued(): nat
      reads this
    {
      LARGE_BUFFER * |buffers| + |Filling()|
    }

    /** The text of the current buffer. */
    ghost function Filling(): string
      reads this
    {
      book.flow.LoadOf(currentBuffer).text
    }

    // ---- Producers ----

    /** One locked append. A line too long even for an empty buffer is dropped whole; no other
        line is. */
    method Append(line: string)
      requires Valid()
      modifies this, Repr
      ensures Valid() && fresh(Repr - old(Repr))
      ensures book.flow.lines == old(book.flow.lines) + [line]
      ensures book.flow.lost ==
              if |line| < LARGE_BUFFER then old(book.flow.lost) else old(book.flow.lost) + {|old(book.flow.lines)|}
      ensures file == old(file) && pc == old(pc) && running == old(running)
      ensures book.Handed() == old(book).Handed() && book.flow.fileTo == old(book).flow.fileTo
      ensures Queued() <= old(Queued()) + 2 * |line| && bufferToWrite == old(bufferToWrite)
      ensures var fits := |old(Filling())| + |line| < LARGE_BUFFER;
              && |buffers| == |old(buffers)| + (if fits then 0 else 1)
              && Filling() == (if fits then old(Filling()) else "") + (if |line| < LARGE_BUFFER then line else "")
    {
      hide Book.Handed, Book.Inv;
      CurrentText();
      if currentBuffer.Avail() > |line| {
        Put(line);
      } else {
        Advance();
        CurrentText();
        Put(line);
      }
    }

    /** currentBuffer_->append. */
    method Put(line: string)
      requires Valid()
      requires currentBuffer.Avail() > |line| || currentBuffer.Text() == ""
      modifies this`book, currentBuffer, currentBuffer.data
      ensures Valid() && |old(book).flow.chain| >= 1
      ensures Filling() == old(Filling()) + if |line| < LARGE_BUFFER then line else ""
      ensures book.Handed() == old(book).Handed() && book.flow.fileTo == old(book).flow.fileTo
      ensures book == old(book).Put(line, |line| < LARGE_BUFFER)
    {
      hide Book.Handed, Book.Inv, Book.AgreesBut, Stored;
      CurrentText();
      book.Pointers();
      book.PutHands(line, |line| < LARGE_BUFFER);
      book.PutKeeps(line, |line| < LARGE_BUFFER);
      AppendTo(currentBuffer, line, Repr, owner, book, book.Put(line, |line| < LARGE_BUFFER));
      book := book.Put(line, |line| < LARGE_BUFFER);
    }

    /** The full buffer joins the queue; its place is taken by the spare one or a new one. */
    method Advance()
      requires Valid()
      modifies this`currentBuffer, this`nextBuffer, this`buffers
      modifies this`Repr, this`owner, this`book
      ensures Valid() && fresh(Repr - old(Repr))
      ensures currentBuffer.Text() == ""
      ensures book.flow == old(book).flow.Open(currentBuffer)
      ensures buffers == old(buffers) + [old(currentBuffer)] && nextBuffer == null
      ensures old(nextBuffer) != null ==> currentBuffer == old(nextBuffer)
      ensures book.Handed() == old(book).Handed() && book.flow.fileTo == old(book).flow.fileTo
    {
      hide Book.Handed, Book.Inv, Book.Agrees, Stored;
      if nextBuffer == null {
        SupplyNext();
      }
      ghost var book' := book.Advance();
      book.AdvanceKeeps();
      book.AdvanceHands();
      StoredMove(Repr, owner, book, book');
      buffers := buffers + [currentBuffer];
      currentBuffer := nextBuffer;
      nextBuffer := null;
      book := book';
      CurrentText();
    }

    /** With no next buffer at hand, a new one. */
    method SupplyNext()
      requires Valid() && nextBuffer == null
      modifies this`nextBuffer, this`Repr, this`owner, this`book
      ensures Valid() && fresh(Repr - old(Repr)) && nextBuffer != null
      ensures book == old(book).Supply(nextBuffer, Next) && book.Handed() == old(book).Handed()
    {
      hide Book.Handed, Book.Inv, Stored;
      nextBuffer := MakeBuffer(Next);
      book.SupplyKeeps(nextBuffer);
      book.SupplyHands(nextBuffer);
      book := book.Supply(nextBuffer, Next);
    }

    /** Allocates a clean buffer for a spare slot. */
    method MakeBuffer(ghost s: Slot) returns (b: FixedBuffer)
      requires this !in Repr && Stored(Repr, owner, book)
      requires s.Next? || s.Spare1? || s.Spare2?
      modifies this`Repr, this`owner
      ensures fresh(b) && fresh(Repr - old(Repr)) && this !in Repr
      ensures b !in book.slot && Stored(Repr, owner, book.Supply(b, s))
    {
      b := new FixedBuffer(LARGE_BUFFER);
      assert b !in book.slot && b.data !in owner;
      hide Stored;
      StoredSupply(Repr, owner, book, b, s);
      Repr := Repr + {b, b.data};
      owner := owner[b.data := b];
    }

    lemma CurrentText()
      requires Valid()
      ensures currentBuffer in Repr && currentBuffer.data in Repr && currentBuffer.Valid()
      ensures currentBuffer.Text() == book.flow.LoadOf(currentBuffer).text
      ensures currentBuffer.size == LARGE_BUFFER && currentBuffer.Avail() == LARGE_BUFFER - |Filling()|
    {
    }

    method Stop()
      requires Valid()
      modifies this`running
      ensures Valid() && !running
    {
      hide Book.Handed, Book.Inv, Stored;
      running := false;
    }

    // ---- The writer thread ----

    /** The thread begins: two clean spares of its own. */
    method ThreadStart()
      requires Valid() && pc == NotStarted
      modifies this`running, this`newBuffer1, this`newBuffer2, this`pc, this`Repr, this`owner, this`book
      ensures Valid() && fresh(Repr - old(Repr)) && pc == Top && running
      ensures book.flow == old(book).flow && book.Handed() == old(book).Handed()
    {
      hide Book.Handed, Book.Inv, Book.Agrees, Stored;
      var b1, b2 := MakeSpares();
      running, newBuffer1, newBuffer2, pc := true, b1, b2, Top;
      MoveTo(book.(pc := Top));
    }

    method MakeSpares() returns (b1: FixedBuffer, b2: FixedBuffer)
      requires this !in Repr && Stored(Repr, owner, book) && book.Inv() && book.pc == NotStarted
      modifies this`Repr, this`owner, this`book
      ensures fresh(Repr - old(Repr)) && this !in Repr && Stored(Repr, owner, book)
      ensures book == old(book).Supply(b1, Spare1).Supply(b2, Spare2)
      ensures book.(pc := Top).Inv() && book.Agrees(book.(pc := Top)) && book.(pc := Top).Handed() == old(book).Handed()
    {
      hide Book.Handed, Book.Inv, Book.Agrees, Stored;
      b1 := MakeBuffer(Spare1);
      book := book.Supply(b1, Spare1);
      b2 := MakeBuffer(Spare2);
      book := book.Supply(b2, Spare2);
      old(book).StartKeeps(b1, b2);
      old(book).StartHands(b1, b2);
    }

    /** The pointers have moved; the bookkeeping follows. */
    ghost method MoveTo(k: Book<FixedBuffer>)
      requires this !in Repr && Stored(Repr, owner, book)
      requires Booked(k) && book.Agrees(k) && k.Inv()
      modifies this`book
      ensures Valid() && book == k
    {
      hide Book.Handed, Book.Inv, Book.Agrees, Stored;
      StoredMove(Repr, owner, book, k);
      book := k;
    }

    /** The loop test and the three asserts at the top of the body, which always hold. */
    method LoopTop()
      requires Valid() && pc == Top
      modifies this`pc, this`book
      ensures Valid() && pc == (if running then Entering else Stopped) && book.flow == old(book).flow
      ensures book.Handed() == old(book).Handed()
    {
      hide Book.Handed, Book.Inv, Book.Agrees, Stored;
      SparesClean();
      assert newBuffer1 != null && newBuffer1.cur == 0;
      assert newBuffer2 != null && newBuffer2.cur == 0;
      assert bufferToWrite == [];
      pc := if running then Entering else Stopped;
      book.StepKeeps(book.(pc := pc));
      book.StepHands(book.(pc := pc));
      MoveTo(book.(pc := pc));
    }

    lemma SparesClean()
      requires Valid() && (pc == Top || pc == Entering || pc == Waiting)
      ensures newBuffer1 != null && newBuffer1.cur == 0
      ensures newBuffer2 != null && newBuffer2.cur == 0
      ensures bufferToWrite == []
    {
      hide Flow.Conserved;
      assert newBuffer1 != null ==> newBuffer1.Text() == "";
      assert newBuffer2 != null ==> newBuffer2.Text() == "";
    }

    /** Lock. With nothing queued the writer gives the lock up to wait; otherwise it swaps. */
    method Enter()
      requires Valid() && pc == Entering
      modifies this
      ensures Valid() && Repr == old(Repr)
      ensures old(buffers) == [] ==>
                pc == Waiting && book.flow == old(book).flow && buffers == [] && currentBuffer == old(currentBuffer)
                && bufferToWrite == old(bufferToWrite)
      ensures old(buffers) != [] ==> pc == Trimming && bufferToWrite == old(buffers) + [old(currentBuffer)] && Queued() == 0
      ensures file == old(file) && book.flow.lines == old(book).flow.lines && book.flow.lost == old(book).flow.lost
      ensures book.Handed() == (if pc == Trimming then |book.flow.lines| else old(book).Handed())
      ensures old(book).Handed() == old(book).flow.fileTo == book.flow.fileTo
    {
      hide Book.Handed, Book.Inv, Book.Agrees, Stored;
      book.NothingOwed();
      if buffers == [] {
        pc := Waiting;
        book.StepKeeps(book.(pc := pc));
        book.StepHands(book.(pc := pc));
        MoveTo(book.(pc := pc));
      } else {
        SwapBuffers();
      }
    }

    /** A notification, the timeout or a spurious return: the lock is held again. */
    method Wake()
      requires Valid() && pc == Waiting
      modifies this
      ensures Valid() && Repr == old(Repr)
      ensures pc == Trimming && bufferToWrite == old(buffers) + [old(currentBuffer)] && Queued() == 0
      ensures file == old(file) && book.flow.lines == old(book).flow.lines && book.flow.lost == old(book).flow.lost
      ensures book.Handed() == |book.flow.lines| && old(book).Handed() == old(book).flow.fileTo == book.flow.fileTo
    {
      hide Book.Handed, Book.Inv, Stored;
      SwapBuffers();
    }

    method SwapBuffers()
      requires Valid() && (pc == Entering || pc == Waiting)
      modifies this`currentBuffer, this`nextBuffer, this`buffers, this`newBuffer1, this`newBuffer2
      modifies this`bufferToWrite, this`pc, this`book
      ensures Valid() && pc == Trimming
      ensures bufferToWrite == old(buffers) + [old(currentBuffer)] && buffers == []
      ensures currentBuffer == old(newBuffer1) && newBuffer1 == null
      ensures if old(nextBuffer) == null then nextBuffer == old(newBuffer2) && newBuffer2 == null
              else nextBuffer == old(nextBuffer) && newBuffer2 == old(newBuffer2)
      ensures book.flow == old(book).flow.Open(currentBuffer) && Queued() == 0
      ensures book.Handed() == |book.flow.lines| && old(book).Handed() == old(book).flow.fileTo == book.flow.fileTo
    {
      hide Book.Handed, Book.Inv, Book.Agrees, Stored, Book.Unwritten, Book.Expected, Book.Enough, Kept;
      SparesClean();
      book.SwapKeeps();
      book.SwapHands();
      ghost var k := book.Swap();
      buffers := buffers + [currentBuffer];
      currentBuffer := newBuffer1;
      newBuffer1 := null;
      bufferToWrite, buffers := buffers, bufferToWrite;
      if nextBuffer == null {
        nextBuffer := newBuffer2;
        newBuffer2 := null;
      }
      pc := Trimming;
      MoveTo(k);
    }

    /** A backlog of more than 25 buffers is cut to its first two. */
    method TrimBatch()
      requires Valid() && pc == Trimming
      modifies this`bufferToWrite, this`pc, this`book
      ensures Valid() && pc == Writing(0)
      ensures bufferToWrite == if |old(bufferToWrite)| > MAX_BATCH then old(bufferToWrite)[..2] else old(bufferToWrite)
      ensures |old(bufferToWrite)| <= MAX_BATCH ==> book.flow == old(book).flow
      ensures |old(bufferToWrite)| <= |old(book).flow.chain|
      ensures |old(bufferToWrite)| > MAX_BATCH ==> book.flow == old(book).flow.Drop(2, |old(bufferToWrite)|)
      ensures Queued() == old(Queued())
      ensures book.Handed() == old(book).Handed() && book.flow.fileTo == old(book).flow.fileTo
    {
      hide Book.Handed, Book.Inv, Book.Agrees, Stored;
      book.TrimHands();
      book.TrimKeeps();
      assert bufferToWrite != [];
      ghost var k := book.Trim();
      if |bufferToWrite| > MAX_BATCH {
        bufferToWrite := bufferToWrite[..2];
      }
      pc := Writing(0);
      MoveTo(k);
    }

    /** One turn of the output loop, or its end. */
    method WriteNext()
      requires Valid() && pc.Writing?
      modifies this`file, this`pc, this`book
      ensures Valid() && pc == if old(pc.k) < |bufferToWrite| then Writing(old(pc.k) + 1) else Recycling
      ensures file == old(file) + if old(pc.k) < |bufferToWrite| then bufferToWrite[old(pc.k)].Text() else ""
      ensures book.flow.lines == old(book).flow.lines && book.flow.lost == old(book).flow.lost
      ensures Queued() == old(Queued())
      ensures book.Handed() == old(book).Handed() && book.flow.fileTo >= old(book).flow.fileTo
    {
      hide Book.Handed, Book.Inv, Book.Agrees, Stored;
      BatchText();
      if pc.k < |bufferToWrite| {
        book.WriteHands();
        book.WriteKeeps();
        ghost var k := book.Write();
        var b := bufferToWrite[pc.k];
        file := file + b.data[..b.cur];
        pc := Writing(pc.k + 1);
        MoveTo(k);
      } else {
        pc := Recycling;
        book.StepKeeps(book.(pc := pc));
        book.StepHands(book.(pc := pc));
        MoveTo(book.(pc := pc));
      }
    }

    lemma BatchText()
      requires Valid() && pc.Writing?
      ensures pc.k <= |bufferToWrite|
      ensures pc.k < |bufferToWrite| ==>
                var b := bufferToWrite[pc.k];
                b in Repr && b.data in Repr && b.Valid() && b.Text() == book.Expected(b)
    {
      hide Flow.Conserved;
    }

    /** Written buffers come back as spares. Both asserts in the source hold: the batch is never
        too short to replace what the swap spent. */
    method RecycleBuffers()
      requires Valid() && pc == Recycling
      modifies this`newBuffer1, this`newBuffer2, this`bufferToWrite, this`pc, this`book, Repr
      ensures Valid() && pc == Top && bufferToWrite == []
      ensures file == old(file) && book.flow == old(book).flow && book.Handed() == old(book).Handed()
    {
      hide Book.Handed, Book.Inv, Book.Agrees, Stored;
      book.RecycleKeeps();
      book.RecycleHands();
      ghost var was := book;
      var b1, b2 := TakeBack();
      was.RecycleAgrees(book);
      newBuffer1, newBuffer2, bufferToWrite, pc := b1, b2, [], Top;
      MoveTo(was.Recycle());
    }

    /** The spares are refilled from the back of at most two kept buffers. */
    method TakeBack() returns (b1: FixedBuffer, b2: FixedBuffer)
      requires Valid() && pc == Recycling && book.Enough()
      requires book.First() in book.slot && book.Second() in book.slot && book.First() != book.Second()
      requires book.spare2.Some? ==> book.slot[book.Second()] == Spare2
      modifies this`book, Repr
      ensures this !in Repr && Stored(Repr, owner, book)
      ensures b1 == old(book).First() && b2 == old(book).Second()
      ensures book == old(book).(slot := old(book).slot[b1 := Spare1][b2 := Spare2])
    {
      hide Book.Handed, Book.Inv, Stored;
      var batch := if |bufferToWrite| > 2 then bufferToWrite[..2] else bufferToWrite;
      assert newBuffer1 == null && batch != [];
      b1 := batch[|batch| - 1];
      batch := batch[..|batch| - 1];
      ghost var second := book.Second();
      Clean(b1, Spare1);
      if newBuffer2 == null {
        assert batch != [];
        b2 := batch[|batch| - 1];
        Clean(b2, Spare2);
      } else {
        b2 := newBuffer2;
        assert book.slot == book.slot[b2 := Spare2];
      }
    }

    /** buffer->reset(), and the slot it is about to fill. */
    method Clean(b: FixedBuffer, ghost s: Slot)
      requires this !in Repr && Stored(Repr, owner, book) && b in book.slot
      requires s.Spare1? || s.Spare2?
      modifies this`book, Repr
      ensures Stored(Repr, owner, book) && book == old(book).(slot := old(book).slot[b := s])
    {
      b.Reset();
      book := book.(slot := book.slot[b := s]);
    }

    // ---- What the invariant says of every reachable state ----

    /** Where the pointers lead. */
    ghost predicate Points(s: Slot, b: FixedBuffer)
      reads this
    {
      match s
      case Current => b == currentBuffer
      case Next => b == nextBuffer
      case Full(i) => i < |buffers| && b == buffers[i]
      case Spare1 => b == newBuffer1
      case Spare2 => b == newBuffer2
      case Batch(j) => j < |bufferToWrite| && b == bufferToWrite[j]
      case Free => false
    }

    /** No two pointers lead to one buffer, nor to one block of storage. */
    lemma NoAliasing(s: Slot, b: FixedBuffer, t: Slot, c: FixedBuffer)
      requires Valid() && Points(s, b) && Points(t, c) && s != t
      ensures b != c && b.data != c.data
    {
      hide Book.Handed, Book.Inv;
      book.Pointers();
      assert book.At(b, s) && book.At(c, t);
    }

    /** What the writer still holds, what is queued and what is being filled, oldest first. */
    ghost function InFlight(): seq<FixedBuffer>
      reads this
    {
      book.Unwritten() + buffers + [currentBuffer]
    }

    /** The file holds whole lines only; followed by every byte in flight, it is exactly the appended
        lines, whole and in order, without those lost; and with none lost it is everything that was
        appended. */
    lemma Conservation()
      requires Valid()
      ensures forall b :: b in InFlight() ==> b in Repr && b.data in Repr && b.Valid()
      ensures book.flow.fileTo <= |book.flow.lines| && file == Kept(book.flow.lines, book.flow.lost, 0, book.flow.fileTo)
      ensures file + Texts(InFlight()) == Kept(book.flow.lines, book.flow.lost, 0, |book.flow.lines|)
      ensures book.flow.lost == {} ==> file + Texts(InFlight()) == Concat(book.flow.lines)
    {
      var f := book.flow;
      InFlightStored();
      f.Conservation(0);
      TextsOfChain(0);
      assert f.chain[0..] == f.chain;
      if f.lost == {} {
        KeptAll(f.lines, f.lost, |f.lines|);
        assert f.lines[..|f.lines|] == f.lines;
      }
    }

    /** A backlog loses lines that would have fitted: 26 of them, each filling a buffer, before the
        writer's first swap. */
    static method Backlog() returns (l: AsyncLogger)
      ensures fresh(l) && l.Valid() && l.pc == Writing(0) && l.book.flow.lost != {}
      ensures forall line :: line in l.book.flow.lines ==> |line| < LARGE_BUFFER
    {
      hide Book.Handed, Book.Inv, Book.Agrees, Stored;
      l := new AsyncLogger();
      l.FillUp(26);
      l.Overwhelm();
      l.TooMuch();
    }

    /** The writer comes to it. */
    method Overwhelm()
      requires Valid() && pc == NotStarted && |buffers| == 25
      modifies this, Repr
      ensures Valid() && pc == Writing(0) && file == old(file) && book.flow.lines == old(book).flow.lines
      ensures |bufferToWrite| == 2 && buffers == []
    {
      hide Book.Handed, Book.Inv, Book.Agrees, Stored;
      ThreadStart();
      LoopTop();
      Enter();
      TrimBatch();
    }

    method FillUp(n: nat)
      requires Valid() && book.flow.lines == [] && buffers == [] && Filling() == ""
      modifies this, Repr
      ensures Valid() && fresh(Repr - old(Repr)) && pc == old(pc) && file == old(file)
      ensures |book.flow.lines| == n && forall x :: x in book.flow.lines ==> |x| == LARGE_BUFFER - 1
      ensures n > 0 ==> |buffers| == n - 1
    {
      hide Book.Handed, Book.Inv, Stored;
      var line := seq(LARGE_BUFFER - 1, _ => 'x');
      for k := 0 to n
        invariant Valid() && fresh(Repr - old(Repr)) && pc == old(pc) && file == old(file)
        invariant |book.flow.lines| == k && (forall x :: x in book.flow.lines ==> |x| == LARGE_BUFFER - 1)
        invariant if k == 0 then buffers == [] && Filling() == "" else |buffers| == k - 1 && |Filling()| == LARGE_BUFFER - 1
      {
        Append(line);
      }
    }

    /** Fewer bytes on their way than were appended. */
    lemma TooMuch()
      requires Valid() && pc == Writing(0) && file == "" && |bufferToWrite| == 2 && buffers == []
      requires |book.flow.lines| == 26 && forall x :: x in book.flow.lines ==> |x| == LARGE_BUFFER - 1
      ensures book.flow.lost != {}
    {
      hide Book.Handed, Book.Inv, Stored, Kept, Texts, Concat;
      Conservation();
      InFlightStored();
      assert |InFlight()| == 3;
      TextsShort(InFlight());
      ConcatLong(book.flow.lines);
    }

    lemma InFlightStored()
      requires Valid()
      ensures book.flow.chain == InFlight()
      ensures forall b :: b in book.flow.chain ==>
                b in Repr && b.data in Repr && b.Valid() && b.Text() == book.flow.LoadOf(b).text && b.size == LARGE_BUFFER
    {
      hide Flow.Conserved;
      forall b | b in book.flow.chain
        ensures b in book.slot && (book.slot[b].Batch? || book.slot[b].Full? || book.slot[b].Current?)
      {
        var u := book.Unwritten();
        assert b in u ==> b in bufferToWrite;
        assert b in u || b in buffers || b == currentBuffer;
      }
    }

    lemma {:induction false} TextsOfChain(i: nat)
      requires Valid() && i <= |book.flow.chain|
      requires forall b :: b in book.flow.chain ==> b.Valid() && b.Text() == book.flow.LoadOf(b).text
      ensures Texts(book.flow.chain[i..]) == book.flow.ChainText(i)
      decreases |book.flow.chain| - i
    {
      hide Book.Handed, Book.Inv, Stored;
      var c := book.flow.chain;
      if i < |c| {
        TextsOfChain(i + 1);
        assert c[i..][1..] == c[i + 1..];
      }
    }

    // ---- Whole runs ----

    /** One step of the writer. Only the step that finds an oversized batch loses anything; only the
        swap takes anything from the producers, and it comes round in time. */
    method WriterStep()
      requires Valid()
      modifies this, Repr
      ensures Valid() && fresh(Repr - old(Repr))
      ensures book.flow.lines == old(book).flow.lines && old(book).flow.lost <= book.flow.lost
      ensures !(old(pc) == Trimming && |old(bufferToWrite)| > MAX_BATCH) ==> book.flow.lost == old(book).flow.lost
      ensures old(file) <= file && old(book).flow.fileTo <= book.flow.fileTo
      ensures book.Handed() == if pc == Trimming then |book.flow.lines| else old(book).Handed()
      ensures pc == Trimming ==> old(book).flow.fileTo == old(book).Handed()
      ensures pc == Stopped ==> old(pc) == Stopped || (old(pc) == Top && !old(running))
      ensures if pc == Trimming
              then Queued() == 0 && |bufferToWrite| == |old(buffers)| + 1
              else Queued() == old(Queued()) && |bufferToWrite| <= |old(bufferToWrite)|
      ensures pc == Trimming ==> old(pc) == Entering || old(pc) == Waiting
      ensures |old(bufferToWrite)| <= MAX_BATCH && pc != Trimming && pc != Stopped ==> Age(pc) > Age(old(pc))
      ensures old(pc) == Stopped ==> pc == Stopped
    {
      hide Book.Handed, Book.Inv, Stored;
      match pc {
        case NotStarted => ThreadStart();
        case Top => LoopTop();
        case Entering => Enter();
        case Waiting => Wake();
        case Trimming => TrimBatch();
        case Writing(_) =>
          BatchText();
          WriteNext();
        case Recycling => RecycleBuffers();
        case Stopped =>
      }
    }

    ghost function ThePace(): Pace
      reads this
    {
      Pace(Queued(), |buffers|, |bufferToWrite|, pc, |book.flow.lines|, book.Handed(), book.flow.fileTo)
    }

    /** The file carries every line among the first `n` that is not lost. */
    ghost predicate Filed(n: nat)
      reads this
    {
      n <= |book.flow.lines| && Kept(book.flow.lines, book.flow.lost, 0, n) <= file
    }

    lemma FiledUpTo()
      requires Valid()
      ensures forall n :: 0 <= n <= book.flow.fileTo ==> Filed(n)
    {
      hide Book.Handed;
      forall n | 0 <= n <= book.flow.fileTo ensures Filed(n) {
        KeptConcat(book.flow.lines, book.flow.lost, 0, n, book.flow.fileTo);
      }
    }

    lemma WithinBatch()
      requires Valid()
      ensures InBatch(ThePace())
    {
      hide Flow.Conserved, Book.Handed;
    }

    /** One step of anybody. */
    method Take(e: Event)
      requires Valid()
      modifies this, Repr
      ensures Valid() && fresh(Repr - old(Repr))
      ensures book.flow.lines == old(book).flow.lines + Brought(e) && old(book).flow.file <= book.flow.file
      ensures !(old(ThePace()).pc == Trimming && old(ThePace()).batch > MAX_BATCH) ==>
                OnlyOverlong(old(book).flow.lines, old(book).flow.lost, book.flow.lines, book.flow.lost)
      ensures Moves(old(ThePace()), ThePace(), e) && (e.StopEvent? ==> !running)
    {
      hide Book.Handed, Book.Inv, Stored;
      match e {
        case AppendEvent(line) => Append(line);
        case WriterEvent => WriterStep();
        case StopEvent => Stop();
      }
      WithinBatch();
    }

    method TakeNext(schedule: seq<Event>, ghost start: nat, ghost slow: bool, ghost prev: nat, ghost since: nat, i: nat,
                    ghost first: Flow<FixedBuffer>) returns (ghost prev': nat, ghost since': nat)
      requires Valid() && i < |schedule| && (slow ==> Unhurried(schedule, start))
      requires Progress(schedule, start, slow, prev, since, i, first, book.flow, ThePace())
      modifies this, Repr
      ensures Valid() && fresh(Repr - old(Repr))
      ensures Progress(schedule, start, slow, prev', since', i + 1, first, book.flow, ThePace())
    {
      hide Book.Handed, Book.Inv, Stored, Progress, OnlyOverlong, Moves, ThePace, Unhurried;
      ghost var p, mid := ThePace(), book.flow;
      Take(schedule[i]);
      ProgressKept(schedule, start, slow, prev, since, i, first, mid, p, book.flow, ThePace());
      prev', since' := if p.Swaps(ThePace()) then since else prev, if p.Swaps(ThePace()) then i + 1 else since;
    }

    /** Any interleaving of producers, the writer and a stop keeps the log conserved. If moreover the
        producers never bring 50 megabytes within one cycle of the writer, then the only lines ever
        lost are those too long for any buffer, however long the run; and unless the writer has been
        stopped, every other line that came two cycles of the writer before the end is in the file. */
    method Run(schedule: seq<Event>)
      requires Valid()
      modifies this, Repr
      ensures Valid() && fresh(Repr - old(Repr))
      ensures book.flow.lines == old(book).flow.lines + Appended(schedule) && old(file) <= file
      ensures old(Unhurried(schedule, Queued())) && |old(bufferToWrite)| <= MAX_BATCH ==>
                OnlyOverlong(old(book).flow.lines, old(book).flow.lost, book.flow.lines, book.flow.lost)
      ensures old(Unhurried(schedule, Queued())) && |old(bufferToWrite)| <= MAX_BATCH && pc != Stopped ==>
                forall i :: 0 <= i <= |schedule| && WriterSteps(schedule[i..]) > 2 * CYCLE + 1 ==>
                  Filed(|old(book).flow.lines| + |Appended(schedule[..i])|)
    {
      hide Unhurried, Book.Inv, Stored, Progress, OnlyOverlong, Moves;
      ghost var slow := Unhurried(schedule, Queued()) && |bufferToWrite| <= MAX_BATCH;
      ghost var prev, since, start, first := 0, 0, Queued(), book.flow;
      WithinBatch();
      ProgressStart(schedule, slow, first, ThePace());
      for i := 0 to |schedule|
        invariant Valid() && fresh(Repr - old(Repr))
        invariant Progress(schedule, start, slow, prev, since, i, first, book.flow, ThePace())
      {
        prev, since := TakeNext(schedule, start, slow, prev, since, i, first);
      }
      Finished(schedule, start, slow, prev, since, first, book.flow, ThePace());
      FiledUpTo();
    }
  }
}
