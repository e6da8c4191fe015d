/** Who holds which log buffer, as values: the slots of the logger, the rule that no two of them
    share a buffer, and what every step does to them. `B` is the identity of a buffer. */
module LogBooks {
  import opened LogHistory
  import opened Options

  const MAX_BATCH: nat := 25

  /** The one place that holds a buffer. */
  datatype Slot =
    | Current
    | Next
    | Full(i: nat)
    | Spare1
    | Spare2
    | Batch(j: nat)
    | Free

  datatype WriterPc =
    | NotStarted
    | Top
    | Entering
    | Waiting
    | Trimming
    | Writing(k: nat)
    | Recycling
    | Stopped

  datatype Book<B(==)> = Book(
    current: B,
    next: Option<B>,
    full: seq<B>,
    spare1: Option<B>,
    spare2: Option<B>,
    batch: seq<B>,
    pc: WriterPc,
    slot: map<B, Slot>,
    flow: Flow<B>
  ) {

    ghost predicate At(b: B, s: Slot) {
      b in slot && slot[b] == s
    }

    /** Every pointer holds a buffer whose slot is that pointer's own: no two pointers alias. */
    ghost predicate Owned() {
      && At(current, Current)
      && (next.Some? ==> At(next.value, Next))
      && (spare1.Some? ==> At(spare1.value, Spare1))
      && (spare2.Some? ==> At(spare2.value, Spare2))
      && (forall i :: 0 <= i < |full| ==> At(full[i], Full(i)))
      && (forall j :: 0 <= j < |batch| ==> At(batch[j], Batch(j)))
    }

    /** The reason the writer's asserts hold: a missing next buffer has left a full one behind. */
    ghost predicate Stocked() {
      && (next == None ==> |full| >= 1)
      && match pc
         case NotStarted => spare1 == None && spare2 == None && batch == []
         case Trimming => Enough()
         case Writing(k) => Enough() && k <= |batch|
         case Recycling => Enough()
         case Stopped => batch == []
         case _ => spare1.Some? && spare2.Some? && batch == []
    }

    ghost predicate Enough() {
      spare1 == None && |batch| >= if spare2 == None then 2 else 1
    }

    /** The part of the batch not yet in the file. */
    ghost function Unwritten(): seq<B> {
      match pc
      case Writing(k) => if k <= |batch| then batch[k..] else []
      case Recycling => []
      case _ => batch
    }

    ghost predicate Chained() {
      flow.chain == Unwritten() + full + [current]
    }

    ghost predicate Inv() {
      Owned() && Stocked() && Chained() && flow.Conserved()
    }

    /** The text the bookkeeping expects in a buffer: clean in a spare slot. */
    ghost function Expected(b: B): string {
      if b in slot && (slot[b].Next? || slot[b].Spare1? || slot[b].Spare2?) then "" else flow.LoadOf(b).text
    }

    /** Every buffer still in use is expected to hold in `k` what it is expected to hold here. */
    ghost predicate Agrees(k: Book<B>) {
      forall b :: b in k.slot ==>
        b in slot && (k.slot[b].Free? || (!slot[b].Free? && k.Expected(b) == Expected(b)))
    }

    /** The same, except for buffer `x`, which stays in use. */
    ghost predicate AgreesBut(k: Book<B>, x: B) {
      && x in slot && !slot[x].Free? && k.slot == slot
      && (forall b :: b in slot && b != x ==> k.Expected(b) == Expected(b))
    }

    // ---- The steps ----

    /** A new, clean buffer in an empty spare place. */
    ghost function Supply(b: B, s: Slot): Book<B> {
      match s
      case Next => this.(next := Some(b), slot := slot[b := s])
      case Spare1 => this.(spare1 := Some(b), slot := slot[b := s])
      case _ => this.(spare2 := Some(b), slot := slot[b := Spare2])
    }

    ghost function Put(line: string, kept: bool): Book<B>
      requires |flow.chain| >= 1
    {
      this.(flow := flow.Put(line, kept))
    }

    /** The current buffer joins the queue and the next one takes its place. */
    ghost function Advance(): Book<B>
      requires next.Some?
    {
      var b := next.value;
      this.(
        current := b,
        next := None,
        full := full + [current],
        slot := slot[current := Full(|full|)][b := Current],
        flow := flow.Open(b))
    }

    /** The writer's critical section: it takes the queue, current buffer last, and pays with its
        first spare, and with its second if the next buffer is missing. */
    ghost function Swap(): Book<B>
      requires spare1.Some? && spare2.Some?
    {
      this.(
        current := spare1.value,
        next := if next == None then spare2 else next,
        full := [],
        spare1 := None,
        spare2 := if next == None then None else spare2,
        batch := full + [current],
        pc := Trimming,
        slot := map b | b in slot ::
          if b == spare1.value then Current
          else if b == spare2.value && next == None then Next
          else if b == current then Batch(|full|)
          else if slot[b].Full? then Batch(slot[b].i)
          else slot[b],
        flow := flow.Open(spare1.value))
    }

    /** A batch of more than 25 keeps its first two buffers. */
    ghost function Trim(): Book<B>
      requires |batch| <= |flow.chain|
    {
      if |batch| > MAX_BATCH
      then this.(batch := batch[..2], pc := Writing(0), flow := flow.Drop(2, |batch|))
      else this.(pc := Writing(0))
    }

    ghost function Write(): Book<B>
      requires pc.Writing? && |flow.chain| >= 1
    {
      this.(pc := Writing(pc.k + 1), flow := flow.Write())
    }

    /** Of at most two buffers kept, the last becomes the first spare and, if the second spare was
        spent, the one before it the second; the rest are freed. */
    ghost function Recycle(): Book<B>
      requires Enough()
    {
      var kept := if |batch| > 2 then batch[..2] else batch;
      var one := kept[|kept| - 1];
      var two := if spare2 == None then kept[|kept| - 2] else spare2.value;
      this.(
        spare1 := Some(one),
        spare2 := Some(two),
        batch := [],
        pc := Top,
        slot := map b | b in slot ::
          if b == one then Spare1
          else if b == two then Spare2
          else if slot[b].Batch? then Free
          else slot[b])
    }

    /** The buffers the recycling keeps, before they are cleaned: of two, the older comes second. */
    ghost function First(): B
      requires Enough()
    {
      batch[if |batch| > 2 then 1 else |batch| - 1]
    }

    ghost function Second(): B
      requires Enough()
    {
      if spare2.Some? then spare2.value else batch[if |batch| > 2 then 0 else |batch| - 2]
    }

    lemma RecycleKeeps()
      requires Inv() && pc.Recycling?
      ensures Enough() && Recycle().Inv()
      ensures Recycle().spare1 == Some(First()) && Recycle().spare2 == Some(Second())
      ensures First() in slot && Second() in slot && First() != Second()
      ensures spare2.Some? ==> slot[Second()] == Spare2
    {
      hide Flow.Conserved;
      var k := Recycle();
      assert k.Owned();
      assert k.Chained();
    }

    /** Once those two are clean and in their spare slots, the rest of the batch can be freed. */
    lemma RecycleAgrees(k: Book<B>)
      requires Inv() && pc.Recycling? && Enough()
      requires k == this.(slot := slot[First() := Spare1][Second() := Spare2])
      ensures k.Agrees(Recycle())
    {
      hide Flow.Conserved;
    }

    /** The thread starts, or tests its loop condition, or its queue: only the program counter, or
        the thread's own spares, change. */
    lemma StepKeeps(k: Book<B>)
      requires Inv() && k == this.(pc := k.pc)
      requires (pc == Top && (k.pc == Entering || k.pc == Stopped)) || (pc == Entering && k.pc == Waiting)
               || (pc == Writing(|batch|) && k.pc == Recycling)
      ensures k.Inv() && Agrees(k)
    {
      hide Flow.Conserved;
    }

    lemma StartKeeps(b1: B, b2: B)
      requires Inv() && pc == NotStarted && b1 !in slot && b2 !in slot && b1 != b2
      ensures var k := Supply(b1, Spare1).Supply(b2, Spare2); k.(pc := Top).Inv() && k.Agrees(k.(pc := Top))
    {
      hide Flow.Conserved;
    }

    lemma PutKeeps(line: string, kept: bool)
      requires Inv()
      ensures |flow.chain| >= 1 && Put(line, kept).Inv()
      ensures AgreesBut(Put(line, kept), current)
      ensures Put(line, kept).Expected(current) == Expected(current) + if kept then line else ""
    {
      hide Flow.Conserved, Owned, Stocked, AgreesBut, Expected;
      flow.PutKeeps(line, kept);
      PutPlaces(line, kept);
      PutTexts(line, kept);
    }

    lemma PutPlaces(line: string, kept: bool)
      requires Owned() && Stocked() && |flow.chain| >= 1
      ensures Put(line, kept).Owned() && Put(line, kept).Stocked()
    {
    }

    lemma PutTexts(line: string, kept: bool)
      requires Owned() && |flow.chain| >= 1 && flow.chain[|flow.chain| - 1] == current
      ensures AgreesBut(Put(line, kept), current)
      ensures Put(line, kept).Expected(current) == Expected(current) + if kept then line else ""
    {
      hide Kept;
    }

    /** The parts of the invariant that talk about pointers only. */
    lemma Pointers()
      requires Inv()
      ensures Owned() && Stocked()
      ensures |flow.chain| >= 1 && flow.chain[|flow.chain| - 1] == current
    {
    }

    lemma Fresh(b: B)
      requires Inv() && (b !in slot || At(b, Next) || At(b, Spare1))
      ensures b !in flow.chain
    {
      var u := Unwritten();
      assert forall x :: x in u ==> x in batch;
      assert forall x :: x in flow.chain ==> x in u || x in full || x == current;
    }

    lemma SupplyKeeps(b: B)
      requires Inv() && next == None && b !in slot
      ensures Supply(b, Next).Inv()
    {
      hide Flow.Conserved;
    }

    lemma AdvanceKeeps()
      requires Inv() && next.Some?
      ensures Advance().Inv() && Agrees(Advance())
    {
      hide Flow.Conserved;
      Fresh(next.value);
      flow.OpenKeeps(next.value);
      var k := Advance();
      assert k.Unwritten() == Unwritten() && k.flow.chain == flow.chain + [k.current];
      assert Unwritten() + k.full == Unwritten() + full + [current];
      assert k.Owned();
    }

    lemma SwapKeeps()
      requires Inv() && (pc.Entering? || pc.Waiting?)
      ensures Swap().Inv() && Agrees(Swap())
    {
      hide Flow.Conserved;
      Fresh(spare1.value);
      flow.OpenKeeps(spare1.value);
      SwapOwns();
      assert Swap().Chained();
      hide Owned;
    }

    lemma SwapOwns()
      requires Owned() && Stocked() && (pc.Entering? || pc.Waiting?)
      ensures Swap().Owned() && Swap().Stocked()
    {
    }

    lemma TrimKeeps()
      requires Inv() && pc.Trimming?
      ensures 0 < |batch| < |flow.chain| && Trim().Inv() && Agrees(Trim())
    {
      hide Flow.Conserved, Owned, Agrees;
      TrimChains();
      if |batch| > MAX_BATCH {
        flow.DropKeeps(2, |batch|);
      }
      DistinctChain();
      TrimAgrees();
    }

    lemma TrimChains()
      requires Stocked() && Chained() && pc.Trimming?
      ensures 0 < |batch| < |flow.chain| && Trim().Chained() && Trim().Stocked()
    {
    }

    lemma TrimAgrees()
      requires Owned() && Chained() && pc.Trimming? && |batch| < |flow.chain|
      requires forall i, j :: 0 <= i < j < |flow.chain| ==> flow.chain[i] != flow.chain[j]
      ensures Trim().Owned() && Agrees(Trim())
    {
    }

    lemma WriteKeeps()
      requires Inv() && pc.Writing? && pc.k < |batch|
      ensures |flow.chain| >= 2 && Write().Inv() && Agrees(Write())
      ensures flow.chain[0] == batch[pc.k] && Write().flow.file == flow.file + Expected(batch[pc.k])
    {
      hide Flow.Conserved, Owned, Agrees;
      WriteChains();
      flow.WriteKeeps();
      WriteAgrees();
    }

    lemma WriteChains()
      requires Chained() && pc.Writing? && pc.k < |batch|
      ensures |flow.chain| >= 2 && flow.chain[0] == batch[pc.k] && Write().Chained()
    {
      assert flow.chain[1..] == batch[pc.k + 1..] + full + [current];
    }

    lemma WriteAgrees()
      requires Owned() && pc.Writing? && pc.k < |batch| && |flow.chain| >= 1 && flow.chain[0] == batch[pc.k]
      ensures Write().Owned() && Agrees(Write())
      ensures Write().flow.file == flow.file + Expected(batch[pc.k])
    {
    }

    // ---- How far the writer has come ----

    /** The lines that have been handed to the writer: those in the file or in its batch. */
    ghost function Handed(): nat {
      if |Unwritten()| <= |flow.chain| then flow.Hi(|Unwritten()|) else 0
    }

    /** Outside its output loop the writer owes nothing. */
    lemma NothingOwed()
      requires Inv() && !pc.Trimming? && !pc.Writing?
      ensures Handed() == flow.fileTo
    {
      hide Flow.Conserved;
    }

    lemma StepHands(k: Book<B>)
      requires Inv() && k == this.(pc := k.pc)
      requires (pc == Top && (k.pc == Entering || k.pc == Stopped)) || (pc == Entering && k.pc == Waiting)
               || (pc == Writing(|batch|) && k.pc == Recycling)
      ensures k.Handed() == Handed()
    {
      hide Flow.Conserved;
    }

    lemma StartHands(b1: B, b2: B)
      requires Inv() && pc == NotStarted
      ensures Supply(b1, Spare1).Supply(b2, Spare2).(pc := Top).Handed() == Handed()
    {
      hide Flow.Conserved;
    }

    lemma SupplyHands(b: B)
      ensures Supply(b, Next).Handed() == Handed()
    {
    }

    lemma RecycleHands()
      requires Inv() && pc.Recycling?
      ensures Enough() && Recycle().Handed() == Handed()
    {
      hide Flow.Conserved;
    }

    lemma DistinctChain()
      requires flow.Conserved()
      ensures forall i, j :: 0 <= i < j < |flow.chain| ==> flow.chain[i] != flow.chain[j]
      ensures flow.Hi(|flow.chain|) == |flow.lines|
    {
    }

    lemma PutHands(line: string, kept: bool)
      requires Inv()
      ensures |flow.chain| >= 1 && Put(line, kept).Handed() == Handed() && Put(line, kept).flow.fileTo == flow.fileTo
    {
      hide Flow.Conserved;
      DistinctChain();
      var n := |Unwritten()|;
      assert n < |flow.chain|;
      assert n > 0 ==> flow.chain[n - 1] != flow.chain[|flow.chain| - 1];
    }

    lemma AdvanceHands()
      requires Inv() && next.Some?
      ensures Advance().Handed() == Handed() && Advance().flow.fileTo == flow.fileTo
    {
      hide Flow.Conserved;
      Fresh(next.value);
      var n := |Unwritten()|;
      assert n > 0 ==> flow.chain[n - 1] in flow.chain;
    }

    /** The swap hands over everything. */
    lemma SwapHands()
      requires Inv() && (pc.Entering? || pc.Waiting?)
      ensures Handed() == flow.fileTo == Swap().flow.fileTo && Swap().Handed() == |flow.lines|
    {
      hide Flow.Conserved;
      DistinctChain();
      NothingOwed();
      Fresh(spare1.value);
      assert flow.chain[|flow.chain| - 1] in flow.chain;
    }

    lemma TrimHands()
      requires Inv() && pc.Trimming?
      ensures |batch| <= |flow.chain| && Trim().Handed() == Handed() && Trim().flow.fileTo == flow.fileTo
    {
      hide Flow.Conserved;
      DistinctChain();
    }

    lemma WriteHands()
      requires Inv() && pc.Writing? && pc.k < |batch|
      ensures |flow.chain| >= 1 && Write().Handed() == Handed() && Write().flow.fileTo >= flow.fileTo
    {
      WriteKeeps();
      assert flow.Link(0);
      hide Flow.Conserved;
    }
  }

  /** A logger at rest: one open buffer, one next, nothing written. */
  ghost function Initial<B>(b1: B, b2: B): Book<B> {
    Book(b1, Some(b2), [], None, None, [], NotStarted, map[b1 := Current, b2 := Next],
      Flow("", 0, [b1], map[b1 := Load(0, 0, "")], [], {}))
  }

  lemma InitialInv<B>(b1: B, b2: B)
    requires b1 != b2
    ensures Initial(b1, b2).Inv()
    ensures Initial(b1, b2).Expected(b1) == "" == Initial(b1, b2).Expected(b2)
  {
    assert Initial(b1, b2).flow.Link(0);
  }
}
