/** Which of the appended lines an append-only log still carries. */
module LogHistory {

  function Concat(lines: seq<string>): string {
    if lines == [] then "" else Concat(lines[..|lines| - 1]) + lines[|lines| - 1]
  }

  /** Lines lo..hi in order and whole, except those lost. */
  function Kept(lines: seq<string>, lost: set<nat>, lo: nat, hi: nat): string
    requires lo <= hi <= |lines|
    decreases hi
  {
    if lo == hi then ""
    else Kept(lines, lost, lo, hi - 1) + if hi - 1 in lost then "" else lines[hi - 1]
  }

  lemma {:induction false} KeptConcat(lines: seq<string>, lost: set<nat>, lo: nat, mid: nat, hi: nat)
    requires lo <= mid <= hi <= |lines|
    ensures Kept(lines, lost, lo, hi) == Kept(lines, lost, lo, mid) + Kept(lines, lost, mid, hi)
    decreases hi
  {
    if mid < hi {
      KeptConcat(lines, lost, lo, mid, hi - 1);
      var last := if hi - 1 in lost then "" else lines[hi - 1];
      assert Kept(lines, lost, lo, hi) == (Kept(lines, lost, lo, mid) + Kept(lines, lost, mid, hi - 1)) + last;
    } else {
      assert Kept(lines, lost, mid, hi) == "";
    }
  }

  /** Later lines, and losses elsewhere, do not touch what lies between lo and hi. */
  lemma {:induction false} KeptFrame(lines: seq<string>, lost: set<nat>, lines': seq<string>, lost': set<nat>, lo: nat, hi: nat)
    requires lo <= hi <= |lines| && lines <= lines'
    requires forall n :: lo <= n < hi ==> (n in lost <==> n in lost')
    ensures Kept(lines', lost', lo, hi) == Kept(lines, lost, lo, hi)
    decreases hi
  {
    if lo < hi {
      KeptFrame(lines, lost, lines', lost', lo, hi - 1);
    }
  }

  /** Losing a whole stretch leaves nothing of it. */
  lemma {:induction false} KeptNone(lines: seq<string>, lost: set<nat>, lo: nat, hi: nat)
    requires lo <= hi <= |lines|
    requires forall n :: lo <= n < hi ==> n in lost
    ensures Kept(lines, lost, lo, hi) == ""
    decreases hi
  {
    if lo < hi {
      KeptNone(lines, lost, lo, hi - 1);
    }
  }

  /** With nothing lost, what is kept spells out everything that was appended. */
  lemma {:induction false} KeptAll(lines: seq<string>, lost: set<nat>, hi: nat)
    requires hi <= |lines| && forall n :: 0 <= n < hi ==> n !in lost
    ensures Kept(lines, lost, 0, hi) == Concat(lines[..hi])
    decreases hi
  {
    if hi > 0 {
      KeptAll(lines, lost, hi - 1);
      assert lines[..hi][..hi - 1] == lines[..hi - 1];
    }
  }

  function Range(lo: nat, hi: nat): (r: set<nat>)
    ensures forall n :: n in r <==> lo <= n < hi
  {
    if lo >= hi then {} else Range(lo, hi - 1) + {hi - 1}
  }

  /** The lines lo..hi a buffer answers for, and the text it carries for them. */
  datatype Load = Load(lo: nat, hi: nat, text: string)

  /** The log's contents as values: the file, then a chain of buffers on their way to it, oldest
      first, the last of them open. `B` is the identity of a buffer. */
  datatype Flow<B(==)> = Flow(
    file: string,
    fileTo: nat,         // the file answers for lines 0..fileTo
    chain: seq<B>,
    loads: map<B, Load>,
    lines: seq<string>,  // every line ever appended, in lock order
    lost: set<nat>       // positions of the lines dropped
  ) {

    ghost function LoadOf(b: B): Load {
      if b in loads then loads[b] else Load(0, 0, "")
    }

    /** Where the lines of link `i` begin: where those of the link before it end. */
    ghost function Hi(i: nat): nat
      requires i <= |chain|
    {
      if i == 0 then fileTo else LoadOf(chain[i - 1]).hi
    }

    ghost predicate Carries(b: B, from: nat) {
      var l := LoadOf(b);
      l.lo == from <= l.hi <= |lines| && l.text == Kept(lines, lost, from, l.hi)
    }

    ghost predicate Link(i: nat)
      requires i < |chain|
    {
      Carries(chain[i], Hi(i))
    }

    /** File and chain follow one another without a gap up to the last line, and each link carries
        exactly its stretch of the lines. */
    ghost predicate Conserved() {
      && fileTo <= |lines| && file == Kept(lines, lost, 0, fileTo)
      && |chain| >= 1 && Hi(|chain|) == |lines|
      && (forall i :: 0 <= i < |chain| ==> Link(i))
      && (forall i, j :: 0 <= i < j < |chain| ==> chain[i] != chain[j])
      && (forall n :: n in lost ==> n < |lines|)
    }

    /** The text of the links from `i` on, one after the other. */
    ghost function ChainText(i: nat): string
      requires i <= |chain|
      decreases |chain| - i
    {
      if i == |chain| then "" else LoadOf(chain[i]).text + ChainText(i + 1)
    }

    /** A line goes into the open buffer, or is lost if no buffer could hold it. */
    ghost function Put(line: string, kept: bool): Flow<B>
      requires |chain| >= 1
    {
      var b := chain[|chain| - 1];
      var l := LoadOf(b);
      this.(
        loads := loads[b := Load(l.lo, |lines| + 1, l.text + if kept then line else "")],
        lines := lines + [line],
        lost := if kept then lost else lost + {|lines|})
    }

    /** A clean buffer becomes the open one. */
    ghost function Open(b: B): Flow<B> {
      this.(chain := chain + [b], loads := loads[b := Load(|lines|, |lines|, "")])
    }

    /** The oldest buffer goes to the file. */
    ghost function Write(): Flow<B>
      requires |chain| >= 1
    {
      this.(file := file + LoadOf(chain[0]).text, fileTo := LoadOf(chain[0]).hi, chain := chain[1..])
    }

    /** Links i..j are thrown away; the one before them now answers for their lines, all lost. */
    ghost function Drop(i: nat, j: nat): Flow<B>
      requires 0 < i <= j <= |chain|
    {
      this.(
        chain := chain[..i] + chain[j..],
        loads := loads[chain[i - 1] := LoadOf(chain[i - 1]).(hi := Hi(j))],
        lost := lost + Range(Hi(i), Hi(j)))
    }

    /** What every reachable log satisfies: the file and the buffers spell out the kept lines. */
    lemma {:induction false} Conservation(i: nat)
      requires Conserved() && i <= |chain|
      ensures Hi(i) <= |lines| && ChainText(i) == Kept(lines, lost, Hi(i), |lines|)
      ensures i == 0 ==> file + ChainText(0) == Kept(lines, lost, 0, |lines|)
      decreases |chain| - i
    {
      if i < |chain| {
        assert Link(i);
        Conservation(i + 1);
        KeptConcat(lines, lost, Hi(i), Hi(i + 1), |lines|);
      }
      if i == 0 {
        KeptConcat(lines, lost, 0, fileTo, |lines|);
      }
    }

    lemma PutKeeps(line: string, kept: bool)
      requires Conserved()
      ensures Put(line, kept).Conserved()
    {
      var last := |chain| - 1;
      assert Link(last);
      var f := Put(line, kept);
      KeptFrame(lines, lost, f.lines, f.lost, 0, fileTo);
      forall i | 0 <= i < |chain|
        ensures f.Link(i)
      {
        assert Link(i);
        KeptFrame(lines, lost, f.lines, f.lost, Hi(i), Hi(i + 1));
      }
    }

    lemma OpenKeeps(b: B)
      requires Conserved() && b !in chain
      ensures Open(b).Conserved()
    {
      var f := Open(b);
      forall i | 0 <= i < |f.chain|
        ensures f.Link(i)
      {
        if i < |chain| {
          assert Link(i);
        } else {
          assert f.Hi(i) == Hi(|chain|);
        }
      }
    }

    lemma WriteKeeps()
      requires Conserved() && |chain| >= 2
      ensures Write().Conserved()
    {
      var f := Write();
      assert Link(0);
      KeptConcat(lines, lost, 0, fileTo, f.fileTo);
      forall i | 0 <= i < |f.chain|
        ensures f.Link(i)
      {
        assert Link(i + 1);
      }
    }

    lemma DropKeeps(i: nat, j: nat)
      requires Conserved() && 0 < i <= j < |chain|
      ensures Drop(i, j).Conserved()
    {
      var f := Drop(i, j);
      HiOrder(0, i);
      HiOrder(i, j);
      HiOrder(j, |chain|);
      KeptFrame(lines, lost, lines, f.lost, 0, fileTo);
      forall k | 0 <= k < |f.chain|
        ensures f.Link(k)
      {
        if k < i - 1 {
          DropBefore(i, j, k);
        } else if k == i - 1 {
          DropAt(i, j);
        } else {
          DropAfter(i, j, k - i + j);
        }
      }
    }

    lemma DropBefore(i: nat, j: nat, k: nat)
      requires Conserved() && 0 < i <= j < |chain| && k < i - 1
      ensures Drop(i, j).Link(k)
    {
      assert Link(k);
      HiOrder(k + 1, i);
      KeptFrame(lines, lost, lines, Drop(i, j).lost, Hi(k), Hi(k + 1));
    }

    lemma DropAt(i: nat, j: nat)
      requires Conserved() && 0 < i <= j < |chain|
      ensures Drop(i, j).Link(i - 1)
    {
      var f := Drop(i, j);
      assert Link(i - 1);
      HiOrder(i, j);
      KeptFrame(lines, lost, lines, f.lost, Hi(i - 1), Hi(i));
      KeptNone(lines, f.lost, Hi(i), Hi(j));
      KeptConcat(lines, f.lost, Hi(i - 1), Hi(i), Hi(j));
    }

    lemma DropAfter(i: nat, j: nat, m: nat)
      requires Conserved() && 0 < i <= j <= m < |chain|
      ensures Drop(i, j).Link(m - j + i)
    {
      var f := Drop(i, j);
      assert f.chain[m - j + i] == chain[m] && Link(m);
      HiOrder(j, m);
      KeptFrame(lines, lost, lines, f.lost, Hi(m), Hi(m + 1));
    }

    lemma {:induction false} HiOrder(i: nat, j: nat)
      requires Conserved() && i <= j <= |chain|
      ensures fileTo <= Hi(i) <= Hi(j) <= |lines|
      decreases i + j
    {
      if i < j {
        HiOrder(i, j - 1);
        assert Link(j - 1);
      } else if 0 < j {
        HiOrder(j - 1, j - 1);
        assert Link(j - 1);
      }
    }
  }
}
