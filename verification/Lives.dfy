/** The lives of recycled connections, on values: each connection object counts its lives, each queued
    request to close remembers the life that made it, and each request carried out is logged. `C` is
    the identity of a connection. */
module Lives {
  import opened ByteStreams
  import opened Faces
  import opened Options
  import opened Stories

  /** The current life of a connection: its number, what the connection shows, and the story so far. */
  datatype Life = Life(number: nat, face: Face, story: seq<Item>)

  /** A request to close, carried out: the life that asked, and the life it ended, if any. */
  datatype Closing<+C> = Closing(conn: C, asked: nat, ended: Option<nat>)

  datatype Ledger<C(==)> = Ledger(
    lives: map<C, Life>,
    pending: seq<C>,           // queued requests to close, oldest first
    asked: seq<nat>,           // the lives that made them
    closings: seq<Closing<C>>  // requests carried out
  )

  ghost predicate Honest<C>(c: Closing<C>) {
    c.ended == None || c.ended == Some(c.asked)
  }

  /** Requests come from lives that have begun. */
  ghost predicate Past<C>(l: Ledger<C>) {
    && |l.asked| == |l.pending|
    && forall i :: 0 <= i < |l.pending| ==> l.pending[i] in l.lives && l.asked[i] <= l.lives[l.pending[i]].number
  }

  /** ... and what every connection shows is explained by its story. */
  ghost predicate Credible<C>(l: Ledger<C>) {
    Past(l) && forall c :: c in l.lives ==> Explained(l.lives[c].face, l.lives[c].story)
  }

  ghost predicate Prompt<C>(l: Ledger<C>, i: nat) {
    i < |l.pending| && i < |l.asked| && l.pending[i] in l.lives && l.asked[i] == l.lives[l.pending[i]].number
  }

  /** ... and from the present ones. */
  ghost predicate Current<C>(l: Ledger<C>) {
    |l.asked| == |l.pending| && forall i :: 0 <= i < |l.pending| ==> Prompt(l, i)
  }

  /** The same lives, further on. */
  ghost predicate SameLives<C>(a: map<C, Life>, b: map<C, Life>) {
    a.Keys == b.Keys && forall c :: c in a ==> a[c].number == b[c].number && Extends(a[c].face.io, b[c].face.io)
  }

  ghost predicate SameRevents<C>(a: map<C, Life>, b: map<C, Life>) {
    a.Keys == b.Keys && forall c :: c in a ==> a[c].face.revents == b[c].face.revents
  }

  /** Later: connections may have been made or have begun new lives; within a life history grows. */
  ghost predicate Onward<C>(a: map<C, Life>, b: map<C, Life>) {
    forall c :: c in a ==>
      && c in b && a[c].number <= b[c].number
      && (a[c].number == b[c].number ==> Extends(a[c].face.io, b[c].face.io))
  }

  /** What handlers and user code do: no life begins, nothing is carried out, and requests are only
      made, by lives that are present. */
  ghost predicate Carries<C>(l: Ledger<C>, m: Ledger<C>) {
    && SameLives(l.lives, m.lives) && m.closings == l.closings
    && |l.pending| == |l.asked| && |m.pending| == |m.asked| && l.pending <= m.pending && l.asked <= m.asked
    && forall i :: |l.pending| <= i < |m.pending| ==> Prompt(m, i)
  }

  lemma CarriesNone<C>(l: Ledger<C>)
    requires Past(l)
    ensures Carries(l, l) && SameRevents(l.lives, l.lives)
  {
  }

  lemma CarriesChain<C>(l: Ledger<C>, m: Ledger<C>, n: Ledger<C>)
    requires Carries(l, m) && Carries(m, n)
    ensures Carries(l, n)
  {
    forall i | |l.pending| <= i < |n.pending| ensures Prompt(n, i) {
      if i < |m.pending| {
        assert Prompt(m, i);
      }
    }
  }

  lemma CarriesKeeps<C>(l: Ledger<C>, m: Ledger<C>)
    requires Carries(l, m)
    ensures Past(l) ==> Past(m)
    ensures Current(l) ==> Current(m)
    ensures Onward(l.lives, m.lives)
  {
    forall i | 0 <= i < |m.pending| ensures Past(l) ==> m.pending[i] in m.lives && m.asked[i] <= m.lives[m.pending[i]].number {
      if i >= |l.pending| {
        assert Prompt(m, i);
      }
    }
    forall i | 0 <= i < |m.pending| ensures Current(l) ==> Prompt(m, i) {
      if i < |l.pending| && Current(l) {
        assert Prompt(l, i);
      }
    }
  }

  /** Work on one connection, which may have asked to be closed. */
  lemma CarriesOne<C>(l: Ledger<C>, m: Ledger<C>, c: C, life: Life)
    requires Past(l) && c in l.lives && m.lives == l.lives[c := life] && m.closings == l.closings
    requires life.number == l.lives[c].number && Extends(l.lives[c].face.io, life.face.io)
    requires || (m.pending == l.pending && m.asked == l.asked)
             || (m.pending == l.pending + [c] && m.asked == l.asked + [life.number])
    ensures Carries(l, m) && (life.face.revents == l.lives[c].face.revents ==> SameRevents(l.lives, m.lives))
  {
  }

  lemma OnwardChain<C>(a: map<C, Life>, b: map<C, Life>, d: map<C, Life>)
    requires Onward(a, b) && Onward(b, d)
    ensures Onward(a, d)
  {
  }

  /** One request carried out. */
  ghost predicate Serves<C>(l: Ledger<C>, m: Ledger<C>) {
    && l.pending != [] && l.asked != [] && l.pending[0] in l.lives
    && m.pending == l.pending[1..] && m.asked == l.asked[1..] && SameLives(l.lives, m.lives)
    && |m.closings| == |l.closings| + 1 && l.closings <= m.closings
    && var done := m.closings[|l.closings|];
       done.conn == l.pending[0] && done.asked == l.asked[0]
       && (done.ended == None || done.ended == Some(l.lives[l.pending[0]].number))
  }

  lemma ServesKeeps<C>(l: Ledger<C>, m: Ledger<C>)
    requires Serves(l, m)
    ensures Past(l) ==> Past(m)
    ensures Current(l) ==> Current(m) && Honest(m.closings[|l.closings|])
    ensures Onward(l.lives, m.lives)
  {
    if Current(l) {
      assert Prompt(l, 0);
      forall i | 0 <= i < |m.pending| ensures Prompt(m, i) {
        assert Prompt(l, i + 1);
      }
    }
  }

  /** A connection begins its first life, or its next one. */
  ghost predicate Begins<C>(l: Ledger<C>, m: Ledger<C>, c: C) {
    && m.pending == l.pending && m.asked == l.asked && m.closings == l.closings
    && c in m.lives && m.lives == l.lives[c := m.lives[c]]
    && m.lives[c].number == if c in l.lives then l.lives[c].number + 1 else 0
  }

  /** After that, no request is out of date exactly when none was before and this connection had none
      waiting. */
  lemma BeginsKeeps<C>(l: Ledger<C>, m: Ledger<C>, c: C)
    requires Past(l) && Begins(l, m, c)
    ensures Past(m) && Onward(l.lives, m.lives)
    ensures Current(m) <==> Current(l) && c !in l.pending
  {
    if Current(l) && c !in l.pending {
      forall i | 0 <= i < |m.pending| ensures Prompt(m, i) {
        assert Prompt(l, i) && l.pending[i] != c;
      }
    }
    if Current(m) {
      forall i | 0 <= i < |l.pending| ensures Prompt(l, i) && l.pending[i] != c {
        assert Prompt(m, i);
      }
    }
  }

  // ---- Requests ----

  datatype Request<C> = Request(conn: C, life: nat)

  /** Every request to close ever made, in order: those carried out, then those waiting. */
  function Requests<C>(l: Ledger<C>): seq<Request<C>> {
    seq(|l.closings|, i requires 0 <= i < |l.closings| => Request(l.closings[i].conn, l.closings[i].asked))
    + seq(|l.pending|, i requires 0 <= i < |l.pending| => Request(l.pending[i], if i < |l.asked| then l.asked[i] else 0))
  }

  lemma CarriesRequests<C>(l: Ledger<C>, m: Ledger<C>)
    requires Carries(l, m)
    ensures Requests(l) <= Requests(m)
  {
  }

  /** Carrying one out takes none away and reorders none. */
  lemma ServesRequests<C>(l: Ledger<C>, m: Ledger<C>)
    requires Serves(l, m) && |l.asked| == |l.pending|
    ensures Requests(m) == Requests(l)
  {
    var n := |l.closings|;
    forall i | 0 <= i < |Requests(l)| ensures Requests(m)[i] == Requests(l)[i] {
      if i > n {
        assert m.pending[i - n - 1] == l.pending[i - n] && m.asked[i - n - 1] == l.asked[i - n];
      } else if i < n {
        assert m.closings[i] == l.closings[i];
      }
    }
  }

  // ---- How stories go on ----

  /** Something that happens to one connection. */
  datatype Note<C> = Note(conn: C, item: Item)

  /** All that happens to one connection, in order. */
  function To<C(==)>(notes: seq<Note<C>>, c: C): seq<Item> {
    if notes == [] then []
    else To(notes[..|notes| - 1], c) + if notes[|notes| - 1].conn == c then [notes[|notes| - 1].item] else []
  }

  lemma {:induction false} ToConcat<C>(v: seq<Note<C>>, w: seq<Note<C>>, c: C)
    ensures To(v + w, c) == To(v, c) + To(w, c)
  {
    if w == [] {
      assert v + w == v;
    } else {
      assert (v + w)[..|v + w| - 1] == v + w[..|w| - 1];
      ToConcat(v, w[..|w| - 1], c);
    }
  }

  /** Each story goes on by exactly what happens to its own connection. */
  ghost predicate Noted<C>(a: map<C, Life>, b: map<C, Life>, notes: seq<Note<C>>) {
    forall c :: c in a ==> c in b && b[c].story == a[c].story + To(notes, c)
  }

  lemma NotedNothing<C>(a: map<C, Life>)
    ensures Noted(a, a, [])
  {
  }

  lemma NotedChain<C>(a: map<C, Life>, b: map<C, Life>, d: map<C, Life>, v: seq<Note<C>>, w: seq<Note<C>>)
    requires Noted(a, b, v) && Noted(b, d, w)
    ensures Noted(a, d, v + w)
  {
    forall c | c in a ensures c in d && d[c].story == a[c].story + To(v + w, c) {
      ToConcat(v, w, c);
    }
  }
}
