/** On a chain of filter processes: values reach the frontend in the order in
    which the backend sent them, each one the composition of the selected filters. */
module ValueOrder {
  import opened FilterNode
  import opened Upstream

  ghost predicate IsChain(t: Paths) {
    IsPaths(t) && forall c :: 0 < c < |t.parents| ==> t.parents[c] == c - 1
  }

  /** The final values of what is queued at the first k nodes, the oldest first. */
  function Queued(t: Paths, inbox: seq<seq<Packet>>, k: nat): seq<int>
    requires IsPaths(t) && k <= |inbox| == |t.parents|
  {
    if k == 0 then [] else Queued(t, inbox, k - 1) + ComposedAll(t, k - 1, Bodies(inbox[k - 1], t.tag))
  }

  ghost function Line(t: Paths, s: Flow): seq<int>
    requires IsPaths(t) && Ready(t, s)
  {
    Bodies(s.received, t.tag) + Queued(t, s.inbox, |s.inbox|)
  }

  /** The queues above a node do not see what happens to its own. */
  lemma {:induction false} QueuedAbove(t: Paths, inbox: seq<seq<Packet>>, n: nat, q: seq<Packet>, k: nat)
    requires IsPaths(t) && k <= n < |inbox| == |t.parents|
    ensures Queued(t, inbox[n := q], k) == Queued(t, inbox, k)
  {
    hide ComposedAll, Bodies;
    if k > 0 { QueuedAbove(t, inbox, n, q, k - 1); }
  }

  lemma Halves(t: Paths, n: nat, a: seq<Packet>, b: seq<Packet>)
    requires IsPaths(t) && n < |t.parents|
    ensures ComposedAll(t, n, Bodies(a + b, t.tag)) ==
            ComposedAll(t, n, Bodies(a, t.tag)) + ComposedAll(t, n, Bodies(b, t.tag))
  {
    BodiesConcat(a, b, t.tag);
    ComposedConcat(t, n, Bodies(a, t.tag), Bodies(b, t.tag));
  }

  lemma Assoc(a: seq<int>, b: seq<int>, c: seq<int>)
    ensures (a + b) + c == a + (b + c)
  {
  }

  /** Taking from the first queue takes from the front of the line. */
  lemma {:induction false} FrontLeaves(t: Paths, inbox: seq<seq<Packet>>, count: nat, k: nat)
    requires IsPaths(t) && 0 < k <= |inbox| == |t.parents| && count <= |inbox[0]|
    ensures ComposedAll(t, 0, Bodies(inbox[0][..count], t.tag)) + Queued(t, inbox[0 := inbox[0][count..]], k) ==
            Queued(t, inbox, k)
  {
    hide ComposedAll, Bodies;
    var batch, rest := inbox[0][..count], inbox[0][count..];
    if k == 1 {
      assert batch + rest == inbox[0];
      Halves(t, 0, batch, rest);
      assert Queued(t, inbox[0 := rest], 0) == [] == Queued(t, inbox, 0);
      NoBodies(t.tag);
    } else {
      FrontLeaves(t, inbox, count, k - 1);
      assert inbox[0 := rest][k - 1] == inbox[k - 1];
      Assoc(ComposedAll(t, 0, Bodies(batch, t.tag)), Queued(t, inbox[0 := rest], k - 1),
            ComposedAll(t, k - 1, Bodies(inbox[k - 1], t.tag)));
    }
  }

  /** Two neighbouring queues, after the lower one gave its first packets to the upper. */
  lemma PairKeeps(t: Paths, inbox: seq<seq<Packet>>, n: nat, count: nat, up: seq<Packet>)
    requires IsChain(t) && 0 < n < |inbox| == |t.parents| && count <= |inbox[n]|
    requires ComposedAll(t, n - 1, Bodies(up, t.tag)) == ComposedAll(t, n, Bodies(inbox[n][..count], t.tag))
    ensures ComposedAll(t, n - 1, Bodies(inbox[n - 1] + up, t.tag)) +
            ComposedAll(t, n, Bodies(inbox[n][count..], t.tag)) ==
            ComposedAll(t, n - 1, Bodies(inbox[n - 1], t.tag)) + ComposedAll(t, n, Bodies(inbox[n], t.tag))
  {
    hide ComposedAll, Bodies;
    assert inbox[n][..count] + inbox[n][count..] == inbox[n];
    Halves(t, n, inbox[n][..count], inbox[n][count..]);
    Halves(t, n - 1, inbox[n - 1], up);
    Assoc(ComposedAll(t, n - 1, Bodies(inbox[n - 1], t.tag)), ComposedAll(t, n - 1, Bodies(up, t.tag)),
          ComposedAll(t, n, Bodies(inbox[n][count..], t.tag)));
  }

  /** Passing packets from one queue to the next leaves the line as it was. */
  lemma {:induction false} PassedOn(t: Paths, inbox: seq<seq<Packet>>, n: nat, count: nat, up: seq<Packet>, k: nat)
    requires IsChain(t) && 0 < n < k <= |inbox| == |t.parents| && count <= |inbox[n]|
    requires ComposedAll(t, n - 1, Bodies(up, t.tag)) == ComposedAll(t, n, Bodies(inbox[n][..count], t.tag))
    ensures Queued(t, inbox[n := inbox[n][count..]][n - 1 := inbox[n - 1] + up], k) == Queued(t, inbox, k)
  {
    hide ComposedAll, Bodies, IsPaths;
    var lower := inbox[n := inbox[n][count..]];
    var after := lower[n - 1 := inbox[n - 1] + up];
    if k == n + 1 {
      QueuedAbove(t, inbox, n, inbox[n][count..], n - 1);
      QueuedAbove(t, lower, n - 1, inbox[n - 1] + up, n - 1);
      PairKeeps(t, inbox, n, count, up);
      var base := Queued(t, inbox, n - 1);
      Assoc(base, ComposedAll(t, n - 1, Bodies(after[n - 1], t.tag)), ComposedAll(t, n, Bodies(after[n], t.tag)));
      Assoc(base, ComposedAll(t, n - 1, Bodies(inbox[n - 1], t.tag)), ComposedAll(t, n, Bodies(inbox[n], t.tag)));
    } else {
      PassedOn(t, inbox, n, count, up, k - 1);
      assert after[k - 1] == inbox[k - 1];
    }
  }

  lemma TakeKeepsLine(t: Paths, s: Flow, n: nat, count: nat)
    requires IsChain(t) && Ready(t, s) && n < |t.parents| && count <= |s.inbox[n]|
    ensures Ready(t, Moved(t, s, Take(n, count)))
    ensures Line(t, Moved(t, s, Take(n, count))) == Line(t, s)
  {
    hide ComposedAll, Bodies, Plays, UpCall, Each, Queued, Composed;
    MovedIsReady(t, s, Take(n, count));
    var batch := s.inbox[n][..count];
    var r := UpCall(s.filters[n], batch, t.worlds[n]);
    CallMaps(s.filters[n], batch, t.worlds[n], t.tag, t.roles[n]);
    NoBodies(t.tag);
    assert Bodies(r.up, t.tag) == Each(t.roles[n], Bodies(batch, t.tag));
    ComposedStep(t, n, Bodies(batch, t.tag));
    if n == 0 {
      FrontLeaves(t, s.inbox, count, |s.inbox|);
      BodiesConcat(s.received, r.up, t.tag);
      Assoc(Bodies(s.received, t.tag), Bodies(r.up, t.tag), Queued(t, s.inbox[0 := s.inbox[0][count..]], |s.inbox|));
    } else {
      PassedOn(t, s.inbox, n, count, r.up, |s.inbox|);
    }
  }

  /** Appending packets without values of the stream anywhere leaves the line alone. */
  lemma {:induction false} SameQueued(t: Paths, inbox: seq<seq<Packet>>, n: nat, more: seq<Packet>, k: nat)
    requires IsPaths(t) && k <= |inbox| == |t.parents| && n < |inbox| && Bodies(more, t.tag) == []
    ensures Queued(t, inbox[n := inbox[n] + more], k) == Queued(t, inbox, k)
  {
    hide ComposedAll, Bodies;
    if k > 0 {
      SameQueued(t, inbox, n, more, k - 1);
      BodiesConcat(inbox[n], more, t.tag);
      assert Bodies(inbox[n], t.tag) + [] == Bodies(inbox[n], t.tag);
    }
  }

  lemma DownKeepsLine(t: Paths, s: Flow, n: nat, batch: seq<Packet>)
    requires IsChain(t) && Ready(t, s) && n < |t.parents| && Neutral(t, s.filters[n], n, batch)
    ensures Ready(t, Moved(t, s, Descend(n, batch)))
    ensures Line(t, Moved(t, s, Descend(n, batch))) == Line(t, s)
  {
    hide ComposedAll, Bodies, Plays, DownCall, Queued;
    MovedIsReady(t, s, Descend(n, batch));
    var r := DownCall(s.filters[n], batch, t.topos[n], t.worlds[n]);
    if n == 0 {
      BodiesConcat(s.received, r.up, t.tag);
      assert Bodies(s.received, t.tag) + [] == Bodies(s.received, t.tag);
    } else {
      SameQueued(t, s.inbox, t.parents[n], r.up, |s.inbox|);
    }
  }

  lemma EnterExtendsLine(t: Paths, s: Flow, p: Packet)
    requires IsChain(t) && Ready(t, s)
    ensures var last := |t.parents| - 1;
            && Ready(t, Moved(t, s, Enter(last, p)))
            && Line(t, Moved(t, s, Enter(last, p))) == Line(t, s) + ComposedAll(t, last, Bodies([p], t.tag))
  {
    hide ComposedAll, Bodies, Plays;
    var last := |t.parents| - 1;
    MovedIsReady(t, s, Enter(last, p));
    QueuedAbove(t, s.inbox, last, s.inbox[last] + [p], last);
    Halves(t, last, s.inbox[last], [p]);
    var q, a, b := Queued(t, s.inbox, last), ComposedAll(t, last, Bodies(s.inbox[last], t.tag)),
                   ComposedAll(t, last, Bodies([p], t.tag));
    Assoc(q, a, b);
    Assoc(Bodies(s.received, t.tag), q + a, b);
  }

  /** What the backend at the end of the chain sends. */
  function Sent(t: Paths, moves: seq<Move>): seq<Packet> {
    if moves == [] then []
    else
      var m := moves[|moves| - 1];
      Sent(t, moves[..|moves| - 1]) + if m.Enter? && m.n == |t.parents| - 1 then [m.p] else []
  }

  /** No packet of the stream enters before the end of the chain. */
  predicate OnlyAtTheEnd(t: Paths, moves: seq<Move>) {
    forall m :: m in moves && m.Enter? ==> m.n >= |t.parents| - 1
  }

  lemma {:induction false} LineExtends(t: Paths, s: Flow, moves: seq<Move>)
    requires IsChain(t) && Ready(t, s) && OnlyAtTheEnd(t, moves)
    ensures Line(t, Moves(t, s, moves)) ==
            Line(t, s) + ComposedAll(t, |t.parents| - 1, Bodies(Sent(t, moves), t.tag))
  {
    hide Line, Plays, Moved, ComposedAll;
    var last := |t.parents| - 1;
    if moves == [] {
      Nothing(t, last);
    } else {
      var front, m := moves[..|moves| - 1], moves[|moves| - 1];
      assert OnlyAtTheEnd(t, front) by { assert forall x :: x in front ==> x in moves; }
      LineExtends(t, s, front);
      MoveExtends(t, Moves(t, s, front), m);
      Halves(t, last, Sent(t, front), if m.Enter? && m.n == last then [m.p] else []);
      Assoc(Line(t, s), ComposedAll(t, last, Bodies(Sent(t, front), t.tag)),
            ComposedAll(t, last, Bodies(if m.Enter? && m.n == last then [m.p] else [], t.tag)));
    }
  }

  lemma Nothing(t: Paths, n: nat)
    requires IsPaths(t) && n < |t.parents|
    ensures ComposedAll(t, n, Bodies([], t.tag)) == []
    ensures forall xs: seq<int> :: xs + [] == xs
  {
  }

  lemma MoveExtends(t: Paths, s: Flow, m: Move)
    requires IsChain(t) && Ready(t, s) && (m.Enter? ==> m.n >= |t.parents| - 1)
    ensures Ready(t, Moved(t, s, m))
    ensures Line(t, Moved(t, s, m)) ==
            Line(t, s) + ComposedAll(t, |t.parents| - 1,
                                     Bodies(if m.Enter? && m.n == |t.parents| - 1 then [m.p] else [], t.tag))
  {
    hide Line, Plays, ComposedAll, Bodies;
    MovedIsReady(t, s, m);
    Nothing(t, |t.parents| - 1);
    if m.n < |t.parents| {
      match m
      case Enter(n, p) => EnterExtendsLine(t, s, p);
      case Take(n, count) => if count <= |s.inbox[n]| { TakeKeepsLine(t, s, n, count); }
      case Descend(n, batch) => if Neutral(t, s.filters[n], n, batch) { DownKeepsLine(t, s, n, batch); }
    }
  }

  lemma {:induction false} EmptyQueues(t: Paths, inbox: seq<seq<Packet>>, k: nat)
    requires IsPaths(t) && k <= |inbox| == |t.parents|
    requires forall n :: 0 <= n < |inbox| ==> Bodies(inbox[n], t.tag) == []
    ensures Queued(t, inbox, k) == []
  {
    hide ComposedAll;
    if k > 0 {
      EmptyQueues(t, inbox, k - 1);
      Nothing(t, k - 1);
      assert Bodies(inbox[k - 1], t.tag) == [];
    }
  }

  /** From empty queues, under any schedule of the filter processes: what has
      arrived is a prefix of what the backend sent with the selected filters'
      functions applied, lowest filter first; and all of it once the queues are empty. */
  lemma ArrivesInOrder(t: Paths, s: Flow, moves: seq<Move>)
    requires IsChain(t) && Ready(t, s) && OnlyAtTheEnd(t, moves)
    requires s.received == [] && forall n :: 0 <= n < |s.inbox| ==> s.inbox[n] == []
    ensures var s' := Moves(t, s, moves);
            var sent := ComposedAll(t, |t.parents| - 1, Bodies(Sent(t, moves), t.tag));
            && Bodies(s'.received, t.tag) <= sent
            && ((forall n :: 0 <= n < |s'.inbox| ==> Bodies(s'.inbox[n], t.tag) == []) ==>
                  Bodies(s'.received, t.tag) == sent)
  {
    hide ComposedAll, Plays, Moves, Sent;
    LineExtends(t, s, moves);
    EmptyQueues(t, s.inbox, |s.inbox|);
    var s' := Moves(t, s, moves);
    Nothing(t, |t.parents| - 1);
    assert Line(t, s) == [];
    assert Line(t, s') == ComposedAll(t, |t.parents| - 1, Bodies(Sent(t, moves), t.tag));
    assert Bodies(s'.received, t.tag) <= Line(t, s');
    if forall n :: 0 <= n < |s'.inbox| ==> Bodies(s'.inbox[n], t.tag) == [] {
      EmptyQueues(t, s'.inbox, |s'.inbox|);
      assert Line(t, s') == Bodies(s'.received, t.tag) + [];
    }
  }
}
