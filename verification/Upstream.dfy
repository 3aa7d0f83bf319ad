/** Values on their way up: the filters that handle a stream apply their function
    to it, all others pass it on. */
module Upstream {
  import opened StreamTags
  import opened DepthGrammar
  import opened FilterNode
  import opened FilterRuns

  datatype Role = Pass | Apply(f: int -> int)

  function Do(role: Role, x: int): int {
    match role
    case Pass => x
    case Apply(f) => f(x)
  }

  function Each(role: Role, xs: seq<int>): seq<int> {
    if xs == [] then [] else Each(role, xs[..|xs| - 1]) + [Do(role, xs[|xs| - 1])]
  }

  /** The values of one stream among some packets. */
  function Bodies(ps: seq<Packet>, tag: int): seq<int> {
    if ps == [] then []
    else
      var p := ps[|ps| - 1];
      Bodies(ps[..|ps| - 1], tag) + if p.Data? && p.tag == tag then [p.body] else []
  }

  lemma {:induction false} BodiesConcat(a: seq<Packet>, b: seq<Packet>, tag: int)
    ensures Bodies(a + b, tag) == Bodies(a, tag) + Bodies(b, tag)
  {
    if b == [] {
      assert a + b == a;
    } else {
      var n := |b| - 1;
      BodiesConcat(a, b[..n], tag);
      assert (a + b)[..|a| + n] == a + b[..n];
    }
  }

  lemma {:induction false} EachConcat(role: Role, a: seq<int>, b: seq<int>)
    ensures Each(role, a + b) == Each(role, a) + Each(role, b)
  {
    if b == [] {
      assert a + b == a;
    } else {
      var n := |b| - 1;
      EachConcat(role, a, b[..n]);
      assert (a + b)[..|a| + n] == a + b[..n];
    }
  }

  // ------------------------------------------------------------ one filter call

  /** The filter plays its role for the stream: one handler that sends the value
      on under the stream's own tag, or none; and no other handler uses the tag. */
  ghost predicate Plays(rows: seq<Row>, world: World, tag: int, role: Role) {
    && (match role
        case Pass => WithTag(rows, tag) == []
        case Apply(f) =>
          && |WithTag(rows, tag)| == 1
          && forall x: int, k: nat ::
               world(WithTag(rows, tag)[0], Data(tag, x), k) == Reaction([(tag, f(x))], [], false))
    && forall r: Row, p: Packet, k: nat ::
         (r in rows && r.tag != tag ==> Bodies(AsData(world(r, p, k).up), tag) == [])
  }

  lemma {:induction false} OthersStayOff(rows: seq<Row>, all: seq<Row>, p: Packet, world: World,
                                         runs: nat, tag: int, role: Role)
    requires Plays(all, world, tag, role)
    requires forall r :: r in rows ==> r in all && r.tag != tag
    ensures Bodies(Run(rows, p, world, runs).up, tag) == []
  {
    hide Plays;
    if rows != [] {
      var front, last := rows[..|rows| - 1], rows[|rows| - 1];
      assert last in rows && forall r :: r in front ==> r in rows;
      OthersStayOff(front, all, p, world, runs, tag, role);
      var e := Run(front, p, world, runs);
      OneStaysOff(all, last, p, world, e.runs, tag, role);
      BodiesConcat(e.up, AsData(world(last, p, e.runs).up), tag);
    }
  }

  lemma OneStaysOff(all: seq<Row>, r: Row, p: Packet, world: World, runs: nat, tag: int, role: Role)
    requires Plays(all, world, tag, role) && r in all && r.tag != tag
    ensures Bodies(AsData(world(r, p, runs).up), tag) == []
  {
  }

  /** The part of some values that a filter's handler takes over, and the rest. */
  function Taken(role: Role, xs: seq<int>): seq<int> {
    if role.Apply? then Each(role, xs) else []
  }

  function Rest(role: Role, xs: seq<int>): seq<int> {
    if role.Apply? then [] else xs
  }

  lemma PartsConcat(role: Role, a: seq<int>, b: seq<int>)
    ensures Taken(role, a + b) == Taken(role, a) + Taken(role, b)
    ensures Rest(role, a + b) == Rest(role, a) + Rest(role, b)
    ensures Taken(role, []) == [] && Rest(role, []) == []
  {
    EachConcat(role, a, b);
  }

  lemma OneBody(p: Packet, tag: int)
    ensures Bodies([p], tag) == if p.Data? && p.tag == tag then [p.body] else []
  {
    assert [p][..0] == [];
  }

  /** What one packet adds to the queue. */
  lemma OnePacket(st: State, p: Packet, world: World, tag: int, role: Role)
    requires Plays(st.upRows, world, tag, role) && tag >= FIRST_NAMED_STREAM_TAG
    ensures var (after, handled) := Dispatch(st, st.upRows, p, world);
            && after.upRows == st.upRows
            && Bodies(after.upQueue, tag) == Bodies(st.upQueue, tag) + Taken(role, Bodies([p], tag))
            && (p.Data? && p.tag == tag ==> handled == role.Apply?)
  {
    var rows := WithTag(st.upRows, TagOf(p));
    var e := Run(rows, p, world, st.runs);
    BodiesConcat(st.upQueue, e.up, tag);
    OneBody(p, tag);
    if p.Data? && p.tag == tag {
      OnTheTag(st.upRows, p.body, world, st.runs, tag, role);
    } else {
      OffTheTag(st.upRows, p, world, st.runs, tag, role);
    }
  }

  lemma OffTheTag(all: seq<Row>, p: Packet, world: World, runs: nat, tag: int, role: Role)
    requires Plays(all, world, tag, role) && TagOf(p) != tag
    ensures Bodies(Run(WithTag(all, TagOf(p)), p, world, runs).up, tag) == [] == Taken(role, [])
  {
    WithTagKeeps(all, TagOf(p));
    OthersStayOff(WithTag(all, TagOf(p)), all, p, world, runs, tag, role);
    PartsConcat(role, [], []);
  }

  lemma OnTheTag(all: seq<Row>, x: int, world: World, runs: nat, tag: int, role: Role)
    requires Plays(all, world, tag, role)
    ensures var rows := WithTag(all, tag);
            var e := Run(rows, Data(tag, x), world, runs);
            && Bodies(e.up, tag) == Taken(role, [x])
            && (!e.threw && rows != []) == role.Apply?
  {
    var rows := WithTag(all, tag);
    match role
    case Pass =>
    case Apply(f) =>
      assert rows == [rows[0]];
      OneHandler(rows[0], x, world, runs, tag, f);
  }

  lemma OneHandler(r: Row, x: int, world: World, runs: nat, tag: int, f: int -> int)
    requires world(r, Data(tag, x), runs) == Reaction([(tag, f(x))], [], false)
    ensures var e := Run([r], Data(tag, x), world, runs);
            Bodies(e.up, tag) == [f(x)] && !e.threw
    ensures Each(Apply(f), [x]) == [f(x)]
  {
    assert [r][..0] == [];
    assert Run([r][..0], Data(tag, x), world, runs) == Effect([], [], runs, false);
    assert AsData([(tag, f(x))]) == [Data(tag, f(x))];
    OneBody(Data(tag, f(x)), tag);
    assert [] + [Data(tag, f(x))] == [Data(tag, f(x))];
    assert [x][..0] == [];
  }

  /** What one packet adds to the forwarded ones. */
  lemma OneForward(forward: seq<Packet>, p: Packet, handled: bool, tag: int, role: Role)
    requires p.Data? && p.tag == tag ==> handled == role.Apply?
    ensures Bodies(if handled then forward else forward + [p], tag) ==
            Bodies(forward, tag) + Rest(role, Bodies([p], tag))
  {
    OneBody(p, tag);
    BodiesConcat(forward, [p], tag);
    assert Bodies(forward, tag) + [] == Bodies(forward, tag);
  }

  lemma {:induction false} BatchMaps(st: State, batch: seq<Packet>, world: World, tag: int, role: Role)
    requires Plays(st.upRows, world, tag, role) && tag >= FIRST_NAMED_STREAM_TAG
    ensures var (after, forward) := UpBatch(st, batch, world);
            && after.upRows == st.upRows
            && Bodies(after.upQueue, tag) == Bodies(st.upQueue, tag) + Taken(role, Bodies(batch, tag))
            && Bodies(forward, tag) == Rest(role, Bodies(batch, tag))
  {
    hide Dispatch, Plays, Taken, Rest;
    if batch == [] {
      PartsConcat(role, [], []);
      assert Bodies(st.upQueue, tag) + [] == Bodies(st.upQueue, tag);
    } else {
      var front, p := batch[..|batch| - 1], batch[|batch| - 1];
      BatchMaps(st, front, world, tag, role);
      var (st1, forward) := UpBatch(st, front, world);
      OnePacket(st1, p, world, tag, role);
      OneForward(forward, p, Dispatch(st1, st1.upRows, p, world).1, tag, role);
      assert batch == front + [p];
      BodiesConcat(front, [p], tag);
      PartsConcat(role, Bodies(front, tag), Bodies([p], tag));
      assert (Bodies(st.upQueue, tag) + Taken(role, Bodies(front, tag))) + Taken(role, Bodies([p], tag)) ==
             Bodies(st.upQueue, tag) + (Taken(role, Bodies(front, tag)) + Taken(role, Bodies([p], tag)));
    }
  }

  lemma {:induction false} PassingIsIdentity(xs: seq<int>)
    ensures Each(Pass, xs) == xs
  {
    if xs != [] { PassingIsIdentity(xs[..|xs| - 1]); }
  }

  /** One call sends up what was queued, and the batch's values in order, each with
      the filter's function applied. */
  lemma CallMaps(st: State, batch: seq<Packet>, world: World, tag: int, role: Role)
    requires Plays(st.upRows, world, tag, role) && tag >= FIRST_NAMED_STREAM_TAG
    ensures var r := UpCall(st, batch, world);
            && Bodies(r.up, tag) == Bodies(st.upQueue, tag) + Each(role, Bodies(batch, tag))
            && r.state.upQueue == [] && r.state.upRows == st.upRows
  {
    hide UpBatch, Plays;
    BatchMaps(st, batch, world, tag, role);
    var (st1, forward) := UpBatch(st, batch, world);
    BodiesConcat(st1.upQueue, forward, tag);
    PassingIsIdentity(Bodies(batch, tag));
    assert (Bodies(st.upQueue, tag) + Taken(role, Bodies(batch, tag))) + Rest(role, Bodies(batch, tag)) ==
           Bodies(st.upQueue, tag) + Each(role, Bodies(batch, tag));
  }

  // --------------------------------------------------- a tree with queued edges

  /** Node 0 is the frontend's filter; parents come before their children. */
  datatype Paths = Paths(parents: seq<nat>, topos: seq<Topology>, worlds: seq<World>, roles: seq<Role>, tag: int)

  ghost predicate IsPaths(t: Paths) {
    && 0 < |t.parents| == |t.topos| == |t.worlds| == |t.roles| && t.tag >= FIRST_NAMED_STREAM_TAG
    && forall c :: 0 < c < |t.parents| ==> t.parents[c] < c
  }

  /** What a value becomes between node n and the frontend: the functions of the
      selected filters on the way, the lowest first. */
  function Composed(t: Paths, n: nat, x: int): int
    requires IsPaths(t) && n < |t.parents|
  {
    if n == 0 then Do(t.roles[0], x) else Composed(t, t.parents[n], Do(t.roles[n], x))
  }

  function ComposedAll(t: Paths, n: nat, xs: seq<int>): seq<int>
    requires IsPaths(t) && n < |t.parents|
  {
    if xs == [] then [] else ComposedAll(t, n, xs[..|xs| - 1]) + [Composed(t, n, xs[|xs| - 1])]
  }

  lemma {:induction false} ComposedConcat(t: Paths, n: nat, a: seq<int>, b: seq<int>)
    requires IsPaths(t) && n < |t.parents|
    ensures ComposedAll(t, n, a + b) == ComposedAll(t, n, a) + ComposedAll(t, n, b)
  {
    if b == [] {
      assert a + b == a;
    } else {
      var k := |b| - 1;
      ComposedConcat(t, n, a, b[..k]);
      assert (a + b)[..|a| + k] == a + b[..k];
    }
  }

  lemma {:induction false} ComposedStep(t: Paths, n: nat, xs: seq<int>)
    requires IsPaths(t) && n < |t.parents|
    ensures ComposedAll(t, n, xs) ==
            if n == 0 then Each(t.roles[0], xs) else ComposedAll(t, t.parents[n], Each(t.roles[n], xs))
  {
    if xs != [] {
      var front, last := xs[..|xs| - 1], xs[|xs| - 1];
      ComposedStep(t, n, front);
      if n > 0 {
        ComposedConcat(t, t.parents[n], Each(t.roles[n], front), [Do(t.roles[n], last)]);
        assert [Do(t.roles[n], last)][..0] == [];
      }
    }
  }

  /** Per node its state and the packets on their way to it; and what has arrived. */
  datatype Flow = Flow(filters: seq<State>, inbox: seq<seq<Packet>>, received: seq<Packet>)

  ghost predicate Ready(t: Paths, s: Flow) {
    && |s.filters| == |s.inbox| == |t.parents| == |t.worlds| == |t.roles|
    && forall n :: 0 <= n < |t.parents| ==>
         Plays(s.filters[n].upRows, t.worlds[n], t.tag, t.roles[n]) && s.filters[n].upQueue == []
  }

  /** A packet enters below node n; node n takes packets from its queue; or packets from
      above come down to node n. */
  datatype Move = Enter(n: nat, p: Packet) | Take(n: nat, count: nat) | Descend(n: nat, batch: seq<Packet>)

  /** What comes down leaves the node's role as it is, and sends nothing up on the stream. */
  ghost predicate Neutral(t: Paths, st: State, n: nat, batch: seq<Packet>)
    requires IsPaths(t) && n < |t.parents|
  {
    var r := DownCall(st, batch, t.topos[n], t.worlds[n]);
    Plays(r.state.upRows, t.worlds[n], t.tag, t.roles[n]) && Bodies(r.up, t.tag) == []
  }

  /** Node n sends packets to its parent, or to the frontend. */
  function SendUp(t: Paths, s: Flow, n: nat, ps: seq<Packet>): Flow
    requires IsPaths(t) && n < |t.parents| == |s.inbox|
  {
    if n == 0 then s.(received := s.received + ps)
    else s.(inbox := s.inbox[t.parents[n] := s.inbox[t.parents[n]] + ps])
  }

  ghost function Moved(t: Paths, s: Flow, m: Move): Flow
    requires IsPaths(t) && Ready(t, s)
  {
    match m
    case Enter(n, p) => if n >= |t.parents| then s else s.(inbox := s.inbox[n := s.inbox[n] + [p]])
    case Take(n, count) =>
      if n >= |t.parents| || count > |s.inbox[n]| then s
      else
        var r := UpCall(s.filters[n], s.inbox[n][..count], t.worlds[n]);
        SendUp(t, s.(inbox := s.inbox[n := s.inbox[n][count..]], filters := s.filters[n := r.state]), n, r.up)
    case Descend(n, batch) =>
      if n >= |t.parents| || !Neutral(t, s.filters[n], n, batch) then s
      else
        var r := DownCall(s.filters[n], batch, t.topos[n], t.worlds[n]);
        SendUp(t, s.(filters := s.filters[n := r.state]), n, r.up)
  }

  lemma MovedIsReady(t: Paths, s: Flow, m: Move)
    requires IsPaths(t) && Ready(t, s)
    ensures Ready(t, Moved(t, s, m))
  {
    hide UpCall, DownBatch, Plays, Bodies;
    if m.Take? && m.n < |t.parents| && m.count <= |s.inbox[m.n]| {
      CallMaps(s.filters[m.n], s.inbox[m.n][..m.count], t.worlds[m.n], t.tag, t.roles[m.n]);
    }
  }

  ghost function Moves(t: Paths, s: Flow, moves: seq<Move>): (r: Flow)
    requires IsPaths(t) && Ready(t, s)
    ensures Ready(t, r)
  {
    if moves == [] then s
    else
      var front := Moves(t, s, moves[..|moves| - 1]);
      MovedIsReady(t, front, moves[|moves| - 1]);
      Moved(t, front, moves[|moves| - 1])
  }

  // --------------------------------------------- nothing lost, nothing doubled

  /** The final values of everything in the queues of the first k nodes. */
  function InFlight(t: Paths, inbox: seq<seq<Packet>>, k: nat): multiset<int>
    requires IsPaths(t) && k <= |inbox| == |t.parents|
  {
    if k == 0 then multiset{}
    else InFlight(t, inbox, k - 1) + multiset(ComposedAll(t, k - 1, Bodies(inbox[k - 1], t.tag)))
  }

  function Weight(t: Paths, s: Flow): multiset<int>
    requires IsPaths(t) && Ready(t, s)
  {
    multiset(Bodies(s.received, t.tag)) + InFlight(t, s.inbox, |s.inbox|)
  }

  lemma Cancel(x: multiset<int>, y: multiset<int>, z: multiset<int>)
    requires x + z == y + z
    ensures x == y
  {
    forall e ensures x[e] == y[e] {
      assert (x + z)[e] == (y + z)[e];
    }
  }

  /** Replacing one queue changes the total by the difference it makes there. */
  lemma {:induction false} InFlightUpdate(t: Paths, inbox: seq<seq<Packet>>, n: nat, q: seq<Packet>, k: nat)
    requires IsPaths(t) && k <= |inbox| == |t.parents| && n < |inbox|
    ensures n >= k ==> InFlight(t, inbox[n := q], k) == InFlight(t, inbox, k)
    ensures n < k ==>
              InFlight(t, inbox[n := q], k) + multiset(ComposedAll(t, n, Bodies(inbox[n], t.tag))) ==
              InFlight(t, inbox, k) + multiset(ComposedAll(t, n, Bodies(q, t.tag)))
  {
    hide ComposedAll, Bodies;
    if k > 0 {
      InFlightUpdate(t, inbox, n, q, k - 1);
      if n < k - 1 {
        assert inbox[n := q][k - 1] == inbox[k - 1];
        Swapped(InFlight(t, inbox[n := q], k - 1), multiset(ComposedAll(t, n, Bodies(inbox[n], t.tag))),
                InFlight(t, inbox, k - 1), multiset(ComposedAll(t, n, Bodies(q, t.tag))),
                multiset(ComposedAll(t, k - 1, Bodies(inbox[k - 1], t.tag))));
      } else if n == k - 1 {
        assert inbox[n := q][k - 1] == q;
      }
    }
  }

  lemma Swapped(a: multiset<int>, b: multiset<int>, c: multiset<int>, d: multiset<int>, e: multiset<int>)
    requires a + b == c + d
    ensures (a + e) + b == (c + e) + d
  {
    assert (a + e) + b == (a + b) + e;
    assert (c + e) + d == (c + d) + e;
  }

  /** Appending to a queue adds the final values of what is appended. */
  lemma InFlightGrows(t: Paths, inbox: seq<seq<Packet>>, n: nat, more: seq<Packet>)
    requires IsPaths(t) && |inbox| == |t.parents| && n < |inbox|
    ensures InFlight(t, inbox[n := inbox[n] + more], |inbox|) ==
            InFlight(t, inbox, |inbox|) + multiset(ComposedAll(t, n, Bodies(more, t.tag)))
  {
    hide ComposedAll, Bodies, InFlight;
    BodiesConcat(inbox[n], more, t.tag);
    ComposedConcat(t, n, Bodies(inbox[n], t.tag), Bodies(more, t.tag));
    InFlightUpdate(t, inbox, n, inbox[n] + more, |inbox|);
    var was, extra := ComposedAll(t, n, Bodies(inbox[n], t.tag)), ComposedAll(t, n, Bodies(more, t.tag));
    var after, before := InFlight(t, inbox[n := inbox[n] + more], |inbox|), InFlight(t, inbox, |inbox|);
    assert multiset(was + extra) == multiset(was) + multiset(extra);
    assert before + multiset(was + extra) == (before + multiset(extra)) + multiset(was);
    Cancel(after, before + multiset(extra), multiset(was));
  }

  /** The final value of what one move brings in. */
  function Brought(t: Paths, m: Move): multiset<int>
    requires IsPaths(t)
  {
    if m.Enter? && m.n < |t.parents| then multiset(ComposedAll(t, m.n, Bodies([m.p], t.tag))) else multiset{}
  }

  function BroughtByAll(t: Paths, moves: seq<Move>): multiset<int>
    requires IsPaths(t)
  {
    if moves == [] then multiset{}
    else BroughtByAll(t, moves[..|moves| - 1]) + Brought(t, moves[|moves| - 1])
  }

  lemma EnterWeighs(t: Paths, s: Flow, n: nat, p: Packet)
    requires IsPaths(t) && Ready(t, s) && n < |t.parents|
    ensures Ready(t, Moved(t, s, Enter(n, p)))
    ensures Weight(t, Moved(t, s, Enter(n, p))) == Weight(t, s) + Brought(t, Enter(n, p))
  {
    hide ComposedAll, Bodies, Plays, InFlight;
    MovedIsReady(t, s, Enter(n, p));
    InFlightGrows(t, s.inbox, n, [p]);
  }

  /** Taking packets from a queue takes their final values from the total. */
  lemma InFlightShrinks(t: Paths, inbox: seq<seq<Packet>>, n: nat, count: nat)
    requires IsPaths(t) && |inbox| == |t.parents| && n < |inbox| && count <= |inbox[n]|
    ensures InFlight(t, inbox, |inbox|) ==
            InFlight(t, inbox[n := inbox[n][count..]], |inbox|) +
            multiset(ComposedAll(t, n, Bodies(inbox[n][..count], t.tag)))
  {
    hide ComposedAll, Bodies, InFlight;
    var batch, rest := inbox[n][..count], inbox[n][count..];
    assert batch + rest == inbox[n];
    BodiesConcat(batch, rest, t.tag);
    ComposedConcat(t, n, Bodies(batch, t.tag), Bodies(rest, t.tag));
    InFlightUpdate(t, inbox, n, rest, |inbox|);
    var a, b := ComposedAll(t, n, Bodies(batch, t.tag)), ComposedAll(t, n, Bodies(rest, t.tag));
    var after, before := InFlight(t, inbox[n := rest], |inbox|), InFlight(t, inbox, |inbox|);
    assert multiset(a + b) == multiset(a) + multiset(b);
    assert after + multiset(a + b) == (after + multiset(a)) + multiset(b);
    Cancel(before, after + multiset(a), multiset(b));
  }

  lemma TakeWeighs(t: Paths, s: Flow, n: nat, count: nat)
    requires IsPaths(t) && Ready(t, s) && n < |t.parents| && count <= |s.inbox[n]|
    ensures Ready(t, Moved(t, s, Take(n, count)))
    ensures Weight(t, Moved(t, s, Take(n, count))) == Weight(t, s)
  {
    hide ComposedAll, Bodies, Plays, UpCall, Each, InFlight;
    MovedIsReady(t, s, Take(n, count));
    var batch := s.inbox[n][..count];
    var r := UpCall(s.filters[n], batch, t.worlds[n]);
    CallMaps(s.filters[n], batch, t.worlds[n], t.tag, t.roles[n]);
    NoBodies(t.tag);
    assert Bodies(r.up, t.tag) == Each(t.roles[n], Bodies(batch, t.tag));
    ComposedStep(t, n, Bodies(batch, t.tag));
    InFlightShrinks(t, s.inbox, n, count);
    var taken := s.inbox[n := s.inbox[n][count..]];
    if n == 0 {
      BodiesConcat(s.received, r.up, t.tag);
      var was, more := Bodies(s.received, t.tag), Bodies(r.up, t.tag);
      assert multiset(was + more) == multiset(was) + multiset(more);
    } else {
      InFlightGrows(t, taken, t.parents[n], r.up);
    }
  }

  lemma DownWeighs(t: Paths, s: Flow, n: nat, batch: seq<Packet>)
    requires IsPaths(t) && Ready(t, s) && n < |t.parents| && Neutral(t, s.filters[n], n, batch)
    ensures Ready(t, Moved(t, s, Descend(n, batch)))
    ensures Weight(t, Moved(t, s, Descend(n, batch))) == Weight(t, s)
  {
    hide Bodies, Plays, DownCall, InFlight;
    MovedIsReady(t, s, Descend(n, batch));
    var r := DownCall(s.filters[n], batch, t.topos[n], t.worlds[n]);
    if n == 0 {
      BodiesConcat(s.received, r.up, t.tag);
      assert Bodies(s.received, t.tag) + [] == Bodies(s.received, t.tag);
    } else {
      InFlightGrows(t, s.inbox, t.parents[n], r.up);
    }
  }

  lemma NoBodies(tag: int)
    ensures Bodies([], tag) == []
    ensures forall xs: seq<int> :: [] + xs == xs
  {
  }

  /** On a tree of any shape, under any schedule: the values that have arrived and
      the final values of those on their way are, counted with multiplicity, the
      values brought in with the selected filters' functions applied. */
  lemma {:induction false} NothingLost(t: Paths, s: Flow, moves: seq<Move>)
    requires IsPaths(t) && Ready(t, s)
    ensures Weight(t, Moves(t, s, moves)) == Weight(t, s) + BroughtByAll(t, moves)
  {
    hide Weight, Plays, Moved, Brought;
    if moves != [] {
      var front, m := moves[..|moves| - 1], moves[|moves| - 1];
      NothingLost(t, s, front);
      MoveWeighs(t, Moves(t, s, front), m);
    }
  }

  lemma MoveWeighs(t: Paths, s: Flow, m: Move)
    requires IsPaths(t) && Ready(t, s)
    ensures Ready(t, Moved(t, s, m)) && Weight(t, Moved(t, s, m)) == Weight(t, s) + Brought(t, m)
  {
    MovedIsReady(t, s, m);
    if m.n < |t.parents| {
      match m
      case Enter(n, p) => EnterWeighs(t, s, n, p);
      case Take(n, count) => if count <= |s.inbox[n]| { TakeWeighs(t, s, n, count); }
      case Descend(n, batch) => if Neutral(t, s.filters[n], n, batch) { DownWeighs(t, s, n, batch); }
    }
  }
}
