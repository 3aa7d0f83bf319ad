/** What one filter process guarantees over everything that happens to it. */
module FilterRuns {
  import opened Wrappers
  import opened StreamTags
  import opened DepthGrammar
  import opened DepthSelection
  import opened FilterNode

  // ------------------------------------------------------- ownership of handlers

  /** Every handler was bound for a stream of a network that still exists. */
  ghost predicate Owned(st: State, rows: seq<Row>) {
    forall k :: 0 <= k < |rows| ==>
      (var r := rows[k];
       r.uid in st.networks && r.name in st.networks[r.uid].streams
       && st.networks[r.uid].streams[r.name] == r.tag)
  }

  ghost predicate OnlyData(ps: seq<Packet>) {
    forall k :: 0 <= k < |ps| ==> ps[k].Data?
  }

  ghost predicate ProperNetworks(st: State) {
    forall uid :: uid in st.networks ==> Proper(st.networks[uid].streams)
  }

  ghost predicate Sound(st: State) {
    && Owned(st, st.upRows) && Owned(st, st.downRows)
    && OnlyData(st.upQueue) && OnlyData(st.downQueue)
    && ProperNetworks(st)
  }

  /** The frontend names streams by proper tags only. */
  predicate Good(p: Packet) {
    p.SpecifyNamedStreams? ==> forall i :: 0 <= i < |p.tags| ==> p.tags[i] >= FIRST_NAMED_STREAM_TAG
  }

  lemma {:induction false} InsertedIsProper(names: seq<string>, tags: seq<int>)
    requires |names| == |tags| && forall i :: 0 <= i < |tags| ==> tags[i] >= FIRST_NAMED_STREAM_TAG
    ensures Proper(InsertAll(names, tags))
  {
    if names != [] {
      InsertedIsProper(names[..|names| - 1], tags[..|names| - 1]);
    }
  }

  // -------------------------------------------------------- one packet's handlers

  /** What the handlers send one way, when all of them run. */
  function AllSend(rows: seq<Row>, p: Packet, world: World, runs: nat, way: Way): seq<Packet> {
    if rows == [] then []
    else
      var n := |rows| - 1;
      var r := world(rows[n], p, runs + n);
      AllSend(rows[..n], p, world, runs, way) + AsData(if way == Up then r.up else r.down)
  }

  /** The effect of handlers that all run. */
  function AllRun(rows: seq<Row>, p: Packet, world: World, runs: nat, threw: bool): Effect {
    Effect(AllSend(rows, p, world, runs, Up), AllSend(rows, p, world, runs, Down), runs + |rows|, threw)
  }

  lemma OneMoreRuns(front: seq<Row>, last: Row, p: Packet, world: World, runs: nat)
    requires Run(front, p, world, runs) == AllRun(front, p, world, runs, false)
    ensures Run(front + [last], p, world, runs) ==
            AllRun(front + [last], p, world, runs, world(last, p, runs + |front|).threw)
  {
    hide AsData;
    var rows := front + [last];
    assert rows[..|front|] == front && rows[|front|] == last;
  }

  /** Whether none of the handlers throws. */
  predicate Quiet(rows: seq<Row>, p: Packet, world: World, runs: nat) {
    rows == [] ||
    var n := |rows| - 1;
    Quiet(rows[..n], p, world, runs) && !world(rows[n], p, runs + n).threw
  }

  lemma {:induction false} RunQuietly(rows: seq<Row>, p: Packet, world: World, runs: nat)
    requires Quiet(rows, p, world, runs)
    ensures Run(rows, p, world, runs) == AllRun(rows, p, world, runs, false)
  {
    hide Run, AllRun;
    if rows == [] {
      NothingRuns(p, world, runs);
    } else {
      var front, last := rows[..|rows| - 1], rows[|rows| - 1];
      RunQuietly(front, p, world, runs);
      OneMoreRuns(front, last, p, world, runs);
      assert front + [last] == rows;
    }
  }

  lemma NothingRuns(p: Packet, world: World, runs: nat)
    ensures Run([], p, world, runs) == AllRun([], p, world, runs, false)
  {
  }

  /** The handlers of a snapshot run in order, up to the first that throws, which is
      number n if there is one; all that they send, up and down, is sent. */
  lemma RunExact(rows: seq<Row>, n: nat, p: Packet, world: World, runs: nat)
    requires n <= |rows| && Quiet(rows[..n], p, world, runs)
    requires n < |rows| ==> world(rows[n], p, runs + n).threw
    ensures Run(rows, p, world, runs) ==
            if n < |rows| then AllRun(rows[..n + 1], p, world, runs, true) else AllRun(rows, p, world, runs, false)
  {
    hide Run, AllRun;
    RunQuietly(rows[..n], p, world, runs);
    if n < |rows| {
      OneMoreRuns(rows[..n], rows[n], p, world, runs);
      assert rows[..n] + [rows[n]] == rows[..n + 1];
      ThrownRun(rows[..n + 1], p, world, runs);
      ThrowEnds(rows, n + 1, p, world, runs);
    } else {
      assert rows[..n] == rows;
    }
  }

  lemma {:induction false} ThrowsIffNotQuiet(rows: seq<Row>, p: Packet, world: World, runs: nat)
    ensures Run(rows, p, world, runs).threw <==> !Quiet(rows, p, world, runs)
  {
    if rows != [] {
      var front := rows[..|rows| - 1];
      ThrowsIffNotQuiet(front, p, world, runs);
      if Quiet(front, p, world, runs) { RunQuietly(front, p, world, runs); }
    }
  }

  /** A packet counts as handled exactly if it has handlers and none of them throws. */
  lemma HandledExact(st: State, rows: seq<Row>, p: Packet, world: World)
    ensures var found := WithTag(rows, TagOf(p));
            Dispatch(st, rows, p, world).1 <==> found != [] && Quiet(found, p, world, st.runs)
  {
    ThrowsIffNotQuiet(WithTag(rows, TagOf(p)), p, world, st.runs);
  }

  /** No two kinds of messages share a tag, unless a data packet carries a control tag. */
  lemma TagsTellApart(p: Packet, q: Packet)
    requires TagOf(p) == TagOf(q)
    requires p.Data? ==> p.tag >= FIRST_NAMED_STREAM_TAG
    requires q.Data? ==> q.tag >= FIRST_NAMED_STREAM_TAG
    ensures p.Data? == q.Data? && p.EstablishUpstream? == q.EstablishUpstream?
    ensures p.RequestShutdown? == q.RequestShutdown? && p.SpecifyNamedStreams? == q.SpecifyNamedStreams?
    ensures p.SpecifyBackend? == q.SpecifyBackend? && p.SpecifyFilter? == q.SpecifyFilter?
    ensures p.DestroyNetwork? == q.DestroyNetwork? && p.NetworkReady? == q.NetworkReady?
  {
  }

  lemma ThrownRun(rows: seq<Row>, p: Packet, world: World, runs: nat)
    ensures AllRun(rows, p, world, runs, true).threw
  {
  }

  // -------------------------------------------------------- the tables' lists

  lemma {:induction false} WithTagKeeps(rows: seq<Row>, tag: int)
    ensures forall r :: r in WithTag(rows, tag) <==> r in rows && r.tag == tag
  {
    if rows != [] {
      WithTagKeeps(rows[..|rows| - 1], tag);
      assert rows == rows[..|rows| - 1] + [rows[|rows| - 1]];
    }
  }

  lemma {:induction false} WithoutUidKeeps(rows: seq<Row>, uid: int)
    ensures forall r :: r in WithoutUid(rows, uid) <==> r in rows && r.uid != uid
  {
    if rows != [] {
      WithoutUidKeeps(rows[..|rows| - 1], uid);
      assert rows == rows[..|rows| - 1] + [rows[|rows| - 1]];
    }
  }

  ghost predicate OwnedRow(st: State, r: Row) {
    r.uid in st.networks && r.name in st.networks[r.uid].streams
    && st.networks[r.uid].streams[r.name] == r.tag
  }

  lemma OwnedByMember(st: State, rows: seq<Row>)
    ensures Owned(st, rows) <==> forall r :: r in rows ==> OwnedRow(st, r)
  {
    if Owned(st, rows) {
      forall r | r in rows ensures OwnedRow(st, r) {
        var k :| 0 <= k < |rows| && rows[k] == r;
      }
    }
    if forall r :: r in rows ==> OwnedRow(st, r) {
      forall k | 0 <= k < |rows| ensures OwnedRow(st, rows[k]) {
        assert rows[k] in rows;
      }
    }
  }

  lemma {:induction false} BindOwned(st: State, rows: seq<Row>, uid: int, uses: seq<Incoming>)
    requires Owned(st, rows) && uid in st.networks
    ensures Owned(st, Bind(rows, uid, st.networks[uid].streams, uses).0)
  {
    if uses != [] {
      BindOwned(st, rows, uid, uses[..|uses| - 1]);
    }
  }

  // ------------------------------------------------------------- keeping sound

  lemma {:induction false} RunMakesData(rows: seq<Row>, p: Packet, world: World, runs: nat)
    ensures var e := Run(rows, p, world, runs); OnlyData(e.up) && OnlyData(e.down)
  {
    if rows != [] {
      RunMakesData(rows[..|rows| - 1], p, world, runs);
    }
  }

  lemma DispatchKeepsSound(st: State, rows: seq<Row>, p: Packet, world: World)
    requires Sound(st)
    ensures Sound(Dispatch(st, rows, p, world).0)
  {
    RunMakesData(WithTag(rows, TagOf(p)), p, world, st.runs);
  }

  lemma NamingKeepsSound(st: State, uid: int, names: seq<string>, tags: seq<int>)
    requires Sound(st) && Good(SpecifyNamedStreams(uid, names, tags))
    ensures Sound(NameStreams(st, uid, names, tags))
  {
    if |names| == |tags| { InsertedIsProper(names, tags); }
  }

  lemma SpecifyingKeepsSound(st: State, uid: int, spec: FilterSpec, topo: Topology)
    requires Sound(st)
    ensures Sound(Specify(st, uid, spec, topo))
  {
    hide SelectedBy, Proper, Bind;
    if uid in st.networks {
      var net := st.networks[uid];
      var built := st.(networks := st.networks[uid := net.(phase := Built(spec))]);
      assert Owned(built, st.upRows) && Owned(built, st.downRows);
      BindOwned(built, st.upRows, uid, spec.fromBelow);
      BindOwned(built, st.downRows, uid, spec.fromAbove);
    }
  }

  lemma DestroyingKeepsSound(st: State, uid: int)
    requires Sound(st)
    ensures Sound(Destroy(st, uid))
  {
    hide Proper;
    var after := Destroy(st, uid);
    WithoutUidKeeps(st.upRows, uid);
    WithoutUidKeeps(st.downRows, uid);
    OwnedByMember(st, st.upRows);
    OwnedByMember(st, st.downRows);
    OwnedByMember(after, after.upRows);
    OwnedByMember(after, after.downRows);
  }

  lemma HandlingKeepsSound(st: State, p: Packet, topo: Topology, world: World)
    requires Sound(st) && Good(p)
    ensures Sound(HandleDown(st, p, topo, world).0)
  {
    hide Sound, Good, Specify, NameStreams, Destroy, Dispatch;
    match p
    case SpecifyNamedStreams(uid, names, tags) => NamingKeepsSound(st, uid, names, tags);
    case SpecifyFilter(uid, spec) => SpecifyingKeepsSound(st, uid, spec, topo);
    case DestroyNetwork(uid) => DestroyingKeepsSound(st, uid);
    case _ => DispatchKeepsSound(st, st.downRows, p, world);
  }

  lemma {:induction false} BatchKeepsSound(st: State, batch: seq<Packet>, topo: Topology, world: World)
    requires Sound(st) && forall i :: 0 <= i < |batch| ==> Good(batch[i])
    ensures Sound(DownBatch(st, batch, topo, world).0)
  {
    hide Sound, Good, HandleDown;
    if batch != [] {
      BatchKeepsSound(st, batch[..|batch| - 1], topo, world);
      HandlingKeepsSound(DownBatch(st, batch[..|batch| - 1], topo, world).0, batch[|batch| - 1], topo, world);
    }
  }

  lemma {:induction false} UpBatchKeepsSound(st: State, batch: seq<Packet>, world: World)
    requires Sound(st)
    ensures Sound(UpBatch(st, batch, world).0)
  {
    hide Sound, Dispatch;
    if batch != [] {
      UpBatchKeepsSound(st, batch[..|batch| - 1], world);
      var st1 := UpBatch(st, batch[..|batch| - 1], world).0;
      DispatchKeepsSound(st1, st1.upRows, batch[|batch| - 1], world);
    }
  }

  // ----------------------------------------------------------- control packets

  function Control(ps: seq<Packet>): seq<Packet> {
    if ps == [] then []
    else Control(ps[..|ps| - 1]) + if ps[|ps| - 1].Data? then [] else [ps[|ps| - 1]]
  }

  lemma {:induction false} ControlConcat(a: seq<Packet>, b: seq<Packet>)
    ensures Control(a + b) == Control(a) + Control(b)
  {
    if b == [] {
      assert a + b == a;
    } else {
      var n := |b| - 1;
      ControlConcat(a, b[..n]);
      assert (a + b)[..|a| + n] == a + b[..n];
    }
  }

  lemma {:induction false} NoControl(ps: seq<Packet>)
    requires OnlyData(ps)
    ensures Control(ps) == []
  {
    if ps != [] {
      NoControl(ps[..|ps| - 1]);
    }
  }

  lemma OwnedTagsAreProper(st: State, rows: seq<Row>)
    requires Owned(st, rows) && ProperNetworks(st)
    ensures forall k :: 0 <= k < |rows| ==> rows[k].tag >= FIRST_NAMED_STREAM_TAG
  {
    forall k | 0 <= k < |rows| ensures rows[k].tag >= FIRST_NAMED_STREAM_TAG {
      assert Proper(st.networks[rows[k].uid].streams);
    }
  }

  lemma {:induction false} NoSuchTag(rows: seq<Row>, tag: int)
    requires forall k :: 0 <= k < |rows| ==> rows[k].tag != tag
    ensures WithTag(rows, tag) == []
  {
    if rows != [] {
      NoSuchTag(rows[..|rows| - 1], tag);
    }
  }

  /** No handler is ever found for a control tag: the tags are disjoint. */
  lemma ControlIsForwarded(st: State, p: Packet, topo: Topology, world: World)
    requires Sound(st) && !p.Data?
    ensures !HandleDown(st, p, topo, world).1
  {
    hide Specify, NameStreams, Destroy, Run;
    OwnedTagsAreProper(st, st.downRows);
    NoSuchTag(st.downRows, TagOf(p));
  }

  /** A downstream call passes on exactly the control packets it was given. */
  lemma {:induction false} BatchForwardsControl(st: State, batch: seq<Packet>, topo: Topology, world: World)
    requires Sound(st) && forall i :: 0 <= i < |batch| ==> Good(batch[i])
    ensures Control(DownBatch(st, batch, topo, world).1) == Control(batch)
  {
    hide Sound, Good, HandleDown;
    if batch != [] {
      var front, p := batch[..|batch| - 1], batch[|batch| - 1];
      BatchForwardsControl(st, front, topo, world);
      BatchKeepsSound(st, front, topo, world);
      var (st1, forward) := DownBatch(st, front, topo, world);
      if !p.Data? { ControlIsForwarded(st1, p, topo, world); }
      ControlConcat(forward, [p]);
      assert [p][..0] == [];
    }
  }

  lemma CallForwardsControl(st: State, batch: seq<Packet>, topo: Topology, world: World)
    requires Sound(st) && forall i :: 0 <= i < |batch| ==> Good(batch[i])
    ensures Sound(DownCall(st, batch, topo, world).state)
    ensures Control(DownCall(st, batch, topo, world).down) == Control(batch)
  {
    BatchKeepsSound(st, batch, topo, world);
    BatchForwardsControl(st, batch, topo, world);
    var (st1, forward) := DownBatch(st, batch, topo, world);
    NoControl(st1.downQueue);
    ControlConcat(st1.downQueue, forward);
  }

  lemma UpCallSendsData(st: State, batch: seq<Packet>, world: World)
    requires Sound(st)
    ensures Sound(UpCall(st, batch, world).state)
    ensures OnlyData(UpCall(st, batch, world).down)
  {
    UpBatchKeepsSound(st, batch, world);
  }

  // ------------------------------------------------ handled or forwarded, in order

  function Handle(st: State, p: Packet, travel: Way, topo: Topology, world: World): (State, bool) {
    if travel == Up then Dispatch(st, st.upRows, p, world) else HandleDown(st, p, topo, world)
  }

  /** For each packet of a batch, whether it is handled. */
  function Handled(st: State, batch: seq<Packet>, travel: Way, topo: Topology, world: World): (r: seq<bool>)
    ensures |r| == |batch|
  {
    if batch == [] then []
    else
      var front := batch[..|batch| - 1];
      var st1 := Batch(st, front, travel, topo, world).0;
      Handled(st, front, travel, topo, world) + [Handle(st1, batch[|batch| - 1], travel, topo, world).1]
  }

  function Unhandled(batch: seq<Packet>, handled: seq<bool>): seq<Packet>
    requires |handled| == |batch|
  {
    if batch == [] then []
    else
      Unhandled(batch[..|batch| - 1], handled[..|batch| - 1]) +
      if handled[|batch| - 1] then [] else [batch[|batch| - 1]]
  }

  /** In both directions, a batch forwards exactly the packets that were not handled,
      in order of arrival. */
  lemma {:induction false} ForwardsTheRest(st: State, batch: seq<Packet>, travel: Way, topo: Topology, world: World)
    ensures Batch(st, batch, travel, topo, world).1 == Unhandled(batch, Handled(st, batch, travel, topo, world))
  {
    hide HandleDown, Dispatch;
    if batch != [] {
      var front := batch[..|batch| - 1];
      ForwardsTheRest(st, front, travel, topo, world);
      assert Handled(st, batch, travel, topo, world)[..|batch| - 1] == Handled(st, front, travel, topo, world);
    }
  }

  // ---------------------------------------------------------- the packet queues

  datatype Action =
    | PushUp(tag: int, body: int)
    | PushDown(tag: int, body: int)
    | CallUp(batch: seq<Packet>)
    | CallDown(batch: seq<Packet>)

  function Act(st: State, a: Action, topo: Topology, world: World): Result {
    match a
    case PushUp(tag, body) => Result(st.(upQueue := st.upQueue + [Data(tag, body)]), [], [])
    case PushDown(tag, body) => Result(st.(downQueue := st.downQueue + [Data(tag, body)]), [], [])
    case CallUp(batch) => UpCall(st, batch, world)
    case CallDown(batch) => DownCall(st, batch, topo, world)
  }

  function Acts(st: State, actions: seq<Action>, topo: Topology, world: World): State {
    if actions == [] then st
    else Act(Acts(st, actions[..|actions| - 1], topo, world), actions[|actions| - 1], topo, world).state
  }

  datatype Way = Up | Down

  function Queue(st: State, way: Way): seq<Packet> {
    if way == Up then st.upQueue else st.downQueue
  }

  function Out(r: Result, way: Way): seq<Packet> {
    if way == Up then r.up else r.down
  }

  /** The state after a batch that travels `travel`, and what it forwards. */
  function Batch(st: State, batch: seq<Packet>, travel: Way, topo: Topology, world: World): (State, seq<Packet>) {
    if travel == Up then UpBatch(st, batch, world) else DownBatch(st, batch, topo, world)
  }

  /** What the handlers of one packet send; configuration packets have none. */
  function HandlersSend(st: State, p: Packet, travel: Way, way: Way, world: World): seq<Packet> {
    if travel == Down && (p.SpecifyNamedStreams? || p.SpecifyFilter? || p.DestroyNetwork?) then []
    else
      var e := Run(WithTag(if travel == Up then st.upRows else st.downRows, TagOf(p)), p, world, st.runs);
      if way == Up then e.up else e.down
  }

  /** The packets that handlers send one way while a batch is processed. */
  function Sent(st: State, batch: seq<Packet>, travel: Way, way: Way, topo: Topology, world: World): seq<Packet> {
    if batch == [] then []
    else
      var front := batch[..|batch| - 1];
      Sent(st, front, travel, way, topo, world) +
      HandlersSend(Batch(st, front, travel, topo, world).0, batch[|batch| - 1], travel, way, world)
  }

  lemma HandleQueues(st: State, p: Packet, way: Way, topo: Topology, world: World)
    ensures Queue(HandleDown(st, p, topo, world).0, way) == Queue(st, way) + HandlersSend(st, p, Down, way, world)
    ensures Queue(Dispatch(st, st.upRows, p, world).0, way) == Queue(st, way) + HandlersSend(st, p, Up, way, world)
  {
    hide Run, WithTag, SelectedBy, Bind, WithoutUid;
  }

  lemma Grow(left: seq<Packet>, queue: seq<Packet>, start: seq<Packet>, queued: seq<Packet>, more: seq<Packet>)
    requires left + queue == start + queued
    ensures left + (queue + more) == start + (queued + more)
  {
    assert left + (queue + more) == (left + queue) + more;
    assert start + (queued + more) == (start + queued) + more;
  }

  lemma {:induction false} BatchQueues(st: State, batch: seq<Packet>, travel: Way, way: Way,
                                       topo: Topology, world: World)
    ensures Queue(Batch(st, batch, travel, topo, world).0, way) ==
            Queue(st, way) + Sent(st, batch, travel, way, topo, world)
  {
    hide HandlersSend, HandleDown, Dispatch;
    if batch != [] {
      var front, p := batch[..|batch| - 1], batch[|batch| - 1];
      BatchQueues(st, front, travel, way, topo, world);
      var st1 := Batch(st, front, travel, topo, world).0;
      HandleQueues(st1, p, way, topo, world);
      Grow([], Queue(st1, way), Queue(st, way), Sent(st, front, travel, way, topo, world),
           HandlersSend(st1, p, travel, way, world));
    }
  }

  /** What one action puts on a queue: a push, or the handlers' sends. */
  function NewOn(st: State, a: Action, way: Way, topo: Topology, world: World): seq<Packet> {
    match a
    case PushUp(tag, body) => if way == Up then [Data(tag, body)] else []
    case PushDown(tag, body) => if way == Down then [Data(tag, body)] else []
    case CallUp(batch) => Sent(st, batch, Up, way, topo, world)
    case CallDown(batch) => Sent(st, batch, Down, way, topo, world)
  }

  /** Every packet put on a queue, in order. */
  function Queued(st: State, actions: seq<Action>, way: Way, topo: Topology, world: World): seq<Packet> {
    if actions == [] then []
    else
      var front, a := actions[..|actions| - 1], actions[|actions| - 1];
      Queued(st, front, way, topo, world) + NewOn(Acts(st, front, topo, world), a, way, topo, world)
  }

  /** What one action sends one way, less what it merely forwards that way. */
  function Flushed(st: State, a: Action, way: Way, topo: Topology, world: World): seq<Packet> {
    var out := Out(Act(st, a, topo, world), way);
    if a.CallUp? && way == Up then FromQueue(out, UpBatch(st, a.batch, world).1)
    else if a.CallDown? && way == Down then FromQueue(out, DownBatch(st, a.batch, topo, world).1)
    else out
  }

  /** The part of an output in front of the forwarded packets. */
  function FromQueue(out: seq<Packet>, forward: seq<Packet>): seq<Packet> {
    if |forward| <= |out| then out[..|out| - |forward|] else []
  }

  function Left(st: State, actions: seq<Action>, way: Way, topo: Topology, world: World): seq<Packet> {
    if actions == [] then []
    else
      var front, a := actions[..|actions| - 1], actions[|actions| - 1];
      Left(st, front, way, topo, world) + Flushed(Acts(st, front, topo, world), a, way, topo, world)
  }

  /** Each packet put on a queue leaves exactly once, in the order of queueing,
      over any interleaving of pushes and filter calls. */
  lemma {:induction false} QueueConserved(st: State, actions: seq<Action>, way: Way, topo: Topology, world: World)
    ensures Left(st, actions, way, topo, world) + Queue(Acts(st, actions, topo, world), way) ==
            Queue(st, way) + Queued(st, actions, way, topo, world)
  {
    if actions != [] {
      var front, a := actions[..|actions| - 1], actions[|actions| - 1];
      QueueConserved(st, front, way, topo, world);
      ActConserves(Acts(st, front, topo, world), a, way, Left(st, front, way, topo, world), Queue(st, way),
                   Queued(st, front, way, topo, world), topo, world);
    }
  }

  lemma ActConserves(st: State, a: Action, way: Way, left: seq<Packet>, start: seq<Packet>, queued: seq<Packet>,
                     topo: Topology, world: World)
    requires left + Queue(st, way) == start + queued
    ensures (left + Flushed(st, a, way, topo, world)) + Queue(Act(st, a, topo, world).state, way) ==
            start + (queued + NewOn(st, a, way, topo, world))
  {
    hide UpBatch, DownBatch, Sent;
    var more := NewOn(st, a, way, topo, world);
    Grow(left, Queue(st, way), start, queued, more);
    if a.CallUp? || a.CallDown? {
      var travel := if a.CallUp? then Up else Down;
      BatchQueues(st, a.batch, travel, way, topo, world);
      FlushedPart(Queue(st, way), more, Batch(st, a.batch, travel, topo, world).1);
      assert Flushed(st, a, way, topo, world) == Queue(st, way) + more;
      assert (left + (Queue(st, way) + more)) + [] == left + (Queue(st, way) + more);
    } else {
      assert left + [] == left && Queue(st, way) + [] == Queue(st, way);
    }
  }

  lemma FlushedPart(queue: seq<Packet>, sent: seq<Packet>, forward: seq<Packet>)
    ensures FromQueue(queue + sent + forward, forward) == queue + sent
  {
  }

  // ------------------------------------------------------------------ isolation

  /** No two networks share a tag. */
  ghost predicate DisjointTags(st: State) {
    forall u, v, a, b ::
      (u in st.networks && v in st.networks && a in st.networks[u].streams && b in st.networks[v].streams
       && st.networks[u].streams[a] == st.networks[v].streams[b]) ==> u == v
  }

  /** Dispatch never looks at the owner, and yet all handlers it runs for a tag
      belong to the one network that owns the tag. */
  lemma OneOwner(st: State, rows: seq<Row>, tag: int, r: Row, q: Row)
    requires Owned(st, rows) && DisjointTags(st)
    requires r in WithTag(rows, tag) && q in WithTag(rows, tag)
    ensures r.uid == q.uid && r.uid in st.networks && tag in st.networks[r.uid].streams.Values
  {
    WithTagKeeps(rows, tag);
    OwnedByMember(st, rows);
    assert OwnedRow(st, r) && OwnedRow(st, q);
    assert r.name in st.networks[r.uid].streams && q.name in st.networks[q.uid].streams;
  }

  lemma {:induction false} BatchStaysDestroyed(st: State, batch: seq<Packet>, topo: Topology, world: World, uid: int)
    requires uid !in st.networks
    requires forall i :: 0 <= i < |batch| ==> !(batch[i].SpecifyNamedStreams? && batch[i].uid == uid)
    ensures uid !in DownBatch(st, batch, topo, world).0.networks
  {
    hide Run, WithTag, SelectedBy, Bind, WithoutUid;
    if batch != [] {
      BatchStaysDestroyed(st, batch[..|batch| - 1], topo, world, uid);
    }
  }

  lemma {:induction false} UpBatchKeepsNetworks(st: State, batch: seq<Packet>, world: World)
    ensures UpBatch(st, batch, world).0.networks == st.networks
  {
    hide Run, WithTag;
    if batch != [] { UpBatchKeepsNetworks(st, batch[..|batch| - 1], world); }
  }

  /** No downstream call among the actions names the network's streams again. */
  ghost predicate NeverNamed(actions: seq<Action>, uid: int) {
    forall a, i :: (a in actions && a.CallDown? && 0 <= i < |a.batch|) ==>
                     !(a.batch[i].SpecifyNamedStreams? && a.batch[i].uid == uid)
  }

  ghost predicate GoodActions(actions: seq<Action>) {
    forall a, i :: a in actions && a.CallDown? && 0 <= i < |a.batch| ==> Good(a.batch[i])
  }

  lemma ActStaysDestroyed(st: State, a: Action, topo: Topology, world: World, uid: int)
    requires uid !in st.networks && NeverNamed([a], uid)
    ensures uid !in Act(st, a, topo, world).state.networks
  {
    hide DownBatch, UpBatch;
    assert a in [a];
    if a.CallUp? { UpBatchKeepsNetworks(st, a.batch, world); }
    if a.CallDown? { BatchStaysDestroyed(st, a.batch, topo, world, uid); }
  }

  /** Whatever the filter is told, called with or made to queue, a network that is gone
      stays gone until its streams are named again. */
  lemma {:induction false} StaysDestroyed(st: State, actions: seq<Action>, topo: Topology, world: World, uid: int)
    requires uid !in st.networks && NeverNamed(actions, uid)
    ensures uid !in Acts(st, actions, topo, world).networks
  {
    hide Act;
    if actions != [] {
      var front, a := actions[..|actions| - 1], actions[|actions| - 1];
      assert NeverNamed(front, uid) by { assert forall x :: x in front ==> x in actions; }
      StaysDestroyed(st, front, topo, world, uid);
      ActStaysDestroyed(Acts(st, front, topo, world), a, topo, world, uid);
    }
  }

  lemma ActKeepsSound(st: State, a: Action, topo: Topology, world: World)
    requires Sound(st) && GoodActions([a])
    ensures Sound(Act(st, a, topo, world).state)
  {
    hide DownBatch, UpBatch, Good;
    assert a in [a];
    match a
    case PushUp(_, _) =>
    case PushDown(_, _) =>
    case CallUp(batch) => UpCallSendsData(st, batch, world);
    case CallDown(batch) => CallForwardsControl(st, batch, topo, world);
  }

  lemma {:induction false} ActsKeepSound(st: State, actions: seq<Action>, topo: Topology, world: World)
    requires Sound(st) && GoodActions(actions)
    ensures Sound(Acts(st, actions, topo, world))
  {
    hide Act, Sound, Good;
    if actions != [] {
      var front, a := actions[..|actions| - 1], actions[|actions| - 1];
      assert GoodActions(front) by { assert forall x :: x in front ==> x in actions; }
      ActsKeepSound(st, front, topo, world);
      ActKeepsSound(Acts(st, front, topo, world), a, topo, world);
    }
  }

  /** After a network is destroyed, no later snapshot contains one of its handlers:
      not after any further calls in either direction and any pushes in between. */
  lemma DestroyedNeverRuns(st: State, uid: int, actions: seq<Action>, topo: Topology, world: World, tag: int, r: Row)
    requires Sound(st) && GoodActions(actions) && NeverNamed(actions, uid)
    requires var after := Acts(Destroy(st, uid), actions, topo, world);
             r in WithTag(after.upRows, tag) || r in WithTag(after.downRows, tag)
    ensures r.uid != uid
  {
    hide Acts;
    var gone := Destroy(st, uid);
    var after := Acts(gone, actions, topo, world);
    DestroyingKeepsSound(st, uid);
    ActsKeepSound(gone, actions, topo, world);
    StaysDestroyed(gone, actions, topo, world, uid);
    WithTagKeeps(after.upRows, tag);
    WithTagKeeps(after.downRows, tag);
    OwnedByMember(after, after.upRows);
    OwnedByMember(after, after.downRows);
    assert OwnedRow(after, r);
  }

  // -------------------------------------------------------- which filter is built

  /** The specifications of one network, in order of arrival. */
  function SpecsFor(batch: seq<Packet>, uid: int): seq<FilterSpec> {
    if batch == [] then []
    else
      var p := batch[|batch| - 1];
      SpecsFor(batch[..|batch| - 1], uid) + if p.SpecifyFilter? && p.uid == uid then [p.spec] else []
  }

  function PhaseFor(specs: seq<FilterSpec>, topo: Topology): Phase {
    match Pick(specs, topo)
    case None => Named
    case Some(i) => if i < |specs| && specs[i].loads then Built(specs[i]) else Broken
  }

  /** Everything that came down to a filter, in order. */
  function Told(actions: seq<Action>): seq<Packet> {
    if actions == [] then []
    else
      var a := actions[|actions| - 1];
      Told(actions[..|actions| - 1]) + if a.CallDown? then a.batch else []
  }

  /** A node with its streams named builds at most one network per identifier: the
      first specification that takes it, and nothing else ever, whatever else it is
      called with or made to queue, until it is told to destroy the network. */
  lemma {:induction false} BuildsThePick(st: State, actions: seq<Action>, topo: Topology, world: World, uid: int)
    requires uid in st.networks && st.networks[uid].phase == Named
    requires DestroyNetwork(uid) !in Told(actions)
    ensures var after := Acts(st, actions, topo, world);
            uid in after.networks && after.networks[uid].streams == st.networks[uid].streams
            && after.networks[uid].phase == PhaseFor(SpecsFor(Told(actions), uid), topo)
  {
    hide DownBatch, UpBatch, PhaseFor;
    if actions == [] {
      NothingPicked(topo, uid);
    } else {
      var front, a := actions[..|actions| - 1], actions[|actions| - 1];
      BuildsThePick(st, front, topo, world, uid);
      var st1 := Acts(st, front, topo, world);
      assert Told(front) + [] == Told(front);
      if a.CallUp? { UpBatchKeepsNetworks(st1, a.batch, world); }
      if a.CallDown? { BatchBuilds(st1, Told(front), a.batch, topo, world, uid); }
    }
  }

  lemma NothingPicked(topo: Topology, uid: int)
    ensures PhaseFor(SpecsFor([], uid), topo) == Named
  {
  }

  lemma {:induction false} BatchBuilds(st: State, told: seq<Packet>, batch: seq<Packet>,
                                       topo: Topology, world: World, uid: int)
    requires uid in st.networks && st.networks[uid].phase == PhaseFor(SpecsFor(told, uid), topo)
    requires DestroyNetwork(uid) !in batch
    ensures var after := DownBatch(st, batch, topo, world).0;
            uid in after.networks && after.networks[uid].streams == st.networks[uid].streams
            && after.networks[uid].phase == PhaseFor(SpecsFor(told + batch, uid), topo)
  {
    hide HandleDown, PhaseFor, SpecsFor;
    if batch == [] {
      assert told + batch == told;
    } else {
      var front, p := batch[..|batch| - 1], batch[|batch| - 1];
      BatchBuilds(st, told, front, topo, world, uid);
      var st1 := DownBatch(st, front, topo, world).0;
      assert (told + front) + [p] == told + batch;
      SpecsSnoc(told + front, p, uid);
      if p.SpecifyFilter? && p.uid == uid {
        OneMore(st1, uid, p.spec, SpecsFor(told + front, uid), topo, world);
      } else {
        LeavesAlone(st1, p, topo, world, uid);
      }
    }
  }

  lemma SpecsSnoc(before: seq<Packet>, p: Packet, uid: int)
    ensures SpecsFor(before + [p], uid) ==
            if p.SpecifyFilter? && p.uid == uid then SpecsFor(before, uid) + [p.spec] else SpecsFor(before, uid)
  {
    assert (before + [p])[..|before|] == before;
    assert SpecsFor(before, uid) + [] == SpecsFor(before, uid);
  }

  lemma LeavesAlone(st: State, p: Packet, topo: Topology, world: World, uid: int)
    requires uid in st.networks && p != DestroyNetwork(uid) && !(p.SpecifyFilter? && p.uid == uid)
    ensures var after := HandleDown(st, p, topo, world).0;
            uid in after.networks && after.networks[uid] == st.networks[uid]
  {
    hide Run, WithTag, Bind, WithoutUid, SelectedBy;
  }

  lemma PickMore(specs: seq<FilterSpec>, spec: FilterSpec, topo: Topology)
    ensures PhaseFor(specs + [spec], topo) ==
            if Pick(specs, topo).Some? || !Takes(spec, topo) then PhaseFor(specs, topo)
            else if spec.loads then Built(spec) else Broken
    ensures Pick(specs, topo) == None <==> PhaseFor(specs, topo) == Named
  {
    hide Takes;
    PickIsFirst(specs, topo);
    assert (specs + [spec])[..|specs|] == specs;
  }

  lemma OneMore(st: State, uid: int, spec: FilterSpec, specs: seq<FilterSpec>, topo: Topology, world: World)
    requires uid in st.networks && st.networks[uid].phase == PhaseFor(specs, topo)
    ensures var after := HandleDown(st, SpecifyFilter(uid, spec), topo, world).0;
            uid in after.networks && after.networks[uid].streams == st.networks[uid].streams
            && after.networks[uid].phase == PhaseFor(specs + [spec], topo)
  {
    assert Takes(spec, topo) == SelectedBy(spec.depths, topo, false);
    PickMore(specs, spec, topo);
    hide Bind, SelectedBy, Takes, Pick;
  }
}
