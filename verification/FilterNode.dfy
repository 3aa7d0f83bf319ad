/** One filter process of the tree: its networks, its handler tables and its two
    outgoing packet queues, as a value that each call maps to the next. */
module FilterNode {
  import opened StreamTags
  import opened DepthGrammar
  import opened DepthSelection

  // ------------------------------------------------------------------- packets

  /** One `<Backend>`; `loads` says whether its network can be instantiated. */
  datatype BackendSpec = BackendSpec(id: int, loads: bool, fromAbove: seq<Incoming>)

  datatype Packet =
    | EstablishUpstream
    | RequestShutdown
    | SpecifyNamedStreams(uid: int, names: seq<string>, tags: seq<int>)
    | SpecifyBackend(uid: int, backend: BackendSpec)
    | SpecifyFilter(uid: int, spec: FilterSpec)
    | DestroyNetwork(uid: int)
    | NetworkReady(uid: int)
    | Data(tag: int, body: int)

  function TagOf(p: Packet): int {
    match p
    case EstablishUpstream => ESTABLISH_UPSTREAM
    case RequestShutdown => REQUEST_SHUTDOWN
    case SpecifyNamedStreams(_, _, _) => SPECIFY_NAMED_STREAMS
    case SpecifyBackend(_, _) => SPECIFY_BACKEND
    case SpecifyFilter(_, _) => SPECIFY_FILTER
    case DestroyNetwork(_) => DESTROY_NETWORK
    case NetworkReady(_) => NETWORK_READY
    case Data(tag, _) => tag
  }

  // --------------------------------------------------------------------- state

  /** A local network: its streams only, broken off, or complete. */
  datatype Phase = Named | Broken | Built(spec: FilterSpec)

  datatype Net = Net(streams: Tags, phase: Phase)

  datatype Row = Row(uid: int, tag: int, name: string)

  datatype State = State(networks: map<int, Net>, upRows: seq<Row>, downRows: seq<Row>,
                         upQueue: seq<Packet>, downQueue: seq<Packet>, runs: nat)

  const FRESH := State(map[], [], [], [], [], 0)

  /** What a handler does to a packet: what the component network sends up and
      down, as tagged bodies, and whether it throws. */
  datatype Reaction = Reaction(up: seq<(int, int)>, down: seq<(int, int)>, threw: bool)

  /** The component networks: any function of the handler, the packet, and the
      number of handler runs so far. */
  type World = (Row, Packet, nat) -> Reaction

  function AsData(xs: seq<(int, int)>): (r: seq<Packet>)
    ensures |r| == |xs|
    ensures forall i :: 0 <= i < |r| ==> r[i] == Data(xs[i].0, xs[i].1)
  {
    seq(|xs|, i requires 0 <= i < |xs| => Data(xs[i].0, xs[i].1))
  }

  // ------------------------------------------------------------- handler table

  /** The handlers of a tag, in the order in which they were added. */
  function WithTag(rows: seq<Row>, tag: int): seq<Row> {
    if rows == [] then []
    else
      WithTag(rows[..|rows| - 1], tag) +
      if rows[|rows| - 1].tag == tag then [rows[|rows| - 1]] else []
  }

  function WithoutUid(rows: seq<Row>, uid: int): seq<Row> {
    if rows == [] then []
    else
      WithoutUid(rows[..|rows| - 1], uid) +
      if rows[|rows| - 1].uid != uid then [rows[|rows| - 1]] else []
  }

  /** Binds the incoming streams until one has no tag or no input to go to; `false`
      if there is such a one. */
  function Bind(rows: seq<Row>, uid: int, streams: Tags, uses: seq<Incoming>): (seq<Row>, bool) {
    if uses == [] then (rows, true)
    else
      var (bound, ok) := Bind(rows, uid, streams, uses[..|uses| - 1]);
      var use := uses[|uses| - 1];
      if !ok || use.name !in streams || !use.fits then (bound, false)
      else (bound + [Row(uid, streams[use.name], use.name)], true)
  }

  // ------------------------------------------------------------------ dispatch

  datatype Effect = Effect(up: seq<Packet>, down: seq<Packet>, runs: nat, threw: bool)

  /** Running the handlers of a snapshot one after the other; a throw ends it. */
  function Run(rows: seq<Row>, p: Packet, world: World, runs: nat): Effect {
    if rows == [] then Effect([], [], runs, false)
    else
      var e := Run(rows[..|rows| - 1], p, world, runs);
      if e.threw then e
      else
        var r := world(rows[|rows| - 1], p, e.runs);
        Effect(e.up + AsData(r.up), e.down + AsData(r.down), e.runs + 1, r.threw)
  }

  function After(st: State, e: Effect): State {
    st.(upQueue := st.upQueue + e.up, downQueue := st.downQueue + e.down, runs := e.runs)
  }

  /** Whether a packet counts as handled: some handler ran and none threw. */
  function Dispatch(st: State, rows: seq<Row>, p: Packet, world: World): (State, bool) {
    var snapshot := WithTag(rows, TagOf(p));
    var e := Run(snapshot, p, world, st.runs);
    (After(st, e), !e.threw && snapshot != [])
  }

  // ----------------------------------------------------------- control packets

  function NameStreams(st: State, uid: int, names: seq<string>, tags: seq<int>): State {
    if uid in st.networks then st
    else st.(networks := st.networks[uid := Net(Decode(names, tags), Named)])
  }

  function Specify(st: State, uid: int, spec: FilterSpec, topo: Topology): State {
    if uid !in st.networks then st
    else
      var net := st.networks[uid];
      if !SelectedBy(spec.depths, topo, net.phase.Built?) then st
      else if net.phase != Named then st
      else if !spec.loads then st.(networks := st.networks[uid := net.(phase := Broken)])
      else
        var (up, ok) := Bind(st.upRows, uid, net.streams, spec.fromBelow);
        var down := if ok then Bind(st.downRows, uid, net.streams, spec.fromAbove).0 else st.downRows;
        st.(networks := st.networks[uid := net.(phase := Built(spec))], upRows := up, downRows := down)
  }

  function Destroy(st: State, uid: int): State {
    if uid !in st.networks then st
    else st.(networks := st.networks - {uid},
             upRows := WithoutUid(st.upRows, uid), downRows := WithoutUid(st.downRows, uid))
  }

  // --------------------------------------------------------------- filter calls

  function HandleDown(st: State, p: Packet, topo: Topology, world: World): (State, bool) {
    match p
    case SpecifyNamedStreams(uid, names, tags) => (NameStreams(st, uid, names, tags), false)
    case SpecifyFilter(uid, spec) => (Specify(st, uid, spec, topo), false)
    case DestroyNetwork(uid) => (Destroy(st, uid), false)
    case _ => Dispatch(st, st.downRows, p, world)
  }

  function DownBatch(st: State, batch: seq<Packet>, topo: Topology, world: World): (State, seq<Packet>) {
    if batch == [] then (st, [])
    else
      var (st1, forward) := DownBatch(st, batch[..|batch| - 1], topo, world);
      var (st2, handled) := HandleDown(st1, batch[|batch| - 1], topo, world);
      (st2, if handled then forward else forward + [batch[|batch| - 1]])
  }

  function UpBatch(st: State, batch: seq<Packet>, world: World): (State, seq<Packet>) {
    if batch == [] then (st, [])
    else
      var (st1, forward) := UpBatch(st, batch[..|batch| - 1], world);
      var (st2, handled) := Dispatch(st1, st1.upRows, batch[|batch| - 1], world);
      (st2, if handled then forward else forward + [batch[|batch| - 1]])
  }

  function Flush(st: State): State {
    st.(upQueue := [], downQueue := [])
  }

  datatype Result = Result(state: State, up: seq<Packet>, down: seq<Packet>)

  function DownCall(st: State, batch: seq<Packet>, topo: Topology, world: World): Result {
    var (st1, forward) := DownBatch(st, batch, topo, world);
    Result(Flush(st1), st1.upQueue, st1.downQueue + forward)
  }

  function UpCall(st: State, batch: seq<Packet>, world: World): Result {
    var (st1, forward) := UpBatch(st, batch, world);
    Result(Flush(st1), st1.upQueue + forward, st1.downQueue)
  }

  // ------------------------------------------------------------- the originals

  class HandlerTable {
    var rows: seq<Row>

    constructor ()
      ensures rows == []
    {
      rows := [];
    }

    method Add(row: Row)
      modifies this
      ensures rows == old(rows) + [row]
    {
      rows := rows + [row];
    }

    /** Adds one handler per incoming stream until one cannot be bound. */
    method BindStreams(uid: int, streams: Tags, uses: seq<Incoming>) returns (ok: bool)
      modifies this
      ensures (rows, ok) == Bind(old(rows), uid, streams, uses)
    {
      for i := 0 to |uses|
        invariant (rows, true) == Bind(old(rows), uid, streams, uses[..i])
      {
        assert uses[..i + 1][..i] == uses[..i];
        if uses[i].name !in streams {
          BindBreaksOff(old(rows), uid, streams, uses, i + 1);
          return false;
        }
        if !uses[i].fits {
          BindBreaksOff(old(rows), uid, streams, uses, i + 1);
          return false;
        }
        Add(Row(uid, streams[uses[i].name], uses[i].name));
      }
      assert uses[..|uses|] == uses;
      ok := true;
    }

    method Remove(uid: int)
      modifies this
      ensures rows == WithoutUid(old(rows), uid)
    {
      var kept: seq<Row> := [];
      for i := 0 to |rows|
        invariant rows == old(rows) && kept == WithoutUid(rows[..i], uid)
      {
        assert rows[..i + 1][..i] == rows[..i];
        if rows[i].uid != uid {
          kept := kept + [rows[i]];
        }
      }
      assert rows[..|rows|] == rows;
      rows := kept;
    }

    /** The handlers of a tag at this moment. */
    method Snapshot(tag: int) returns (found: seq<Row>)
      ensures found == WithTag(rows, tag)
    {
      found := [];
      for i := 0 to |rows|
        invariant found == WithTag(rows[..i], tag)
      {
        assert rows[..i + 1][..i] == rows[..i];
        if rows[i].tag == tag {
          found := found + [rows[i]];
        }
      }
      assert rows[..|rows|] == rows;
    }
  }

  class FilterProcess {
    const topo: Topology
    const world: World
    const upTable: HandlerTable
    const downTable: HandlerTable
    var networks: map<int, Net>
    var upQueue: seq<Packet>
    var downQueue: seq<Packet>
    var runs: nat

    ghost predicate Valid()
      reads this, upTable, downTable
    {
      upTable != downTable
    }

    function Now(): State
      reads this, upTable, downTable
    {
      State(networks, upTable.rows, downTable.rows, upQueue, downQueue, runs)
    }

    constructor (topo: Topology, world: World)
      ensures Valid() && fresh(upTable) && fresh(downTable) && Now() == FRESH
      ensures this.topo == topo && this.world == world
    {
      this.topo, this.world := topo, world;
      upTable := new HandlerTable();
      downTable := new HandlerTable();
      networks, upQueue, downQueue, runs := map[], [], [], 0;
    }

    method SendToFrontend(packets: seq<Packet>)
      modifies this`upQueue
      ensures upQueue == old(upQueue) + packets
    {
      upQueue := upQueue + packets;
    }

    method SendToBackends(packets: seq<Packet>)
      modifies this`downQueue
      ensures downQueue == old(downQueue) + packets
    {
      downQueue := downQueue + packets;
    }

    /** Runs a snapshot of the handlers of the packet's tag. */
    method Deliver(table: HandlerTable, p: Packet) returns (handled: bool)
      requires Valid() && (table == upTable || table == downTable)
      modifies this`upQueue, this`downQueue, this`runs
      ensures (Now(), handled) == Dispatch(old(Now()), table.rows, p, world)
    {
      var snapshot := table.Snapshot(TagOf(p));
      var threw := RunHandlers(snapshot, p);
      handled := !threw && snapshot != [];
    }

    method RunHandlers(snapshot: seq<Row>, p: Packet) returns (threw: bool)
      modifies this`upQueue, this`downQueue, this`runs
      ensures var e := Run(snapshot, p, world, old(runs));
              Now() == After(old(Now()), e) && threw == e.threw
    {
      ghost var start, runs0 := Now(), runs;
      for i := 0 to |snapshot|
        invariant !Run(snapshot[..i], p, world, runs0).threw
        invariant Now() == After(start, Run(snapshot[..i], p, world, runs0))
      {
        assert snapshot[..i + 1][..i] == snapshot[..i];
        ghost var e := Run(snapshot[..i], p, world, runs0);
        var r := world(snapshot[i], p, runs);
        SendToFrontend(AsData(r.up));
        SendToBackends(AsData(r.down));
        runs := runs + 1;
        QueuesGrow(start, e, r);
        if r.threw {
          ThrowEnds(snapshot, i + 1, p, world, runs0);
          return true;
        }
      }
      assert snapshot[..|snapshot|] == snapshot;
      threw := false;
    }

    method NameNetworkStreams(uid: int, names: seq<string>, tags: seq<int>)
      modifies this`networks
      ensures Now() == NameStreams(old(Now()), uid, names, tags)
    {
      if uid in networks { return; }
      networks := networks[uid := Net(Decode(names, tags), Named)];
    }

    method SpecifyNetwork(uid: int, spec: FilterSpec)
      requires Valid()
      modifies this`networks, upTable, downTable
      ensures Now() == Specify(old(Now()), uid, spec, topo)
    {
      if uid !in networks { return; }
      var net := networks[uid];
      var selected := net.phase.Built?;
      for i := 0 to |spec.depths|
        invariant Now() == old(Now())
        invariant selected == SelectedBy(spec.depths[..i], topo, net.phase.Built?)
      {
        assert spec.depths[..i + 1][..i] == spec.depths[..i];
        selected := ParseDepth(spec.depths[i], topo, selected);
      }
      assert spec.depths[..|spec.depths|] == spec.depths;
      if !selected { return; }
      if net.phase != Named { return; }
      if !spec.loads {
        networks := networks[uid := net.(phase := Broken)];
        return;
      }
      networks := networks[uid := net.(phase := Built(spec))];
      var ok := upTable.BindStreams(uid, net.streams, spec.fromBelow);
      if ok {
        ok := downTable.BindStreams(uid, net.streams, spec.fromAbove);
      }
    }

    method Discard(uid: int)
      requires Valid()
      modifies this`networks, upTable, downTable
      ensures Now() == Destroy(old(Now()), uid)
    {
      if uid !in networks { return; }
      upTable.Remove(uid);
      downTable.Remove(uid);
      networks := networks - {uid};
    }

    method Receive(p: Packet) returns (handled: bool)
      requires Valid()
      modifies this, upTable, downTable
      ensures (Now(), handled) == HandleDown(old(Now()), p, topo, world)
    {
      handled := false;
      match p
      case SpecifyNamedStreams(uid, names, tags) => NameNetworkStreams(uid, names, tags);
      case SpecifyFilter(uid, spec) => SpecifyNetwork(uid, spec);
      case DestroyNetwork(uid) => Discard(uid);
      case _ => handled := Deliver(downTable, p);
    }

    /** The downstream filter function. Swapping the queues with the outgoing
        vectors discards whatever those held on entry. */
    method DownstreamFilter(batch: seq<Packet>, entryUp: seq<Packet>, entryDown: seq<Packet>)
      returns (up: seq<Packet>, down: seq<Packet>)
      requires Valid()
      modifies this, upTable, downTable
      ensures Result(Now(), up, down) == DownCall(old(Now()), batch, topo, world)
    {
      up, down := entryUp, entryDown;
      var forward: seq<Packet> := [];
      for i := 0 to |batch|
        invariant (Now(), forward) == DownBatch(old(Now()), batch[..i], topo, world)
      {
        assert batch[..i + 1][..i] == batch[..i];
        var handled := Receive(batch[i]);
        if !handled {
          forward := forward + [batch[i]];
        }
      }
      assert batch[..|batch|] == batch;
      upQueue, up := up, upQueue;
      upQueue := [];
      downQueue, down := down, downQueue;
      downQueue := [];
      down := down + forward;
    }

    /** The upstream filter function. */
    method UpstreamFilter(batch: seq<Packet>, entryUp: seq<Packet>, entryDown: seq<Packet>)
      returns (up: seq<Packet>, down: seq<Packet>)
      requires Valid()
      modifies this
      ensures Result(Now(), up, down) == UpCall(old(Now()), batch, world)
    {
      up, down := entryUp, entryDown;
      var forward: seq<Packet> := [];
      for i := 0 to |batch|
        invariant (Now(), forward) == UpBatch(old(Now()), batch[..i], world)
      {
        assert batch[..i + 1][..i] == batch[..i];
        var handled := Deliver(upTable, batch[i]);
        if !handled {
          forward := forward + [batch[i]];
        }
      }
      assert batch[..|batch|] == batch;
      upQueue, up := up, upQueue;
      upQueue := [];
      downQueue, down := down, downQueue;
      downQueue := [];
      up := up + forward;
    }
  }

  lemma QueuesGrow(st: State, e: Effect, r: Reaction)
    ensures After(st, Effect(e.up + AsData(r.up), e.down + AsData(r.down), e.runs + 1, r.threw)) ==
            State(st.networks, st.upRows, st.downRows, (st.upQueue + e.up) + AsData(r.up),
                  (st.downQueue + e.down) + AsData(r.down), e.runs + 1)
  {
  }

  lemma {:induction false} ThrowEnds(rows: seq<Row>, i: nat, p: Packet, world: World, runs: nat)
    requires i <= |rows| && Run(rows[..i], p, world, runs).threw
    ensures Run(rows, p, world, runs) == Run(rows[..i], p, world, runs)
    decreases |rows|
  {
    if i < |rows| {
      assert rows[..|rows| - 1][..i] == rows[..i];
      ThrowEnds(rows[..|rows| - 1], i, p, world, runs);
    } else {
      assert rows[..i] == rows;
    }
  }

  lemma {:induction false} BindBreaksOff(rows: seq<Row>, uid: int, streams: Tags, uses: seq<Incoming>, i: nat)
    requires i <= |uses| && !Bind(rows, uid, streams, uses[..i]).1
    ensures Bind(rows, uid, streams, uses) == Bind(rows, uid, streams, uses[..i])
    decreases |uses|
  {
    if i < |uses| {
      assert uses[..|uses| - 1][..i] == uses[..i];
      BindBreaksOff(rows, uid, streams, uses[..|uses| - 1], i);
    } else {
      assert uses[..i] == uses;
    }
  }
}
