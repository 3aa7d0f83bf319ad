/** Configuration messages on their way down a tree of any shape: every parent and
    child are joined by a queue that keeps order. */
module TreeProtocol {
  import opened Wrappers
  import opened StreamTags
  import opened DepthGrammar
  import opened FilterNode
  import opened FilterRuns
  import opened HandlerRows
  import opened Scripts

  /** Node 0 is the frontend's filter; the parent of every other node comes before
      it. Backends are leaves. */
  datatype Tree = Tree(parents: seq<nat>, isBackend: seq<bool>, topos: seq<Topology>, worlds: seq<World>)

  ghost predicate IsTree(t: Tree) {
    && 0 < |t.parents| == |t.isBackend| == |t.topos| == |t.worlds|
    && !t.isBackend[0]
    && forall c :: 0 < c < |t.parents| ==> t.parents[c] < c && !t.isBackend[t.parents[c]]
  }

  /** What the frontend has sent; and per node, its queue, the messages it has
      processed, and its state. */
  datatype System = System(sent: seq<Packet>, inbox: seq<seq<Packet>>, done: seq<seq<Packet>>,
                           filters: seq<State>, backends: seq<Backend.Process>)

  datatype Event =
    | Send(p: Packet)
    | Process(n: nat, count: nat)
    | Upstream(n: nat, batch: seq<Packet>)
    | Push(n: nat, tag: int, body: int, down: bool)

  function Initial(t: Tree): System {
    var size := |t.parents|;
    System([], seq(size, i => []), seq(size, i => []), seq(size, i => FRESH), seq(size, i => Backend.IDLE))
  }

  /** The queues after a node has sent something to all its children. */
  function Deliver(t: Tree, inbox: seq<seq<Packet>>, n: nat, ps: seq<Packet>): (r: seq<seq<Packet>>)
    requires |inbox| <= |t.parents|
    ensures |r| == |inbox|
    ensures forall c :: 0 <= c < |inbox| ==>
              r[c] == if c > 0 && t.parents[c] == n then inbox[c] + ps else inbox[c]
  {
    seq(|inbox|, c requires 0 <= c < |inbox| =>
      if c > 0 && t.parents[c] == n then inbox[c] + ps else inbox[c])
  }

  ghost predicate Sized(t: Tree, s: System) {
    |s.inbox| == |s.done| == |s.filters| == |s.backends| == |t.parents|
  }

  function Next(t: Tree, s: System, e: Event): System
    requires IsTree(t) && Sized(t, s)
  {
    match e
    case Send(p) => s.(sent := s.sent + [p], inbox := s.inbox[0 := s.inbox[0] + [p]])
    case Process(n, count) =>
      if n >= |t.parents| || count > |s.inbox[n]| then s
      else
        var batch := s.inbox[n][..count];
        var taken := s.inbox[n := s.inbox[n][count..]];
        var done := s.done[n := s.done[n] + batch];
        if t.isBackend[n] then
          s.(inbox := taken, done := done,
             backends := s.backends[n := Backend.Steps(s.backends[n], batch)])
        else
          var r := DownCall(s.filters[n], batch, t.topos[n], t.worlds[n]);
          s.(inbox := Deliver(t, taken, n, r.down), done := done, filters := s.filters[n := r.state])
    case Upstream(n, batch) =>
      if n >= |t.parents| || t.isBackend[n] then s
      else
        var r := UpCall(s.filters[n], batch, t.worlds[n]);
        s.(inbox := Deliver(t, s.inbox, n, r.down), filters := s.filters[n := r.state])
    case Push(n, tag, body, down) =>
      if n >= |t.parents| || t.isBackend[n] then s
      else
        var a := if down then PushDown(tag, body) else PushUp(tag, body);
        s.(filters := s.filters[n := Act(s.filters[n], a, t.topos[n], t.worlds[n]).state])
  }

  lemma NextKeepsSize(t: Tree, s: System, e: Event)
    requires IsTree(t) && Sized(t, s)
    ensures Sized(t, Next(t, s, e))
  {
    hide DownCall, UpCall;
  }

  function After(t: Tree, events: seq<Event>): (s: System)
    requires IsTree(t)
    ensures Sized(t, s)
  {
    if events == [] then Initial(t)
    else
      var s := After(t, events[..|events| - 1]);
      NextKeepsSize(t, s, events[|events| - 1]);
      Next(t, s, events[|events| - 1])
  }

  // ------------------------------------------------------------- the invariant

  ghost predicate AllGood(ps: seq<Packet>) {
    forall i :: 0 <= i < |ps| ==> Good(ps[i])
  }

  /** What a node has been given so far, by its parent or by the frontend. */
  function Source(t: Tree, s: System, n: nat): seq<Packet>
    requires IsTree(t) && Sized(t, s) && n < |t.parents|
  {
    if n == 0 then s.sent else s.done[t.parents[n]]
  }

  /** Control messages a node has processed, followed by those in its queue, are
      the control messages its source has processed. */
  ghost predicate Flows(t: Tree, s: System, n: nat)
    requires IsTree(t) && Sized(t, s) && n < |t.parents|
  {
    Control(s.done[n]) + Control(s.inbox[n]) == Control(Source(t, s, n))
  }

  /** A filter's networks are what a log of messages makes of them, and its handlers are
      what its networks ask for. */
  ghost predicate FollowsLog(st: State, log: seq<Packet>, topo: Topology) {
    Sound(st) && forall uid :: At(st.networks, uid) == NetOf(log, uid, topo) && Table(st, uid)
  }

  /** A node's networks are what its log of processed messages makes of them. */
  ghost predicate Tells(t: Tree, s: System, n: nat)
    requires IsTree(t) && Sized(t, s) && n < |t.parents|
  {
    if t.isBackend[n] then s.backends[n] == Backend.Steps(Backend.IDLE, s.done[n])
    else FollowsLog(s.filters[n], s.done[n], t.topos[n])
  }

  ghost predicate Invariant(t: Tree, s: System)
    requires IsTree(t)
  {
    && Sized(t, s)
    && forall n :: 0 <= n < |t.parents| ==> Flows(t, s, n) && AllGood(s.inbox[n]) && Tells(t, s, n)
  }

  lemma InitialHolds(t: Tree)
    requires IsTree(t)
    ensures Invariant(t, Initial(t))
  {
  }

  lemma {:induction false} ForwardsAreGood(st: State, batch: seq<Packet>, topo: Topology, world: World)
    requires AllGood(batch)
    ensures AllGood(DownBatch(st, batch, topo, world).1)
  {
    hide HandleDown, Good;
    if batch != [] {
      ForwardsAreGood(st, batch[..|batch| - 1], topo, world);
    }
  }

  lemma DownCallIsGood(st: State, batch: seq<Packet>, topo: Topology, world: World)
    requires Sound(st) && AllGood(batch)
    ensures AllGood(DownCall(st, batch, topo, world).down)
  {
    ForwardsAreGood(st, batch, topo, world);
    BatchKeepsSound(st, batch, topo, world);
    hide DownBatch;
  }

  /** What one call of a node's filter does to its own part of the invariant. */
  lemma CallTells(st: State, log: seq<Packet>, batch: seq<Packet>, topo: Topology, world: World)
    requires FollowsLog(st, log, topo) && AllGood(batch)
    ensures var r := DownCall(st, batch, topo, world);
            FollowsLog(r.state, log + batch, topo) && AllGood(r.down) && Control(r.down) == Control(batch)
  {
    hide DownCall, NetOf, At, Table, Sound, Control;
    CallForwardsControl(st, batch, topo, world);
    DownCallIsGood(st, batch, topo, world);
    forall uid
      ensures At(DownCall(st, batch, topo, world).state.networks, uid) == NetOf(log + batch, uid, topo)
      ensures Table(DownCall(st, batch, topo, world).state, uid)
    {
      CallMovesNet(st, log, batch, topo, world, uid);
    }
  }

  lemma CallMovesNet(st: State, log: seq<Packet>, batch: seq<Packet>, topo: Topology, world: World, uid: int)
    requires At(st.networks, uid) == NetOf(log, uid, topo) && Table(st, uid)
    ensures At(DownCall(st, batch, topo, world).state.networks, uid) == NetOf(log + batch, uid, topo)
    ensures Table(DownCall(st, batch, topo, world).state, uid)
  {
    hide DownBatch, NetOf, Table;
    BatchMovesNet(st, log, batch, topo, world, uid);
    ActKeepsTable(st, CallDown(batch), topo, world, uid);
  }

  lemma UpCallTells(st: State, log: seq<Packet>, batch: seq<Packet>, topo: Topology, world: World)
    requires FollowsLog(st, log, topo)
    ensures var r := UpCall(st, batch, world);
            FollowsLog(r.state, log, topo) && AllGood(r.down) && Control(r.down) == []
  {
    hide UpBatch, NetOf, Table, Sound, Control;
    UpCallSendsData(st, batch, world);
    UpBatchKeepsNetworks(st, batch, world);
    NoControl(UpCall(st, batch, world).down);
    forall uid ensures Table(UpCall(st, batch, world).state, uid) {
      ActKeepsTable(st, CallUp(batch), topo, world, uid);
    }
  }

  lemma SplitControl(ps: seq<Packet>, k: nat)
    requires k <= |ps|
    ensures Control(ps) == Control(ps[..k]) + Control(ps[k..])
  {
    hide Control;
    assert ps[..k] + ps[k..] == ps;
    ControlConcat(ps[..k], ps[k..]);
  }

  lemma SendHolds(t: Tree, s: System, p: Packet)
    requires IsTree(t) && Invariant(t, s) && Good(p)
    ensures Invariant(t, Next(t, s, Send(p)))
  {
    hide Control, Tells, Good;
    var next := Next(t, s, Send(p));
    forall n | 0 <= n < |t.parents| ensures Flows(t, next, n) && AllGood(next.inbox[n]) && Tells(t, next, n) {
      assert Flows(t, s, n) && Tells(t, s, n);
      ControlConcat(s.inbox[0], [p]);
      ControlConcat(s.sent, [p]);
      TellsLocally(t, s, next, n);
    }
  }

  lemma TellsLocally(t: Tree, s: System, next: System, n: nat)
    requires IsTree(t) && Sized(t, s) && Sized(t, next) && n < |t.parents| && Tells(t, s, n)
    requires s.done[n] == next.done[n] && s.backends[n] == next.backends[n] && s.filters[n] == next.filters[n]
    ensures Tells(t, next, n)
  {
  }

  /** The queues after node n has processed `count` messages and sent `down`. */
  lemma ProcessFlows(t: Tree, s: System, next: System, n: nat, count: nat, down: seq<Packet>, c: nat)
    requires IsTree(t) && Sized(t, s) && Sized(t, next) && n < |t.parents| && count <= |s.inbox[n]|
    requires c < |t.parents| && Flows(t, s, c) && AllGood(s.inbox[c]) && AllGood(down)
    requires Control(down) == Control(s.inbox[n][..count])
    requires next.sent == s.sent && next.done == s.done[n := s.done[n] + s.inbox[n][..count]]
    requires next.inbox[c] == (if c == n then s.inbox[n][count..]
                               else if c > 0 && t.parents[c] == n then s.inbox[c] + down else s.inbox[c])
    ensures Flows(t, next, c) && AllGood(next.inbox[c])
  {
    hide Control, Good, AllGood;
    var batch, rest := s.inbox[n][..count], s.inbox[n][count..];
    ControlConcat(s.done[n], batch);
    if c == n {
      SplitControl(s.inbox[n], count);
      RestIsGood(s.inbox[n], count);
      Associate(Control(s.done[n]), Control(batch), Control(rest));
    } else if c > 0 && t.parents[c] == n {
      ControlConcat(s.inbox[c], down);
      GoodConcat(s.inbox[c], down);
      Associate(Control(s.done[c]), Control(s.inbox[c]), Control(down));
    }
  }

  lemma Associate(a: seq<Packet>, b: seq<Packet>, c: seq<Packet>)
    ensures (a + b) + c == a + (b + c)
  {
  }

  lemma RestIsGood(ps: seq<Packet>, count: nat)
    requires AllGood(ps) && count <= |ps|
    ensures AllGood(ps[count..])
  {
  }

  lemma {:induction false} BackendSteps(nets: Backend.Process, a: seq<Packet>, b: seq<Packet>)
    ensures Backend.Steps(Backend.Steps(nets, a), b) == Backend.Steps(nets, a + b)
  {
    if b == [] {
      assert a + b == a;
    } else {
      var n := |b| - 1;
      BackendSteps(nets, a, b[..n]);
      assert (a + b)[..|a| + n] == a + b[..n];
    }
  }

  lemma ProcessHolds(t: Tree, s: System, n: nat, count: nat)
    requires IsTree(t) && Invariant(t, s) && n < |t.parents| && count <= |s.inbox[n]|
    ensures Invariant(t, Next(t, s, Process(n, count)))
  {
    hide Control, Good, DownCall, Tells, Flows, AllGood;
    var next := Next(t, s, Process(n, count));
    var batch := s.inbox[n][..count];
    NextKeepsSize(t, s, Process(n, count));
    assert Tells(t, s, n) && AllGood(s.inbox[n]);
    BatchIsGood(s.inbox[n], count);
    ProcessTells(t, s, n, count);
    var down := if t.isBackend[n] then batch else DownCall(s.filters[n], batch, t.topos[n], t.worlds[n]).down;
    forall c | 0 <= c < |t.parents| ensures Flows(t, next, c) && AllGood(next.inbox[c]) && Tells(t, next, c) {
      assert Flows(t, s, c) && AllGood(s.inbox[c]) && Tells(t, s, c);
      ProcessFlows(t, s, next, n, count, down, c);
      if c != n { TellsLocally(t, s, next, c); }
    }
  }

  lemma BatchIsGood(ps: seq<Packet>, count: nat)
    requires AllGood(ps) && count <= |ps|
    ensures AllGood(ps[..count])
  {
  }

  lemma ProcessTells(t: Tree, s: System, n: nat, count: nat)
    requires IsTree(t) && Sized(t, s) && n < |t.parents| && count <= |s.inbox[n]|
    requires Tells(t, s, n) && AllGood(s.inbox[n][..count])
    ensures var next := Next(t, s, Process(n, count));
            Sized(t, next) && Tells(t, next, n)
    ensures !t.isBackend[n] ==>
              var r := DownCall(s.filters[n], s.inbox[n][..count], t.topos[n], t.worlds[n]);
              AllGood(r.down) && Control(r.down) == Control(s.inbox[n][..count])
  {
    hide Control, Good, DownCall, AllGood, NetOf, At;
    NextKeepsSize(t, s, Process(n, count));
    var batch := s.inbox[n][..count];
    if t.isBackend[n] {
      BackendSteps(Backend.IDLE, s.done[n], batch);
    } else {
      CallTells(s.filters[n], s.done[n], batch, t.topos[n], t.worlds[n]);
    }
  }

  lemma OtherHolds(t: Tree, s: System, e: Event)
    requires IsTree(t) && Invariant(t, s) && (e.Upstream? || e.Push?)
    ensures Invariant(t, Next(t, s, e))
  {
    hide Control, Good, UpCall, AllGood;
    var next := Next(t, s, e);
    NextKeepsSize(t, s, e);
    if e.n < |t.parents| && !t.isBackend[e.n] {
      assert Tells(t, s, e.n);
      var down := if e.Upstream? then UpCall(s.filters[e.n], e.batch, t.worlds[e.n]).down else [];
      OwnTells(t, s, e);
      forall c | 0 <= c < |t.parents| ensures Flows(t, next, c) && AllGood(next.inbox[c]) && Tells(t, next, c) {
        assert Flows(t, s, c) && AllGood(s.inbox[c]) && Tells(t, s, c);
        ControlConcat(s.inbox[c], down);
        GoodConcat(s.inbox[c], down);
        if c != e.n { TellsLocally(t, s, next, c); }
      }
    }
  }

  lemma GoodConcat(a: seq<Packet>, b: seq<Packet>)
    requires AllGood(a) && AllGood(b)
    ensures AllGood(a + b)
  {
  }

  lemma OwnTells(t: Tree, s: System, e: Event)
    requires IsTree(t) && Sized(t, s) && (e.Upstream? || e.Push?) && e.n < |t.parents| && !t.isBackend[e.n]
    requires Tells(t, s, e.n)
    ensures Sized(t, Next(t, s, e)) && Tells(t, Next(t, s, e), e.n)
    ensures e.Upstream? ==>
              var r := UpCall(s.filters[e.n], e.batch, t.worlds[e.n]); AllGood(r.down) && Control(r.down) == []
    ensures AllGood([]) && Control([]) == []
  {
    hide UpCall, NetOf, Sound, FollowsLog;
    NextKeepsSize(t, s, e);
    if e.Upstream? {
      UpCallTells(s.filters[e.n], s.done[e.n], e.batch, t.topos[e.n], t.worlds[e.n]);
    } else {
      var a := if e.down then PushDown(e.tag, e.body) else PushUp(e.tag, e.body);
      PushTells(s.filters[e.n], s.done[e.n], a, t.topos[e.n], t.worlds[e.n]);
    }
  }

  lemma PushTells(st: State, log: seq<Packet>, a: Action, topo: Topology, world: World)
    requires FollowsLog(st, log, topo) && (a.PushUp? || a.PushDown?)
    ensures FollowsLog(Act(st, a, topo, world).state, log, topo)
  {
    hide NetOf, Bound, OfUid;
  }

  /** Every message the frontend ever sends names proper streams. */
  ghost predicate SendsGood(events: seq<Event>) {
    forall i :: 0 <= i < |events| && events[i].Send? ==> Good(events[i].p)
  }

  lemma {:induction false} InvariantHolds(t: Tree, events: seq<Event>)
    requires IsTree(t) && SendsGood(events)
    ensures Invariant(t, After(t, events))
  {
    hide Invariant, Good;
    if events == [] {
      InitialHolds(t);
    } else {
      var front, e := events[..|events| - 1], events[|events| - 1];
      InvariantHolds(t, front);
      StepHolds(t, After(t, front), e);
    }
  }

  lemma StepHolds(t: Tree, s: System, e: Event)
    requires IsTree(t) && Invariant(t, s) && (e.Send? ==> Good(e.p))
    ensures Sized(t, s) && Invariant(t, Next(t, s, e))
  {
    hide Good, Flows, Tells;
    match e
    case Send(p) => SendHolds(t, s, p);
    case Process(n, count) =>
      if n < |t.parents| && count <= |s.inbox[n]| { ProcessHolds(t, s, n, count); }
    case Upstream(_, _) => OtherHolds(t, s, e);
    case Push(_, _, _, _) => OtherHolds(t, s, e);
  }

  // ----------------------------------------------------------- along every edge

  /** What a node sends to its children in one step. */
  function DownOf(t: Tree, s: System, e: Event, n: nat): seq<Packet>
    requires IsTree(t) && Sized(t, s) && n < |t.parents|
  {
    match e
    case Process(m, count) =>
      if m == n && count <= |s.inbox[n]| && !t.isBackend[n]
      then DownCall(s.filters[n], s.inbox[n][..count], t.topos[n], t.worlds[n]).down else []
    case Upstream(m, batch) =>
      if m == n && !t.isBackend[n] then UpCall(s.filters[n], batch, t.worlds[n]).down else []
    case _ => []
  }

  /** Everything a node has sent to its children. */
  function SentDown(t: Tree, events: seq<Event>, n: nat): seq<Packet>
    requires IsTree(t) && n < |t.parents|
  {
    if events == [] then []
    else
      var front := events[..|events| - 1];
      SentDown(t, front, n) + DownOf(t, After(t, front), events[|events| - 1], n)
  }

  lemma EdgeStep(t: Tree, s: System, e: Event, c: nat)
    requires IsTree(t) && Sized(t, s) && c < |t.parents|
    ensures Sized(t, Next(t, s, e))
    ensures Next(t, s, e).done[c] + Next(t, s, e).inbox[c] ==
            (s.done[c] + s.inbox[c]) +
            if c > 0 then DownOf(t, s, e, t.parents[c]) else if e.Send? then [e.p] else []
  {
    hide DownCall, UpCall;
    NextKeepsSize(t, s, e);
    if e.Process? && e.n == c && e.count <= |s.inbox[c]| {
      assert s.inbox[c][..e.count] + s.inbox[c][e.count..] == s.inbox[c];
    }
  }

  /** Nothing is lost, doubled or overtaken on any edge, be it control or data: what a
      node has processed and what is in its queue is what its parent, or the frontend,
      has sent. */
  lemma {:induction false} EdgesKeep(t: Tree, events: seq<Event>, c: nat)
    requires IsTree(t) && c < |t.parents|
    ensures var s := After(t, events);
            s.done[c] + s.inbox[c] == if c > 0 then SentDown(t, events, t.parents[c]) else s.sent
  {
    hide Next, DownOf;
    if events == [] {
      NothingYet(t, c);
    } else {
      var front, e := events[..|events| - 1], events[|events| - 1];
      EdgesKeep(t, front, c);
      EdgeStep(t, After(t, front), e, c);
      SendStep(t, After(t, front), e);
    }
  }

  lemma NothingYet(t: Tree, c: nat)
    requires IsTree(t) && c < |t.parents|
    ensures Initial(t).done[c] + Initial(t).inbox[c] == [] == Initial(t).sent
  {
  }

  lemma SendStep(t: Tree, s: System, e: Event)
    requires IsTree(t) && Sized(t, s)
    ensures Next(t, s, e).sent == s.sent + if e.Send? then [e.p] else []
  {
  }

  // -------------------------------------------------------- along a path upward

  /** a lies on the path from b to the root. */
  ghost predicate Above(t: Tree, a: nat, b: nat)
    requires IsTree(t) && b < |t.parents|
  {
    a == b || (b > 0 && Above(t, a, t.parents[b]))
  }

  /** Nobody is ahead of anyone above it, and nobody is ahead of the frontend. */
  lemma {:induction false} PathPrefix(t: Tree, s: System, a: nat, b: nat)
    requires IsTree(t) && Invariant(t, s) && b < |t.parents| && Above(t, a, b)
    ensures a <= b && Control(s.done[b]) <= Control(s.done[a]) <= Control(s.sent)
  {
    hide Control, Tells;
    assert Flows(t, s, b);
    if b == 0 {
    } else if a == b {
      PathPrefix(t, s, t.parents[b], t.parents[b]);
    } else {
      PathPrefix(t, s, a, t.parents[b]);
    }
  }

  lemma LogPrefix(a: seq<Packet>, b: seq<Packet>, uid: int)
    requires Control(a) <= Control(b)
    ensures About(a, uid) <= About(b, uid)
  {
    PrefixAbout(Control(a), Control(b), uid);
    AboutControl(a, uid);
    AboutControl(b, uid);
  }

  lemma {:induction false} FiltersComeFirst(script: seq<Packet>, part: seq<Packet>, j: nat, uid: int)
    requires Scripted(script) && part <= script && j < |part| && script[j].SpecifyBackend?
    requires forall i :: 0 <= i < |script| ==> Concerns(script[i], uid)
    ensures SpecsFor(part, uid) == SpecsFor(script, uid)
    decreases |script|
  {
    if |part| < |script| {
      var front := script[..|script| - 1];
      assert Turn(script[j]) <= Turn(script[|script| - 1]);
      FiltersComeFirst(front, part, j, uid);
      assert SpecsFor(front, uid) + [] == SpecsFor(front, uid);
    } else {
      assert part == script;
    }
  }

  lemma {:induction false} AboveIsFilter(t: Tree, a: nat, b: nat)
    requires IsTree(t) && b < |t.parents| && Above(t, a, b) && a < b
    ensures !t.isBackend[a]
  {
    if a != t.parents[b] {
      AboveLater(t, a, t.parents[b]);
      AboveIsFilter(t, a, t.parents[b]);
    }
  }

  lemma {:induction false} AboveLater(t: Tree, a: nat, b: nat)
    requires IsTree(t) && b < |t.parents| && Above(t, a, b)
    ensures a <= b
  {
    if a != b { AboveLater(t, a, t.parents[b]); }
  }

  /** Backends are configured last: whenever a backend anywhere in the tree runs a
      network, every filter between it and the root has already been told the
      network's streams and all of its filter specifications, and unless it has
      been told to destroy the network it has settled on the first that takes it. */
  lemma BackendsConfiguredLast(t: Tree, events: seq<Event>, b: nat, a: nat, uid: int)
    requires IsTree(t) && SendsGood(events) && b < |t.parents| && a < b && Above(t, a, b) && t.isBackend[b]
    requires var s := After(t, events);
             Scripted(About(s.sent, uid)) && uid in s.backends[b].networks && s.backends[b].networks[uid].stage.Running?
    ensures var s := After(t, events);
            var told, script := About(s.done[a], uid), About(s.sent, uid);
            told != [] && told <= script && SpecsFor(told, uid) == SpecsFor(script, uid)
    ensures var s := After(t, events);
            var told, script := About(s.done[a], uid), About(s.sent, uid);
            (forall i :: 0 <= i < |told| ==> !told[i].DestroyNetwork?) ==>
              (uid in s.filters[a].networks &&
               s.filters[a].networks[uid] ==
                 Net(Decode(script[0].names, script[0].tags), PhaseFor(SpecsFor(script, uid), t.topos[a])))
  {
    hide Control, Sound, NetOf, Backend.Steps, About, Scripted, After, Decode, PhaseFor, SpecsFor;
    var s := After(t, events);
    InvariantHolds(t, events);
    assert Tells(t, s, b) && Tells(t, s, a) by { AboveIsFilter(t, a, b); }
    AboveIsFilter(t, a, b);
    PathPrefix(t, s, a, b);
    LogPrefix(s.done[b], s.done[a], uid);
    LogPrefix(s.done[a], s.sent, uid);
    ConfiguredLogs(s.done[b], s.done[a], s.sent, uid, t.topos[a]);
  }

  /** The same, of three logs each of which is a prefix of the next. */
  lemma ConfiguredLogs(low: seq<Packet>, high: seq<Packet>, sent: seq<Packet>, uid: int, topo: Topology)
    requires About(low, uid) <= About(high, uid) <= About(sent, uid) && Scripted(About(sent, uid))
    requires var b := Backend.Steps(Backend.IDLE, low); uid in b.networks && b.networks[uid].stage.Running?
    ensures var told, script := About(high, uid), About(sent, uid);
            told != [] && told <= script && SpecsFor(told, uid) == SpecsFor(script, uid)
    ensures var told, script := About(high, uid), About(sent, uid);
            (forall i :: 0 <= i < |told| ==> !told[i].DestroyNetwork?) ==>
              NetOf(high, uid, topo) ==
              Some(Net(Decode(script[0].names, script[0].tags), PhaseFor(SpecsFor(script, uid), topo)))
  {
    hide NetOf, Backend.Steps, About, Decode, PhaseFor, SpecsFor;
    var part, told, script := About(low, uid), About(high, uid), About(sent, uid);
    RunsOnlyConfigured(low, uid);
    AboutMembers(low, uid);
    AboutMembers(high, uid);
    AboutMembers(sent, uid);
    var p :| p in low && p.SpecifyBackend? && p.uid == uid;
    assert p in part;
    var j :| 0 <= j < |part| && part[j] == p;
    assert script[j] == p && told[j] == p;
    forall i | 0 <= i < |script| ensures Concerns(script[i], uid) { assert script[i] in script; }
    forall i | 0 <= i < |told| ensures Concerns(told[i], uid) { assert told[i] in told; }
    FiltersComeFirst(script, told, j, uid);
    OnlyAboutMatters(high, uid, topo);
    PrefixIsScripted(told, script);
    if forall i :: 0 <= i < |told| ==> !told[i].DestroyNetwork? {
      ScriptBuildsThePick(told, uid, topo);
    }
  }

  // ----------------------------------------------------------- once it has settled

  /** The node has what the whole script asks for: a filter its pick, built or broken
      off, and a backend its first network, each with its handlers. */
  ghost predicate Settled(t: Tree, s: System, n: nat, uid: int, script: seq<Packet>)
    requires IsTree(t) && Sized(t, s) && n < |t.parents|
  {
    if t.isBackend[n] then HasNetwork(s.backends[n], uid, script)
    else
      && script != [] && script[0].SpecifyNamedStreams?
      && At(s.filters[n].networks, uid) ==
         Some(Net(Decode(script[0].names, script[0].tags), PhaseFor(SpecsFor(script, uid), t.topos[n])))
      && Table(s.filters[n], uid)
  }

  /** No message about the network is on its way. */
  ghost predicate Quiet(s: System, uid: int) {
    forall n :: 0 <= n < |s.inbox| ==> About(s.inbox[n], uid) == []
  }

  lemma FlowsAbout(t: Tree, s: System, n: nat, uid: int)
    requires IsTree(t) && Sized(t, s) && n < |t.parents| && Flows(t, s, n) && About(s.inbox[n], uid) == []
    ensures About(s.done[n], uid) == About(Source(t, s, n), uid)
  {
    hide Control, About;
    AboutControl(s.done[n], uid);
    AboutControl(s.inbox[n], uid);
    AboutControl(Source(t, s, n), uid);
    AboutConcat(Control(s.done[n]), Control(s.inbox[n]), uid);
    assert About(s.done[n], uid) + [] == About(s.done[n], uid);
  }

  lemma {:induction false} AllTold(t: Tree, s: System, n: nat, uid: int)
    requires IsTree(t) && Invariant(t, s) && Quiet(s, uid) && n < |t.parents|
    ensures About(s.done[n], uid) == About(s.sent, uid)
  {
    hide About, Tells;
    assert Flows(t, s, n);
    FlowsAbout(t, s, n, uid);
    if n > 0 { AllTold(t, s, t.parents[n], uid); }
  }

  lemma FilterSettles(st: State, log: seq<Packet>, topo: Topology, uid: int)
    requires FollowsLog(st, log, topo) && Running(About(log, uid))
    ensures var script := About(log, uid);
            && script != [] && script[0].SpecifyNamedStreams? && Table(st, uid)
            && At(st.networks, uid) ==
               Some(Net(Decode(script[0].names, script[0].tags), PhaseFor(SpecsFor(script, uid), topo)))
  {
    hide NetOf, Table, Sound, Decode, PhaseFor;
    var script := About(log, uid);
    OnlyAboutMatters(log, uid, topo);
    AboutMembers(log, uid);
    forall i | 0 <= i < |script| ensures Concerns(script[i], uid) { assert script[i] in script; }
    ScriptBuildsThePick(script, uid, topo);
  }

  /** Whatever order everything happens in: once no message about a network that has not
      ended is on its way any more, every filter has built the first specification that
      takes it, with all its handlers, and every backend runs its network. */
  lemma QuietTreeIsSettled(t: Tree, events: seq<Event>, n: nat, uid: int)
    requires IsTree(t) && SendsGood(events) && n < |t.parents|
    requires var s := After(t, events); Running(About(s.sent, uid)) && Quiet(s, uid)
    ensures var s := After(t, events); Settled(t, s, n, uid, About(s.sent, uid))
  {
    hide After, About, Quiet, Running, HasNetwork, NetOf, Table;
    var s := After(t, events);
    InvariantHolds(t, events);
    AllTold(t, s, n, uid);
    assert Tells(t, s, n);
    if t.isBackend[n] {
      ScriptRunsTheBackend(s.done[n], uid);
    } else {
      FilterSettles(s.filters[n], s.done[n], t.topos[n], uid);
    }
  }
}
