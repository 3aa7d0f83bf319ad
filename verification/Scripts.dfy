/** The configuration messages of one network, and what a log of them makes of a
    filter and of a backend. */
module Scripts {
  import opened Wrappers
  import opened StreamTags
  import opened DepthGrammar
  import opened DepthSelection
  import opened FilterNode
  import opened FilterRuns
  import opened HandlerRows
  import Backend

  /** The messages that concern one network, in order. */
  function About(ps: seq<Packet>, uid: int): seq<Packet> {
    if ps == [] then []
    else About(ps[..|ps| - 1], uid) + if Concerns(ps[|ps| - 1], uid) then [ps[|ps| - 1]] else []
  }

  predicate Concerns(p: Packet, uid: int) {
    match p
    case SpecifyNamedStreams(u, _, _) => u == uid
    case SpecifyFilter(u, _) => u == uid
    case SpecifyBackend(u, _) => u == uid
    case NetworkReady(u) => u == uid
    case DestroyNetwork(u) => u == uid
    case _ => false
  }

  function Turn(p: Packet): nat {
    match p
    case SpecifyNamedStreams(_, _, _) => 0
    case SpecifyFilter(_, _) => 1
    case SpecifyBackend(_, _) => 2
    case NetworkReady(_) => 3
    case _ => 4
  }

  /** Streams first and once, then filters, then backends, then readiness, then the end. */
  ghost predicate Scripted(ps: seq<Packet>) {
    && (forall i :: 0 <= i < |ps| ==> (ps[i].SpecifyNamedStreams? <==> i == 0))
    && (forall i, j :: 0 <= i < j < |ps| ==> Turn(ps[i]) <= Turn(ps[j]))
  }

  /** The messages about one network, not yet ended, as the frontend sends them. */
  ghost predicate Running(script: seq<Packet>) {
    Scripted(script) && script != [] && forall i :: 0 <= i < |script| ==> !script[i].DestroyNetwork?
  }

  lemma PrefixIsScripted(a: seq<Packet>, b: seq<Packet>)
    requires a <= b && Scripted(b)
    ensures Scripted(a)
  {
  }

  lemma {:induction false} AboutConcat(a: seq<Packet>, b: seq<Packet>, uid: int)
    ensures About(a + b, uid) == About(a, uid) + About(b, uid)
  {
    if b == [] {
      assert a + b == a;
    } else {
      var n := |b| - 1;
      AboutConcat(a, b[..n], uid);
      assert (a + b)[..|a| + n] == a + b[..n];
    }
  }

  lemma {:induction false} AboutControl(ps: seq<Packet>, uid: int)
    ensures About(Control(ps), uid) == About(ps, uid)
  {
    if ps != [] {
      var front, p := ps[..|ps| - 1], ps[|ps| - 1];
      AboutControl(front, uid);
      AboutConcat(Control(front), if p.Data? then [] else [p], uid);
      assert [p][..0] == [];
    }
  }

  lemma {:induction false} AboutMembers(ps: seq<Packet>, uid: int)
    ensures forall p :: p in About(ps, uid) <==> p in ps && Concerns(p, uid)
  {
    if ps != [] {
      AboutMembers(ps[..|ps| - 1], uid);
      assert ps == ps[..|ps| - 1] + [ps[|ps| - 1]];
    }
  }

  lemma PrefixAbout(a: seq<Packet>, b: seq<Packet>, uid: int)
    requires a <= b
    ensures About(a, uid) <= About(b, uid)
  {
    AboutConcat(a, b[|a|..], uid);
    assert a + b[|a|..] == b;
  }

  // ----------------------------------------------------------- a filter's view

  function At(nets: map<int, Net>, uid: int): Option<Net> {
    if uid in nets then Some(nets[uid]) else None
  }

  /** What one message makes of a filter's network. */
  function NetStep(net: Option<Net>, p: Packet, uid: int, topo: Topology): Option<Net> {
    if !Concerns(p, uid) then net
    else
      match p
      case SpecifyNamedStreams(_, names, tags) =>
        if net.Some? then net else Some(Net(Decode(names, tags), Named))
      case SpecifyFilter(_, spec) =>
        if net.Some? && net.value.phase == Named && Takes(spec, topo)
        then Some(net.value.(phase := if spec.loads then Built(spec) else Broken))
        else net
      case DestroyNetwork(_) => None
      case _ => net
  }

  function NetOf(log: seq<Packet>, uid: int, topo: Topology): Option<Net> {
    if log == [] then None else NetStep(NetOf(log[..|log| - 1], uid, topo), log[|log| - 1], uid, topo)
  }

  lemma HandleMovesNet(st: State, p: Packet, topo: Topology, world: World, uid: int)
    ensures At(HandleDown(st, p, topo, world).0.networks, uid) == NetStep(At(st.networks, uid), p, uid, topo)
  {
    hide Run, WithTag, Bind, WithoutUid, Decode;
    match p
    case SpecifyNamedStreams(u, _, _) =>
    case SpecifyFilter(u, spec) =>
      hide SelectedBy;
      assert Takes(spec, topo) == SelectedBy(spec.depths, topo, false);
    case DestroyNetwork(u) =>
    case _ =>
  }

  lemma {:induction false} NetOfConcat(a: seq<Packet>, b: seq<Packet>, uid: int, topo: Topology)
    requires b != []
    ensures NetOf(a + b, uid, topo) == NetStep(NetOf(a + b[..|b| - 1], uid, topo), b[|b| - 1], uid, topo)
  {
    assert (a + b)[..|a + b| - 1] == a + b[..|b| - 1];
  }

  lemma {:induction false} BatchMovesNet(st: State, log: seq<Packet>, batch: seq<Packet>,
                                         topo: Topology, world: World, uid: int)
    requires At(st.networks, uid) == NetOf(log, uid, topo)
    ensures At(DownBatch(st, batch, topo, world).0.networks, uid) == NetOf(log + batch, uid, topo)
  {
    hide HandleDown, NetStep;
    if batch == [] {
      assert log + batch == log;
    } else {
      BatchMovesNet(st, log, batch[..|batch| - 1], topo, world, uid);
      HandleMovesNet(DownBatch(st, batch[..|batch| - 1], topo, world).0, batch[|batch| - 1], topo, world, uid);
      NetOfConcat(log, batch, uid, topo);
    }
  }

  lemma {:induction false} OnlyAboutMatters(log: seq<Packet>, uid: int, topo: Topology)
    ensures NetOf(log, uid, topo) == NetOf(About(log, uid), uid, topo)
  {
    if log != [] {
      var front, p := log[..|log| - 1], log[|log| - 1];
      OnlyAboutMatters(front, uid, topo);
      var about := About(front, uid);
      if Concerns(p, uid) {
        assert (about + [p])[..|about|] == about;
      } else {
        assert about + [] == about;
      }
    }
  }

  /** A scripted log that has not ended leaves the filter with the network that
      the first suitable specification describes. */
  lemma {:induction false} ScriptBuildsThePick(ps: seq<Packet>, uid: int, topo: Topology)
    requires Scripted(ps) && ps != []
    requires forall i :: 0 <= i < |ps| ==> Concerns(ps[i], uid) && !ps[i].DestroyNetwork?
    ensures NetOf(ps, uid, topo) ==
            Some(Net(Decode(ps[0].names, ps[0].tags), PhaseFor(SpecsFor(ps, uid), topo)))
  {
    hide Decode, Takes;
    var front, p := ps[..|ps| - 1], ps[|ps| - 1];
    if front == [] {
      assert NetOf(front, uid, topo) == None;
      assert SpecsFor(front, uid) == [];
    } else {
      ScriptBuildsThePick(front, uid, topo);
      var specs := SpecsFor(front, uid);
      PickIsFirst(specs, topo);
      if p.SpecifyFilter? {
        assert (specs + [p.spec])[..|specs|] == specs;
      } else {
        assert specs + [] == specs;
      }
    }
  }

  // ---------------------------------------------------------- a backend's view

  ghost predicate HasBackend(log: seq<Packet>, uid: int) {
    exists p :: p in log && p.SpecifyBackend? && p.uid == uid
  }

  ghost predicate HasNaming(log: seq<Packet>, uid: int) {
    exists p :: p in log && p.SpecifyNamedStreams? && p.uid == uid
  }

  /** The specifications for backends of one network, in order of arrival. */
  function BackendsFor(ps: seq<Packet>, uid: int): seq<BackendSpec> {
    if ps == [] then []
    else
      var p := ps[|ps| - 1];
      BackendsFor(ps[..|ps| - 1], uid) + if p.SpecifyBackend? && p.uid == uid then [p.backend] else []
  }

  /** What a backend makes of them: it runs the first, or breaks off if that cannot be
      loaded, and waits if there is none. */
  function StageFor(specs: seq<BackendSpec>): Backend.Stage {
    if specs == [] then Backend.Waiting
    else if specs[0].loads then Backend.Running(specs[0].id) else Backend.Failed
  }

  function HandlersFor(uid: int, streams: Tags, specs: seq<BackendSpec>): seq<Row> {
    if specs != [] && specs[0].loads then Bound(uid, streams, specs[0].fromAbove) else []
  }

  /** The backend has the network as its messages so far describe it, or none yet. */
  ghost predicate HasNetwork(b: Backend.Process, uid: int, script: seq<Packet>) {
    if script == [] then uid !in b.networks && OfUid(b.rows, uid) == []
    else
      script[0].SpecifyNamedStreams? &&
      var streams, specs := Decode(script[0].names, script[0].tags), BackendsFor(script, uid);
      && uid in b.networks && b.networks[uid] == Backend.Local(streams, StageFor(specs))
      && OfUid(b.rows, uid) == HandlersFor(uid, streams, specs)
  }

  lemma OtherNetworks(b: Backend.Process, p: Packet, uid: int, script: seq<Packet>)
    requires HasNetwork(b, uid, script) && !Concerns(p, uid)
    ensures HasNetwork(Backend.Step(b, p), uid, script)
  {
    hide Bind, WithoutUid, Decode, BackendsFor, HandlersFor;
    match p
    case SpecifyBackend(other, spec) =>
      if other in b.networks {
        var streams := b.networks[other].streams;
        BindAppends(b.rows, other, streams, spec.fromAbove);
        OfUidConcat(b.rows, Bound(other, streams, spec.fromAbove), uid);
        OfUidBound(other, streams, spec.fromAbove, uid);
      }
    case DestroyNetwork(other) => OfUidWithout(b.rows, other, uid);
    case _ =>
  }

  lemma OwnMessage(b: Backend.Process, p: Packet, uid: int, script: seq<Packet>)
    requires HasNetwork(b, uid, script) && Running(script + [p]) && Concerns(p, uid)
    ensures HasNetwork(Backend.Step(b, p), uid, script + [p])
  {
    hide Bind, WithoutUid, Decode;
    var more := script + [p];
    assert more[|script|] == p && more[..|script|] == script;
    assert script != [] ==> more[0] == script[0];
    if script == [] {
      assert BackendsFor(more, uid) == [] + [];
    } else if p.SpecifyBackend? {
      var streams := b.networks[uid].streams;
      BindAppends(b.rows, uid, streams, p.backend.fromAbove);
      OfUidConcat(b.rows, Bound(uid, streams, p.backend.fromAbove), uid);
      OfUidBound(uid, streams, p.backend.fromAbove, uid);
    } else {
      assert BackendsFor(more, uid) == BackendsFor(script, uid) + [];
    }
  }

  /** A backend that was told a script which has not ended, among whatever other
      networks, has the streams it names, runs the network of its first `<Backend>` if
      that loads, and has exactly the handlers which that asks for. */
  lemma {:induction false} ScriptRunsTheBackend(log: seq<Packet>, uid: int)
    requires About(log, uid) == [] || Running(About(log, uid))
    ensures HasNetwork(Backend.Steps(Backend.IDLE, log), uid, About(log, uid))
  {
    hide Backend.Step, HasNetwork;
    if log == [] {
      IdleHasNothing(uid);
    } else {
      var front, p := log[..|log| - 1], log[|log| - 1];
      RunningSoFar(front, p, uid);
      ScriptRunsTheBackend(front, uid);
      var b := Backend.Steps(Backend.IDLE, front);
      if Concerns(p, uid) {
        OwnMessage(b, p, uid, About(front, uid));
      } else {
        OtherNetworks(b, p, uid, About(front, uid));
        assert About(front, uid) + [] == About(front, uid);
      }
    }
  }

  /** Being told to destroy a network leaves a backend with nothing of it, as before it
      was ever named. */
  lemma DestroyedBackendIsGone(log: seq<Packet>, uid: int)
    ensures HasNetwork(Backend.Steps(Backend.IDLE, log + [DestroyNetwork(uid)]), uid, [])
  {
    hide Backend.Steps, WithoutUid;
    var b := Backend.Steps(Backend.IDLE, log);
    StepsSnoc(log, DestroyNetwork(uid));
    OfUidWithout(b.rows, uid, uid);
    AllBackendHandlers(log);
    if uid !in b.networks { NoneOfUid(b.rows, uid); }
  }

  lemma StepsSnoc(log: seq<Packet>, p: Packet)
    ensures Backend.Steps(Backend.IDLE, log + [p]) == Backend.Step(Backend.Steps(Backend.IDLE, log), p)
  {
    assert (log + [p])[..|log|] == log;
  }

  lemma {:induction false} NoneOfUid(rows: seq<Row>, uid: int)
    requires forall r :: r in rows ==> r.uid != uid
    ensures OfUid(rows, uid) == []
  {
    if rows != [] {
      assert rows[|rows| - 1] in rows && forall r :: r in rows[..|rows| - 1] ==> r in rows;
      NoneOfUid(rows[..|rows| - 1], uid);
    }
  }

  lemma IdleHasNothing(uid: int)
    ensures HasNetwork(Backend.IDLE, uid, [])
  {
  }

  lemma RunningSoFar(front: seq<Packet>, p: Packet, uid: int)
    requires About(front + [p], uid) == [] || Running(About(front + [p], uid))
    ensures About(front, uid) == [] || Running(About(front, uid))
  {
    assert (front + [p])[..|front|] == front;
    var part, whole := About(front, uid), About(front + [p], uid);
    assert part <= whole;
    if whole != [] {
      PrefixIsScripted(part, whole);
      assert forall i :: 0 <= i < |part| ==> part[i] == whole[i];
    }
  }

  /** A backend runs a network only after both of its messages. */
  lemma {:induction false} RunsOnlyConfigured(log: seq<Packet>, uid: int)
    requires uid in Backend.Steps(Backend.IDLE, log).networks
    ensures HasNaming(log, uid)
    ensures Backend.Steps(Backend.IDLE, log).networks[uid].stage.Running? ==> HasBackend(log, uid)
  {
    hide Decode, Bind, WithoutUid;
    var front, p := log[..|log| - 1], log[|log| - 1];
    assert log == front + [p];
    assert p in log;
    if uid in Backend.Steps(Backend.IDLE, front).networks {
      RunsOnlyConfigured(front, uid);
      assert forall q :: q in front ==> q in log;
    }
  }

  /** A backend's handler belongs to a network that runs, under its stream's tag. */
  ghost predicate BelongsToRunning(b: Backend.Process, r: Row) {
    && r.uid in b.networks && b.networks[r.uid].stage.Running?
    && r.name in b.networks[r.uid].streams && b.networks[r.uid].streams[r.name] == r.tag
  }

  lemma {:induction false} BoundRows(rows: seq<Row>, uid: int, streams: Tags, uses: seq<Incoming>)
    ensures forall r :: r in Bind(rows, uid, streams, uses).0 ==>
              r in rows || (r.uid == uid && r.name in streams && r.tag == streams[r.name])
  {
    if uses != [] { BoundRows(rows, uid, streams, uses[..|uses| - 1]); }
  }

  lemma BackendStepKeeps(b: Backend.Process, p: Packet)
    requires forall r :: r in b.rows ==> BelongsToRunning(b, r)
    ensures forall r :: r in Backend.Step(b, p).rows ==> BelongsToRunning(Backend.Step(b, p), r)
  {
    hide Bind, WithoutUid, Decode;
    match p
    case SpecifyNamedStreams(uid, names, tags) =>
    case SpecifyBackend(uid, spec) =>
      if uid in b.networks { BoundRows(b.rows, uid, b.networks[uid].streams, spec.fromAbove); }
    case DestroyNetwork(uid) => WithoutUidKeeps(b.rows, uid);
    case _ =>
  }

  /** After any messages, every handler of a backend belongs to a network that runs
      there; so a destroyed network has none. */
  lemma {:induction false} BackendHandlersBelong(log: seq<Packet>, r: Row)
    requires r in Backend.Steps(Backend.IDLE, log).rows
    ensures BelongsToRunning(Backend.Steps(Backend.IDLE, log), r)
  {
    AllBackendHandlers(log);
  }

  lemma {:induction false} AllBackendHandlers(log: seq<Packet>)
    ensures forall r :: r in Backend.Steps(Backend.IDLE, log).rows ==>
              BelongsToRunning(Backend.Steps(Backend.IDLE, log), r)
  {
    hide BelongsToRunning, Backend.Step;
    if log != [] {
      AllBackendHandlers(log[..|log| - 1]);
      BackendStepKeeps(Backend.Steps(Backend.IDLE, log[..|log| - 1]), log[|log| - 1]);
    }
  }
}
