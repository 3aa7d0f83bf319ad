/** A backend process: what configuration messages do to its networks and handlers. */
module Backend {
  import opened StreamTags
  import opened FilterNode

  /** How far a local network has come: streams only, broken off, or running. */
  datatype Stage = Waiting | Failed | Running(id: int)

  datatype Local = Local(streams: Tags, stage: Stage)

  datatype Process = Process(networks: map<int, Local>, rows: seq<Row>)

  const IDLE := Process(map[], [])

  function Name(b: Process, uid: int, names: seq<string>, tags: seq<int>): Process {
    if uid in b.networks then b
    else b.(networks := b.networks[uid := Local(Decode(names, tags), Waiting)])
  }

  function Configure(b: Process, uid: int, spec: BackendSpec): Process {
    if uid !in b.networks || b.networks[uid].stage != Waiting then b
    else
      var local := b.networks[uid];
      if !spec.loads then b.(networks := b.networks[uid := local.(stage := Failed)])
      else Process(b.networks[uid := local.(stage := Running(spec.id))],
                   Bind(b.rows, uid, local.streams, spec.fromAbove).0)
  }

  function Drop(b: Process, uid: int): Process {
    if uid !in b.networks then b else Process(b.networks - {uid}, WithoutUid(b.rows, uid))
  }

  function Step(b: Process, p: Packet): Process {
    match p
    case SpecifyNamedStreams(uid, names, tags) => Name(b, uid, names, tags)
    case SpecifyBackend(uid, spec) => Configure(b, uid, spec)
    case DestroyNetwork(uid) => Drop(b, uid)
    case _ => b
  }

  function Steps(b: Process, ps: seq<Packet>): Process {
    if ps == [] then b else Step(Steps(b, ps[..|ps| - 1]), ps[|ps| - 1])
  }

  class BackendProcess {
    var networks: map<int, Local>
    const table: HandlerTable

    ghost function Now(): Process
      reads this, table
    {
      Process(networks, table.rows)
    }

    constructor ()
      ensures Now() == IDLE && fresh(table)
    {
      networks := map[];
      table := new HandlerTable();
    }

    method SpecifyNetworkStreams(uid: int, names: seq<string>, tags: seq<int>)
      modifies this
      ensures Now() == Name(old(Now()), uid, names, tags)
    {
      if uid in networks { return; }
      networks := networks[uid := Local(Decode(names, tags), Waiting)];
    }

    /** The second initialisation step refuses to run twice. */
    method SpecifyNetwork(uid: int, spec: BackendSpec)
      modifies this, table
      ensures Now() == Configure(old(Now()), uid, spec)
    {
      if uid !in networks { return; }
      var local := networks[uid];
      if local.stage != Waiting { return; }
      if !spec.loads {
        networks := networks[uid := local.(stage := Failed)];
        return;
      }
      networks := networks[uid := local.(stage := Running(spec.id))];
      var ok := table.BindStreams(uid, local.streams, spec.fromAbove);
    }

    method DestroyLocalNetwork(uid: int)
      modifies this, table
      ensures Now() == Drop(old(Now()), uid)
    {
      if uid !in networks { return; }
      table.Remove(uid);
      networks := networks - {uid};
    }

    method Receive(p: Packet)
      modifies this, table
      ensures Now() == Step(old(Now()), p)
    {
      match p
      case SpecifyNamedStreams(uid, names, tags) => SpecifyNetworkStreams(uid, names, tags);
      case SpecifyBackend(uid, spec) => SpecifyNetwork(uid, spec);
      case DestroyNetwork(uid) => DestroyLocalNetwork(uid);
      case _ =>
    }

    method ReceiveAll(ps: seq<Packet>)
      modifies this, table
      ensures Now() == Steps(old(Now()), ps)
    {
      for i := 0 to |ps|
        invariant Now() == Steps(old(Now()), ps[..i])
      {
        assert ps[..i + 1][..i] == ps[..i];
        Receive(ps[i]);
      }
      assert ps[..|ps|] == ps;
    }
  }
}
