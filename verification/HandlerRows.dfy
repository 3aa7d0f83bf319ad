/** Which handlers a filter has for one network: over any run, those that the
    specification it built asks for, in both directions. */
module HandlerRows {
  import opened StreamTags
  import opened DepthGrammar
  import opened DepthSelection
  import opened FilterNode
  import opened FilterRuns

  function OfUid(rows: seq<Row>, uid: int): seq<Row> {
    if rows == [] then []
    else OfUid(rows[..|rows| - 1], uid) + if rows[|rows| - 1].uid == uid then [rows[|rows| - 1]] else []
  }

  lemma {:induction false} OfUidConcat(a: seq<Row>, b: seq<Row>, uid: int)
    ensures OfUid(a + b, uid) == OfUid(a, uid) + OfUid(b, uid)
  {
    if b == [] {
      assert a + b == a;
    } else {
      var n := |b| - 1;
      OfUidConcat(a, b[..n], uid);
      assert (a + b)[..|a| + n] == a + b[..n] && (a + b)[|a| + n] == b[n];
      assert (OfUid(a, uid) + OfUid(b[..n], uid)) + [b[n]] == OfUid(a, uid) + (OfUid(b[..n], uid) + [b[n]]);
    }
  }

  lemma {:induction false} OfUidWithout(rows: seq<Row>, gone: int, uid: int)
    ensures OfUid(WithoutUid(rows, gone), uid) == if gone == uid then [] else OfUid(rows, uid)
  {
    if rows != [] {
      var front, last := rows[..|rows| - 1], rows[|rows| - 1];
      OfUidWithout(front, gone, uid);
      OfUidConcat(WithoutUid(front, gone), if last.uid != gone then [last] else [], uid);
      assert [last][..0] == [];
    }
  }

  function Bound(uid: int, streams: Tags, uses: seq<Incoming>): seq<Row> {
    Bind([], uid, streams, uses).0
  }

  predicate AllBound(uid: int, streams: Tags, uses: seq<Incoming>) {
    Bind([], uid, streams, uses).1
  }

  lemma {:induction false} BindAppends(rows: seq<Row>, uid: int, streams: Tags, uses: seq<Incoming>)
    ensures Bind(rows, uid, streams, uses) == (rows + Bound(uid, streams, uses), AllBound(uid, streams, uses))
  {
    if uses == [] {
      assert rows + [] == rows;
    } else {
      var front, use := uses[..|uses| - 1], uses[|uses| - 1];
      BindAppends(rows, uid, streams, front);
      if use.name in streams {
        var row := Row(uid, streams[use.name], use.name);
        assert (rows + Bound(uid, streams, front)) + [row] == rows + (Bound(uid, streams, front) + [row]);
      }
    }
  }

  predicate CanBind(streams: Tags, use: Incoming) {
    use.name in streams && use.fits
  }

  /** One handler per stream, under the stream's tag, up to the first stream that
      cannot be bound, which is number n if there is one. */
  lemma {:induction false} BoundExact(uid: int, streams: Tags, uses: seq<Incoming>) returns (n: nat)
    ensures n <= |uses| && (n < |uses| ==> !CanBind(streams, uses[n]))
    ensures |Bound(uid, streams, uses)| == n
    ensures forall i :: 0 <= i < n ==>
              CanBind(streams, uses[i]) &&
              Bound(uid, streams, uses)[i] == Row(uid, streams[uses[i].name], uses[i].name)
    ensures AllBound(uid, streams, uses) <==> n == |uses|
  {
    if uses == [] {
      n := 0;
    } else {
      n := BoundExact(uid, streams, uses[..|uses| - 1]);
      if n == |uses| - 1 && CanBind(streams, uses[|uses| - 1]) { n := |uses|; }
    }
  }

  lemma {:induction false} OfUidBound(other: int, streams: Tags, uses: seq<Incoming>, uid: int)
    ensures OfUid(Bound(other, streams, uses), uid) == if other == uid then Bound(other, streams, uses) else []
  {
    if uses != [] {
      var front, use := uses[..|uses| - 1], uses[|uses| - 1];
      OfUidBound(other, streams, front, uid);
      if Bind([], other, streams, front).1 && use.name in streams && use.fits {
        var row := Row(other, streams[use.name], use.name);
        OfUidConcat(Bound(other, streams, front), [row], uid);
        assert [row][..0] == [];
      }
    }
  }

  /** The network's handlers in both tables are those its specification asks for, in
      order; the downstream ones only if all upstream ones could be bound. */
  ghost predicate Table(st: State, uid: int) {
    var built := uid in st.networks && st.networks[uid].phase.Built?;
    && OfUid(st.upRows, uid) ==
       (if built then Bound(uid, st.networks[uid].streams, st.networks[uid].phase.spec.fromBelow) else [])
    && OfUid(st.downRows, uid) ==
       (if built && AllBound(uid, st.networks[uid].streams, st.networks[uid].phase.spec.fromBelow)
        then Bound(uid, st.networks[uid].streams, st.networks[uid].phase.spec.fromAbove) else [])
  }

  lemma SpecifyKeepsTable(st: State, other: int, spec: FilterSpec, topo: Topology, uid: int)
    requires Table(st, uid)
    ensures Table(Specify(st, other, spec, topo), uid)
  {
    hide SelectedBy, Bind;
    if other in st.networks {
      var streams := st.networks[other].streams;
      BindAppends(st.upRows, other, streams, spec.fromBelow);
      BindAppends(st.downRows, other, streams, spec.fromAbove);
      OfUidConcat(st.upRows, Bound(other, streams, spec.fromBelow), uid);
      OfUidConcat(st.downRows, Bound(other, streams, spec.fromAbove), uid);
      OfUidBound(other, streams, spec.fromBelow, uid);
      OfUidBound(other, streams, spec.fromAbove, uid);
    }
  }

  lemma HandleKeepsTable(st: State, p: Packet, topo: Topology, world: World, uid: int)
    requires Table(st, uid)
    ensures Table(HandleDown(st, p, topo, world).0, uid)
  {
    hide Specify, Bind, Run, WithTag, Decode;
    match p
    case SpecifyNamedStreams(_, _, _) =>
    case SpecifyFilter(other, spec) => SpecifyKeepsTable(st, other, spec, topo, uid);
    case DestroyNetwork(other) =>
      OfUidWithout(st.upRows, other, uid);
      OfUidWithout(st.downRows, other, uid);
    case _ =>
  }

  lemma {:induction false} BatchKeepsTable(st: State, batch: seq<Packet>, topo: Topology, world: World, uid: int)
    requires Table(st, uid)
    ensures Table(DownBatch(st, batch, topo, world).0, uid)
  {
    hide Table, HandleDown;
    if batch != [] {
      BatchKeepsTable(st, batch[..|batch| - 1], topo, world, uid);
      HandleKeepsTable(DownBatch(st, batch[..|batch| - 1], topo, world).0, batch[|batch| - 1], topo, world, uid);
    }
  }

  lemma {:induction false} UpBatchKeepsRows(st: State, batch: seq<Packet>, world: World)
    ensures UpBatch(st, batch, world).0.upRows == st.upRows && UpBatch(st, batch, world).0.downRows == st.downRows
  {
    hide Run, WithTag;
    if batch != [] { UpBatchKeepsRows(st, batch[..|batch| - 1], world); }
  }

  lemma ActKeepsTable(st: State, a: Action, topo: Topology, world: World, uid: int)
    requires Table(st, uid)
    ensures Table(Act(st, a, topo, world).state, uid)
  {
    hide DownBatch, UpBatch, Bound, OfUid;
    if a.CallUp? {
      UpBatchKeepsRows(st, a.batch, world);
      UpBatchKeepsNetworks(st, a.batch, world);
    } else if a.CallDown? {
      BatchKeepsTable(st, a.batch, topo, world, uid);
    }
  }

  lemma {:induction false} RunKeepsTable(actions: seq<Action>, topo: Topology, world: World, uid: int)
    ensures Table(Acts(FRESH, actions, topo, world), uid)
  {
    hide Act;
    if actions != [] {
      hide Table;
      RunKeepsTable(actions[..|actions| - 1], topo, world, uid);
      ActKeepsTable(Acts(FRESH, actions[..|actions| - 1], topo, world), actions[|actions| - 1], topo, world, uid);
    }
  }
}
