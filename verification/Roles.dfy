/** Where a filter's role comes from: the configuration messages it has been told
    decide which handlers it has for a stream, and so what it does to the values. */
module Roles {
  import opened Wrappers
  import opened StreamTags
  import opened DepthGrammar
  import opened DepthSelection
  import opened FilterNode
  import opened FilterRuns
  import opened HandlerRows
  import opened Scripts
  import opened Isolation
  import opened Upstream
  import opened ValueOrder

  // ------------------------------------------------------- what a filter was told

  lemma {:induction false} RunTells(actions: seq<Action>, topo: Topology, world: World, uid: int)
    ensures At(Acts(FRESH, actions, topo, world).networks, uid) == NetOf(Told(actions), uid, topo)
  {
    hide DownBatch, UpBatch, NetOf;
    if actions == [] {
      NothingTold(uid, topo);
    } else {
      var front, a := actions[..|actions| - 1], actions[|actions| - 1];
      var st := Acts(FRESH, front, topo, world);
      RunTells(front, topo, world, uid);
      assert Told(front) + [] == Told(front);
      if a.CallUp? { UpBatchKeepsNetworks(st, a.batch, world); }
      if a.CallDown? { BatchMovesNet(st, Told(front), a.batch, topo, world, uid); }
    }
  }

  lemma NothingTold(uid: int, topo: Topology)
    ensures NetOf([], uid, topo) == None == At(FRESH.networks, uid)
  {
  }

  // ------------------------------------------------------------ handlers of a tag

  function Times(uses: seq<Incoming>, name: string): nat {
    if uses == [] then 0
    else Times(uses[..|uses| - 1], name) + if uses[|uses| - 1].name == name then 1 else 0
  }

  function Copies(r: Row, n: nat): seq<Row> {
    if n == 0 then [] else Copies(r, n - 1) + [r]
  }

  predicate Bindable(uses: seq<Incoming>, streams: Tags) {
    forall i :: 0 <= i < |uses| ==> uses[i].fits && uses[i].name in streams
  }

  lemma {:induction false} WithTagSnoc(rows: seq<Row>, r: Row, tag: int)
    ensures WithTag(rows + [r], tag) == WithTag(rows, tag) + if r.tag == tag then [r] else []
  {
    assert (rows + [r])[..|rows|] == rows;
  }

  lemma {:induction false} TaggedBound(uid: int, streams: Tags, uses: seq<Incoming>, name: string)
    requires Proper(streams) && name in streams && Bindable(uses, streams)
    ensures Bind([], uid, streams, uses).1
    ensures WithTag(Bound(uid, streams, uses), streams[name]) ==
            Copies(Row(uid, streams[name], name), Times(uses, name))
  {
    if uses != [] {
      var front, use := uses[..|uses| - 1], uses[|uses| - 1];
      assert use == uses[|uses| - 1] && forall i :: 0 <= i < |front| ==> front[i] == uses[i];
      TaggedBound(uid, streams, front, name);
      WithTagSnoc(Bound(uid, streams, front), Row(uid, streams[use.name], use.name), streams[name]);
    }
  }

  lemma {:induction false} OneNetworksRows(rows: seq<Row>, tag: int, uid: int)
    requires forall r :: r in rows && r.tag == tag ==> r.uid == uid
    ensures WithTag(rows, tag) == WithTag(OfUid(rows, uid), tag)
  {
    if rows != [] {
      var front, last := rows[..|rows| - 1], rows[|rows| - 1];
      assert forall r :: r in front ==> r in rows;
      OneNetworksRows(front, tag, uid);
      assert last in rows;
      if last.uid == uid {
        WithTagSnoc(OfUid(front, uid), last, tag);
      } else {
        assert OfUid(front, uid) + [] == OfUid(front, uid) && WithTag(front, tag) + [] == WithTag(front, tag);
      }
    }
  }

  /** Over any run of a filter, the handlers of a stream's tag are those that the
      stream's network has bound, and none if the node built no network for it; those
      for what comes down only if all streams from below could be bound. */
  lemma ConfiguredRows(book: Book, actions: seq<Action>, topo: Topology, world: World, uid: int, name: string)
    requires Apart(book) && AllByTheBook(book, actions) && uid in book && name in book[uid]
    ensures var net, st := NetOf(Told(actions), uid, topo), Acts(FRESH, actions, topo, world);
            var tag, built := book[uid][name], net.Some? && net.value.phase.Built?;
            && WithTag(st.upRows, tag) ==
               (if built then WithTag(Bound(uid, book[uid], net.value.phase.spec.fromBelow), tag) else [])
            && WithTag(st.downRows, tag) ==
               (if built && AllBound(uid, book[uid], net.value.phase.spec.fromBelow)
                then WithTag(Bound(uid, book[uid], net.value.phase.spec.fromAbove), tag) else [])
  {
    hide Acts, NetOf, Bind, AllByTheBook;
    var st, tag := Acts(FRESH, actions, topo, world), book[uid][name];
    RunFollows(book, actions, topo, world);
    RunKeepsTable(actions, topo, world, uid);
    RunTells(actions, topo, world, uid);
    WithTagKeeps(st.upRows, tag);
    WithTagKeeps(st.downRows, tag);
    forall r | (r in st.upRows || r in st.downRows) && r.tag == tag ensures r.uid == uid {
      OnlyTheOwnerRuns(book, actions, topo, world, tag, r, uid);
    }
    OneNetworksRows(st.upRows, tag, uid);
    OneNetworksRows(st.downRows, tag, uid);
  }

  // ----------------------------------------------------------------- roles

  /** The role of a node for a stream: that of the first specification that takes the
      node, if it listens to the stream, and otherwise to pass values on. */
  function RoleOf(specs: seq<FilterSpec>, topo: Topology, name: string, meaning: FilterSpec -> int -> int): Role {
    match Pick(specs, topo)
    case None => Pass
    case Some(i) =>
      if i < |specs| && Times(specs[i].fromBelow, name) > 0 then Apply(meaning(specs[i])) else Pass
  }

  /** The specification that the node picks can be built, and listens to the stream at
      most once. */
  ghost predicate Usable(specs: seq<FilterSpec>, topo: Topology, streams: Tags, name: string) {
    match Pick(specs, topo)
    case None => true
    case Some(i) => i < |specs| ==>
      specs[i].loads && Bindable(specs[i].fromBelow, streams) && Times(specs[i].fromBelow, name) <= 1
  }

  /** The component networks: a network that listens to the stream answers every value
      by one value on it, and nothing else is sent on it. */
  ghost predicate Answers(world: World, row: Row, role: Role) {
    && (role.Apply? ==>
          forall x: int, k: nat :: world(row, Data(row.tag, x), k) == Reaction([(row.tag, role.f(x))], [], false))
    && (forall r: Row, p: Packet, k: nat :: r.tag != row.tag ==> Bodies(AsData(world(r, p, k).up), row.tag) == [])
  }

  /** A filter plays the role that its configuration messages give it, whatever other
      networks it was told about and whatever values came through in between. */
  lemma ConfiguredPlays(book: Book, actions: seq<Action>, topo: Topology, world: World, uid: int, name: string,
                        meaning: FilterSpec -> int -> int)
    requires Apart(book) && AllByTheBook(book, actions) && uid in book && name in book[uid]
    requires Running(About(Told(actions), uid))
    requires Usable(SpecsFor(About(Told(actions), uid), uid), topo, book[uid], name)
    requires Answers(world, Row(uid, book[uid][name], name),
                     RoleOf(SpecsFor(About(Told(actions), uid), uid), topo, name, meaning))
    ensures Plays(Acts(FRESH, actions, topo, world).upRows, world, book[uid][name],
                  RoleOf(SpecsFor(About(Told(actions), uid), uid), topo, name, meaning))
  {
    hide Acts, NetOf, Pick, Bind, AllByTheBook, Apart, About, SpecsFor, Scripted, WithTag, Takes, Times;
    var script := About(Told(actions), uid);
    AboutMembers(Told(actions), uid);
    forall i | 0 <= i < |script| ensures Concerns(script[i], uid) { assert script[i] in script; }
    ConfiguredRows(book, actions, topo, world, uid, name);
    OnlyAboutMatters(Told(actions), uid, topo);
    ScriptBuildsThePick(script, uid, topo);
    var specs := SpecsFor(script, uid);
    PickIsFirst(specs, topo);
    BookIsProper(book, uid);
    var rows := WithTag(Acts(FRESH, actions, topo, world).upRows, book[uid][name]);
    if Pick(specs, topo).Some? {
      var spec := specs[Pick(specs, topo).value];
      TaggedBound(uid, book[uid], spec.fromBelow, name);
      OneCopy(Row(uid, book[uid][name], name), Times(spec.fromBelow, name));
      assert rows == Copies(Row(uid, book[uid][name], name), Times(spec.fromBelow, name));
    } else {
      assert rows == [];
    }
  }

  lemma OneCopy(r: Row, n: nat)
    requires n <= 1
    ensures Copies(r, n) == if n == 0 then [] else [r]
  {
  }

  lemma BookIsProper(book: Book, uid: int)
    requires Apart(book) && uid in book
    ensures Proper(book[uid])
  {
  }

  // ------------------------------------------------------------- a configured chain

  /** Every node of the chain has been told the same about one network, in its own
      time, among whatever else; its role is what that gives it. */
  ghost predicate Configured(t: Paths, s: Flow, book: Book, told: seq<seq<Action>>,
                             uid: int, name: string, meaning: FilterSpec -> int -> int, script: seq<Packet>)
  {
    && IsPaths(t) && |t.parents| == |told| == |s.filters| == |s.inbox|
    && Apart(book) && uid in book && name in book[uid] && t.tag == book[uid][name] && Running(script)
    && forall n :: 0 <= n < |t.parents| ==>
         ConfiguredNode(s.filters[n], book, told[n], t.topos[n], t.worlds[n], t.roles[n], uid, name, meaning, script)
  }

  ghost predicate ConfiguredNode(st: State, book: Book, actions: seq<Action>, topo: Topology, world: World, role: Role,
                                 uid: int, name: string, meaning: FilterSpec -> int -> int, script: seq<Packet>)
    requires uid in book && name in book[uid]
  {
    && AllByTheBook(book, actions) && About(Told(actions), uid) == script
    && st == Acts(FRESH, actions, topo, world) && st.upQueue == []
    && role == RoleOf(SpecsFor(script, uid), topo, name, meaning)
    && Usable(SpecsFor(script, uid), topo, book[uid], name)
    && Answers(world, Row(uid, book[uid][name], name), role)
  }

  lemma NodeIsReady(st: State, book: Book, actions: seq<Action>, topo: Topology, world: World, role: Role,
                    uid: int, name: string, meaning: FilterSpec -> int -> int, script: seq<Packet>)
    requires Apart(book) && uid in book && name in book[uid] && Running(script)
    requires ConfiguredNode(st, book, actions, topo, world, role, uid, name, meaning, script)
    ensures Plays(st.upRows, world, book[uid][name], role) && st.upQueue == []
  {
    hide Acts, AllByTheBook, About, SpecsFor, Usable, RoleOf, Answers, Plays, Apart, Running;
    ConfiguredPlays(book, actions, topo, world, uid, name, meaning);
  }

  lemma ConfiguredIsReady(t: Paths, s: Flow, book: Book, told: seq<seq<Action>>,
                          uid: int, name: string, meaning: FilterSpec -> int -> int, script: seq<Packet>)
    requires Configured(t, s, book, told, uid, name, meaning, script)
    ensures Ready(t, s)
  {
    hide ConfiguredNode, Plays, Apart, Running;
    forall n | 0 <= n < |t.parents|
      ensures Plays(s.filters[n].upRows, t.worlds[n], t.tag, t.roles[n]) && s.filters[n].upQueue == []
    {
      NodeIsReady(s.filters[n], book, told[n], t.topos[n], t.worlds[n], t.roles[n], uid, name, meaning, script);
    }
  }

  /** From configuration to values: on a chain whose nodes were told one network's
      messages, a value that the backend sends reaches the frontend as the composition,
      lowest node first, of what the specifications picked by the nodes mean. All
      values arrive in order, and none is lost once the queues are empty. */
  lemma ArrivesAsConfigured(t: Paths, s: Flow, book: Book, told: seq<seq<Action>>,
                            uid: int, name: string, meaning: FilterSpec -> int -> int, script: seq<Packet>,
                            moves: seq<Move>)
    requires IsChain(t) && Configured(t, s, book, told, uid, name, meaning, script)
    requires OnlyAtTheEnd(t, moves)
    requires s.received == [] && forall n :: 0 <= n < |s.inbox| ==> s.inbox[n] == []
    ensures Ready(t, s)
    ensures var s' := Moves(t, s, moves);
            var sent := ComposedAll(t, |t.parents| - 1, Bodies(ValueOrder.Sent(t, moves), t.tag));
            && Bodies(s'.received, t.tag) <= sent
            && ((forall n :: 0 <= n < |s'.inbox| ==> Bodies(s'.inbox[n], t.tag) == []) ==>
                  Bodies(s'.received, t.tag) == sent)
  {
    hide Configured, Moves, ComposedAll, Ready;
    ConfiguredIsReady(t, s, book, told, uid, name, meaning, script);
    ArrivesInOrder(t, s, moves);
  }

  // ------------------------------------------------------ the test's own network

  const INCREMENTERS := FilterSpec(0, [Depth(0, [], [], [{1, 2, 4}])], true, [Incoming("UpwardStream", true)], [])

  function Increment(x: int): int { x + 1 }
  function Double(x: int): int { 2 * x }

  /** Every filter network of the test holds one incrementer. */
  function Incrementing(spec: FilterSpec): int -> int {
    x => Increment(x)
  }

  lemma IncrementersTake(topo: Topology)
    ensures Pick([INCREMENTERS], topo) == if topo.rootDistance in {1, 2, 4} then Some(0) else None
    ensures Times(INCREMENTERS.fromBelow, "UpwardStream") == 1
  {
    var specs := [INCREMENTERS];
    assert INCREMENTERS.depths[..0] == [] && specs[..0] == [];
    assert SelectedBy(INCREMENTERS.depths[..0], topo, false) == false;
    assert Takes(INCREMENTERS, topo) == (topo.rootDistance in {1, 2, 4});
    assert Pick(specs[..0], topo) == None;
    assert INCREMENTERS.fromBelow[..0] == [];
  }

  lemma ThreeIncrements(t: Paths, y: int)
    requires IsChain(t) && |t.parents| == 6
    requires forall n :: 0 <= n < 6 ==>
               t.topos[n].rootDistance == n &&
               t.roles[n] == RoleOf([INCREMENTERS], t.topos[n], "UpwardStream", Incrementing)
    ensures Composed(t, 5, y) == y + 3
  {
    forall n | 0 <= n < 6
      ensures forall x :: Do(t.roles[n], x) == if n in {1, 2, 4} then x + 1 else x
    {
      IncrementersTake(t.topos[n]);
    }
    assert Composed(t, 5, y) == Composed(t, 4, y) == Composed(t, 3, y + 1) == Composed(t, 2, y + 1);
    assert Composed(t, 2, y + 1) == Composed(t, 1, y + 2) == Composed(t, 0, y + 3);
  }

  lemma {:induction false} ThreeIncrementsEach(t: Paths, ys: seq<int>)
    requires IsChain(t) && |t.parents| == 6
    requires forall n :: 0 <= n < 6 ==>
               t.topos[n].rootDistance == n &&
               t.roles[n] == RoleOf([INCREMENTERS], t.topos[n], "UpwardStream", Incrementing)
    ensures |ComposedAll(t, 5, ys)| == |ys|
    ensures forall i :: 0 <= i < |ys| ==> ComposedAll(t, 5, ys)[i] == ys[i] + 3
  {
    hide Composed, RoleOf, IsPaths;
    if ys != [] {
      ThreeIncrementsEach(t, ys[..|ys| - 1]);
      ThreeIncrements(t, ys[|ys| - 1]);
    }
  }

  /** The test's network on six processes in a row, configured with its one filter
      specification: if the frontend increments every value on its way down and the
      backend doubles it, then, once all queues are empty, the values that have come
      back and are incremented by the frontend are 2x + 6, in the order of the x. */
  lemma TwiceXPlusSix(t: Paths, s: Flow, book: Book, told: seq<seq<Action>>,
                      uid: int, script: seq<Packet>, moves: seq<Move>, xs: seq<int>)
    requires IsChain(t) && |t.parents| == 6
    requires Configured(t, s, book, told, uid, "UpwardStream", Incrementing, script)
    requires SpecsFor(script, uid) == [INCREMENTERS]
    requires forall n :: 0 <= n < 6 ==> t.topos[n].rootDistance == n
    requires OnlyAtTheEnd(t, moves) && Ready(t, s)
    requires s.received == [] && forall n :: 0 <= n < |s.inbox| ==> s.inbox[n] == []
    requires |Bodies(ValueOrder.Sent(t, moves), t.tag)| == |xs|
    requires forall i :: 0 <= i < |xs| ==> Bodies(ValueOrder.Sent(t, moves), t.tag)[i] == Double(Increment(xs[i]))
    requires var s' := Moves(t, s, moves); forall n :: 0 <= n < |s'.inbox| ==> Bodies(s'.inbox[n], t.tag) == []
    ensures var back := Bodies(Moves(t, s, moves).received, t.tag);
            |back| == |xs| && forall i :: 0 <= i < |xs| ==> Increment(back[i]) == 2 * xs[i] + 6
  {
    hide Moves, ComposedAll, Ready, Bodies, ValueOrder.Sent;
    ArrivesAsConfigured(t, s, book, told, uid, "UpwardStream", Incrementing, script, moves);
    ConfiguredRoles(t, s, book, told, uid, script);
    ThreeIncrementsEach(t, Bodies(ValueOrder.Sent(t, moves), t.tag));
  }

  lemma ConfiguredRoles(t: Paths, s: Flow, book: Book, told: seq<seq<Action>>,
                        uid: int, script: seq<Packet>)
    requires Configured(t, s, book, told, uid, "UpwardStream", Incrementing, script)
    requires SpecsFor(script, uid) == [INCREMENTERS]
    ensures |t.roles| == |t.topos| == |t.parents|
    ensures forall n :: 0 <= n < |t.topos| ==>
              t.roles[n] == RoleOf([INCREMENTERS], t.topos[n], "UpwardStream", Incrementing)
  {
    hide RoleOf, Usable, Answers, Acts, About;
  }
}
