/** The frontend component: what it sends when it is given a network, in order. */
module Frontend {
  import opened StreamTags
  import opened DepthSelection
  import opened FilterNode
  import opened FilterRuns
  import opened Scripts
  import opened Wrappers
  import opened HandlerRows
  import TreeProtocol

  /** The frontend of an MRNet network: its link to the tree, of which `sent` is
      everything handed to it, and its message handlers. */
  class Link {
    var sent: seq<Packet>
    const handlers: HandlerTable

    constructor ()
      ensures sent == [] && fresh(handlers) && handlers.rows == []
    {
      sent := [];
      handlers := new HandlerTable();
    }

    method SendToBackends(p: Packet)
      modifies this
      ensures sent == old(sent) + [p]
    {
      sent := sent + [p];
    }
  }

  function FilterMessages(uid: int, specs: seq<FilterSpec>): seq<Packet> {
    if specs == [] then []
    else FilterMessages(uid, specs[..|specs| - 1]) + [SpecifyFilter(uid, specs[|specs| - 1])]
  }

  function BackendMessages(uid: int, specs: seq<BackendSpec>): seq<Packet> {
    if specs == [] then []
    else
      BackendMessages(uid, specs[..|specs| - 1]) + [SpecifyBackend(uid, specs[|specs| - 1])]
  }

  /** The configuration of one network, as it is sent. */
  function Script(uid: int, names: seq<string>, tags: seq<int>,
                  filters: seq<FilterSpec>, backends: seq<BackendSpec>): seq<Packet>
  {
    [SpecifyNamedStreams(uid, names, tags)] + FilterMessages(uid, filters)
    + BackendMessages(uid, backends) + [NetworkReady(uid)]
  }

  datatype Outcome = Accepted | Refused | BrokenOff

  /** One outgoing stream: its name, and whether the network has an output of the
      wanted name that it can be connected to. */
  datatype Outgoing = Outgoing(name: string, fits: bool)

  ghost predicate AllConnect(streams: Tags, uses: seq<Outgoing>) {
    forall i :: 0 <= i < |uses| ==> uses[i].name in streams && uses[i].fits
  }

  /** `hasNetwork` says whether the description has a frontend network that loads;
      `fromBelow` are the streams it takes, and `toBelow` those it gives. */
  class MRNetComponent {
    const uid: int
    const names: seq<string>
    const tags: seq<int>
    const hasNetwork: bool
    const fromBelow: seq<Incoming>
    const toBelow: seq<Outgoing>
    const filters: seq<FilterSpec>
    const backends: seq<BackendSpec>
    var link: Link?

    constructor (uid: int, names: seq<string>, tags: seq<int>,
                 hasNetwork: bool, fromBelow: seq<Incoming>, toBelow: seq<Outgoing>,
                 filters: seq<FilterSpec>, backends: seq<BackendSpec>)
      ensures this.uid == uid && this.names == names && this.tags == tags
      ensures this.hasNetwork == hasNetwork && this.fromBelow == fromBelow && this.toBelow == toBelow
      ensures this.filters == filters && this.backends == backends && link == null
    {
      this.uid, this.names, this.tags := uid, names, tags;
      this.hasNetwork, this.fromBelow, this.toBelow := hasNetwork, fromBelow, toBelow;
      this.filters, this.backends := filters, backends;
      link := null;
    }

    /** Accepts one network only. Binds the frontend's own streams first, the incoming
        ones before the outgoing ones; if that breaks off, the network stays accepted, but
        nothing is ever sent. Otherwise sends streams, filters, backends, readiness. */
    method HandleNetwork(network: Link) returns (o: Outcome)
      modifies this, network, network.handlers
      ensures o == Refused <==> old(link) != null
      ensures o == Accepted <==>
                && old(link) == null && hasNetwork
                && (forall i :: 0 <= i < |fromBelow| ==> CanBind(Decode(names, tags), fromBelow[i]))
                && (forall i :: 0 <= i < |toBelow| ==> toBelow[i].name in Decode(names, tags) && toBelow[i].fits)
      ensures o == Refused ==> link == old(link) && network.handlers.rows == old(network.handlers.rows)
      ensures o != Refused ==>
                link == network && network.handlers.rows == old(network.handlers.rows) +
                if hasNetwork then Bound(uid, Decode(names, tags), fromBelow) else []
      ensures network.sent == old(network.sent) +
              if o == Accepted then Script(uid, names, tags, filters, backends) else []
    {
      hide Script, Bound;
      if link != null { return Refused; }
      link := network;
      var bound := BindStreams(network.handlers);
      if !bound { return BrokenOff; }
      SendDescription(network);
      o := Accepted;
    }

    method BindStreams(handlers: HandlerTable) returns (ok: bool)
      modifies handlers
      ensures ok <==>
                && hasNetwork
                && (forall i :: 0 <= i < |fromBelow| ==> CanBind(Decode(names, tags), fromBelow[i]))
                && AllConnect(Decode(names, tags), toBelow)
      ensures handlers.rows == old(handlers.rows) +
              if hasNetwork then Bound(uid, Decode(names, tags), fromBelow) else []
    {
      hide Bind, Bound, AllBound;
      if !hasNetwork { return false; }
      BindAppends(handlers.rows, uid, Decode(names, tags), fromBelow);
      ghost var n := BoundExact(uid, Decode(names, tags), fromBelow);
      ok := handlers.BindStreams(uid, Decode(names, tags), fromBelow);
      if ok { ok := ConnectOutgoing(Decode(names, tags)); }
    }

    method ConnectOutgoing(streams: Tags) returns (ok: bool)
      ensures ok == AllConnect(streams, toBelow)
    {
      for k := 0 to |toBelow|
        invariant AllConnect(streams, toBelow[..k])
      {
        if toBelow[k].name !in streams || !toBelow[k].fits { return false; }
      }
      ok := true;
    }

    method SendDescription(network: Link)
      modifies network
      ensures network.sent == old(network.sent) + Script(uid, names, tags, filters, backends)
    {
      hide FilterMessages, BackendMessages;
      network.SendToBackends(SpecifyNamedStreams(uid, names, tags));
      SendFilters(network, false);
      SendFilters(network, true);
      SendSpecifications(network);
      network.SendToBackends(NetworkReady(uid));
    }

    /** One pass over the filters. The flag that should tell `AllOther` filters
        apart is handed over by value, so the assignment is lost and the flag stays
        down: the first pass sends everything, and the second nothing. */
    method SendFilters(network: Link, sendAllOther: bool)
      modifies network
      ensures network.sent == old(network.sent) + if sendAllOther then [] else FilterMessages(uid, filters)
    {
      for k := 0 to |filters|
        invariant network.sent ==
                  old(network.sent) + if sendAllOther then [] else FilterMessages(uid, filters[..k])
      {
        assert filters[..k + 1][..k] == filters[..k];
        var isAllOther := false;
        if MentionsAllOther(filters[k]) {
          var copy := isAllOther;
          copy := true;
        }
        if sendAllOther == isAllOther {
          network.SendToBackends(SpecifyFilter(uid, filters[k]));
        }
      }
      assert filters[..|filters|] == filters;
    }

    method SendSpecifications(network: Link)
      modifies network
      ensures network.sent == old(network.sent) + BackendMessages(uid, backends)
    {
      for k := 0 to |backends|
        invariant network.sent == old(network.sent) + BackendMessages(uid, backends[..k])
      {
        assert backends[..k + 1][..k] == backends[..k];
        network.SendToBackends(SpecifyBackend(uid, backends[k]));
      }
      assert backends[..|backends|] == backends;
    }

    /** Destruction tells the tree once a network was accepted, and takes back the
        frontend's handlers. */
    method Destroy()
      modifies this, link, if link == null then {} else {link.handlers}
      ensures old(link) != null ==>
                && old(link).sent == old(link.sent) + [DestroyNetwork(uid)]
                && old(link).handlers.rows == WithoutUid(old(link.handlers.rows), uid)
      ensures link == null
    {
      if link != null {
        link.SendToBackends(DestroyNetwork(uid));
        link.handlers.Remove(uid);
        link := null;
      }
    }
  }

  // ------------------------------------------------------------ what is promised

  lemma {:induction false} FilterMessagesAre(uid: int, specs: seq<FilterSpec>)
    ensures |FilterMessages(uid, specs)| == |specs|
    ensures forall i :: 0 <= i < |specs| ==> FilterMessages(uid, specs)[i] == SpecifyFilter(uid, specs[i])
  {
    if specs != [] {
      FilterMessagesAre(uid, specs[..|specs| - 1]);
    }
  }

  lemma {:induction false} BackendMessagesAre(uid: int, specs: seq<BackendSpec>)
    ensures |BackendMessages(uid, specs)| == |specs|
    ensures forall i :: 0 <= i < |specs| ==> BackendMessages(uid, specs)[i] == SpecifyBackend(uid, specs[i])
  {
    if specs != [] {
      BackendMessagesAre(uid, specs[..|specs| - 1]);
    }
  }

  lemma {:induction false} AllAbout(ps: seq<Packet>, uid: int, other: int)
    requires forall i :: 0 <= i < |ps| ==> Concerns(ps[i], uid)
    ensures About(ps, uid) == ps
    ensures other != uid ==> About(ps, other) == []
  {
    if ps != [] {
      AllAbout(ps[..|ps| - 1], uid, other);
    }
  }

  lemma ScriptShape(uid: int, names: seq<string>, tags: seq<int>, filters: seq<FilterSpec>, backends: seq<BackendSpec>)
    ensures var s := Script(uid, names, tags, filters, backends) + [DestroyNetwork(uid)];
            Scripted(s) && forall i :: 0 <= i < |s| ==> Concerns(s[i], uid)
  {
    FilterMessagesAre(uid, filters);
    BackendMessagesAre(uid, backends);
    var s := Script(uid, names, tags, filters, backends) + [DestroyNetwork(uid)];
    var f, b := |filters|, |backends|;
    assert forall i :: 1 <= i < 1 + f ==> s[i] == SpecifyFilter(uid, filters[i - 1]);
    assert forall i :: 1 + f <= i < 1 + f + b ==> s[i] == SpecifyBackend(uid, backends[i - 1 - f]);
    assert s[0] == SpecifyNamedStreams(uid, names, tags);
    assert s[1 + f + b] == NetworkReady(uid) && s[2 + f + b] == DestroyNetwork(uid);
    assert |s| == 3 + f + b;
  }

  /** Whatever other networks put on the same link, a fresh network's messages are
      in the order the tree protocol relies on, from first to last. */
  lemma SendOrder(before: seq<Packet>, uid: int, names: seq<string>, tags: seq<int>,
                  filters: seq<FilterSpec>, backends: seq<BackendSpec>, other: int)
    requires About(before, uid) == []
    ensures var script := Script(uid, names, tags, filters, backends);
            && About(before + script, uid) == script && Scripted(script)
            && Scripted(script + [DestroyNetwork(uid)])
            && (other != uid ==> About(before + script, other) == About(before, other))
  {
    hide Script, Scripted, Concerns, About;
    var script := Script(uid, names, tags, filters, backends);
    var whole := script + [DestroyNetwork(uid)];
    ScriptShape(uid, names, tags, filters, backends);
    assert script <= whole;
    PrefixIsScripted(script, whole);
    forall i | 0 <= i < |script| ensures Concerns(script[i], uid) {
      assert script[i] == whole[i];
    }
    AboutConcat(before, script, uid);
    AboutConcat(before, script, other);
    AllAbout(script, uid, other);
    assert [] + script == script && About(before, other) + [] == About(before, other);
  }

  lemma ScriptRuns(uid: int, names: seq<string>, tags: seq<int>, filters: seq<FilterSpec>, backends: seq<BackendSpec>)
    ensures Running(Script(uid, names, tags, filters, backends))
  {
    hide Scripted;
    var script := Script(uid, names, tags, filters, backends);
    ScriptShape(uid, names, tags, filters, backends);
    PrefixIsScripted(script, script + [DestroyNetwork(uid)]);
    FilterMessagesAre(uid, filters);
    BackendMessagesAre(uid, backends);
  }

  lemma {:induction false} SpecsConcat(a: seq<Packet>, b: seq<Packet>, uid: int)
    ensures SpecsFor(a + b, uid) == SpecsFor(a, uid) + SpecsFor(b, uid)
  {
    if b == [] {
      assert a + b == a && SpecsFor([], uid) == [];
    } else {
      hide SpecsFor;
      var front, last := b[..|b| - 1], b[|b| - 1];
      SpecsConcat(a, front, uid);
      OneSpec(a + front, last, uid);
      OneSpec(front, last, uid);
      assert (a + front) + [last] == a + b && front + [last] == b;
    }
  }

  lemma {:induction false} BackendsConcat(a: seq<Packet>, b: seq<Packet>, uid: int)
    ensures BackendsFor(a + b, uid) == BackendsFor(a, uid) + BackendsFor(b, uid)
  {
    if b == [] {
      assert a + b == a && BackendsFor([], uid) == [];
    } else {
      hide BackendsFor;
      var front, last := b[..|b| - 1], b[|b| - 1];
      BackendsConcat(a, front, uid);
      OneSpec(a + front, last, uid);
      OneSpec(front, last, uid);
      assert (a + front) + [last] == a + b && front + [last] == b;
    }
  }

  lemma OneSpec(before: seq<Packet>, p: Packet, uid: int)
    ensures SpecsFor(before + [p], uid) ==
            SpecsFor(before, uid) + if p.SpecifyFilter? && p.uid == uid then [p.spec] else []
    ensures BackendsFor(before + [p], uid) ==
            BackendsFor(before, uid) + if p.SpecifyBackend? && p.uid == uid then [p.backend] else []
  {
    assert (before + [p])[..|before|] == before;
  }

  lemma {:induction false} FiltersCarried(uid: int, filters: seq<FilterSpec>)
    ensures SpecsFor(FilterMessages(uid, filters), uid) == filters
    ensures BackendsFor(FilterMessages(uid, filters), uid) == []
  {
    if filters != [] {
      hide SpecsFor, BackendsFor;
      var front, last := filters[..|filters| - 1], filters[|filters| - 1];
      FiltersCarried(uid, front);
      OneSpec(FilterMessages(uid, front), SpecifyFilter(uid, last), uid);
      assert front + [last] == filters;
    }
  }

  lemma {:induction false} BackendsCarried(uid: int, backends: seq<BackendSpec>)
    ensures SpecsFor(BackendMessages(uid, backends), uid) == []
    ensures BackendsFor(BackendMessages(uid, backends), uid) == backends
  {
    if backends != [] {
      hide SpecsFor, BackendsFor;
      var front, last := backends[..|backends| - 1], backends[|backends| - 1];
      BackendsCarried(uid, front);
      OneSpec(BackendMessages(uid, front), SpecifyBackend(uid, last), uid);
      assert front + [last] == backends;
    }
  }

  /** The script carries the streams and every specification of the description, each
      once and in document order. */
  lemma ScriptCarries(uid: int, names: seq<string>, tags: seq<int>,
                      filters: seq<FilterSpec>, backends: seq<BackendSpec>)
    ensures var script := Script(uid, names, tags, filters, backends);
            && script != [] && script[0] == SpecifyNamedStreams(uid, names, tags)
            && SpecsFor(script, uid) == filters && BackendsFor(script, uid) == backends
            && |script| == 2 + |filters| + |backends| && script[|script| - 1] == NetworkReady(uid)
  {
    var first, last := SpecifyNamedStreams(uid, names, tags), NetworkReady(uid);
    var f, b := FilterMessages(uid, filters), BackendMessages(uid, backends);
    NothingCarried(uid);
    hide SpecsFor, BackendsFor;
    FilterMessagesAre(uid, filters);
    BackendMessagesAre(uid, backends);
    FiltersCarried(uid, filters);
    BackendsCarried(uid, backends);
    assert [] + [first] == [first];
    OneSpec([], first, uid);
    SpecsConcat([first], f, uid);
    BackendsConcat([first], f, uid);
    SpecsConcat([first] + f, b, uid);
    BackendsConcat([first] + f, b, uid);
    OneSpec([first] + f + b, last, uid);
  }

  lemma NothingCarried(uid: int)
    ensures SpecsFor([], uid) == [] && BackendsFor([], uid) == []
  {
  }

  /** From the description to the processes: once the frontend has sent a network's
      script and nothing about the network is on its way any more, every filter of the
      tree has its named streams and the first filter specification of the description
      that takes it, and every backend runs the first backend specification. */
  lemma DescriptionReachesAll(t: TreeProtocol.Tree, events: seq<TreeProtocol.Event>, n: nat, uid: int,
                              names: seq<string>, tags: seq<int>, filters: seq<FilterSpec>, backends: seq<BackendSpec>)
    requires TreeProtocol.IsTree(t) && TreeProtocol.SendsGood(events) && n < |t.parents|
    requires var s := TreeProtocol.After(t, events);
             About(s.sent, uid) == Script(uid, names, tags, filters, backends) && TreeProtocol.Quiet(s, uid)
    ensures var s, streams := TreeProtocol.After(t, events), Decode(names, tags);
            if t.isBackend[n] then
              && uid in s.backends[n].networks
              && s.backends[n].networks[uid] == Backend.Local(streams, StageFor(backends))
              && OfUid(s.backends[n].rows, uid) == HandlersFor(uid, streams, backends)
            else
              && At(s.filters[n].networks, uid) == Some(Net(streams, PhaseFor(filters, t.topos[n])))
              && Table(s.filters[n], uid)
  {
    hide Script, Running, About, TreeProtocol.After, TreeProtocol.Quiet, Decode, PhaseFor, Table;
    ScriptCarries(uid, names, tags, filters, backends);
    ScriptRuns(uid, names, tags, filters, backends);
    TreeProtocol.QuietTreeIsSettled(t, events, n, uid);
  }
}
