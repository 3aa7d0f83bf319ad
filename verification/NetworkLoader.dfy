/** Building a network from its description: components by name, a mediator for each
    of the network's inputs and outputs, and the connections between components. */
module NetworkLoader {
  import opened Wrappers
  import opened ComponentGraph
  import opened Flattening

  /** One `<Component>`: its name, and what the factory made for its type and version,
      if there is a suitable version. */
  datatype ComponentXml = ComponentXml(name: string, instance: Option<nat>)
  datatype InputXml = InputXml(name: string, to: string, port: string)
  datatype ConnectionXml = ConnectionXml(source: string, output: string, to: string, input: string)
  datatype OutputXml = OutputXml(name: string, source: string, port: string)

  /** All components there are, and what each one is. */
  datatype Site = Site(comps: seq<Comp>, kinds: seq<Kind>)

  /** The network under construction. */
  datatype Net = Net(self: nat, components: map<string, nat>, mediators: seq<nat>)

  ghost predicate Proper(site: Site) {
    && |site.comps| == |site.kinds| && Sound(site.comps) && HandlersMatch(site.comps)
    && forall c :: 0 <= c < |site.kinds| ==> ForwardsTo(site.comps, site.kinds[c])
  }

  lemma ProperForwards(site: Site)
    requires Proper(site)
    ensures Forwards(GraphOf(site))
  {
    var g := GraphOf(site);
    forall t: End | Next(g, t).Some? ensures g.declared(Next(g, t).value) {
      assert t.0 < |site.kinds| && ForwardsTo(site.comps, site.kinds[t.0]);
    }
  }

  ghost predicate MoreOutputs(w: seq<Comp>, w': seq<Comp>) {
    |w| <= |w'| && forall i :: 0 <= i < |w| ==> w[i].outputs.Keys <= w'[i].outputs.Keys
  }

  lemma AllForward(w: seq<Comp>, w': seq<Comp>, kinds: seq<Kind>)
    requires MoreOutputs(w, w') && forall c :: 0 <= c < |kinds| ==> ForwardsTo(w, kinds[c])
    ensures forall c :: 0 <= c < |kinds| ==> ForwardsTo(w', kinds[c])
  {
  }

  ghost predicate Belongs(site: Site, net: Net) {
    && |site.comps| == |site.kinds|
    && Alive(site.comps, net.self) && site.kinds[net.self].Network?
    && site.kinds[net.self].inputs.Keys <= site.comps[net.self].inputs.Keys
    && forall name :: name in net.components ==>
         Alive(site.comps, net.components[name]) && net.components[name] != net.self
  }

  function Wires(comps: seq<Comp>): End -> seq<End> {
    (e: End) => if e.0 < |comps| then Reached(comps[e.0].conns, e.1, Living(comps)) else []
  }

  function KindAt(kinds: seq<Kind>): nat -> Kind {
    (c: nat) => if c < |kinds| then kinds[c] else InputMediator
  }

  function Declared(comps: seq<Comp>): End -> bool {
    (e: End) => e.0 < |comps| && e.1 in comps[e.0].outputs
  }

  function GraphOf(site: Site): Graph {
    Graph(KindAt(site.kinds), Wires(site.comps), Declared(site.comps))
  }

  /** What a forwarding component forwards to is declared. */
  predicate ForwardsTo(comps: seq<Comp>, kind: Kind) {
    match kind
    case OutputMediator(owner, output) => owner < |comps| && output in comps[owner].outputs
    case Network(inputs) =>
      forall name :: name in inputs ==> inputs[name] < |comps| && "value" in comps[inputs[name]].outputs
    case _ => true
  }

  // -------------------------------------------------------------- one element each

  function AddComponent(net: Net, x: ComponentXml): Option<Net> {
    if x.name in net.components || x.instance == None then None
    else Some(net.(components := net.components[x.name := x.instance.value]))
  }

  /** A new input mediator, connected to the inner input, handles the network's. */
  function AddInput(site: Site, net: Net, x: InputXml): Option<(Site, Net)>
    requires Belongs(site, net)
  {
    if x.to !in net.components then None
    else
      var c, m := net.components[x.to], |site.comps|;
      if x.port !in site.comps[c].inputs then None
      else
        var kind := site.comps[c].inputs[x.port];
        var w1 := Step(Step(site.comps, Create).0, DeclareOutput(m, "value", kind)).0;
        var (w2, o2) := Step(w1, Connect(m, Connection("value", c, x.port)));
        var (w3, o3) := Step(w2, DeclareInput(net.self, x.name, kind));
        if o2 != Done || o3 != Done then None
        else
          var inputs := site.kinds[net.self].inputs[x.name := m];
          Some((Site(w3, (site.kinds + [InputMediator])[net.self := Network(inputs)]),
                net.(mediators := net.mediators + [m])))
  }

  function AddConnection(site: Site, net: Net, x: ConnectionXml): Option<(Site, Net)> {
    if x.source !in net.components || x.to !in net.components then None
    else
      var (w, o) := Step(site.comps, Connect(net.components[x.source],
                                             Connection(x.output, net.components[x.to], x.input)));
      if o != Done then None else Some((Site(w, site.kinds), net))
  }

  /** A new output mediator, connected to the inner output, emits the network's. */
  function AddOutput(site: Site, net: Net, x: OutputXml): Option<(Site, Net)>
    requires Belongs(site, net)
  {
    if x.source !in net.components then None
    else
      var c, m := net.components[x.source], |site.comps|;
      if x.port !in site.comps[c].outputs then None
      else
        var kind := site.comps[c].outputs[x.port];
        var w1 := Step(Step(site.comps, Create).0, DeclareInput(m, "value", kind)).0;
        var (w2, o2) := Step(w1, Connect(c, Connection(x.port, m, "value")));
        var (w3, o3) := Step(w2, DeclareOutput(net.self, x.name, kind));
        if o2 != Done || o3 != Done then None
        else Some((Site(w3, site.kinds + [OutputMediator(net.self, x.name)]),
                   net.(mediators := net.mediators + [m])))
  }

  // ------------------------------------------------- what each step does to the wires

  /** What a list of ports becomes under one more connection. */
  function Extra(e: End, from: End, to: End): seq<End> {
    if e == from then [to] else []
  }

  lemma {:induction false} SameReached(conns: seq<Connection<nat>>, output: string, a: set<nat>, b: set<nat>)
    requires forall c :: c in conns ==> (c.target in a <==> c.target in b)
    ensures Reached(conns, output, a) == Reached(conns, output, b)
  {
    if conns != [] {
      assert forall c :: c in conns[..|conns| - 1] ==> c in conns;
      SameReached(conns[..|conns| - 1], output, a, b);
    }
  }

  /** A step that keeps all connections of the components there were, and who lives. */
  lemma WiresKept(w: seq<Comp>, w': seq<Comp>, e: End)
    requires Sound(w) && |w| <= |w'|
    requires forall i :: 0 <= i < |w| ==> w'[i].conns == w[i].conns && w'[i].alive == w[i].alive
    requires forall i :: |w| <= i < |w'| ==> w'[i].conns == []
    ensures Wires(w')(e) == Wires(w)(e)
  {
    if e.0 < |w| {
      forall c | c in w[e.0].conns ensures c.target in Living(w) <==> c.target in Living(w') {
        TargetsExist(w, e.0, c);
      }
      SameReached(w[e.0].conns, e.1, Living(w), Living(w'));
    }
  }

  lemma TargetsExist(w: seq<Comp>, i: nat, c: Connection<nat>)
    requires Sound(w) && i < |w| && c in w[i].conns
    ensures c.target < |w|
  {
  }

  lemma Connected(w: seq<Comp>, i: nat, c: Connection<nat>)
    requires Step(w, Connect(i, c)).1 == Done
    ensures Alive(w, i) && Alive(w, c.target)
    ensures Step(w, Connect(i, c)).0 == w[i := w[i].(conns := w[i].conns + [c])]
  {
  }

  lemma ConnectWires(w: seq<Comp>, i: nat, c: Connection<nat>, e: End)
    requires Step(w, Connect(i, c)).1 == Done
    ensures Wires(Step(w, Connect(i, c)).0)(e) == Wires(w)(e) + Extra(e, (i, c.output), (c.target, c.input))
  {
    hide Reached, Connecting;
    var w' := Step(w, Connect(i, c)).0;
    Connected(w, i, c);
    assert Living(w') == Living(w);
    if e.0 == i {
      ReachedSnoc(w[i].conns, c, e.1, Living(w));
    } else {
      assert Wires(w')(e) == Wires(w)(e) + [];
    }
  }

  lemma StepIsProper(w: seq<Comp>, op: Op)
    requires Sound(w) && HandlersMatch(w)
    ensures Sound(Step(w, op).0) && HandlersMatch(Step(w, op).0)
  {
    StepKeepsSound(w, op);
    StepKeepsHandlers(w, op);
  }

  /** A call that creates nothing, connects nothing and ends nothing. */
  lemma DeclareKeeps(w: seq<Comp>, op: Op)
    requires op.DeclareInput? || op.DeclareOutput?
    ensures var w' := Step(w, op).0;
            && |w'| == |w|
            && forall i :: 0 <= i < |w| ==>
                 w'[i].conns == w[i].conns && w'[i].alive == w[i].alive &&
                 (op.c != i ==> w'[i] == w[i])
  {
  }

  lemma DeclareGrows(w: seq<Comp>, op: Op)
    requires op.DeclareInput? || op.DeclareOutput?
    ensures var w' := Step(w, op).0;
            && |w'| == |w| && MoreOutputs(w, w')
            && forall i :: 0 <= i < |w| ==> w[i].inputs.Keys <= w'[i].inputs.Keys
  {
  }

  lemma CreateKeeps(w: seq<Comp>)
    ensures var w' := Step(w, Create).0;
            |w'| == |w| + 1 && w'[..|w|] == w && w'[|w|] == Comp(true, map[], map[], {}, [])
  {
  }

  lemma ConnectKeeps(w: seq<Comp>, i: nat, c: Connection<nat>)
    ensures var w' := Step(w, Connect(i, c)).0;
            && |w'| == |w|
            && forall j :: 0 <= j < |w| ==>
                 w'[j].alive == w[j].alive && w'[j].inputs == w[j].inputs && w'[j].outputs == w[j].outputs
  {
  }

  /** One more component with one port declared: every wire is as before. */
  lemma NewComponent(w: seq<Comp>, op: Op)
    requires Sound(w) && HandlersMatch(w)
    requires (op.DeclareInput? || op.DeclareOutput?) && op.c == |w|
    ensures var w' := Step(Step(w, Create).0, op).0;
            && Sound(w') && HandlersMatch(w')
            && |w'| == |w| + 1 && Alive(w', |w|)
            && (forall i :: 0 <= i < |w| ==> w'[i] == w[i])
            && (op.DeclareOutput? ==> op.name in w'[|w|].outputs)
            && (forall e: End :: Wires(w')(e) == Wires(w)(e))
  {
    hide Sound, HandlersMatch, Wires;
    StepIsProper(w, Create);
    StepIsProper(Step(w, Create).0, op);
    CreateKeeps(w);
    DeclareKeeps(Step(w, Create).0, op);
    assert Step(w, Create).0[|w|].outputs == map[];
    var w' := Step(Step(w, Create).0, op).0;
    forall e: End ensures Wires(w')(e) == Wires(w)(e) {
      WiresKept(w, w', e);
    }
  }

  /** Connecting, and then declaring a port of the network. */
  lemma ConnectAndDeclare(w: seq<Comp>, i: nat, c: Connection<nat>, op: Op)
    requires Sound(w) && HandlersMatch(w) && (op.DeclareInput? || op.DeclareOutput?)
    requires Step(w, Connect(i, c)).1 == Done
    ensures var w' := Step(Step(w, Connect(i, c)).0, op).0;
            && Sound(w') && HandlersMatch(w')
            && |w'| == |w| && MoreOutputs(w, w')
            && (forall j :: 0 <= j < |w| ==>
                  w'[j].alive == w[j].alive && w[j].inputs.Keys <= w'[j].inputs.Keys)
            && (forall e: End ::
                  Wires(w')(e) == Wires(w)(e) + Extra(e, (i, c.output), (c.target, c.input)))
  {
    hide Sound, HandlersMatch, Wires, Extra;
    var w1 := Step(w, Connect(i, c)).0;
    var w' := Step(w1, op).0;
    StepIsProper(w, Connect(i, c));
    StepIsProper(w1, op);
    ConnectKeeps(w, i, c);
    DeclareKeeps(w1, op);
    DeclareGrows(w1, op);
    forall e: End ensures Wires(w')(e) == Wires(w)(e) + Extra(e, (i, c.output), (c.target, c.input)) {
      ConnectWires(w, i, c, e);
      WiresKept(w1, w', e);
    }
  }

  lemma InputAdded(site: Site, net: Net, x: InputXml)
    requires Proper(site) && Belongs(site, net) && AddInput(site, net, x).Some?
    ensures var (site', net') := AddInput(site, net, x).value;
            var m := |site.comps|;
            && Proper(site') && Belongs(site', net')
            && net' == net.(mediators := net.mediators + [m]) && |site'.comps| == m + 1
            && x.to in net.components
            && (forall e: End :: Wires(site'.comps)(e) ==
                                 Wires(site.comps)(e) + Extra(e, (m, "value"), (net.components[x.to], x.port)))
            && site'.kinds == (site.kinds + [InputMediator])
                              [net.self := Network(site.kinds[net.self].inputs[x.name := m])]
            && x.name !in site.kinds[net.self].inputs
  {
    hide Sound, HandlersMatch, Wires, Step;
    var c, m := net.components[x.to], |site.comps|;
    var op := DeclareOutput(m, "value", site.comps[c].inputs[x.port]);
    NewComponent(site.comps, op);
    var w1 := Step(Step(site.comps, Create).0, op).0;
    ConnectAndDeclare(w1, m, Connection("value", c, x.port), DeclareInput(net.self, x.name, op.kind));
    FreshName(w1, m, Connection("value", c, x.port), net.self, x.name, op.kind);
    var (site', _) := AddInput(site, net, x).value;
    AllForward(site.comps, site'.comps, site.kinds);
    assert "value" in site'.comps[m].outputs;
    assert forall k :: 0 <= k < |site.kinds| && k != net.self ==> site'.kinds[k] == site.kinds[k];
    assert ForwardsTo(site'.comps, site.kinds[net.self]);
    assert ForwardsTo(site'.comps, site'.kinds[net.self]);
  }

  /** A declaration that succeeds after a connection names a new port. */
  lemma FreshName(w: seq<Comp>, i: nat, c: Connection<nat>, self: nat, name: string, kind: int)
    requires self < |w|
    ensures var w1 := Step(w, Connect(i, c)).0;
            && (Step(w1, DeclareInput(self, name, kind)).1 == Done ==>
                  name !in w[self].inputs && name in Step(w1, DeclareInput(self, name, kind)).0[self].inputs)
            && (Step(w1, DeclareOutput(self, name, kind)).1 == Done ==>
                  name !in w[self].outputs && name in Step(w1, DeclareOutput(self, name, kind)).0[self].outputs)
  {
  }

  lemma OutputAdded(site: Site, net: Net, x: OutputXml)
    requires Proper(site) && Belongs(site, net) && AddOutput(site, net, x).Some?
    ensures var (site', net') := AddOutput(site, net, x).value;
            var m := |site.comps|;
            && Proper(site') && Belongs(site', net')
            && net' == net.(mediators := net.mediators + [m]) && |site'.comps| == m + 1
            && x.source in net.components
            && (forall e: End :: Wires(site'.comps)(e) ==
                                 Wires(site.comps)(e) + Extra(e, (net.components[x.source], x.port), (m, "value")))
            && site'.kinds == site.kinds + [OutputMediator(net.self, x.name)]
            && x.name !in site.comps[net.self].outputs
  {
    hide Sound, HandlersMatch, Wires, Step;
    var c, m := net.components[x.source], |site.comps|;
    var op := DeclareInput(m, "value", site.comps[c].outputs[x.port]);
    NewComponent(site.comps, op);
    var w1 := Step(Step(site.comps, Create).0, op).0;
    ConnectAndDeclare(w1, c, Connection(x.port, m, "value"), DeclareOutput(net.self, x.name, op.kind));
    FreshName(w1, c, Connection(x.port, m, "value"), net.self, x.name, op.kind);
    var (site', _) := AddOutput(site, net, x).value;
    AllForward(site.comps, site'.comps, site.kinds);
    assert forall k :: 0 <= k < |site.kinds| ==> site'.kinds[k] == site.kinds[k];
  }

  lemma ConnectionAdded(site: Site, net: Net, x: ConnectionXml)
    requires Proper(site) && Belongs(site, net) && AddConnection(site, net, x).Some?
    ensures var (site', net') := AddConnection(site, net, x).value;
            && Proper(site') && Belongs(site', net')
            && net' == net && |site'.comps| == |site.comps|
            && x.source in net.components && x.to in net.components
            && (forall e: End :: Wires(site'.comps)(e) ==
                                 Wires(site.comps)(e) + Extra(e, (net.components[x.source], x.output),
                                                              (net.components[x.to], x.input)))
            && site'.kinds == site.kinds
  {
    hide Sound, HandlersMatch, Wires, Extra;
    var i, c := net.components[x.source], Connection(x.output, net.components[x.to], x.input);
    StepIsProper(site.comps, Connect(i, c));
    ConnectKeeps(site.comps, i, c);
    forall e: End
      ensures Wires(Step(site.comps, Connect(i, c)).0)(e) ==
              Wires(site.comps)(e) + Extra(e, (i, c.output), (c.target, c.input))
    {
      ConnectWires(site.comps, i, c, e);
    }
  }

  // ------------------------------------------------------------ whole descriptions

  datatype NetXml = NetXml(inputs: seq<InputXml>, connections: seq<ConnectionXml>, outputs: seq<OutputXml>)

  ghost predicate Fits(site: Site, net: Net, r: Option<(Site, Net)>) {
    r.Some? ==> Proper(r.value.0) && Belongs(r.value.0, r.value.1) &&
                r.value.1.self == net.self && r.value.1.components == net.components &&
                |site.comps| <= |r.value.0.comps|
  }

  function LoadInputs(site: Site, net: Net, xs: seq<InputXml>): (r: Option<(Site, Net)>)
    requires Proper(site) && Belongs(site, net)
    ensures Fits(site, net, r)
  {
    if xs == [] then Some((site, net))
    else
      match LoadInputs(site, net, xs[..|xs| - 1])
      case None => None
      case Some((s, n)) =>
        var x := xs[|xs| - 1];
        assert AddInput(s, n, x).Some? ==> Fits(site, net, AddInput(s, n, x)) by {
          if AddInput(s, n, x).Some? { InputAdded(s, n, x); }
        }
        AddInput(s, n, x)
  }

  function LoadConnections(site: Site, net: Net, xs: seq<ConnectionXml>): (r: Option<(Site, Net)>)
    requires Proper(site) && Belongs(site, net)
    ensures Fits(site, net, r)
  {
    if xs == [] then Some((site, net))
    else
      match LoadConnections(site, net, xs[..|xs| - 1])
      case None => None
      case Some((s, n)) =>
        var x := xs[|xs| - 1];
        assert AddConnection(s, n, x).Some? ==> Fits(site, net, AddConnection(s, n, x)) by {
          if AddConnection(s, n, x).Some? { ConnectionAdded(s, n, x); }
        }
        AddConnection(s, n, x)
  }

  function LoadOutputs(site: Site, net: Net, xs: seq<OutputXml>): (r: Option<(Site, Net)>)
    requires Proper(site) && Belongs(site, net)
    ensures Fits(site, net, r)
  {
    if xs == [] then Some((site, net))
    else
      match LoadOutputs(site, net, xs[..|xs| - 1])
      case None => None
      case Some((s, n)) =>
        var x := xs[|xs| - 1];
        assert AddOutput(s, n, x).Some? ==> Fits(site, net, AddOutput(s, n, x)) by {
          if AddOutput(s, n, x).Some? { OutputAdded(s, n, x); }
        }
        AddOutput(s, n, x)
  }

  function Load(site: Site, net: Net, xml: NetXml): (r: Option<(Site, Net)>)
    requires Proper(site) && Belongs(site, net)
    ensures Fits(site, net, r)
  {
    match LoadInputs(site, net, xml.inputs)
    case None => None
    case Some((s1, n1)) =>
      match LoadConnections(s1, n1, xml.connections)
      case None => None
      case Some((s2, n2)) => LoadOutputs(s2, n2, xml.outputs)
  }

  /** The factory's instance of a component exists, and is not the network itself. */
  predicate Usable(site: Site, net: Net, x: ComponentXml) {
    x.instance.Some? ==> Alive(site.comps, x.instance.value) && x.instance.value != net.self
  }

  function LoadComponents(net: Net, xs: seq<ComponentXml>): Option<Net> {
    if xs == [] then Some(net)
    else
      match LoadComponents(net, xs[..|xs| - 1])
      case None => None
      case Some(n) => AddComponent(n, xs[|xs| - 1])
  }

  /** No name occurs twice or is known already, and each component could be made. */
  ghost predicate FreshNames(net: Net, xs: seq<ComponentXml>) {
    && (forall i :: 0 <= i < |xs| ==> xs[i].name !in net.components && xs[i].instance.Some?)
    && (forall i, j :: 0 <= i < j < |xs| ==> xs[i].name != xs[j].name)
  }

  /** The network knows what it knew and the listed names, each by its own instance. */
  ghost predicate Knows(net: Net, xs: seq<ComponentXml>, n: Net) {
    && n == net.(components := n.components)
    && (forall name :: name in n.components <==>
          name in net.components || exists i :: 0 <= i < |xs| && xs[i].name == name)
    && (forall name :: name in net.components ==> name in n.components && n.components[name] == net.components[name])
    && (forall i :: 0 <= i < |xs| ==>
          xs[i].name in n.components && Some(n.components[xs[i].name]) == xs[i].instance)
  }

  lemma KnowsMore(net: Net, front: seq<ComponentXml>, n: Net, x: ComponentXml)
    requires Knows(net, front, n) && AddComponent(n, x).Some?
    ensures Knows(net, front + [x], AddComponent(n, x).value)
  {
    var xs, after := front + [x], AddComponent(n, x).value;
    forall name ensures name in after.components <==>
                          name in net.components || exists i :: 0 <= i < |xs| && xs[i].name == name
    {
      if name == x.name { assert xs[|front|].name == name; }
      if i :| 0 <= i < |front| && front[i].name == name { assert xs[i].name == name; }
    }
  }

  lemma FreshPrefix(net: Net, front: seq<ComponentXml>, x: ComponentXml)
    requires FreshNames(net, front + [x])
    ensures FreshNames(net, front)
  {
    assert forall i :: 0 <= i < |front| ==> (front + [x])[i] == front[i];
  }

  lemma FreshMore(net: Net, front: seq<ComponentXml>, n: Net, x: ComponentXml)
    requires Knows(net, front, n) && FreshNames(net, front)
    ensures FreshNames(net, front + [x]) <==> AddComponent(n, x).Some?
  {
    var xs := front + [x];
    assert forall i :: 0 <= i < |front| ==> xs[i] == front[i];
    assert xs[|front|] == x;
  }

  /** The components are accepted exactly if their names are new, pairwise distinct and
      all could be made; then each name stands for its own instance. */
  lemma {:induction false} ComponentsLoaded(net: Net, xs: seq<ComponentXml>)
    ensures LoadComponents(net, xs).Some? <==> FreshNames(net, xs)
    ensures LoadComponents(net, xs).Some? ==> Knows(net, xs, LoadComponents(net, xs).value)
  {
    if xs != [] {
      hide Knows, FreshNames, AddComponent;
      var front, x := xs[..|xs| - 1], xs[|xs| - 1];
      assert xs == front + [x];
      ComponentsLoaded(net, front);
      if LoadComponents(net, front).Some? {
        var n := LoadComponents(net, front).value;
        FreshMore(net, front, n, x);
        if AddComponent(n, x).Some? { KnowsMore(net, front, n, x); }
      } else if FreshNames(net, xs) {
        FreshPrefix(net, front, x);
      }
    }
  }

  lemma ComponentsBelong(site: Site, net: Net, xs: seq<ComponentXml>)
    requires Belongs(site, net) && forall i :: 0 <= i < |xs| ==> Usable(site, net, xs[i])
    ensures LoadComponents(net, xs).Some? ==> Belongs(site, LoadComponents(net, xs).value)
  {
    ComponentsLoaded(net, xs);
  }

  /** What the constructor of a network makes of the whole description. */
  function Construct(site: Site, net: Net, components: seq<ComponentXml>, xml: NetXml): Option<(Site, Net)>
    requires Proper(site) && Belongs(site, net)
    requires forall i :: 0 <= i < |components| ==> Usable(site, net, components[i])
  {
    match LoadComponents(net, components)
    case None => None
    case Some(n) =>
      ComponentsBelong(site, net, components);
      Load(site, n, xml)
  }

  lemma ConstructIs(site: Site, net: Net, components: seq<ComponentXml>, xml: NetXml)
    requires Proper(site) && Belongs(site, net)
    requires forall i :: 0 <= i < |components| ==> Usable(site, net, components[i])
    ensures LoadComponents(net, components).Some? ==>
              Belongs(site, LoadComponents(net, components).value)
              && Construct(site, net, components, xml) == Load(site, LoadComponents(net, components).value, xml)
  {
    ComponentsBelong(site, net, components);
  }

  /** The wires that connections add to an output. */
  function Inner(components: map<string, nat>, xs: seq<ConnectionXml>, e: End): seq<End> {
    if xs == [] then []
    else
      var x := xs[|xs| - 1];
      Inner(components, xs[..|xs| - 1], e) +
      if x.source in components && x.to in components
      then Extra(e, (components[x.source], x.output), (components[x.to], x.input)) else []
  }

  /** The wires to output mediators, the first of which is numbered base. */
  function Outer(components: map<string, nat>, base: nat, xs: seq<OutputXml>, e: End): seq<End> {
    if xs == [] then []
    else
      var n := |xs| - 1;
      Outer(components, base, xs[..n], e) +
      if xs[n].source in components
      then Extra(e, (components[xs[n].source], xs[n].port), (base + n, "value")) else []
  }

  /** Loading inputs adds one component each and rewires nothing there was. */
  lemma {:induction false} InputsKeep(site: Site, net: Net, xs: seq<InputXml>, e: End)
    requires Proper(site) && Belongs(site, net) && LoadInputs(site, net, xs).Some?
    ensures var site' := LoadInputs(site, net, xs).value.0;
            && |site'.comps| == |site.comps| + |xs|
            && (e.0 < |site.comps| ==>
                  && Wires(site'.comps)(e) == Wires(site.comps)(e)
                  && (e.0 != net.self ==> site'.kinds[e.0] == site.kinds[e.0]))
  {
    hide Wires, AddInput, Sound, HandlersMatch;
    if xs != [] {
      var front, x := xs[..|xs| - 1], xs[|xs| - 1];
      InputsKeep(site, net, front, e);
      var (s, n) := LoadInputs(site, net, front).value;
      InputAdded(s, n, x);
      assert Wires(s.comps)(e) + [] == Wires(s.comps)(e);
    }
  }

  /** What one of the loaded inputs leads to. */
  ghost predicate InputWired(site: Site, net: Net, x: InputXml, m: nat) {
    && x.to in net.components
    && net.self < |site.kinds| && site.kinds[net.self].Network?
    && x.name in site.kinds[net.self].inputs && site.kinds[net.self].inputs[x.name] == m
    && Wires(site.comps)((m, "value")) == [(net.components[x.to], x.port)]
  }

  lemma {:induction false} InputsLoaded(site: Site, net: Net, xs: seq<InputXml>, j: nat)
    requires Proper(site) && Belongs(site, net) && LoadInputs(site, net, xs).Some? && j < |xs|
    ensures InputWired(LoadInputs(site, net, xs).value.0, net, xs[j], |site.comps| + j)
  {
    hide Wires, AddInput, Proper, InputWired;
    var front, x := xs[..|xs| - 1], xs[|xs| - 1];
    var (s, n) := LoadInputs(site, net, front).value;
    InputsKeep(site, net, front, (0, ""));
    if j < |front| {
      InputsLoaded(site, net, front, j);
      assert xs[j] == front[j];
      EarlierInput(s, n, x, net, xs[j], |site.comps| + j);
    } else {
      LastInput(s, n, x, net);
    }
  }

  lemma LastInput(site: Site, n: Net, x: InputXml, net: Net)
    requires Proper(site) && Belongs(site, n) && AddInput(site, n, x).Some?
    requires n.self == net.self && n.components == net.components
    ensures InputWired(AddInput(site, n, x).value.0, net, x, |site.comps|)
  {
    hide Wires, AddInput, Sound, HandlersMatch;
    InputAdded(site, n, x);
    Unwired(site.comps, (|site.comps|, "value"));
    assert [] + [(n.components[x.to], x.port)] == [(n.components[x.to], x.port)];
  }

  lemma EarlierInput(site: Site, n: Net, x: InputXml, net: Net, earlier: InputXml, m: nat)
    requires Proper(site) && Belongs(site, n) && AddInput(site, n, x).Some?
    requires n.self == net.self && m < |site.comps| && InputWired(site, net, earlier, m)
    ensures InputWired(AddInput(site, n, x).value.0, net, earlier, m)
  {
    hide Wires, AddInput, Sound, HandlersMatch;
    InputAdded(site, n, x);
    var e := (m, "value");
    assert Wires(site.comps)(e) + [] == Wires(site.comps)(e);
  }

  lemma Unwired(w: seq<Comp>, e: End)
    requires e.0 >= |w|
    ensures Wires(w)(e) == []
  {
  }

  lemma {:induction false} ConnectionsLoaded(site: Site, net: Net, xs: seq<ConnectionXml>, e: End)
    requires Proper(site) && Belongs(site, net) && LoadConnections(site, net, xs).Some?
    ensures var site' := LoadConnections(site, net, xs).value.0;
            && Wires(site'.comps)(e) == Wires(site.comps)(e) + Inner(net.components, xs, e)
            && |site'.comps| == |site.comps| && site'.kinds == site.kinds
  {
    hide Wires, AddConnection, Extra, Proper;
    if xs != [] {
      var front, x := xs[..|xs| - 1], xs[|xs| - 1];
      ConnectionsLoaded(site, net, front, e);
      var (s, n) := LoadConnections(site, net, front).value;
      ConnectionAdded(s, n, x);
      AppendTwice(Wires(site.comps)(e), Inner(net.components, front, e),
                  Extra(e, (net.components[x.source], x.output), (net.components[x.to], x.input)));
    }
  }

  lemma AppendTwice(a: seq<End>, b: seq<End>, c: seq<End>)
    ensures (a + b) + c == a + (b + c)
    ensures a + [] == a
  {
  }

  lemma {:induction false} OutputsLoaded(site: Site, net: Net, xs: seq<OutputXml>, e: End)
    requires Proper(site) && Belongs(site, net) && LoadOutputs(site, net, xs).Some?
    ensures var site' := LoadOutputs(site, net, xs).value.0;
            && Wires(site'.comps)(e) == Wires(site.comps)(e) + Outer(net.components, |site.comps|, xs, e)
            && |site'.comps| == |site.comps| + |xs| == |site'.kinds| && |site.comps| == |site.kinds|
            && (forall c :: 0 <= c < |site.kinds| ==> site'.kinds[c] == site.kinds[c])
            && (forall j :: 0 <= j < |xs| ==>
                  site'.kinds[|site.comps| + j] == OutputMediator(net.self, xs[j].name))
  {
    hide Wires, AddOutput, Extra, Proper;
    if xs != [] {
      var front, x := xs[..|xs| - 1], xs[|xs| - 1];
      OutputsLoaded(site, net, front, e);
      var (s, n) := LoadOutputs(site, net, front).value;
      OutputAdded(s, n, x);
      AppendTwice(Wires(site.comps)(e), Outer(net.components, |site.comps|, front, e),
                  Extra(e, (net.components[x.source], x.port), (|site.comps| + |front|, "value")));
    } else {
      AppendTwice(Wires(site.comps)(e), [], []);
    }
  }

  // --------------------------------------------------- what a loaded network means

  lemma {:induction false} InnerElsewhere(components: map<string, nat>, xs: seq<ConnectionXml>, e: End)
    requires forall name :: name in components ==> components[name] != e.0
    ensures Inner(components, xs, e) == []
  {
    if xs != [] { InnerElsewhere(components, xs[..|xs| - 1], e); }
  }

  lemma {:induction false} OuterElsewhere(components: map<string, nat>, base: nat, xs: seq<OutputXml>, e: End)
    requires forall name :: name in components ==> components[name] != e.0
    ensures Outer(components, base, xs, e) == []
  {
    if xs != [] { OuterElsewhere(components, base, xs[..|xs| - 1], e); }
  }

  /** All wires of the loaded network. Every output that was there keeps its wires and
      gains first those of the connections, then those to the output mediators. */
  lemma LoadedWires(site: Site, net: Net, xml: NetXml, e: End)
    requires Proper(site) && Belongs(site, net) && Load(site, net, xml).Some? && e.0 < |site.comps|
    ensures Wires(Load(site, net, xml).value.0.comps)(e) ==
            (Wires(site.comps)(e) + Inner(net.components, xml.connections, e)) +
            Outer(net.components, |site.comps| + |xml.inputs|, xml.outputs, e)
  {
    hide Wires, Proper, Belongs, Inner, Outer, LoadInputs, LoadConnections, LoadOutputs;
    InputsKeep(site, net, xml.inputs, e);
    var (s1, n1) := LoadInputs(site, net, xml.inputs).value;
    ConnectionsLoaded(s1, n1, xml.connections, e);
    var (s2, n2) := LoadConnections(s1, n1, xml.connections).value;
    OutputsLoaded(s2, n2, xml.outputs, e);
  }

  lemma LoadedOutputs(site: Site, net: Net, xml: NetXml)
    requires Proper(site) && Belongs(site, net) && Load(site, net, xml).Some?
    ensures forall k :: 0 <= k < |xml.outputs| ==>
              KindAt(Load(site, net, xml).value.0.kinds)(|site.comps| + |xml.inputs| + k) ==
              OutputMediator(net.self, xml.outputs[k].name)
  {
    hide Wires, Proper, Belongs, Inner, Outer, LoadInputs, LoadConnections, LoadOutputs;
    var e := (0, "");
    InputsKeep(site, net, xml.inputs, e);
    var (s1, n1) := LoadInputs(site, net, xml.inputs).value;
    ConnectionsLoaded(s1, n1, xml.connections, e);
    var (s2, n2) := LoadConnections(s1, n1, xml.connections).value;
    OutputsLoaded(s2, n2, xml.outputs, e);
    var kinds := LoadOutputs(s2, n2, xml.outputs).value.0.kinds;
    forall k | 0 <= k < |xml.outputs|
      ensures KindAt(kinds)(|site.comps| + |xml.inputs| + k) == OutputMediator(net.self, xml.outputs[k].name)
    {
    }
  }

  lemma MembersExist(site: Site, net: Net, m: nat)
    requires Belongs(site, net) && m >= |site.comps|
    ensures forall name :: name in net.components ==> net.components[name] != m
  {
  }

  lemma LoadedInput(site: Site, net: Net, xml: NetXml, j: nat)
    requires Proper(site) && Belongs(site, net) && Load(site, net, xml).Some? && j < |xml.inputs|
    ensures InputWired(Load(site, net, xml).value.0, net, xml.inputs[j], |site.comps| + j)
  {
    hide Wires, Proper, Belongs, Inner, Outer, LoadInputs, LoadConnections, LoadOutputs;
    var e := (|site.comps| + j, "value");
    InputsKeep(site, net, xml.inputs, e);
    InputsLoaded(site, net, xml.inputs, j);
    var (s1, n1) := LoadInputs(site, net, xml.inputs).value;
    ConnectionsLoaded(s1, n1, xml.connections, e);
    MembersExist(site, net, e.0);
    InnerElsewhere(net.components, xml.connections, e);
    var (s2, n2) := LoadConnections(s1, n1, xml.connections).value;
    OutputsLoaded(s2, n2, xml.outputs, e);
    OuterElsewhere(net.components, |s2.comps|, xml.outputs, e);
    AppendTwice(Wires(s1.comps)(e), [], []);
  }

  lemma NothingAfterThrow(g: Graph, r: Rank, t: End, u: End, v: int, st: Run)
    requires Acyclic(g, r) && st.thrown
    ensures Deliver(g, r, t, v, st) == st == Deliver(g, r, u, v, st)
  {
  }

  /** Wrapping changes nothing at an input: giving a value to the network is giving it
      to the inner component. */
  lemma InputIsInner(site: Site, net: Net, xml: NetXml, j: nat, r: Rank, v: int, st: Run)
    requires Proper(site) && Belongs(site, net) && Load(site, net, xml).Some? && j < |xml.inputs|
    requires Acyclic(GraphOf(Load(site, net, xml).value.0), r)
    ensures var g, x := GraphOf(Load(site, net, xml).value.0), xml.inputs[j];
            && x.to in net.components
            && Deliver(g, r, (net.self, x.name), v, st) == Deliver(g, r, (net.components[x.to], x.port), v, st)
  {
    hide Wires, Proper, Belongs, Load, Acyclic;
    LoadedInput(site, net, xml, j);
    var g, x, m := GraphOf(Load(site, net, xml).value.0), xml.inputs[j], |site.comps| + j;
    var t := (net.components[x.to], x.port);
    ProperForwards(Load(site, net, xml).value.0);
    assert Next(g, (net.self, x.name)) == Some((m, "value"));
    ForwardsDeclared(g, (net.self, x.name));
    if st.thrown { NothingAfterThrow(g, r, (net.self, x.name), t, v, st); }
    assert g.wires((m, "value")) == [t];
    WiresDown(g, r, (m, "value"));
    assert t in [t];
    FanOfOne(g, r, r.out((m, "value")), t, v, st);
  }

  /** The primitive inputs behind the network's outputs that show an inner output. */
  function Shown(g: Graph, r: Rank, net: Net, xs: seq<OutputXml>, e: End): seq<End>
    requires Acyclic(g, r)
  {
    if xs == [] then []
    else
      var x := xs[|xs| - 1];
      Shown(g, r, net, xs[..|xs| - 1], e) +
      if x.source in net.components && e == (net.components[x.source], x.port)
      then Direct(g, r, (net.self, x.name)) else []
  }

  lemma {:induction false} ThroughConcat(g: Graph, r: Rank, height: nat, a: seq<End>, b: seq<End>)
    requires Acyclic(g, r)
    requires forall t :: t in a + b ==> r.into(t) < height
    requires forall t :: t in a || t in b ==> r.into(t) < height
    ensures ThroughAll(g, r, height, a + b) == ThroughAll(g, r, height, a) + ThroughAll(g, r, height, b)
  {
    hide Acyclic, Through;
    if b == [] {
      assert a + b == a;
    } else {
      var n := |b| - 1;
      assert (a + b)[..|a| + n] == a + b[..n];
      ThroughConcat(g, r, height, a, b[..n]);
    }
  }

  lemma {:induction false} OuterIsShown(g: Graph, r: Rank, net: Net, base: nat, xs: seq<OutputXml>, e: End, height: nat)
    requires Acyclic(g, r)
    requires forall k :: 0 <= k < |xs| ==> g.kind(base + k) == OutputMediator(net.self, xs[k].name)
    requires forall t :: t in Outer(net.components, base, xs, e) ==> r.into(t) < height
    ensures ThroughAll(g, r, height, Outer(net.components, base, xs, e)) == Shown(g, r, net, xs, e)
  {
    hide Acyclic, Direct;
    if xs != [] {
      var n := |xs| - 1;
      var m := (base + n, "value");
      assert forall k :: 0 <= k < n ==> xs[..n][k] == xs[k];
      OuterIsShown(g, r, net, base, xs[..n], e, height);
      assert Next(g, m) == Some((net.self, xs[n].name));
      var front := Outer(net.components, base, xs[..n], e);
      if xs[n].source in net.components && e == (net.components[xs[n].source], xs[n].port) {
        assert (front + [m])[..|front|] == front;
        assert Through(g, r, m) == Direct(g, r, (net.self, xs[n].name));
      } else {
        AppendTwice(front, [], []);
        AppendTwice(Shown(g, r, net, xs[..n], e), [], []);
      }
    }
  }

  /** Wrapping changes nothing at an output: what an inner component emits reaches,
      after everything inside, exactly what the network's outputs that show it reach,
      in the order of the outputs, as if wired there directly. */
  lemma OutputIsShown(site: Site, net: Net, xml: NetXml, e: End, r: Rank)
    requires Proper(site) && Belongs(site, net) && Load(site, net, xml).Some? && e.0 < |site.comps|
    requires Acyclic(GraphOf(Load(site, net, xml).value.0), r)
    ensures var g := GraphOf(Load(site, net, xml).value.0);
            var inner := Wires(site.comps)(e) + Inner(net.components, xml.connections, e);
            && (forall t :: t in inner ==> r.into(t) < r.out(e))
            && Direct(g, r, e) ==
               ThroughAll(g, r, r.out(e), inner) + Shown(g, r, net, xml.outputs, e)
  {
    hide Wires, Proper, Belongs, Load, Acyclic, Inner, Outer, Shown, Through;
    var g := GraphOf(Load(site, net, xml).value.0);
    LoadedWires(site, net, xml, e);
    LoadedOutputs(site, net, xml);
    WiresDown(g, r, e);
    var base := |site.comps| + |xml.inputs|;
    var inner := Wires(site.comps)(e) + Inner(net.components, xml.connections, e);
    var outer := Outer(net.components, base, xml.outputs, e);
    assert g.wires(e) == inner + outer;
    assert forall t :: t in inner || t in outer ==> t in g.wires(e);
    ThroughConcat(g, r, r.out(e), inner, outer);
    OuterIsShown(g, r, net, base, xml.outputs, e, r.out(e));
  }

  // -------------------------------------------------------------------- the original

  class ComponentStore {
    var comps: seq<Comp>
    var kinds: seq<Kind>

    constructor (site: Site)
      ensures Site(comps, kinds) == site
    {
      comps, kinds := site.comps, site.kinds;
    }

    method Call(op: Op) returns (o: Outcome)
      modifies this`comps
      ensures (comps, o) == Step(old(comps), op)
    {
      var (after, outcome) := Step(comps, op);
      comps, o := after, outcome;
    }
  }

  /** A network that reads its own description. A `false` stands for the exception that
      ends the construction; nothing built until then is used again. */
  class NetworkComponent {
    const self: nat
    const store: ComponentStore
    var components: map<string, nat>
    var mediators: seq<nat>

    ghost function State(): Net
      reads this
    {
      Net(self, components, mediators)
    }

    ghost function All(): Site
      reads store
    {
      Site(store.comps, store.kinds)
    }

    ghost predicate Valid()
      reads this, store
    {
      Proper(All()) && Belongs(All(), State())
    }

    constructor (self: nat, store: ComponentStore)
      requires Proper(Site(store.comps, store.kinds))
      requires Alive(store.comps, self) && store.kinds[self] == Network(map[])
      ensures Valid() && this.self == self && this.store == store
      ensures State() == Net(self, map[], []) && All() == old(Site(store.comps, store.kinds))
    {
      this.self, this.store := self, store;
      components, mediators := map[], [];
    }

    method ParseComponent(x: ComponentXml) returns (ok: bool)
      requires Valid() && Usable(All(), State(), x)
      modifies this`components
      ensures Valid()
      ensures ok == AddComponent(old(State()), x).Some?
      ensures State() == if ok then AddComponent(old(State()), x).value else old(State())
    {
      if x.name in components {
        return false;
      }
      if x.instance == None {
        return false;
      }
      components := components[x.name := x.instance.value];
      return true;
    }

    method ParseInput(x: InputXml) returns (ok: bool)
      requires Valid()
      modifies this`mediators, store
      ensures ok == AddInput(old(All()), old(State()), x).Some?
      ensures ok ==> Valid() && (All(), State()) == AddInput(old(All()), old(State()), x).value
    {
      ghost var site, net := All(), State();
      if x.to !in components {
        return false;
      }
      var c := components[x.to];
      if x.port !in store.comps[c].inputs {
        return false;
      }
      var kind := store.comps[c].inputs[x.port];
      var m := |store.comps|;
      var o := store.Call(Create);
      o := store.Call(DeclareOutput(m, "value", kind));
      o := store.Call(Connect(m, Connection("value", c, x.port)));
      if o != Done {
        return false;
      }
      mediators := mediators + [m];
      o := store.Call(DeclareInput(self, x.name, kind));
      if o != Done {
        return false;
      }
      var inputs := store.kinds[self].inputs[x.name := m];
      store.kinds := (store.kinds + [InputMediator])[self := Network(inputs)];
      InputAdded(site, net, x);
      return true;
    }

    method ParseConnection(x: ConnectionXml) returns (ok: bool)
      requires Valid()
      modifies store`comps
      ensures ok == AddConnection(old(All()), old(State()), x).Some?
      ensures ok ==> Valid() && (All(), State()) == AddConnection(old(All()), old(State()), x).value
    {
      ghost var site, net := All(), State();
      if x.source !in components {
        return false;
      }
      if x.to !in components {
        return false;
      }
      var o := store.Call(Connect(components[x.source], Connection(x.output, components[x.to], x.input)));
      if o != Done {
        return false;
      }
      ConnectionAdded(site, net, x);
      return true;
    }

    method ParseOutput(x: OutputXml) returns (ok: bool)
      requires Valid()
      modifies this`mediators, store
      ensures ok == AddOutput(old(All()), old(State()), x).Some?
      ensures ok ==> Valid() && (All(), State()) == AddOutput(old(All()), old(State()), x).value
    {
      ghost var site, net := All(), State();
      if x.source !in components {
        return false;
      }
      var c := components[x.source];
      if x.port !in store.comps[c].outputs {
        return false;
      }
      var kind := store.comps[c].outputs[x.port];
      var m := |store.comps|;
      var o := store.Call(Create);
      o := store.Call(DeclareInput(m, "value", kind));
      o := store.Call(Connect(c, Connection(x.port, m, "value")));
      if o != Done {
        return false;
      }
      mediators := mediators + [m];
      o := store.Call(DeclareOutput(self, x.name, kind));
      if o != Done {
        return false;
      }
      store.kinds := store.kinds + [OutputMediator(self, x.name)];
      OutputAdded(site, net, x);
      return true;
    }

    method ParseComponents(xs: seq<ComponentXml>) returns (ok: bool)
      requires Valid() && forall i :: 0 <= i < |xs| ==> Usable(All(), State(), xs[i])
      modifies this`components
      ensures Valid()
      ensures ok == LoadComponents(old(State()), xs).Some?
      ensures ok ==> Some(State()) == LoadComponents(old(State()), xs)
    {
      ghost var net := State();
      for i := 0 to |xs|
        invariant Valid() && LoadComponents(net, xs[..i]) == Some(State())
      {
        assert xs[..i + 1][..i] == xs[..i];
        ok := ParseComponent(xs[i]);
        if !ok {
          NoComponents(net, xs, i + 1);
          return;
        }
      }
      assert xs[..|xs|] == xs;
      ok := true;
    }

    method ParseInputs(xs: seq<InputXml>) returns (ok: bool)
      requires Valid()
      modifies this`mediators, store
      ensures ok == LoadInputs(old(All()), old(State()), xs).Some?
      ensures ok ==> Valid() && (All(), State()) == LoadInputs(old(All()), old(State()), xs).value
    {
      hide Proper, Belongs, AddInput;
      ghost var site, net := All(), State();
      for i := 0 to |xs|
        invariant Valid() && LoadInputs(site, net, xs[..i]) == Some((All(), State()))
      {
        assert xs[..i + 1][..i] == xs[..i];
        ok := ParseInput(xs[i]);
        if !ok {
          NoInputs(site, net, xs, i + 1);
          return;
        }
      }
      assert xs[..|xs|] == xs;
      ok := true;
    }

    method ParseConnections(xs: seq<ConnectionXml>) returns (ok: bool)
      requires Valid()
      modifies store`comps
      ensures ok == LoadConnections(old(All()), old(State()), xs).Some?
      ensures ok ==> Valid() && (All(), State()) == LoadConnections(old(All()), old(State()), xs).value
    {
      hide Proper, Belongs, AddConnection;
      ghost var site, net := All(), State();
      for i := 0 to |xs|
        invariant Valid() && LoadConnections(site, net, xs[..i]) == Some((All(), State()))
      {
        assert xs[..i + 1][..i] == xs[..i];
        ok := ParseConnection(xs[i]);
        if !ok {
          NoConnections(site, net, xs, i + 1);
          return;
        }
      }
      assert xs[..|xs|] == xs;
      ok := true;
    }

    method ParseOutputs(xs: seq<OutputXml>) returns (ok: bool)
      requires Valid()
      modifies this`mediators, store
      ensures ok == LoadOutputs(old(All()), old(State()), xs).Some?
      ensures ok ==> Valid() && (All(), State()) == LoadOutputs(old(All()), old(State()), xs).value
    {
      hide Proper, Belongs, AddOutput;
      ghost var site, net := All(), State();
      for i := 0 to |xs|
        invariant Valid() && LoadOutputs(site, net, xs[..i]) == Some((All(), State()))
      {
        assert xs[..i + 1][..i] == xs[..i];
        ok := ParseOutput(xs[i]);
        if !ok {
          NoOutputs(site, net, xs, i + 1);
          return;
        }
      }
      assert xs[..|xs|] == xs;
      ok := true;
    }

    /** All components, then all inputs, connections and outputs, each in the order given. */
    method Parse(components: seq<ComponentXml>, xml: NetXml) returns (ok: bool)
      requires Valid() && forall i :: 0 <= i < |components| ==> Usable(All(), State(), components[i])
      modifies this, store
      ensures ok == Construct(old(All()), old(State()), components, xml).Some?
      ensures ok ==> Valid() && (All(), State()) == Construct(old(All()), old(State()), components, xml).value
    {
      hide Proper, Belongs, LoadComponents, LoadInputs, LoadConnections, LoadOutputs;
      ConstructIs(All(), State(), components, xml);
      ok := ParseComponents(components);
      if ok {
        ok := ParseInputs(xml.inputs);
      }
      if ok {
        ok := ParseConnections(xml.connections);
      }
      if ok {
        ok := ParseOutputs(xml.outputs);
      }
    }
  }

  /** The first element that cannot be added ends the loading. */
  lemma {:induction false} NoComponents(net: Net, xs: seq<ComponentXml>, i: nat)
    requires i <= |xs| && LoadComponents(net, xs[..i]).None?
    ensures LoadComponents(net, xs).None?
  {
    hide AddComponent;
    if i < |xs| {
      assert xs[..|xs| - 1][..i] == xs[..i];
      NoComponents(net, xs[..|xs| - 1], i);
    } else {
      assert xs[..i] == xs;
    }
  }

  lemma {:induction false} NoInputs(site: Site, net: Net, xs: seq<InputXml>, i: nat)
    requires Proper(site) && Belongs(site, net) && i <= |xs| && LoadInputs(site, net, xs[..i]).None?
    ensures LoadInputs(site, net, xs).None?
  {
    hide AddInput;
    if i < |xs| {
      assert xs[..|xs| - 1][..i] == xs[..i];
      NoInputs(site, net, xs[..|xs| - 1], i);
    } else {
      assert xs[..i] == xs;
    }
  }

  lemma {:induction false} NoConnections(site: Site, net: Net, xs: seq<ConnectionXml>, i: nat)
    requires Proper(site) && Belongs(site, net) && i <= |xs| && LoadConnections(site, net, xs[..i]).None?
    ensures LoadConnections(site, net, xs).None?
  {
    hide AddConnection;
    if i < |xs| {
      assert xs[..|xs| - 1][..i] == xs[..i];
      NoConnections(site, net, xs[..|xs| - 1], i);
    } else {
      assert xs[..i] == xs;
    }
  }

  lemma {:induction false} NoOutputs(site: Site, net: Net, xs: seq<OutputXml>, i: nat)
    requires Proper(site) && Belongs(site, net) && i <= |xs| && LoadOutputs(site, net, xs[..i]).None?
    ensures LoadOutputs(site, net, xs).None?
  {
    hide AddOutput;
    if i < |xs| {
      assert xs[..|xs| - 1][..i] == xs[..i];
      NoOutputs(site, net, xs[..|xs| - 1], i);
    } else {
      assert xs[..i] == xs;
    }
  }
}
