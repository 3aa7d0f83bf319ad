/** Which descriptions of a network load, read off the description and the components
    that there are before loading. */
module LoadConditions {
  import opened ComponentGraph
  import opened NetworkLoader

  // ------------------------------------------------------------- what must be there

  /** The component is known and has the input, and the network has none of that name. */
  predicate InputFits(site: Site, net: Net, x: InputXml)
    requires Belongs(site, net)
  {
    && x.to in net.components && x.port in site.comps[net.components[x.to]].inputs
    && x.name !in site.comps[net.self].inputs
  }

  ghost predicate InputsFit(site: Site, net: Net, xs: seq<InputXml>)
    requires Belongs(site, net)
  {
    xs == [] ||
    var front, last := xs[..|xs| - 1], xs[|xs| - 1];
    InputsFit(site, net, front) && InputFits(site, net, last) && forall x :: x in front ==> x.name != last.name
  }

  /** Both components are known and have ports of equal type that are not connected. */
  predicate ConnectionFits(site: Site, net: Net, x: ConnectionXml)
    requires Belongs(site, net)
  {
    && x.source in net.components && x.to in net.components
    && var a, b := net.components[x.source], net.components[x.to];
       && x.output in site.comps[a].outputs && x.input in site.comps[b].inputs
       && site.comps[a].outputs[x.output] == site.comps[b].inputs[x.input]
       && Connection(x.output, b, x.input) !in site.comps[a].conns
  }

  /** The described connection, by component. */
  function Resolve(components: map<string, nat>, x: ConnectionXml): (nat, Connection<nat>) {
    if x.source in components && x.to in components
    then (components[x.source], Connection(x.output, components[x.to], x.input))
    else (0, Connection("", 0, ""))
  }

  ghost predicate ConnectionsFit(site: Site, net: Net, xs: seq<ConnectionXml>)
    requires Belongs(site, net)
  {
    xs == [] ||
    var front, last := xs[..|xs| - 1], xs[|xs| - 1];
    && ConnectionsFit(site, net, front) && ConnectionFits(site, net, last)
    && forall x :: x in front ==> Resolve(net.components, x) != Resolve(net.components, last)
  }

  predicate OutputFits(site: Site, net: Net, x: OutputXml)
    requires Belongs(site, net)
  {
    && x.source in net.components && x.port in site.comps[net.components[x.source]].outputs
    && x.name !in site.comps[net.self].outputs
  }

  ghost predicate OutputsFit(site: Site, net: Net, xs: seq<OutputXml>)
    requires Belongs(site, net)
  {
    xs == [] ||
    var front, last := xs[..|xs| - 1], xs[|xs| - 1];
    OutputsFit(site, net, front) && OutputFits(site, net, last) && forall x :: x in front ==> x.name != last.name
  }

  // ---------------------------------------------------------------------- inputs

  /** Besides what is new, only the network itself differs, and only by the names of its
      inputs and outputs. */
  ghost predicate OnlySelf(site: Site, s: Site, self: nat) {
    && |site.comps| <= |s.comps|
    && forall c :: 0 <= c < |site.comps| ==>
         && s.comps[c].alive == site.comps[c].alive && s.comps[c].conns == site.comps[c].conns
         && (c != self ==> s.comps[c] == site.comps[c])
  }

  lemma InputStep(site: Site, net: Net, x: InputXml)
    requires Proper(site) && Belongs(site, net)
    ensures AddInput(site, net, x).Some? <==> InputFits(site, net, x)
    ensures AddInput(site, net, x).Some? ==>
              var s := AddInput(site, net, x).value.0;
              && OnlySelf(site, s, net.self)
              && s.comps[net.self].inputs.Keys == site.comps[net.self].inputs.Keys + {x.name}
              && s.comps[net.self].outputs == site.comps[net.self].outputs
  {
    hide Sound, HandlersMatch;
    if x.to in net.components && x.port in site.comps[net.components[x.to]].inputs {
      var c, m := net.components[x.to], |site.comps|;
      MediatorConnects(site.comps, c, x.port);
    }
  }

  /** A new component whose output has the type of an input can be connected to it. */
  lemma MediatorConnects(w: seq<Comp>, c: nat, port: string)
    requires Alive(w, c) && port in w[c].inputs
    ensures var m := |w|;
            var w1 := Step(Step(w, Create).0, DeclareOutput(m, "value", w[c].inputs[port])).0;
            var conn := Connection("value", c, port);
            && w1 == w + [Comp(true, map[], map["value" := w[c].inputs[port]], {}, [])]
            && Step(w1, Connect(m, conn)) == (w1[m := w1[m].(conns := [conn])], Done)
  {
    var m, kind, conn := |w|, w[c].inputs[port], Connection("value", c, port);
    var w0 := Step(w, Create).0;
    var w1 := w + [Comp(true, map[], map["value" := kind], {}, [])];
    assert w0[m] == Comp(true, map[], map[], {}, []) && w0[..m] == w;
    assert Step(w0, DeclareOutput(m, "value", kind)).0 == w1;
    assert w1[m].conns + [conn] == [conn];
  }

  /** The network's inputs are those it had and the described ones. */
  ghost predicate Listens(site: Site, s: Site, self: nat, xs: seq<InputXml>) {
    && OnlySelf(site, s, self) && self < |site.comps| && s.comps[self].outputs == site.comps[self].outputs
    && s.comps[self].inputs.Keys == site.comps[self].inputs.Keys + (set x | x in xs :: x.name)
  }

  lemma InputStill(site: Site, net: Net, s: Site, n: Net, front: seq<InputXml>, x: InputXml)
    requires Belongs(site, net) && Belongs(s, n) && n.self == net.self && n.components == net.components
    requires Listens(site, s, net.self, front)
    ensures InputFits(s, n, x) <==> InputFits(site, net, x) && forall y :: y in front ==> y.name != x.name
  {
    assert x.name in (set y | y in front :: y.name) <==> exists y :: y in front && y.name == x.name;
  }

  lemma ListensMore(site: Site, s: Site, s': Site, self: nat, front: seq<InputXml>, x: InputXml)
    requires Listens(site, s, self, front) && OnlySelf(s, s', self) && self < |s.comps|
    requires s'.comps[self].inputs.Keys == s.comps[self].inputs.Keys + {x.name}
    requires s'.comps[self].outputs == s.comps[self].outputs
    ensures Listens(site, s', self, front + [x])
  {
    assert (set y | y in front + [x] :: y.name) == (set y | y in front :: y.name) + {x.name};
  }

  lemma {:induction false} LoadInputsExact(site: Site, net: Net, xs: seq<InputXml>)
    requires Proper(site) && Belongs(site, net)
    ensures LoadInputs(site, net, xs).Some? <==> InputsFit(site, net, xs)
    ensures LoadInputs(site, net, xs).Some? ==> Listens(site, LoadInputs(site, net, xs).value.0, net.self, xs)
  {
    hide Proper, AddInput, InputFits;
    if xs != [] {
      hide Listens, OnlySelf;
      var front, last := xs[..|xs| - 1], xs[|xs| - 1];
      assert xs == front + [last];
      LoadInputsExact(site, net, front);
      if LoadInputs(site, net, front).Some? {
        var (s, n) := LoadInputs(site, net, front).value;
        InputStep(s, n, last);
        InputStill(site, net, s, n, front, last);
        if AddInput(s, n, last).Some? {
          ListensMore(site, s, AddInput(s, n, last).value.0, net.self, front, last);
        }
      }
    }
  }

  // ----------------------------------------------------------------- connections

  /** All components have the ports they had, and live as they did. */
  ghost predicate SamePorts(site: Site, s: Site) {
    && |s.comps| == |site.comps|
    && forall c :: 0 <= c < |site.comps| ==>
         && s.comps[c].inputs == site.comps[c].inputs && s.comps[c].outputs == site.comps[c].outputs
         && s.comps[c].alive == site.comps[c].alive
  }

  /** The connections there are now: those from before and the described ones. */
  ghost predicate Joins(site: Site, s: Site, components: map<string, nat>, xs: seq<ConnectionXml>) {
    && |s.comps| == |site.comps|
    && forall c, conn :: 0 <= c < |s.comps| ==>
         (conn in s.comps[c].conns <==>
            conn in site.comps[c].conns || exists x :: x in xs && Resolve(components, x) == (c, conn))
  }

  lemma ConnectionStep(site: Site, net: Net, x: ConnectionXml)
    requires Proper(site) && Belongs(site, net)
    ensures AddConnection(site, net, x).Some? <==> ConnectionFits(site, net, x)
    ensures AddConnection(site, net, x).Some? ==>
              var s := AddConnection(site, net, x).value.0;
              && SamePorts(site, s)
              && forall c :: 0 <= c < |site.comps| ==>
                   s.comps[c].conns == site.comps[c].conns +
                   if c == Resolve(net.components, x).0 then [Resolve(net.components, x).1] else []
  {
    hide Sound, HandlersMatch;
  }

  lemma JoinsMore(site: Site, s: Site, s': Site, components: map<string, nat>,
                  front: seq<ConnectionXml>, x: ConnectionXml)
    requires Joins(site, s, components, front) && |s'.comps| == |s.comps|
    requires forall c :: 0 <= c < |s.comps| ==>
               s'.comps[c].conns == s.comps[c].conns +
               if c == Resolve(components, x).0 then [Resolve(components, x).1] else []
    ensures Joins(site, s', components, front + [x])
  {
    hide Resolve;
    forall c, conn | 0 <= c < |s'.comps|
      ensures conn in s'.comps[c].conns <==>
              conn in site.comps[c].conns || exists y :: y in front + [x] && Resolve(components, y) == (c, conn)
    {
      assert forall y :: y in front + [x] <==> y in front || y == x;
    }
  }

  lemma {:induction false} LoadConnectionsExact(site: Site, net: Net, xs: seq<ConnectionXml>)
    requires Proper(site) && Belongs(site, net)
    ensures LoadConnections(site, net, xs).Some? <==> ConnectionsFit(site, net, xs)
    ensures LoadConnections(site, net, xs).Some? ==>
              var s := LoadConnections(site, net, xs).value.0;
              SamePorts(site, s) && Joins(site, s, net.components, xs)
  {
    hide Proper, AddConnection, Joins, Resolve, ConnectionFits;
    if xs == [] {
      JoinsNothing(site, net.components);
    } else {
      var front, last := xs[..|xs| - 1], xs[|xs| - 1];
      assert xs == front + [last];
      LoadConnectionsExact(site, net, front);
      if LoadConnections(site, net, front).Some? {
        var (s, n) := LoadConnections(site, net, front).value;
        ConnectionStep(s, n, last);
        ConnectionStill(site, net, s, n, front, last);
        if AddConnection(s, n, last).Some? {
          JoinsMore(site, s, AddConnection(s, n, last).value.0, net.components, front, last);
        }
      }
    }
  }

  lemma JoinsNothing(site: Site, components: map<string, nat>)
    ensures Joins(site, site, components, [])
  {
  }

  lemma ConnectionStill(site: Site, net: Net, s: Site, n: Net, front: seq<ConnectionXml>, x: ConnectionXml)
    requires Belongs(site, net) && Belongs(s, n) && n.components == net.components
    requires SamePorts(site, s) && Joins(site, s, net.components, front)
    ensures ConnectionFits(s, n, x) <==>
            && ConnectionFits(site, net, x)
            && forall y :: y in front ==> Resolve(net.components, y) != Resolve(net.components, x)
  {
    if x.source in net.components && x.to in net.components {
      var (a, conn) := Resolve(net.components, x);
      assert conn in s.comps[a].conns <==>
             conn in site.comps[a].conns || exists y :: y in front && Resolve(net.components, y) == (a, conn);
    }
  }

  // --------------------------------------------------------------------- outputs

  /** Inside the network the ports stay as they were. */
  ghost predicate SameInside(site: Site, s: Site, self: nat) {
    && |site.comps| <= |s.comps|
    && forall c :: 0 <= c < |site.comps| && c != self ==>
         s.comps[c].outputs == site.comps[c].outputs && s.comps[c].alive == site.comps[c].alive
  }

  lemma OutputStep(site: Site, net: Net, x: OutputXml)
    requires Proper(site) && Belongs(site, net)
    ensures AddOutput(site, net, x).Some? <==> OutputFits(site, net, x)
    ensures AddOutput(site, net, x).Some? ==>
              var s := AddOutput(site, net, x).value.0;
              && SameInside(site, s, net.self)
              && s.comps[net.self].outputs.Keys == site.comps[net.self].outputs.Keys + {x.name}
  {
    hide HandlersMatch;
    if x.source in net.components && x.port in site.comps[net.components[x.source]].outputs {
      MediatorAccepts(site.comps, net.components[x.source], x.port);
    }
  }

  /** A new component whose input has the type of an output can be connected to it. */
  lemma MediatorAccepts(w: seq<Comp>, c: nat, port: string)
    requires Sound(w) && Alive(w, c) && port in w[c].outputs
    ensures var m := |w|;
            var w1 := Step(Step(w, Create).0, DeclareInput(m, "value", w[c].outputs[port])).0;
            var conn := Connection(port, m, "value");
            && w1 == w + [Comp(true, map["value" := w[c].outputs[port]], map[], {"value"}, [])]
            && Step(w1, Connect(c, conn)) == (w1[c := w1[c].(conns := w1[c].conns + [conn])], Done)
  {
    var m: nat, kind := |w|, w[c].outputs[port];
    var conn: Connection<nat> := Connection(port, m, "value");
    var w0 := Step(w, Create).0;
    var w1 := w + [Comp(true, map["value" := kind], map[], {"value"}, [])];
    assert w0[m] == Comp(true, map[], map[], {}, []) && w0[..m] == w;
    assert {} + {"value"} == {"value"};
    assert Step(w0, DeclareInput(m, "value", kind)).0 == w1;
    if conn in w[c].conns { TargetsExist(w, c, conn); }
  }

  /** The network's outputs are those it had and the described ones. */
  ghost predicate Shows(site: Site, s: Site, self: nat, xs: seq<OutputXml>) {
    && SameInside(site, s, self) && self < |site.comps|
    && s.comps[self].outputs.Keys == site.comps[self].outputs.Keys + (set x | x in xs :: x.name)
  }

  lemma OutputStill(site: Site, net: Net, s: Site, n: Net, front: seq<OutputXml>, x: OutputXml)
    requires Belongs(site, net) && Belongs(s, n) && n.self == net.self && n.components == net.components
    requires Shows(site, s, net.self, front)
    ensures OutputFits(s, n, x) <==> OutputFits(site, net, x) && forall y :: y in front ==> y.name != x.name
  {
    assert x.name in (set y | y in front :: y.name) <==> exists y :: y in front && y.name == x.name;
  }

  lemma ShowsMore(site: Site, s: Site, s': Site, self: nat, front: seq<OutputXml>, x: OutputXml)
    requires Shows(site, s, self, front) && SameInside(s, s', self) && self < |s.comps|
    requires s'.comps[self].outputs.Keys == s.comps[self].outputs.Keys + {x.name}
    ensures Shows(site, s', self, front + [x])
  {
    assert (set y | y in front + [x] :: y.name) == (set y | y in front :: y.name) + {x.name};
  }

  lemma {:induction false} LoadOutputsExact(site: Site, net: Net, xs: seq<OutputXml>)
    requires Proper(site) && Belongs(site, net)
    ensures LoadOutputs(site, net, xs).Some? <==> OutputsFit(site, net, xs)
    ensures LoadOutputs(site, net, xs).Some? ==> Shows(site, LoadOutputs(site, net, xs).value.0, net.self, xs)
  {
    hide Proper, AddOutput, OutputFits;
    if xs != [] {
      hide Shows, SameInside;
      var front, last := xs[..|xs| - 1], xs[|xs| - 1];
      assert xs == front + [last];
      LoadOutputsExact(site, net, front);
      if LoadOutputs(site, net, front).Some? {
        var (s, n) := LoadOutputs(site, net, front).value;
        OutputStep(s, n, last);
        OutputStill(site, net, s, n, front, last);
        if AddOutput(s, n, last).Some? {
          ShowsMore(site, s, AddOutput(s, n, last).value.0, net.self, front, last);
        }
      }
    }
  }

  // ------------------------------------------------------------ whole descriptions

  lemma {:induction false} ConnectionsFitStill(site: Site, net: Net, s: Site, n: Net, xs: seq<ConnectionXml>)
    requires Belongs(site, net) && Belongs(s, n) && OnlySelf(site, s, net.self)
    requires n.self == net.self && n.components == net.components
    ensures ConnectionsFit(s, n, xs) <==> ConnectionsFit(site, net, xs)
  {
    if xs != [] { ConnectionsFitStill(site, net, s, n, xs[..|xs| - 1]); }
  }

  lemma {:induction false} OutputsFitStill(site: Site, net: Net, s: Site, n: Net, xs: seq<OutputXml>)
    requires Belongs(site, net) && Belongs(s, n) && SameInside(site, s, net.self)
    requires n.self == net.self && n.components == net.components
    requires s.comps[net.self].outputs == site.comps[net.self].outputs
    ensures OutputsFit(s, n, xs) <==> OutputsFit(site, net, xs)
  {
    if xs != [] { OutputsFitStill(site, net, s, n, xs[..|xs| - 1]); }
  }

  /** A description loads exactly if every input and output names a port that exists and no
      name twice, and every connection joins existing ports of equal type that are not yet
      connected and is not described twice; all as things are before loading. */
  lemma LoadsExactly(site: Site, net: Net, xml: NetXml)
    requires Proper(site) && Belongs(site, net)
    ensures Load(site, net, xml).Some? <==>
            && InputsFit(site, net, xml.inputs) && ConnectionsFit(site, net, xml.connections)
            && OutputsFit(site, net, xml.outputs)
  {
    hide Proper, LoadInputs, LoadConnections, LoadOutputs;
    LoadInputsExact(site, net, xml.inputs);
    if LoadInputs(site, net, xml.inputs).Some? {
      var (s1, n1) := LoadInputs(site, net, xml.inputs).value;
      LoadConnectionsExact(s1, n1, xml.connections);
      ConnectionsFitStill(site, net, s1, n1, xml.connections);
      if LoadConnections(s1, n1, xml.connections).Some? {
        var (s2, n2) := LoadConnections(s1, n1, xml.connections).value;
        LoadOutputsExact(s2, n2, xml.outputs);
        OutputsFitStill(site, net, s2, n2, xml.outputs);
      }
    }
  }
}
