/** Component objects driven by any sequence of calls: they do what the run on values
    does, so an emission never meets a failing assertion. */
module ComponentRuns {
  import opened ComponentGraph
  import opened ComponentHistory

  /** The same connections, once by reference and once by number. */
  ghost predicate SameConns(cs: seq<Connection<ComponentImpl>>, ns: seq<Connection<nat>>, comps: seq<ComponentImpl>) {
    && |cs| == |ns|
    && forall k :: 0 <= k < |ns| ==>
         ns[k].target < |comps| && cs[k] == Connection(ns[k].output, comps[ns[k].target], ns[k].input)
  }

  ghost predicate SameComp(c: ComponentImpl, v: Comp, comps: seq<ComponentImpl>)
    reads c
  {
    && c.alive == v.alive && c.inputs == v.inputs && c.outputs == v.outputs && c.handlers.Keys == v.handlers
    && SameConns(c.connections, v.conns, comps)
  }

  ghost predicate Mirrors(comps: seq<ComponentImpl>, w: seq<Comp>)
    reads comps
  {
    && |comps| == |w| && Distinct(comps)
    && forall i :: 0 <= i < |comps| ==> SameComp(comps[i], w[i], comps)
  }

  lemma SameMember(cs: seq<Connection<ComponentImpl>>, ns: seq<Connection<nat>>,
                   comps: seq<ComponentImpl>, n: Connection<nat>)
    requires SameConns(cs, ns, comps) && Distinct(comps) && n.target < |comps|
    ensures n in ns <==> Connection(n.output, comps[n.target], n.input) in cs
  {
    var c := Connection(n.output, comps[n.target], n.input);
    if n in ns {
      var k :| 0 <= k < |ns| && ns[k] == n;
      assert cs[k] == c;
    }
    if c in cs {
      var k :| 0 <= k < |cs| && cs[k] == c;
      assert comps[ns[k].target] == comps[n.target];
      assert ns[k] == n;
    }
  }

  lemma {:induction false} SameWithout(cs: seq<Connection<ComponentImpl>>, ns: seq<Connection<nat>>,
                                       comps: seq<ComponentImpl>, n: Connection<nat>)
    requires SameConns(cs, ns, comps) && Distinct(comps) && n.target < |comps|
    ensures SameConns(Without(cs, Connection(n.output, comps[n.target], n.input)), Without(ns, n), comps)
  {
    if ns != [] {
      assert cs[0] == Connection(ns[0].output, comps[ns[0].target], ns[0].input);
      SameWithout(cs[1..], ns[1..], comps, n);
    }
  }

  /** The same hits, by reference and by number. */
  ghost predicate SameHits(rs: seq<(ComponentImpl, string)>, ts: seq<(nat, string)>, comps: seq<ComponentImpl>) {
    |rs| == |ts| && forall k :: 0 <= k < |ts| ==> ts[k].0 < |comps| && rs[k] == (comps[ts[k].0], ts[k].1)
  }

  lemma {:induction false} SameReached(cs: seq<Connection<ComponentImpl>>, ns: seq<Connection<nat>>,
                                       comps: seq<ComponentImpl>, output: string, a: set<ComponentImpl>, b: set<nat>)
    requires SameConns(cs, ns, comps)
    requires forall k :: 0 <= k < |ns| ==> (cs[k].target in a <==> ns[k].target in b)
    ensures SameHits(Reached(cs, output, a), Reached(ns, output, b), comps)
  {
    if ns != [] {
      var n := |ns| - 1;
      SameReached(cs[..n], ns[..n], comps, output, a, b);
    }
  }

  lemma MoreComps(cs: seq<Connection<ComponentImpl>>, ns: seq<Connection<nat>>,
                  comps: seq<ComponentImpl>, c: ComponentImpl)
    requires SameConns(cs, ns, comps)
    ensures SameConns(cs, ns, comps + [c])
  {
  }

  lemma OthersDiffer(comps: seq<ComponentImpl>, c: nat)
    requires Distinct(comps) && c < |comps|
    ensures forall i :: 0 <= i < |comps| && i != c ==> comps[i] != comps[c]
  {
  }

  /** The components that a call is made on. */
  function Callees(op: Op): seq<nat> {
    match op
    case Create => []
    case DeclareInput(c, _, _) => [c]
    case DeclareOutput(c, _, _) => [c]
    case Connect(c, conn) => [c, conn.target]
    case Disconnect(c, conn) => [c, conn.target]
    case Destroy(c) => [c]
  }

  predicate Exist(comps: seq<ComponentImpl>, op: Op)
    reads comps
  {
    forall c :: c in Callees(op) ==> c < |comps| && comps[c].alive
  }

  lemma AllAlive(comps: seq<ComponentImpl>, w: seq<Comp>, op: Op)
    requires Mirrors(comps, w)
    ensures Exist(comps, op) <==> forall c :: c in Callees(op) ==> Alive(w, c)
  {
    hide SameConns, Distinct;
  }

  lemma NothingHappens(comps: seq<ComponentImpl>, w: seq<Comp>, op: Op)
    requires Mirrors(comps, w) && !Exist(comps, op)
    ensures Step(w, op) == (w, Gone)
  {
    AllAlive(comps, w, op);
  }

  /** What runs keep, carried over to one object. */
  lemma SoundObject(comps: seq<ComponentImpl>, w: seq<Comp>, c: nat)
    requires Mirrors(comps, w) && Sound(w) && c < |w|
    ensures comps[c].Sound()
    ensures forall k :: 0 <= k < |w[c].conns| ==>
              (comps[c].connections[k].target in comps[c].Living() <==> w[c].conns[k].target in Living(w))
  {
    hide Distinct;
    var it, v := comps[c], w[c];
    assert SameComp(it, v, comps);
    forall x | x in it.connections && x.target.alive
      ensures x.output in it.outputs && x.input in x.target.inputs && x.input in x.target.handlers
      ensures it.outputs[x.output] == x.target.inputs[x.input]
    {
      var k :| 0 <= k < |v.conns| && it.connections[k] == x;
      assert Typed(w, c, v.conns[k]);
      assert SameComp(comps[v.conns[k].target], w[v.conns[k].target], comps);
    }
    forall k | 0 <= k < |v.conns|
      ensures it.connections[k].target in it.Living() <==> v.conns[k].target in Living(w)
    {
      assert it.connections[k] in it.connections && Typed(w, c, v.conns[k]);
      assert SameComp(comps[v.conns[k].target], w[v.conns[k].target], comps);
    }
  }

  /** All components there have been. */
  class Components {
    var comps: seq<ComponentImpl>

    constructor ()
      ensures comps == []
    {
      comps := [];
    }

    method DeclareInput(c: nat, name: string, kind: int, ghost w: seq<Comp>) returns (o: Outcome)
      requires Mirrors(comps, w) && HandlersMatch(w) && Alive(w, c)
      modifies comps
      ensures Mirrors(comps, Step(w, ComponentGraph.DeclareInput(c, name, kind)).0)
      ensures o == Step(w, ComponentGraph.DeclareInput(c, name, kind)).1
    {
      OthersDiffer(comps, c);
      hide SameConns, Distinct;
      o := comps[c].DeclareInput(name, kind, 0);
      assert comps[c].handlers.Keys == w[c].handlers + {name};
    }

    method DeclareOutput(c: nat, name: string, kind: int, ghost w: seq<Comp>) returns (o: Outcome)
      requires Mirrors(comps, w) && Alive(w, c)
      modifies comps
      ensures Mirrors(comps, Step(w, ComponentGraph.DeclareOutput(c, name, kind)).0)
      ensures o == Step(w, ComponentGraph.DeclareOutput(c, name, kind)).1
    {
      OthersDiffer(comps, c);
      hide SameConns, Distinct;
      o := comps[c].DeclareOutput(name, kind);
    }

    method Connect(c: nat, conn: Connection<nat>, ghost w: seq<Comp>) returns (o: Outcome)
      requires Mirrors(comps, w) && Alive(w, c) && Alive(w, conn.target)
      modifies comps
      ensures Mirrors(comps, Step(w, ComponentGraph.Connect(c, conn)).0)
      ensures o == Step(w, ComponentGraph.Connect(c, conn)).1
    {
      OthersDiffer(comps, c);
      hide Distinct;
      assert SameComp(comps[c], w[c], comps) && SameComp(comps[conn.target], w[conn.target], comps);
      SameMember(comps[c].connections, w[c].conns, comps, conn);
      o := comps[c].Connect(conn.output, comps[conn.target], conn.input);
    }

    method Disconnect(c: nat, conn: Connection<nat>, ghost w: seq<Comp>) returns (o: Outcome)
      requires Mirrors(comps, w) && Alive(w, c) && Alive(w, conn.target)
      modifies comps
      ensures Mirrors(comps, Step(w, ComponentGraph.Disconnect(c, conn)).0)
      ensures o == Step(w, ComponentGraph.Disconnect(c, conn)).1
    {
      OthersDiffer(comps, c);
      hide Distinct, SameConns, Without;
      assert SameComp(comps[c], w[c], comps) && SameComp(comps[conn.target], w[conn.target], comps);
      SameMember(comps[c].connections, w[c].conns, comps, conn);
      SameWithout(comps[c].connections, w[c].conns, comps, conn);
      o := comps[c].Disconnect(conn.output, comps[conn.target], conn.input);
    }

    method Destroy(c: nat, ghost w: seq<Comp>) returns (o: Outcome)
      requires Mirrors(comps, w) && Alive(w, c)
      modifies comps
      ensures Mirrors(comps, Step(w, ComponentGraph.Destroy(c)).0)
      ensures o == Step(w, ComponentGraph.Destroy(c)).1
    {
      OthersDiffer(comps, c);
      hide SameConns, Distinct;
      comps[c].Destroy();
      o := Done;
    }

    /** One call, made on the objects if they still exist. */
    method Call(op: Op, ghost w: seq<Comp>) returns (o: Outcome)
      requires Mirrors(comps, w) && HandlersMatch(w)
      modifies this, comps
      ensures Mirrors(comps, Step(w, op).0) && o == Step(w, op).1
      ensures forall i :: 0 <= i < |comps| ==> comps[i] in old(comps) || fresh(comps[i])
    {
      hide HandlersMatch;
      if !Exist(comps, op) {
        NothingHappens(comps, w, op);
        return Gone;
      }
      AllAlive(comps, w, op);
      hide Step, Mirrors;
      match op
      case Create => o := Add(w);
      case DeclareInput(c, name, kind) => o := DeclareInput(c, name, kind, w);
      case DeclareOutput(c, name, kind) => o := DeclareOutput(c, name, kind, w);
      case Connect(c, conn) => o := Connect(c, conn, w);
      case Disconnect(c, conn) => o := Disconnect(c, conn, w);
      case Destroy(c) => o := Destroy(c, w);
    }

    method Add(ghost w: seq<Comp>) returns (o: Outcome)
      requires Mirrors(comps, w)
      modifies this
      ensures Mirrors(comps, Step(w, Create).0) && o == Done
      ensures forall i :: 0 <= i < |comps| ==> comps[i] in old(comps) || fresh(comps[i])
    {
      var c := new ComponentImpl();
      forall i | 0 <= i < |comps| ensures SameConns(comps[i].connections, w[i].conns, comps + [c]) {
        assert SameComp(comps[i], w[i], comps);
        MoreComps(comps[i].connections, w[i].conns, comps, c);
      }
      comps := comps + [c];
      o := Done;
    }

    /** Any sequence of calls on new objects leads to the run's components. */
    method CallAll(ops: seq<Op>)
      requires comps == []
      modifies this
      ensures Mirrors(comps, RunOps(ops)) && forall i :: 0 <= i < |comps| ==> fresh(comps[i])
    {
      for i := 0 to |ops|
        invariant Mirrors(comps, RunOps(ops[..i])) && forall j :: 0 <= j < |comps| ==> fresh(comps[j])
      {
        assert ops[..i + 1][..i] == ops[..i];
        EveryRunIsSound(ops[..i]);
        var o := Call(ops[i], RunOps(ops[..i]));
      }
      assert ops[..|ops|] == ops;
    }

    method Emit(c: nat, output: string, kind: int, value: int, ghost w: seq<Comp>)
      returns (o: Outcome, calls: seq<Invocation>)
      requires Mirrors(comps, w) && Sound(w) && Alive(w, c)
      ensures o == if output !in w[c].outputs then NotDeclared
                   else if w[c].outputs[output] != kind then WrongType else Done
      ensures o == Done ==> SameHits(Hits(calls), Reached(w[c].conns, output, Living(w)), comps)
      ensures o != Done ==> calls == []
      ensures forall v :: v in calls ==> v.value == value && v.input in v.target.handlers &&
                                         v.handler == v.target.handlers[v.input]
    {
      SoundObject(comps, w, c);
      assert SameComp(comps[c], w[c], comps);
      o, calls := comps[c].Emit(output, kind, value);
      SameReached(comps[c].connections, w[c].conns, comps, output, comps[c].Living(), Living(w));
    }

    /** After any calls whatever on new objects, an emission runs into none of the
        assertions; it is accepted exactly for the type that the output was declared with,
        and calls the handlers of exactly the inputs that the run on values reaches, in
        order. */
    method CallAllAndEmit(ops: seq<Op>, c: nat, output: string, kind: int, value: int)
      returns (o: Outcome, calls: seq<Invocation>)
      requires comps == [] && Alive(RunOps(ops), c)
      modifies this
      ensures var w := RunOps(ops);
              && (o == match PortType(ops, c, Out, output)
                       case None => NotDeclared
                       case Some(declared) => if declared != kind then WrongType else Done)
              && (o == Done ==> SameHits(Hits(calls), Reached(w[c].conns, output, Living(w)), comps))
              && (o != Done ==> calls == [])
    {
      PortsAreDeclared(ops, c, Out, output);
      CallAll(ops);
      EveryRunIsSound(ops);
      o, calls := Emit(c, output, kind, value, RunOps(ops));
    }
  }
}
