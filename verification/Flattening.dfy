/** Networks inside networks: mediators only forward, so delivering a value through
    them is the same as delivering it along wires that bypass them. */
module Flattening {
  import opened Wrappers

  /** A component and the name of one of its ports. */
  type End = (nat, string)

  /** What one handler call does: its emissions in order, each with the component's
      memory at that moment; the memory at the end; and whether it ends by throwing. */
  datatype Response = Response(emissions: seq<Emission>, memory: int, throws: bool)

  datatype Emission = Emission(memory: int, output: string, value: int)

  /** A component with a handler of its own, which sees the input's name, the value and
      the component's memory; the two mediators of a network; and a network, whose
      inputs are handled by input mediators. */
  datatype Kind =
    | Primitive(react: (string, int, int) -> Response)
    | InputMediator
    | OutputMediator(owner: nat, output: string)
    | Network(inputs: map<string, nat>)

  /** The components, the wires from every output in order, and the declared outputs. */
  datatype Graph = Graph(kind: nat -> Kind, wires: End -> seq<End>, declared: End -> bool)

  /** Where an input that only forwards forwards to. */
  function Next(g: Graph, t: End): Option<End> {
    match g.kind(t.0)
    case Primitive(_) => None
    case InputMediator => None
    case OutputMediator(owner, output) => if t.1 == "value" then Some((owner, output)) else None
    case Network(inputs) => if t.1 in inputs then Some((inputs[t.1], "value")) else None
  }

  /** Heights of inputs and of outputs. */
  datatype Rank = Rank(into: End -> nat, out: End -> nat)

  /** Values only flow downwards, so no handler is entered again while it runs. */
  ghost predicate Acyclic(g: Graph, r: Rank) {
    && (forall e: End, t: End :: t in g.wires(e) ==> r.into(t) < r.out(e))
    && (forall t: End, o: string :: g.kind(t.0).Primitive? ==> r.out((t.0, o)) < r.into(t))
    && (forall t: End :: Next(g, t).Some? ==> r.out(Next(g, t).value) < r.into(t))
  }

  /** Forwarding ports forward to outputs that are declared. */
  ghost predicate Forwards(g: Graph) {
    forall t: End :: Next(g, t).Some? ==> g.declared(Next(g, t).value)
  }

  // ------------------------------------------------------------------- delivery

  /** The memories of the primitive components, every handler call so far, and whether
      an exception is on its way out. */
  datatype Run = Run(memory: map<nat, int>, trace: seq<(End, int)>, thrown: bool)

  function Memory(st: Run, c: nat): int {
    if c in st.memory then st.memory[c] else 0
  }

  function Remember(st: Run, c: nat, m: int): Run {
    st.(memory := st.memory[c := m])
  }

  /** Calling the handler of one input; nothing is called any more once something has
      thrown. */
  function Deliver(g: Graph, r: Rank, t: End, v: int, st: Run): Run
    requires Acyclic(g, r)
    decreases r.into(t), 1, 0
  {
    if st.thrown then st
    else
      match g.kind(t.0)
      case Primitive(react) =>
        var response := react(t.1, v, Memory(st, t.0));
        Finish(Cascade(g, r, t, response.emissions, st.(trace := st.trace + [(t, v)])), t.0, response)
      case _ =>
        var next := Next(g, t);
        if next.Some? then Emit(g, r, next.value, v, st) else st
  }

  function Finish(st: Run, c: nat, response: Response): Run {
    if st.thrown then st else Remember(st, c, response.memory).(thrown := response.throws)
  }

  /** What a handler emits, one after the other, until something throws. */
  function Cascade(g: Graph, r: Rank, t: End, emissions: seq<Emission>, st: Run): Run
    requires Acyclic(g, r) && g.kind(t.0).Primitive?
    decreases r.into(t), 0, |emissions|
  {
    if emissions == [] then st
    else
      var e := emissions[|emissions| - 1];
      var st1 := Cascade(g, r, t, emissions[..|emissions| - 1], st);
      if st1.thrown then st1 else Emit(g, r, (t.0, e.output), e.value, Remember(st1, t.0, e.memory))
  }

  /** Emitting at an output: every connected input in turn, and all that follows from
      one before the next. An output that is not declared throws. */
  function Emit(g: Graph, r: Rank, e: End, v: int, st: Run): Run
    requires Acyclic(g, r)
    decreases r.out(e), 1, 0
  {
    if st.thrown then st
    else if !g.declared(e) then st.(thrown := true)
    else Fan(g, r, r.out(e), g.wires(e), v, st)
  }

  function Fan(g: Graph, r: Rank, height: nat, ts: seq<End>, v: int, st: Run): Run
    requires Acyclic(g, r) && forall t :: t in ts ==> r.into(t) < height
    decreases height, 0, |ts|
  {
    if ts == [] then st
    else Deliver(g, r, ts[|ts| - 1], v, Fan(g, r, height, ts[..|ts| - 1], v, st))
  }

  lemma {:induction false} ThrownStays(g: Graph, r: Rank, height: nat, ts: seq<End>, v: int, st: Run)
    requires Acyclic(g, r) && (forall t :: t in ts ==> r.into(t) < height) && st.thrown
    ensures Fan(g, r, height, ts, v, st) == st
  {
    hide Acyclic;
    if ts != [] { ThrownStays(g, r, height, ts[..|ts| - 1], v, st); }
  }

  // ------------------------------------------------------------------ flattening

  ghost predicate Below(g: Graph, r: Rank, ts: seq<End>, height: nat) {
    forall t :: t in ts ==> g.kind(t.0).Primitive? && r.into(t) < height
  }

  /** The primitive inputs that an output reaches, in the order of delivery. */
  function Direct(g: Graph, r: Rank, e: End): (ts: seq<End>)
    requires Acyclic(g, r)
    ensures Below(g, r, ts, r.out(e))
    decreases r.out(e), 1, 0
  {
    ThroughAll(g, r, r.out(e), g.wires(e))
  }

  function ThroughAll(g: Graph, r: Rank, height: nat, ts: seq<End>): (rs: seq<End>)
    requires Acyclic(g, r) && forall t :: t in ts ==> r.into(t) < height
    ensures Below(g, r, rs, height)
    decreases height, 0, |ts|
  {
    if ts == [] then []
    else ThroughAll(g, r, height, ts[..|ts| - 1]) + Through(g, r, ts[|ts| - 1])
  }

  /** An input, or what it forwards to. */
  function Through(g: Graph, r: Rank, t: End): (rs: seq<End>)
    requires Acyclic(g, r)
    ensures Below(g, r, rs, r.into(t) + 1)
    decreases r.into(t), 1, 0
  {
    if g.kind(t.0).Primitive? then [t]
    else
      var next := Next(g, t);
      if next.Some? then Direct(g, r, next.value) else []
  }

  /** The same components with every wire into a forwarding port replaced by wires to
      the primitive inputs behind it; nothing else is wired any more. */
  function Flat(g: Graph, r: Rank): Graph
    requires Acyclic(g, r)
  {
    g.(wires := (e: End) => if g.kind(e.0).Primitive? then Direct(g, r, e) else [])
  }

  lemma FlatIsAcyclic(g: Graph, r: Rank)
    requires Acyclic(g, r)
    ensures Acyclic(Flat(g, r), r) && (Forwards(g) ==> Forwards(Flat(g, r)))
  {
    forall e: End, t: End | t in Flat(g, r).wires(e) ensures r.into(t) < r.out(e) {
      if g.kind(e.0).Primitive? { assert t in Direct(g, r, e); }
    }
    forall t: End ensures Next(Flat(g, r), t) == Next(g, t) {
    }
  }

  lemma {:induction false} FanConcat(g: Graph, r: Rank, height: nat, a: seq<End>, b: seq<End>, v: int, st: Run)
    requires Acyclic(g, r)
    requires forall t :: t in a + b ==> r.into(t) < height
    requires forall t :: t in a || t in b ==> r.into(t) < height
    ensures Fan(g, r, height, a + b, v, st) == Fan(g, r, height, b, v, Fan(g, r, height, a, v, st))
  {
    hide Acyclic, Deliver;
    if b == [] {
      assert a + b == a;
    } else {
      var n := |b| - 1;
      assert (a + b)[..|a| + n] == a + b[..n];
      FanConcat(g, r, height, a, b[..n], v, st);
    }
  }

  lemma {:induction false} FanHeight(g: Graph, r: Rank, h1: nat, h2: nat, ts: seq<End>, v: int, st: Run)
    requires Acyclic(g, r)
    requires forall t :: t in ts ==> r.into(t) < h1 && r.into(t) < h2
    ensures Fan(g, r, h1, ts, v, st) == Fan(g, r, h2, ts, v, st)
  {
    hide Acyclic, Deliver;
    if ts != [] { FanHeight(g, r, h1, h2, ts[..|ts| - 1], v, st); }
  }

  /** Delivering to any input, of whatever nesting, is delivering in turn to the
      primitive inputs behind it, in the flat graph. */
  lemma {:induction false} DeliverIsFlat(g: Graph, r: Rank, t: End, v: int, st: Run)
    requires Acyclic(g, r) && Forwards(g)
    ensures Acyclic(Flat(g, r), r)
    ensures Deliver(g, r, t, v, st) == Fan(Flat(g, r), r, r.into(t) + 1, Through(g, r, t), v, st)
    decreases r.into(t), 1, 0
  {
    hide Acyclic, Forwards;
    FlatIsAcyclic(g, r);
    var f := Flat(g, r);
    if st.thrown {
      ThrownStays(f, r, r.into(t) + 1, Through(g, r, t), v, st);
    } else if g.kind(t.0).Primitive? {
      var response := g.kind(t.0).react(t.1, v, Memory(st, t.0));
      CascadeIsFlat(g, r, t, response.emissions, st.(trace := st.trace + [(t, v)]));
      FanOfOne(f, r, r.into(t) + 1, t, v, st);
    } else if Next(g, t).Some? {
      var e := Next(g, t).value;
      ForwardsDown(g, r, t);
      ForwardsDeclared(g, t);
      EmitIsFlat(g, r, e, v, st);
      FanHeight(f, r, r.out(e), r.into(t) + 1, Direct(g, r, e), v, st);
    }
  }

  lemma ForwardsDeclared(g: Graph, t: End)
    requires Forwards(g) && Next(g, t).Some?
    ensures g.declared(Next(g, t).value)
  {
  }

  lemma ForwardsDown(g: Graph, r: Rank, t: End)
    requires Acyclic(g, r) && Next(g, t).Some?
    ensures r.out(Next(g, t).value) < r.into(t)
  {
  }

  lemma FanOfOne(g: Graph, r: Rank, height: nat, t: End, v: int, st: Run)
    requires Acyclic(g, r) && r.into(t) < height
    ensures Fan(g, r, height, [t], v, st) == Deliver(g, r, t, v, st)
  {
    hide Acyclic, Deliver;
    assert [t][..0] == [];
  }

  lemma EmitsDown(g: Graph, r: Rank, t: End, o: string)
    requires Acyclic(g, r) && g.kind(t.0).Primitive?
    ensures r.out((t.0, o)) < r.into(t)
  {
  }

  lemma {:induction false} CascadeIsFlat(g: Graph, r: Rank, t: End, emissions: seq<Emission>, st: Run)
    requires Acyclic(g, r) && Forwards(g) && g.kind(t.0).Primitive?
    ensures Acyclic(Flat(g, r), r)
    ensures Cascade(g, r, t, emissions, st) == Cascade(Flat(g, r), r, t, emissions, st)
    decreases r.into(t), 0, |emissions|
  {
    hide Acyclic, Forwards;
    FlatIsAcyclic(g, r);
    if emissions != [] {
      var front, e := emissions[..|emissions| - 1], emissions[|emissions| - 1];
      CascadeIsFlat(g, r, t, front, st);
      var st1 := Cascade(g, r, t, front, st);
      EmitsDown(g, r, t, e.output);
      EmitIsFlat(g, r, (t.0, e.output), e.value, Remember(st1, t.0, e.memory));
      assert Flat(g, r).wires((t.0, e.output)) == Direct(g, r, (t.0, e.output));
    }
  }

  /** Emitting at any declared output reaches, in order, what it is directly wired to
      in the flat graph, until something throws. */
  lemma {:induction false} EmitIsFlat(g: Graph, r: Rank, e: End, v: int, st: Run)
    requires Acyclic(g, r) && Forwards(g)
    ensures Acyclic(Flat(g, r), r)
    ensures Emit(g, r, e, v, st) ==
            if st.thrown || !g.declared(e) then st.(thrown := true)
            else Fan(Flat(g, r), r, r.out(e), Direct(g, r, e), v, st)
    decreases r.out(e), 1, 0
  {
    hide Acyclic, Forwards;
    FlatIsAcyclic(g, r);
    WiresDown(g, r, e);
    FanIsFlat(g, r, r.out(e), g.wires(e), v, st);
  }

  lemma WiresDown(g: Graph, r: Rank, e: End)
    requires Acyclic(g, r)
    ensures forall t :: t in g.wires(e) ==> r.into(t) < r.out(e)
  {
  }

  lemma {:induction false} FanIsFlat(g: Graph, r: Rank, height: nat, ts: seq<End>, v: int, st: Run)
    requires Acyclic(g, r) && Forwards(g) && forall t :: t in ts ==> r.into(t) < height
    ensures Acyclic(Flat(g, r), r)
    ensures Fan(g, r, height, ts, v, st) == Fan(Flat(g, r), r, height, ThroughAll(g, r, height, ts), v, st)
    decreases height, 0, |ts|
  {
    hide Acyclic, Forwards, Deliver, Flat, Through;
    FlatIsAcyclic(g, r);
    if ts != [] {
      var f, front, t := Flat(g, r), ts[..|ts| - 1], ts[|ts| - 1];
      FanIsFlat(g, r, height, front, v, st);
      var st1 := Fan(g, r, height, front, v, st);
      DeliverIsFlat(g, r, t, v, st1);
      FanHeight(f, r, r.into(t) + 1, height, Through(g, r, t), v, st1);
      FanConcat(f, r, height, ThroughAll(g, r, height, front), Through(g, r, t), v, st);
    }
  }

  /** The flattening theorem: for components of any behaviour in any acyclic nesting,
      a value given to a primitive input leads to the same memories, the same handler
      calls with the same values in the same order, and the same exceptions, when the
      mediators and networks between the primitive components are replaced by direct
      wires. */
  lemma FlatteningPreserves(g: Graph, r: Rank, t: End, v: int, st: Run)
    requires Acyclic(g, r) && Forwards(g) && g.kind(t.0).Primitive?
    ensures Acyclic(Flat(g, r), r)
    ensures Deliver(g, r, t, v, st) == Deliver(Flat(g, r), r, t, v, st)
    ensures forall e: End, x: End :: x in Flat(g, r).wires(e) ==> g.kind(x.0).Primitive?
  {
    hide Acyclic;
    DeliverIsFlat(g, r, t, v, st);
    FanOfOne(Flat(g, r), r, r.into(t) + 1, t, v, st);
    forall e: End, x: End | x in Flat(g, r).wires(e) ensures g.kind(x.0).Primitive? {
      if g.kind(e.0).Primitive? { assert x in Direct(g, r, e); }
    }
  }

  /** Giving an input a sequence of values; whoever gives them outlives exceptions. */
  function Feed(g: Graph, r: Rank, t: End, vs: seq<int>, st: Run): Run
    requires Acyclic(g, r)
  {
    if vs == [] then st
    else Deliver(g, r, t, vs[|vs| - 1], Feed(g, r, t, vs[..|vs| - 1], st).(thrown := false))
  }

  /** The same values, each to several inputs in turn. */
  function FeedAll(g: Graph, r: Rank, ts: seq<End>, vs: seq<int>, height: nat, st: Run): Run
    requires Acyclic(g, r) && forall t :: t in ts ==> r.into(t) < height
  {
    if vs == [] then st
    else Fan(g, r, height, ts, vs[|vs| - 1], FeedAll(g, r, ts, vs[..|vs| - 1], height, st).(thrown := false))
  }

  /** A whole sequence of values given to a network's input leads to the same memories
      and the same handler calls, in the same order, as giving each to the primitive
      inputs behind it in the flat graph. */
  lemma {:induction false} FeedIsFlat(g: Graph, r: Rank, t: End, vs: seq<int>, st: Run)
    requires Acyclic(g, r) && Forwards(g)
    ensures Acyclic(Flat(g, r), r)
    ensures Feed(g, r, t, vs, st) == FeedAll(Flat(g, r), r, Through(g, r, t), vs, r.into(t) + 1, st)
  {
    hide Acyclic, Forwards, Flat, Deliver, Through, Fan;
    FlatIsAcyclic(g, r);
    if vs != [] {
      FeedIsFlat(g, r, t, vs[..|vs| - 1], st);
      DeliverIsFlat(g, r, t, vs[|vs| - 1], Feed(g, r, t, vs[..|vs| - 1], st).(thrown := false));
    }
  }
}
