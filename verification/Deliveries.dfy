/** What a delivery does, said without running it: which handlers it calls, in which
    order, and which memories it leaves. */
module Deliveries {
  import opened Flattening

  type Call = (End, int)

  // ------------------------------------------------------- what has been called

  /** The calls that one emission asks for directly. */
  function CallsOf(ts: seq<End>, v: int): (r: seq<Call>)
    ensures |r| == |ts| && forall i :: 0 <= i < |r| ==> r[i] == (ts[i], v)
  {
    seq(|ts|, i requires 0 <= i < |ts| => (ts[i], v))
  }

  /** The calls that a handler's emissions ask for directly: in the order of the
      emissions, and for each in the order of the wires. */
  function CallsFor(g: Graph, r: Rank, c: nat, emissions: seq<Emission>): seq<Call>
    requires Acyclic(g, r)
  {
    if emissions == [] then []
    else
      var e := emissions[|emissions| - 1];
      CallsFor(g, r, c, emissions[..|emissions| - 1]) + CallsOf(Direct(g, r, (c, e.output)), e.value)
  }

  /** The log falls into one piece per call, in order, each of which begins with it; the
      rest of a piece is what that call has led to. */
  ghost predicate Unfolds(calls: seq<Call>, log: seq<Call>) {
    if calls == [] then log == []
    else exists k :: 0 <= k < |log| && log[k] == calls[|calls| - 1] && Unfolds(calls[..|calls| - 1], log[..k])
  }

  lemma UnfoldsSnoc(calls: seq<Call>, log: seq<Call>, call: Call, piece: seq<Call>)
    requires Unfolds(calls, log) && piece != [] && piece[0] == call
    ensures Unfolds(calls + [call], log + piece)
  {
    assert (calls + [call])[..|calls|] == calls;
    assert (log + piece)[..|log|] == log && (log + piece)[|log|] == call;
  }

  lemma {:induction false} UnfoldsConcat(a: seq<Call>, x: seq<Call>, b: seq<Call>, y: seq<Call>)
    requires Unfolds(a, x) && Unfolds(b, y)
    ensures Unfolds(a + b, x + y)
  {
    if b == [] {
      assert a + b == a && x + y == x;
    } else {
      var n := |b| - 1;
      var k :| 0 <= k < |y| && y[k] == b[n] && Unfolds(b[..n], y[..k]);
      UnfoldsConcat(a, x, b[..n], y[..k]);
      UnfoldsSnoc(a + b[..n], x + y[..k], b[n], y[k..]);
      assert (a + b[..n]) + [b[n]] == a + b && (x + y[..k]) + y[k..] == x + y;
    }
  }

  // ------------------------------------------------------------ what is untouched

  /** All of the component's inputs lie at this height or above. */
  ghost predicate Higher(r: Rank, c: nat, height: nat) {
    forall i: string :: r.into((c, i)) >= height
  }

  /** Calls are only added, and the components that lie higher keep their memories. */
  ghost predicate Keeps(r: Rank, height: nat, before: Run, after: Run) {
    && before.trace <= after.trace
    && (forall c :: Higher(r, c, height) ==> Memory(after, c) == Memory(before, c))
  }

  lemma KeepsFurther(r: Rank, low: nat, high: nat, a: Run, b: Run, c: Run)
    requires Keeps(r, low, a, b) && Keeps(r, high, b, c)
    ensures Keeps(r, if low < high then high else low, a, c)
  {
    var top := if low < high then high else low;
    forall x | Higher(r, x, top) ensures Memory(c, x) == Memory(a, x) {
      assert Higher(r, x, low) && Higher(r, x, high);
    }
  }

  lemma {:induction false} DeliverKeeps(g: Graph, r: Rank, t: End, v: int, st: Run)
    requires Acyclic(g, r)
    ensures Keeps(r, r.into(t) + 1, st, Deliver(g, r, t, v, st))
    decreases r.into(t), 1, 0
  {
    hide Acyclic;
    if !st.thrown {
      if g.kind(t.0).Primitive? {
        var response := g.kind(t.0).react(t.1, v, Memory(st, t.0));
        var called := st.(trace := st.trace + [(t, v)]);
        CascadeKeeps(g, r, t, response.emissions, called);
        RememberKeeps(r, t, response.memory, Cascade(g, r, t, response.emissions, called));
      } else if Next(g, t).Some? {
        ForwardsDown(g, r, t);
        EmitKeeps(g, r, Next(g, t).value, v, st);
        KeepsFurther(r, r.out(Next(g, t).value), r.into(t) + 1, st, Deliver(g, r, t, v, st), Deliver(g, r, t, v, st));
      }
    }
  }

  lemma RememberKeeps(r: Rank, t: End, m: int, st: Run)
    ensures Keeps(r, r.into(t) + 1, st, Remember(st, t.0, m))
  {
    forall c | Higher(r, c, r.into(t) + 1) ensures Memory(Remember(st, t.0, m), c) == Memory(st, c) {
      assert r.into((c, t.1)) > r.into(t);
    }
  }

  lemma {:induction false} CascadeKeeps(g: Graph, r: Rank, t: End, emissions: seq<Emission>, st: Run)
    requires Acyclic(g, r) && g.kind(t.0).Primitive?
    ensures Keeps(r, r.into(t) + 1, st, Cascade(g, r, t, emissions, st))
    decreases r.into(t), 0, |emissions|
  {
    hide Acyclic, Keeps;
    if emissions == [] {
      KeepsItself(r, r.into(t) + 1, st);
    } else {
      var front, e := emissions[..|emissions| - 1], emissions[|emissions| - 1];
      CascadeKeeps(g, r, t, front, st);
      var st1 := Cascade(g, r, t, front, st);
      EmitsDown(g, r, t, e.output);
      RememberKeeps(r, t, e.memory, st1);
      var st2 := Remember(st1, t.0, e.memory);
      EmitKeeps(g, r, (t.0, e.output), e.value, st2);
      KeepsFurther(r, r.into(t) + 1, r.into(t) + 1, st, st1, st2);
      KeepsFurther(r, r.into(t) + 1, r.out((t.0, e.output)), st, st2, Emit(g, r, (t.0, e.output), e.value, st2));
    }
  }

  lemma KeepsItself(r: Rank, height: nat, st: Run)
    ensures Keeps(r, height, st, st) && Keeps(r, height, st, st.(thrown := true))
  {
  }

  lemma {:induction false} EmitKeeps(g: Graph, r: Rank, e: End, v: int, st: Run)
    requires Acyclic(g, r)
    ensures Keeps(r, r.out(e), st, Emit(g, r, e, v, st))
    decreases r.out(e), 1, 0
  {
    hide Acyclic, Keeps;
    KeepsItself(r, r.out(e), st);
    WiresDown(g, r, e);
    FanKeeps(g, r, r.out(e), g.wires(e), v, st);
  }

  lemma {:induction false} FanKeeps(g: Graph, r: Rank, height: nat, ts: seq<End>, v: int, st: Run)
    requires Acyclic(g, r) && forall t :: t in ts ==> r.into(t) < height
    ensures Keeps(r, height, st, Fan(g, r, height, ts, v, st))
    decreases height, 0, |ts|
  {
    hide Acyclic, Keeps, Deliver;
    if ts == [] {
      KeepsItself(r, height, st);
    } else {
      var front, t := ts[..|ts| - 1], ts[|ts| - 1];
      FanKeeps(g, r, height, front, v, st);
      var st1 := Fan(g, r, height, front, v, st);
      DeliverKeeps(g, r, t, v, st1);
      KeepsFurther(r, height, r.into(t) + 1, st, st1, Deliver(g, r, t, v, st1));
    }
  }

  // ------------------------------------------------------------- what is called

  lemma FanStep(g: Graph, r: Rank, height: nat, ts: seq<End>, v: int, st: Run)
    requires Acyclic(g, r) && (forall t :: t in ts ==> r.into(t) < height) && ts != []
    ensures Fan(g, r, height, ts, v, st) ==
            Deliver(g, r, ts[|ts| - 1], v, Fan(g, r, height, ts[..|ts| - 1], v, st))
    ensures Fan(g, r, height, ts[..|ts| - 1], v, st).thrown ==>
              Fan(g, r, height, ts, v, st) == Fan(g, r, height, ts[..|ts| - 1], v, st)
  {
    hide Acyclic;
  }

  /** A call of a primitive component's handler is the first thing added. */
  lemma CallIsFirst(g: Graph, r: Rank, t: End, v: int, st: Run) returns (piece: seq<Call>)
    requires Acyclic(g, r) && g.kind(t.0).Primitive? && !st.thrown
    ensures Deliver(g, r, t, v, st).trace == st.trace + piece && piece != [] && piece[0] == (t, v)
  {
    hide Acyclic;
    var response := g.kind(t.0).react(t.1, v, Memory(st, t.0));
    var called := st.(trace := st.trace + [(t, v)]);
    CascadeKeeps(g, r, t, response.emissions, called);
    var after := Deliver(g, r, t, v, st).trace;
    assert called.trace <= after;
    piece := after[|st.trace|..];
  }

  /** One emission calls its inputs in order, up to the one that throws. */
  lemma {:induction false} FanUnfolds(g: Graph, r: Rank, height: nat, ts: seq<End>, v: int, st: Run)
    returns (n: nat, log: seq<Call>)
    requires Acyclic(g, r) && Below(g, r, ts, height) && !st.thrown
    ensures n <= |ts| && Fan(g, r, height, ts, v, st).trace == st.trace + log
    ensures Unfolds(CallsOf(ts, v)[..n], log)
    ensures if Fan(g, r, height, ts, v, st).thrown then n > 0 else n == |ts|
  {
    hide Acyclic, Deliver, Unfolds;
    if ts == [] {
      n, log := 0, [];
      NothingUnfolds();
    } else {
      var front, t := ts[..|ts| - 1], ts[|ts| - 1];
      assert forall x :: x in front ==> x in ts;
      var st1 := Fan(g, r, height, front, v, st);
      n, log := FanUnfolds(g, r, height, front, v, st);
      FanStep(g, r, height, ts, v, st);
      assert CallsOf(ts, v)[..n] == CallsOf(front, v)[..n];
      if !st1.thrown {
        var piece := CallIsFirst(g, r, t, v, st1);
        assert CallsOf(front, v)[..n] == CallsOf(front, v);
        UnfoldsSnoc(CallsOf(front, v), log, (t, v), piece);
        assert CallsOf(ts, v)[..n + 1] == CallsOf(front, v) + [(t, v)];
        assert st1.trace + piece == st.trace + (log + piece);
        n, log := n + 1, log + piece;
      }
    }
  }

  lemma NothingUnfolds()
    ensures Unfolds([], [])
  {
  }

  /** Where a handler's emissions have got to: all are through, or the one numbered j
      has thrown, and the component has the memory it had then. */
  ghost predicate StoppedAt(g: Graph, r: Rank, c: nat, emissions: seq<Emission>, n: nat, j: nat, after: Run)
    requires Acyclic(g, r)
  {
    && j < |emissions| && Memory(after, c) == emissions[j].memory
    && var before, own := |CallsFor(g, r, c, emissions[..j])|, |Direct(g, r, (c, emissions[j].output))|;
       before <= n <= before + own && (n == before ==> !g.declared((c, emissions[j].output)))
  }

  lemma {:induction false} CascadeUnfolds(g: Graph, r: Rank, t: End, emissions: seq<Emission>, st: Run)
    returns (n: nat, j: nat, log: seq<Call>)
    requires Acyclic(g, r) && Forwards(g) && g.kind(t.0).Primitive? && !st.thrown
    ensures n <= |CallsFor(g, r, t.0, emissions)| && Cascade(g, r, t, emissions, st).trace == st.trace + log
    ensures Unfolds(CallsFor(g, r, t.0, emissions)[..n], log)
    ensures var after := Cascade(g, r, t, emissions, st);
            if after.thrown then StoppedAt(g, r, t.0, emissions, n, j, after)
            else n == |CallsFor(g, r, t.0, emissions)|
                 && forall i :: 0 <= i < |emissions| ==> g.declared((t.0, emissions[i].output))
  {
    hide Acyclic, Forwards, Unfolds, Memory;
    if emissions == [] {
      n, j, log := 0, 0, [];
      NothingUnfolds();
    } else {
      var last := |emissions| - 1;
      var front, e := emissions[..last], emissions[last];
      var st1 := Cascade(g, r, t, front, st);
      n, j, log := CascadeUnfolds(g, r, t, front, st);
      var calls, more := CallsFor(g, r, t.0, front), CallsOf(Direct(g, r, (t.0, e.output)), e.value);
      if st1.thrown {
        assert front[..j] == emissions[..j];
        assert (calls + more)[..n] == calls[..n];
      } else {
        var n2, log2 := EmissionUnfolds(g, r, t, e, st1);
        assert calls[..n] == calls;
        UnfoldsConcat(calls, log, more[..n2], log2);
        assert (calls + more)[..n + n2] == calls + more[..n2];
        n, j, log := n + n2, last, log + log2;
      }
    }
  }

  /** One emission of a handler. */
  lemma EmissionUnfolds(g: Graph, r: Rank, t: End, e: Emission, st: Run) returns (n: nat, log: seq<Call>)
    requires Acyclic(g, r) && Forwards(g) && g.kind(t.0).Primitive? && !st.thrown
    ensures var ts := Direct(g, r, (t.0, e.output));
            var after := Emit(g, r, (t.0, e.output), e.value, Remember(st, t.0, e.memory));
            && n <= |ts| && after.trace == st.trace + log && Unfolds(CallsOf(ts, e.value)[..n], log)
            && Memory(after, t.0) == e.memory
            && (if after.thrown then n > 0 || !g.declared((t.0, e.output))
                else n == |ts| && g.declared((t.0, e.output)))
  {
    var o, st1 := (t.0, e.output), Remember(st, t.0, e.memory);
    EmitsDown(g, r, t, e.output);
    EmitKeeps(g, r, o, e.value, st1);
    OwnerIsHigher(g, r, t, e.output);
    hide Acyclic, Forwards, Unfolds;
    EmitIsFlat(g, r, o, e.value, st1);
    if g.declared(o) {
      FlatKinds(g, r);
      n, log := FanUnfolds(Flat(g, r), r, r.out(o), Direct(g, r, o), e.value, st1);
    } else {
      n, log := 0, [];
      NothingUnfolds();
      assert CallsOf(Direct(g, r, o), e.value)[..0] == [];
    }
  }

  lemma OwnerIsHigher(g: Graph, r: Rank, t: End, o: string)
    requires Acyclic(g, r) && g.kind(t.0).Primitive?
    ensures Higher(r, t.0, r.out((t.0, o)))
  {
    forall i: string ensures r.into((t.0, i)) >= r.out((t.0, o)) {
      EmitsDown(g, r, (t.0, i), o);
    }
  }

  lemma FlatKinds(g: Graph, r: Rank)
    requires Acyclic(g, r)
    ensures Flat(g, r).kind == g.kind
    ensures forall ts, height :: Below(g, r, ts, height) ==> Below(Flat(g, r), r, ts, height)
  {
  }

  /** What a delivery to a component does. The handler is called, and then for each of
      its emissions in turn every input behind the output, in the order of the wires, each
      with the emitted value and followed by all that this leads to. If nothing throws, all
      of them are called and the component ends with the memory its handler returned.
      Otherwise the handler itself threw at its end, or an emission was cut short: at a
      call that threw, or because its output is not declared. */
  lemma DeliveryCalls(g: Graph, r: Rank, t: End, v: int, st: Run) returns (n: nat, j: nat, log: seq<Call>)
    requires Acyclic(g, r) && Forwards(g) && g.kind(t.0).Primitive? && !st.thrown
    ensures var response := g.kind(t.0).react(t.1, v, Memory(st, t.0));
            var calls, after := CallsFor(g, r, t.0, response.emissions), Deliver(g, r, t, v, st);
            && n <= |calls| && after.trace == st.trace + [(t, v)] + log && Unfolds(calls[..n], log)
            && (|| (after.thrown && StoppedAt(g, r, t.0, response.emissions, n, j, after))
                || (&& n == |calls| && Memory(after, t.0) == response.memory && after.thrown == response.throws
                    && forall i :: 0 <= i < |response.emissions| ==>
                         g.declared((t.0, response.emissions[i].output))))
  {
    hide Acyclic, Forwards, Unfolds;
    var response := g.kind(t.0).react(t.1, v, Memory(st, t.0));
    var called := st.(trace := st.trace + [(t, v)]);
    n, j, log := CascadeUnfolds(g, r, t, response.emissions, called);
    var calls := CallsFor(g, r, t.0, response.emissions);
  }

  // -------------------------------------------------------- what an output reaches

  /** A way from an output to a primitive input: along a wire, and then forwarded and
      along a wire again, as often as needed. */
  ghost predicate Leads(g: Graph, e: End, way: seq<End>) {
    && way != [] && way[0] in g.wires(e) && g.kind(way[|way| - 1].0).Primitive?
    && forall k :: 0 <= k < |way| - 1 ==>
         !g.kind(way[k].0).Primitive? && Next(g, way[k]).Some? && way[k + 1] in g.wires(Next(g, way[k]).value)
  }

  /** The inputs behind an output are those that some way leads to. */
  lemma DirectIsReachable(g: Graph, r: Rank, e: End, x: End)
    requires Acyclic(g, r)
    ensures x in Direct(g, r, e) <==> exists way :: Leads(g, e, way) && way[|way| - 1] == x
  {
    if x in Direct(g, r, e) {
      var way := WayTo(g, r, e, x);
    }
    if way :| Leads(g, e, way) && way[|way| - 1] == x {
      WayEnds(g, r, e, way);
    }
  }

  lemma {:induction false} WayTo(g: Graph, r: Rank, e: End, x: End) returns (way: seq<End>)
    requires Acyclic(g, r) && x in Direct(g, r, e)
    ensures Leads(g, e, way) && way[|way| - 1] == x
    decreases r.out(e)
  {
    hide Acyclic;
    WiresDown(g, r, e);
    var t := SomeWire(g, r, r.out(e), g.wires(e), x);
    if g.kind(t.0).Primitive? {
      way := [t];
    } else {
      ForwardsDown(g, r, t);
      var rest := WayTo(g, r, Next(g, t).value, x);
      way := [t] + rest;
    }
  }

  lemma {:induction false} SomeWire(g: Graph, r: Rank, height: nat, ts: seq<End>, x: End) returns (t: End)
    requires Acyclic(g, r) && (forall t :: t in ts ==> r.into(t) < height) && x in ThroughAll(g, r, height, ts)
    ensures t in ts && x in Through(g, r, t)
  {
    hide Acyclic, Through;
    t := ts[|ts| - 1];
    if x !in Through(g, r, t) { t := SomeWire(g, r, height, ts[..|ts| - 1], x); }
  }

  lemma {:induction false} WayEnds(g: Graph, r: Rank, e: End, way: seq<End>)
    requires Acyclic(g, r) && Leads(g, e, way)
    ensures way[|way| - 1] in Direct(g, r, e)
    decreases |way|
  {
    hide Acyclic;
    WiresDown(g, r, e);
    var t := way[0];
    if |way| > 1 {
      var rest := way[1..];
      assert way[1] in g.wires(Next(g, t).value);
      assert forall k :: 0 <= k < |rest| ==> rest[k] == way[k + 1];
      WayEnds(g, r, Next(g, t).value, rest);
    }
    EveryWire(g, r, r.out(e), g.wires(e), t, way[|way| - 1]);
  }

  lemma {:induction false} EveryWire(g: Graph, r: Rank, height: nat, ts: seq<End>, t: End, x: End)
    requires Acyclic(g, r) && (forall t :: t in ts ==> r.into(t) < height)
    requires t in ts && x in Through(g, r, t)
    ensures x in ThroughAll(g, r, height, ts)
  {
    hide Acyclic, Through;
    if ts[|ts| - 1] != t {
      assert ts == ts[..|ts| - 1] + [ts[|ts| - 1]];
      EveryWire(g, r, height, ts[..|ts| - 1], t, x);
    }
  }

  // -------------------------------------------------------------------- a pipeline

  /** Components from i to n, each of which answers a value at `in` by one value at `out`,
      which is wired to the next. */
  ghost predicate Pipeline(g: Graph, f: (nat, int) -> int, i: nat, n: nat) {
    forall k :: i <= k <= n ==>
      && g.kind(k).Primitive? && g.declared((k, "out"))
      && g.wires((k, "out")) == (if k < n then [(k + 1, "in")] else [])
      && forall v, m :: Passes(g.kind(k).react("in", v, m), f(k, v))
  }

  predicate Passes(response: Response, value: int) {
    |response.emissions| == 1 && response.emissions[0].output == "out" && response.emissions[0].value == value
    && !response.throws
  }

  function Stages(f: (nat, int) -> int, i: nat, n: nat, v: int): seq<Call>
    decreases n - i
  {
    [((i, "in"), v)] + if i < n then Stages(f, i + 1, n, f(i, v)) else []
  }

  /** A value given to a pipeline of any length reaches every stage once, composed of what
      the stages before it do, and nothing throws. */
  lemma {:induction false} PipelineComposes(g: Graph, r: Rank, f: (nat, int) -> int, i: nat, n: nat, v: int, st: Run)
    requires Acyclic(g, r) && Pipeline(g, f, i, n) && i <= n && !st.thrown
    ensures var after := Deliver(g, r, (i, "in"), v, st);
            !after.thrown && after.trace == st.trace + Stages(f, i, n, v)
    decreases n - i
  {
    hide Acyclic, Stages;
    var t := (i, "in");
    var response := g.kind(i).react("in", v, Memory(st, i));
    assert Passes(response, f(i, v));
    var e := response.emissions[0];
    var called := st.(trace := st.trace + [(t, v)]);
    var st1 := Remember(called, i, e.memory);
    assert response.emissions[..0] == [];
    assert Cascade(g, r, t, response.emissions, called) == Emit(g, r, (i, "out"), f(i, v), st1);
    WiresDown(g, r, (i, "out"));
    if i < n {
      assert g.wires((i, "out")) == [(i + 1, "in")];
      assert (i + 1, "in") in g.wires((i, "out"));
      FanOfOne(g, r, r.out((i, "out")), (i + 1, "in"), f(i, v), st1);
      PipelineComposes(g, r, f, i + 1, n, f(i, v), st1);
    }
    StagesStep(f, i, n, v);
  }

  lemma StagesStep(f: (nat, int) -> int, i: nat, n: nat, v: int)
    ensures Stages(f, i, n, v) == [((i, "in"), v)] + if i < n then Stages(f, i + 1, n, f(i, v)) else []
  {
  }
}
