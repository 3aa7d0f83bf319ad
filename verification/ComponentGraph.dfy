/** Components joined by typed connections from named outputs to named inputs. */
module ComponentGraph {

  datatype Outcome =
    | Done | NoSuchOutput | NoSuchInput | NotCompatible | AlreadyConnected | NotConnected
    | AlreadyDeclared | NotDeclared | WrongType | Gone

  /** One connection leaving a component; T identifies the component it leads to. */
  datatype Connection<T> = Connection(output: string, target: T, input: string)

  /** The types of ports, by name. */
  type PortTypes = map<string, int>

  function Declaring(ports: PortTypes, name: string, kind: int): (Outcome, PortTypes) {
    if name in ports then (AlreadyDeclared, ports) else (Done, ports[name := kind])
  }

  function Connecting<T(==)>(outputs: PortTypes, inputs: PortTypes, conns: seq<Connection<T>>, c: Connection<T>)
    : (Outcome, seq<Connection<T>>)
  {
    if c.output !in outputs then (NoSuchOutput, conns)
    else if c.input !in inputs then (NoSuchInput, conns)
    else if outputs[c.output] != inputs[c.input] then (NotCompatible, conns)
    else if c in conns then (AlreadyConnected, conns)
    else (Done, conns + [c])
  }

  /** The list without the first occurrence of c. */
  function Without<T(==)>(conns: seq<Connection<T>>, c: Connection<T>): seq<Connection<T>> {
    if conns == [] then []
    else if conns[0] == c then conns[1..] else [conns[0]] + Without(conns[1..], c)
  }

  function Disconnecting<T(==)>(outputs: PortTypes, inputs: PortTypes, conns: seq<Connection<T>>, c: Connection<T>)
    : (Outcome, seq<Connection<T>>)
  {
    if c.output !in outputs then (NoSuchOutput, conns)
    else if c.input !in inputs then (NoSuchInput, conns)
    else if c !in conns then (NotConnected, conns)
    else (Done, Without(conns, c))
  }

  /** The inputs that a value emitted at an output reaches, in order: the oldest
      connection first, passing over components that no longer exist. */
  function Reached<T(==)>(conns: seq<Connection<T>>, output: string, alive: set<T>): seq<(T, string)> {
    if conns == [] then []
    else
      var c := conns[|conns| - 1];
      Reached(conns[..|conns| - 1], output, alive) +
      if c.output == output && c.target in alive then [(c.target, c.input)] else []
  }

  ghost predicate Distinct<T>(s: seq<T>) {
    forall i, j :: 0 <= i < j < |s| ==> s[i] != s[j]
  }

  lemma {:induction false} WithoutAt<T>(conns: seq<Connection<T>>, c: Connection<T>, k: nat)
    requires k < |conns| && conns[k] == c && c !in conns[..k]
    ensures Without(conns, c) == conns[..k] + conns[k + 1..]
  {
    if k > 0 {
      assert conns[0] in conns[..k];
      assert forall x :: x in conns[1..][..k - 1] ==> x in conns[..k];
      WithoutAt(conns[1..], c, k - 1);
    }
  }

  // --------------------------------------------------------- whole runs, on values

  datatype Comp = Comp(alive: bool, inputs: PortTypes, outputs: PortTypes, handlers: set<string>,
                       conns: seq<Connection<nat>>)

  datatype Op =
    | Create
    | DeclareInput(c: nat, name: string, kind: int)
    | DeclareOutput(c: nat, name: string, kind: int)
    | Connect(c: nat, conn: Connection<nat>)
    | Disconnect(c: nat, conn: Connection<nat>)
    | Destroy(c: nat)

  predicate Alive(w: seq<Comp>, c: nat) {
    c < |w| && w[c].alive
  }

  /** One call on components that exist; any other call cannot be made. */
  function Step(w: seq<Comp>, op: Op): (seq<Comp>, Outcome) {
    match op
    case Create => (w + [Comp(true, map[], map[], {}, [])], Done)
    case DeclareInput(c, name, kind) =>
      if !Alive(w, c) then (w, Gone)
      else
        var (o, inputs) := Declaring(w[c].inputs, name, kind);
        (w[c := w[c].(inputs := inputs, handlers := w[c].handlers + {name})], o)
    case DeclareOutput(c, name, kind) =>
      if !Alive(w, c) then (w, Gone)
      else
        var (o, outputs) := Declaring(w[c].outputs, name, kind);
        (w[c := w[c].(outputs := outputs)], o)
    case Connect(c, conn) =>
      if !Alive(w, c) || !Alive(w, conn.target) then (w, Gone)
      else
        var (o, conns) := Connecting(w[c].outputs, w[conn.target].inputs, w[c].conns, conn);
        (w[c := w[c].(conns := conns)], o)
    case Disconnect(c, conn) =>
      if !Alive(w, c) || !Alive(w, conn.target) then (w, Gone)
      else
        var (o, conns) := Disconnecting(w[c].outputs, w[conn.target].inputs, w[c].conns, conn);
        (w[c := w[c].(conns := conns)], o)
    case Destroy(c) => if !Alive(w, c) then (w, Gone) else (w[c := w[c].(alive := false)], Done)
  }

  function RunOps(ops: seq<Op>): seq<Comp> {
    if ops == [] then [] else Step(RunOps(ops[..|ops| - 1]), ops[|ops| - 1]).0
  }

  /** The connection joins a declared output to a declared input of equal type, and
      the input has a handler. */
  predicate Typed(w: seq<Comp>, i: nat, c: Connection<nat>)
    requires i < |w|
  {
    && c.target < |w|
    && c.output in w[i].outputs && c.input in w[c.target].inputs && c.input in w[c.target].handlers
    && w[i].outputs[c.output] == w[c.target].inputs[c.input]
  }

  ghost predicate Sound(w: seq<Comp>) {
    && (forall i, k :: 0 <= i < |w| && 0 <= k < |w[i].conns| ==> Typed(w, i, w[i].conns[k]))
    && (forall i :: 0 <= i < |w| ==> Distinct(w[i].conns))
  }

  ghost predicate Grows(w: seq<Comp>, w': seq<Comp>) {
    && |w| <= |w'|
    && forall i :: 0 <= i < |w| ==>
         && w[i].handlers <= w'[i].handlers
         && (forall n :: n in w[i].inputs ==> n in w'[i].inputs && w'[i].inputs[n] == w[i].inputs[n])
         && (forall n :: n in w[i].outputs ==> n in w'[i].outputs && w'[i].outputs[n] == w[i].outputs[n])
  }

  lemma TypedGrows(w: seq<Comp>, w': seq<Comp>, i: nat, c: Connection<nat>)
    requires Grows(w, w') && i < |w| && Typed(w, i, c)
    ensures Typed(w', i, c)
  {
  }

  lemma {:induction false} WithoutRest<T(!new)>(conns: seq<Connection<T>>, c: Connection<T>)
    requires Distinct(conns)
    ensures Distinct(Without(conns, c))
    ensures forall x :: x in Without(conns, c) <==> x in conns && x != c
  {
    if conns != [] {
      var first, rest := conns[0], conns[1..];
      assert conns == [first] + rest;
      assert forall x :: x in rest ==> x != first;
      if first != c {
        WithoutRest(rest, c);
        DistinctCons(first, Without(rest, c));
      }
    }
  }

  lemma DistinctCons<T(!new)>(x: T, s: seq<T>)
    requires Distinct(s) && x !in s
    ensures Distinct([x] + s)
  {
  }

  lemma StepGrows(w: seq<Comp>, op: Op)
    ensures Grows(w, Step(w, op).0)
  {
  }

  /** Only a call on component i changes its connections, and only by the connection named. */
  lemma StepConns(w: seq<Comp>, op: Op, i: nat)
    requires i < |w| && Distinct(w[i].conns)
    ensures var (w', o) := Step(w, op);
            var was, now := w[i].conns, w'[i].conns;
            && Distinct(now)
            && if op.Connect? && op.c == i && o == Done then now == was + [op.conn] && op.conn !in was
               else if op.Disconnect? && op.c == i && o == Done then
                 op.conn in was && forall x :: x in now <==> x in was && x != op.conn
               else now == was
  {
    if op.Disconnect? && op.c == i { WithoutRest(w[i].conns, op.conn); }
  }

  lemma NewIsTyped(w: seq<Comp>, i: nat, c: Connection<nat>)
    requires i < |w| && Step(w, Connect(i, c)).1 == Done && HandlersMatch(w)
    ensures Typed(Step(w, Connect(i, c)).0, i, c)
  {
  }

  ghost predicate HandlersMatch(w: seq<Comp>) {
    forall i :: 0 <= i < |w| ==> w[i].handlers == w[i].inputs.Keys
  }

  lemma StepKeepsHandlers(w: seq<Comp>, op: Op)
    requires HandlersMatch(w)
    ensures HandlersMatch(Step(w, op).0)
  {
  }

  lemma StepKeepsSound(w: seq<Comp>, op: Op)
    requires Sound(w) && HandlersMatch(w)
    ensures Sound(Step(w, op).0)
  {
    hide Step, Typed, Distinct, HandlersMatch, Grows;
    var (w', o) := Step(w, op);
    StepGrows(w, op);
    Sizes(w, op);
    forall i, k | 0 <= i < |w'| && 0 <= k < |w'[i].conns| ensures Typed(w', i, w'[i].conns[k]) {
      if i < |w| {
        StepConns(w, op, i);
        ConnectionStays(w, op, i, w'[i].conns[k]);
      }
    }
    forall i | 0 <= i < |w'| ensures Distinct(w'[i].conns) {
      if i < |w| { StepConns(w, op, i); } else { EmptyIsDistinct(w'[i].conns); }
    }
  }

  lemma Sizes(w: seq<Comp>, op: Op)
    ensures var w' := Step(w, op).0;
            |w| <= |w'| && forall i :: |w| <= i < |w'| ==> w'[i].conns == []
  {
  }

  lemma EmptyIsDistinct<T(!new)>(s: seq<T>)
    requires s == []
    ensures Distinct(s)
  {
  }

  lemma ConnectionStays(w: seq<Comp>, op: Op, i: nat, c: Connection<nat>)
    requires Sound(w) && HandlersMatch(w) && i < |w| <= |Step(w, op).0| && c in Step(w, op).0[i].conns
    ensures Typed(Step(w, op).0, i, c)
  {
    hide Step, Typed, Distinct, HandlersMatch, Grows;
    var (w', o) := Step(w, op);
    StepConns(w, op, i);
    StepGrows(w, op);
    if c in w[i].conns {
      TypedGrows(w, w', i, c);
    } else {
      assert op == Connect(i, c) && o == Done;
      NewIsTyped(w, i, c);
    }
  }

  /** In every run of the six calls, whatever they return: every connection joins a
      declared output to a declared and handled input of equal type, and none twice. */
  lemma {:induction false} EveryRunIsSound(ops: seq<Op>)
    ensures Sound(RunOps(ops)) && HandlersMatch(RunOps(ops))
  {
    hide Step, Sound, HandlersMatch;
    if ops == [] {
      NothingIsSound();
    } else {
      EveryRunIsSound(ops[..|ops| - 1]);
      StepKeepsSound(RunOps(ops[..|ops| - 1]), ops[|ops| - 1]);
      StepKeepsHandlers(RunOps(ops[..|ops| - 1]), ops[|ops| - 1]);
    }
  }

  lemma NothingIsSound()
    ensures Sound([]) && HandlersMatch([])
  {
  }

  // ------------------------------------------------------------------- emission

  lemma {:induction false} ReachedMembers<T>(conns: seq<Connection<T>>, output: string, alive: set<T>,
                                             t: T, input: string)
    ensures (t, input) in Reached(conns, output, alive) <==>
            t in alive && Connection(output, t, input) in conns
  {
    if conns != [] {
      ReachedMembers(conns[..|conns| - 1], output, alive, t, input);
      assert conns == conns[..|conns| - 1] + [conns[|conns| - 1]];
    }
  }

  lemma {:induction false} ReachedOnce<T(!new)>(conns: seq<Connection<T>>, output: string, alive: set<T>)
    requires Distinct(conns)
    ensures Distinct(Reached(conns, output, alive))
  {
    if conns != [] {
      var front, c := conns[..|conns| - 1], conns[|conns| - 1];
      ReachedOnce(front, output, alive);
      ReachedMembers(front, output, alive, c.target, c.input);
    }
  }

  function Living(w: seq<Comp>): set<nat> {
    set c | 0 <= c < |w| && w[c].alive
  }

  /** After any run, an emission reaches every live input that is connected to the
      output, each exactly once, and no other; each is declared with the output's type. */
  lemma EmissionReaches(ops: seq<Op>, c: nat, output: string)
    requires c < |RunOps(ops)|
    ensures var w := RunOps(ops);
            var reached := Reached(w[c].conns, output, Living(w));
            && Distinct(reached)
            && (forall t: nat, input: string ::
                  (t, input) in reached <==> Alive(w, t) && Connection(output, t, input) in w[c].conns)
            && (forall t: nat, input: string ::
                  (t, input) in reached ==> Typed(w, c, Connection(output, t, input)))
  {
    hide Step, Typed, Reached;
    var w := RunOps(ops);
    EveryRunIsSound(ops);
    ReachedOnce(w[c].conns, output, Living(w));
    forall t: nat, input: string
      ensures (t, input) in Reached(w[c].conns, output, Living(w)) <==>
              Alive(w, t) && Connection(output, t, input) in w[c].conns
    {
      ReachedMembers(w[c].conns, output, Living(w), t, input);
    }
  }

  // ------------------------------------------------------------- undoing a connection

  /** Undoing a connection just made restores every component. */
  lemma DisconnectUndoes(w: seq<Comp>, i: nat, c: Connection<nat>)
    requires Step(w, Connect(i, c)).1 == Done
    ensures var w' := Step(w, Connect(i, c)).0;
            Step(w', Disconnect(i, c)) == (w, Done)
  {
    var conns := w[i].conns;
    assert (conns + [c])[..|conns|] == conns;
    WithoutAt(conns + [c], c, |conns|);
    var w' := Step(w, Connect(i, c)).0;
    assert w'[i].conns == conns + [c] && w'[c.target].inputs == w[c.target].inputs;
    assert c in w'[i].conns && c !in conns;
    assert Without(conns + [c], c) == conns;
    assert w'[i].(conns := conns) == w[i];
    assert w'[i := w[i]] == w;
  }

  // ------------------------------------------------------------ wiring one output

  /** Connecting an output to a list of inputs, one call after the other, until one
      is refused; `ports` are the inputs of every component. */
  function ConnectAll<T(==)>(outputs: PortTypes, ports: T -> PortTypes, output: string, ts: seq<(T, string)>)
    : (Outcome, seq<Connection<T>>)
  {
    if ts == [] then (Done, [])
    else
      var (o, conns) := ConnectAll(outputs, ports, output, ts[..|ts| - 1]);
      var (t, input) := ts[|ts| - 1];
      if o != Done then (o, conns) else Connecting(outputs, ports(t), conns, Connection(output, t, input))
  }

  /** The inputs can all be connected exactly if none is listed twice, and then an
      emission reaches them in the order of the list. */
  lemma {:induction false} ConnectAllExact<T(!new)>(outputs: PortTypes, ports: T -> PortTypes, output: string,
                                                    ts: seq<(T, string)>, alive: set<T>)
    requires output in outputs
    requires forall t :: t in ts ==>
               t.0 in alive && t.1 in ports(t.0) && ports(t.0)[t.1] == outputs[output]
    ensures ConnectAll(outputs, ports, output, ts).0 == Done <==> Distinct(ts)
    ensures ConnectAll(outputs, ports, output, ts).0 == Done ==>
              Reached(ConnectAll(outputs, ports, output, ts).1, output, alive) == ts
    ensures ConnectAll(outputs, ports, output, ts).0 in {Done, AlreadyConnected}
  {
    hide Reached;
    if ts == [] {
      NothingReached<T>(output, alive);
    } else {
      var front, last := ts[..|ts| - 1], ts[|ts| - 1];
      assert forall t :: t in front ==> t in ts;
      assert last in ts && ts == front + [last];
      ConnectAllExact(outputs, ports, output, front, alive);
      var (o, conns) := ConnectAll(outputs, ports, output, front);
      if o == Done {
        ReachedMembers(conns, output, alive, last.0, last.1);
        ReachedSnoc(conns, Connection(output, last.0, last.1), output, alive);
      }
      DistinctSnoc(front, last);
    }
  }

  lemma NothingReached<T>(output: string, alive: set<T>)
    ensures Reached<T>([], output, alive) == []
  {
  }

  lemma ReachedSnoc<T>(conns: seq<Connection<T>>, c: Connection<T>, output: string, alive: set<T>)
    ensures Reached(conns + [c], output, alive) ==
            Reached(conns, output, alive) +
            if c.output == output && c.target in alive then [(c.target, c.input)] else []
  {
    assert (conns + [c])[..|conns|] == conns;
  }

  lemma DistinctSnoc<T(!new)>(s: seq<T>, x: T)
    ensures Distinct(s + [x]) <==> Distinct(s) && x !in s
  {
    if x in s {
      var i :| 0 <= i < |s| && s[i] == x;
      assert (s + [x])[i] == (s + [x])[|s|];
    } else if Distinct(s + [x]) {
      forall i, j | 0 <= i < j < |s| ensures s[i] != s[j] {
        assert (s + [x])[i] != (s + [x])[j];
      }
    }
  }

  // -------------------------------------------------------------- the original

  datatype Invocation = Invocation(target: ComponentImpl, input: string, handler: int, value: int)

  class ComponentImpl {
    var alive: bool
    var inputs: PortTypes
    var outputs: PortTypes
    var handlers: map<string, int>
    var connections: seq<Connection<ComponentImpl>>

    constructor ()
      ensures alive && inputs == map[] && outputs == map[] && handlers == map[] && connections == []
    {
      alive := true;
      inputs, outputs, handlers, connections := map[], map[], map[], [];
    }

    method DeclareInput(name: string, kind: int, handler: int) returns (o: Outcome)
      modifies this`inputs, this`handlers
      ensures (o, inputs) == Declaring(old(inputs), name, kind)
      ensures handlers == if o == Done then old(handlers)[name := handler] else old(handlers)
    {
      if name in inputs {
        return AlreadyDeclared;
      }
      inputs := inputs[name := kind];
      handlers := handlers[name := handler];
      return Done;
    }

    method DeclareOutput(name: string, kind: int) returns (o: Outcome)
      modifies this`outputs
      ensures (o, outputs) == Declaring(old(outputs), name, kind)
    {
      if name in outputs {
        return AlreadyDeclared;
      }
      outputs := outputs[name := kind];
      return Done;
    }

    method Connect(output: string, target: ComponentImpl, input: string) returns (o: Outcome)
      requires alive && target.alive
      modifies this`connections
      ensures (o, connections) ==
              Connecting(outputs, target.inputs, old(connections), Connection(output, target, input))
    {
      if output !in outputs {
        return NoSuchOutput;
      }
      if input !in target.inputs {
        return NoSuchInput;
      }
      if outputs[output] != target.inputs[input] {
        return NotCompatible;
      }
      for i := 0 to |connections|
        invariant connections == old(connections)
        invariant Connection(output, target, input) !in connections[..i]
      {
        var c := connections[i];
        if c.output == output && c.target.alive && c.target == target && c.input == input {
          return AlreadyConnected;
        }
        assert connections[..i + 1] == connections[..i] + [c];
      }
      assert connections[..|connections|] == connections;
      connections := connections + [Connection(output, target, input)];
      return Done;
    }

    method Disconnect(output: string, target: ComponentImpl, input: string) returns (o: Outcome)
      requires alive && target.alive
      modifies this`connections
      ensures (o, connections) ==
              Disconnecting(outputs, target.inputs, old(connections), Connection(output, target, input))
    {
      if output !in outputs {
        return NoSuchOutput;
      }
      if input !in target.inputs {
        return NoSuchInput;
      }
      for i := 0 to |connections|
        invariant connections == old(connections)
        invariant Connection(output, target, input) !in connections[..i]
      {
        var c := connections[i];
        if c.output == output && c.target.alive && c.target == target && c.input == input {
          WithoutAt(connections, c, i);
          connections := connections[..i] + connections[i + 1..];
          return Done;
        }
        assert connections[..i + 1] == connections[..i] + [c];
      }
      assert connections[..|connections|] == connections;
      return NotConnected;
    }

    method Destroy()
      requires alive
      modifies this`alive
      ensures !alive
    {
      alive := false;
    }

    /** What every run keeps, seen from one component. */
    ghost predicate Sound()
      reads this, set c | c in connections :: c.target
    {
      forall c :: c in connections && c.target.alive ==>
        && c.output in outputs && c.input in c.target.inputs && c.input in c.target.handlers
        && outputs[c.output] == c.target.inputs[c.input]
    }

    ghost function Living(): set<ComponentImpl>
      reads this, set c | c in connections :: c.target
    {
      set c | c in connections && c.target.alive :: c.target
    }

    /** The two assertions about a reached input hold, and its handler is there. */
    method Emit(output: string, kind: int, value: int) returns (o: Outcome, calls: seq<Invocation>)
      requires alive && Sound()
      ensures o == if output !in outputs then NotDeclared else if outputs[output] != kind then WrongType else Done
      ensures o != Done ==> calls == []
      ensures o == Done ==> Hits(calls) == Reached(connections, output, Living())
      ensures forall v :: v in calls ==> v.value == value && v.input in v.target.handlers &&
                                         v.handler == v.target.handlers[v.input]
    {
      calls := [];
      if output !in outputs {
        return NotDeclared, [];
      }
      if outputs[output] != kind {
        return WrongType, [];
      }
      o := Done;
      for i := 0 to |connections|
        invariant Hits(calls) == Reached(connections[..i], output, Living())
        invariant forall v :: v in calls ==> v.value == value && v.input in v.target.handlers &&
                                             v.handler == v.target.handlers[v.input]
      {
        var c := connections[i];
        assert connections[..i + 1][..i] == connections[..i];
        if c.output == output && c.target.alive {
          assert c.input in c.target.inputs;
          assert c.target.inputs[c.input] == kind;
          if c.input in c.target.handlers {
            calls := calls + [Invocation(c.target, c.input, c.target.handlers[c.input], value)];
          }
        }
      }
      assert connections[..|connections|] == connections;
    }
  }

  function Hits(calls: seq<Invocation>): (r: seq<(ComponentImpl, string)>)
    ensures |r| == |calls|
    ensures forall i :: 0 <= i < |r| ==> r[i] == (calls[i].target, calls[i].input)
  {
    seq(|calls|, i requires 0 <= i < |calls| => (calls[i].target, calls[i].input))
  }
}
