/** What components do, said by the history of calls alone: no state, only which calls
    were made before and in which order. */
module ComponentHistory {
  import opened Wrappers
  import opened ComponentGraph

  /** How many components there have been. */
  function Creations(ops: seq<Op>): nat {
    if ops == [] then 0 else Creations(ops[..|ops| - 1]) + if ops[|ops| - 1] == Create then 1 else 0
  }

  /** The component was created and has not been destroyed since. */
  predicate Lives(ops: seq<Op>, c: nat) {
    ops != [] &&
    var front, op := ops[..|ops| - 1], ops[|ops| - 1];
    if op == Create && Creations(front) == c then true
    else if op == Destroy(c) then false
    else Lives(front, c)
  }

  datatype Side = In | Out

  /** The type that a call declares the port with, if it is such a call. */
  function Declares(op: Op, c: nat, side: Side, name: string): Option<int> {
    match op
    case DeclareInput(d, n, kind) => if side == In && d == c && n == name then Some(kind) else None
    case DeclareOutput(d, n, kind) => if side == Out && d == c && n == name then Some(kind) else None
    case _ => None
  }

  /** The type named in the first declaration of the port on the living component. */
  function PortType(ops: seq<Op>, c: nat, side: Side, name: string): Option<int> {
    if ops == [] then None
    else
      var front, op := ops[..|ops| - 1], ops[|ops| - 1];
      var earlier := PortType(front, c, side, name);
      if earlier.Some? || !Lives(front, c) then earlier else Declares(op, c, side, name)
  }

  /** What a call returns after a history. */
  function Answer(ops: seq<Op>, op: Op): Outcome
    decreases |ops|, 1
  {
    match op
    case Create => Done
    case DeclareInput(c, name, _) =>
      if !Lives(ops, c) then Gone else if PortType(ops, c, In, name).Some? then AlreadyDeclared else Done
    case DeclareOutput(c, name, _) =>
      if !Lives(ops, c) then Gone else if PortType(ops, c, Out, name).Some? then AlreadyDeclared else Done
    case Connect(c, conn) =>
      if !Lives(ops, c) || !Lives(ops, conn.target) then Gone
      else if PortType(ops, c, Out, conn.output) == None then NoSuchOutput
      else if PortType(ops, conn.target, In, conn.input) == None then NoSuchInput
      else if PortType(ops, c, Out, conn.output) != PortType(ops, conn.target, In, conn.input) then NotCompatible
      else if Linked(ops, c, conn) then AlreadyConnected else Done
    case Disconnect(c, conn) =>
      if !Lives(ops, c) || !Lives(ops, conn.target) then Gone
      else if PortType(ops, c, Out, conn.output) == None then NoSuchOutput
      else if PortType(ops, conn.target, In, conn.input) == None then NoSuchInput
      else if Linked(ops, c, conn) then Done else NotConnected
    case Destroy(c) => if Lives(ops, c) then Done else Gone
  }

  /** The last call about the connection that was not refused was a `Connect`. */
  predicate Linked(ops: seq<Op>, i: nat, c: Connection<nat>)
    decreases |ops|, 0
  {
    ops != [] &&
    var front, op := ops[..|ops| - 1], ops[|ops| - 1];
    if (op == Connect(i, c) || op == Disconnect(i, c)) && Answer(front, op) == Done then op.Connect?
    else Linked(front, i, c)
  }

  function Port(w: seq<Comp>, c: nat, side: Side, name: string): Option<int> {
    if c >= |w| then None
    else
      var ports := if side == In then w[c].inputs else w[c].outputs;
      if name in ports then Some(ports[name]) else None
  }

  lemma {:induction false} SizeIsCreations(ops: seq<Op>)
    ensures |RunOps(ops)| == Creations(ops)
  {
    if ops != [] { SizeIsCreations(ops[..|ops| - 1]); }
  }

  lemma {:induction false} AliveIffLives(ops: seq<Op>, c: nat)
    ensures Alive(RunOps(ops), c) <==> Lives(ops, c)
  {
    if ops != [] {
      SizeIsCreations(ops[..|ops| - 1]);
      AliveIffLives(ops[..|ops| - 1], c);
    }
  }

  lemma StepPort(w: seq<Comp>, op: Op, c: nat, side: Side, name: string)
    ensures var before, declared := Port(w, c, side, name), Declares(op, c, side, name);
            Port(Step(w, op).0, c, side, name) == if before.Some? || !Alive(w, c) then before else declared
  {
  }

  /** A port exists exactly if it was declared, with the type of that declaration. */
  lemma {:induction false} PortsAreDeclared(ops: seq<Op>, c: nat, side: Side, name: string)
    ensures Port(RunOps(ops), c, side, name) == PortType(ops, c, side, name)
  {
    hide Step, Port, Declares;
    if ops == [] {
      NoPorts(c, side, name);
    } else {
      var front, op := ops[..|ops| - 1], ops[|ops| - 1];
      PortsAreDeclared(front, c, side, name);
      AliveIffLives(front, c);
      StepPort(RunOps(front), op, c, side, name);
    }
  }

  lemma NoPorts(c: nat, side: Side, name: string)
    ensures Port([], c, side, name) == None
  {
  }

  /** Every call, after any other calls, returns what the history says; and two ports are
      connected exactly if the history links them. */
  lemma {:induction false} HistoryAnswers(ops: seq<Op>, op: Op)
    ensures Step(RunOps(ops), op).1 == Answer(ops, op)
    decreases |ops|, 2
  {
    match op
    case Create =>
    case DeclareInput(c, name, _) => AliveIffLives(ops, c); PortsAreDeclared(ops, c, In, name);
    case DeclareOutput(c, name, _) => AliveIffLives(ops, c); PortsAreDeclared(ops, c, Out, name);
    case Connect(c, conn) => SameConditions(ops, c, conn);
    case Disconnect(c, conn) => SameConditions(ops, c, conn);
    case Destroy(c) => AliveIffLives(ops, c);
  }

  lemma {:induction false} SameConditions(ops: seq<Op>, c: nat, conn: Connection<nat>)
    ensures var w := RunOps(ops);
            && (Alive(w, c) <==> Lives(ops, c)) && (Alive(w, conn.target) <==> Lives(ops, conn.target))
            && Port(w, c, Out, conn.output) == PortType(ops, c, Out, conn.output)
            && Port(w, conn.target, In, conn.input) == PortType(ops, conn.target, In, conn.input)
            && (c < |w| && conn in w[c].conns <==> Linked(ops, c, conn))
    decreases |ops|, 1
  {
    AliveIffLives(ops, c);
    AliveIffLives(ops, conn.target);
    PortsAreDeclared(ops, c, Out, conn.output);
    PortsAreDeclared(ops, conn.target, In, conn.input);
    LinkedIffConnected(ops, c, conn);
  }

  lemma Elsewhere(w: seq<Comp>, op: Op, i: nat, c: Connection<nat>)
    requires |w| <= i
    ensures op == Connect(i, c) || op == Disconnect(i, c) ==> Step(w, op).1 == Gone
  {
  }

  lemma {:induction false} LinkedIffConnected(ops: seq<Op>, c: nat, conn: Connection<nat>)
    ensures c < |RunOps(ops)| && conn in RunOps(ops)[c].conns <==> Linked(ops, c, conn)
    decreases |ops|, 0
  {
    hide Step, Answer, Distinct;
    if ops != [] {
      var front, op := ops[..|ops| - 1], ops[|ops| - 1];
      var w := RunOps(front);
      LinkedIffConnected(front, c, conn);
      HistoryAnswers(front, op);
      EveryRunIsSound(front);
      Sizes(w, op);
      if c < |w| { StepConns(w, op, c); } else { Elsewhere(w, op, c, conn); }
    }
  }

  /** Linked ports were declared with equal types. */
  lemma LinkedTypesAgree(ops: seq<Op>, c: nat, conn: Connection<nat>)
    requires Linked(ops, c, conn)
    ensures PortType(ops, c, Out, conn.output).Some?
    ensures PortType(ops, conn.target, In, conn.input) == PortType(ops, c, Out, conn.output)
  {
    hide Step, Linked, PortType, Lives, Distinct;
    var w := RunOps(ops);
    SameConditions(ops, c, conn);
    EveryRunIsSound(ops);
    var k :| 0 <= k < |w[c].conns| && w[c].conns[k] == conn;
    assert Typed(w, c, w[c].conns[k]);
  }

  /** After any run, an emission reaches exactly the living inputs that the history links
      to the output, each once; each of them was declared with the output's type. */
  lemma EmissionReachesLinked(ops: seq<Op>, c: nat, output: string)
    requires c < |RunOps(ops)|
    ensures var reached := Reached(RunOps(ops)[c].conns, output, Living(RunOps(ops)));
            && Distinct(reached)
            && (forall t: nat, input: string ::
                  (t, input) in reached <==> Lives(ops, t) && Linked(ops, c, Connection(output, t, input)))
            && (forall t: nat, input: string ::
                  (t, input) in reached ==>
                    PortType(ops, c, Out, output).Some? &&
                    PortType(ops, t, In, input) == PortType(ops, c, Out, output))
  {
    hide Step, Reached, Lives, Linked, PortType, Distinct;
    var w := RunOps(ops);
    EmissionReaches(ops, c, output);
    forall t: nat, input: string
      ensures (t, input) in Reached(w[c].conns, output, Living(w)) <==>
              Lives(ops, t) && Linked(ops, c, Connection(output, t, input))
      ensures (t, input) in Reached(w[c].conns, output, Living(w)) ==>
                PortType(ops, c, Out, output).Some? && PortType(ops, t, In, input) == PortType(ops, c, Out, output)
    {
      var conn := Connection(output, t, input);
      SameConditions(ops, c, conn);
      if Linked(ops, c, conn) { LinkedTypesAgree(ops, c, conn); }
    }
  }
}
