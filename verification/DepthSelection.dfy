/** Which filter specification a node of the tree takes. */
module DepthSelection {
  import opened Wrappers
  import opened DepthGrammar
  import opened DepthPrinter
  import opened DepthRoundTrip

  /** The children of one `<Depth>` element, by kind. */
  datatype Depth = Depth(allOther: nat, expressions: seq<string>,
                         leafOffsets: seq<set<int>>, rootOffsets: seq<set<int>>)

  /** One incoming stream: its name, and whether the network has an input of the
      wanted name that it can be connected to. */
  datatype Incoming = Incoming(name: string, fits: bool)

  /** One `<Filter>`; `loads` says whether its network can be instantiated. */
  datatype FilterSpec = FilterSpec(id: int, depths: seq<Depth>, loads: bool,
                                   fromBelow: seq<Incoming>, fromAbove: seq<Incoming>)

  // ------------------------------------------------------------- one <Depth>

  /** What an expression says of a node, unless it does not parse. */
  function Says(expression: string, topo: Topology): Option<bool> {
    match ParseExpression(expression, Env(topo, false, false)).value
    case NotFull => None
    case Full(v) => Some(v)
  }

  /** The last expression that parses decides. */
  function LastWord(expressions: seq<string>, topo: Topology): Option<bool> {
    if expressions == [] then None
    else
      var said := Says(expressions[|expressions| - 1], topo);
      if said.Some? then said else LastWord(expressions[..|expressions| - 1], topo)
  }

  /** Later kinds of children overrule earlier ones: root offsets, leaf offsets,
      expressions, and only then `AllOther`. */
  function Selects(depth: Depth, topo: Topology, already: bool): bool {
    if depth.rootOffsets != [] then topo.rootDistance in depth.rootOffsets[|depth.rootOffsets| - 1]
    else if depth.leafOffsets != [] then topo.maxLeafDistance in depth.leafOffsets[|depth.leafOffsets| - 1]
    else if LastWord(depth.expressions, topo).Some? then LastWord(depth.expressions, topo).value
    else depth.allOther > 0 && !already
  }

  method ParseDepth(depth: Depth, topo: Topology, already: bool) returns (selected: bool)
    ensures selected == Selects(depth, topo, already)
  {
    var value: Option<bool> := None;
    for i := 0 to depth.allOther
      invariant value == if i == 0 then None else Some(!already)
    {
      value := Some(!already);
    }
    ghost var other := value;
    for i := 0 to |depth.expressions|
      invariant var last := LastWord(depth.expressions[..i], topo);
                value == if last.Some? then last else other
    {
      assert depth.expressions[..i + 1][..i] == depth.expressions[..i];
      var said := Says(depth.expressions[i], topo);
      if said.Some? {
        value := said;
      }
    }
    assert depth.expressions[..|depth.expressions|] == depth.expressions;
    ghost var spoken := value;
    for i := 0 to |depth.leafOffsets|
      invariant value == if i == 0 then spoken else Some(topo.maxLeafDistance in depth.leafOffsets[i - 1])
    {
      value := Some(CheckOffset(depth.leafOffsets[i], topo.maxLeafDistance));
    }
    ghost var leaf := value;
    for i := 0 to |depth.rootOffsets|
      invariant value == if i == 0 then leaf else Some(topo.rootDistance in depth.rootOffsets[i - 1])
    {
      value := Some(CheckOffset(depth.rootOffsets[i], topo.rootDistance));
    }
    selected := if value == None then false else value.value;
  }

  predicate CheckOffset(offsets: set<int>, offset: int) {
    offset in offsets
  }

  /** A printed expression that comes last in a `<Depth>` without offsets decides:
      the depth selects exactly the nodes it holds for, whatever comes before it. */
  lemma ExpressionSelects(allOther: nat, before: seq<string>, b: BExp, w: string, end: string,
                          topo: Topology, already: bool)
    requires LiteralsB(b) && Blank(w) && Blank(end)
    ensures Selects(Depth(allOther, before + [Print(b, w, end)], [], []), topo, already) == EvalB(b, topo)
  {
    PrintedParses(b, w, end, Env(topo, false, false));
    assert LastWord(before + [Print(b, w, end)], topo) == Some(EvalB(b, topo));
  }

  /** Which child decides, whatever else the `<Depth>` holds: the last list of root
      offsets; without any, the last list of leaf offsets; without either, the last
      expression that parses; and without any that does, `AllOther`, which selects a node
      unless it was selected before. A `<Depth>` without all of them selects nothing. */
  lemma WhoDecides(allOther: nat, said: seq<string>, mute: seq<string>, leaf: seq<set<int>>, root: seq<set<int>>,
                   expression: string, offsets: set<int>, topo: Topology, already: bool)
    requires forall i :: 0 <= i < |mute| ==> Says(mute[i], topo) == None
    ensures Selects(Depth(allOther, said, leaf, root + [offsets]), topo, already) <==> topo.rootDistance in offsets
    ensures Selects(Depth(allOther, said, leaf + [offsets], []), topo, already) <==> topo.maxLeafDistance in offsets
    ensures Says(expression, topo).Some? ==>
              (Selects(Depth(allOther, said + [expression] + mute, [], []), topo, already) <==>
               Says(expression, topo).value)
    ensures Selects(Depth(allOther + 1, mute, [], []), topo, already) <==> !already
    ensures !Selects(Depth(0, mute, [], []), topo, already)
  {
    hide Says;
    Unheard([], mute, topo);
    assert [] + mute == mute;
    Unheard(said + [expression], mute, topo);
    assert (said + [expression])[|said|] == expression;
  }

  lemma {:induction false} Unheard(before: seq<string>, mute: seq<string>, topo: Topology)
    requires forall i :: 0 <= i < |mute| ==> Says(mute[i], topo) == None
    ensures LastWord(before + mute, topo) == LastWord(before, topo)
  {
    hide Says;
    if mute == [] {
      assert before + mute == before;
    } else {
      var n := |mute| - 1;
      Unheard(before, mute[..n], topo);
      assert (before + mute)[..|before| + n] == before + mute[..n];
    }
  }

  // ------------------------------------------------------ one <Filter> element

  /** All `<Depth>` elements in turn; each is told what the one before said. */
  function SelectedBy(depths: seq<Depth>, topo: Topology, already: bool): bool {
    if depths == [] then already
    else Selects(depths[|depths| - 1], topo, SelectedBy(depths[..|depths| - 1], topo, already))
  }

  predicate Takes(spec: FilterSpec, topo: Topology) {
    SelectedBy(spec.depths, topo, false)
  }

  /** Of several `<Depth>` elements the last decides: by its own offsets or expression
      alone, or by `AllOther` if those before it do not select the node. Without any, no
      node is selected. */
  lemma LastDepthDecides(id: int, before: seq<Depth>, allOther: nat, expressions: seq<string>, leaf: seq<set<int>>,
                         offsets: set<int>, topo: Topology, loads: bool, up: seq<Incoming>, down: seq<Incoming>)
    ensures var spec := FilterSpec(id, before + [Depth(allOther, expressions, leaf, [offsets])], loads, up, down);
            Takes(spec, topo) <==> topo.rootDistance in offsets
    ensures var spec := FilterSpec(id, before + [Depth(allOther + 1, [], [], [])], loads, up, down);
            Takes(spec, topo) <==> !Takes(FilterSpec(id, before, loads, up, down), topo)
    ensures !Takes(FilterSpec(id, [], loads, up, down), topo)
  {
    forall last: Depth ensures (before + [last])[..|before|] == before {}
  }

  predicate IsAllOther(spec: FilterSpec) {
    |spec.depths| == 1 && spec.depths[0].allOther > 0
    && spec.depths[0] == Depth(spec.depths[0].allOther, [], [], [])
  }

  /** `AllOther` stands in one of its depths, alone or beside other children. */
  predicate MentionsAllOther(spec: FilterSpec) {
    exists i :: 0 <= i < |spec.depths| && spec.depths[i].allOther > 0
  }

  lemma AllOtherTakes(spec: FilterSpec, topo: Topology)
    requires IsAllOther(spec)
    ensures Takes(spec, topo)
  {
    assert spec.depths[..0] == [];
    assert SelectedBy(spec.depths[..0], topo, false) == false;
  }

  // --------------------------------------------------- many <Filter> elements

  /** The first specification, in order of arrival, that takes a fresh node. */
  function Pick(specs: seq<FilterSpec>, topo: Topology): Option<nat> {
    if specs == [] then None
    else
      var earlier := Pick(specs[..|specs| - 1], topo);
      if earlier.Some? then earlier
      else if Takes(specs[|specs| - 1], topo) then Some(|specs| - 1) else None
  }

  lemma {:induction false} PickIsFirst(specs: seq<FilterSpec>, topo: Topology)
    ensures match Pick(specs, topo)
            case None => forall k :: 0 <= k < |specs| ==> !Takes(specs[k], topo)
            case Some(i) => i < |specs| && Takes(specs[i], topo) &&
                            forall k :: 0 <= k < i ==> !Takes(specs[k], topo)
  {
    hide Takes;
    if specs != [] {
      PickIsFirst(specs[..|specs| - 1], topo);
    }
  }

  ghost predicate IsFirst(specs: seq<FilterSpec>, p: FilterSpec -> bool, r: Option<nat>) {
    match r
    case None => forall k :: 0 <= k < |specs| ==> !p(specs[k])
    case Some(i) => i < |specs| && p(specs[i]) && forall k :: 0 <= k < i ==> !p(specs[k])
  }

  /** With the `AllOther` specifications last, a node takes the first explicit
      specification that selects it, and otherwise the first `AllOther` that does,
      which is the very first if they contain nothing else. */
  lemma {:induction false} AllOtherCoversTheRest(explicit: seq<FilterSpec>, others: seq<FilterSpec>, topo: Topology)
    ensures match (Pick(explicit, topo), Pick(others, topo))
            case (Some(i), _) => Pick(explicit + others, topo) == Some(i)
            case (None, Some(j)) => Pick(explicit + others, topo) == Some(|explicit| + j)
            case (None, None) => Pick(explicit + others, topo) == None
    ensures others != [] && IsAllOther(others[0]) ==> Pick(others, topo) == Some(0)
  {
    hide Takes, IsAllOther;
    if others == [] {
      assert explicit + others == explicit;
    } else {
      var n := |others| - 1;
      AllOtherCoversTheRest(explicit, others[..n], topo);
      assert (explicit + others)[..|explicit| + n] == explicit + others[..n];
      if IsAllOther(others[0]) { AllOtherTakes(others[0], topo); }
    }
  }

  // ----------------------------------------------------------- the coded order

  /** What the frontend's two passes promise each node: the first specification
      without `AllOther` that selects it, otherwise the first with `AllOther` that does. */
  ghost predicate Promised(specs: seq<FilterSpec>, topo: Topology, r: Option<nat>) {
    if exists k :: 0 <= k < |specs| && ExplicitHit(specs[k], topo) then
      IsFirst(specs, s => ExplicitHit(s, topo), r)
    else
      IsFirst(specs, s => LateHit(s, topo), r)
  }

  predicate ExplicitHit(spec: FilterSpec, topo: Topology) {
    !MentionsAllOther(spec) && Takes(spec, topo)
  }

  predicate LateHit(spec: FilterSpec, topo: Topology) {
    MentionsAllOther(spec) && Takes(spec, topo)
  }

  /** A specification with `AllOther` that takes the node precedes the first explicit
      one that selects it. */
  ghost predicate Overtaken(specs: seq<FilterSpec>, topo: Topology) {
    exists i, j :: 0 <= i < j < |specs| && LateHit(specs[i], topo) && ExplicitHit(specs[j], topo)
      && forall k :: 0 <= k < j ==> !ExplicitHit(specs[k], topo)
  }

  /** As coded, specifications travel in document order. For every document, a node
      then takes what it was promised exactly if no `AllOther` that takes it precedes
      the first explicit specification that selects it. */
  lemma DocumentOrderExact(specs: seq<FilterSpec>, topo: Topology)
    ensures Promised(specs, topo, Pick(specs, topo)) <==> !Overtaken(specs, topo)
  {
    hide Takes, MentionsAllOther;
    PickIsFirst(specs, topo);
    DocumentOrder(specs, topo, Pick(specs, topo));
  }

  lemma EitherHit(spec: FilterSpec, topo: Topology)
    ensures Takes(spec, topo) <==> LateHit(spec, topo) || ExplicitHit(spec, topo)
    ensures !(LateHit(spec, topo) && ExplicitHit(spec, topo))
  {
  }

  lemma DocumentOrder(specs: seq<FilterSpec>, topo: Topology, r: Option<nat>)
    requires IsFirst(specs, s => Takes(s, topo), r)
    ensures Promised(specs, topo, r) <==> !Overtaken(specs, topo)
  {
    forall k | 0 <= k < |specs|
      ensures Takes(specs[k], topo) <==> LateHit(specs[k], topo) || ExplicitHit(specs[k], topo)
      ensures !(LateHit(specs[k], topo) && ExplicitHit(specs[k], topo))
    {
      EitherHit(specs[k], topo);
    }
    hide ExplicitHit, LateHit, Takes;
    if k :| 0 <= k < |specs| && ExplicitHit(specs[k], topo) {
      var e := FirstHit(specs, topo, k);
      assert r.Some? && r.value <= e;
      if r.value == e {
        assert IsFirst(specs, s => ExplicitHit(s, topo), r);
        assert !Overtaken(specs, topo);
      } else {
        assert LateHit(specs[r.value], topo);
        assert Overtaken(specs, topo);
        assert !IsFirst(specs, s => ExplicitHit(s, topo), r);
      }
    } else {
      assert IsFirst(specs, s => LateHit(s, topo), r);
    }
  }

  lemma {:induction false} FirstHit(specs: seq<FilterSpec>, topo: Topology, k: nat) returns (e: nat)
    requires k < |specs| && ExplicitHit(specs[k], topo)
    ensures e <= k && ExplicitHit(specs[e], topo) && forall i :: 0 <= i < e ==> !ExplicitHit(specs[i], topo)
    decreases k
  {
    hide ExplicitHit;
    if i :| 0 <= i < k && ExplicitHit(specs[i], topo) {
      e := FirstHit(specs, topo, i);
    } else {
      e := k;
    }
  }

  /** The gap is real: listed first, an `AllOther` takes a node that a later
      explicit specification names. */
  lemma AllOtherFirstOvertakes(topo: Topology)
    ensures var named := FilterSpec(1, [Depth(0, [], [], [{topo.rootDistance}])], true, [], []);
            var other := FilterSpec(2, [Depth(1, [], [], [])], true, [], []);
            && Pick([other, named], topo) == Some(0)
            && ExplicitHit(named, topo) && !Promised([other, named], topo, Some(0))
  {
    var named := FilterSpec(1, [Depth(0, [], [], [{topo.rootDistance}])], true, [], []);
    var other := FilterSpec(2, [Depth(1, [], [], [])], true, [], []);
    var specs := [other, named];
    assert other.depths[0].allOther > 0;
    assert IsAllOther(other) && MentionsAllOther(other);
    assert ExplicitHit(named, topo);
    AllOtherTakes(other, topo);
    assert specs[0] == other && specs[1] == named;
    assert ExplicitHit(specs[1], topo) && !ExplicitHit(specs[0], topo);
    assert specs[..1] == [other] && [other][..0] == [];
    assert Pick([other][..0], topo) == None;
    assert Pick([other], topo) == Some(0);
  }
}
