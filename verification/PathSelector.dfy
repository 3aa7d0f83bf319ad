/** Path expressions over a DOM tree: the worklist search that `selectNodes` and
    `selectValue` share, and the step-by-step meaning it computes. */
module PathSelector {
  import opened Wrappers
  import opened Ranks

  /** `OtherKind` are the kinds that XPath does not know, like a document type. */
  datatype Kind = Element | Attribute | Text | Comment | Instruction | Document | OtherKind

  datatype Node = Node(kind: Kind, name: string, parent: Option<nat>,
                       children: seq<nat>, attributes: map<string, nat>)

  /** A document's nodes, numbered so that children come after their parent. */
  type Dom = seq<Node>

  /** Only documents, elements and what XPath does not know have children that are
      elements; attributes are nobody's children, and no name is `*`. */
  predicate WellFormed(d: Dom) {
    && (forall n, i :: 0 <= n < |d| && 0 <= i < |d[n].children| ==>
          (n < d[n].children[i] < |d| && d[d[n].children[i]].parent == Some(n)))
    && (forall n :: 0 <= n < |d| && d[n].parent.Some? ==> d[n].parent.value < |d|)
    && (forall n, a :: 0 <= n < |d| && a in d[n].attributes ==>
          (d[n].attributes[a] < |d| && d[d[n].attributes[a]].parent == None && a != "*"))
    && (forall n, i :: 0 <= n < |d| && 0 <= i < |d[n].children| ==>
          (d[d[n].children[i]].kind == Element ==> d[n].kind in {Element, Document, OtherKind}))
  }

  // --------------------------------------------------------------------- steps

  datatype Step = Descend | Any | Up | Here | Attr(name: string) | Named(name: string)

  function StepOf(s: string): Step {
    if s == "" then Descend
    else if s == "*" then Any
    else if s == ".." then Up
    else if s == "." then Here
    else if s[0] == '@' then Attr(s[1..])
    else Named(s)
  }

  /** The listed nodes that are elements, and carry the name if one is given. */
  function Elements(d: Dom, ns: seq<nat>, name: Option<string>): (r: seq<nat>)
    requires forall i :: 0 <= i < |ns| ==> ns[i] < |d|
    ensures forall i :: 0 <= i < |r| ==> r[i] < |d|
  {
    if ns == [] then []
    else
      var last := ns[|ns| - 1];
      var keep := d[last].kind == Element && (name == None || d[last].name == name.value);
      Elements(d, ns[..|ns| - 1], name) + if keep then [last] else []
  }

  lemma {:induction false} ElementsAreListed(d: Dom, ns: seq<nat>, name: Option<string>)
    requires forall i :: 0 <= i < |ns| ==> ns[i] < |d|
    ensures forall x :: x in Elements(d, ns, name) <==>
              x in ns && x < |d| && d[x].kind == Element && (name == None || d[x].name == name.value)
  {
    if ns != [] {
      ElementsAreListed(d, ns[..|ns| - 1], name);
      assert ns == ns[..|ns| - 1] + [ns[|ns| - 1]];
    }
  }

  /** Where one step leads from one node; None where the search raises. */
  function Targets(d: Dom, n: nat, step: Step): (r: Option<seq<nat>>)
    requires WellFormed(d) && n < |d|
    ensures r.Some? ==> forall i :: 0 <= i < |r.value| ==> r.value[i] < |d|
  {
    match step
    case Descend => Some([n] + Elements(d, d[n].children, None))
    case Any => Some(Elements(d, d[n].children, None))
    case Up => if d[n].parent == None then None else Some([d[n].parent.value])
    case Here => Some([n])
    case Attr(a) =>
      Some(if d[n].kind == Element && a in d[n].attributes then [d[n].attributes[a]] else [])
    case Named(x) => Some(Elements(d, d[n].children, Some(x)))
  }

  // ------------------------------------------------------------------- meaning

  function Join(a: Option<set<nat>>, b: Option<set<nat>>): Option<set<nat>> {
    if a == None || b == None then None else Some(a.value + b.value)
  }

  lemma JoinNothing(a: Option<set<nat>>)
    ensures Join(a, Some({})) == a && Join(Some({}), a) == a
  {
    if a.Some? { assert a.value + {} == a.value && {} + a.value == a.value; }
  }

  lemma JoinAssociates(a: Option<set<nat>>, b: Option<set<nat>>, c: Option<set<nat>>)
    ensures Join(Join(a, b), c) == Join(a, Join(b, c))
  {
    if a.Some? && b.Some? && c.Some? {
      assert (a.value + b.value) + c.value == a.value + (b.value + c.value);
    }
  }

  lemma JoinCommutes(a: Option<set<nat>>, b: Option<set<nat>>)
    ensures Join(a, b) == Join(b, a)
  {
    if a.Some? && b.Some? {
      assert a.value + b.value == b.value + a.value;
    }
  }

  /** What the rest of the path selects from one node. */
  function Meaning(d: Dom, n: nat, path: seq<string>): Option<set<nat>>
    requires WellFormed(d) && n < |d|
    decreases |path|, 1, 0
  {
    if path == [] then Some({n})
    else
      match Targets(d, n, StepOf(path[0]))
      case None => None
      case Some(ts) => MeaningAll(d, ts, path[1..])
  }

  function MeaningAll(d: Dom, ns: seq<nat>, path: seq<string>): Option<set<nat>>
    requires WellFormed(d) && forall i :: 0 <= i < |ns| ==> ns[i] < |d|
    decreases |path|, 2, |ns|
  {
    if ns == [] then Some({})
    else Join(MeaningAll(d, ns[..|ns| - 1], path), Meaning(d, ns[|ns| - 1], path))
  }

  // -------------------------------------------------------------- the worklist

  type Item = (nat, nat)

  ghost predicate InRange(d: Dom, path: seq<string>, queue: seq<Item>) {
    forall k :: 0 <= k < |queue| ==> queue[k].0 < |d| && queue[k].1 <= |path|
  }

  ghost function Pending(d: Dom, path: seq<string>, queue: seq<Item>): Option<set<nat>>
    requires WellFormed(d) && InRange(d, path, queue)
  {
    if queue == [] then Some({})
    else
      var (n, i) := queue[|queue| - 1];
      Join(Pending(d, path, queue[..|queue| - 1]), Meaning(d, n, path[i..]))
  }

  function Pairs(ns: seq<nat>, index: nat): (r: seq<Item>)
    ensures |r| == |ns| && forall i :: 0 <= i < |r| ==> r[i] == (ns[i], index)
  {
    seq(|ns|, i requires 0 <= i < |ns| => (ns[i], index))
  }

  lemma {:induction false} PendingConcat(d: Dom, path: seq<string>, a: seq<Item>, b: seq<Item>)
    requires WellFormed(d) && InRange(d, path, a) && InRange(d, path, b)
    ensures InRange(d, path, a + b)
    ensures Pending(d, path, a + b) == Join(Pending(d, path, a), Pending(d, path, b))
  {
    hide WellFormed, Meaning;
    if b == [] {
      assert a + b == a;
      JoinNothing(Pending(d, path, a));
    } else {
      var n := |b| - 1;
      PendingConcat(d, path, a, b[..n]);
      assert (a + b)[..|a| + n] == a + b[..n];
      JoinAssociates(Pending(d, path, a), Pending(d, path, b[..n]), Meaning(d, b[n].0, path[b[n].1..]));
    }
  }

  lemma {:induction false} PendingPairs(d: Dom, path: seq<string>, ns: seq<nat>, index: nat)
    requires WellFormed(d) && index <= |path| && forall i :: 0 <= i < |ns| ==> ns[i] < |d|
    ensures Pending(d, path, Pairs(ns, index)) == MeaningAll(d, ns, path[index..])
  {
    hide WellFormed, Meaning;
    if ns != [] {
      var front := ns[..|ns| - 1];
      PendingPairs(d, path, front, index);
      assert Pairs(ns, index)[..|ns| - 1] == Pairs(front, index);
    }
  }

  lemma MeaningStep(d: Dom, path: seq<string>, n: nat, i: nat)
    requires WellFormed(d) && n < |d| && i < |path|
    ensures Meaning(d, n, path[i..]) ==
            match Targets(d, n, StepOf(path[i]))
            case None => None
            case Some(ts) => MeaningAll(d, ts, path[i + 1..])
  {
    hide WellFormed, Targets;
    assert path[i..][0] == path[i] && path[i..][1..] == path[i + 1..];
  }

  lemma TakeFirst(d: Dom, path: seq<string>, queue: seq<Item>)
    requires WellFormed(d) && InRange(d, path, queue) && queue != []
    ensures Pending(d, path, queue) ==
            Join(Meaning(d, queue[0].0, path[queue[0].1..]), Pending(d, path, queue[1..]))
  {
    hide WellFormed, Meaning, Join;
    var first: seq<Item>, none: set<nat> := [queue[0]], {};
    PendingConcat(d, path, first, queue[1..]);
    assert first + queue[1..] == queue;
    assert first[..0] == [];
    assert Pending(d, path, first[..0]) == Some(none);
    JoinNothing(Meaning(d, queue[0].0, path[queue[0].1..]));
  }

  /** Replacing the first entry by its targets leaves the answer unchanged. */
  lemma Advance(d: Dom, path: seq<string>, queue: seq<Item>, pushed: seq<Item>)
    requires WellFormed(d) && InRange(d, path, queue) && queue != [] && queue[0].1 < |path|
    requires var ts := Targets(d, queue[0].0, StepOf(path[queue[0].1]));
             ts.Some? && pushed == Pairs(ts.value, queue[0].1 + 1)
    ensures InRange(d, path, queue[1..] + pushed)
    ensures Pending(d, path, queue[1..] + pushed) == Pending(d, path, queue)
  {
    var (n, i) := queue[0];
    var ts := Targets(d, n, StepOf(path[i])).value;
    hide WellFormed, Meaning, MeaningAll, Pending, Join, Targets;
    PendingPairs(d, path, ts, i + 1);
    MeaningStep(d, path, n, i);
    TakeFirst(d, path, queue);
    PendingConcat(d, path, queue[1..], pushed);
    JoinCommutes(Pending(d, path, queue[1..]), Pending(d, path, pushed));
  }

  /** Only a parent step from a node without parent makes the search raise. */
  lemma RaisesOnlyUp(d: Dom, n: nat, step: Step)
    requires WellFormed(d) && n < |d|
    ensures Targets(d, n, step) == None <==> step == Up && d[n].parent == None
  {
  }

  lemma StartQueue(d: Dom, path: seq<string>, root: nat, start: nat)
    requires WellFormed(d) && root < |d| && start <= |path|
    ensures InRange(d, path, [(root, start)])
    ensures Join(Some({}), Pending(d, path, [(root, start)])) == Meaning(d, root, path[start..])
    ensures TwoLevels([(root, start)], start, 1)
  {
    var queue: seq<Item> := [(root, start)];
    TakeFirst(d, path, queue);
    PendingNothing(d, path, {});
    assert queue[1..] == [];
    JoinNothing(Meaning(d, root, path[start..]));
  }

  lemma PendingNothing(d: Dom, path: seq<string>, matches: set<nat>)
    requires WellFormed(d)
    ensures Pending(d, path, []) == Some({})
    ensures Join(Some(matches), Pending(d, path, [])) == Some(matches)
  {
    JoinNothing(Some(matches));
  }

  lemma Arrive(d: Dom, path: seq<string>, queue: seq<Item>, matches: set<nat>)
    requires WellFormed(d) && InRange(d, path, queue) && queue != [] && queue[0].1 == |path|
    ensures InRange(d, path, queue[1..])
    ensures Join(Some(matches + {queue[0].0}), Pending(d, path, queue[1..])) ==
            Join(Some(matches), Pending(d, path, queue))
  {
    hide WellFormed, Pending;
    TakeFirst(d, path, queue);
    assert path[queue[0].1..] == [];
    JoinAssociates(Some(matches), Some({queue[0].0}), Pending(d, path, queue[1..]));
  }

  /** Entries are sorted by index and span at most two adjacent levels. */
  ghost predicate TwoLevels(queue: seq<Item>, level: nat, split: nat) {
    && split <= |queue|
    && forall k :: 0 <= k < |queue| ==> queue[k].1 == if k < split then level else level + 1
  }

  /** Taking the first entry, and queueing its targets one level on. */
  lemma NextLevels(queue: seq<Item>, targets: seq<nat>, level: nat, split: nat)
    requires TwoLevels(queue, level, split) && queue != [] && split > 0
    ensures queue[0].1 == level
    ensures var next := queue[1..] + Pairs(targets, level + 1);
            && TwoLevels(next, level, split - 1)
            && (split == 1 ==> TwoLevels(next, level + 1, |next|))
  {
  }

  lemma LastLevels(queue: seq<Item>, level: nat, split: nat)
    requires TwoLevels(queue, level, split) && queue != [] && split > 0
    ensures queue[0].1 == level
    ensures TwoLevels(queue[1..], level, split - 1)
    ensures split == 1 ==> TwoLevels(queue[1..], level + 1, |queue| - 1)
  {
    NextLevels(queue, [], level, split);
    assert queue[1..] + Pairs([], level + 1) == queue[1..];
  }

  /** What the search keeps: the matches so far and the meaning of what is queued make
      up the meaning of the path; and the queue's entries are sorted by level. */
  ghost predicate OnTheWay(d: Dom, root: nat, path: seq<string>, start: nat, queue: seq<Item>, matches: set<nat>,
                           level: nat, split: nat)
    requires WellFormed(d) && root < |d| && start <= |path|
  {
    && InRange(d, path, queue) && TwoLevels(queue, level, split)
    && level <= |path| + 1 && (split == 0 ==> queue == [])
    && Join(Some(matches), Pending(d, path, queue)) == Meaning(d, root, path[start..])
  }

  /** The level and the split once the first entry is gone and `size` entries are left. */
  function NextSplit(level: nat, split: nat, size: nat): (r: (nat, nat))
    requires split > 0
    ensures level < r.0 || (level == r.0 && r.1 < split)
  {
    if split == 1 then (level + 1, size) else (level, split - 1)
  }

  lemma ArriveOnTheWay(d: Dom, root: nat, path: seq<string>, start: nat, queue: seq<Item>, matches: set<nat>,
                       level: nat, split: nat)
    requires WellFormed(d) && root < |d| && start <= |path| && queue != [] && split > 0
    requires OnTheWay(d, root, path, start, queue, matches, level, split) && queue[0].1 == |path|
    ensures var (level', split') := NextSplit(level, split, |queue| - 1);
            level <= |path| && OnTheWay(d, root, path, start, queue[1..], matches + {queue[0].0}, level', split')
  {
    hide WellFormed, Meaning, Pending, Join, InRange, TwoLevels;
    Arrive(d, path, queue, matches);
    LastLevels(queue, level, split);
  }

  lemma AdvanceOnTheWay(d: Dom, root: nat, path: seq<string>, start: nat, queue: seq<Item>, matches: set<nat>,
                        level: nat, split: nat, targets: seq<nat>)
    requires WellFormed(d) && root < |d| && start <= |path| && queue != [] && split > 0
    requires OnTheWay(d, root, path, start, queue, matches, level, split)
    requires queue[0].0 < |d| && queue[0].1 < |path|
    requires Targets(d, queue[0].0, StepOf(path[queue[0].1])) == Some(targets)
    ensures var next := queue[1..] + Pairs(targets, queue[0].1 + 1);
            var (level', split') := NextSplit(level, split, |next|);
            level <= |path| && OnTheWay(d, root, path, start, next, matches, level', split')
  {
    hide WellFormed, Meaning, Pending, Join, InRange, TwoLevels, Targets, Pairs, StepOf;
    Advance(d, path, queue, Pairs(targets, queue[0].1 + 1));
    NextLevels(queue, targets, level, split);
  }

  lemma RaiseOnTheWay(d: Dom, root: nat, path: seq<string>, start: nat, queue: seq<Item>, matches: set<nat>,
                      level: nat, split: nat)
    requires WellFormed(d) && root < |d| && start <= |path| && queue != []
    requires OnTheWay(d, root, path, start, queue, matches, level, split)
    requires queue[0].0 < |d| && queue[0].1 < |path|
    requires Targets(d, queue[0].0, StepOf(path[queue[0].1])) == None
    ensures Meaning(d, root, path[start..]) == None
  {
    hide WellFormed, Meaning, Pending, Join, TwoLevels, Targets, StepOf;
    MeaningStep(d, path, queue[0].0, queue[0].1);
    TakeFirst(d, path, queue);
    JoinFails(Some(matches), Pending(d, path, queue[1..]));
  }

  lemma FirstOnTheWay(d: Dom, root: nat, path: seq<string>, start: nat, queue: seq<Item>, matches: set<nat>,
                      level: nat, split: nat)
    requires WellFormed(d) && root < |d| && start <= |path|
    requires OnTheWay(d, root, path, start, queue, matches, level, split)
    ensures queue == [] ==> Meaning(d, root, path[start..]) == Some(matches)
    ensures queue != [] ==> queue[0].0 < |d| && queue[0].1 <= |path| && split > 0 && level <= |path|
  {
    hide WellFormed, Meaning, Pending, Join;
    if queue == [] { PendingNothing(d, path, matches); }
  }

  /** One turn of the search: takes the first entry of the queue, and appends what it
      leads to or notes it as a match. */
  method Turn(d: Dom, root: nat, path: seq<string>, start: nat, queue: seq<Item>, matches: set<nat>,
              ghost level: nat, ghost split: nat)
    returns (raised: bool, next: seq<Item>, found: set<nat>)
    requires WellFormed(d) && root < |d| && start <= |path| && queue != []
    requires OnTheWay(d, root, path, start, queue, matches, level, split)
    ensures split > 0 && level <= |path|
    ensures raised ==> Meaning(d, root, path[start..]) == None
    ensures !raised ==> var (l, p) := NextSplit(level, split, |next|);
                        OnTheWay(d, root, path, start, next, found, l, p)
  {
    hide WellFormed, Meaning, Targets, OnTheWay, StepOf, Pairs, NextSplit;
    FirstOnTheWay(d, root, path, start, queue, matches, level, split);
    var (node, index) := queue[0];
    raised, next, found := false, queue[1..], matches;
    if index == |path| {
      ArriveOnTheWay(d, root, path, start, queue, matches, level, split);
      found := matches + {node};
    } else {
      var targets := Visit(d, node, path[index]);
      if targets == None {
        RaiseOnTheWay(d, root, path, start, queue, matches, level, split);
        raised := true;
      } else {
        AdvanceOnTheWay(d, root, path, start, queue, matches, level, split, targets.value);
        next := next + Pairs(targets.value, index + 1);
      }
    }
  }

  method Search(d: Dom, root: nat, path: seq<string>, start: nat) returns (r: Option<set<nat>>)
    requires WellFormed(d) && root < |d| && start <= |path|
    ensures r == Meaning(d, root, path[start..])
  {
    hide WellFormed, Meaning, OnTheWay, NextSplit;
    var matches: set<nat> := {};
    var queue: seq<Item> := [(root, start)];
    ghost var level: nat, split: nat := start, 1;
    StartsOnTheWay(d, root, path, start);
    while queue != []
      invariant OnTheWay(d, root, path, start, queue, matches, level, split)
      decreases |path| + 1 - level, split
    {
      var raised, next, found := Turn(d, root, path, start, queue, matches, level, split);
      if raised { return None; }
      ghost var after := NextSplit(level, split, |next|);
      queue, matches, level, split := next, found, after.0, after.1;
    }
    FirstOnTheWay(d, root, path, start, queue, matches, level, split);
    r := Some(matches);
  }

  lemma StartsOnTheWay(d: Dom, root: nat, path: seq<string>, start: nat)
    requires WellFormed(d) && root < |d| && start <= |path|
    ensures OnTheWay(d, root, path, start, [(root, start)], {}, start, 1)
  {
    hide WellFormed, Meaning, Pending, Join;
    StartQueue(d, path, root, start);
  }

  lemma JoinFails(a: Option<set<nat>>, b: Option<set<nat>>)
    ensures Join(a, Join(None, b)) == None
  {
  }

  /** One queue entry: the nodes that it adds to the queue, or None where it raises. */
  method Visit(d: Dom, node: nat, text: string) returns (targets: Option<seq<nat>>)
    requires WellFormed(d) && node < |d|
    ensures targets == Targets(d, node, StepOf(text))
  {
    var step := StepOf(text);
    hide WellFormed, Targets;
    RaisesOnlyUp(d, node, step);
    if step == Up && d[node].parent == None {
      return None;
    }
    var reached := Follow(d, node, step);
    targets := Some(reached);
  }

  /** The nodes that one step leads to. */
  method Follow(d: Dom, node: nat, step: Step) returns (targets: seq<nat>)
    requires WellFormed(d) && node < |d| && Targets(d, node, step).Some?
    ensures targets == Targets(d, node, step).value
  {
    match step
    case Descend =>
      targets := ChildElements(d, node, None);
      targets := [node] + targets;
    case Any => targets := ChildElements(d, node, None);
    case Up => targets := [d[node].parent.value];
    case Here => targets := [node];
    case Attr(a) =>
      targets := [];
      if d[node].kind == Element && a in d[node].attributes {
        targets := [d[node].attributes[a]];
      }
    case Named(x) => targets := ChildElements(d, node, Some(x));
  }

  method ChildElements(d: Dom, node: nat, name: Option<string>) returns (r: seq<nat>)
    requires WellFormed(d) && node < |d|
    ensures r == Elements(d, d[node].children, name)
  {
    var children := d[node].children;
    r := [];
    for i := 0 to |children|
      invariant r == Elements(d, children[..i], name)
    {
      var child := children[i];
      assert children[..i + 1][..i] == children[..i];
      if d[child].kind == Element && (name == None || d[child].name == name.value) {
        r := r + [child];
      }
    }
    assert children[..|children|] == children;
  }

  /** The whole selection. `owner` is the document element of the root's owner
      document; the result lists the nodes handed to the callback, in order. */
  method Select(d: Dom, root: nat, owner: Option<nat>, path: seq<string>) returns (calls: Option<seq<nat>>)
    requires WellFormed(d) && root < |d| && (owner.Some? ==> owner.value < |d|)
    ensures calls == Selection(d, root, owner, path)
  {
    if path == [] {
      return Some([]);
    }
    var initial, start := root, 0;
    if path[0] == "" {
      if d[root].kind != Document {
        if owner == None { return None; }
        initial := owner.value;
      }
      start := 1;
    }
    var matches := Search(d, initial, path, start);
    assert path[0..] == path;
    if matches == None { return None; }
    calls := Some(Ascending(matches.value));
  }

  /** Where an absolute or relative path starts. */
  function Origin(d: Dom, root: nat, owner: Option<nat>, path: seq<string>): Option<nat>
    requires root < |d|
  {
    if path == [] || path[0] != "" || d[root].kind == Document then Some(root) else owner
  }

  function Remaining(path: seq<string>): seq<string> {
    if path != [] && path[0] == "" then path[1..] else path
  }

  function Selection(d: Dom, root: nat, owner: Option<nat>, path: seq<string>): Option<seq<nat>>
    requires WellFormed(d) && root < |d| && (owner.Some? ==> owner.value < |d|)
  {
    if path == [] then Some([])
    else
      match Origin(d, root, owner, path)
      case None => None
      case Some(initial) =>
        match Meaning(d, initial, Remaining(path))
        case None => None
        case Some(m) => Some(Ascending(m))
  }
}
