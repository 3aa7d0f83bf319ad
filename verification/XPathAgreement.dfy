/** The search compared with XPath 1.0, for the steps of its abbreviated syntax
    (section 2.5) that the search knows: names, `*`, `.`, `..`, `@` with a name or `*`,
    and `//`. Any other text is taken for a name, as in the code; there are no namespaces. */
module XPathAgreement {
  import opened Wrappers
  import opened PathSelector

  ghost function SetOf(ns: seq<nat>): set<nat> {
    set i | 0 <= i < |ns| :: ns[i]
  }

  lemma SetOfSnoc(ns: seq<nat>)
    requires ns != []
    ensures SetOf(ns) == SetOf(ns[..|ns| - 1]) + {ns[|ns| - 1]}
  {
    var front := ns[..|ns| - 1];
    forall i | 0 <= i < |ns| ensures ns[i] in SetOf(front) + {ns[|ns| - 1]} {
      if i < |front| { assert front[i] == ns[i]; }
    }
  }

  lemma SetOfFew(n: nat)
    ensures SetOf([]) == {} && SetOf([n]) == {n}
  {
    assert [n][0] == n;
  }

  lemma SetOfMembers(ns: seq<nat>)
    ensures forall x :: x in SetOf(ns) <==> x in ns
  {
  }

  // -------------------------------------------------------- XPath's tree and steps

  /** The kinds of nodes that are children in XPath's data model. */
  predicate IsChildKind(k: Kind) {
    k in {Element, Text, Comment, Instruction}
  }

  /** Only the root and elements have children there. */
  function Kids(d: Dom, n: nat): (r: seq<nat>)
    requires WellFormed(d) && n < |d|
    ensures forall i :: 0 <= i < |r| ==> n < r[i] < |d| && d[r[i]].parent == Some(n) && IsChildKind(d[r[i]].kind)
  {
    if d[n].kind !in {Element, Document, OtherKind} then []
    else ChildKinds(d, n, d[n].children)
  }

  function ChildKinds(d: Dom, n: nat, ns: seq<nat>): (r: seq<nat>)
    requires forall i :: 0 <= i < |ns| ==> n < ns[i] < |d| && d[ns[i]].parent == Some(n)
    ensures forall i :: 0 <= i < |r| ==> n < r[i] < |d| && d[r[i]].parent == Some(n) && IsChildKind(d[r[i]].kind)
  {
    if ns == [] then []
    else
      var last := ns[|ns| - 1];
      ChildKinds(d, n, ns[..|ns| - 1]) + if IsChildKind(d[last].kind) then [last] else []
  }

  /** The element children of a node, as the search lists them. */
  function ElementsBelow(d: Dom, n: nat): (r: seq<nat>)
    requires WellFormed(d) && n < |d|
    ensures forall i :: 0 <= i < |r| ==> r[i] < |d|
  {
    Elements(d, d[n].children, None)
  }

  lemma {:induction false} ChildKindsAreListed(d: Dom, n: nat, ns: seq<nat>)
    requires forall i :: 0 <= i < |ns| ==> n < ns[i] < |d| && d[ns[i]].parent == Some(n)
    ensures forall x :: x in ChildKinds(d, n, ns) <==> x in ns && x < |d| && IsChildKind(d[x].kind)
  {
    if ns != [] {
      ChildKindsAreListed(d, n, ns[..|ns| - 1]);
      assert ns == ns[..|ns| - 1] + [ns[|ns| - 1]];
    }
  }

  lemma ParentKind(d: Dom, n: nat, x: nat)
    requires WellFormed(d) && n < |d| && x in ElementsBelow(d, n)
    ensures d[n].kind in {Element, Document, OtherKind}
  {
    ElementsAreListed(d, d[n].children, None);
    var i :| 0 <= i < |d[n].children| && d[n].children[i] == x;
    assert d[d[n].children[i]].kind == Element;
  }

  lemma ParentOfAnyKind(d: Dom, n: nat)
    requires WellFormed(d) && n < |d|
    ensures ElementsBelow(d, n) != [] ==> d[n].kind in {Element, Document, OtherKind}
  {
    if ElementsBelow(d, n) != [] {
      var x := ElementsBelow(d, n)[0];
      ParentKind(d, n, x);
    }
  }

  /** The search's element children are XPath's children that are elements. */
  lemma ElementsAreKids(d: Dom, n: nat)
    requires WellFormed(d) && n < |d|
    ensures forall x :: x in ElementsBelow(d, n) <==> x in Kids(d, n) && d[x].kind == Element
  {
    ElementsAreListed(d, d[n].children, None);
    ChildKindsAreListed(d, n, d[n].children);
    forall x | x in ElementsBelow(d, n) ensures x in Kids(d, n) && d[x].kind == Element {
      ParentKind(d, n, x);
    }
  }

  /** A node and everything below it: the axis `descendant-or-self` with `node()`. */
  ghost function Family(d: Dom, n: nat): (f: set<nat>)
    requires WellFormed(d) && n < |d|
    ensures n in f && forall x :: x in f ==> n <= x < |d|
    decreases |d| - n, 0, 0
  {
    {n} + Families(d, n, Kids(d, n))
  }

  ghost function Families(d: Dom, n: nat, ns: seq<nat>): (f: set<nat>)
    requires WellFormed(d) && n < |d|
    requires forall i :: 0 <= i < |ns| ==> n < ns[i] < |d|
    ensures forall i :: 0 <= i < |ns| ==> ns[i] in f
    ensures forall x :: x in f ==> n < x < |d|
    decreases |d| - n - 1, 1, |ns|
  {
    if ns == [] then {} else Families(d, n, ns[..|ns| - 1]) + Family(d, ns[|ns| - 1])
  }

  /** An attribute's parent is the element that carries it. */
  ghost predicate IsParent(d: Dom, p: nat, n: nat)
    requires p < |d| && n < |d|
  {
    if d[n].parent.Some? then p == d[n].parent.value
    else exists a :: a in d[p].attributes && d[p].attributes[a] == n
  }

  /** The node-set that a step selects in XPath. */
  ghost function XPathStep(d: Dom, n: nat, step: Step): (r: set<nat>)
    requires WellFormed(d) && n < |d|
    ensures forall x :: x in r ==> x < |d|
  {
    match step
    case Descend => Family(d, n)
    case Any => SetOf(ElementsBelow(d, n))
    case Up => set p | 0 <= p < |d| && IsParent(d, p, n)
    case Here => {n}
    case Attr(a) =>
      if d[n].kind != Element then {}
      else set b | b in d[n].attributes && (a == "*" || a == b) :: d[n].attributes[b]
    case Named(x) => SetOf(Elements(d, d[n].children, Some(x)))
  }

  ghost function XPathAll(d: Dom, ns: set<nat>, step: Step): (r: set<nat>)
    requires WellFormed(d) && forall n :: n in ns ==> n < |d|
    ensures forall x :: x in r ==> x < |d|
  {
    set n, x | n in ns && x in XPathStep(d, n, step) :: x
  }

  ghost function XPath(d: Dom, ns: set<nat>, path: seq<string>): (r: set<nat>)
    requires WellFormed(d) && forall n :: n in ns ==> n < |d|
    decreases |path|
  {
    if path == [] then ns else XPath(d, XPathAll(d, ns, StepOf(path[0])), path[1..])
  }

  lemma {:induction false} XPathMonotone(d: Dom, a: set<nat>, b: set<nat>, path: seq<string>)
    requires WellFormed(d) && a <= b && forall n :: n in b ==> n < |d|
    ensures XPath(d, a, path) <= XPath(d, b, path)
    decreases |path|
  {
    hide WellFormed, XPathStep;
    if path != [] {
      XPathMonotone(d, XPathAll(d, a, StepOf(path[0])), XPathAll(d, b, StepOf(path[0])), path[1..]);
    }
  }

  /** A node-set's answer is the union of its nodes' answers. */
  lemma {:induction false} XPathAdds(d: Dom, a: set<nat>, b: set<nat>, path: seq<string>)
    requires WellFormed(d) && forall n :: n in a + b ==> n < |d|
    ensures XPath(d, a + b, path) == XPath(d, a, path) + XPath(d, b, path)
    decreases |path|
  {
    hide WellFormed, XPathStep;
    if path != [] {
      var step := StepOf(path[0]);
      assert XPathAll(d, a + b, step) == XPathAll(d, a, step) + XPathAll(d, b, step);
      XPathAdds(d, XPathAll(d, a, step), XPathAll(d, b, step), path[1..]);
    }
  }

  lemma {:induction false} XPathNothing(d: Dom, path: seq<string>)
    requires WellFormed(d)
    ensures XPath(d, {}, path) == {}
    decreases |path|
  {
    hide WellFormed, XPathStep;
    if path != [] {
      assert XPathAll(d, {}, StepOf(path[0])) == {};
      XPathNothing(d, path[1..]);
    }
  }

  lemma XPathFromOne(d: Dom, n: nat, path: seq<string>)
    requires WellFormed(d) && n < |d| && path != []
    ensures XPath(d, {n}, path) == XPath(d, XPathStep(d, n, StepOf(path[0])), path[1..])
  {
    hide WellFormed, XPathStep;
    assert XPathAll(d, {n}, StepOf(path[0])) == XPathStep(d, n, StepOf(path[0]));
  }

  // ----------------------------------------------------------------- one `//` step

  /** What a `//` step reaches in the code. */
  ghost function Reached(d: Dom, n: nat): set<nat>
    requires WellFormed(d) && n < |d|
  {
    var ts := Targets(d, n, Descend).value;
    SetOf(ts)
  }

  lemma ReachedIs(d: Dom, n: nat)
    requires WellFormed(d) && n < |d|
    ensures forall x :: x in Reached(d, n) <==> x == n || x in ElementsBelow(d, n)
    ensures forall x :: x in Reached(d, n) ==> x < |d|
  {
    var ts := Targets(d, n, Descend).value;
    assert ts == [n] + ElementsBelow(d, n);
    SetOfMembers(ts);
  }

  /** Every child is an element, and none of them has children. */
  ghost predicate OnlyBareElements(d: Dom, n: nat)
    requires WellFormed(d) && n < |d|
  {
    forall i :: 0 <= i < |Kids(d, n)| ==> d[Kids(d, n)[i]].kind == Element && Kids(d, Kids(d, n)[i]) == []
  }

  lemma {:induction false} FamilyIncludes(d: Dom, n: nat, ns: seq<nat>, i: nat)
    requires WellFormed(d) && n < |d| && i < |ns|
    requires forall k :: 0 <= k < |ns| ==> n < ns[k] < |d|
    ensures Family(d, ns[i]) <= Families(d, n, ns)
  {
    if i < |ns| - 1 {
      FamilyIncludes(d, n, ns[..|ns| - 1], i);
    }
  }

  lemma {:induction false} BareFamilies(d: Dom, n: nat, ns: seq<nat>)
    requires WellFormed(d) && n < |d|
    requires forall k :: 0 <= k < |ns| ==> n < ns[k] < |d|
    requires forall k :: 0 <= k < |ns| ==> Kids(d, ns[k]) == []
    ensures Families(d, n, ns) == SetOf(ns)
  {
    if ns != [] {
      hide WellFormed, SetOf, Kids;
      var front, last := ns[..|ns| - 1], ns[|ns| - 1];
      BareFamilies(d, n, front);
      assert Kids(d, last) == [];
      assert Family(d, last) == {last};
      SetOfSnoc(ns);
    }
  }

  lemma KidInFamily(d: Dom, n: nat, i: nat)
    requires WellFormed(d) && n < |d| && i < |Kids(d, n)|
    ensures Kids(d, n)[i] in Family(d, n) && Family(d, Kids(d, n)[i]) <= Family(d, n)
  {
    FamilyIncludes(d, n, Kids(d, n), i);
  }

  lemma ReachedWithin(d: Dom, n: nat)
    requires WellFormed(d) && n < |d|
    ensures Reached(d, n) <= Family(d, n)
  {
    hide WellFormed, Reached, ElementsBelow, Family;
    ReachedIs(d, n);
    ElementsAreKids(d, n);
    FamilyIs(d, n);
    forall x | x in Reached(d, n) ensures x in Family(d, n) {
      if x != n {
        var i :| 0 <= i < |Kids(d, n)| && Kids(d, n)[i] == x;
        KidInFamily(d, n, i);
      }
    }
  }

  lemma OtherMissed(d: Dom, n: nat, i: nat)
    requires WellFormed(d) && n < |d| && i < |Kids(d, n)| && d[Kids(d, n)[i]].kind != Element
    ensures Reached(d, n) != Family(d, n)
  {
    hide WellFormed, Reached, ElementsBelow, Family;
    ReachedIs(d, n);
    ElementsAreKids(d, n);
    KidInFamily(d, n, i);
    assert Kids(d, n)[i] in Family(d, n) && Kids(d, n)[i] !in Reached(d, n);
  }

  lemma GrandchildMissed(d: Dom, n: nat, i: nat)
    requires WellFormed(d) && n < |d| && i < |Kids(d, n)| && Kids(d, Kids(d, n)[i]) != []
    ensures Reached(d, n) != Family(d, n)
  {
    hide WellFormed, Reached, ElementsBelow, Family;
    var kid := Kids(d, n)[i];
    var g := Kids(d, kid)[0];
    ReachedIs(d, n);
    ElementsAreKids(d, n);
    KidInFamily(d, n, i);
    KidInFamily(d, kid, 0);
    assert g in Family(d, n) && d[g].parent == Some(kid) && g != n;
    KidsParent(d, n, g);
    assert g !in Reached(d, n);
  }

  lemma KidsParent(d: Dom, n: nat, x: nat)
    requires WellFormed(d) && n < |d|
    ensures x in Kids(d, n) ==> x < |d| && d[x].parent == Some(n)
  {
  }

  lemma BareReached(d: Dom, n: nat)
    requires WellFormed(d) && n < |d| && OnlyBareElements(d, n)
    ensures Family(d, n) <= Reached(d, n)
  {
    hide WellFormed, Reached, ElementsBelow, Kids;
    var kids := Kids(d, n);
    ReachedIs(d, n);
    ElementsAreKids(d, n);
    BareFamilies(d, n, kids);
    forall x | x in Family(d, n) ensures x in Reached(d, n) {
      if x != n {
        SetOfMembers(kids);
        var i :| 0 <= i < |kids| && kids[i] == x;
      }
    }
  }

  /** A `//` step reaches all that XPath's reaches exactly where every child is an
      element without any children. */
  lemma DescendExact(d: Dom, n: nat)
    requires WellFormed(d) && n < |d|
    ensures Reached(d, n) <= Family(d, n)
    ensures Reached(d, n) == Family(d, n) <==> OnlyBareElements(d, n)
  {
    hide WellFormed, Reached, ElementsBelow, Family, Kids;
    ReachedWithin(d, n);
    if i :| 0 <= i < |Kids(d, n)| && d[Kids(d, n)[i]].kind != Element {
      OtherMissed(d, n, i);
    } else if i :| 0 <= i < |Kids(d, n)| && Kids(d, Kids(d, n)[i]) != [] {
      GrandchildMissed(d, n, i);
    } else {
      BareReached(d, n);
    }
  }

  lemma FamilyIs(d: Dom, n: nat)
    requires WellFormed(d) && n < |d|
    ensures Family(d, n) == {n} + Families(d, n, Kids(d, n))
  {
  }

  // ---------------------------------------------------------------- whole paths

  /** A step that only elements answer. */
  predicate SeesElements(step: Step) {
    step.Any? || step.Named? || step.Attr?
  }

  /** No element child of the node has element children. */
  ghost predicate NoGrandchildren(d: Dom, n: nat)
    requires WellFormed(d) && n < |d|
  {
    forall i :: 0 <= i < |ElementsBelow(d, n)| ==> ElementsBelow(d, ElementsBelow(d, n)[i]) == []
  }

  /** What the first step of the path needs to see all that XPath sees: for `//`, that no
      elements are missed, or nothing at all if what follows does not look for elements;
      for `@*`, that there is no attribute. */
  ghost predicate HarmlessStep(d: Dom, n: nat, path: seq<string>)
    requires WellFormed(d) && n < |d| && path != []
  {
    match StepOf(path[0])
    case Descend =>
      if |path| > 1 && SeesElements(StepOf(path[1])) then NoGrandchildren(d, n) else OnlyBareElements(d, n)
    case Attr(a) => a == "*" && d[n].kind == Element ==> d[n].attributes == map[]
    case _ => true
  }

  /** Every step that the search takes is harmless where it is taken. */
  ghost predicate Harmless(d: Dom, n: nat, path: seq<string>)
    requires WellFormed(d) && n < |d|
    decreases |path|
  {
    path != [] ==>
      && HarmlessStep(d, n, path)
      && var ts := Targets(d, n, StepOf(path[0]));
         ts.Some? ==> forall i :: 0 <= i < |ts.value| ==> Harmless(d, ts.value[i], path[1..])
  }

  /** Neither `//` nor `@*` occurs. */
  ghost predicate Simple(path: seq<string>) {
    forall k :: 0 <= k < |path| ==> path[k] != "" && path[k] != "@*"
  }

  lemma SimpleStep(s: string)
    requires s != "" && s != "@*"
    ensures StepOf(s) != Descend && StepOf(s) != Attr("*")
  {
    assert s == [s[0]] + s[1..];
  }

  lemma {:induction false} SimpleIsHarmless(d: Dom, n: nat, path: seq<string>)
    requires WellFormed(d) && n < |d| && Simple(path)
    ensures Harmless(d, n, path)
    decreases |path|
  {
    hide WellFormed, Targets;
    if path != [] {
      SimpleStep(path[0]);
      if Targets(d, n, StepOf(path[0])).Some? {
        var ts := Targets(d, n, StepOf(path[0])).value;
        forall i | 0 <= i < |ts| ensures Harmless(d, ts[i], path[1..]) {
          SimpleIsHarmless(d, ts[i], path[1..]);
        }
      }
    }
  }

  // Below a node without grandchildren, `//` misses only nodes that are no elements.

  predicate IsLeaf(d: Dom, x: nat) {
    x < |d| && IsChildKind(d[x].kind) && d[x].kind != Element
  }

  lemma {:induction false} LeafFamilies(d: Dom, n: nat, ns: seq<nat>)
    requires WellFormed(d) && n < |d|
    requires forall k :: 0 <= k < |ns| ==> n < ns[k] < |d| && IsLeaf(d, ns[k])
    ensures forall x :: x in Families(d, n, ns) ==> IsLeaf(d, x)
  {
    if ns != [] {
      hide WellFormed, Kids;
      LeafFamilies(d, n, ns[..|ns| - 1]);
      LeafFamily(d, ns[|ns| - 1]);
    }
  }

  lemma LeafFamily(d: Dom, x: nat)
    requires WellFormed(d) && IsLeaf(d, x)
    ensures Family(d, x) == {x}
  {
    hide WellFormed;
    assert Kids(d, x) == [];
    assert Families(d, x, []) == {};
  }

  lemma KidsAreLeaves(d: Dom, n: nat)
    requires WellFormed(d) && n < |d| && ElementsBelow(d, n) == []
    ensures forall x :: x in Family(d, n) ==> x == n || IsLeaf(d, x)
  {
    hide WellFormed, ElementsBelow, Kids;
    ElementsAreKids(d, n);
    forall k | 0 <= k < |Kids(d, n)| ensures IsLeaf(d, Kids(d, n)[k]) {
      assert Kids(d, n)[k] in Kids(d, n) && Kids(d, n)[k] !in ElementsBelow(d, n);
    }
    LeafFamilies(d, n, Kids(d, n));
  }

  lemma {:induction false} ShallowFamilies(d: Dom, n: nat, ns: seq<nat>)
    requires WellFormed(d) && n < |d|
    requires forall k :: 0 <= k < |ns| ==> n < ns[k] < |d|
    requires forall k :: 0 <= k < |ns| ==> ElementsBelow(d, ns[k]) == []
    ensures forall x :: x in Families(d, n, ns) ==> x in ns || IsLeaf(d, x)
  {
    if ns != [] {
      hide WellFormed, ElementsBelow, Kids, IsLeaf;
      var front, last := ns[..|ns| - 1], ns[|ns| - 1];
      ShallowFamilies(d, n, front);
      KidsAreLeaves(d, last);
      assert forall x :: x in front ==> x in ns;
    }
  }

  lemma NothingBelowLeaf(d: Dom, x: nat)
    requires WellFormed(d) && IsLeaf(d, x)
    ensures ElementsBelow(d, x) == []
  {
    ParentOfAnyKind(d, x);
  }

  lemma ShallowKids(d: Dom, n: nat)
    requires WellFormed(d) && n < |d| && NoGrandchildren(d, n)
    ensures forall k :: 0 <= k < |Kids(d, n)| ==> ElementsBelow(d, Kids(d, n)[k]) == []
  {
    hide WellFormed, ElementsBelow, Kids;
    ElementsAreKids(d, n);
    forall k | 0 <= k < |Kids(d, n)| ensures ElementsBelow(d, Kids(d, n)[k]) == [] {
      var kid := Kids(d, n)[k];
      assert kid in Kids(d, n);
      if d[kid].kind == Element {
        var i :| 0 <= i < |ElementsBelow(d, n)| && ElementsBelow(d, n)[i] == kid;
      } else {
        NothingBelowLeaf(d, kid);
      }
    }
  }

  lemma OnlyLeavesMissed(d: Dom, n: nat)
    requires WellFormed(d) && n < |d| && NoGrandchildren(d, n)
    ensures forall x :: x in Family(d, n) ==> x in Reached(d, n) || IsLeaf(d, x)
  {
    hide WellFormed, ElementsBelow, Kids, Reached;
    var kids := Kids(d, n);
    ShallowKids(d, n);
    ShallowFamilies(d, n, kids);
    ReachedIs(d, n);
    ElementsAreKids(d, n);
    forall x | x in Family(d, n) ensures x in Reached(d, n) || IsLeaf(d, x) {
      if x in kids && d[x].kind != Element {
        var i :| 0 <= i < |kids| && kids[i] == x;
      }
    }
  }

  lemma {:induction false} NamedOfNone(d: Dom, ns: seq<nat>, name: Option<string>)
    requires forall i :: 0 <= i < |ns| ==> ns[i] < |d|
    ensures Elements(d, ns, None) == [] ==> Elements(d, ns, name) == []
  {
    if ns != [] { NamedOfNone(d, ns[..|ns| - 1], name); }
  }

  lemma LeavesAnswerNothing(d: Dom, x: nat, step: Step)
    requires WellFormed(d) && IsLeaf(d, x) && SeesElements(step)
    ensures XPathStep(d, x, step) == {}
  {
    hide Elements;
    NothingBelowLeaf(d, x);
    SetOfFew(x);
    match step
    case Any => assert XPathStep(d, x, step) == SetOf(ElementsBelow(d, x));
    case Named(name) => NamedOfNone(d, d[x].children, Some(name));
    case Attr(_) =>
  }

  lemma MissedLeavesDoNotMatter(d: Dom, n: nat, step: Step)
    requires WellFormed(d) && n < |d| && NoGrandchildren(d, n) && SeesElements(step)
    ensures (forall x :: x in Reached(d, n) ==> x < |d|)
    ensures XPathAll(d, Family(d, n), step) == XPathAll(d, Reached(d, n), step)
  {
    hide WellFormed, Reached, Family, XPathStep, NoGrandchildren, IsLeaf, SeesElements;
    ReachedIs(d, n);
    ReachedWithin(d, n);
    OnlyLeavesMissed(d, n);
    forall x, y | x in Family(d, n) && y in XPathStep(d, x, step) ensures x in Reached(d, n) {
      if IsLeaf(d, x) { LeavesAnswerNothing(d, x, step); }
    }
  }

  /** The nodes of one coded step are XPath's, and all of them except at `//` and `@*`. */
  lemma StepWithinXPath(d: Dom, n: nat, step: Step)
    requires WellFormed(d) && n < |d| && Targets(d, n, step).Some?
    ensures SetOf(Targets(d, n, step).value) <= XPathStep(d, n, step)
    ensures step != Descend && step != Attr("*") ==> SetOf(Targets(d, n, step).value) == XPathStep(d, n, step)
    ensures step == Attr("*") && (d[n].kind == Element ==> d[n].attributes == map[]) ==>
              SetOf(Targets(d, n, step).value) == XPathStep(d, n, step)
  {
    if step == Descend { ReachedWithin(d, n); }
    if step == Here { SetOfFew(n); }
    if step == Up { ParentOnly(d, n); }
    if step.Attr? { AttributeOnly(d, n, step.name); }
  }

  lemma ParentOnly(d: Dom, n: nat)
    requires WellFormed(d) && n < |d| && d[n].parent.Some?
    ensures SetOf(Targets(d, n, Up).value) == XPathStep(d, n, Up)
  {
    var p := d[n].parent.value;
    SetOfFew(p);
    assert XPathStep(d, n, Up) == {p};
  }

  lemma AttributeOnly(d: Dom, n: nat, a: string)
    requires WellFormed(d) && n < |d|
    ensures SetOf(Targets(d, n, Attr(a)).value) <= XPathStep(d, n, Attr(a))
    ensures a != "*" || (d[n].kind == Element ==> d[n].attributes == map[]) ==>
              SetOf(Targets(d, n, Attr(a)).value) == XPathStep(d, n, Attr(a))
  {
    if d[n].kind == Element && a in d[n].attributes {
      var b := d[n].attributes[a];
      SetOfFew(b);
    } else {
      SetOfFew(n);
    }
  }

  /** One coded step, and the rest of the path as XPath reads it. */
  lemma StepThenRest(d: Dom, n: nat, path: seq<string>)
    requires WellFormed(d) && n < |d| && path != [] && Targets(d, n, StepOf(path[0])).Some?
    ensures var step, ts := StepOf(path[0]), Targets(d, n, StepOf(path[0])).value;
            && XPath(d, SetOf(ts), path[1..]) <= XPath(d, XPathStep(d, n, step), path[1..])
            && (HarmlessStep(d, n, path) ==>
                  XPath(d, SetOf(ts), path[1..]) == XPath(d, XPathStep(d, n, step), path[1..]))
  {
    hide WellFormed, Targets, Family, NoGrandchildren, OnlyBareElements, XPathStep, StepOf, SetOf;
    var step, ts := StepOf(path[0]), Targets(d, n, StepOf(path[0])).value;
    StepWithinXPath(d, n, step);
    TargetsExist(d, ts);
    XPathMonotone(d, SetOf(ts), XPathStep(d, n, step), path[1..]);
    if step == Descend && HarmlessStep(d, n, path) {
      DescendStep(d, n);
      if |path| > 1 && SeesElements(StepOf(path[1])) {
        MissedLeavesDoNotMatter(d, n, StepOf(path[1]));
        assert path[1..][0] == path[1];
      } else {
        DescendExact(d, n);
      }
    }
  }

  lemma TargetsExist(d: Dom, ts: seq<nat>)
    requires forall i :: 0 <= i < |ts| ==> ts[i] < |d|
    ensures forall x :: x in SetOf(ts) ==> x < |d|
  {
  }

  lemma DescendStep(d: Dom, n: nat)
    requires WellFormed(d) && n < |d|
    ensures Targets(d, n, Descend).Some? && SetOf(Targets(d, n, Descend).value) == Reached(d, n)
    ensures XPathStep(d, n, Descend) == Family(d, n)
  {
  }

  /** Whatever the search selects, XPath selects. They agree when every `//` and `@*`
      step is harmless where it is taken, and so for every relative path without them. */
  lemma {:induction false} AgreesWithXPath(d: Dom, n: nat, path: seq<string>)
    requires WellFormed(d) && n < |d| && Meaning(d, n, path).Some?
    ensures Meaning(d, n, path).value <= XPath(d, {n}, path)
    ensures Harmless(d, n, path) ==> Meaning(d, n, path).value == XPath(d, {n}, path)
    ensures Simple(path) ==> Harmless(d, n, path)
    decreases |path|, 1, 0
  {
    if Simple(path) { SimpleIsHarmless(d, n, path); }
    if path != [] {
      hide WellFormed, Meaning, XPath, XPathStep, Targets, Simple, HarmlessStep;
      MeaningStep(d, path, n, 0);
      assert path[0..] == path;
      var ts := Targets(d, n, StepOf(path[0])).value;
      AgreesAll(d, ts, path[1..]);
      StepThenRest(d, n, path);
      XPathFromOne(d, n, path);
    }
  }

  lemma {:induction false} AgreesAll(d: Dom, ns: seq<nat>, path: seq<string>)
    requires WellFormed(d) && (forall i :: 0 <= i < |ns| ==> ns[i] < |d|) && MeaningAll(d, ns, path).Some?
    ensures MeaningAll(d, ns, path).value <= XPath(d, SetOf(ns), path)
    ensures (forall i :: 0 <= i < |ns| ==> Harmless(d, ns[i], path)) ==>
              MeaningAll(d, ns, path).value == XPath(d, SetOf(ns), path)
    decreases |path|, 2, |ns|
  {
    hide WellFormed, Meaning, XPath, Harmless;
    var all := SetOf(ns);
    if ns == [] {
      assert all == {};
      XPathNothing(d, path);
    } else {
      var front, last := ns[..|ns| - 1], ns[|ns| - 1];
      var most := SetOf(front);
      AgreesAll(d, front, path);
      AgreesWithXPath(d, last, path);
      SetOfSnoc(ns);
      XPathAdds(d, most, {last}, path);
    }
  }

  // --------------------------------------------------------------- where they part

  /** `<r><a>t</a></r>`: the element r, its child a, and a's text. */
  const TEXT_DOM: Dom := [
    Node(Element, "r", None, [1], map[]),
    Node(Element, "a", Some(0), [2], map[]),
    Node(Text, "", Some(1), [], map[])]

  lemma {:induction false} MeaningOfNodes(d: Dom, ns: seq<nat>)
    requires WellFormed(d) && forall i :: 0 <= i < |ns| ==> ns[i] < |d|
    ensures MeaningAll(d, ns, []) == Some(SetOf(ns))
  {
    hide WellFormed, SetOf;
    if ns == [] {
      SetOfFew(0);
    } else {
      MeaningOfNodes(d, ns[..|ns| - 1]);
      SetOfSnoc(ns);
      assert Meaning(d, ns[|ns| - 1], []) == Some({ns[|ns| - 1]});
    }
  }

  /** A text counts as missed: what follows `a` in `a//..` selects `r` only, and in XPath
      `a` too, which is the parent of its text. */
  lemma TextIsMissed()
    ensures WellFormed(TEXT_DOM) && !OnlyBareElements(TEXT_DOM, 1) && NoGrandchildren(TEXT_DOM, 1)
    ensures Reached(TEXT_DOM, 1) == {1} && Family(TEXT_DOM, 1) == {1, 2}
    ensures Meaning(TEXT_DOM, 1, ["", ".."]) == Some({0})
    ensures XPath(TEXT_DOM, {1}, ["", ".."]) == {0, 1}
  {
    var d := TEXT_DOM;
    TextIsWellFormed();
    hide WellFormed, ElementsBelow, Family, Kids, XPathStep, Meaning;
    TextKids();
    TextReached();
    TextFamily();
    TextMeaning();
    XPathFromOne(d, 1, ["", ".."]);
    DescendStep(d, 1);
    TextParents();
    assert [".."][1..] == [] && ["", ".."][1..] == [".."];
  }

  lemma TextKids()
    ensures WellFormed(TEXT_DOM)
    ensures Kids(TEXT_DOM, 1) == [2] && Kids(TEXT_DOM, 2) == [] && ElementsBelow(TEXT_DOM, 1) == []
  {
    TextIsWellFormed();
    hide WellFormed;
    var d := TEXT_DOM;
    assert [2][..0] == [];
    assert d[1].children == [2] && d[2].children == [] && d[2].kind == Text && d[1].kind == Element;
    assert ChildKinds(d, 1, []) == [] && Elements(d, [], None) == [];
    assert ChildKinds(d, 1, [2]) == [] + [2];
    assert Elements(d, [2], None) == [] + [];
  }

  lemma TextIsWellFormed()
    ensures WellFormed(TEXT_DOM)
  {
  }

  lemma TextReached()
    requires WellFormed(TEXT_DOM)
    ensures Reached(TEXT_DOM, 1) == {1}
  {
    hide WellFormed, Reached, ElementsBelow;
    ReachedIs(TEXT_DOM, 1);
    TextKids();
  }

  lemma TextParents()
    requires WellFormed(TEXT_DOM)
    ensures XPathAll(TEXT_DOM, {1, 2}, Up) == {0, 1}
  {
    hide WellFormed;
    assert XPathStep(TEXT_DOM, 1, Up) == {0} && XPathStep(TEXT_DOM, 2, Up) == {1};
    assert 1 in {1, 2} && 2 in {1, 2};
  }

  lemma TextFamily()
    requires WellFormed(TEXT_DOM)
    ensures Family(TEXT_DOM, 1) == {1, 2}
  {
    TextKids();
    LeafFamily(TEXT_DOM, 2);
    assert [2][..0] == [];
    assert Families(TEXT_DOM, 1, []) == {};
    assert Families(TEXT_DOM, 1, [2]) == {2};
  }

  lemma TextMeaning()
    requires WellFormed(TEXT_DOM)
    ensures Meaning(TEXT_DOM, 1, ["", ".."]) == Some({0})
  {
    var d := TEXT_DOM;
    TextKids();
    assert ["", ".."][1..] == [".."] && [".."][1..] == [];
    assert [1] + ElementsBelow(d, 1) == [1];
    assert Targets(d, 1, Up) == Some([0]);
    MeaningOfNodes(d, [0]);
    SetOfFew(0);
    assert [1][..0] == [];
    assert Meaning(d, 1, [".."]) == Some({0});
    JoinNothing(Some({0}));
  }

  // -------------------------------------------------------------- absolute paths

  /** From any node but the document, the code starts an absolute path at the document
      element: it reads `/p` as XPath reads the path that has `*` as one more first step. */
  lemma AbsoluteIsOneDeeper(d: Dom, doc: nat, e: nat, root: nat, p: seq<string>)
    requires WellFormed(d) && doc < |d| && e < |d| && root < |d|
    requires d[doc].kind == Document && ElementsBelow(d, doc) == [e] && d[root].kind != Document
    ensures Meaning(d, e, p) == Meaning(d, doc, ["*"] + p)
    ensures Selection(d, root, Some(e), [""] + p) == Selection(d, doc, None, ["", "*"] + p)
    ensures Harmless(d, e, p) && Meaning(d, e, p).Some? ==>
              Meaning(d, e, p).value == XPath(d, {doc}, ["*"] + p)
  {
    hide WellFormed, Harmless, XPathStep;
    var longer := ["*"] + p;
    assert longer[0] == "*" && longer[1..] == p;
    OneBelow(d, doc, e, p);
    assert ([""] + p)[1..] == p && (["", "*"] + p)[1..] == longer;
    if Harmless(d, e, p) && Meaning(d, e, p).Some? {
      AgreesWithXPath(d, e, p);
      XPathFromOne(d, doc, longer);
      SetOfFew(e);
      AnyBelow(d, doc);
    }
  }

  lemma OneBelow(d: Dom, doc: nat, e: nat, p: seq<string>)
    requires WellFormed(d) && doc < |d| && e < |d| && ElementsBelow(d, doc) == [e]
    ensures Meaning(d, doc, ["*"] + p) == Meaning(d, e, p)
  {
    hide WellFormed, Join;
    var longer := ["*"] + p;
    assert longer[0] == "*" && longer[1..] == p;
    assert [e][..0] == [];
    JoinNothing(Meaning(d, e, p));
    assert Targets(d, doc, StepOf(longer[0])) == Some([e]);
    assert Meaning(d, doc, longer) == MeaningAll(d, [e], p);
    assert MeaningAll(d, [e][..0], p) == Some({});
  }

  lemma AnyBelow(d: Dom, n: nat)
    requires WellFormed(d) && n < |d|
    ensures XPathStep(d, n, Any) == SetOf(ElementsBelow(d, n))
  {
  }

  lemma {:induction false} NamedAmongOne(d: Dom, ns: seq<nat>, e: nat, x: string)
    requires (forall i :: 0 <= i < |ns| ==> ns[i] < |d|) && e < |d| && Elements(d, ns, None) == [e]
    ensures Elements(d, ns, Some(x)) == if d[e].name == x then [e] else []
  {
    var last := ns[|ns| - 1];
    if d[last].kind == Element {
      assert (Elements(d, ns[..|ns| - 1], None) + [last])[|Elements(d, ns[..|ns| - 1], None)|] == last;
      NamedOfNone(d, ns[..|ns| - 1], Some(x));
    } else {
      NamedAmongOne(d, ns[..|ns| - 1], e, x);
    }
  }

  /** For a path of one name, XPath looks at the document element itself. The two agree
      exactly if neither it nor any child of it is named so. */
  lemma AbsoluteNameExact(d: Dom, doc: nat, e: nat, x: string)
    requires WellFormed(d) && doc < |d| && e < |d| && StepOf(x) == Named(x)
    requires ElementsBelow(d, doc) == [e]
    ensures XPath(d, {doc}, [x]) == if d[e].name == x then {e} else {}
    ensures Meaning(d, e, [x]) == Some(XPath(d, {doc}, [x])) <==>
            d[e].name != x && Elements(d, d[e].children, Some(x)) == []
  {
    hide Elements, XPathAll, SetOf;
    var below := Elements(d, d[e].children, Some(x));
    NamedAmongOne(d, d[doc].children, e, x);
    SetOfFew(e);
    XPathFromOne(d, doc, [x]);
    NamedMeaning(d, e, x);
    ElementsAreListed(d, d[e].children, Some(x));
    SetOfMembers(below);
    if below != [] { assert below[0] in SetOf(below) && below[0] > e; }
  }

  lemma NamedMeaning(d: Dom, n: nat, x: string)
    requires WellFormed(d) && n < |d| && StepOf(x) == Named(x)
    ensures Meaning(d, n, [x]) == Some(SetOf(Elements(d, d[n].children, Some(x))))
  {
    MeaningOfNodes(d, Elements(d, d[n].children, Some(x)));
    assert [x][1..] == [];
  }

  /** A document whose only element is r. */
  const ROOT_DOM: Dom := [
    Node(Document, "", None, [1], map[]),
    Node(Element, "r", Some(0), [], map[])]

  /** Called on r, the code finds nothing at `/r`, and XPath finds r. */
  lemma RootNameMissed()
    ensures WellFormed(ROOT_DOM)
    ensures Selection(ROOT_DOM, 1, Some(1), ["", "r"]) == Some([])
    ensures XPath(ROOT_DOM, {0}, ["r"]) == {1}
  {
    var d := ROOT_DOM;
    RootIsWellFormed();
    hide WellFormed, Meaning, XPath;
    assert ["", "r"][1..] == ["r"];
    AbsoluteNameExact(d, 0, 1, "r");
    NamedMeaning(d, 1, "r");
    SetOfFew(1);
  }

  lemma RootIsWellFormed()
    ensures WellFormed(ROOT_DOM) && ElementsBelow(ROOT_DOM, 0) == [1]
  {
    assert [1][..0] == [];
  }
}
