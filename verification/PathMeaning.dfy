/** Which nodes a path selects, said without the search: by chains of steps. */
module PathMeaning {
  import opened Wrappers
  import opened Ranks
  import opened PathSelector

  ghost predicate Moves(d: Dom, n: nat, step: string, x: nat)
    requires WellFormed(d)
  {
    n < |d| && Targets(d, n, StepOf(step)).Some? && x in Targets(d, n, StepOf(step)).value
  }

  ghost predicate IsElementChild(d: Dom, n: nat, x: nat)
    requires n < |d|
  {
    x in d[n].children && x < |d| && d[x].kind == Element
  }

  /** Where each step leads, by its text. */
  lemma MovesByText(d: Dom, n: nat, step: string, x: nat)
    requires WellFormed(d) && n < |d|
    ensures Moves(d, n, step, x) <==>
            if step == "" then x == n || IsElementChild(d, n, x)
            else if step == "*" then IsElementChild(d, n, x)
            else if step == ".." then d[n].parent == Some(x)
            else if step == "." then x == n
            else if step[0] == '@' then
              d[n].kind == Element && step[1..] in d[n].attributes && d[n].attributes[step[1..]] == x
            else IsElementChild(d, n, x) && d[x].name == step
  {
    ElementsAreListed(d, d[n].children, None);
    ElementsAreListed(d, d[n].children, Some(step));
  }

  /** One node per step, each reached from the one before. */
  ghost predicate Chain(d: Dom, path: seq<string>, c: seq<nat>)
    requires WellFormed(d)
  {
    && |c| == |path| + 1
    && (forall k :: 0 <= k < |path| ==> Moves(d, c[k], path[k], c[k + 1]))
  }

  ghost predicate Connects(d: Dom, path: seq<string>, c: seq<nat>, n: nat, x: nat)
    requires WellFormed(d)
  {
    Chain(d, path, c) && c[0] == n && c[|path|] == x
  }

  lemma {:induction false} MemberOfAll(d: Dom, ns: seq<nat>, path: seq<string>)
    requires WellFormed(d) && forall i :: 0 <= i < |ns| ==> ns[i] < |d|
    ensures MeaningAll(d, ns, path).Some? <==>
            forall i :: 0 <= i < |ns| ==> Meaning(d, ns[i], path).Some?
    ensures MeaningAll(d, ns, path).Some? ==>
            (forall x :: x in MeaningAll(d, ns, path).value <==>
               exists i :: 0 <= i < |ns| && x in Meaning(d, ns[i], path).value)
  {
    hide Meaning, WellFormed;
    if ns != [] {
      var front, n := ns[..|ns| - 1], |ns| - 1;
      MemberOfAll(d, front, path);
      assert ns[n] == ns[|ns| - 1] && forall i :: 0 <= i < n ==> front[i] == ns[i];
      if MeaningAll(d, ns, path).Some? {
        forall x ensures x in MeaningAll(d, ns, path).value <==>
                   exists i :: 0 <= i < |ns| && x in Meaning(d, ns[i], path).value
        {
          if x in MeaningAll(d, front, path).value {
            var i :| 0 <= i < n && x in Meaning(d, front[i], path).value;
            assert x in Meaning(d, ns[i], path).value;
          }
          if i :| 0 <= i < n && x in Meaning(d, ns[i], path).value {
            assert x in Meaning(d, front[i], path).value;
          }
        }
      }
    }
  }

  /** The search selects exactly the ends of the chains that start at the root. */
  lemma {:induction false} SelectedByChain(d: Dom, n: nat, path: seq<string>, x: nat)
    requires WellFormed(d) && n < |d| && Meaning(d, n, path).Some?
    ensures x in Meaning(d, n, path).value <==> exists c :: Connects(d, path, c, n, x)
    decreases |path|
  {
    if x in Meaning(d, n, path).value {
      var c := ChainTo(d, n, path, x);
    }
    if c :| Connects(d, path, c, n, x) {
      EndOfChain(d, n, path, c);
    }
  }

  lemma {:induction false} ChainTo(d: Dom, n: nat, path: seq<string>, x: nat) returns (c: seq<nat>)
    requires WellFormed(d) && n < |d| && Meaning(d, n, path).Some? && x in Meaning(d, n, path).value
    ensures Connects(d, path, c, n, x)
    decreases |path|
  {
    hide WellFormed, Moves;
    if path == [] {
      c := [n];
    } else {
      var ts := Targets(d, n, StepOf(path[0])).value;
      MemberOfAll(d, ts, path[1..]);
      var i :| 0 <= i < |ts| && x in Meaning(d, ts[i], path[1..]).value;
      var rest := ChainTo(d, ts[i], path[1..], x);
      c := [n] + rest;
      AsMove(d, n, path[0], i);
      ChainLonger(d, n, path, rest);
    }
  }

  lemma AsMove(d: Dom, n: nat, step: string, i: nat)
    requires WellFormed(d) && n < |d| && Targets(d, n, StepOf(step)).Some?
    requires i < |Targets(d, n, StepOf(step)).value|
    ensures Moves(d, n, step, Targets(d, n, StepOf(step)).value[i])
  {
  }

  lemma ChainLonger(d: Dom, n: nat, path: seq<string>, rest: seq<nat>)
    requires WellFormed(d) && path != [] && rest != [] && Moves(d, n, path[0], rest[0])
    requires Chain(d, path[1..], rest)
    ensures Chain(d, path, [n] + rest)
  {
    hide WellFormed, Moves;
    var c := [n] + rest;
    forall k | 0 <= k < |path| ensures Moves(d, c[k], path[k], c[k + 1]) {
      if k > 0 { assert Moves(d, rest[k - 1], path[1..][k - 1], rest[k]); }
    }
  }

  lemma AsTarget(d: Dom, n: nat, step: string, x: nat) returns (i: nat)
    requires WellFormed(d) && Moves(d, n, step, x)
    ensures n < |d| && Targets(d, n, StepOf(step)).Some?
    ensures i < |Targets(d, n, StepOf(step)).value| && Targets(d, n, StepOf(step)).value[i] == x
  {
    i :| 0 <= i < |Targets(d, n, StepOf(step)).value| && Targets(d, n, StepOf(step)).value[i] == x;
  }

  lemma {:induction false} EndOfChain(d: Dom, n: nat, path: seq<string>, c: seq<nat>)
    requires WellFormed(d) && n < |d| && Meaning(d, n, path).Some?
    requires Chain(d, path, c) && c[0] == n
    ensures c[|path|] in Meaning(d, n, path).value
    decreases |path|
  {
    hide WellFormed, Moves;
    if path != [] {
      var i := AsTarget(d, c[0], path[0], c[1]);
      var ts := Targets(d, n, StepOf(path[0])).value;
      MemberOfAll(d, ts, path[1..]);
      forall k | 0 <= k < |path| - 1 ensures Moves(d, c[1..][k], path[1..][k], c[1..][k + 1]) {
        assert Moves(d, c[k + 1], path[k + 1], c[k + 2]);
      }
      EndOfChain(d, c[1], path[1..], c[1..]);
    }
  }

  /** Some chain reaches a parent step at a node that has no parent. */
  ghost predicate Stuck(d: Dom, n: nat, path: seq<string>, c: seq<nat>)
    requires WellFormed(d)
  {
    && 0 < |c| <= |path| && c[0] == n
    && Chain(d, path[..|c| - 1], c)
    && path[|c| - 1] == ".." && c[|c| - 1] < |d| && d[c[|c| - 1]].parent == None
  }

  /** The search raises exactly when some chain gets stuck. */
  lemma RaisesIffStuck(d: Dom, n: nat, path: seq<string>)
    requires WellFormed(d) && n < |d|
    ensures Meaning(d, n, path) == None <==> exists c :: Stuck(d, n, path, c)
  {
    if Meaning(d, n, path) == None {
      var c := StuckChain(d, n, path);
    }
    if c :| Stuck(d, n, path, c) {
      StuckRaises(d, n, path, c);
    }
  }

  lemma UpIsDotDot(s: string)
    ensures StepOf(s) == Up <==> s == ".."
  {
  }

  lemma {:induction false} StuckChain(d: Dom, n: nat, path: seq<string>) returns (c: seq<nat>)
    requires WellFormed(d) && n < |d| && Meaning(d, n, path) == None
    ensures Stuck(d, n, path, c)
    decreases |path|
  {
    hide WellFormed;
    RaisesOnlyUp(d, n, StepOf(path[0]));
    UpIsDotDot(path[0]);
    if Targets(d, n, StepOf(path[0])) == None {
      c := [n];
      assert path[..0] == [];
    } else {
      var ts := Targets(d, n, StepOf(path[0])).value;
      MemberOfAll(d, ts, path[1..]);
      var i :| 0 <= i < |ts| && Meaning(d, ts[i], path[1..]) == None;
      var rest := StuckChain(d, ts[i], path[1..]);
      c := [n] + rest;
      assert Moves(d, n, path[0], ts[i]);
      StuckLater(d, n, path, rest);
    }
  }

  lemma StuckLater(d: Dom, n: nat, path: seq<string>, rest: seq<nat>)
    requires WellFormed(d) && path != [] && rest != [] && Moves(d, n, path[0], rest[0])
    requires Stuck(d, rest[0], path[1..], rest)
    ensures Stuck(d, n, path, [n] + rest)
  {
    hide WellFormed, Moves;
    var c := [n] + rest;
    forall k | 0 <= k < |c| - 1 ensures Moves(d, c[k], path[..|c| - 1][k], c[k + 1]) {
      if k > 0 { assert Moves(d, rest[k - 1], path[1..][..|rest| - 1][k - 1], rest[k]); }
    }
  }

  lemma {:induction false} StuckRaises(d: Dom, n: nat, path: seq<string>, c: seq<nat>)
    requires WellFormed(d) && n < |d| && Stuck(d, n, path, c)
    ensures Meaning(d, n, path) == None
    decreases |path|
  {
    if |c| > 1 {
      hide WellFormed, Moves;
      var i := AsTarget(d, c[0], path[..|c| - 1][0], c[1]);
      var ts := Targets(d, n, StepOf(path[0])).value;
      forall k | 0 <= k < |c| - 2 ensures Moves(d, c[1..][k], path[1..][..|c| - 2][k], c[1..][k + 1]) {
        assert Moves(d, c[k + 1], path[..|c| - 1][k + 1], c[k + 2]);
      }
      StuckRaises(d, c[1], path[1..], c[1..]);
      MemberOfAll(d, ts, path[1..]);
    }
  }

  /** The calls hand over the ends of the chains, each once. */
  ghost predicate EndsOnce(d: Dom, n: nat, path: seq<string>, calls: seq<nat>)
    requires WellFormed(d)
  {
    && (forall i, j :: 0 <= i < j < |calls| ==> calls[i] != calls[j])
    && (forall x :: x in calls <==> exists c :: Connects(d, path, c, n, x))
  }

  /** The answer to a path from one node: a raised exception if a chain gets stuck, and
      otherwise the calls. */
  ghost predicate Answers(d: Dom, n: nat, path: seq<string>, answer: Option<seq<nat>>)
    requires WellFormed(d)
  {
    match answer
    case None => exists c :: Stuck(d, n, path, c)
    case Some(calls) => (forall c :: !Stuck(d, n, path, c)) && EndsOnce(d, n, path, calls)
  }

  /** The callback runs exactly once for every selected node, and not at all if the
      search raises. A relative path starts at the node it is called on, an absolute one
      at the document if it is called there, and else at the document element. */
  lemma CalledOnce(d: Dom, root: nat, owner: Option<nat>, path: seq<string>)
    requires WellFormed(d) && root < |d| && (owner.Some? ==> owner.value < |d|)
    ensures path == [] ==> Selection(d, root, owner, path) == Some([])
    ensures path != [] && path[0] != "" ==> Answers(d, root, path, Selection(d, root, owner, path))
    ensures path != [] && path[0] == "" && d[root].kind == Document ==>
              Answers(d, root, path[1..], Selection(d, root, owner, path))
    ensures path != [] && path[0] == "" && d[root].kind != Document ==>
              if owner == None then Selection(d, root, owner, path) == None
              else Answers(d, owner.value, path[1..], Selection(d, root, owner, path))
  {
    hide WellFormed, Meaning, Answers, Ascending;
    if path != [] {
      AnswersMeaning(d, root, path);
      AnswersMeaning(d, root, path[1..]);
      if owner.Some? { AnswersMeaning(d, owner.value, path[1..]); }
    }
  }

  lemma AnswersMeaning(d: Dom, n: nat, path: seq<string>)
    requires WellFormed(d) && n < |d|
    ensures var m := Meaning(d, n, path);
            Answers(d, n, path, if m.Some? then Some(Ascending(m.value)) else None)
  {
    hide WellFormed, Meaning, EndsOnce, Stuck, Ascending;
    RaisesIffStuck(d, n, path);
    var m := Meaning(d, n, path);
    if m.Some? { EachOnce(d, n, path, m.value); }
  }

  lemma EachOnce(d: Dom, n: nat, path: seq<string>, m: set<nat>)
    requires WellFormed(d) && n < |d| && Meaning(d, n, path) == Some(m)
    ensures EndsOnce(d, n, path, Ascending(m))
  {
    hide WellFormed, Meaning, Connects;
    var calls := Ascending(m);
    AscendingLists(m);
    forall x ensures x in calls <==> exists c :: Connects(d, path, c, n, x) {
      SelectedByChain(d, n, path, x);
      if x in calls {
        var i :| 0 <= i < |calls| && calls[i] == x;
        assert calls[i] in m;
      }
    }
  }
}
