/** What the wait-for-all filter guarantees over whole runs. */
module WaveRuns {
  import opened Ranks
  import opened WaveFilter

  // ------------------------------------------------------- histories of a run

  function From(ps: seq<Packet>, r: nat): seq<Packet> {
    if ps == [] then []
    else From(ps[..|ps| - 1], r) + if ps[|ps| - 1].inlet == r then [ps[|ps| - 1]] else []
  }

  function State(calls: seq<Call>, unknown: nat): Slots {
    if calls == [] then map[]
    else Step(State(calls[..|calls| - 1], unknown), calls[|calls| - 1], unknown).0
  }

  function Output(calls: seq<Call>, c: Call, unknown: nat): seq<Packet> {
    Step(State(calls, unknown), c, unknown).1
  }

  function Emitted(calls: seq<Call>, unknown: nat): seq<Packet> {
    if calls == [] then []
    else Emitted(calls[..|calls| - 1], unknown) + Output(calls[..|calls| - 1], calls[|calls| - 1], unknown)
  }

  /** Non-empty outputs, one entry per wave. */
  function Waves(calls: seq<Call>, unknown: nat): seq<seq<Packet>> {
    if calls == [] then []
    else
      var out := Output(calls[..|calls| - 1], calls[|calls| - 1], unknown);
      Waves(calls[..|calls| - 1], unknown) + if out == [] then [] else [out]
  }

  /** The packets a rank has handed over, oldest first; a batch on a missing stream is lost. */
  function Delivered(calls: seq<Call>, r: nat): seq<Packet> {
    if calls == [] then []
    else
      var c := calls[|calls| - 1];
      Delivered(calls[..|calls| - 1], r) + if c.streamFound then From(c.batch, r) else []
  }

  // ------------------------------------------------------------- single steps

  lemma {:induction false} FromConcat(a: seq<Packet>, b: seq<Packet>, r: nat)
    ensures From(a + b, r) == From(a, r) + From(b, r)
  {
    if b == [] {
      assert a + b == a;
    } else {
      var n := |b| - 1;
      FromConcat(a, b[..n], r);
      assert (a + b)[..|a| + n] == a + b[..n];
    }
  }

  lemma {:induction false} PlaceBuffers(s: Slots, batch: seq<Packet>, failed: set<nat>, r: nat)
    ensures Buffered(Place(s, batch, failed), r) ==
            Buffered(s, r) + if r in failed then [] else From(batch, r)
  {
    if batch != [] {
      PlaceBuffers(s, batch[..|batch| - 1], failed, r);
    }
  }

  lemma {:induction false} PlaceKeeps(s: Slots, batch: seq<Packet>, failed: set<nat>)
    requires Keyed(s)
    ensures Keyed(Place(s, batch, failed))
    ensures forall r :: r in Place(s, batch, failed) ==>
              r in s || exists p :: p in batch && p.inlet == r && r !in failed
  {
    if batch != [] {
      var last := batch[|batch| - 1];
      var front := batch[..|batch| - 1];
      PlaceKeeps(s, front, failed);
      var t := Place(s, front, failed);
      UpdateSlot(t, last.inlet, Buffered(t, last.inlet) + [last]);
      forall r | r in Place(s, batch, failed) && r !in s
        ensures exists p :: p in batch && p.inlet == r && r !in failed
      {
        if r in t {
          var p :| p in front && p.inlet == r && r !in failed;
          assert p in batch;
        } else {
          assert last in batch && last.inlet == r;
        }
      }
    }
  }

  lemma PopBuffers(s: Slots, r: nat)
    ensures Pop(s).Keys == s.Keys
    ensures Buffered(Pop(s), r) == if Buffered(s, r) == [] then [] else Buffered(s, r)[1..]
  {
    AscendingLists(s.Keys);
    PopEachAt(s, Ascending(s.Keys), r);
  }

  lemma {:induction false} PopEachKeyed(s: Slots, rs: seq<nat>)
    requires Keyed(s)
    ensures Keyed(PopEach(s, rs))
  {
    if rs != [] {
      var t, r := PopEach(s, rs[..|rs| - 1]), rs[|rs| - 1];
      PopEachKeyed(s, rs[..|rs| - 1]);
      if Buffered(t, r) != [] { DropHead(t, r); }
    }
  }

  lemma {:induction false} StateKeyed(calls: seq<Call>, unknown: nat)
    ensures Keyed(State(calls, unknown))
  {
    if calls != [] {
      var s, c := State(calls[..|calls| - 1], unknown), calls[|calls| - 1];
      StateKeyed(calls[..|calls| - 1], unknown);
      assert Keyed(s - c.failed);
      PlaceKeeps(s - c.failed, c.batch, c.failed);
      PopEachKeyed(Placed(s, c), Ascending(Placed(s, c).Keys));
    }
  }

  ghost predicate NoRepeats(rs: seq<nat>) {
    forall i, j :: 0 <= i < j < |rs| ==> rs[i] != rs[j]
  }

  lemma LastIsNew(rs: seq<nat>, r: nat)
    requires rs != [] && NoRepeats(rs)
    ensures var front, last := rs[..|rs| - 1], rs[|rs| - 1];
            NoRepeats(front) && (r in rs <==> r in front || r == last) && !(r in front && r == last)
  {
    assert rs == rs[..|rs| - 1] + [rs[|rs| - 1]];
  }

  lemma {:induction false} FromHeads(s: Slots, rs: seq<nat>, r: nat)
    requires Keyed(s) && NoRepeats(rs)
    ensures From(Heads(s, rs), r) == if r in rs then Head(s, r) else []
  {
    hide Head, Keyed, NoRepeats;
    if rs != [] {
      var front, last := rs[..|rs| - 1], rs[|rs| - 1];
      LastIsNew(rs, r);
      FromHeads(s, front, r);
      FromConcat(Heads(s, front), Head(s, last), r);
      FromHead(s, last, r);
    }
  }

  lemma FromHead(s: Slots, last: nat, r: nat)
    requires Keyed(s)
    ensures From(Head(s, last), r) == if r == last then Head(s, last) else []
  {
    if Buffered(s, last) != [] {
      assert Buffered(s, last)[0] in s[last];
      assert Head(s, last)[..0] == [];
    }
  }

  lemma FromWave(s: Slots, r: nat)
    requires Keyed(s)
    ensures From(Wave(s), r) == Head(s, r)
  {
    AscendingLists(s.Keys);
    FromHeads(s, Ascending(s.Keys), r);
  }

  lemma WaveMoves(s: Slots, r: nat)
    requires Keyed(s)
    ensures From(Wave(s), r) + Buffered(Pop(s), r) == Buffered(s, r)
  {
    FromWave(s, r);
    PopBuffers(s, r);
  }

  /** What one call does to the packets of one rank that has not failed. */
  lemma StepMoves(s: Slots, c: Call, unknown: nat, r: nat)
    requires Keyed(s) && r != unknown && r !in c.failed
    ensures From(Step(s, c, unknown).1, r) + Buffered(Step(s, c, unknown).0, r) ==
            Buffered(s, r) + if c.streamFound then From(c.batch, r) else []
  {
    if c.streamFound {
      assert Buffered(s - c.failed, r) == Buffered(s, r);
      if LoneUnknown(c, unknown) {
        assert c.batch[..0] == [];
      } else {
        PlaceBuffers(s - c.failed, c.batch, c.failed, r);
        PlaceKeeps(s - c.failed, c.batch, c.failed);
        WaveMoves(Placed(s, c), r);
      }
    }
  }

  // -------------------------------------------------------------- conservation

  lemma Regroup<T>(emitted: seq<T>, out: seq<T>, after: seq<T>, before: seq<T>, arrived: seq<T>, delivered: seq<T>)
    requires out + after == before + arrived && emitted + before == delivered
    ensures (emitted + out) + after == delivered + arrived
  {
    assert (emitted + out) + after == emitted + (out + after);
    assert emitted + (before + arrived) == (emitted + before) + arrived;
  }

  /** Whatever fails around it, a rank that never fails loses nothing, gains
      nothing and keeps its order. */
  lemma {:induction false} Conservation(calls: seq<Call>, unknown: nat, r: nat)
    requires r != unknown && forall c :: c in calls ==> r !in c.failed
    ensures From(Emitted(calls, unknown), r) + Buffered(State(calls, unknown), r) == Delivered(calls, r)
  {
    if calls != [] {
      var front, c := calls[..|calls| - 1], calls[|calls| - 1];
      Conservation(front, unknown, r);
      StateKeyed(front, unknown);
      StepMoves(State(front, unknown), c, unknown, r);
      FromConcat(Emitted(front, unknown), Output(front, c, unknown), r);
      Regroup(From(Emitted(front, unknown), r), From(Output(front, c, unknown), r),
              Buffered(State(calls, unknown), r), Buffered(State(front, unknown), r),
              if c.streamFound then From(c.batch, r) else [], Delivered(front, r));
    }
  }

  /** Packets of the unknown rank that come alone leave at once, all and in order. */
  lemma {:induction false} UnknownPassesThrough(calls: seq<Call>, unknown: nat)
    requires forall c :: c in calls && From(c.batch, unknown) != [] ==> LoneUnknown(c, unknown)
    ensures From(Emitted(calls, unknown), unknown) == Delivered(calls, unknown)
    ensures Buffered(State(calls, unknown), unknown) == []
  {
    if calls != [] {
      var front, c := calls[..|calls| - 1], calls[|calls| - 1];
      var s, out := State(front, unknown), Output(front, c, unknown);
      assert calls == front + [c] && forall d :: d in front ==> d in calls;
      assert c in calls;
      UnknownPassesThrough(front, unknown);
      StateKeyed(front, unknown);
      UnknownStep(s, c, unknown);
      FromConcat(Emitted(front, unknown), out, unknown);
    }
  }

  lemma UnknownStep(s: Slots, c: Call, unknown: nat)
    requires Keyed(s) && Buffered(s, unknown) == [] && (From(c.batch, unknown) != [] ==> LoneUnknown(c, unknown))
    ensures var (after, out) := Step(s, c, unknown);
            Buffered(after, unknown) == [] && From(out, unknown) == if c.streamFound then From(c.batch, unknown) else []
  {
    if c.streamFound && !LoneUnknown(c, unknown) {
      PlaceBuffers(s - c.failed, c.batch, c.failed, unknown);
      PlaceKeeps(s - c.failed, c.batch, c.failed);
      FromWave(Placed(s, c), unknown);
      PopBuffers(Placed(s, c), unknown);
    }
  }

  /** Nothing of a failed rank is kept, taken in or sent on, except a packet of the unknown
      rank that comes alone. Where the stream is missing, nothing changes at all. */
  lemma FailedLeavesNothing(s: Slots, c: Call, unknown: nat, r: nat)
    requires Keyed(s) && (c.streamFound ==> r in c.failed)
    ensures var (after, out) := Step(s, c, unknown);
            if c.streamFound then Buffered(after, r) == [] && (r != unknown ==> From(out, r) == [])
            else after == s && out == []
  {
    if !c.streamFound { return; }
    assert Buffered(s - c.failed, r) == [];
    if LoneUnknown(c, unknown) {
      assert c.batch[..0] == [];
    } else {
      PlaceBuffers(s - c.failed, c.batch, c.failed, r);
      PlaceKeeps(s - c.failed, c.batch, c.failed);
      FromWave(Placed(s, c), r);
      PopBuffers(Placed(s, c), r);
    }
  }

  // ------------------------------------------------------- when a wave is due

  /** The environment a stream promises: senders are children, and a child
      disappears only by failing, which is permanent. */
  ghost predicate Tracked(calls: seq<Call>, unknown: nat) {
    calls == [] ||
    var c := calls[|calls| - 1];
    && c.children !! c.failed
    && (LoneUnknown(c, unknown) || forall p :: p in c.batch ==> p.inlet in c.children + c.failed)
    && (|calls| > 1 ==>
          var b := calls[|calls| - 2];
          b.failed <= c.failed && b.children <= c.children + c.failed)
    && Tracked(calls[..|calls| - 1], unknown)
  }

  lemma {:induction false} SlotsOfChildren(calls: seq<Call>, c: Call, unknown: nat)
    requires Tracked(calls + [c], unknown)
    ensures State(calls, unknown).Keys <= c.children + c.failed
    ensures !LoneUnknown(c, unknown) ==> Placed(State(calls, unknown), c).Keys <= c.children
  {
    assert (calls + [c])[..|calls|] == calls;
    if calls != [] {
      var front, b := calls[..|calls| - 1], calls[|calls| - 1];
      assert calls == front + [b];
      SlotsOfChildren(front, b, unknown);
      var s := State(front, unknown);
      if b.streamFound && !LoneUnknown(b, unknown) && Fires(s, b) {
        PopBuffers(Placed(s, b), 0);
      }
    }
    StateKeyed(calls, unknown);
    PlaceKeeps(State(calls, unknown) - c.failed, c.batch, c.failed);
  }

  lemma {:induction false} HeadsAll(s: Slots, rs: seq<nat>)
    requires forall k :: 0 <= k < |rs| ==> rs[k] in s && s[rs[k]] != []
    ensures |Heads(s, rs)| == |rs|
    ensures forall k :: 0 <= k < |rs| ==> Heads(s, rs)[k] == s[rs[k]][0]
  {
    if rs != [] {
      HeadsAll(s, rs[..|rs| - 1]);
    }
  }

  lemma WaveOfChildren(s: Slots, children: set<nat>)
    requires s.Keys <= children && |Ready(s)| >= |children|
    ensures Ready(s) == children && s.Keys == children
    ensures |Wave(s)| == |children| == |Ascending(children)|
    ensures forall i :: 0 <= i < |children| ==>
              (var r := Ascending(children)[i]; r in s && s[r] != [] && Wave(s)[i] == s[r][0])
  {
    SubsetCardinality(Ready(s), children);
    AscendingLists(children);
    HeadsAll(s, Ascending(children));
  }

  /** On a stream that keeps this promise, comparing sizes decides readiness, and a
      wave is one packet of every live child in ascending order of rank. */
  lemma SizeTestExact(calls: seq<Call>, c: Call, unknown: nat)
    requires Tracked(calls + [c], unknown) && c.streamFound && !LoneUnknown(c, unknown)
    ensures Fires(State(calls, unknown), c) <==>
            forall r :: r in c.children ==> Buffered(Placed(State(calls, unknown), c), r) != []
    ensures Fires(State(calls, unknown), c) ==>
            var out := Output(calls, c, unknown);
            |out| == |c.children| == |Ascending(c.children)| &&
            forall i :: 0 <= i < |out| ==> out[i].inlet == Ascending(c.children)[i]
    ensures !Fires(State(calls, unknown), c) ==> Output(calls, c, unknown) == []
  {
    var s := State(calls, unknown);
    var placed := Placed(s, c);
    SlotsOfChildren(calls, c, unknown);
    StateKeyed(calls, unknown);
    assert Keyed(s - c.failed);
    PlaceKeeps(s - c.failed, c.batch, c.failed);
    if Fires(s, c) {
      WaveOfChildren(placed, c.children);
      forall i | 0 <= i < |c.children| ensures Wave(placed)[i].inlet == Ascending(c.children)[i] {
        assert Wave(placed)[i] in placed[Ascending(c.children)[i]];
      }
    } else if c.children <= Ready(placed) {
      SubsetCardinality(c.children, Ready(placed));
    }
  }

  lemma Halves<T>(a: set<T>, b: set<T>)
    ensures |a| == |a - b| + |a * b|
  {
    assert a == (a - b) + (a * b);
  }

  /** In any state and call at all: a wave leaves exactly if the ready ranks that are
      no children are at least as many as the children that are not ready. So the test
      is right exactly if every child is ready or those strays are fewer, and a wave
      never waits once every child is ready. */
  lemma SizeTestDecides(s: Slots, c: Call)
    ensures var ready := Ready(Placed(s, c));
            && (Fires(s, c) <==> |ready - c.children| >= |c.children - ready|)
            && ((Fires(s, c) <==> c.children <= ready) <==>
                  (c.children <= ready || |ready - c.children| < |c.children - ready|))
            && (c.children <= ready ==> Fires(s, c))
  {
    hide Placed, Ready;
    var ready := Ready(Placed(s, c));
    Halves(ready, c.children);
    Halves(c.children, ready);
    assert ready * c.children == c.children * ready;
    if c.children <= ready { assert c.children - ready == {}; }
  }

  /** The test does go wrong in a run without any failure: rank 3 leaves the stream
      between two calls, and its packet completes a wave although child 2 has sent
      nothing. */
  lemma StrayRankCompletesWave(a: Packet, b: Packet, unknown: nat)
    requires a.inlet == 1 && b.inlet == 3 && unknown !in {1, 3}
    ensures var first, c := Call([b], true, {}, {1, 3}), Call([a], true, {}, {1, 2});
            && Output([], first, unknown) == []
            && Output([first], c, unknown) == [a, b]
            && Buffered(Placed(State([first], unknown), c), 2) == []
  {
    var none: Slots, s: Slots := map[], map[3 := [b]];
    var first, c := Call([b], true, {}, {1, 3}), Call([a], true, {}, {1, 2});
    assert none - {} == none && s - {} == s;
    PlaceSingle(none, b, {});
    assert [] + [b] == [b];
    assert Placed(none, first) == s && Ready(s) == {3};
    assert [first][..0] == [] && State([first], unknown) == s;
    PlaceSingle(s, a, {});
    var placed := Placed(s, c);
    assert placed == PlaceOne(s, a, {}) && [] + [a] == [a];
    assert Ready(placed) == {1, 3};
    StrayWave(placed, a, b);
  }

  lemma PlaceSingle(s: Slots, p: Packet, failed: set<nat>)
    ensures Place(s, [p], failed) == PlaceOne(s, p, failed)
  {
    assert [p][..|[p]| - 1] == [];
    assert Place(s, [p][..|[p]| - 1], failed) == s;
  }

  lemma StrayWave(placed: Slots, a: Packet, b: Packet)
    requires placed == map[3 := [b]][1 := [a]]
    ensures Wave(placed) == [a, b]
  {
    OneAndThree();
    assert placed.Keys == {1, 3};
    assert [1, 3][..1] == [1] && [1][..0] == [];
    hide Ascending;
    assert Heads(placed, [1]) == [] + [a];
    assert Heads(placed, [1, 3]) == [a] + [b];
  }

  lemma OneAndThree()
    ensures Ascending({1, 3}) == [1, 3]
  {
    AscendingLists({1, 3});
    var r := Ascending({1, 3});
    assert |r| == 2 && r[0] in {1, 3} && r[1] in {1, 3} && r[0] < r[1];
  }

  // ------------------------------------------------------------- transposition

  /** A failure-free run over a fixed set of children. */
  ghost predicate Steady(calls: seq<Call>, children: set<nat>, unknown: nat) {
    && unknown !in children
    && forall c :: c in calls ==>
         && c.streamFound && c.batch != []
         && c.children == children && c.failed !! children
         && forall p :: p in c.batch ==> p.inlet in children
  }

  lemma SteadyPrefix(calls: seq<Call>, c: Call, children: set<nat>, unknown: nat)
    requires Steady(calls + [c], children, unknown)
    ensures Steady(calls, children, unknown)
    ensures c.streamFound && c.children == children && c.failed !! children && !LoneUnknown(c, unknown)
    ensures forall p :: p in c.batch ==> p.inlet in children
  {
    assert forall d :: d in calls ==> d in calls + [c];
    assert c in calls + [c];
    if |c.batch| == 1 { assert c.batch[0] in c.batch; }
  }

  lemma {:induction false} SteadySlots(calls: seq<Call>, children: set<nat>, unknown: nat)
    requires Steady(calls, children, unknown)
    ensures State(calls, unknown).Keys <= children
  {
    if calls != [] {
      var front, c := calls[..|calls| - 1], calls[|calls| - 1];
      assert calls == front + [c];
      SteadyPrefix(front, c, children, unknown);
      SteadySlots(front, children, unknown);
      SteadyPlaced(front, c, children, unknown);
      PopBuffers(Placed(State(front, unknown), c), 0);
    }
  }

  lemma SteadyPlaced(calls: seq<Call>, c: Call, children: set<nat>, unknown: nat)
    requires Steady(calls + [c], children, unknown)
    requires State(calls, unknown).Keys <= children
    ensures Placed(State(calls, unknown), c).Keys <= children
  {
    SteadyPrefix(calls, c, children, unknown);
    StateKeyed(calls, unknown);
    assert Keyed(State(calls, unknown) - c.failed);
    PlaceKeeps(State(calls, unknown) - c.failed, c.batch, c.failed);
  }

  /** What one call of a steady run does to the i-th child. */
  lemma SteadyStep(calls: seq<Call>, c: Call, children: set<nat>, unknown: nat, i: nat)
    requires Steady(calls + [c], children, unknown) && i < |children| == |Ascending(children)|
    ensures var r, out := Ascending(children)[i], Output(calls, c, unknown);
            && (out == [] || |out| == |children|)
            && (if i < |out| then [out[i]] else []) + Buffered(Step(State(calls, unknown), c, unknown).0, r)
               == Buffered(State(calls, unknown), r) + From(c.batch, r)
  {
    var s, r := State(calls, unknown), Ascending(children)[i];
    SteadyPrefix(calls, c, children, unknown);
    SteadySlots(calls, children, unknown);
    SteadyPlaced(calls, c, children, unknown);
    AscendingLists(children);
    PlaceBuffers(s - c.failed, c.batch, c.failed, r);
    if Fires(s, c) {
      WaveRow(Placed(s, c), children, i);
    }
  }

  lemma WaveRow(placed: Slots, children: set<nat>, i: nat)
    requires placed.Keys <= children && |Ready(placed)| >= |children|
    requires i < |children| == |Ascending(children)|
    ensures |Wave(placed)| == |children|
    ensures [Wave(placed)[i]] + Buffered(Pop(placed), Ascending(children)[i]) ==
            Buffered(placed, Ascending(children)[i])
  {
    WaveOfChildren(placed, children);
    PopBuffers(placed, Ascending(children)[i]);
  }

  function Column(waves: seq<seq<Packet>>, i: nat): seq<Packet> {
    if waves == [] then []
    else Column(waves[..|waves| - 1], i) + if i < |waves[|waves| - 1]| then [waves[|waves| - 1][i]] else []
  }

  lemma {:induction false} ColumnAt(waves: seq<seq<Packet>>, i: nat)
    requires forall k :: 0 <= k < |waves| ==> i < |waves[k]|
    ensures |Column(waves, i)| == |waves|
    ensures forall k :: 0 <= k < |waves| ==> Column(waves, i)[k] == waves[k][i]
  {
    if waves != [] {
      ColumnAt(waves[..|waves| - 1], i);
    }
  }

  lemma {:induction false} WavesAlign(calls: seq<Call>, children: set<nat>, unknown: nat, i: nat)
    requires Steady(calls, children, unknown) && i < |children| == |Ascending(children)|
    ensures forall k :: 0 <= k < |Waves(calls, unknown)| ==> |Waves(calls, unknown)[k]| == |children|
    ensures Delivered(calls, Ascending(children)[i]) ==
            Column(Waves(calls, unknown), i) + Buffered(State(calls, unknown), Ascending(children)[i])
  {
    if calls != [] {
      var front, c := calls[..|calls| - 1], calls[|calls| - 1];
      assert calls == front + [c];
      SteadyPrefix(front, c, children, unknown);
      WavesAlign(front, children, unknown, i);
      SteadyStep(front, c, children, unknown, i);
      var r := Ascending(children)[i];
      AlignStep(Waves(front, unknown), Output(front, c, unknown), |children|, i,
                Buffered(State(front, unknown), r), Buffered(State(calls, unknown), r),
                From(c.batch, r), Delivered(front, r));
      assert Waves(front, unknown) + [] == Waves(front, unknown);
    }
  }

  lemma AlignStep(waves: seq<seq<Packet>>, out: seq<Packet>, n: nat, i: nat,
                  before: seq<Packet>, after: seq<Packet>, arrived: seq<Packet>, delivered: seq<Packet>)
    requires i < n && (out == [] || |out| == n) && forall k :: 0 <= k < |waves| ==> |waves[k]| == n
    requires delivered == Column(waves, i) + before
    requires (if i < |out| then [out[i]] else []) + after == before + arrived
    ensures var next := if out == [] then waves else waves + [out];
            && (forall k :: 0 <= k < |next| ==> |next[k]| == n)
            && delivered + arrived == Column(next, i) + after
  {
    if out != [] { assert (waves + [out])[..|waves|] == waves; }
    Regroup(Column(waves, i), if i < |out| then [out[i]] else [], after, before, arrived, delivered);
  }

  /** The output is the transposition of the inputs: the k-th wave holds the
      k-th packet of every child, and every child has been served equally often. */
  lemma Transposition(calls: seq<Call>, children: set<nat>, unknown: nat)
    requires Steady(calls, children, unknown)
    ensures |Ascending(children)| == |children|
    ensures forall i :: 0 <= i < |children| ==>
              |From(Emitted(calls, unknown), Ascending(children)[i])| == |Waves(calls, unknown)|
              <= |Delivered(calls, Ascending(children)[i])|
    ensures forall k :: 0 <= k < |Waves(calls, unknown)| ==>
              (|Waves(calls, unknown)[k]| == |children| &&
               forall i :: 0 <= i < |children| ==>
                 Waves(calls, unknown)[k][i] == Delivered(calls, Ascending(children)[i])[k])
  {
    AscendingLists(children);
    var waves := Waves(calls, unknown);
    if calls != [] { SomeChild(calls, children, unknown); }
    forall i | 0 <= i < |children|
      ensures |From(Emitted(calls, unknown), Ascending(children)[i])| == |waves|
                <= |Delivered(calls, Ascending(children)[i])|
      ensures forall k :: 0 <= k < |waves| ==>
                (|waves[k]| == |children| && waves[k][i] == Delivered(calls, Ascending(children)[i])[k])
    {
      WavesAlign(calls, children, unknown, i);
      ColumnAt(waves, i);
      Conservation(calls, unknown, Ascending(children)[i]);
    }
  }

  lemma SomeChild(calls: seq<Call>, children: set<nat>, unknown: nat)
    requires Steady(calls, children, unknown) && calls != []
    ensures children != {}
  {
    assert calls[0] in calls;
    assert calls[0].batch[0].inlet in children;
  }

  // ------------------------------------------------------------------ backlog

  /** A wave leaves exactly when every child has delivered one packet more
      than there have been waves. */
  lemma WaveLaw(calls: seq<Call>, c: Call, children: set<nat>, unknown: nat)
    requires Steady(calls + [c], children, unknown)
    ensures |Waves(calls + [c], unknown)| == |Waves(calls, unknown)| +
            if forall r :: r in children ==> |Delivered(calls + [c], r)| > |Waves(calls, unknown)| then 1 else 0
  {
    var s, out := State(calls, unknown), Output(calls, c, unknown);
    assert (calls + [c])[..|calls|] == calls;
    SteadyPrefix(calls, c, children, unknown);
    SteadySlots(calls, children, unknown);
    SteadyPlaced(calls, c, children, unknown);
    SomeChild(calls + [c], children, unknown);
    forall r | r in children
      ensures |Delivered(calls + [c], r)| == |Waves(calls, unknown)| + |Buffered(Placed(s, c), r)|
    {
      ChildCount(calls, c, children, unknown, r);
    }
    if Fires(s, c) {
      WaveOfChildren(Placed(s, c), children);
    } else if children <= Ready(Placed(s, c)) {
      SubsetCardinality(children, Ready(Placed(s, c)));
    }
  }

  lemma ChildCount(calls: seq<Call>, c: Call, children: set<nat>, unknown: nat, r: nat)
    requires Steady(calls + [c], children, unknown) && r in children
    ensures |Delivered(calls + [c], r)| == |Waves(calls, unknown)| + |Buffered(Placed(State(calls, unknown), c), r)|
  {
    assert (calls + [c])[..|calls|] == calls;
    AscendingLists(children);
    var i :| 0 <= i < |children| && Ascending(children)[i] == r;
    SteadyPrefix(calls, c, children, unknown);
    WavesAlign(calls, children, unknown, i);
    ColumnAt(Waves(calls, unknown), i);
    PlaceBuffers(State(calls, unknown) - c.failed, c.batch, c.failed, r);
  }

  /** When a call never brings two packets of one rank, no complete wave is
      ever left waiting: some child has nothing buffered. */
  lemma {:induction false} NoWaveWaits(calls: seq<Call>, children: set<nat>, unknown: nat) returns (r: nat)
    requires Steady(calls, children, unknown) && children != {}
    requires forall c, q :: c in calls ==> |From(c.batch, q)| <= 1
    ensures r in children && Buffered(State(calls, unknown), r) == []
    ensures |Delivered(calls, r)| == |Waves(calls, unknown)|
  {
    if calls == [] {
      r :| r in children;
    } else {
      var front, c := calls[..|calls| - 1], calls[|calls| - 1];
      assert calls == front + [c];
      SteadyPrefix(front, c, children, unknown);
      r := NoWaveWaits(front, children, unknown);
      WaveLaw(front, c, children, unknown);
      assert c in calls;
      if q :| q in children && |Delivered(calls, q)| <= |Waves(front, unknown)| {
        r := q;
      }
      AscendingLists(children);
      var i :| 0 <= i < |children| && Ascending(children)[i] == r;
      WavesAlign(calls, children, unknown, i);
      ColumnAt(Waves(calls, unknown), i);
    }
  }

  // -------------------------------------------------- from the object to runs

  /** Whatever MRNet feeds a new filter, its output is the run's. */
  method Serve(calls: seq<Call>, unknown: nat) returns (emitted: seq<Packet>)
    requires forall c :: c in calls ==> c.batch != []
    ensures emitted == Emitted(calls, unknown)
  {
    var filter := new WaitForAll(unknown);
    emitted := [];
    for i := 0 to |calls|
      invariant fresh(filter) && filter.Valid() && filter.unknownRank == unknown
      invariant filter.slots == State(calls[..i], unknown) && emitted == Emitted(calls[..i], unknown)
    {
      assert calls[..i + 1][..i] == calls[..i];
      var out := filter.Filter(calls[i]);
      emitted := emitted + out;
    }
    assert calls[..|calls|] == calls;
  }
}
