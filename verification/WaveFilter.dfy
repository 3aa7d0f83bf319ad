/** The wait-for-all synchronization filter: packets are buffered per sending
    rank and leave in waves that hold one packet of every ready rank. */
module WaveFilter {
  import opened Ranks

  datatype Packet = Packet(inlet: nat, tag: int, body: int)

  /** What the environment shows the filter in one invocation. */
  datatype Call = Call(batch: seq<Packet>, streamFound: bool, failed: set<nat>, children: set<nat>)

  type Slots = map<nat, seq<Packet>>

  // ---------------------------------------------------------------- meaning

  function Buffered(s: Slots, r: nat): seq<Packet> {
    if r in s then s[r] else []
  }

  function Ready(s: Slots): set<nat> {
    set r | r in s && s[r] != []
  }

  /** Every buffered packet sits in the slot of the rank that sent it. */
  ghost predicate Keyed(s: Slots) {
    forall r: nat, p: Packet :: r in s && p in s[r] ==> p.inlet == r
  }

  function PlaceOne(s: Slots, p: Packet, failed: set<nat>): Slots {
    if p.inlet in failed then s else s[p.inlet := Buffered(s, p.inlet) + [p]]
  }

  function Place(s: Slots, batch: seq<Packet>, failed: set<nat>): Slots {
    if batch == [] then s
    else PlaceOne(Place(s, batch[..|batch| - 1], failed), batch[|batch| - 1], failed)
  }

  /** The oldest packet of every listed rank that has one. */
  function Heads(s: Slots, rs: seq<nat>): seq<Packet> {
    if rs == [] then []
    else Heads(s, rs[..|rs| - 1]) + Head(s, rs[|rs| - 1])
  }

  function Head(s: Slots, r: nat): seq<Packet> {
    if Buffered(s, r) == [] then [] else [Buffered(s, r)[0]]
  }

  function PopOne(s: Slots, r: nat): Slots {
    if Buffered(s, r) == [] then s else s[r := s[r][1..]]
  }

  function PopEach(s: Slots, rs: seq<nat>): Slots {
    if rs == [] then s else PopOne(PopEach(s, rs[..|rs| - 1]), rs[|rs| - 1])
  }

  function Wave(s: Slots): seq<Packet> {
    Heads(s, Ascending(s.Keys))
  }

  function Pop(s: Slots): Slots {
    PopEach(s, Ascending(s.Keys))
  }

  predicate LoneUnknown(c: Call, unknown: nat) {
    |c.batch| == 1 && c.batch[0].inlet == unknown
  }

  /** The slots once purging and placing are done. */
  function Placed(s: Slots, c: Call): Slots {
    Place(s - c.failed, c.batch, c.failed)
  }

  predicate Fires(s: Slots, c: Call) {
    |Ready(Placed(s, c))| >= |c.children|
  }

  function Step(s: Slots, c: Call, unknown: nat): (Slots, seq<Packet>) {
    if !c.streamFound then (s, [])
    else if LoneUnknown(c, unknown) then (s - c.failed, c.batch)
    else if Fires(s, c) then (Pop(Placed(s, c)), Wave(Placed(s, c)))
    else (Placed(s, c), [])
  }

  // ------------------------------------------------------ the filter itself

  class WaitForAll {
    const unknownRank: nat
    var started: bool
    var slots: Slots
    var ready: set<nat>

    /** The ready set is exactly the set of ranks with a non-empty queue. */
    ghost predicate Valid()
      reads this
    {
      && Keyed(slots)
      && ready == Ready(slots)
      && (!started ==> slots == map[])
    }

    constructor (unknownRank: nat)
      ensures Valid() && slots == map[] && this.unknownRank == unknownRank
    {
      this.unknownRank := unknownRank;
      started, slots, ready := false, map[], {};
    }

    method Filter(call: Call) returns (out: seq<Packet>)
      requires Valid() && call.batch != []
      modifies this
      ensures Valid()
      ensures (slots, out) == Step(old(slots), call, unknownRank)
    {
      out := [];
      if !call.streamFound { return; }
      if !started {
        started := true;
        assert slots - call.failed == slots;
      } else {
        DiscardFailed(call.failed);
      }
      if call.batch[0].inlet == unknownRank && |call.batch| == 1 {
        out := [call.batch[0]];
        assert out == call.batch;
        return;
      }
      PlacePackets(call.batch, call.failed);
      if |ready| < |call.children| { return; }
      out := PopWave();
    }

    method DiscardFailed(failed: set<nat>)
      requires Valid() && started
      modifies this`slots, this`ready
      ensures Valid() && slots == old(slots) - failed
    {
      var ranks := Ascending(slots.Keys);
      for i := 0 to |ranks|
        invariant Valid() && slots == Discard(old(slots), ranks[..i], failed)
      {
        assert ranks[..i + 1][..i] == ranks[..i];
        if ranks[i] in failed {
          DropSlot(slots, ranks[i]);
          slots := slots - {ranks[i]};
          ready := ready - {ranks[i]};
        }
      }
      assert ranks[..|ranks|] == ranks;
      DiscardAll(old(slots), failed);
    }

    method PlacePackets(batch: seq<Packet>, failed: set<nat>)
      requires Valid() && started
      modifies this`slots, this`ready
      ensures Valid() && slots == Place(old(slots), batch, failed)
    {
      for i := 0 to |batch|
        invariant Valid() && slots == Place(old(slots), batch[..i], failed)
      {
        assert batch[..i + 1][..i] == batch[..i];
        if batch[i].inlet !in failed {
          PlacePacket(batch[i]);
        }
      }
      assert batch[..|batch|] == batch;
    }

    method PlacePacket(p: Packet)
      requires Valid() && started
      modifies this`slots, this`ready
      ensures Valid() && slots == PlaceOne(old(slots), p, {})
    {
      var r := p.inlet;
      UpdateSlot(slots, r, Buffered(slots, r) + [p]);
      if r !in slots {
        slots := slots[r := []];
      }
      slots := slots[r := slots[r] + [p]];
      ready := ready + {r};
    }

    method PopWave() returns (out: seq<Packet>)
      requires Valid() && started
      modifies this`slots, this`ready
      ensures Valid()
      ensures slots == Pop(old(slots)) && out == Wave(old(slots))
    {
      ghost var s0 := slots;
      var ranks := Ascending(slots.Keys);
      out := [];
      for i := 0 to |ranks|
        invariant Valid()
        invariant slots == PopEach(s0, ranks[..i]) && out == Heads(s0, ranks[..i])
      {
        assert ranks[..i + 1][..i] == ranks[..i];
        NotYetPopped(s0, i);
        var head := PopSlot(ranks[i]);
        out := out + head;
      }
      assert ranks[..|ranks|] == ranks;
    }

    method PopSlot(r: nat) returns (head: seq<Packet>)
      requires Valid() && started && r in slots
      modifies this`slots, this`ready
      ensures Valid() && slots == PopOne(old(slots), r) && head == Head(old(slots), r)
    {
      if slots[r] == [] { return []; }
      head := [slots[r][0]];
      DropHead(slots, r);
      slots := slots[r := slots[r][1..]];
      if slots[r] == [] {
        ready := ready - {r};
      }
    }
  }

  ghost function Discard(s: Slots, rs: seq<nat>, failed: set<nat>): Slots {
    if rs == [] then s
    else
      var t, r := Discard(s, rs[..|rs| - 1], failed), rs[|rs| - 1];
      if r in failed then t - {r} else t
  }

  lemma {:induction false} DiscardSome(s: Slots, rs: seq<nat>, failed: set<nat>)
    ensures Discard(s, rs, failed) == s - (set r | r in failed && r in rs)
  {
    if rs != [] {
      var front, last := rs[..|rs| - 1], rs[|rs| - 1];
      DiscardSome(s, front, failed);
      assert rs == front + [last];
    }
  }

  lemma DiscardAll(s: Slots, failed: set<nat>)
    ensures Discard(s, Ascending(s.Keys), failed) == s - failed
  {
    DiscardSome(s, Ascending(s.Keys), failed);
    AscendingLists(s.Keys);
  }

  // The bookkeeping follows every change of one slot.

  lemma UpdateSlot(s: Slots, r: nat, q: seq<Packet>)
    requires Keyed(s) && forall p :: p in q ==> p.inlet == r
    ensures Keyed(s[r := q])
    ensures Ready(s[r := q]) == if q == [] then Ready(s) - {r} else Ready(s) + {r}
  {
  }

  lemma DropSlot(s: Slots, r: nat)
    requires Keyed(s)
    ensures Keyed(s - {r}) && Ready(s - {r}) == Ready(s) - {r}
  {
  }

  lemma DropHead(s: Slots, r: nat)
    requires Keyed(s) && Buffered(s, r) != []
    ensures Keyed(PopOne(s, r))
    ensures Ready(PopOne(s, r)) == if s[r][1..] == [] then Ready(s) - {r} else Ready(s)
  {
    UpdateSlot(s, r, s[r][1..]);
  }

  lemma {:induction false} PopEachAt(s: Slots, rs: seq<nat>, r: nat)
    requires forall i, j :: 0 <= i < j < |rs| ==> rs[i] != rs[j]
    ensures PopEach(s, rs).Keys == s.Keys
    ensures Buffered(PopEach(s, rs), r) ==
            if r in rs && Buffered(s, r) != [] then Buffered(s, r)[1..] else Buffered(s, r)
  {
    if rs != [] {
      var front, last := rs[..|rs| - 1], rs[|rs| - 1];
      PopEachAt(s, front, r);
      PopEachAt(s, front, last);
      assert rs == front + [last];
      assert last !in front;
    }
  }

  lemma NotYetPopped(s: Slots, i: nat)
    requires i < |Ascending(s.Keys)|
    ensures var r := Ascending(s.Keys)[i];
            r in s && r in PopEach(s, Ascending(s.Keys)[..i]) &&
            PopEach(s, Ascending(s.Keys)[..i])[r] == s[r]
  {
    AscendingLists(s.Keys);
    PopEachAt(s, Ascending(s.Keys)[..i], Ascending(s.Keys)[i]);
  }
}
