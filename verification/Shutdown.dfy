/** The frontend's shutdown handshake: it leaves once as many acknowledgements
    have arrived as there are backends. */
module Shutdown {
  import opened StreamTags

  /** What one `recv` reports: nothing yet, an error, or a packet of some sender. */
  datatype Event = Nothing | Failure | Received(tag: int, sender: nat)

  datatype Ending = Waiting | Raised | Finished

  function Acknowledgements(events: seq<Event>): nat {
    if events == [] then 0
    else Acknowledgements(events[..|events| - 1]) +
         if IsAcknowledgement(events[|events| - 1]) then 1 else 0
  }

  predicate IsAcknowledgement(e: Event) {
    e.Received? && e.tag == ACKNOWLEDGE_SHUTDOWN
  }

  /** Only packets with tag 2 count, each once. */
  lemma WhatCounts(events: seq<Event>, e: Event)
    ensures Acknowledgements(events + [e]) == Acknowledgements(events) + if e.Received? && e.tag == 2 then 1 else 0
    ensures Acknowledgements([]) == 0
  {
    assert (events + [e])[..|events|] == events;
  }

  ghost function Acknowledgers(events: seq<Event>): set<nat> {
    set e | e in events && IsAcknowledgement(e) :: e.sender
  }

  ghost predicate OnlyBackends(events: seq<Event>, backends: set<nat>) {
    forall e :: e in events && IsAcknowledgement(e) ==> e.sender in backends
  }

  ghost predicate NoneTwice(events: seq<Event>) {
    forall i, j :: 0 <= i < j < |events| && IsAcknowledgement(events[i]) && IsAcknowledgement(events[j])
      ==> events[i].sender != events[j].sender
  }

  /** The destructor's loop over the events the stream delivers, of which it
      consumes a prefix. */
  method AwaitAcknowledgements(events: seq<Event>, endpoints: nat) returns (ending: Ending, used: nat)
    ensures used <= |events|
    ensures ending == Finished ==> Acknowledgements(events[..used]) == endpoints
    ensures ending == Finished ==> Failure !in events[..used]
    ensures ending == Waiting ==>
              used == |events| && Acknowledgements(events) < endpoints && Failure !in events
    ensures ending == Raised ==>
              0 < used && events[used - 1] == Failure && Acknowledgements(events[..used - 1]) < endpoints
  {
    var remaining := endpoints;
    used := 0;
    while remaining > 0
      invariant used <= |events| && 0 <= remaining && remaining + Acknowledgements(events[..used]) == endpoints
      invariant Failure !in events[..used]
      decreases |events| - used
    {
      if used == |events| {
        assert events[..used] == events;
        return Waiting, used;
      }
      var event := events[used];
      used := used + 1;
      assert events[..used][..used - 1] == events[..used - 1];
      assert events[..used] == events[..used - 1] + [event];
      if event == Failure {
        return Raised, used;
      }
      if event.Received? && event.tag == ACKNOWLEDGE_SHUTDOWN {
        remaining := remaining - 1;
      }
    }
    return Finished, used;
  }

  lemma AcknowledgersGrow(front: seq<Event>, last: Event)
    ensures Acknowledgers(front + [last]) ==
            Acknowledgers(front) + if IsAcknowledgement(last) then {last.sender} else {}
  {
    assert forall e :: e in front + [last] <==> e in front || e == last;
  }

  lemma AnswersTwice(front: seq<Event>, last: Event)
    ensures NoneTwice(front + [last]) <==>
            NoneTwice(front) && (IsAcknowledgement(last) ==> last.sender !in Acknowledgers(front))
  {
    var events := front + [last];
    if NoneTwice(events) {
      assert forall i :: 0 <= i < |front| ==> front[i] == events[i];
      if IsAcknowledgement(last) {
        forall e | e in front && IsAcknowledgement(e) ensures e.sender != last.sender {
          var i :| 0 <= i < |front| && front[i] == e;
          assert events[i] == e && events[|front|] == last;
        }
      }
    }
  }

  /** There are at most as many acknowledging senders as acknowledgements, and exactly as
      many if none comes twice from one sender. */
  lemma {:induction false} CountSenders(events: seq<Event>)
    ensures |Acknowledgers(events)| <= Acknowledgements(events)
    ensures |Acknowledgers(events)| == Acknowledgements(events) <==> NoneTwice(events)
  {
    hide Acknowledgers, NoneTwice, IsAcknowledgement;
    if events == [] {
      NoSenders();
    } else {
      var front, last := events[..|events| - 1], events[|events| - 1];
      assert events == front + [last];
      CountSenders(front);
      AcknowledgersGrow(front, last);
      AnswersTwice(front, last);
    }
  }

  lemma NoSenders()
    ensures Acknowledgers([]) == {} && NoneTwice([])
  {
  }

  /** Whatever else arrives in between, and as long as only backends acknowledge: counting
      to the number of backends means that every one of them has acknowledged, exactly if
      none did so twice. */
  lemma EveryBackendAcknowledged(events: seq<Event>, backends: set<nat>)
    requires OnlyBackends(events, backends) && Acknowledgements(events) == |backends|
    ensures Acknowledgers(events) <= backends
    ensures Acknowledgers(events) == backends <==> NoneTwice(events)
  {
    hide NoneTwice;
    CountSenders(events);
    if |Acknowledgers(events)| == |backends| { SameSize(Acknowledgers(events), backends); }
  }

  lemma {:induction false} SameSize(a: set<nat>, b: set<nat>)
    requires a <= b && |a| == |b|
    ensures a == b
  {
    assert |b - a| == |b| - |a|;
  }

  /** A backend that acknowledges twice lets the frontend leave without another one. */
  lemma DoubleAcknowledgementMisleads(x: nat, y: nat)
    requires x != y
    ensures var events := [Received(ACKNOWLEDGE_SHUTDOWN, x), Received(ACKNOWLEDGE_SHUTDOWN, x)];
            OnlyBackends(events, {x, y}) && Acknowledgements(events) == |{x, y}| && y !in Acknowledgers(events)
  {
    var e := Received(ACKNOWLEDGE_SHUTDOWN, x);
    assert [e, e][..1] == [e] && [e][..0] == [];
    assert Acknowledgements([e][..0]) == 0;
    assert Acknowledgements([e]) == 1;
  }
}
