/** Which version of a component type a network takes. */
module VersionChoice {
  import opened Wrappers
  import opened Ranks

  predicate Within(v: nat, minimum: Option<nat>, maximum: Option<nat>) {
    (minimum.Some? ==> minimum.value <= v) && (maximum.Some? ==> v <= maximum.value)
  }

  /** The latest version within the bounds, or none if there is none. */
  ghost predicate IsLatest(available: set<nat>, minimum: Option<nat>, maximum: Option<nat>, r: Option<nat>) {
    match r
    case None => forall v :: v in available ==> !Within(v, minimum, maximum)
    case Some(v) =>
      && v in available && Within(v, minimum, maximum)
      && forall w :: w in available && Within(w, minimum, maximum) ==> w <= v
  }

  /** The bounds as the code reads them, one after the other until one cannot be read;
      so a maximum without a minimum is never looked at. */
  function Read(minimum: Option<nat>, maximum: Option<nat>): (Option<nat>, Option<nat>) {
    if minimum == None then (None, None) else (minimum, maximum)
  }

  /** The attributes are None where they are missing or malformed; `available` are the
      versions registered for the type, by their rank. */
  method Choose(available: set<nat>, minimum: Option<nat>, maximum: Option<nat>) returns (r: Option<nat>)
    ensures var (low, high) := Read(minimum, maximum);
            forall q :: IsLatest(available, low, high, q) <==> q == r
  {
    r := Scan(available, minimum, maximum);
    var (low, high) := Read(minimum, maximum);
    forall q | IsLatest(available, low, high, q) ensures q == r {
      LatestIsUnique(available, low, high, q, r);
    }
  }

  method Scan(available: set<nat>, minimum: Option<nat>, maximum: Option<nat>) returns (r: Option<nat>)
    ensures var (low, high) := Read(minimum, maximum); IsLatest(available, low, high, r)
  {
    var low, high: Option<nat> := None, None;
    if minimum.Some? {
      low := minimum;
      if maximum.Some? { high := maximum; }
    }
    var versions := Ascending(available);
    AscendingLists(available);
    if low == None && high == None {
      // The factories of a type are kept in order, and the last one is taken.
      return if versions == [] then None else Some(versions[|versions| - 1]);
    }
    r := None;
    for i := 0 to |versions|
      invariant match r
                case None => forall k :: 0 <= k < i ==> !Within(versions[k], low, high)
                case Some(v) =>
                  && v in available && Within(v, low, high)
                  && forall k :: 0 <= k < i && Within(versions[k], low, high) ==> versions[k] <= v
    {
      var v := versions[i];
      if (low == None || v >= low.value) && (high == None || v <= high.value) && (r == None || v > r.value) {
        r := Some(v);
      }
    }
  }

  lemma LatestIsUnique(available: set<nat>, minimum: Option<nat>, maximum: Option<nat>, a: Option<nat>, b: Option<nat>)
    requires IsLatest(available, minimum, maximum, a) && IsLatest(available, minimum, maximum, b)
    ensures a == b
  {
  }

  /** The choice is the latest version within the bounds that the description states,
      exactly unless it states a maximum alone and a later version is available. */
  lemma BoundsKeptExact(available: set<nat>, minimum: Option<nat>, maximum: Option<nat>, r: Option<nat>)
    requires var (low, high) := Read(minimum, maximum); IsLatest(available, low, high, r)
    ensures IsLatest(available, minimum, maximum, r) <==>
            !(minimum == None && maximum.Some? && exists v :: v in available && v > maximum.value)
  {
    if minimum == None && maximum.Some? {
      if v :| v in available && v > maximum.value {
        assert Within(v, None, None);
        assert r.Some? && r.value >= v;
      } else {
        assert forall v :: v in available ==> (Within(v, minimum, maximum) <==> Within(v, None, None));
      }
    }
  }

  /** Version 2 is taken although the description allows at most version 1. */
  lemma MaximumAloneIsIgnored()
    ensures IsLatest({1, 2}, Read(None, Some(1)).0, Read(None, Some(1)).1, Some(2))
    ensures !IsLatest({1, 2}, None, Some(1), Some(2))
  {
    assert !Within(2, None, Some(1));
  }
}
