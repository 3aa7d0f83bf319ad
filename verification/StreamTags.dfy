/** Message tags of named streams: a bijection between names and tags, declared
    in the document or drawn from one process-wide counter. Tags are offsets from
    the first tag MRNet leaves to applications. */
module StreamTags {
  import opened Wrappers

  const ESTABLISH_UPSTREAM := 0
  const REQUEST_SHUTDOWN := 1
  const ACKNOWLEDGE_SHUTDOWN := 2
  const SPECIFY_NAMED_STREAMS := 3
  const SPECIFY_BACKEND := 4
  const SPECIFY_FILTER := 5
  const DESTROY_NETWORK := 6
  const NETWORK_READY := 7
  const FIRST_NAMED_STREAM_TAG := 99

  type Tags = map<string, int>

  /** Names and tags determine each other, and no tag is a control tag. */
  ghost predicate Proper(m: Tags) {
    && (forall a, b :: a in m && b in m && m[a] == m[b] ==> a == b)
    && (forall a :: a in m ==> m[a] >= FIRST_NAMED_STREAM_TAG)
  }

  datatype Declaration = Declaration(name: string, tag: int)

  /** A document's `<Stream>` declarations and the names its streams use. */
  datatype Document = Document(declared: seq<Declaration>, used: seq<string>)

  // ------------------------------------------------------------------- meaning

  predicate Acceptable(m: Tags, x: Declaration) {
    x.name !in m && x.tag !in m.Values && x.tag >= FIRST_NAMED_STREAM_TAG
  }

  /** The declared streams, in order; None where a declaration is refused. */
  function Declared(xs: seq<Declaration>): (r: Option<Tags>)
    ensures r.Some? ==> Proper(r.value)
    ensures r.Some? ==> forall x :: x in xs ==> x.name in r.value && r.value[x.name] == x.tag
    ensures r.Some? ==> forall a :: a in r.value ==> Declaration(a, r.value[a]) in xs
  {
    if xs == [] then Some(map[])
    else
      var last := xs[|xs| - 1];
      match Declared(xs[..|xs| - 1])
      case None => None
      case Some(m) => if Acceptable(m, last) then Some(m[last.name := last.tag]) else None
  }

  /** No name and no tag is declared twice, and no tag is one of the first hundred. */
  ghost predicate AllFresh(xs: seq<Declaration>) {
    && (forall i :: 0 <= i < |xs| ==> xs[i].tag >= 99)
    && (forall i, j :: 0 <= i < j < |xs| ==> xs[i].name != xs[j].name && xs[i].tag != xs[j].tag)
  }

  /** That is exactly when the declarations are accepted. */
  lemma {:induction false} DeclaredExact(xs: seq<Declaration>)
    ensures Declared(xs).Some? <==> AllFresh(xs)
  {
    if xs != [] {
      var front, last := xs[..|xs| - 1], xs[|xs| - 1];
      DeclaredExact(front);
      FreshSnoc(front, last);
      assert xs == front + [last];
      if Declared(front).Some? { KnownNames(front, last); }
    }
  }

  lemma FreshSnoc(front: seq<Declaration>, last: Declaration)
    ensures AllFresh(front + [last]) <==>
              AllFresh(front) && last.tag >= 99 && forall x :: x in front ==> x.name != last.name && x.tag != last.tag
  {
    var xs := front + [last];
    assert xs[|front|] == last && forall i :: 0 <= i < |front| ==> xs[i] == front[i] && front[i] in front;
    if AllFresh(xs) {
      forall x | x in front ensures x.name != last.name && x.tag != last.tag {
        var i :| 0 <= i < |front| && front[i] == x;
        assert xs[i].name != xs[|front|].name;
      }
      assert forall i, j :: 0 <= i < j < |front| ==> xs[i].name != xs[j].name && xs[i].tag != xs[j].tag;
    }
  }

  lemma KnownNames(front: seq<Declaration>, last: Declaration)
    requires Declared(front).Some?
    ensures Acceptable(Declared(front).value, last) <==>
              last.tag >= 99 && forall x :: x in front ==> x.name != last.name && x.tag != last.tag
  {
    var m := Declared(front).value;
    if last.tag in m.Values {
      var a :| a in m && m[a] == last.tag;
      assert Declaration(a, m[a]) in front;
    }
    if last.name in m { assert Declaration(last.name, m[last.name]) in front; }
  }

  /** The smallest tag from `low` on that is not taken. */
  function FirstFree(taken: set<int>, low: int): (tag: int)
    ensures tag >= low && tag !in taken
    ensures forall t :: low <= t < tag ==> t in taken
    decreases |Above(taken, low)|
  {
    if low !in taken then low
    else
      StepUp(taken, low);
      FirstFree(taken, low + 1)
  }

  function Above(taken: set<int>, low: int): set<int> {
    set t | t in taken && t >= low
  }

  lemma StepUp(taken: set<int>, low: int)
    requires low in taken
    ensures |Above(taken, low + 1)| < |Above(taken, low)|
  {
    assert Above(taken, low) == Above(taken, low + 1) + {low};
  }

  /** A used name keeps its tag or gets the next free one; `counter` moves past it. */
  function Use(m: Tags, counter: nat, name: string): (r: (Tags, nat))
    requires Proper(m)
    ensures Proper(r.0) && name in r.0 && counter <= r.1
    ensures forall a :: a in m ==> a in r.0 && r.0[a] == m[a]
    ensures forall a :: a in r.0 && a !in m ==>
              a == name && FIRST_NAMED_STREAM_TAG + counter <= r.0[a] < FIRST_NAMED_STREAM_TAG + r.1
    ensures if name in m then r == (m, counter)
            else r.1 == r.0[name] - FIRST_NAMED_STREAM_TAG + 1
                 && r.0[name] !in m.Values
                 && forall t :: FIRST_NAMED_STREAM_TAG + counter <= t < r.0[name] ==> t in m.Values
  {
    if name in m then (m, counter)
    else
      var tag := FirstFree(m.Values, FIRST_NAMED_STREAM_TAG + counter);
      (m[name := tag], tag - FIRST_NAMED_STREAM_TAG + 1)
  }

  function UseAll(m: Tags, counter: nat, names: seq<string>): (r: (Tags, nat))
    requires Proper(m)
    ensures Proper(r.0)
  {
    if names == [] then (m, counter)
    else
      var (m1, c1) := UseAll(m, counter, names[..|names| - 1]);
      Use(m1, c1, names[|names| - 1])
  }

  lemma {:induction false} UseAllKeeps(m: Tags, counter: nat, names: seq<string>)
    requires Proper(m)
    ensures var (r, next) := UseAll(m, counter, names);
            && counter <= next
            && (forall a :: a in m ==> a in r && r[a] == m[a])
            && (forall a :: a in r && a !in m ==>
                  FIRST_NAMED_STREAM_TAG + counter <= r[a] < FIRST_NAMED_STREAM_TAG + next)
  {
    hide Proper, FirstFree;
    if names != [] {
      UseAllKeeps(m, counter, names[..|names| - 1]);
    }
  }

  lemma {:induction false} UseAllCovers(m: Tags, counter: nat, names: seq<string>)
    requires Proper(m)
    ensures UseAll(m, counter, names).0.Keys == m.Keys + set n | n in names
  {
    hide Proper, FirstFree;
    if names != [] {
      var front, last := names[..|names| - 1], names[|names| - 1];
      UseAllCovers(m, counter, front);
      assert names == front + [last];
      var (m1, c1) := UseAll(m, counter, front);
      assert UseAll(m, counter, names).0.Keys == m1.Keys + {last};
    }
  }

  /** The streams of a document; None if its declarations are refused. */
  function Streams(doc: Document, counter: nat): (r: Option<(Tags, nat)>)
    ensures r.Some? <==> Declared(doc.declared).Some?
  {
    match Declared(doc.declared)
    case None => None
    case Some(m) => Some(UseAll(m, counter, doc.used))
  }

  /** A document's streams: a proper bijection over exactly the declared and used
      names that keeps every declared tag; the tags drawn for the others lie in the
      document's own stretch of the counter. */
  lemma StreamsAreProper(doc: Document, counter: nat)
    requires Streams(doc, counter).Some?
    ensures var (m, next) := Streams(doc, counter).value;
            && Proper(m) && counter <= next
            && m.Keys == (set x | x in doc.declared :: x.name) + (set n | n in doc.used)
            && (forall x :: x in doc.declared ==> x.name in m && m[x.name] == x.tag)
            && (forall a :: a in m ==>
                  (Declaration(a, m[a]) in doc.declared
                   || FIRST_NAMED_STREAM_TAG + counter <= m[a] < FIRST_NAMED_STREAM_TAG + next))
  {
    hide Proper, UseAll;
    var m0 := Declared(doc.declared).value;
    UseAllKeeps(m0, counter, doc.used);
    UseAllCovers(m0, counter, doc.used);
    forall a | a in m0 ensures a in (set x | x in doc.declared :: x.name) {
      assert Declaration(a, m0[a]) in doc.declared;
    }
  }

  /** The streams of documents built one after the other in one process. */
  function AllStreams(docs: seq<Document>, counter: nat): (r: (seq<Option<Tags>>, nat))
    ensures |r.0| == |docs|
  {
    if docs == [] then ([], counter)
    else
      var (front, c) := AllStreams(docs[..|docs| - 1], counter);
      match Streams(docs[|docs| - 1], c)
      case None => (front + [None], c)
      case Some((m, next)) => (front + [Some(m)], next)
  }

  /** A tag of one document may be shared with another only if one declares it. */
  lemma {:induction false} DrawnTagsAreOwn(docs: seq<Document>, counter: nat, i: nat, j: nat, a: string, b: string)
    requires i < j < |docs|
    requires AllStreams(docs, counter).0[i].Some? && a in AllStreams(docs, counter).0[i].value
    requires AllStreams(docs, counter).0[j].Some? && b in AllStreams(docs, counter).0[j].value
    requires AllStreams(docs, counter).0[i].value[a] == AllStreams(docs, counter).0[j].value[b]
    ensures Declaration(a, AllStreams(docs, counter).0[i].value[a]) in docs[i].declared
            || Declaration(b, AllStreams(docs, counter).0[j].value[b]) in docs[j].declared
  {
    var low, low' := StretchStart(docs, counter, i), StretchStart(docs, counter, j);
    StretchOf(docs, counter, i);
    StretchOf(docs, counter, j);
    StreamsAreProper(docs[i], low);
    StreamsAreProper(docs[j], low');
    NextStretch(docs, counter, i);
    StretchesAscend(docs, counter, i, j);
  }

  /** The counter when document i is built. */
  ghost function StretchStart(docs: seq<Document>, counter: nat, i: nat): nat
    requires i <= |docs|
  {
    AllStreams(docs[..i], counter).1
  }

  /** Document i is built with the counter at the start of its stretch. */
  lemma {:induction false} StretchOf(docs: seq<Document>, counter: nat, i: nat)
    requires i < |docs|
    ensures var low := StretchStart(docs, counter, i);
            AllStreams(docs, counter).0[i] ==
            (if Streams(docs[i], low).Some? then Some(Streams(docs[i], low).value.0) else None)
    decreases |docs|
  {
    hide Streams;
    if i < |docs| - 1 {
      var front := docs[..|docs| - 1];
      assert front[..i] == docs[..i];
      StretchOf(front, counter, i);
    }
  }

  lemma NextStretch(docs: seq<Document>, counter: nat, i: nat)
    requires i < |docs|
    ensures var low := StretchStart(docs, counter, i);
            StretchStart(docs, counter, i + 1) ==
            (if Streams(docs[i], low).Some? then Streams(docs[i], low).value.1 else low)
    ensures StretchStart(docs, counter, i) <= StretchStart(docs, counter, i + 1)
  {
    hide Streams;
    var low := StretchStart(docs, counter, i);
    assert docs[..i + 1][..i] == docs[..i];
    if Streams(docs[i], low).Some? { StreamsAreProper(docs[i], low); }
  }

  lemma {:induction false} StretchesAscend(docs: seq<Document>, counter: nat, i: nat, j: nat)
    requires i < j <= |docs|
    ensures StretchStart(docs, counter, i + 1) <= StretchStart(docs, counter, j)
    decreases j - i
  {
    if i + 1 < j {
      NextStretch(docs, counter, i + 1);
      StretchesAscend(docs, counter, i + 1, j);
    }
  }

  // ----------------------------------------------------------------- the wire

  /** `insert` on a bidirectional map: a pair with a known name or tag is dropped. */
  function Insert(m: Tags, name: string, tag: int): Tags {
    if name in m || tag in m.Values then m else m[name := tag]
  }

  function InsertAll(names: seq<string>, tags: seq<int>): Tags
    requires |names| == |tags|
  {
    if names == [] then map[]
    else
      var n := |names| - 1;
      Insert(InsertAll(names[..n], tags[..n]), names[n], tags[n])
  }

  /** What a packet's two arrays decode to. */
  function Decode(names: seq<string>, tags: seq<int>): Tags {
    if |names| > 0 && |tags| > 0 && |names| == |tags| then InsertAll(names, tags) else map[]
  }

  /** The arrays list every pair exactly once. */
  ghost predicate Lists(names: seq<string>, tags: seq<int>, m: Tags) {
    && |names| == |tags|
    && (forall i :: 0 <= i < |names| ==> names[i] in m && m[names[i]] == tags[i])
    && (forall i, j :: 0 <= i < j < |names| ==> names[i] != names[j])
    && (forall a :: a in m ==> a in names)
  }

  lemma {:induction false} DecodeRestores(names: seq<string>, tags: seq<int>, m: Tags)
    requires Proper(m) && Lists(names, tags, m)
    ensures Decode(names, tags) == m
  {
    InsertsListed(names, tags, m);
    forall a | a in m ensures a in InsertAll(names, tags) {
      var i :| 0 <= i < |names| && names[i] == a;
    }
    assert InsertAll(names, tags) == m;
  }

  lemma {:induction false} InsertsListed(names: seq<string>, tags: seq<int>, m: Tags)
    requires Proper(m) && |names| == |tags|
    requires forall i :: 0 <= i < |names| ==> names[i] in m && m[names[i]] == tags[i]
    requires forall i, j :: 0 <= i < j < |names| ==> names[i] != names[j]
    ensures var r := InsertAll(names, tags);
            (forall i :: 0 <= i < |names| ==> names[i] in r) &&
            (forall a :: a in r ==> a in names && a in m && r[a] == m[a])
  {
    if names != [] {
      var n := |names| - 1;
      var front := InsertAll(names[..n], tags[..n]);
      InsertsListed(names[..n], tags[..n], m);
      forall a | a in front ensures front[a] != tags[n] {
        assert a in names[..n] && names[n] !in names[..n];
      }
    }
  }

  // ------------------------------------------------------------ the originals

  /** Yields its value and moves on, as one atomic step. */
  class AtomicCounter {
    var value: nat

    constructor (initial: nat)
      ensures value == initial
    {
      value := initial;
    }

    method Next() returns (v: nat)
      modifies this
      ensures v == old(value) && value == old(value) + 1
    {
      v := value;
      value := value + 1;
    }
  }

  class NamedStreams {
    var uid: int
    var tags: Tags

    ghost predicate Valid()
      reads this
    {
      Proper(tags)
    }

    constructor (uid: int)
      ensures Valid() && this.uid == uid && tags == map[]
    {
      this.uid, tags := uid, map[];
    }

    /** Declares one `<Stream>`; refuses a known name, a known tag or a control tag. */
    method ParseStreamDeclaration(x: Declaration) returns (ok: bool)
      requires Valid()
      modifies this`tags
      ensures Valid() && ok == Acceptable(old(tags), x)
      ensures tags == if ok then old(tags)[x.name := x.tag] else old(tags)
    {
      if x.name in tags {
        return false;
      } else if x.tag in tags.Values {
        return false;
      } else if x.tag < FIRST_NAMED_STREAM_TAG {
        return false;
      }
      tags := tags[x.name := x.tag];
      return true;
    }

    /** Gives a stream that has no tag yet the next one that is free here. */
    method ParseStream(name: string, offsets: AtomicCounter)
      requires Valid()
      modifies this`tags, offsets
      ensures Valid() && (tags, offsets.value) == Use(old(tags), old(offsets.value), name)
    {
      if name !in tags {
        var tag := DrawTag(tags.Values, offsets);
        tags := tags[name := tag];
      }
    }

    static method DrawTag(taken: set<int>, offsets: AtomicCounter) returns (tag: int)
      modifies offsets
      ensures tag == FirstFree(taken, FIRST_NAMED_STREAM_TAG + old(offsets.value))
      ensures offsets.value == tag - FIRST_NAMED_STREAM_TAG + 1
    {
      hide Above;
      var offset := offsets.Next();
      tag := FIRST_NAMED_STREAM_TAG + offset;
      while tag in taken
        invariant offsets.value == tag - FIRST_NAMED_STREAM_TAG + 1
        invariant FirstFree(taken, tag) == FirstFree(taken, FIRST_NAMED_STREAM_TAG + old(offsets.value))
        decreases |Above(taken, tag)|
      {
        StepUp(taken, tag);
        offset := offsets.Next();
        tag := FIRST_NAMED_STREAM_TAG + offset;
      }
    }

    /** Reads a document: declarations first, then every stream it uses. */
    method ParseDocument(doc: Document, offsets: AtomicCounter) returns (ok: bool)
      requires Valid() && tags == map[]
      modifies this`tags, offsets
      ensures Valid() && ok == Streams(doc, old(offsets.value)).Some?
      ensures ok ==> (tags, offsets.value) == Streams(doc, old(offsets.value)).value
      ensures !ok ==> offsets.value == old(offsets.value)
    {
      ok := ParseDeclarations(doc.declared);
      if ok {
        ParseUses(doc.used, offsets);
      }
    }

    method ParseDeclarations(xs: seq<Declaration>) returns (ok: bool)
      requires Valid() && tags == map[]
      modifies this`tags
      ensures Valid() && ok == Declared(xs).Some?
      ensures ok ==> tags == Declared(xs).value
    {
      for i := 0 to |xs|
        invariant Valid() && Declared(xs[..i]) == Some(tags)
      {
        assert xs[..i + 1][..i] == xs[..i];
        ok := ParseStreamDeclaration(xs[i]);
        if !ok {
          DeclaredPrefix(xs, i + 1);
          return;
        }
      }
      assert xs[..|xs|] == xs;
      ok := true;
    }

    method ParseUses(names: seq<string>, offsets: AtomicCounter)
      requires Valid()
      modifies this`tags, offsets
      ensures Valid() && (tags, offsets.value) == UseAll(old(tags), old(offsets.value), names)
    {
      hide Use, Proper;
      for i := 0 to |names|
        invariant Valid() && (tags, offsets.value) == UseAll(old(tags), old(offsets.value), names[..i])
      {
        assert names[..i + 1][..i] == names[..i];
        ParseStream(names[i], offsets);
      }
      assert names[..|names|] == names;
    }

    /** Fills the packet's arrays of names and tags. */
    method Encode() returns (names: seq<string>, values: seq<int>)
      requires Valid()
      ensures Lists(names, values, tags)
      ensures Decode(names, values) == tags
    {
      names, values := [], [];
      var todo := tags.Keys;
      while todo != {}
        invariant todo <= tags.Keys && |names| == |values|
        invariant forall i :: 0 <= i < |names| ==>
                    names[i] in tags && names[i] !in todo && tags[names[i]] == values[i]
        invariant forall i, j :: 0 <= i < j < |names| ==> names[i] != names[j]
        invariant forall a :: a in tags && a !in todo ==> a in names
        decreases |todo|
      {
        var name :| name in todo;
        names, values := names + [name], values + [tags[name]];
        todo := todo - {name};
      }
      DecodeRestores(names, values, tags);
    }

    /** Rebuilds the streams from a packet's arrays. */
    method ReadPacket(uid: int, names: seq<string>, values: seq<int>)
      requires tags == map[]
      modifies this
      ensures this.uid == uid && tags == Decode(names, values)
    {
      this.uid := uid;
      if |names| > 0 && |values| > 0 && |names| == |values| {
        for n := 0 to |names|
          invariant tags == InsertAll(names[..n], values[..n]) && this.uid == uid
        {
          assert names[..n + 1][..n] == names[..n] && values[..n + 1][..n] == values[..n];
          if names[n] !in tags && values[n] !in tags.Values {
            tags := tags[names[n] := values[n]];
          }
        }
        assert names[..|names|] == names && values[..|names|] == values;
      }
    }
  }

  lemma {:induction false} DeclaredPrefix(xs: seq<Declaration>, i: nat)
    requires i <= |xs| && Declared(xs[..i]) == None
    ensures Declared(xs) == None
    decreases |xs|
  {
    if i < |xs| {
      assert xs[..|xs| - 1][..i] == xs[..i];
      DeclaredPrefix(xs[..|xs| - 1], i);
    } else {
      assert xs[..i] == xs;
    }
  }
}
