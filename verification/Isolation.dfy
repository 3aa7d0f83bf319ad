/** Networks that share one stream: each named its streams in one process, every
    filter was told the names in its own time, and still no handler of one network
    runs for a packet of another. */
module Isolation {
  import opened StreamTags
  import opened DepthGrammar
  import opened DepthSelection
  import opened FilterNode
  import opened FilterRuns

  /** The streams of every network, by its identifier. */
  type Book = map<int, Tags>

  ghost predicate Apart(book: Book) {
    && (forall uid :: uid in book ==> Proper(book[uid]))
    && (forall u, v, a, b ::
          (u in book && v in book && a in book[u] && b in book[v] && book[u][a] == book[v][b]) ==> u == v)
  }

  /** A packet that names streams names those of the book. */
  ghost predicate ByTheBook(book: Book, p: Packet) {
    p.SpecifyNamedStreams? ==> p.uid in book && Lists(p.names, p.tags, book[p.uid])
  }

  ghost predicate Follows(st: State, book: Book) {
    forall uid :: uid in st.networks ==> uid in book && st.networks[uid].streams == book[uid]
  }

  lemma ByTheBookIsGood(book: Book, p: Packet)
    requires Apart(book) && ByTheBook(book, p)
    ensures Good(p)
    ensures p.SpecifyNamedStreams? ==> Decode(p.names, p.tags) == book[p.uid]
  {
    if p.SpecifyNamedStreams? {
      DecodeRestores(p.names, p.tags, book[p.uid]);
    }
  }

  lemma HandlingFollows(book: Book, st: State, p: Packet, topo: Topology, world: World)
    requires Apart(book) && ByTheBook(book, p) && Sound(st) && Follows(st, book)
    ensures Sound(HandleDown(st, p, topo, world).0) && Follows(HandleDown(st, p, topo, world).0, book)
  {
    ByTheBookIsGood(book, p);
    HandlingKeepsSound(st, p, topo, world);
    hide Run, WithTag, SelectedBy, Bind, WithoutUid, Decode, Sound, Apart, ByTheBook, Good;
  }

  lemma {:induction false} BatchFollows(book: Book, st: State, batch: seq<Packet>, topo: Topology, world: World)
    requires Apart(book) && (forall i :: 0 <= i < |batch| ==> ByTheBook(book, batch[i]))
    requires Sound(st) && Follows(st, book)
    ensures Sound(DownBatch(st, batch, topo, world).0) && Follows(DownBatch(st, batch, topo, world).0, book)
  {
    hide Apart, ByTheBook, Sound, Follows, HandleDown;
    if batch != [] {
      BatchFollows(book, st, batch[..|batch| - 1], topo, world);
      HandlingFollows(book, DownBatch(st, batch[..|batch| - 1], topo, world).0, batch[|batch| - 1], topo, world);
    }
  }

  ghost predicate AllByTheBook(book: Book, actions: seq<Action>) {
    forall a, i :: a in actions && a.CallDown? && 0 <= i < |a.batch| ==> ByTheBook(book, a.batch[i])
  }

  lemma ActFollows(book: Book, st: State, a: Action, topo: Topology, world: World)
    requires Apart(book) && Sound(st) && Follows(st, book)
    requires a.CallDown? ==> forall i :: 0 <= i < |a.batch| ==> ByTheBook(book, a.batch[i])
    ensures Sound(Act(st, a, topo, world).state) && Follows(Act(st, a, topo, world).state, book)
  {
    hide DownBatch, UpBatch, ByTheBook;
    match a
    case PushUp(tag, body) =>
    case PushDown(tag, body) =>
    case CallUp(batch) =>
      UpBatchKeepsNetworks(st, batch, world);
      UpCallSendsData(st, batch, world);
    case CallDown(batch) => BatchFollows(book, st, batch, topo, world);
  }

  lemma {:induction false} RunFollows(book: Book, actions: seq<Action>, topo: Topology, world: World)
    requires Apart(book) && AllByTheBook(book, actions)
    ensures Sound(Acts(FRESH, actions, topo, world)) && Follows(Acts(FRESH, actions, topo, world), book)
  {
    hide Act, Apart, ByTheBook;
    if actions != [] {
      var front, a := actions[..|actions| - 1], actions[|actions| - 1];
      assert AllByTheBook(book, front) by { assert forall x :: x in front ==> x in actions; }
      hide Sound, Follows;
      RunFollows(book, front, topo, world);
      ActFollows(book, Acts(FRESH, front, topo, world), a, topo, world);
    }
  }

  /** Over any run of a filter process, whatever order the networks come and go in:
      every handler found for a tag belongs to the one network whose book lists it. */
  lemma OnlyTheOwnerRuns(book: Book, actions: seq<Action>, topo: Topology, world: World, tag: int, r: Row, owner: int)
    requires Apart(book) && AllByTheBook(book, actions)
    requires owner in book && tag in book[owner].Values
    requires var st := Acts(FRESH, actions, topo, world);
             r in WithTag(st.upRows, tag) || r in WithTag(st.downRows, tag)
    ensures r.uid == owner && r.tag == tag
    ensures tag >= FIRST_NAMED_STREAM_TAG
  {
    hide Acts, AllByTheBook;
    var st := Acts(FRESH, actions, topo, world);
    RunFollows(book, actions, topo, world);
    WithTagKeeps(st.upRows, tag);
    WithTagKeeps(st.downRows, tag);
    OwnedByMember(st, st.upRows);
    OwnedByMember(st, st.downRows);
    assert OwnedRow(st, r);
    assert book[r.uid][r.name] == tag;
    var b :| b in book[owner] && book[owner][b] == tag;
  }

  /** No document declares a tag that another document's streams use. */
  ghost predicate NoClash(docs: seq<Document>, counter: nat) {
    forall i, j, a, tag ::
      (0 <= i < |docs| && 0 <= j < |docs| && i != j && Declaration(a, tag) in docs[i].declared
       && AllStreams(docs, counter).0[j].Some?) ==> tag !in AllStreams(docs, counter).0[j].value.Values
  }

  /** The book of the documents that were accepted, numbered in order. */
  ghost function BookOf(docs: seq<Document>, counter: nat): Book {
    map i | 0 <= i < |docs| && AllStreams(docs, counter).0[i].Some? :: AllStreams(docs, counter).0[i].value
  }

  /** Unless a declared tag clashes, all streams of one process are kept apart. */
  lemma DocumentsAreApart(docs: seq<Document>, counter: nat)
    requires NoClash(docs, counter)
    ensures Apart(BookOf(docs, counter))
  {
    var book := BookOf(docs, counter);
    forall uid | uid in book ensures Proper(book[uid]) {
      StretchOf(docs, counter, uid);
      StreamsAreProper(docs[uid], StretchStart(docs, counter, uid));
    }
    forall u, v, a, b | u in book && v in book && a in book[u] && b in book[v] && book[u][a] == book[v][b]
      ensures u == v
    {
      if u < v {
        Separate(docs, counter, u, v, a, b);
      } else if v < u {
        Separate(docs, counter, v, u, b, a);
      }
    }
  }

  lemma Separate(docs: seq<Document>, counter: nat, i: nat, j: nat, a: string, b: string)
    requires NoClash(docs, counter) && i < j < |docs|
    requires AllStreams(docs, counter).0[i].Some? && a in AllStreams(docs, counter).0[i].value
    requires AllStreams(docs, counter).0[j].Some? && b in AllStreams(docs, counter).0[j].value
    ensures AllStreams(docs, counter).0[i].value[a] != AllStreams(docs, counter).0[j].value[b]
  {
    hide AllStreams;
    if AllStreams(docs, counter).0[i].value[a] == AllStreams(docs, counter).0[j].value[b] {
      DrawnTagsAreOwn(docs, counter, i, j, a, b);
    }
  }
}
