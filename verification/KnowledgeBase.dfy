/**
 The vector index as the knowledge page lists it: the inventory of all stored points shows each
 ingested source once, with the number of chunks its last successful ingestion wrote.
 */
module KnowledgeBase {
  import opened Chunking
  import opened Ingestion
  import opened Options
  import V = Inventory

  /** What the inventory reads of a stored point. */
  function PayloadOf(p: Point): V.Payload {
    V.Payload(Some(p.chunk.documentId), V.Given(p.chunk.fileName), V.Given(p.chunk.sourcePath),
      V.Given(p.chunk.checksum),
      if p.chunk.page.Some? then V.Parsed(p.chunk.page.value) else V.NoPage)
  }

  predicate Known(index: Index, order: seq<string>) {
    forall id <- order :: id in index
  }

  predicate Distinct(order: seq<string>) {
    forall i, j :: 0 <= i < j < |order| ==> order[i] != order[j]
  }

  /** An order in which the collection may be scrolled: each point once. */
  ghost predicate Lists(order: seq<string>, index: Index) {
    Distinct(order) && Known(index, order) && forall id <- index :: id in order
  }

  function Stored(index: Index, order: seq<string>): (ps: seq<V.Payload>)
    requires Known(index, order)
    ensures |ps| == |order|
  {
    if order == [] then []
    else Stored(index, order[..|order| - 1]) + [PayloadOf(index[order[|order| - 1]])]
  }

  function IdsOf(index: Index, order: seq<string>, path: string): set<string>
    requires Known(index, order)
  {
    set id | id in order && index[id].chunk.sourcePath == path
  }

  /** Document ids tell sources apart, as long as their paths stay apart under folding. */
  lemma IdsTellSources(n: Naming, index: Index, paths: set<string>, id: string, path: string)
    requires Sound(n) && WellNamed(n, index) && Within(index, paths) && FoldsApart(n, paths) && path in paths &&
      id in index
    ensures index[id].chunk.documentId == DocumentId(n, path) <==> index[id].chunk.sourcePath == path
  {
    assert Named(n, id, index[id]);
    DocumentIdsFollowFolding(n, index[id].chunk.sourcePath, path);
  }

  lemma {:induction false} CountsTheSource(n: Naming, index: Index, order: seq<string>, paths: set<string>,
      path: string)
    requires Sound(n) && WellNamed(n, index) && Within(index, paths) && FoldsApart(n, paths) && path in paths
    requires Known(index, order) && Distinct(order)
    ensures V.Count(Stored(index, order), DocumentId(n, path)) == |IdsOf(index, order, path)|
    decreases |order|
  {
    if order == [] {
      assert IdsOf(index, order, path) == {};
    } else {
      var init, last := order[..|order| - 1], order[|order| - 1];
      CountsTheSource(n, index, init, paths, path);
      IdsTellSources(n, index, paths, last, path);
      OneMoreId(index, order, path);
      CountUnfold(Stored(index, init), PayloadOf(index[last]), DocumentId(n, path));
    }
  }

  lemma CountUnfold(ps: seq<V.Payload>, p: V.Payload, id: string)
    ensures V.Count(ps + [p], id) == V.Count(ps, id) + if p.documentId == Some(id) then 1 else 0
  {
    assert (ps + [p])[..|ps|] == ps;
  }

  lemma OneMoreId(index: Index, order: seq<string>, path: string)
    requires order != [] && Known(index, order) && Distinct(order)
    ensures
      var init, last := order[..|order| - 1], order[|order| - 1];
      |IdsOf(index, order, path)| == |IdsOf(index, init, path)| + if index[last].chunk.sourcePath == path then 1 else 0
  {
    var init, last := order[..|order| - 1], order[|order| - 1];
    assert order == init + [last] && last !in init;
    assert IdsOf(index, order, path) ==
      IdsOf(index, init, path) + if index[last].chunk.sourcePath == path then {last} else {};
  }

  lemma HeldIsCounted(index: Index, order: seq<string>, path: string)
    requires Lists(order, index)
    ensures |IdsOf(index, order, path)| == |Held(index, path)|
  {
    assert IdsOf(index, order, path) == Held(index, path).Keys;
  }

  lemma {:induction false} StoredAt(index: Index, order: seq<string>)
    requires Known(index, order)
    ensures forall i :: 0 <= i < |order| ==> Stored(index, order)[i] == PayloadOf(index[order[i]])
    decreases |order|
  {
    if order != [] {
      StoredAt(index, order[..|order| - 1]);
    }
  }

  /** A document id is listed exactly when its source holds points. */
  lemma ListedWhenHeld(n: Naming, index: Index, order: seq<string>, paths: set<string>, path: string)
    requires Sound(n) && WellNamed(n, index) && Within(index, paths) && FoldsApart(n, paths) && path in paths
    requires Lists(order, index)
    ensures DocumentId(n, path) in V.Ids(Stored(index, order)) <==> Held(index, path) != map[]
  {
    if DocumentId(n, path) in V.Ids(Stored(index, order)) {
      var id := PointOfListed(n, index, order, paths, path);
    }
    if Held(index, path) != map[] {
      var id :| id in Held(index, path);
      PointIsListed(n, index, order, paths, path, id);
    }
  }

  lemma PointOfListed(n: Naming, index: Index, order: seq<string>, paths: set<string>, path: string)
      returns (id: string)
    requires Sound(n) && WellNamed(n, index) && Within(index, paths) && FoldsApart(n, paths) && path in paths
    requires Known(index, order) && DocumentId(n, path) in V.Ids(Stored(index, order))
    ensures id in order && id in Held(index, path)
  {
    var ps := Stored(index, order);
    StoredAt(index, order);
    V.IdsAreThose(ps, DocumentId(n, path));
    var p :| p in ps && p.documentId == Some(DocumentId(n, path));
    var i :| 0 <= i < |ps| && ps[i] == p;
    id := order[i];
    IdsTellSources(n, index, paths, id, path);
  }

  lemma PointIsListed(n: Naming, index: Index, order: seq<string>, paths: set<string>, path: string, id: string)
    requires Sound(n) && WellNamed(n, index) && Within(index, paths) && FoldsApart(n, paths) && path in paths
    requires Known(index, order) && id in order && id in Held(index, path)
    ensures DocumentId(n, path) in V.Ids(Stored(index, order))
  {
    var ps := Stored(index, order);
    StoredAt(index, order);
    IdsTellSources(n, index, paths, id, path);
    var i :| 0 <= i < |order| && order[i] == id;
    assert ps[i] in ps && ps[i].documentId == Some(DocumentId(n, path));
    V.IdsAreThose(ps, DocumentId(n, path));
  }

  /**
   The inventory of everything stored, in whatever order it is scrolled, lists a source exactly when
   it holds points, once, with the number of points it holds.
   */
  lemma InventoryShowsTheIndex(
    n: Naming, index: Index, order: seq<string>, paths: set<string>, path: string, fold: string -> string)
    requires Sound(n) && WellNamed(n, index) && Within(index, paths) && FoldsApart(n, paths) && path in paths
    requires Lists(order, index)
    ensures
      var docs := V.DocumentInventory(fold, Stored(index, order));
      && ((exists d <- docs :: d.documentId == DocumentId(n, path)) <==> Held(index, path) != map[])
      && (forall d <- docs :: d.documentId == DocumentId(n, path) ==> d.chunkCount == |Held(index, path)|)
      && (forall i, j :: 0 <= i < j < |docs| ==> docs[i].documentId != docs[j].documentId)
  {
    var ps := Stored(index, order);
    V.InventoryIsComplete(fold, ps);
    ListedWhenHeld(n, index, order, paths, path);
    CountsTheSource(n, index, order, paths, path);
    HeldIsCounted(index, order, path);
    if Held(index, path) != map[] {
      assert V.Entry(ps, DocumentId(n, path)) in V.DocumentInventory(fold, ps);
    }
    OneEntryEach(fold, ps);
  }

  lemma OneEntryEach(fold: string -> string, ps: seq<V.Payload>)
    ensures
      var docs := V.DocumentInventory(fold, ps);
      forall i, j :: 0 <= i < j < |docs| ==> docs[i].documentId != docs[j].documentId
  {
    V.InventoryIsComplete(fold, ps);
    var docs := V.DocumentInventory(fold, ps);
    forall i, j | 0 <= i < j < |docs|
      ensures docs[i].documentId != docs[j].documentId
    {
      assert docs[i] in docs && docs[j] in docs;
      if docs[i].documentId == docs[j].documentId {
        assert V.Before(fold, docs[i], docs[j]);
        V.BeforeIsAnOrder(fold, docs[i], docs[j], docs[j]);
      }
    }
  }

  // ---------------------------------------------------------------- after an ingestion

  lemma {:induction false} UpsertedSize(index: Index, points: seq<Point>)
    requires DistinctIds(points) && forall p <- points :: p.chunk.id !in index
    ensures |Upserted(index, points)| == |index| + |points|
    decreases |points|
  {
    if points != [] {
      var next := index[points[0].chunk.id := points[0]];
      assert points[0] in points;
      assert next.Keys == index.Keys + {points[0].chunk.id};
      forall p | p in points[1..]
        ensures p.chunk.id !in next
      {
        var i :| 0 <= i < |points[1..]| && points[1..][i] == p;
        assert points[i + 1] == p;
      }
      UpsertedSize(next, points[1..]);
    }
  }

  /** The data every chunk of an attempt carries. */
  lemma ChunksCarryTheContent(n: Naming, s: Settings, a: Attempt, chunk: DocumentChunk)
    requires Valid(s) && a.content.Some? && chunk in ChunksOfAttempt(n, s, a)
    ensures chunk.fileName == a.content.value.fileName && chunk.checksum == a.content.value.checksum &&
      chunk.sourcePath == a.path
  {
    var chunks := ChunksOfAttempt(n, s, a);
    var i :| 0 <= i < |chunks| && chunks[i] == chunk;
    var page := ChunkAt(DocumentOf(n, a), Cutter(s), 0, 0, NamedIds(n.uuid), i);
  }

  lemma SuccessHoldsThatMany(n: Naming, s: Settings, index: Index, a: Attempt)
    requires Valid(s) && Sound(n) && PlainChecksum(a) && Ingest(index, n, s, a).1.Ingested?
    ensures |Held(Ingest(index, n, s, a).0, a.path)| == Ingest(index, n, s, a).1.chunks > 0
  {
    var points := PlanOf(n, s, a).points;
    PlannedPointsFit(n, s, a);
    SourceHoldsTheWrite(n, index, a, points);
    FittingIdsAreDistinct(n, a, points);
    UpsertedSize(map[], points);
  }

  /** Every point of the source says the same about its document. */
  ghost predicate Says(index: Index, path: string, meta: V.Meta) {
    forall id <- Held(index, path) :: V.MetaOf(PayloadOf(Held(index, path)[id])) == meta
  }

  lemma EntryIsListed(fold: string -> string, ps: seq<V.Payload>, id: string)
    requires id in V.Ids(ps)
    ensures exists d <- V.DocumentInventory(fold, ps) ::
      && d.documentId == id && d.meta == V.FirstMeta(ps, id) && d.chunkCount == V.Count(ps, id)
      && d.pageCount == |V.PagesOf(ps, id)|
  {
    V.InventoryIsComplete(fold, ps);
    assert V.Entry(ps, id) in V.DocumentInventory(fold, ps);
  }

  lemma FirstMetaIsSaid(n: Naming, index: Index, order: seq<string>, paths: set<string>, path: string, meta: V.Meta)
    requires Sound(n) && WellNamed(n, index) && Within(index, paths) && FoldsApart(n, paths) && path in paths
    requires Lists(order, index) && Says(index, path, meta) && DocumentId(n, path) in V.Ids(Stored(index, order))
    ensures V.FirstMeta(Stored(index, order), DocumentId(n, path)) == meta
  {
    var ps := Stored(index, order);
    StoredAt(index, order);
    var p := V.FirstMetaIsOne(ps, DocumentId(n, path));
    var i :| 0 <= i < |ps| && ps[i] == p;
    IdsTellSources(n, index, paths, order[i], path);
    assert order[i] in Held(index, path);
  }

  /** The pages the points of a source come from. */
  function PagesHeld(index: Index, path: string): set<int> {
    PagesOfPoints(Held(index, path))
  }

  lemma PagesAreListed(n: Naming, index: Index, order: seq<string>, paths: set<string>, path: string)
    requires Sound(n) && WellNamed(n, index) && Within(index, paths) && FoldsApart(n, paths) && path in paths
    requires Lists(order, index)
    ensures V.PagesOf(Stored(index, order), DocumentId(n, path)) == PagesHeld(index, path)
  {
    var ps, d := Stored(index, order), DocumentId(n, path);
    StoredAt(index, order);
    forall page | page in V.PagesOf(ps, d)
      ensures page in PagesHeld(index, path)
    {
      var p :| p in ps && p.documentId == Some(d) && p.page.Parsed? && p.page.number == page;
      var i :| 0 <= i < |ps| && ps[i] == p;
      IdsTellSources(n, index, paths, order[i], path);
      assert order[i] in Held(index, path);
    }
    forall page | page in PagesHeld(index, path)
      ensures page in V.PagesOf(ps, d)
    {
      var id :| id in Held(index, path) && Held(index, path)[id].chunk.page == Some(page);
      var i :| 0 <= i < |order| && order[i] == id;
      IdsTellSources(n, index, paths, id, path);
      assert ps[i] in ps && ps[i].page == V.Parsed(page);
    }
  }

  /** A source that holds points is listed with their number and pages and with what they all say. */
  lemma SourceIsListed(
    n: Naming, index: Index, order: seq<string>, paths: set<string>, path: string, meta: V.Meta, fold: string -> string)
    requires Sound(n) && WellNamed(n, index) && Within(index, paths) && FoldsApart(n, paths) && path in paths
    requires Lists(order, index) && Says(index, path, meta) && Held(index, path) != map[]
    ensures exists d <- V.DocumentInventory(fold, Stored(index, order)) ::
      && d.documentId == DocumentId(n, path) && d.meta == meta && d.chunkCount == |Held(index, path)|
      && d.pageCount == |PagesHeld(index, path)|
  {
    PagesAreListed(n, index, order, paths, path);
    ListedWhenHeld(n, index, order, paths, path);
    CountsTheSource(n, index, order, paths, path);
    HeldIsCounted(index, order, path);
    FirstMetaIsSaid(n, index, order, paths, path, meta);
    EntryIsListed(fold, Stored(index, order), DocumentId(n, path));
  }

  function PagesOfChunks(chunks: seq<DocumentChunk>): set<int> {
    set c | c in chunks && c.page.Some? :: c.page.value
  }

  lemma SuccessHoldsThePages(n: Naming, s: Settings, index: Index, a: Attempt)
    requires Valid(s) && Sound(n) && PlainChecksum(a) && Ingest(index, n, s, a).1.Ingested?
    ensures a.content.Some?
    ensures PagesHeld(Ingest(index, n, s, a).0, a.path) == PagesOfChunks(ChunksOfAttempt(n, s, a))
  {
    SuccessHoldsTheContent(n, s, index, a);
    SamePages(Held(Ingest(index, n, s, a).0, a.path), ChunksOfAttempt(n, s, a));
  }

  function PagesOfPoints(held: Index): set<int> {
    set id | id in held && held[id].chunk.page.Some? :: held[id].chunk.page.value
  }

  lemma SamePages(held: Index, chunks: seq<DocumentChunk>)
    requires forall i :: 0 <= i < |chunks| ==> chunks[i].id in held && held[chunks[i].id].chunk == chunks[i]
    requires forall id <- held :: held[id].chunk in chunks
    ensures PagesOfPoints(held) == PagesOfChunks(chunks)
  {
    forall page | page in PagesOfChunks(chunks)
      ensures page in PagesOfPoints(held)
    {
      var c :| c in chunks && c.page == Some(page);
      var i :| 0 <= i < |chunks| && chunks[i] == c;
      assert held[chunks[i].id].chunk.page == Some(page);
    }
  }

  function ContentMeta(a: Attempt): V.Meta
    requires a.content.Some?
  {
    V.Meta(a.content.value.fileName, a.path, a.content.value.checksum)
  }

  lemma SuccessSaysTheContent(n: Naming, s: Settings, index: Index, a: Attempt)
    requires Valid(s) && Sound(n) && PlainChecksum(a) && Ingest(index, n, s, a).1.Ingested?
    ensures a.content.Some? && Says(Ingest(index, n, s, a).0, a.path, ContentMeta(a))
  {
    SuccessHoldsTheContent(n, s, index, a);
    var held := Held(Ingest(index, n, s, a).0, a.path);
    forall id | id in held
      ensures V.MetaOf(PayloadOf(held[id])) == ContentMeta(a)
    {
      ChunksCarryTheContent(n, s, a, held[id].chunk);
    }
  }

  /**
   After a successful ingestion the knowledge page shows the document, by the name, path and
   checksum of its current content, with exactly the number of chunks the ingestion reported and the
   number of pages they come from.
   */
  lemma IngestedIsListed(
    n: Naming, s: Settings, index: Index, a: Attempt, paths: set<string>, order: seq<string>, fold: string -> string)
    requires Valid(s) && Sound(n) && PlainChecksum(a)
    requires WellNamed(n, index) && Within(index, paths) && a.path in paths && FoldsApart(n, paths)
    requires Ingest(index, n, s, a).1.Ingested? && Lists(order, Ingest(index, n, s, a).0)
    ensures a.content.Some?
    ensures exists d <- V.DocumentInventory(fold, Stored(Ingest(index, n, s, a).0, order)) ::
      && d.documentId == DocumentId(n, a.path) && d.meta == ContentMeta(a)
      && d.chunkCount == Ingest(index, n, s, a).1.chunks
      && d.pageCount == |PagesOfChunks(ChunksOfAttempt(n, s, a))|
  {
    IngestIsLocal(n, s, index, a, paths, a.path);
    SuccessHoldsThatMany(n, s, index, a);
    SuccessSaysTheContent(n, s, index, a);
    SuccessHoldsThePages(n, s, index, a);
    SourceIsListed(n, Ingest(index, n, s, a).0, order, paths, a.path, ContentMeta(a), fold);
  }
}
