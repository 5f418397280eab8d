/**
 Replacing what the vector index holds of one source: the points with its path are deleted, then the
 points of its current content are written. Reading, embedding and each call of the index can fail,
 and a failed call may or may not have taken effect.
 */
module Ingestion {
  import opened Chunking
  import opened Options

  // ---------------------------------------------------------------- names

  /** How names are hashed, and how paths are folded before they are. */
  datatype Naming = Naming(uuid: string -> string, fold: string -> string)

  const DOCUMENT_PREFIX := "orbyntiq-document:"

  function DocumentId(n: Naming, path: string): string {
    n.uuid(DOCUMENT_PREFIX + n.fold(path))
  }

  /** Name-based UUIDs are taken to be injective, and are written without colons. */
  ghost predicate Sound(n: Naming) {
    Injective(n.uuid) && forall name :: ':' !in n.uuid(name)
  }

  lemma DocumentIdsFollowFolding(n: Naming, p: string, q: string)
    requires Sound(n)
    ensures DocumentId(n, p) == DocumentId(n, q) <==> n.fold(p) == n.fold(q)
  {
    var a, b := DOCUMENT_PREFIX + n.fold(p), DOCUMENT_PREFIX + n.fold(q);
    if DocumentId(n, p) == DocumentId(n, q) {
      assert a == b;
      assert n.fold(p) == a[|DOCUMENT_PREFIX|..] && n.fold(q) == b[|DOCUMENT_PREFIX|..];
    }
  }

  // ---------------------------------------------------------------- the index

  datatype Point = Point(chunk: DocumentChunk, vector: seq<real>)

  type Index = map<string, Point>

  /** The points of one source. */
  function Held(index: Index, path: string): Index {
    map id | id in index && index[id].chunk.sourcePath == path :: index[id]
  }

  function WithoutSource(index: Index, path: string): Index {
    map id | id in index && index[id].chunk.sourcePath != path :: index[id]
  }

  function Upserted(index: Index, points: seq<Point>): Index
    decreases |points|
  {
    if points == [] then index else Upserted(index[points[0].chunk.id := points[0]], points[1..])
  }

  // ---------------------------------------------------------------- one ingestion

  datatype CallOutcome = Works | Fails(applied: bool)

  /** What is read from a file. */
  datatype Content = Content(fileName: string, checksum: string, sections: seq<Section>)

  /** One call of ingest: the path, what loading and embedding give, and how the calls of the index come out. */
  datatype Attempt = Attempt(
    path: string,
    content: Option<Content>,
    vectors: Option<seq<seq<real>>>,
    collection: bool,
    deletion: CallOutcome,
    upsert: CallOutcome)

  datatype Result =
    | Ingested(documentId: string, checksum: string, chunks: nat)
    | NotLoaded
    | NoChunks
    | NotEmbedded
    | WrongCount
    | NoCollection
    | NotDeleted
    | NotUpserted

  function DocumentOf(n: Naming, a: Attempt): SourceDocument
    requires a.content.Some?
  {
    var c := a.content.value;
    SourceDocument(DocumentId(n, a.path), a.path, c.fileName, c.checksum, c.sections)
  }

  function ChunksOfAttempt(n: Naming, s: Settings, a: Attempt): seq<DocumentChunk>
    requires Valid(s) && a.content.Some?
  {
    ChunksOf(DocumentOf(n, a), s, NamedIds(n.uuid))
  }

  function Zip(chunks: seq<DocumentChunk>, vectors: seq<seq<real>>): (points: seq<Point>)
    requires |chunks| == |vectors|
    ensures |points| == |chunks|
    ensures forall i :: 0 <= i < |points| ==> points[i].chunk == chunks[i] && points[i].vector == vectors[i]
  {
    if chunks == [] then [] else [Point(chunks[0], vectors[0])] + Zip(chunks[1..], vectors[1..])
  }

  /** What an attempt is about to write, or why it gets no further than reading. */
  datatype Plan = Stops(result: Result) | Writes(points: seq<Point>)

  function PlanOf(n: Naming, s: Settings, a: Attempt): Plan
    requires Valid(s)
  {
    if a.content.None? then Stops(NotLoaded)
    else
      var chunks := ChunksOfAttempt(n, s, a);
      if chunks == [] then Stops(NoChunks)
      else if a.vectors.None? then Stops(NotEmbedded)
      else if |a.vectors.value| != |chunks| then Stops(WrongCount)
      else if !a.collection then Stops(NoCollection)
      else Writes(Zip(chunks, a.vectors.value))
  }

  function TookEffect(c: CallOutcome): bool {
    c.Works? || c.applied
  }

  function AfterDelete(index: Index, a: Attempt): Index {
    if TookEffect(a.deletion) then WithoutSource(index, a.path) else index
  }

  function AfterUpsert(index: Index, a: Attempt, points: seq<Point>): Index {
    if TookEffect(a.upsert) then Upserted(index, points) else index
  }

  /** Carries a plan out: the delete, then the write. */
  function CarryOut(index: Index, n: Naming, a: Attempt, plan: Plan): (Index, Result)
    requires plan.Writes? ==> a.content.Some?
  {
    match plan
    case Stops(result) => (index, result)
    case Writes(points) =>
      var deleted := AfterDelete(index, a);
      if !a.deletion.Works? then (deleted, NotDeleted)
      else
        var written := AfterUpsert(deleted, a, points);
        if !a.upsert.Works? then (written, NotUpserted)
        else (written, Ingested(DocumentId(n, a.path), a.content.value.checksum, |points|))
  }

  function Ingest(index: Index, n: Naming, s: Settings, a: Attempt): (Index, Result)
    requires Valid(s)
  {
    CarryOut(index, n, a, PlanOf(n, s, a))
  }

  class DocumentIngestor {
    const naming: Naming
    const chunker: TextChunker
    var index: Index

    constructor (naming: Naming, chunker: TextChunker)
      ensures index == map[] && this.naming == naming && this.chunker == chunker
    {
      this.naming, this.chunker, index := naming, chunker, map[];
    }

    method DeleteSource(a: Attempt)
      modifies this
      ensures index == AfterDelete(old(index), a)
    {
      if TookEffect(a.deletion) {
        index := map id | id in index && index[id].chunk.sourcePath != a.path :: index[id];
      }
    }

    method UpsertPoints(a: Attempt, points: seq<Point>)
      modifies this
      ensures index == AfterUpsert(old(index), a, points)
    {
      if TookEffect(a.upsert) {
        assert points[0..] == points;
        for i := 0 to |points|
          invariant Upserted(old(index), points) == Upserted(index, points[i..])
        {
          assert points[i..][0] == points[i] && points[i..][1..] == points[i + 1..];
          index := index[points[i].chunk.id := points[i]];
        }
      }
    }

    method ZipPoints(chunks: seq<DocumentChunk>, vectors: seq<seq<real>>) returns (points: seq<Point>)
      requires |chunks| == |vectors|
      ensures points == Zip(chunks, vectors)
    {
      points := [];
      assert chunks[0..] == chunks && vectors[0..] == vectors;
      ghost var rest := Zip(chunks, vectors);
      for i := 0 to |chunks|
        invariant Zip(chunks, vectors) == points + rest
        invariant rest == Zip(chunks[i..], vectors[i..])
      {
        assert chunks[i..][1..] == chunks[i + 1..] && vectors[i..][1..] == vectors[i + 1..];
        points := points + [Point(chunks[i], vectors[i])];
        rest := rest[1..];
      }
    }

    method Run(a: Attempt) returns (r: Result)
      requires Valid(chunker.Given())
      modifies this
      ensures (index, r) == Ingest(old(index), naming, chunker.Given(), a)
    {
      if a.content.None? {
        return NotLoaded;
      }
      var document := DocumentOf(naming, a);
      var chunks := chunker.Split(document, NamedIds(naming.uuid));
      if chunks == [] {
        return NoChunks;
      }
      if a.vectors.None? {
        return NotEmbedded;
      }
      if |a.vectors.value| != |chunks| {
        return WrongCount;
      }
      if !a.collection {
        return NoCollection;
      }
      DeleteSource(a);
      if !a.deletion.Works? {
        return NotDeleted;
      }
      var points := ZipPoints(chunks, a.vectors.value);
      UpsertPoints(a, points);
      if !a.upsert.Works? {
        return NotUpserted;
      }
      r := Ingested(document.id, document.checksum, |chunks|);
    }
  }

  // ---------------------------------------------------------------- how ids are kept

  /** A point carries its own id, made from the folded path, the checksum and its index. */
  ghost predicate Named(n: Naming, id: string, p: Point) {
    && ':' !in p.chunk.checksum && p.chunk.documentId == DocumentId(n, p.chunk.sourcePath)
    && id == p.chunk.id == NamedIds(n.uuid)(DocumentId(n, p.chunk.sourcePath), p.chunk.checksum, p.chunk.chunkIndex)
  }

  ghost predicate WellNamed(n: Naming, index: Index) {
    forall id <- index :: Named(n, id, index[id])
  }

  /** The points an attempt writes: all of its path and checksum, numbered from 0. */
  ghost predicate Fits(n: Naming, a: Attempt, points: seq<Point>) {
    a.content.Some? && ':' !in a.content.value.checksum &&
    forall i :: 0 <= i < |points| ==>
      && Named(n, points[i].chunk.id, points[i])
      && points[i].chunk.sourcePath == a.path && points[i].chunk.checksum == a.content.value.checksum
      && points[i].chunk.chunkIndex == i
  }

  ghost predicate PlainChecksum(a: Attempt) {
    a.content.Some? ==> ':' !in a.content.value.checksum
  }

  lemma PlannedPointsFit(n: Naming, s: Settings, a: Attempt)
    requires Valid(s) && Sound(n) && PlainChecksum(a) && PlanOf(n, s, a).Writes?
    ensures Fits(n, a, PlanOf(n, s, a).points)
  {
    ChunkPointsFit(n, Cutter(s), a, PlanOf(n, s, a).points);
  }

  lemma ChunkPointsFit(n: Naming, cut: string -> seq<string>, a: Attempt, points: seq<Point>)
    requires Sound(n) && PlainChecksum(a) && a.content.Some?
    requires
      var chunks := ChunksAhead(DocumentOf(n, a), cut, 0, 0, NamedIds(n.uuid));
      |points| == |chunks| && forall i :: 0 <= i < |points| ==> points[i].chunk == chunks[i]
    ensures Fits(n, a, points)
  {
    var d := DocumentOf(n, a);
    var ids := NamedIds(n.uuid);
    forall i | 0 <= i < |points|
      ensures
        && Named(n, points[i].chunk.id, points[i])
        && points[i].chunk.sourcePath == a.path && points[i].chunk.checksum == a.content.value.checksum
        && points[i].chunk.chunkIndex == i
    {
      var page := ChunkAt(d, cut, 0, 0, ids, i);
    }
  }

  lemma NamedIdsAgree(n: Naming, id: string, p: Point, q: Point)
    requires Sound(n) && Named(n, id, p) && Named(n, id, q)
    ensures
      && n.fold(p.chunk.sourcePath) == n.fold(q.chunk.sourcePath)
      && p.chunk.checksum == q.chunk.checksum && p.chunk.chunkIndex == q.chunk.chunkIndex
  {
    NamedIdsDistinguish(n.uuid);
    var ids := NamedIds(n.uuid);
    var d, e := DocumentId(n, p.chunk.sourcePath), DocumentId(n, q.chunk.sourcePath);
    assert ids(d, p.chunk.checksum, p.chunk.chunkIndex) == ids(e, q.chunk.checksum, q.chunk.chunkIndex);
    assert d == e;
    DocumentIdsFollowFolding(n, p.chunk.sourcePath, q.chunk.sourcePath);
  }

  // ---------------------------------------------------------------- what writing does

  ghost predicate DistinctIds(points: seq<Point>) {
    forall i, j :: 0 <= i < j < |points| ==> points[i].chunk.id != points[j].chunk.id
  }

  lemma FittingIdsAreDistinct(n: Naming, a: Attempt, points: seq<Point>)
    requires Sound(n) && Fits(n, a, points)
    ensures DistinctIds(points)
  {
    forall i, j | 0 <= i < j < |points|
      ensures points[i].chunk.id != points[j].chunk.id
    {
      if points[i].chunk.id == points[j].chunk.id {
        NamedIdsAgree(n, points[i].chunk.id, points[i], points[j]);
      }
    }
  }

  lemma {:induction false} UpsertedKeeps(index: Index, points: seq<Point>, id: string)
    requires forall p <- points :: p.chunk.id != id
    ensures id in Upserted(index, points) <==> id in index
    ensures id in index ==> Upserted(index, points)[id] == index[id]
    decreases |points|
  {
    if points != [] {
      assert points[0] in points;
      UpsertedKeeps(index[points[0].chunk.id := points[0]], points[1..], id);
    }
  }

  lemma {:induction false} UpsertedHas(index: Index, points: seq<Point>, i: nat)
    requires i < |points| && DistinctIds(points)
    ensures points[i].chunk.id in Upserted(index, points) && Upserted(index, points)[points[i].chunk.id] == points[i]
    decreases |points|
  {
    var next := index[points[0].chunk.id := points[0]];
    if i == 0 {
      forall p | p in points[1..]
        ensures p.chunk.id != points[0].chunk.id
      {
        var j :| 0 <= j < |points[1..]| && points[1..][j] == p;
        assert points[j + 1] == p;
      }
      UpsertedKeeps(next, points[1..], points[0].chunk.id);
    } else {
      UpsertedHas(next, points[1..], i - 1);
    }
  }

  predicate HasId(points: seq<Point>, id: string) {
    exists i :: 0 <= i < |points| && points[i].chunk.id == id
  }

  /** The entry of an id after a write: the point with that id, or what was there. */
  lemma UpsertedAt(index: Index, points: seq<Point>, id: string)
    requires DistinctIds(points)
    ensures !HasId(points, id) ==> (id in Upserted(index, points) <==> id in index)
    ensures !HasId(points, id) && id in index ==> Upserted(index, points)[id] == index[id]
    ensures HasId(points, id) ==> id in Upserted(index, points) && Upserted(index, points)[id] in points
    ensures HasId(points, id) ==> Upserted(index, points)[id].chunk.id == id
  {
    if HasId(points, id) {
      var i :| 0 <= i < |points| && points[i].chunk.id == id;
      UpsertedHas(index, points, i);
    } else {
      forall p | p in points
        ensures p.chunk.id != id
      {
        var i :| 0 <= i < |points| && points[i] == p;
      }
      UpsertedKeeps(index, points, id);
    }
  }

  lemma UpsertedAgree(index: Index, other: Index, points: seq<Point>, id: string)
    requires DistinctIds(points) && HasId(points, id)
    ensures id in Upserted(index, points) && id in Upserted(other, points)
    ensures Upserted(index, points)[id] == Upserted(other, points)[id]
  {
    var i :| 0 <= i < |points| && points[i].chunk.id == id;
    UpsertedHas(index, points, i);
    UpsertedHas(other, points, i);
  }

  /** The points of a write on their own. */
  function Version(points: seq<Point>): Index {
    Upserted(map[], points)
  }

  /** After a delete and a write, the source holds exactly the points of the write. */
  lemma SourceHoldsTheWrite(n: Naming, index: Index, a: Attempt, points: seq<Point>)
    requires Sound(n) && Fits(n, a, points)
    ensures Held(Upserted(WithoutSource(index, a.path), points), a.path) == Version(points)
  {
    FittingIdsAreDistinct(n, a, points);
    var deleted := WithoutSource(index, a.path);
    var held, version := Held(Upserted(deleted, points), a.path), Version(points);
    forall id
      ensures id in held <==> id in version
      ensures id in held ==> held[id] == version[id]
    {
      UpsertedAt(deleted, points, id);
      UpsertedAt(map[], points, id);
      if HasId(points, id) {
        UpsertedAgree(deleted, map[], points, id);
        var p := version[id];
        var i :| 0 <= i < |points| && points[i] == p;
      }
    }
  }

  /** A point of another source whose id the write would use too. */
  ghost predicate Clashes(n: Naming, index: Index, a: Attempt, count: nat) {
    a.content.Some? &&
    exists id <- index ::
      && index[id].chunk.sourcePath != a.path && n.fold(index[id].chunk.sourcePath) == n.fold(a.path)
      && index[id].chunk.checksum == a.content.value.checksum && index[id].chunk.chunkIndex < count
  }

  lemma ClashIsAnId(n: Naming, index: Index, a: Attempt, points: seq<Point>, id: string)
    requires Sound(n) && Fits(n, a, points) && WellNamed(n, index) && id in index
    ensures HasId(points, id) <==>
      && n.fold(index[id].chunk.sourcePath) == n.fold(a.path)
      && index[id].chunk.checksum == a.content.value.checksum && index[id].chunk.chunkIndex < |points|
  {
    assert Named(n, id, index[id]);
    DocumentIdsFollowFolding(n, index[id].chunk.sourcePath, a.path);
    var i := index[id].chunk.chunkIndex;
    if i < |points| {
      assert Named(n, points[i].chunk.id, points[i]);
    }
    if HasId(points, id) {
      var j :| 0 <= j < |points| && points[j].chunk.id == id;
      NamedIdsAgree(n, id, index[id], points[j]);
    }
  }

  /**
   A delete and a write leave every other source alone exactly when no point of another source with
   the same folded path holds the same content. Ids follow the folded path, deletion the exact one.
   */
  lemma OthersUntouched(n: Naming, index: Index, a: Attempt, points: seq<Point>)
    requires Sound(n) && Fits(n, a, points) && WellNamed(n, index)
    ensures
      var written := Upserted(WithoutSource(index, a.path), points);
      (forall q :: q != a.path ==> Held(written, q) == Held(index, q)) <==> !Clashes(n, index, a, |points|)
  {
    if Clashes(n, index, a, |points|) {
      var q := ClashTakes(n, index, a, points);
    } else {
      forall q | q != a.path
        ensures Held(Upserted(WithoutSource(index, a.path), points), q) == Held(index, q)
      {
        OtherUntouched(n, index, a, points, q);
      }
    }
  }

  lemma OtherUntouched(n: Naming, index: Index, a: Attempt, points: seq<Point>, q: string)
    requires Sound(n) && Fits(n, a, points) && WellNamed(n, index) && !Clashes(n, index, a, |points|) && q != a.path
    ensures Held(Upserted(WithoutSource(index, a.path), points), q) == Held(index, q)
  {
    var written := Upserted(WithoutSource(index, a.path), points);
    forall id: string
      ensures SameEntry(written, index, q, id)
    {
      OtherEntry(n, index, a, points, id, q);
    }
    SameEntriesSameHeld(written, index, q);
  }

  lemma ClashTakes(n: Naming, index: Index, a: Attempt, points: seq<Point>) returns (q: string)
    requires Sound(n) && Fits(n, a, points) && WellNamed(n, index) && Clashes(n, index, a, |points|)
    ensures q != a.path && Held(Upserted(WithoutSource(index, a.path), points), q) != Held(index, q)
  {
    var id :| && id in index && index[id].chunk.sourcePath != a.path
      && n.fold(index[id].chunk.sourcePath) == n.fold(a.path)
      && index[id].chunk.checksum == a.content.value.checksum && index[id].chunk.chunkIndex < |points|;
    q := index[id].chunk.sourcePath;
    ClashIsAnId(n, index, a, points, id);
    TakenOver(n, index, a, points, id);
  }

  /** Two indexes hold the same under this id for the source, or nothing. */
  predicate SameEntry(x: Index, y: Index, q: string, id: string) {
    && (id in x && x[id].chunk.sourcePath == q <==> id in y && y[id].chunk.sourcePath == q)
    && (id in y && y[id].chunk.sourcePath == q ==> id in x && x[id] == y[id])
  }

  lemma SameEntriesSameHeld(x: Index, y: Index, q: string)
    requires forall id: string :: SameEntry(x, y, q, id)
    ensures Held(x, q) == Held(y, q)
  {
    forall id: string
      ensures id in Held(x, q) <==> id in Held(y, q)
      ensures id in Held(x, q) ==> Held(x, q)[id] == Held(y, q)[id]
    {
      assert SameEntry(x, y, q, id);
    }
  }

  lemma OtherEntry(n: Naming, index: Index, a: Attempt, points: seq<Point>, id: string, q: string)
    requires Sound(n) && Fits(n, a, points) && WellNamed(n, index) && !Clashes(n, index, a, |points|) && q != a.path
    ensures SameEntry(Upserted(WithoutSource(index, a.path), points), index, q, id)
  {
    FittingIdsAreDistinct(n, a, points);
    var deleted := WithoutSource(index, a.path);
    UpsertedAt(deleted, points, id);
    if id in index {
      ClashIsAnId(n, index, a, points, id);
    }
    if HasId(points, id) {
      var p := Upserted(deleted, points)[id];
      var i :| 0 <= i < |points| && points[i] == p;
    }
  }

  /** A clashing point goes over to the source that is written. */
  lemma TakenOver(n: Naming, index: Index, a: Attempt, points: seq<Point>, id: string)
    requires Sound(n) && Fits(n, a, points) && id in index && index[id].chunk.sourcePath != a.path && HasId(points, id)
    ensures
      var q := index[id].chunk.sourcePath;
      Held(Upserted(WithoutSource(index, a.path), points), q) != Held(index, q)
  {
    FittingIdsAreDistinct(n, a, points);
    var deleted := WithoutSource(index, a.path);
    UpsertedAt(deleted, points, id);
    var p := Upserted(deleted, points)[id];
    var i :| 0 <= i < |points| && points[i] == p;
    var q := index[id].chunk.sourcePath;
    assert id in Held(index, q);
    assert id !in Held(Upserted(deleted, points), q);
  }

  // ---------------------------------------------------------------- paths that differ in case only

  lemma {:induction false} SameTexts(d: SourceDocument, e: SourceDocument, cut: string -> seq<string>, i: nat)
    requires d.sections == e.sections && i <= |d.sections|
    ensures TextsAhead(d, cut, i) == TextsAhead(e, cut, i)
    decreases |d.sections| - i
  {
    if i < |d.sections| {
      SameTexts(d, e, cut, i + 1);
    }
  }

  lemma SameCount(d: SourceDocument, e: SourceDocument, cut: string -> seq<string>, ids: ChunkIds)
    requires d.sections == e.sections
    ensures |ChunksAhead(d, cut, 0, 0, ids)| == |ChunksAhead(e, cut, 0, 0, ids)|
  {
    SameTexts(d, e, cut, 0);
    var p := ChunkAt(d, cut, 0, 0, ids, 0);
    var q := ChunkAt(e, cut, 0, 0, ids, 0);
  }

  /** The same bytes, under whatever name. */
  predicate SameContent(a: Attempt, b: Attempt) {
    && a.content.Some? && b.content.Some?
    && a.content.value.checksum == b.content.value.checksum && a.content.value.sections == b.content.value.sections
  }

  /**
   A file and its copy under a path that folds alike, ingested one after the other, both with
   success: the first source held its chunks, and afterwards it holds nothing.
   */
  lemma TwinsOverwrite(n: Naming, s: Settings, index: Index, a: Attempt, b: Attempt)
    requires Valid(s) && Sound(n) && PlainChecksum(a) && SameContent(a, b)
    requires a.path != b.path && n.fold(a.path) == n.fold(b.path)
    requires Ingest(index, n, s, a).1.Ingested? && Ingest(Ingest(index, n, s, a).0, n, s, b).1.Ingested?
    ensures
      var next := Ingest(index, n, s, a).0;
      Held(next, a.path) != map[] && Held(Ingest(next, n, s, b).0, a.path) == map[]
  {
    var next := Ingest(index, n, s, a).0;
    SuccessWrites(n, s, index, a);
    SuccessWrites(n, s, next, b);
    var points, twins := PlanOf(n, s, a).points, PlanOf(n, s, b).points;
    SameCount(DocumentOf(n, a), DocumentOf(n, b), Cutter(s), NamedIds(n.uuid));
    SourceHoldsTheWrite(n, index, a, points);
    TwinsTake(n, next, a, points, b, twins);
    NothingIsNoVersion(n, a, points);
  }

  /** A success has written the points of its plan, one for each chunk. */
  lemma SuccessWrites(n: Naming, s: Settings, index: Index, a: Attempt)
    requires Valid(s) && Sound(n) && PlainChecksum(a) && Ingest(index, n, s, a).1.Ingested?
    ensures a.content.Some? && PlanOf(n, s, a).Writes? && Fits(n, a, PlanOf(n, s, a).points)
    ensures
      var points := PlanOf(n, s, a).points;
      && Ingest(index, n, s, a).0 == Upserted(WithoutSource(index, a.path), points)
      && points != [] && |points| == |ChunksAhead(DocumentOf(n, a), Cutter(s), 0, 0, NamedIds(n.uuid))|
  {
    PlanIsCarriedOut(index, n, a, PlanOf(n, s, a));
    PlannedPointsFit(n, s, a);
    PlanHasAPointEach(n, s, a);
  }

  lemma PlanIsCarriedOut(index: Index, n: Naming, a: Attempt, plan: Plan)
    requires plan.Writes? ==> a.content.Some?
    requires plan.Stops? ==> !plan.result.Ingested?
    requires CarryOut(index, n, a, plan).1.Ingested?
    ensures plan.Writes? && CarryOut(index, n, a, plan).0 == Upserted(WithoutSource(index, a.path), plan.points)
  {
  }

  lemma PlanHasAPointEach(n: Naming, s: Settings, a: Attempt)
    requires Valid(s) && PlanOf(n, s, a).Writes?
    ensures a.content.Some? && PlanOf(n, s, a).points != []
    ensures |PlanOf(n, s, a).points| == |ChunksAhead(DocumentOf(n, a), Cutter(s), 0, 0, NamedIds(n.uuid))|
  {
  }

  lemma NothingIsNoVersion(n: Naming, a: Attempt, points: seq<Point>)
    requires Sound(n) && Fits(n, a, points) && points != []
    ensures Version(points) != map[]
  {
    FittingIdsAreDistinct(n, a, points);
    UpsertedHas(map[], points, 0);
  }

  /** Every point of the one source has the id of a point of the other. */
  lemma TwinsTake(n: Naming, index: Index, a: Attempt, points: seq<Point>, b: Attempt, twins: seq<Point>)
    requires Sound(n) && Fits(n, a, points) && Fits(n, b, twins) && |points| == |twins|
    requires a.path != b.path && n.fold(a.path) == n.fold(b.path) && SameContent(a, b)
    requires Held(index, a.path) == Version(points)
    ensures Held(Upserted(WithoutSource(index, b.path), twins), a.path) == map[]
  {
    FittingIdsAreDistinct(n, a, points);
    FittingIdsAreDistinct(n, b, twins);
    var written := Upserted(WithoutSource(index, b.path), twins);
    forall id
      ensures id !in Held(written, a.path)
    {
      UpsertedAt(WithoutSource(index, b.path), twins, id);
      UpsertedAt(map[], points, id);
      if HasId(twins, id) {
        var i :| 0 <= i < |twins| && twins[i] == written[id];
      } else {
        SameIds(n, a, points, b, twins, id);
        assert id in Held(index, a.path) <==> id in Version(points);
      }
    }
  }

  lemma SameIds(n: Naming, a: Attempt, points: seq<Point>, b: Attempt, twins: seq<Point>, id: string)
    requires Fits(n, a, points) && Fits(n, b, twins) && |points| == |twins|
    requires n.fold(a.path) == n.fold(b.path) && SameContent(a, b)
    ensures HasId(points, id) ==> HasId(twins, id)
  {
    if HasId(points, id) {
      var i :| 0 <= i < |points| && points[i].chunk.id == id;
      assert Named(n, points[i].chunk.id, points[i]) && Named(n, twins[i].chunk.id, twins[i]);
      assert twins[i].chunk.id == id;
    }
  }

  const Lower := "notes.txt"
  const Upper := "Notes.txt"

  /** Ingesting a file of one short section with every call working. */
  function Note(path: string): Attempt {
    Attempt(path, Some(Content(path, "c0ffee", [Section("text", None)])), Some([[0.0]]), true, Works, Works)
  }

  lemma NoteIsIngested(n: Naming, s: Settings, index: Index, path: string)
    requires Valid(s) && s.size >= 4
    ensures Ingest(index, n, s, Note(path)).1.Ingested?
  {
    var d := DocumentOf(n, Note(path));
    ShortTextIsOneChunk("text", s);
    CutterCuts(s, "text");
    assert TextsAhead(d, Cutter(s), 1) == [];
    assert TextsAhead(d, Cutter(s), 0) == ["text"] + [];
    var page := ChunkAt(d, Cutter(s), 0, 0, NamedIds(n.uuid), 0);
  }

  /** Two such files whose names differ in case only: the second leaves nothing of the first. */
  lemma TwinIsTakenOver(n: Naming, s: Settings)
    requires Valid(s) && s.size >= 4 && Sound(n) && n.fold(Lower) == n.fold(Upper)
    ensures
      var first := Ingest(map[], n, s, Note(Lower));
      var second := Ingest(first.0, n, s, Note(Upper));
      && first.1.Ingested? && second.1.Ingested?
      && Held(first.0, Lower) != map[] && Held(second.0, Lower) == map[]
  {
    var first := Ingest(map[], n, s, Note(Lower)).0;
    assert Lower[0] != Upper[0];
    NoteIsIngested(n, s, map[], Lower);
    NoteIsIngested(n, s, first, Upper);
    TwinsOverwrite(n, s, map[], Note(Lower), Note(Upper));
  }

  // ---------------------------------------------------------------- runs

  /** What a source holds after a plan of its own is carried out, whatever the rest of the index is. */
  function CarriedOut(held: Index, a: Attempt, plan: Plan): Index {
    match plan
    case Stops(_) => held
    case Writes(points) =>
      if !TookEffect(a.deletion) then held
      else if a.deletion.Works? && TookEffect(a.upsert) then Version(points)
      else map[]
  }

  function OneSource(held: Index, n: Naming, s: Settings, a: Attempt): Index
    requires Valid(s)
  {
    CarriedOut(held, a, PlanOf(n, s, a))
  }

  /** The paths of the index and the path of the attempt stay apart under folding. */
  ghost predicate FoldsApart(n: Naming, paths: set<string>) {
    forall p, q :: p in paths && q in paths && n.fold(p) == n.fold(q) ==> p == q
  }

  ghost predicate Within(index: Index, paths: set<string>) {
    forall id <- index :: index[id].chunk.sourcePath in paths
  }

  lemma HeldAfterDelete(index: Index, path: string, q: string)
    ensures Held(WithoutSource(index, path), q) == if q == path then map[] else Held(index, q)
  {
  }

  /** An attempt changes its own source only, and that as if the others were not there. */
  lemma IngestIsLocal(n: Naming, s: Settings, index: Index, a: Attempt, paths: set<string>, q: string)
    requires Valid(s) && Sound(n) && PlainChecksum(a)
    requires WellNamed(n, index) && Within(index, paths) && a.path in paths && FoldsApart(n, paths)
    ensures
      var next := Ingest(index, n, s, a).0;
      && WellNamed(n, next) && Within(next, paths)
      && Held(next, q) == if q == a.path then OneSource(Held(index, q), n, s, a) else Held(index, q)
  {
    if PlanOf(n, s, a).Writes? {
      PlannedPointsFit(n, s, a);
    }
    PlanIsLocal(n, index, a, PlanOf(n, s, a), paths, q);
  }

  lemma PlanIsLocal(n: Naming, index: Index, a: Attempt, plan: Plan, paths: set<string>, q: string)
    requires Sound(n) && (plan.Writes? ==> Fits(n, a, plan.points))
    requires WellNamed(n, index) && Within(index, paths) && a.path in paths && FoldsApart(n, paths)
    ensures
      var next := CarryOut(index, n, a, plan).0;
      && WellNamed(n, next) && Within(next, paths)
      && Held(next, q) == if q == a.path then CarriedOut(Held(index, q), a, plan) else Held(index, q)
  {
    if plan.Writes? {
      WritingIsLocal(n, index, a, plan.points, paths, q);
      ThreeWays(index, n, a, plan);
    }
  }

  /** A plan leaves the index as it was, without the source, or with the source rewritten. */
  lemma ThreeWays(index: Index, n: Naming, a: Attempt, plan: Plan)
    requires plan.Writes? && a.content.Some?
    ensures CarryOut(index, n, a, plan).0 ==
      if !TookEffect(a.deletion) then index
      else if a.deletion.Works? && TookEffect(a.upsert) then Upserted(WithoutSource(index, a.path), plan.points)
      else WithoutSource(index, a.path)
  {
  }

  lemma WritingIsLocal(n: Naming, index: Index, a: Attempt, points: seq<Point>, paths: set<string>, q: string)
    requires Sound(n) && Fits(n, a, points)
    requires WellNamed(n, index) && Within(index, paths) && a.path in paths && FoldsApart(n, paths)
    ensures
      var deleted := WithoutSource(index, a.path);
      var written := Upserted(deleted, points);
      && WellNamed(n, deleted) && Within(deleted, paths) && WellNamed(n, written) && Within(written, paths)
      && Held(deleted, q) == (if q == a.path then map[] else Held(index, q))
      && Held(written, q) == (if q == a.path then Version(points) else Held(index, q))
  {
    HeldAfterDelete(index, a.path, q);
    SourceHoldsTheWrite(n, index, a, points);
    NothingClashes(n, index, a, paths, |points|);
    if q != a.path {
      OtherUntouched(n, index, a, points, q);
    }
    WriteIsWellNamed(n, WithoutSource(index, a.path), a, points, paths);
  }

  lemma NothingClashes(n: Naming, index: Index, a: Attempt, paths: set<string>, count: nat)
    requires Within(index, paths) && a.path in paths && FoldsApart(n, paths)
    ensures !Clashes(n, index, a, count)
  {
  }

  lemma WriteIsWellNamed(n: Naming, index: Index, a: Attempt, points: seq<Point>, paths: set<string>)
    requires Sound(n) && Fits(n, a, points) && WellNamed(n, index) && Within(index, paths) && a.path in paths
    ensures WellNamed(n, Upserted(index, points)) && Within(Upserted(index, points), paths)
  {
    FittingIdsAreDistinct(n, a, points);
    var written := Upserted(index, points);
    forall id | id in written
      ensures Named(n, id, written[id]) && written[id].chunk.sourcePath in paths
    {
      UpsertedAt(index, points, id);
      if HasId(points, id) {
        var i :| 0 <= i < |points| && points[i] == written[id];
        assert Named(n, points[i].chunk.id, points[i]);
      }
    }
  }

  /** Each way an ingestion can come out, and what it takes for it; the first obstacle decides. */
  lemma EachResultHasItsCause(n: Naming, s: Settings, index: Index, a: Attempt)
    requires Valid(s)
    ensures
      var r := Ingest(index, n, s, a).1;
      if a.content.None? then r == NotLoaded
      else
        var chunks := ChunksOfAttempt(n, s, a);
        if chunks == [] then r == NoChunks
        else if a.vectors.None? then r == NotEmbedded
        else if |a.vectors.value| != |chunks| then r == WrongCount
        else if !a.collection then r == NoCollection
        else if !a.deletion.Works? then r == NotDeleted
        else if !a.upsert.Works? then r == NotUpserted
        else r == Ingested(DocumentId(n, a.path), a.content.value.checksum, |chunks|)
  {
  }

  /** After a success the source holds the chunks of its current content, each with its own vector, and nothing else. */
  lemma SuccessHoldsTheContent(n: Naming, s: Settings, index: Index, a: Attempt)
    requires Valid(s) && Sound(n) && PlainChecksum(a) && Ingest(index, n, s, a).1.Ingested?
    ensures a.content.Some?
    ensures
      var (next, r) := Ingest(index, n, s, a);
      var chunks := ChunksOfAttempt(n, s, a);
      && r.chunks == |chunks| > 0 && a.vectors.Some? && |a.vectors.value| == |chunks|
      && (forall i :: 0 <= i < |chunks| ==>
           && chunks[i].id in Held(next, a.path)
           && Held(next, a.path)[chunks[i].id] == Point(chunks[i], a.vectors.value[i]))
      && (forall id <- Held(next, a.path) :: Held(next, a.path)[id].chunk in chunks)
  {
    var points := PlanOf(n, s, a).points;
    PlannedPointsFit(n, s, a);
    SourceHoldsTheWrite(n, index, a, points);
    VersionIsItsPoints(n, a, points, ChunksOfAttempt(n, s, a), a.vectors.value);
  }

  lemma VersionIsItsPoints(n: Naming, a: Attempt, points: seq<Point>, chunks: seq<DocumentChunk>,
      vectors: seq<seq<real>>)
    requires Sound(n) && Fits(n, a, points) && |points| == |chunks| == |vectors|
    requires forall i :: 0 <= i < |points| ==> points[i] == Point(chunks[i], vectors[i])
    ensures forall i :: 0 <= i < |chunks| ==>
      chunks[i].id in Version(points) && Version(points)[chunks[i].id] == Point(chunks[i], vectors[i])
    ensures forall id <- Version(points) :: Version(points)[id].chunk in chunks
  {
    FittingIdsAreDistinct(n, a, points);
    forall i | 0 <= i < |chunks|
      ensures chunks[i].id in Version(points) && Version(points)[chunks[i].id] == Point(chunks[i], vectors[i])
    {
      UpsertedHas(map[], points, i);
    }
    forall id | id in Version(points)
      ensures Version(points)[id].chunk in chunks
    {
      UpsertedAt(map[], points, id);
      var i :| 0 <= i < |points| && points[i] == Version(points)[id];
    }
  }

  /**
   At every moment of an attempt its source holds what it held before, nothing, or the new version;
   and an attempt that fails before the delete changes nothing.
   */
  lemma OneVersionOrNothing(n: Naming, s: Settings, index: Index, a: Attempt)
    requires Valid(s) && Sound(n) && PlainChecksum(a)
    ensures PlanOf(n, s, a).Stops? ==> Ingest(index, n, s, a) == (index, PlanOf(n, s, a).result)
    ensures PlanOf(n, s, a).Writes? ==>
      var version := Version(PlanOf(n, s, a).points);
      && Held(AfterDelete(index, a), a.path) in {Held(index, a.path), map[]}
      && Held(Ingest(index, n, s, a).0, a.path) in {Held(index, a.path), map[], version}
  {
    HeldAfterDelete(index, a.path, a.path);
    if PlanOf(n, s, a).Writes? {
      PlannedPointsFit(n, s, a);
      SourceHoldsTheWrite(n, index, a, PlanOf(n, s, a).points);
    }
  }

  function IngestAll(index: Index, n: Naming, s: Settings, attempts: seq<Attempt>): Index
    requires Valid(s)
    decreases |attempts|
  {
    if attempts == [] then index else IngestAll(Ingest(index, n, s, attempts[0]).0, n, s, attempts[1..])
  }

  /** The same run as one source sees it. */
  function OneSourceAll(held: Index, n: Naming, s: Settings, attempts: seq<Attempt>, q: string): Index
    requires Valid(s)
    decreases |attempts|
  {
    if attempts == [] then held
    else
      var next := if attempts[0].path == q then OneSource(held, n, s, attempts[0]) else held;
      OneSourceAll(next, n, s, attempts[1..], q)
  }

  /**
   Over any sequence of attempts, failing anywhere, on paths that stay apart under folding, what a
   source holds depends on its own attempts alone.
   */
  lemma {:induction false} SourcesAreIndependent(
    n: Naming, s: Settings, index: Index, attempts: seq<Attempt>, paths: set<string>, q: string)
    requires Valid(s) && Sound(n) && WellNamed(n, index) && Within(index, paths) && FoldsApart(n, paths)
    requires forall a <- attempts :: a.path in paths && PlainChecksum(a)
    ensures Held(IngestAll(index, n, s, attempts), q) == OneSourceAll(Held(index, q), n, s, attempts, q)
    decreases |attempts|
  {
    if attempts != [] {
      assert attempts[0] in attempts;
      IngestIsLocal(n, s, index, attempts[0], paths, q);
      SourcesAreIndependent(n, s, Ingest(index, n, s, attempts[0]).0, attempts[1..], paths, q);
    }
  }

  /** Attempts that no longer touch the source leave the version of its last success in place. */
  lemma {:induction false} LastSuccessStays(n: Naming, s: Settings, held: Index, attempts: seq<Attempt>, q: string)
    requires Valid(s)
    requires forall a <- attempts :: a.path == q ==> PlanOf(n, s, a).Stops? || !TookEffect(a.deletion)
    ensures OneSourceAll(held, n, s, attempts, q) == held
    decreases |attempts|
  {
    if attempts != [] {
      assert attempts[0] in attempts;
      LastSuccessStays(n, s, held, attempts[1..], q);
    }
  }
}
