/** Reading all payloads of the vector collection, page by page, and listing the documents they belong to. */
module Inventory {
  import opened Options

  // ---------------------------------------------------------------- scrolling

  /** A stored field read with a default and turned into text; a null becomes the word None. */
  datatype Field = Missing | Null | Given(text: string)

  datatype Page = NoPage | Parsed(number: int) | Unparsable

  datatype Payload = Payload(documentId: Option<string>, fileName: Field, sourcePath: Field, checksum: Field,
      page: Page)

  /** One page of the collection from an offset on, and the offset of the next page if there is one. */
  function Scroll(records: seq<Option<Payload>>, limit: nat,
      offset: Option<nat>): (r: (seq<Option<Payload>>, Option<nat>))
  {
    var from := if offset.Some? then offset.value else 0;
    if from >= |records| then ([], None)
    else if from + limit >= |records| then (records[from..], None)
    else (records[from..from + limit], Some(from + limit))
  }

  function Payloads(records: seq<Option<Payload>>): seq<Payload> {
    if records == [] then []
    else (if records[0].Some? then [records[0].value] else []) + Payloads(records[1..])
  }

  lemma {:induction false} PayloadsJoin(a: seq<Option<Payload>>, b: seq<Option<Payload>>)
    ensures Payloads(a + b) == Payloads(a) + Payloads(b)
    decreases |a|
  {
    if a == [] {
      assert a + b == b;
    } else {
      assert (a + b)[0] == a[0] && (a + b)[1..] == a[1..] + b;
      PayloadsJoin(a[1..], b);
    }
  }

  /**
   Page after page until no offset is left; what is collected is every payload of the collection, once
   and in order.
   */
  method ScrollPayloads(records: seq<Option<Payload>>, limit: nat) returns (payloads: seq<Payload>)
    requires limit > 0
    ensures payloads == Payloads(records)
  {
    payloads := [];
    var offset: Option<nat> := None;
    ghost var read := 0;
    while true
      invariant read <= |records| && payloads == Payloads(records[..read])
      invariant read == if offset.Some? then offset.value else 0
      invariant offset.Some? ==> read < |records|
      decreases |records| - read
    {
      var (found, nextOffset) := Scroll(records, limit, offset);
      ghost var end := if nextOffset.Some? then nextOffset.value else |records|;
      assert found == records[read..end] && records[..read] + found == records[..end];
      PayloadsJoin(records[..read], found);
      payloads := AddRecords(payloads, found);
      read := end;
      if nextOffset.None? {
        assert records[..end] == records;
        break;
      }
      offset := nextOffset;
    }
  }

  /** The payloads of one page; records without a payload are skipped. */
  method AddRecords(before: seq<Payload>, found: seq<Option<Payload>>) returns (payloads: seq<Payload>)
    ensures payloads == before + Payloads(found)
  {
    payloads := before;
    assert found[0..] == found;
    ghost var rest := Payloads(found);
    for i := 0 to |found|
      invariant payloads + rest == before + Payloads(found)
      invariant rest == Payloads(found[i..])
    {
      assert found[i..][0] == found[i] && found[i..][1..] == found[i + 1..];
      rest := Payloads(found[i + 1..]);
      if found[i].Some? {
        payloads := payloads + [found[i].value];
      }
    }
  }

  // ---------------------------------------------------------------- grouping

  datatype Meta = Meta(fileName: string, sourcePath: string, checksum: string)

  datatype KnowledgeDocument = KnowledgeDocument(
    documentId: string,
    meta: Meta,
    chunkCount: nat,
    pageCount: nat)

  function Read(f: Field, default: string): string {
    match f
    case Missing => default
    case Null => "None"
    case Given(text) => text
  }

  function MetaOf(p: Payload): Meta {
    Meta(Read(p.fileName, "unknown"), Read(p.sourcePath, ""), Read(p.checksum, ""))
  }

  /** The document ids, in the order in which they are first seen. */
  function Ids(ps: seq<Payload>): seq<string> {
    if ps == [] then []
    else
      var before := Ids(ps[..|ps| - 1]);
      var d := ps[|ps| - 1].documentId;
      if d.Some? && d.value !in before then before + [d.value] else before
  }

  function Count(ps: seq<Payload>, id: string): nat {
    if ps == [] then 0
    else Count(ps[..|ps| - 1], id) + if ps[|ps| - 1].documentId == Some(id) then 1 else 0
  }

  /** What the first payload of a document says about it. */
  function FirstMeta(ps: seq<Payload>, id: string): Meta {
    if ps == [] then Meta("", "", "")
    else if id in Ids(ps[..|ps| - 1]) then FirstMeta(ps[..|ps| - 1], id)
    else MetaOf(ps[|ps| - 1])
  }

  function PagesOf(ps: seq<Payload>, id: string): set<int> {
    set p | p in ps && p.documentId == Some(id) && p.page.Parsed? :: p.page.number
  }

  function Entry(ps: seq<Payload>, id: string): KnowledgeDocument {
    KnowledgeDocument(id, FirstMeta(ps, id), Count(ps, id), |PagesOf(ps, id)|)
  }

  function Entries(ps: seq<Payload>, ids: seq<string>): seq<KnowledgeDocument> {
    if ids == [] then [] else [Entry(ps, ids[0])] + Entries(ps, ids[1..])
  }

  // ---------------------------------------------------------------- the order of the list

  /** The lexicographic order of texts. */
  predicate Less(a: string, b: string) {
    b != "" && (a == "" || a[0] < b[0] || (a[0] == b[0] && Less(a[1..], b[1..])))
  }

  lemma {:induction false} LessIsTotal(a: string, b: string)
    ensures Less(a, b) || a == b || Less(b, a)
    ensures !(Less(a, b) && Less(b, a)) && !Less(a, a)
  {
    if a != "" && b != "" {
      LessIsTotal(a[1..], b[1..]);
      assert a == [a[0]] + a[1..] && b == [b[0]] + b[1..];
    }
    if a != "" {
      LessIsIrreflexive(a);
    }
  }

  lemma {:induction false} LessIsIrreflexive(a: string)
    ensures !Less(a, a)
  {
    if a != "" {
      LessIsIrreflexive(a[1..]);
    }
  }

  lemma {:induction false} LessIsTransitive(a: string, b: string, c: string)
    requires Less(a, b) && Less(b, c)
    ensures Less(a, c)
  {
    if a != "" && a[0] == b[0] == c[0] {
      LessIsTransitive(a[1..], b[1..], c[1..]);
    }
  }

  /** Documents are listed by folded file name, then by id. */
  predicate Before(fold: string -> string, x: KnowledgeDocument, y: KnowledgeDocument) {
    var a, b := fold(x.meta.fileName), fold(y.meta.fileName);
    Less(a, b) || (a == b && Less(x.documentId, y.documentId))
  }

  lemma BeforeIsAnOrder(fold: string -> string, x: KnowledgeDocument, y: KnowledgeDocument, z: KnowledgeDocument)
    ensures x.documentId != y.documentId ==> Before(fold, x, y) || Before(fold, y, x)
    ensures !(Before(fold, x, y) && Before(fold, y, x))
    ensures Before(fold, x, y) && Before(fold, y, z) ==> Before(fold, x, z)
  {
    var a, b, c := fold(x.meta.fileName), fold(y.meta.fileName), fold(z.meta.fileName);
    LessIsTotal(a, b);
    LessIsTotal(x.documentId, y.documentId);
    if Less(a, b) && Less(b, c) {
      LessIsTransitive(a, b, c);
    }
    if Less(x.documentId, y.documentId) && Less(y.documentId, z.documentId) {
      LessIsTransitive(x.documentId, y.documentId, z.documentId);
    }
  }

  function Insert(fold: string -> string, x: KnowledgeDocument, docs: seq<KnowledgeDocument>): seq<KnowledgeDocument> {
    if docs == [] || Before(fold, x, docs[0]) then [x] + docs else [docs[0]] + Insert(fold, x, docs[1..])
  }

  function Sorted(fold: string -> string, docs: seq<KnowledgeDocument>): seq<KnowledgeDocument> {
    if docs == [] then [] else Insert(fold, docs[0], Sorted(fold, docs[1..]))
  }

  ghost predicate Increasing(fold: string -> string, docs: seq<KnowledgeDocument>) {
    forall i, j :: 0 <= i < j < |docs| ==> Before(fold, docs[i], docs[j])
  }

  ghost predicate OwnIds(docs: seq<KnowledgeDocument>) {
    forall i, j :: 0 <= i < j < |docs| ==> docs[i].documentId != docs[j].documentId
  }

  function Total(docs: seq<KnowledgeDocument>): nat {
    if docs == [] then 0 else docs[0].chunkCount + Total(docs[1..])
  }

  lemma {:induction false} InsertKeeps(fold: string -> string, x: KnowledgeDocument, docs: seq<KnowledgeDocument>)
    requires Increasing(fold, docs) && forall d <- docs :: d.documentId != x.documentId
    ensures Increasing(fold, Insert(fold, x, docs))
    ensures forall d :: d in Insert(fold, x, docs) <==> d == x || d in docs
    ensures |Insert(fold, x, docs)| == |docs| + 1 && Total(Insert(fold, x, docs)) == x.chunkCount + Total(docs)
    decreases |docs|
  {
    if docs != [] {
      assert docs == [docs[0]] + docs[1..];
      BeforeIsAnOrder(fold, x, docs[0], docs[0]);
      if Before(fold, x, docs[0]) {
        forall d | d in docs
          ensures Before(fold, x, d)
        {
          BeforeIsAnOrder(fold, x, docs[0], d);
        }
        assert ([x] + docs)[1..] == docs;
      } else {
        InsertKeeps(fold, x, docs[1..]);
        var rest := Insert(fold, x, docs[1..]);
        forall d | d in rest
          ensures Before(fold, docs[0], d)
        {
        }
        assert ([docs[0]] + rest)[1..] == rest;
      }
    }
  }

  lemma {:induction false} SortedKeeps(fold: string -> string, docs: seq<KnowledgeDocument>)
    requires OwnIds(docs)
    ensures Increasing(fold, Sorted(fold, docs))
    ensures forall d :: d in Sorted(fold, docs) <==> d in docs
    ensures |Sorted(fold, docs)| == |docs| && Total(Sorted(fold, docs)) == Total(docs)
    decreases |docs|
  {
    if docs != [] {
      assert docs == [docs[0]] + docs[1..];
      SortedKeeps(fold, docs[1..]);
      InsertKeeps(fold, docs[0], Sorted(fold, docs[1..]));
    }
  }

  /** Only one list in this order holds given documents. */
  lemma {:induction false} OneOrder(fold: string -> string, a: seq<KnowledgeDocument>, b: seq<KnowledgeDocument>)
    requires Increasing(fold, a) && Increasing(fold, b)
    requires forall d :: d in a <==> d in b
    ensures a == b
    decreases |a|
  {
    if a == [] {
      SomethingIn(b);
    } else {
      assert a[0] in b && b != [] && b[0] in a;
      BeforeIsAnOrder(fold, a[0], b[0], b[0]);
      var i :| 0 <= i < |b| && b[i] == a[0];
      var j :| 0 <= j < |a| && a[j] == b[0];
      assert a[0] == b[0];
      SameTails(fold, a, b);
      OneOrder(fold, a[1..], b[1..]);
    }
  }

  lemma SomethingIn(docs: seq<KnowledgeDocument>)
    ensures docs != [] ==> exists d :: d in docs
  {
    if docs != [] {
      assert docs[0] in docs;
    }
  }

  lemma HeadOrTail(docs: seq<KnowledgeDocument>, d: KnowledgeDocument)
    requires docs != []
    ensures d in docs <==> d == docs[0] || d in docs[1..]
  {
    assert docs == [docs[0]] + docs[1..];
  }

  lemma HeadIsFirst(fold: string -> string, docs: seq<KnowledgeDocument>)
    requires docs != [] && Increasing(fold, docs)
    ensures docs[0] !in docs[1..]
  {
    BeforeIsAnOrder(fold, docs[0], docs[0], docs[0]);
    forall k | 0 <= k < |docs[1..]|
      ensures docs[1..][k] != docs[0]
    {
      assert Before(fold, docs[0], docs[k + 1]);
    }
  }

  lemma SameTails(fold: string -> string, a: seq<KnowledgeDocument>, b: seq<KnowledgeDocument>)
    requires a != [] && b != [] && a[0] == b[0] && Increasing(fold, a) && Increasing(fold, b)
    requires forall d :: d in a <==> d in b
    ensures forall d :: d in a[1..] <==> d in b[1..]
  {
    HeadIsFirst(fold, a);
    HeadIsFirst(fold, b);
    forall d
      ensures d in a[1..] <==> d in b[1..]
    {
      HeadOrTail(a, d);
      HeadOrTail(b, d);
    }
  }

  // ---------------------------------------------------------------- the inventory

  /** The list the endpoint answers with. */
  function DocumentInventory(fold: string -> string, ps: seq<Payload>): seq<KnowledgeDocument> {
    Sorted(fold, Entries(ps, Ids(ps)))
  }

  lemma {:induction false} IdsAreThose(ps: seq<Payload>, id: string)
    ensures id in Ids(ps) <==> exists p <- ps :: p.documentId == Some(id)
    decreases |ps|
  {
    if ps != [] {
      var init, last := ps[..|ps| - 1], ps[|ps| - 1];
      IdsAreThose(init, id);
      assert ps == init + [last];
      if last.documentId == Some(id) {
        assert last in ps;
      }
    }
  }

  lemma {:induction false} IdsAreDistinct(ps: seq<Payload>)
    ensures forall i, j :: 0 <= i < j < |Ids(ps)| ==> Ids(ps)[i] != Ids(ps)[j]
    decreases |ps|
  {
    if ps != [] {
      IdsAreDistinct(ps[..|ps| - 1]);
    }
  }

  lemma {:induction false} EntriesAt(ps: seq<Payload>, ids: seq<string>)
    ensures |Entries(ps, ids)| == |ids|
    ensures forall i :: 0 <= i < |ids| ==> Entries(ps, ids)[i] == Entry(ps, ids[i])
    decreases |ids|
  {
    if ids != [] {
      EntriesAt(ps, ids[1..]);
    }
  }

  function Sum(ps: seq<Payload>, ids: seq<string>): nat {
    if ids == [] then 0 else Count(ps, ids[0]) + Sum(ps, ids[1..])
  }

  /** How many payloads have an id. */
  function WithId(ps: seq<Payload>): nat {
    if ps == [] then 0 else WithId(ps[..|ps| - 1]) + if ps[|ps| - 1].documentId.Some? then 1 else 0
  }

  /** One more payload counts once for its own id, if that is among the ids. */
  lemma {:induction false} SumGrows(ps: seq<Payload>, ids: seq<string>)
    requires ps != [] && forall i, j :: 0 <= i < j < |ids| ==> ids[i] != ids[j]
    ensures
      var d := ps[|ps| - 1].documentId;
      Sum(ps, ids) == Sum(ps[..|ps| - 1], ids) + if d.Some? && d.value in ids then 1 else 0
    decreases |ids|
  {
    if ids != [] {
      assert ids == [ids[0]] + ids[1..];
      forall i, j | 0 <= i < j < |ids[1..]|
        ensures ids[1..][i] != ids[1..][j]
      {
        assert ids[i + 1] != ids[j + 1];
      }
      assert ids[0] !in ids[1..];
      SumGrows(ps, ids[1..]);
    }
  }

  lemma {:induction false} SumJoin(ps: seq<Payload>, a: seq<string>, b: seq<string>)
    ensures Sum(ps, a + b) == Sum(ps, a) + Sum(ps, b)
    decreases |a|
  {
    if a == [] {
      assert a + b == b;
    } else {
      assert (a + b)[0] == a[0] && (a + b)[1..] == a[1..] + b;
      SumJoin(ps, a[1..], b);
    }
  }

  lemma {:induction false} UnknownCountsNothing(ps: seq<Payload>, id: string)
    requires id !in Ids(ps)
    ensures Count(ps, id) == 0
    decreases |ps|
  {
    if ps != [] {
      UnknownCountsNothing(ps[..|ps| - 1], id);
    }
  }

  lemma {:induction false} CountsAddUp(ps: seq<Payload>)
    ensures Sum(ps, Ids(ps)) == WithId(ps)
    decreases |ps|
  {
    if ps != [] {
      var init, d := ps[..|ps| - 1], ps[|ps| - 1].documentId;
      CountsAddUp(init);
      IdsAreDistinct(init);
      SumGrows(ps, Ids(init));
      if d.Some? && d.value !in Ids(init) {
        SumJoin(ps, Ids(init), [d.value]);
        UnknownCountsNothing(init, d.value);
        assert [d.value][1..] == [];
      }
    }
  }

  lemma {:induction false} TotalIsSum(ps: seq<Payload>, ids: seq<string>)
    ensures Total(Entries(ps, ids)) == Sum(ps, ids)
    decreases |ids|
  {
    if ids != [] {
      TotalIsSum(ps, ids[1..]);
      assert Entries(ps, ids)[1..] == Entries(ps, ids[1..]);
    }
  }

  lemma OwnEntries(ps: seq<Payload>)
    ensures OwnIds(Entries(ps, Ids(ps)))
    ensures forall d :: d in Entries(ps, Ids(ps)) <==> d.documentId in Ids(ps) && d == Entry(ps, d.documentId)
  {
    var ids := Ids(ps);
    IdsAreDistinct(ps);
    EntriesAt(ps, ids);
    var entries := Entries(ps, ids);
    forall d
      ensures d in entries <==> d.documentId in ids && d == Entry(ps, d.documentId)
    {
      if d in entries {
        var i :| 0 <= i < |entries| && entries[i] == d;
        assert ids[i] in ids;
      }
      if d.documentId in ids && d == Entry(ps, d.documentId) {
        var i :| 0 <= i < |ids| && ids[i] == d.documentId;
        assert entries[i] == d;
      }
    }
  }

  /**
   The inventory lists each document id that occurs exactly once, with its own count and pages, in
   the order of folded names and ids; the counts add up to the payloads that have an id.
   */
  lemma InventoryIsComplete(fold: string -> string, ps: seq<Payload>)
    ensures
      var docs := DocumentInventory(fold, ps);
      && Increasing(fold, docs)
      && |docs| == |Ids(ps)|
      && (forall d :: d in docs <==> d.documentId in Ids(ps) && d == Entry(ps, d.documentId))
      && Total(docs) == WithId(ps)
  {
    OwnEntries(ps);
    EntriesAt(ps, Ids(ps));
    SortedKeeps(fold, Entries(ps, Ids(ps)));
    TotalIsSum(ps, Ids(ps));
    CountsAddUp(ps);
  }

  /** a comes before b: at the first place where they differ, a has the smaller character or has ended. */
  predicate DiffersFirst(a: string, b: string, k: nat) {
    k <= |a| && k < |b| && a[..k] == b[..k] && (k == |a| || a[k] < b[k])
  }

  lemma {:induction false} LessIsLexicographic(a: string, b: string)
    ensures Less(a, b) <==> exists k :: 0 <= k <= |a| && DiffersFirst(a, b, k)
  {
    if a != "" && b != "" && a[0] == b[0] {
      LessIsLexicographic(a[1..], b[1..]);
      if Less(a[1..], b[1..]) {
        var k :| 0 <= k <= |a[1..]| && DiffersFirst(a[1..], b[1..], k);
        assert a[..k + 1] == [a[0]] + a[1..][..k] && b[..k + 1] == [b[0]] + b[1..][..k];
        assert DiffersFirst(a, b, k + 1);
      }
      if exists k :: 0 <= k <= |a| && DiffersFirst(a, b, k) {
        var k :| 0 <= k <= |a| && DiffersFirst(a, b, k);
        assert a[..k][1..] == a[1..][..k - 1] && b[..k][1..] == b[1..][..k - 1];
        assert DiffersFirst(a[1..], b[1..], k - 1);
      }
    } else {
      assert Less(a, b) ==> DiffersFirst(a, b, 0);
      assert forall k :: 0 < k && DiffersFirst(a, b, k) ==> a[..k][0] == b[..k][0];
    }
  }

  /** The list is ordered by folded file name, and by document id where those are equal. */
  lemma ListedInOrder(fold: string -> string, ps: seq<Payload>, i: nat, j: nat)
    requires i < j < |DocumentInventory(fold, ps)|
    ensures
      var x, y := DocumentInventory(fold, ps)[i], DocumentInventory(fold, ps)[j];
      var a, b := fold(x.meta.fileName), fold(y.meta.fileName);
      if a != b then exists k :: 0 <= k <= |a| && DiffersFirst(a, b, k)
      else exists k :: 0 <= k <= |x.documentId| && DiffersFirst(x.documentId, y.documentId, k)
  {
    var x, y := DocumentInventory(fold, ps)[i], DocumentInventory(fold, ps)[j];
    InventoryIsComplete(fold, ps);
    assert Before(fold, x, y);
    LessIsIrreflexive(fold(x.meta.fileName));
    LessIsLexicographic(fold(x.meta.fileName), fold(y.meta.fileName));
    LessIsLexicographic(x.documentId, y.documentId);
  }

  // ---------------------------------------------------------------- any order of the payloads

  ghost predicate Agreeing(ps: seq<Payload>) {
    forall p <- ps, q <- ps :: p.documentId.Some? && p.documentId == q.documentId ==> MetaOf(p) == MetaOf(q)
  }

  lemma {:induction false} FirstMetaIsOne(ps: seq<Payload>, id: string) returns (p: Payload)
    requires id in Ids(ps)
    ensures p in ps && p.documentId == Some(id) && FirstMeta(ps, id) == MetaOf(p)
    decreases |ps|
  {
    var init := ps[..|ps| - 1];
    if id in Ids(init) {
      p := FirstMetaIsOne(init, id);
      assert p in init;
    } else {
      p := ps[|ps| - 1];
    }
  }

  /** meta is what a payload says about its document: what is stored, or a default for what is not there. */
  predicate IsSaidBy(meta: Meta, p: Payload) {
    && meta.fileName == (if p.fileName.Given? then p.fileName.text else if p.fileName.Null? then "None" else "unknown")
    && meta.sourcePath == (if p.sourcePath.Given? then p.sourcePath.text else if p.sourcePath.Null? then "None" else "")
    && meta.checksum == (if p.checksum.Given? then p.checksum.text else if p.checksum.Null? then "None" else "")
  }

  /** A listed document goes by what its very first payload says, and counts its payloads and its distinct pages. */
  lemma FirstPayloadSays(fold: string -> string, ps: seq<Payload>, d: KnowledgeDocument) returns (k: nat)
    requires d in DocumentInventory(fold, ps)
    ensures k < |ps| && ps[k].documentId == Some(d.documentId) && IsSaidBy(d.meta, ps[k])
    ensures forall j :: 0 <= j < k ==> ps[j].documentId != Some(d.documentId)
    ensures d.chunkCount == Count(ps, d.documentId)
    ensures d.pageCount == |set p | p in ps && p.documentId == Some(d.documentId) && p.page.Parsed? :: p.page.number|
  {
    InventoryIsComplete(fold, ps);
    k := FirstOf(ps, d.documentId);
  }

  lemma {:induction false} FirstOf(ps: seq<Payload>, id: string) returns (k: nat)
    requires id in Ids(ps)
    ensures k < |ps| && ps[k].documentId == Some(id) && IsSaidBy(FirstMeta(ps, id), ps[k])
    ensures forall j :: 0 <= j < k ==> ps[j].documentId != Some(id)
    decreases |ps|
  {
    var n := |ps| - 1;
    if id in Ids(ps[..n]) {
      k := FirstOf(ps[..n], id);
    } else {
      k := n;
      IdsAreThose(ps[..n], id);
      forall j | 0 <= j < n
        ensures ps[j].documentId != Some(id)
      {
        assert ps[..n][j] in ps[..n];
      }
    }
  }

  lemma {:induction false} CountJoin(a: seq<Payload>, b: seq<Payload>, id: string)
    ensures Count(a + b, id) == Count(a, id) + Count(b, id)
    decreases |b|
  {
    if b == [] {
      assert a + b == a;
    } else {
      assert (a + b)[..|a + b| - 1] == a + b[..|b| - 1];
      CountJoin(a, b[..|b| - 1], id);
    }
  }

  lemma {:induction false} CountIgnoresOrder(a: seq<Payload>, b: seq<Payload>, id: string)
    requires multiset(a) == multiset(b)
    ensures Count(a, id) == Count(b, id)
    decreases |a|
  {
    if a == [] {
      assert |b| == |multiset(b)| == 0;
    } else {
      var init, last := a[..|a| - 1], a[|a| - 1];
      assert a == init + [last];
      assert last in multiset(b);
      var k :| 0 <= k < |b| && b[k] == last;
      WithoutOne(b, k, id);
      var rest := b[..k] + b[k + 1..];
      assert multiset(a) == multiset(init) + multiset{last};
      assert multiset(init) == multiset(a) - multiset{last} && multiset(rest) == multiset(b) - multiset{last};
      CountIgnoresOrder(init, rest, id);
      CountJoin(init, [last], id);
    }
  }

  /** Taking one payload out of a list. */
  lemma WithoutOne(b: seq<Payload>, k: nat, id: string)
    requires k < |b|
    ensures
      var rest := b[..k] + b[k + 1..];
      multiset(b) == multiset(rest) + multiset{b[k]} && Count(b, id) == Count(rest, id) + Count([b[k]], id)
  {
    assert b == b[..k] + ([b[k]] + b[k + 1..]);
    CountJoin(b[..k], [b[k]] + b[k + 1..], id);
    CountJoin([b[k]], b[k + 1..], id);
    CountJoin(b[..k], b[k + 1..], id);
  }

  lemma SameMembers(a: seq<Payload>, b: seq<Payload>)
    requires multiset(a) == multiset(b)
    ensures forall p :: p in a <==> p in b
  {
    forall p
      ensures p in a <==> p in b
    {
      assert p in a <==> p in multiset(a);
      assert p in b <==> p in multiset(b);
    }
  }

  lemma EntryIgnoresOrder(a: seq<Payload>, b: seq<Payload>, id: string)
    requires multiset(a) == multiset(b) && Agreeing(a)
    ensures id in Ids(a) <==> id in Ids(b)
    ensures id in Ids(a) ==> Entry(a, id) == Entry(b, id)
  {
    SameMembers(a, b);
    IdsAreThose(a, id);
    IdsAreThose(b, id);
    if id in Ids(a) {
      CountIgnoresOrder(a, b, id);
      assert PagesOf(a, id) == PagesOf(b, id);
      var p := FirstMetaIsOne(a, id);
      var q := FirstMetaIsOne(b, id);
    }
  }

  /** When the payloads of one document agree on what it is called, the inventory does not depend on their order. */
  lemma InventoryIgnoresOrder(fold: string -> string, a: seq<Payload>, b: seq<Payload>)
    requires multiset(a) == multiset(b) && Agreeing(a)
    ensures DocumentInventory(fold, a) == DocumentInventory(fold, b)
  {
    InventoryIsComplete(fold, a);
    InventoryIsComplete(fold, b);
    var x, y := DocumentInventory(fold, a), DocumentInventory(fold, b);
    forall d
      ensures d in x <==> d in y
    {
      EntryIgnoresOrder(a, b, d.documentId);
    }
    OneOrder(fold, x, y);
  }

  lemma {:induction false} FirstInFront(p: Payload, rest: seq<Payload>)
    requires p.documentId.Some?
    ensures p.documentId.value in Ids([p] + rest) && FirstMeta([p] + rest, p.documentId.value) == MetaOf(p)
    decreases |rest|
  {
    var ps := [p] + rest;
    if rest == [] {
      assert ps == [p] && ps[..0] == [];
    } else {
      assert ps[..|ps| - 1] == [p] + rest[..|rest| - 1];
      FirstInFront(p, rest[..|rest| - 1]);
    }
  }

  lemma MoveToFront(ps: seq<Payload>, p: Payload) returns (rest: seq<Payload>)
    requires p in ps
    ensures multiset([p] + rest) == multiset(ps)
  {
    var k :| 0 <= k < |ps| && ps[k] == p;
    rest := ps[..k] + ps[k + 1..];
    assert ps == ps[..k] + [p] + ps[k + 1..];
  }

  lemma DisagreementShows(fold: string -> string, p: Payload, a: seq<Payload>, q: Payload, b: seq<Payload>)
    requires p.documentId.Some? && p.documentId == q.documentId && MetaOf(p) != MetaOf(q)
    ensures DocumentInventory(fold, [p] + a) != DocumentInventory(fold, [q] + b)
  {
    var id := p.documentId.value;
    FirstInFront(p, a);
    FirstInFront(q, b);
    InventoryIsComplete(fold, [p] + a);
    InventoryIsComplete(fold, [q] + b);
    assert Entry([p] + a, id) in DocumentInventory(fold, [p] + a);
    assert Entry([p] + a, id) !in DocumentInventory(fold, [q] + b);
  }

  /** The inventory is the same for every order of the payloads exactly when the payloads of each document agree. */
  lemma OrderMattersOnlyOnDisagreement(fold: string -> string, a: seq<Payload>)
    ensures (forall b :: multiset(b) == multiset(a) ==> DocumentInventory(fold, b) == DocumentInventory(fold, a)) <==>
      Agreeing(a)
  {
    if Agreeing(a) {
      forall b | multiset(b) == multiset(a)
        ensures DocumentInventory(fold, b) == DocumentInventory(fold, a)
      {
        InventoryIgnoresOrder(fold, a, b);
      }
    } else {
      var p, q :| p in a && q in a && p.documentId.Some? && p.documentId == q.documentId && MetaOf(p) != MetaOf(q);
      var x := MoveToFront(a, p);
      var y := MoveToFront(a, q);
      DisagreementShows(fold, p, x, q, y);
      assert DocumentInventory(fold, [p] + x) != DocumentInventory(fold, a) ||
        DocumentInventory(fold, [q] + y) != DocumentInventory(fold, a);
    }
  }

  /** Two payloads of one document that disagree on its file name: the list shows the one that comes first. */
  lemma FirstNameIsShown(fold: string -> string)
    ensures
      var p := Payload(Some("d"), Given("old.txt"), Given("a"), Given("c"), NoPage);
      var q := p.(fileName := Given("new.txt"));
      && multiset([p, q]) == multiset([q, p])
      && DocumentInventory(fold, [p] + [q]) != DocumentInventory(fold, [q] + [p])
  {
    var p := Payload(Some("d"), Given("old.txt"), Given("a"), Given("c"), NoPage);
    var q := p.(fileName := Given("new.txt"));
    assert MetaOf(p).fileName[0] != MetaOf(q).fileName[0];
    DisagreementShows(fold, p, [q], q, [p]);
  }

  // ---------------------------------------------------------------- the grouping loop

  datatype Group = Group(meta: Meta, chunkCount: nat)

  ghost predicate Grouped(ps: seq<Payload>, order: seq<string>, grouped: map<string, Group>,
      pages: map<string, set<int>>) {
    && order == Ids(ps)
    && (forall id :: id in grouped <==> id in order)
    && (forall id <- grouped :: grouped[id] == Group(FirstMeta(ps, id), Count(ps, id)))
    && (forall id :: (if id in pages then pages[id] else {}) == PagesOf(ps, id))
  }

  lemma OneMore(ps: seq<Payload>, p: Payload, id: string)
    ensures Count(ps + [p], id) == Count(ps, id) + (if p.documentId == Some(id) then 1 else 0)
    ensures id in Ids(ps) ==> FirstMeta(ps + [p], id) == FirstMeta(ps, id)
    ensures id !in Ids(ps) ==> FirstMeta(ps + [p], id) == MetaOf(p) && Count(ps, id) == 0
    ensures PagesOf(ps + [p], id) ==
      PagesOf(ps, id) + (if p.documentId == Some(id) && p.page.Parsed? then {p.page.number} else {})
  {
    assert (ps + [p])[..|ps|] == ps;
    if id !in Ids(ps) {
      UnknownCountsNothing(ps, id);
    }
  }

  // One payload of document d, added to the groups.

  function OrderAfter(order: seq<string>, d: string): seq<string> {
    if d in order then order else order + [d]
  }

  function GroupsAfter(grouped: map<string, Group>, p: Payload, d: string): map<string, Group> {
    var group := if d in grouped then grouped[d] else Group(MetaOf(p), 0);
    grouped[d := group.(chunkCount := group.chunkCount + 1)]
  }

  function PagesAfter(pages: map<string, set<int>>, p: Payload, d: string): map<string, set<int>> {
    if p.page.Parsed? then pages[d := (if d in pages then pages[d] else {}) + {p.page.number}] else pages
  }

  lemma GroupsOneMore(ps: seq<Payload>, p: Payload, d: string, order: seq<string>, grouped: map<string, Group>,
      pages: map<string, set<int>>)
    requires Grouped(ps, order, grouped, pages) && p.documentId == Some(d)
    ensures Grouped(ps + [p], OrderAfter(order, d), GroupsAfter(grouped, p, d), PagesAfter(pages, p, d))
  {
    assert (ps + [p])[..|ps|] == ps;
    var groups, seen := GroupsAfter(grouped, p, d), PagesAfter(pages, p, d);
    forall id | id in groups
      ensures groups[id] == Group(FirstMeta(ps + [p], id), Count(ps + [p], id))
    {
      OneMore(ps, p, id);
    }
    forall id
      ensures (if id in seen then seen[id] else {}) == PagesOf(ps + [p], id)
    {
      OneMore(ps, p, id);
    }
  }

  lemma GroupsNoMore(ps: seq<Payload>, p: Payload, order: seq<string>, grouped: map<string, Group>,
      pages: map<string, set<int>>)
    requires Grouped(ps, order, grouped, pages) && p.documentId.None?
    ensures Grouped(ps + [p], order, grouped, pages)
  {
    assert (ps + [p])[..|ps|] == ps;
    forall id {
      OneMore(ps, p, id);
    }
  }

  method GroupPayload(p: Payload, order: seq<string>, grouped: map<string, Group>, pages: map<string, set<int>>,
      ghost ps: seq<Payload>)
    returns (order': seq<string>, grouped': map<string, Group>, pages': map<string, set<int>>)
    requires Grouped(ps, order, grouped, pages)
    ensures Grouped(ps + [p], order', grouped', pages')
  {
    order', grouped', pages' := order, grouped, pages;
    if p.documentId.None? {
      GroupsNoMore(ps, p, order, grouped, pages);
      return;
    }
    var documentId := p.documentId.value;
    GroupsOneMore(ps, p, documentId, order, grouped, pages);
    if documentId !in grouped' {
      grouped' := grouped'[documentId := Group(MetaOf(p), 0)];
      order' := order' + [documentId];
    }
    grouped' := grouped'[documentId := grouped'[documentId].(chunkCount := grouped'[documentId].chunkCount + 1)];
    if p.page.Parsed? {
      var known := if documentId in pages' then pages'[documentId] else {};
      pages' := pages'[documentId := known + {p.page.number}];
    }
    assert grouped' == GroupsAfter(grouped, p, documentId);
  }

  method BuildDocumentInventory(fold: string -> string, payloads: seq<Payload>)
      returns (documents: seq<KnowledgeDocument>)
    ensures documents == DocumentInventory(fold, payloads)
  {
    var order: seq<string> := [];
    var grouped: map<string, Group> := map[];
    var pages: map<string, set<int>> := map[];
    for i := 0 to |payloads|
      invariant Grouped(payloads[..i], order, grouped, pages)
    {
      assert payloads[..i + 1] == payloads[..i] + [payloads[i]];
      order, grouped, pages := GroupPayload(payloads[i], order, grouped, pages, payloads[..i]);
    }
    assert payloads[..|payloads|] == payloads;
    documents := ListDocuments(order, grouped, pages, payloads);
    documents := Sorted(fold, documents);
  }

  lemma GroupedEntry(ps: seq<Payload>, order: seq<string>, grouped: map<string, Group>, pages: map<string, set<int>>,
      id: string)
    requires Grouped(ps, order, grouped, pages) && id in order
    ensures id in grouped
    ensures
      var pageCount := if id in pages then |pages[id]| else 0;
      Entry(ps, id) == KnowledgeDocument(id, grouped[id].meta, grouped[id].chunkCount, pageCount)
  {
    assert (if id in pages then pages[id] else {}) == PagesOf(ps, id);
  }

  method ListDocuments(order: seq<string>, grouped: map<string, Group>, pages: map<string, set<int>>,
      ghost ps: seq<Payload>)
    returns (documents: seq<KnowledgeDocument>)
    requires Grouped(ps, order, grouped, pages)
    ensures documents == Entries(ps, order)
  {
    documents := [];
    ghost var all := Entries(ps, order);
    EntriesAt(ps, order);
    for i := 0 to |order|
      invariant documents == all[..i]
    {
      var id := order[i];
      var pageCount := if id in pages then |pages[id]| else 0;
      GroupedEntry(ps, order, grouped, pages, id);
      assert all[i] == KnowledgeDocument(id, grouped[id].meta, grouped[id].chunkCount, pageCount);
      documents := documents + [KnowledgeDocument(id, grouped[id].meta, grouped[id].chunkCount, pageCount)];
    }
  }
}
