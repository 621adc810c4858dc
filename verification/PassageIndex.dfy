/**
  The derived passage index of `passage_index.py`: trigger-maintained documents and passages
  beside the mirrored pages, built incrementally by `build_index`. Passage rows are kept per
  page, so row ids do not appear. SHA-256 is an injective function of what it digests.
 */
module PassageIndex {
  import opened Prelude

  type PageId = nat

  datatype Page = Page(
    namespace: int, title: string, url: string, revision: Option<int>,
    wikitext: string, plain: string, timestamp: Option<string>, lastSeen: string)

  datatype Digest = Sha(text: string) | ShaPair(wikitext: string, plain: string)

  datatype Row = Row(start: nat, end: nat, path: seq<string>, body: string, oversized: bool)

  datatype Document = Document(
    namespace: int, title: string, url: string, revision: Option<int>, normalizer: int,
    source: Digest, digest: Digest, text: string,
    redirectTarget: Option<string>, isRedirect: bool, deprecated: bool, kind: string, passageCount: nat)

  datatype Versions = Versions(schema: int, normalizer: int)

  /** The deterministic text functions the index is derived with. */
  datatype Rules = Rules(
    research: (int, string) -> string,
    chunk: string -> seq<Row>,
    redirectTarget: string -> Option<string>,
    isRedirect: string -> bool,
    deprecated: string -> bool,
    kind: string -> string)

  /** The database: `meta` is absent until the derived tables and their triggers exist. */
  datatype Mirror = Mirror(
    pages: map<PageId, Page>, meta: Option<Versions>, complete: bool,
    documents: map<PageId, Document>, passages: map<PageId, seq<Row>>)
  {
    function Rows(id: PageId): seq<Row> { if id in passages then passages[id] else [] }
  }

  function Text(rules: Rules, normalizer: int, page: Page): string {
    var text := rules.research(normalizer, page.wikitext);
    if text != "" then text else page.plain
  }

  function MakeRows(rules: Rules, normalizer: int, page: Page): seq<Row> {
    rules.chunk(Text(rules, normalizer, page))
  }

  function MakeDocument(rules: Rules, normalizer: int, page: Page): Document {
    var text := Text(rules, normalizer, page);
    Document(page.namespace, page.title, page.url, page.revision, normalizer,
             ShaPair(page.wikitext, page.plain), Sha(text), text,
             rules.redirectTarget(page.wikitext), rules.isRedirect(page.wikitext),
             rules.deprecated(page.wikitext), rules.kind(page.title), |rules.chunk(text)|)
  }

  /** What a from-scratch rebuild of the current pages would store. */
  ghost predicate IsRebuilt(rules: Rules, normalizer: int, s: Mirror) {
    && s.documents.Keys == s.pages.Keys
    && (forall id | id !in s.pages :: s.Rows(id) == [])
    && (forall id | id in s.pages ::
          s.documents[id] == MakeDocument(rules, normalizer, s.pages[id]) && s.Rows(id) == MakeRows(rules, normalizer, s.pages[id]))
  }

  // ------------------------------------------------------------------ what is stored for a page

  /** Column by column, what is stored for a page: its research text, or its plain text where that is empty. */
  predicate DerivedFrom(rules: Rules, normalizer: int, page: Page, d: Document, rows: seq<Row>) {
    && (rules.research(normalizer, page.wikitext) != "" ==> d.text == rules.research(normalizer, page.wikitext))
    && (rules.research(normalizer, page.wikitext) == "" ==> d.text == page.plain)
    && rows == rules.chunk(d.text) && d.passageCount == |rows|
    && d.namespace == page.namespace && d.title == page.title && d.url == page.url && d.revision == page.revision
    && d.normalizer == normalizer && d.source == ShaPair(page.wikitext, page.plain) && d.digest == Sha(d.text)
    && d.redirectTarget == rules.redirectTarget(page.wikitext) && d.isRedirect == rules.isRedirect(page.wikitext)
    && d.deprecated == rules.deprecated(page.wikitext) && d.kind == rules.kind(page.title)
  }

  /** Every page has its document and rows, and there is nothing else. */
  ghost predicate AllDerived(rules: Rules, normalizer: int, s: Mirror) {
    && s.documents.Keys == s.pages.Keys
    && (forall id | id !in s.pages :: s.Rows(id) == [])
    && (forall id | id in s.pages :: DerivedFrom(rules, normalizer, s.pages[id], s.documents[id], s.Rows(id)))
  }

  /** These columns are all that a rebuild stores. */
  lemma RebuiltIffDerived(rules: Rules, normalizer: int, s: Mirror)
    ensures IsRebuilt(rules, normalizer, s) <==> AllDerived(rules, normalizer, s)
  {
    if AllDerived(rules, normalizer, s) {
      forall id | id in s.pages
        ensures s.documents[id] == MakeDocument(rules, normalizer, s.pages[id]) && s.Rows(id) == MakeRows(rules, normalizer, s.pages[id])
      {
        assert DerivedFrom(rules, normalizer, s.pages[id], s.documents[id], s.Rows(id));
      }
    }
  }

  // ------------------------------------------------------------------ writes and their triggers

  function Touched(s: Mirror): Mirror {
    if s.meta.Some? then s.(complete := false) else s
  }

  /** Deleting a document row also deletes its passage rows. */
  function WithoutDocument(s: Mirror, id: PageId): Mirror {
    if s.meta.Some? && id in s.documents
    then Touched(s.(documents := s.documents - {id}, passages := s.passages - {id}))
    else s
  }

  /** The columns the update trigger compares. */
  predicate SameSource(a: Page, b: Page) {
    a == b.(timestamp := a.timestamp, lastSeen := a.lastSeen)
  }

  /** The columns `_upsert_page` itself compares; address and plain text are not among them. */
  predicate SameFetch(a: Page, b: Page) {
    a.wikitext == b.wikitext && a.title == b.title && a.namespace == b.namespace && a.revision == b.revision
  }

  function Inserted(s: Mirror, id: PageId, page: Page): Mirror {
    Touched(s.(pages := s.pages[id := page]))
  }

  function Updated(s: Mirror, id: PageId, page: Page): Mirror
    requires id in s.pages
  {
    var t := s.(pages := s.pages[id := page]);
    if SameSource(s.pages[id], page) then t else Touched(WithoutDocument(t, id))
  }

  function Upserted(s: Mirror, id: PageId, page: Page): Mirror {
    if id !in s.pages then Inserted(s, id, page)
    else if SameFetch(s.pages[id], page)
    then Updated(s, id, s.pages[id].(timestamp := page.timestamp, lastSeen := page.lastSeen))
    else Updated(s, id, page)
  }

  /** Other pages keep their page, their document and their rows. */
  ghost predicate OthersStay(s: Mirror, t: Mirror, id: PageId) {
    forall x | x != id :: Get(t.pages, x) == Get(s.pages, x) && Get(t.documents, x) == Get(s.documents, x) && t.Rows(x) == s.Rows(x)
  }

  /** Nothing that was derived from the page is left, and a query accepts the index no more. */
  predicate Invalidated(s: Mirror, t: Mirror, id: PageId) {
    t.meta.Some? ==> !t.complete && id !in t.documents && (id in s.documents ==> id !in t.passages)
  }

  /**
    What a fetched page changes. Equal wikitext, title, namespace and revision: only the sighting
    and its time. Otherwise the page is replaced and what was derived from it is gone.
   */
  ghost predicate UpsertIs(s: Mirror, id: PageId, page: Page, t: Mirror) {
    && t.meta == s.meta && OthersStay(s, t, id)
    && if id in s.pages && s.pages[id].wikitext == page.wikitext && s.pages[id].title == page.title
          && s.pages[id].namespace == page.namespace && s.pages[id].revision == page.revision then
         && t.pages == s.pages[id := s.pages[id].(timestamp := page.timestamp, lastSeen := page.lastSeen)]
         && t.documents == s.documents && t.passages == s.passages && t.complete == s.complete
       else
         && t.pages == s.pages[id := page] && (t.meta.Some? ==> !t.complete)
         && (id in s.pages ==> Invalidated(s, t, id))
  }

  lemma UpdatedIs(s: Mirror, id: PageId, page: Page, t: Mirror)
    requires id in s.pages && t == Updated(s, id, page)
    ensures t.pages == s.pages[id := page] && t.meta == s.meta && OthersStay(s, t, id)
    ensures SameSource(s.pages[id], page) ==> t == s.(pages := s.pages[id := page])
    ensures !SameSource(s.pages[id], page) ==> Invalidated(s, t, id)
  {
  }

  lemma UpsertedIs(s: Mirror, id: PageId, page: Page)
    ensures UpsertIs(s, id, page, Upserted(s, id, page))
  {
    if id in s.pages {
      var sighted := s.pages[id].(timestamp := page.timestamp, lastSeen := page.lastSeen);
      UpdatedIs(s, id, page, Updated(s, id, page));
      UpdatedIs(s, id, sighted, Updated(s, id, sighted));
    }
  }

  /** A deleted page is gone with all that was derived from it. */
  ghost predicate DeleteIs(s: Mirror, id: PageId, t: Mirror) {
    t.pages == s.pages - {id} && t.meta == s.meta && OthersStay(s, t, id) && Invalidated(s, t, id)
  }

  lemma DeletedIs(s: Mirror, id: PageId)
    ensures DeleteIs(s, id, Deleted(s, id))
  {
  }

  function Deleted(s: Mirror, id: PageId): Mirror {
    Touched(WithoutDocument(s.(pages := s.pages - {id}), id))
  }

  function Without(rows: seq<Row>, i: nat): (r: seq<Row>)
    requires i < |rows|
    ensures |r| == |rows| - 1
  {
    rows[..i] + rows[i + 1 ..]
  }

  /** Rows lost outside the application: the delete trigger marks the index incomplete. */
  function LostRow(s: Mirror, id: PageId, i: nat): Mirror
    requires i < |s.Rows(id)|
  {
    var rows := s.Rows(id);
    Touched(s.(passages := s.passages[id := Without(rows, i)]))
  }

  // ------------------------------------------------------------------ building

  /** The reuse test of `build_index` for one page. */
  predicate Reusable(stored: Document, rows: seq<Row>, page: Page) {
    && stored.source == ShaPair(page.wikitext, page.plain)
    && stored.revision == page.revision && stored.title == page.title
    && stored.namespace == page.namespace && stored.url == page.url
    && stored.digest == Sha(stored.text)
    && stored.passageCount == |rows|
  }

  function Dropped(s: Mirror): Mirror {
    s.(meta := None, complete := false, documents := map[], passages := map[])
  }

  predicate Reuses(s: Mirror, code: Versions, id: PageId)
    requires id in s.pages
  {
    s.meta == Some(code) && id in s.documents && Reusable(s.documents[id], s.Rows(id), s.pages[id])
  }

  /** Compared column by column, with text and rows that are still what their digest and count say. */
  predicate Unchanged(s: Mirror, code: Versions, id: PageId) {
    && s.meta == Some(code) && id in s.documents && id in s.pages
    && var d, page := s.documents[id], s.pages[id];
    && d.source == ShaPair(page.wikitext, page.plain) && d.revision == page.revision
    && d.title == page.title && d.namespace == page.namespace && d.url == page.url
    && d.digest == Sha(d.text) && d.passageCount == |s.Rows(id)|
  }

  lemma ReusesIff(s: Mirror, code: Versions, id: PageId)
    requires id in s.pages
    ensures Reuses(s, code, id) <==> Unchanged(s, code, id)
  {
  }

  /** After a build every page has what was stored for it, where that was unchanged, or what it derives. */
  ghost predicate BuiltOrKept(rules: Rules, code: Versions, s: Mirror, t: Mirror) {
    forall id | id in t.pages :: id in t.documents
      && if Unchanged(s, code, id) then t.documents[id] == s.documents[id] && t.Rows(id) == s.Rows(id)
         else exists rows :: t.Rows(id) == Strays(s, code, id) + rows && DerivedFrom(rules, code.normalizer, t.pages[id], t.documents[id], rows)
  }

  lemma BuiltIsDerived(rules: Rules, code: Versions, s: Mirror, t: Mirror)
    requires IsBuilt(rules, code, s, t)
    ensures BuiltOrKept(rules, code, s, t)
  {
    forall id | id in t.pages ensures id in t.documents
      && if Unchanged(s, code, id) then t.documents[id] == s.documents[id] && t.Rows(id) == s.Rows(id)
         else exists rows :: t.Rows(id) == Strays(s, code, id) + rows && DerivedFrom(rules, code.normalizer, t.pages[id], t.documents[id], rows)
    {
      ReusesIff(s, code, id);
      if !Unchanged(s, code, id) {
        var rows := MakeRows(rules, code.normalizer, s.pages[id]);
        assert t.Rows(id) == Strays(s, code, id) + rows && DerivedFrom(rules, code.normalizer, t.pages[id], t.documents[id], rows);
      }
    }
  }

  /** Passage rows that belong to no document: the build neither sees nor removes them. */
  function Strays(s: Mirror, code: Versions, id: PageId): seq<Row> {
    if s.meta == Some(code) && id !in s.documents then s.Rows(id) else []
  }

  function BuiltDocument(rules: Rules, code: Versions, s: Mirror, id: PageId): Document
    requires id in s.pages
  {
    if Reuses(s, code, id) then s.documents[id] else MakeDocument(rules, code.normalizer, s.pages[id])
  }

  function BuiltRows(rules: Rules, code: Versions, s: Mirror, id: PageId): seq<Row> {
    if id in s.pages && Reuses(s, code, id) then s.Rows(id)
    else Strays(s, code, id) + (if id in s.pages then MakeRows(rules, code.normalizer, s.pages[id]) else [])
  }

  /** The exact effect of a successful `build_index` run by code of these versions. */
  ghost predicate IsBuilt(rules: Rules, code: Versions, s: Mirror, t: Mirror) {
    && t.pages == s.pages && t.meta == Some(code) && t.complete
    && t.documents.Keys == s.pages.Keys
    && (forall id | id in s.pages :: t.documents[id] == BuiltDocument(rules, code, s, id))
    && (forall id :: t.Rows(id) == BuiltRows(rules, code, s, id))
  }

  // ------------------------------------------------------------------ invariant

  /** `a` is what is left of `b` after deleting rows. */
  predicate Left(a: seq<Row>, b: seq<Row>) {
    if a == [] then true
    else b != [] && ((a[0] == b[0] && Left(a[1..], b[1..])) || Left(a, b[1..]))
  }

  lemma {:induction false} LeftIsShorter(a: seq<Row>, b: seq<Row>)
    requires Left(a, b)
    ensures |a| <= |b|
    ensures |a| == |b| ==> a == b
    decreases |b|
  {
    if a != [] {
      if a[0] == b[0] && Left(a[1..], b[1..]) {
        LeftIsShorter(a[1..], b[1..]);
      } else {
        LeftIsShorter(a, b[1..]);
      }
    }
  }

  lemma {:induction false} LeftOfItself(a: seq<Row>)
    ensures Left(a, a)
  {
    if a != [] {
      LeftOfItself(a[1..]);
    }
  }

  lemma {:induction false} LeftAfterLoss(a: seq<Row>, b: seq<Row>, i: nat)
    requires Left(a, b) && i < |a|
    ensures Left(Without(a, i), b)
    decreases |b|
  {
    var c := Without(a, i);
    if a[0] == b[0] && Left(a[1..], b[1..]) {
      if i == 0 {
        assert c == a[1..];
        LeftWeaken(c, b);
      } else {
        LeftAfterLoss(a[1..], b[1..], i - 1);
        assert c[1..] == Without(a[1..], i - 1);
      }
    } else {
      LeftAfterLoss(a, b[1..], i);
    }
  }

  lemma LeftWeaken(a: seq<Row>, b: seq<Row>)
    requires b != [] && Left(a, b[1..])
    ensures Left(a, b)
  {
  }

  ghost predicate Describes(rules: Rules, normalizer: int, s: Mirror, id: PageId)
    requires id in s.documents && id in s.pages
  {
    && s.documents[id] == MakeDocument(rules, normalizer, s.pages[id])
    && Left(s.Rows(id), MakeRows(rules, normalizer, s.pages[id]))
  }

  /** Stored documents describe their current page; passage rows are what is left of the current ones. */
  ghost predicate Inv(rules: Rules, s: Mirror) {
    && (s.meta.None? ==> !s.complete && s.documents == map[] && s.passages == map[])
    && s.documents.Keys <= s.pages.Keys
    && (forall id | id !in s.documents :: s.Rows(id) == [])
    && (forall id | id in s.documents :: s.meta.Some? && Describes(rules, s.meta.value.normalizer, s, id))
    && (s.complete ==> s.meta.Some? && IsRebuilt(rules, s.meta.value.normalizer, s))
  }

  lemma InsertedOk(rules: Rules, s: Mirror, id: PageId, page: Page)
    requires Inv(rules, s) && id !in s.pages
    ensures Inv(rules, Inserted(s, id, page))
  {
  }

  lemma UpdatedOk(rules: Rules, s: Mirror, id: PageId, page: Page)
    requires Inv(rules, s) && id in s.pages
    ensures Inv(rules, Updated(s, id, page))
  {
    if SameSource(s.pages[id], page) {
      SightingOk(rules, s, id, page);
    } else {
      ChangedOk(rules, s, id, page);
    }
  }

  lemma ChangedOk(rules: Rules, s: Mirror, id: PageId, page: Page)
    requires Inv(rules, s) && id in s.pages
    ensures Inv(rules, Touched(WithoutDocument(s.(pages := s.pages[id := page]), id)))
  {
    WithoutDocumentOk(rules, s, id);
    RepagedOk(rules, WithoutDocument(s, id), id, page);
  }

  /** A page nothing is derived from may change at will, if the index is marked incomplete. */
  lemma RepagedOk(rules: Rules, s: Mirror, id: PageId, page: Page)
    requires Inv(rules, s) && id in s.pages && id !in s.documents
    ensures Inv(rules, Touched(s.(pages := s.pages[id := page])))
  {
    var t := Touched(s.(pages := s.pages[id := page]));
    assert forall i :: t.Rows(i) == s.Rows(i);
    forall i | i in t.documents ensures Describes(rules, t.meta.value.normalizer, t, i) {
      assert Describes(rules, s.meta.value.normalizer, s, i);
    }
  }

  /** A page changed only in columns no document depends on. */
  lemma SightingOk(rules: Rules, s: Mirror, id: PageId, page: Page)
    requires Inv(rules, s) && id in s.pages
    requires s.meta.Some? ==> MakeDocument(rules, s.meta.value.normalizer, page) == MakeDocument(rules, s.meta.value.normalizer, s.pages[id])
    requires s.meta.Some? ==> MakeRows(rules, s.meta.value.normalizer, page) == MakeRows(rules, s.meta.value.normalizer, s.pages[id])
    ensures Inv(rules, s.(pages := s.pages[id := page]))
  {
    var t := s.(pages := s.pages[id := page]);
    assert forall i :: t.Rows(i) == s.Rows(i);
    forall i | i in t.documents ensures Describes(rules, t.meta.value.normalizer, t, i) {
      assert Describes(rules, s.meta.value.normalizer, s, i);
    }
    if s.complete {
      SightingRebuilt(rules, s.meta.value.normalizer, s, t, id);
    }
  }

  lemma SightingRebuilt(rules: Rules, normalizer: int, s: Mirror, t: Mirror, id: PageId)
    requires IsRebuilt(rules, normalizer, s) && id in s.pages && id in t.pages && t == s.(pages := s.pages[id := t.pages[id]])
    requires MakeDocument(rules, normalizer, t.pages[id]) == MakeDocument(rules, normalizer, s.pages[id])
    requires MakeRows(rules, normalizer, t.pages[id]) == MakeRows(rules, normalizer, s.pages[id])
    ensures IsRebuilt(rules, normalizer, t)
  {
  }

  lemma DeletedOk(rules: Rules, s: Mirror, id: PageId)
    requires Inv(rules, s)
    ensures Inv(rules, Deleted(s, id))
  {
  }

  lemma WithoutDocumentOk(rules: Rules, s: Mirror, id: PageId)
    requires Inv(rules, s)
    ensures Inv(rules, WithoutDocument(s, id))
  {
  }

  lemma LostRowOk(rules: Rules, s: Mirror, id: PageId, i: nat)
    requires Inv(rules, s) && i < |s.Rows(id)|
    ensures Inv(rules, LostRow(s, id, i))
  {
    LeftAfterLoss(s.Rows(id), MakeRows(rules, s.meta.value.normalizer, s.pages[id]), i);
  }

  /** Reusing unchanged snapshots refines rebuilding: on every reachable index the build stores what a rebuild would. */
  lemma BuildRefinesRebuild(rules: Rules, code: Versions, s: Mirror, t: Mirror)
    requires Inv(rules, s) && IsBuilt(rules, code, s, t)
    ensures IsRebuilt(rules, code.normalizer, t)
    ensures Inv(rules, t)
  {
    forall id | id in s.pages
      ensures t.documents[id] == MakeDocument(rules, code.normalizer, s.pages[id])
      ensures t.Rows(id) == MakeRows(rules, code.normalizer, s.pages[id])
      ensures Left(t.Rows(id), MakeRows(rules, code.normalizer, s.pages[id]))
    {
      if Reuses(s, code, id) {
        LeftIsShorter(s.Rows(id), MakeRows(rules, code.normalizer, s.pages[id]));
      }
      LeftOfItself(MakeRows(rules, code.normalizer, s.pages[id]));
    }
  }

  lemma InvBuildIsDerived(rules: Rules, code: Versions, s: Mirror, t: Mirror)
    requires IsBuilt(rules, code, s, t)
    ensures Inv(rules, s) ==> AllDerived(rules, code.normalizer, t)
  {
    if Inv(rules, s) {
      BuildRefinesRebuild(rules, code, s, t);
      RebuiltIffDerived(rules, code.normalizer, t);
    }
  }

  /** From any index at all, even a damaged one, dropping the derived tables first yields a rebuild. */
  lemma DroppedBuildIsRebuild(rules: Rules, code: Versions, s: Mirror, t: Mirror)
    requires IsBuilt(rules, code, Dropped(s), t)
    ensures IsRebuilt(rules, code.normalizer, t)
  {
  }

  /**
    Exactly when reuse is sound: a build equals a rebuild if and only if no passage row is
    without a document and every reused entry held what its page now derives.
   */
  lemma BuildIsRebuildIff(rules: Rules, code: Versions, s: Mirror, t: Mirror)
    requires IsBuilt(rules, code, s, t)
    ensures IsRebuilt(rules, code.normalizer, t) <==>
      && (forall id :: Strays(s, code, id) == [])
      && (forall id | id in s.pages && Reuses(s, code, id) ::
            s.documents[id] == MakeDocument(rules, code.normalizer, s.pages[id]) && s.Rows(id) == MakeRows(rules, code.normalizer, s.pages[id]))
  {
    if IsRebuilt(rules, code.normalizer, t) {
      forall id
        ensures Strays(s, code, id) == []
        ensures id in s.pages && Reuses(s, code, id) ==>
          s.documents[id] == MakeDocument(rules, code.normalizer, s.pages[id]) && s.Rows(id) == MakeRows(rules, code.normalizer, s.pages[id])
      {
        assert t.Rows(id) == BuiltRows(rules, code, s, id);
        if id in s.pages {
          assert t.documents[id] == BuiltDocument(rules, code, s, id);
        }
      }
    }
  }

  // ------------------------------------------------------------------ runs

  datatype Step =
    | Upsert(id: PageId, page: Page) | Delete(id: PageId)
    | LoseDocument(id: PageId) | LoseRow(id: PageId, i: nat)
    | Build(code: Versions) | FailBuild

  ghost predicate Next(rules: Rules, s: Mirror, step: Step, t: Mirror) {
    match step
    case Upsert(id, page) => t == Upserted(s, id, page)
    case Delete(id) => t == Deleted(s, id)
    case LoseDocument(id) => t == WithoutDocument(s, id)
    case LoseRow(id, i) => i < |s.Rows(id)| && t == LostRow(s, id, i)
    case Build(code) => IsBuilt(rules, code, s, t)
    case FailBuild => t == s
  }

  lemma NextOk(rules: Rules, s: Mirror, step: Step, t: Mirror)
    requires Inv(rules, s) && Next(rules, s, step, t)
    ensures Inv(rules, t)
  {
    match step
    case Upsert(id, page) =>
      if id !in s.pages {
        InsertedOk(rules, s, id, page);
      } else if SameFetch(s.pages[id], page) {
        UpdatedOk(rules, s, id, s.pages[id].(timestamp := page.timestamp, lastSeen := page.lastSeen));
      } else {
        UpdatedOk(rules, s, id, page);
      }
    case Delete(id) => DeletedOk(rules, s, id);
    case LoseDocument(id) => WithoutDocumentOk(rules, s, id);
    case LoseRow(id, i) => LostRowOk(rules, s, id, i);
    case Build(code) => BuildRefinesRebuild(rules, code, s, t);
    case FailBuild =>
  }

  ghost predicate IsRun(rules: Rules, run: seq<Mirror>, steps: seq<Step>) {
    && |run| == |steps| + 1
    && run[0] == Mirror(run[0].pages, None, false, map[], map[])
    && (forall i | 0 <= i < |steps| :: Next(rules, run[i], steps[i], run[i + 1]))
  }

  lemma {:induction false} RunInv(rules: Rules, run: seq<Mirror>, steps: seq<Step>, i: nat)
    requires IsRun(rules, run, steps) && i < |run|
    ensures Inv(rules, run[i])
  {
    if i > 0 {
      RunInv(rules, run, steps, i - 1);
      NextOk(rules, run[i - 1], steps[i - 1], run[i]);
    }
  }

  /** The gate of `_check`: what a query by code of these versions accepts. */
  predicate Accepts(s: Mirror, code: Versions) {
    s.meta == Some(code) && s.complete
  }

  /** Over every run, an index a query accepts equals a from-scratch rebuild of the current pages. */
  lemma AcceptedIsRebuilt(rules: Rules, run: seq<Mirror>, steps: seq<Step>, i: nat, code: Versions)
    requires IsRun(rules, run, steps) && i < |run| && Accepts(run[i], code)
    ensures IsRebuilt(rules, code.normalizer, run[i])
  {
    RunInv(rules, run, steps, i);
  }

  /** So over every run, an accepted index holds for each page exactly the columns and rows that page derives, and nothing else. */
  lemma AcceptedIsDerived(rules: Rules, run: seq<Mirror>, steps: seq<Step>, i: nat, code: Versions)
    requires IsRun(rules, run, steps) && i < |run| && Accepts(run[i], code)
    ensures AllDerived(rules, code.normalizer, run[i])
  {
    AcceptedIsRebuilt(rules, run, steps, i, code);
    RebuiltIffDerived(rules, code.normalizer, run[i]);
  }

  /** After a build nothing is rebuilt again until a page changes: a second build reuses every page. */
  lemma BuildIsIdempotent(rules: Rules, code: Versions, s: Mirror, t: Mirror, id: PageId)
    requires Inv(rules, s) && IsBuilt(rules, code, s, t) && id in t.pages
    ensures Reuses(t, code, id)
  {
    BuildRefinesRebuild(rules, code, s, t);
  }

  class MirrorDatabase {
    const rules: Rules
    var pages: map<PageId, Page>
    var meta: Option<Versions>
    var complete: bool
    var documents: map<PageId, Document>
    var passages: map<PageId, seq<Row>>

    ghost function State(): Mirror reads this {
      Mirror(pages, meta, complete, documents, passages)
    }

    constructor (rules: Rules)
      ensures State() == Mirror(map[], None, false, map[], map[]) && this.rules == rules
    {
      this.rules := rules;
      pages, meta, complete, documents, passages := map[], None, false, map[], map[];
    }

    method DeleteDocument(id: PageId)
      modifies this
      ensures State() == WithoutDocument(old(State()), id)
      ensures pages == old(pages) && meta == old(meta)
      ensures meta.Some? && id in old(documents) ==> documents == old(documents) - {id} && passages == old(passages) - {id} && !complete
      ensures meta.None? || id !in old(documents) ==> State() == old(State())
    {
      if meta.Some? && id in documents {
        documents := documents - {id};
        complete := false;
        passages := passages - {id};
      }
    }

    /** `_upsert_page`: an unchanged page only has its last sighting updated. */
    method UpsertPage(id: PageId, page: Page)
      modifies this
      ensures State() == Upserted(old(State()), id, page)
      ensures UpsertIs(old(State()), id, page, State())
    {
      UpsertedIs(State(), id, page);
      if id !in pages {
        pages := pages[id := page];
        complete := if meta.Some? then false else complete;
      } else if SameFetch(pages[id], page) {
        pages := pages[id := pages[id].(timestamp := page.timestamp, lastSeen := page.lastSeen)];
      } else {
        pages := pages[id := page];
        DeleteDocument(id);
        complete := if meta.Some? then false else complete;
      }
    }

    method DeletePage(id: PageId)
      modifies this
      ensures State() == Deleted(old(State()), id)
      ensures DeleteIs(old(State()), id, State())
    {
      DeletedIs(State(), id);
      pages := pages - {id};
      DeleteDocument(id);
      complete := if meta.Some? then false else complete;
    }

    method DropDerived()
      modifies this
      ensures State() == Dropped(old(State()))
      ensures pages == old(pages) && meta == None && !complete && documents == map[] && passages == map[]
    {
      meta, complete, documents, passages := None, false, map[], map[];
    }

    /** Derived tables of other versions are dropped; documents of pages that are gone go with their rows. */
    method StartBuild(code: Versions)
      modifies this
      ensures pages == old(pages) && meta == Some(code) && !complete
      ensures old(meta) == Some(code) ==> documents == map id | id in old(documents) && id in pages :: old(documents)[id]
      ensures old(meta) != Some(code) ==> documents == map[] && passages == map[]
      ensures Building(rules, old(State()), code, State(), pages.Keys)
      ensures Reused(old(State()), code, pages.Keys) == {}
    {
      if meta != Some(code) {
        DropDerived();
      }
      meta, complete := Some(code), false;
      var gone := documents.Keys - pages.Keys;
      documents, passages := documents - gone, passages - gone;
      BuildingStarts(rules, old(State()), code, State());
    }

    /** One page of the build: reuse its snapshot when nothing about it changed, derive it afresh otherwise. */
    method BuildPage(code: Versions, id: PageId, ghost s: Mirror, ghost todo: set<PageId>) returns (kept: bool)
      requires id in todo && id in pages && Building(rules, s, code, State(), todo)
      modifies this`documents, this`passages
      ensures kept <==> Reuses(s, code, id)
      ensures Building(rules, s, code, State(), todo - {id})
      ensures |Reused(s, code, todo - {id})| == |Reused(s, code, todo)| + (if kept then 1 else 0)
    {
      var page := pages[id];
      var rows := if id in passages then passages[id] else [];
      ghost var before := State();
      assert Kept(s, code, before, id);
      kept := id in documents && Reusable(documents[id], rows, page);
      if kept {
        KeepOne(rules, s, code, before, todo, id);
      } else {
        rows := if id in documents then [] else rows;
        documents := documents[id := MakeDocument(rules, code.normalizer, page)];
        passages := passages[id := rows + MakeRows(rules, code.normalizer, page)];
        NormalizeOne(rules, s, code, before, todo, id);
      }
      ReusedOne(s, code, todo, id);
    }

    method BuildPages(code: Versions, failsAfter: Option<nat>, ghost s: Mirror) returns (ok: bool, normalized: nat, reused: nat)
      requires Building(rules, s, code, State(), pages.Keys) && Reused(s, code, pages.Keys) == {}
      modifies this`documents, this`passages
      ensures ok <==> failsAfter.None? || failsAfter.value >= |pages|
      ensures ok ==> Building(rules, s, code, State(), {})
      ensures ok ==> reused == |Reused(s, code, {})| && normalized + reused == |pages|
    {
      normalized, reused := 0, 0;
      var todo := pages.Keys;
      while todo != {}
        invariant reused == |Reused(s, code, todo)|
        invariant normalized + reused + |todo| == |pages|
        invariant failsAfter.None? || normalized + reused <= failsAfter.value
        invariant Building(rules, s, code, State(), todo)
      {
        if failsAfter == Some(normalized + reused) {
          return false, normalized, reused;
        }
        var id :| id in todo;
        var kept := BuildPage(code, id, s, todo);
        normalized, reused := if kept then normalized else normalized + 1, if kept then reused + 1 else reused;
        todo := todo - {id};
      }
      return true, normalized, reused;
    }

    /**
      `build_index`: inside a savepoint, so a failure after any number of pages leaves the
      index as it was. Pages are independent, so their order does not matter.
     */
    method BuildIndex(code: Versions, failsAfter: Option<nat>) returns (ok: bool, normalized: nat, reused: nat)
      modifies this
      ensures ok <==> failsAfter.None? || failsAfter.value >= |old(pages)|
      ensures !ok ==> State() == old(State())
      ensures ok ==> pages == old(pages) && meta == Some(code) && complete
      ensures ok ==> IsBuilt(rules, code, old(State()), State())
      ensures ok ==> BuiltOrKept(rules, code, old(State()), State())
      ensures ok && Inv(rules, old(State())) ==> AllDerived(rules, code.normalizer, State())
      ensures ok ==> reused == |Reused(old(State()), code, {})| && normalized + reused == |pages|
    {
      var savedMeta, savedComplete, savedDocuments, savedPassages := meta, complete, documents, passages;
      ghost var s := State();
      StartBuild(code);
      ok, normalized, reused := BuildPages(code, failsAfter, s);
      if ok {
        complete := true;
        BuildingDone(rules, s, code, State());
        BuiltIsDerived(rules, code, s, State());
        InvBuildIsDerived(rules, code, s, State());
      } else {
        meta, complete, documents, passages := savedMeta, savedComplete, savedDocuments, savedPassages;
      }
    }

    /** `rebuild`: works on a copy with the derived tables dropped; the original survives a failure. */
    method Rebuild(code: Versions, failsAfter: Option<nat>) returns (ok: bool)
      modifies this
      ensures !ok ==> State() == old(State())
      ensures ok ==> pages == old(pages) && meta == Some(code) && complete
      ensures ok ==> Accepts(State(), code) && IsRebuilt(rules, code.normalizer, State())
      ensures ok ==> AllDerived(rules, code.normalizer, State())
      ensures failsAfter.None? ==> ok
    {
      var savedMeta, savedComplete, savedDocuments, savedPassages := meta, complete, documents, passages;
      DropDerived();
      ghost var dropped := State();
      var normalized, reused;
      ok, normalized, reused := BuildIndex(code, failsAfter);
      if ok {
        DroppedBuildIsRebuild(rules, code, dropped, State());
        RebuiltIffDerived(rules, code.normalizer, State());
      } else {
        meta, complete, documents, passages := savedMeta, savedComplete, savedDocuments, savedPassages;
      }
    }
  }

  ghost function Reused(s: Mirror, code: Versions, todo: set<PageId>): set<PageId> {
    set id | id in s.pages && id !in todo && Reuses(s, code, id)
  }

  lemma ReusedOne(s: Mirror, code: Versions, todo: set<PageId>, id: PageId)
    requires id in s.pages && id in todo
    ensures |Reused(s, code, todo - {id})| == |Reused(s, code, todo)| + (if Reuses(s, code, id) then 1 else 0)
  {
    assert Reused(s, code, todo - {id}) == Reused(s, code, todo) + (if Reuses(s, code, id) then {id} else {});
  }

  /** What the pages still to do keep, and what the others have become. */
  ghost predicate Building(rules: Rules, s: Mirror, code: Versions, t: Mirror, todo: set<PageId>) {
    && todo <= s.pages.Keys && t.pages == s.pages
    && t.documents.Keys <= s.pages.Keys
    && (forall id | id in todo :: Kept(s, code, t, id))
    && (forall id | id !in todo :: BuiltPage(rules, s, code, t, id))
  }

  /** Page `id` still has the document and rows it had before, as far as its versions match. */
  ghost predicate Kept(s: Mirror, code: Versions, t: Mirror, id: PageId) {
    if s.meta == Some(code)
    then Get(t.documents, id) == Get(s.documents, id) && t.Rows(id) == s.Rows(id)
    else id !in t.documents && t.Rows(id) == []
  }

  ghost predicate BuiltPage(rules: Rules, s: Mirror, code: Versions, t: Mirror, id: PageId) {
    && (id in s.pages ==> Get(t.documents, id) == Some(BuiltDocument(rules, code, s, id)))
    && t.Rows(id) == BuiltRows(rules, code, s, id)
  }

  lemma KeepOne(rules: Rules, s: Mirror, code: Versions, t: Mirror, todo: set<PageId>, id: PageId)
    requires Building(rules, s, code, t, todo) && id in todo
    requires id in t.documents && Reusable(t.documents[id], t.Rows(id), t.pages[id])
    ensures Building(rules, s, code, t, todo - {id})
  {
    assert Kept(s, code, t, id);
    assert Reuses(s, code, id);
  }

  lemma NormalizeOne(rules: Rules, s: Mirror, code: Versions, t: Mirror, todo: set<PageId>, id: PageId)
    requires Building(rules, s, code, t, todo) && id in todo
    requires !(id in t.documents && Reusable(t.documents[id], t.Rows(id), t.pages[id]))
    ensures Building(rules, s, code, t.(
      documents := t.documents[id := MakeDocument(rules, code.normalizer, t.pages[id])],
      passages := t.passages[id := (if id in t.documents then [] else t.Rows(id)) + MakeRows(rules, code.normalizer, t.pages[id])]),
      todo - {id})
  {
    var u := t.(
      documents := t.documents[id := MakeDocument(rules, code.normalizer, t.pages[id])],
      passages := t.passages[id := (if id in t.documents then [] else t.Rows(id)) + MakeRows(rules, code.normalizer, t.pages[id])]);
    assert Kept(s, code, t, id);
    assert !Reuses(s, code, id);
    forall other | other != id
      ensures u.Rows(other) == t.Rows(other) && Get(u.documents, other) == Get(t.documents, other)
    {
    }
    assert BuiltPage(rules, s, code, u, id);
    forall other | other in todo - {id} ensures Kept(s, code, u, other) {
      assert Kept(s, code, t, other);
    }
    forall other | other !in todo - {id} ensures BuiltPage(rules, s, code, u, other) {
      if other != id {
        assert BuiltPage(rules, s, code, t, other);
      }
    }
  }

  lemma BuildingDone(rules: Rules, s: Mirror, code: Versions, t: Mirror)
    requires Building(rules, s, code, t.(complete := false), {}) && t.meta == Some(code) && t.complete
    ensures IsBuilt(rules, code, s, t)
  {
    forall id
      ensures t.Rows(id) == BuiltRows(rules, code, s, id)
      ensures id in s.pages ==> id in t.documents && t.documents[id] == BuiltDocument(rules, code, s, id)
    {
      assert BuiltPage(rules, s, code, t.(complete := false), id);
    }
  }

  lemma BuildingStarts(rules: Rules, s: Mirror, code: Versions, t: Mirror)
    requires t.pages == s.pages
    requires forall id | id in t.documents :: id in s.pages
    requires forall id | id in s.pages :: Kept(s, code, t, id)
    requires forall id | id !in s.pages :: t.Rows(id) == Strays(s, code, id)
    ensures Building(rules, s, code, t, s.pages.Keys)
  {
    forall id | id !in s.pages.Keys ensures BuiltPage(rules, s, code, t, id) {
      assert BuiltRows(rules, code, s, id) == Strays(s, code, id);
    }
  }
}
