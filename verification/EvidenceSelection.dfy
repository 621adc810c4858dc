/** What a selection of evidence shows the model, for every store and every order of its entries. */
module EvidenceSelection {
  import opened Prelude
  import opened Evidence
  import opened EvidenceWorkspace

  // ------------------------------------------------------------------ the context budget

  /** Dropping the last entry of an order of distinct indices. */
  lemma ButLast(order: seq<nat>, n: nat)
    requires order != [] && Indexes(order, n)
    ensures Indexes(order[..|order| - 1], n)
  {
  }

  /** An entry's whole record fits where its manifest takes no more than the others leave: counted by sizes alone. */
  ghost predicate FitsAlone(context: nat, entries: seq<Entry>, i: nat)
    requires i < |entries|
  {
    Rendered(Manifests(entries)) - RecordSize(ManifestOf(entries[i].record)) + RecordSize(entries[i].record) <= context
  }

  /** That is its size in the place of its manifest, all others being manifests. */
  lemma FitsAloneIff(context: nat, entries: seq<Entry>, i: nat)
    requires i < |entries|
    ensures FitsAlone(context, entries, i) <==> Rendered(Manifests(entries)[i := entries[i].record]) <= context
  {
    RenderedUpdate(Manifests(entries), i, entries[i].record);
  }

  ghost predicate SomeFits(context: nat, entries: seq<Entry>, order: seq<nat>)
    requires Indexes(order, |entries|)
  {
    Rendered(Manifests(entries)) <= context || exists k :: 0 <= k < |order| && FitsAlone(context, entries, order[k])
  }

  /** Once something fits it stays so; until then nothing is selected. */
  ghost predicate FitsSo(context: nat, entries: seq<Entry>, order: seq<nat>, s: Selection)
    requires Indexes(order, |entries|)
  {
    && |s.records| == |entries|
    && (Rendered(s.records) <= context <==> SomeFits(context, entries, order))
    && (Rendered(s.records) > context ==> s == Selection(Manifests(entries), {}, {}))
  }

  lemma SomeFitsMore(context: nat, entries: seq<Entry>, order: seq<nat>, i: nat)
    requires Indexes(order, |entries|) && i < |entries|
    ensures Indexes(order + [i], |entries|)
    ensures SomeFits(context, entries, order + [i]) <==> SomeFits(context, entries, order) || FitsAlone(context, entries, i)
  {
    var more := order + [i];
    if k :| 0 <= k < |order| && FitsAlone(context, entries, order[k]) {
      assert more[k] == order[k];
    }
    if FitsAlone(context, entries, i) {
      assert more[|order|] == i;
    }
    if k :| 0 <= k < |more| && FitsAlone(context, entries, more[k]) {
      assert k == |order| || more[k] == order[k];
    }
  }

  lemma FitsStep(context: nat, entries: seq<Entry>, order: seq<nat>, s: Selection, i: nat)
    requires Indexes(order, |entries|) && i < |entries| && FitsSo(context, entries, order, s)
    ensures Indexes(order + [i], |entries|) && FitsSo(context, entries, order + [i], Consider(context, entries, s, i))
  {
    SomeFitsMore(context, entries, order, i);
    if Rendered(s.records) > context {
      FirstFit(context, entries, s, i);
    }
  }

  lemma {:induction false} PrefixFitsIff(context: nat, entries: seq<Entry>, order: seq<nat>)
    requires Indexes(order, |entries|)
    ensures FitsSo(context, entries, order, SelectFirst(context, entries, order))
  {
    if order != [] {
      var less, last := order[..|order| - 1], order[|order| - 1];
      ButLast(order, |entries|);
      PrefixFitsIff(context, entries, less);
      FitsStep(context, entries, less, SelectFirst(context, entries, less), last);
      assert order == less + [last];
    }
  }

  /** While nothing is selected an entry is offered whole. */
  lemma FirstFit(context: nat, entries: seq<Entry>, s: Selection, i: nat)
    requires s == Selection(Manifests(entries), {}, {}) && i < |entries|
    ensures |s.records| == |entries|
    ensures Consider(context, entries, s, i)
      == if FitsAlone(context, entries, i) then Selection(s.records[i := entries[i].record], {i}, Keys(entries[i].record)) else s
  {
    FitsAloneIff(context, entries, i);
  }

  /**
    Exactly when a selection stays within the context: the manifests alone fit, or some entry is
    smaller than its manifest by enough to make them fit.
   */
  lemma SelectionFitsIff(context: nat, entries: seq<Entry>, order: seq<nat>)
    requires IsOrder(entries, order)
    ensures Rendered(SelectFirst(context, entries, order).records) <= context
      <==> Rendered(Manifests(entries)) <= context || exists i :: 0 <= i < |entries| && FitsAlone(context, entries, i)
  {
    PrefixFitsIff(context, entries, order);
    if i :| 0 <= i < |entries| && FitsAlone(context, entries, i) {
      OrderCoversAll(order, |entries|, i);
    }
  }

  /** An order lists every index. */
  lemma OrderCoversAll(order: seq<nat>, n: nat, i: nat)
    requires |order| == n && Indexes(order, n) && i < n
    requires forall j, k | 0 <= j < k < |order| :: order[j] != order[k]
    ensures exists k :: 0 <= k < |order| && order[k] == i
  {
    if forall k | 0 <= k < |order| :: order[k] != i {
      Distinct(order);
      assert i !in order;
      SubsetSize(Listed(order), Below(n) - {i});
    }
  }

  function Listed(order: seq<nat>): (r: set<nat>)
    ensures forall i: nat :: i in r <==> i in order
  {
    if order == [] then {}
    else
      assert order == order[..|order| - 1] + [order[|order| - 1]];
      Listed(order[..|order| - 1]) + {order[|order| - 1]}
  }

  function Below(n: nat): (r: set<nat>)
    ensures |r| == n && forall k: nat :: k in r <==> k < n
  {
    if n == 0 then {} else Below(n - 1) + {n - 1}
  }

  lemma {:induction false} Distinct(order: seq<nat>)
    requires forall j, k | 0 <= j < k < |order| :: order[j] != order[k]
    ensures |Listed(order)| == |order|
  {
    if order != [] {
      Distinct(order[..|order| - 1]);
      assert order[|order| - 1] !in order[..|order| - 1];
    }
  }

  lemma {:induction false} SubsetSize(a: set<nat>, b: set<nat>)
    requires a <= b
    ensures |a| <= |b|
  {
    if a != {} {
      var x :| x in a;
      SubsetSize(a - {x}, b - {x});
    }
  }

  /** Every manifest or omission is small when the tool's name is. */
  lemma ManifestSize(limits: Limits, e: Entry, i: nat, clock: nat)
    requires EntryOk(limits, e, i, clock) && i < 9
    requires |e.record.Tool()| <= MAX_MANIFEST_REQUEST - 11
    requires e.record.Full? ==> e.record.result.status != "omitted"
    ensures RecordSize(ManifestOf(e.record)) <= MANIFEST_FRAME + 1 + MAX_MANIFEST_REQUEST + MAX_LOCATOR
  {
    if e.record.Full? {
      LocatorFits(e.record.result.data);
    }
  }

  /** Tool names of at most 169 characters, and no stored answer whose own status is "omitted". */
  ghost predicate Compact(entries: seq<Entry>) {
    forall i | 0 <= i < |entries| ::
      |entries[i].record.Tool()| <= MAX_MANIFEST_REQUEST - 11 && (entries[i].record.Full? ==> entries[i].record.result.status != "omitted")
  }

  lemma ManifestBound(limits: Limits, w: Workspace, i: nat)
    requires Valid(limits, w) && i < |w.entries| <= 8 && Compact(w.entries)
    ensures RecordSize(ManifestOf(w.entries[i].record)) <= MANIFEST_FRAME + 1 + MAX_MANIFEST_REQUEST + MAX_LOCATOR
  {
    assert EntryOk(limits, w.entries[i], i, w.clock);
    ManifestSize(limits, w.entries[i], i, w.clock);
  }

  /** The largest manifest: its frame, a request of 180 and a locator of 200 characters. */
  lemma {:induction false} ManifestSum(parts: seq<nat>)
    requires forall i | 0 <= i < |parts| :: parts[i] <= 574
    ensures Sum(parts) <= 574 * |parts|
  {
    if parts != [] {
      ManifestSum(parts[..|parts| - 1]);
    }
  }

  /** With at most eight entries and a configured context of at least the least allowed one, the manifests alone always fit. */
  lemma EightManifestsFit(limits: Limits, w: Workspace)
    requires Valid(limits, w) && |w.entries| <= 8 && Compact(w.entries)
    requires 3000 <= limits.result && limits.result + 2400 <= limits.context
    ensures Rendered(Manifests(w.entries)) <= limits.context
  {
    var parts := RecordSizes(Manifests(w.entries));
    forall i | 0 <= i < |parts| ensures parts[i] <= 574 {
      ManifestBound(limits, w, i);
    }
    ManifestSum(parts);
  }

  /** The guarantee: whatever is stored, a selection of up to eight entries stays within the context. */
  lemma SelectionFits(limits: Limits, w: Workspace, order: seq<nat>)
    requires Valid(limits, w) && |w.entries| <= 8 && Compact(w.entries)
    requires 3000 <= limits.result && limits.result + 2400 <= limits.context
    requires IsOrder(w.entries, order)
    ensures Rendered(SelectFirst(limits.context, w.entries, order).records) <= limits.context
  {
    EightManifestsFit(limits, w);
    PrefixFitsIff(limits.context, w.entries, order);
  }

  // ------------------------------------------------------------------ what is shown

  ghost predicate Shows(entries: seq<Entry>, order: seq<nat>, s: Selection) {
    && |s.records| == |entries|
    && (forall i | i in s.selected :: i in order)
    && (forall i | 0 <= i < |entries| && i !in s.selected :: s.records[i] == ManifestOf(entries[i].record))
    && (forall i | i in s.selected :: i < |entries| && Shown(entries[i].record, s.records[i], s.seen))
    && (forall key | key in s.seen :: exists i :: i in s.selected && i < |entries| && key in Keys(s.records[i]))
    && (forall i, j | i in s.selected && j in s.selected && i != j && i < |entries| && j < |entries| ::
          Keys(s.records[i]) !! Keys(s.records[j]))
  }

  /** `shown` is `stored` without items shown elsewhere, and everything `stored` identifies is shown somewhere. */
  ghost predicate Shown(stored: Record, shown: Record, seen: set<string>) {
    && (exists before: set<string> :: shown == Deduplicated(stored, before))
    && Keys(shown) <= seen && Keys(stored) <= seen
  }

  /** The state after entry `i` was accepted as `candidate`. */
  function Accepted(s: Selection, i: nat, candidate: Record): Selection
    requires i < |s.records|
  {
    Selection(s.records[i := candidate], s.selected + {i}, s.seen + Keys(candidate))
  }

  lemma AcceptedSeen(entries: seq<Entry>, order: seq<nat>, s: Selection, i: nat, candidate: Record, key: string)
    requires Shows(entries, order, s) && i < |entries| && i !in s.selected && key in Accepted(s, i, candidate).seen
    ensures var t := Accepted(s, i, candidate); exists k :: k in t.selected && k < |entries| && key in Keys(t.records[k])
  {
    var t := Accepted(s, i, candidate);
    if key in s.seen {
      var k :| k in s.selected && k < |entries| && key in Keys(s.records[k]);
      assert k in t.selected && key in Keys(t.records[k]);
    } else {
      assert i in t.selected && key in Keys(t.records[i]);
    }
  }

  lemma AcceptedShown(entries: seq<Entry>, order: seq<nat>, s: Selection, i: nat, k: nat)
    requires Shows(entries, order, s) && i < |entries| && i !in s.selected && (k in s.selected || k == i)
    ensures var t := Accepted(s, i, Deduplicated(entries[i].record, s.seen)); k < |entries| && Shown(entries[k].record, t.records[k], t.seen)
  {
    if k != i {
      assert Shown(entries[k].record, s.records[k], s.seen);
    } else {
      DeduplicatedKeys(entries[i].record, s.seen);
    }
  }

  lemma AcceptedApart(entries: seq<Entry>, order: seq<nat>, s: Selection, i: nat, j: nat)
    requires Shows(entries, order, s) && i < |entries| && i !in s.selected && j in s.selected && j < |entries|
    ensures Keys(s.records[j]) !! Keys(Deduplicated(entries[i].record, s.seen))
  {
    assert Shown(entries[j].record, s.records[j], s.seen);
    DeduplicatedKeys(entries[i].record, s.seen);
  }

  lemma AcceptedShows(entries: seq<Entry>, order: seq<nat>, s: Selection, i: nat)
    requires Shows(entries, order, s) && i < |entries| && i !in order && i !in s.selected
    ensures Shows(entries, order + [i], Accepted(s, i, Deduplicated(entries[i].record, s.seen)))
  {
    var candidate := Deduplicated(entries[i].record, s.seen);
    var t := Accepted(s, i, candidate);
    forall key | key in t.seen ensures exists k :: k in t.selected && k < |entries| && key in Keys(t.records[k]) {
      AcceptedSeen(entries, order, s, i, candidate, key);
    }
    forall k | k in t.selected ensures k < |entries| && Shown(entries[k].record, t.records[k], t.seen) {
      AcceptedShown(entries, order, s, i, k);
    }
    forall j, k | j in t.selected && k in t.selected && j != k && j < |entries| && k < |entries|
      ensures Keys(t.records[j]) !! Keys(t.records[k])
    {
      if j == i {
        AcceptedApart(entries, order, s, i, k);
      } else if k == i {
        AcceptedApart(entries, order, s, i, j);
      }
    }
  }

  lemma ConsiderShows(context: nat, entries: seq<Entry>, order: seq<nat>, s: Selection, i: nat)
    requires Shows(entries, order, s) && i < |entries| && i !in order
    ensures Shows(entries, order + [i], Consider(context, entries, s, i))
  {
    AcceptedShows(entries, order, s, i);
    assert Consider(context, entries, s, i) == s || Consider(context, entries, s, i) == Accepted(s, i, Deduplicated(entries[i].record, s.seen));
    assert Shows(entries, order + [i], s);
  }

  lemma {:induction false} SelectShows(context: nat, entries: seq<Entry>, order: seq<nat>)
    requires Indexes(order, |entries|)
    requires forall j, k | 0 <= j < k < |order| :: order[j] != order[k]
    ensures Shows(entries, order, SelectFirst(context, entries, order))
  {
    if order != [] {
      var less, last := order[..|order| - 1], order[|order| - 1];
      ButLast(order, |entries|);
      SelectShows(context, entries, less);
      ConsiderShows(context, entries, less, SelectFirst(context, entries, less), last);
      assert order == less + [last];
    }
  }

  /** Every entry appears, as a record or as its manifest. */
  lemma EveryEntryAppears(context: nat, entries: seq<Entry>, order: seq<nat>, i: nat)
    requires IsOrder(entries, order) && i < |entries|
    ensures var s := SelectFirst(context, entries, order);
      && |s.records| == |entries|
      && (i !in s.selected ==> s.records[i] == ManifestOf(entries[i].record))
      && (i in s.selected ==> exists seen: set<string> :: s.records[i] == Deduplicated(entries[i].record, seen))
  {
    SelectShows(context, entries, order);
    var s := SelectFirst(context, entries, order);
    if i in s.selected {
      assert Shown(entries[i].record, s.records[i], s.seen);
    }
  }

  /** Two selected searches never show the same identified item. */
  lemma NoItemTwice(context: nat, entries: seq<Entry>, order: seq<nat>, i: nat, j: nat)
    requires IsOrder(entries, order) && i < |entries| && j < |entries| && i != j
    requires var s := SelectFirst(context, entries, order); i in s.selected && j in s.selected
    ensures var s := SelectFirst(context, entries, order); Keys(s.records[i]) !! Keys(s.records[j])
  {
    SelectShows(context, entries, order);
  }

  /** No identified item of a selected search is lost: some selected record shows it. */
  lemma NoItemLost(context: nat, entries: seq<Entry>, order: seq<nat>, i: nat, key: string) returns (j: nat)
    requires IsOrder(entries, order) && i < |entries|
    requires i in SelectFirst(context, entries, order).selected && key in Keys(entries[i].record)
    ensures var s := SelectFirst(context, entries, order);
      j < |entries| && j in s.selected && key in Keys(s.records[j]) && key in Keys(entries[j].record)
  {
    SelectShows(context, entries, order);
    var s := SelectFirst(context, entries, order);
    assert Shown(entries[i].record, s.records[i], s.seen);
    j :| j in s.selected && j < |entries| && key in Keys(s.records[j]);
    assert Shown(entries[j].record, s.records[j], s.seen);
    var before: set<string> :| s.records[j] == Deduplicated(entries[j].record, before);
    DeduplicatedKeys(entries[j].record, before);
  }

  lemma {:induction false} MergedFrom(known: seq<Source>, more: seq<Source>, x: Source)
    ensures x in Merged(known, more) <==> x in known || x in more
  {
    if more != [] {
      MergedFrom(known, more[..|more| - 1], x);
      assert more == more[..|more| - 1] + [more[|more| - 1]];
    }
  }

  ghost predicate Supplies(records: seq<Record>, selected: set<nat>, i: nat, x: Source)
    requires i < |records|
  {
    i in selected && records[i].Full? && records[i].result.sources.Some? && x in records[i].result.sources.value
  }

  /** The sources given with a selection are exactly those of the records it shows whole. */
  lemma {:induction false} SourcesAreOfSelected(records: seq<Record>, selected: set<nat>, n: nat, x: Source)
    requires n <= |records|
    ensures x in SourcesOf(records, selected, n) <==> exists i :: 0 <= i < n && Supplies(records, selected, i, x)
  {
    if n > 0 {
      SourcesAreOfSelected(records, selected, n - 1, x);
      if n - 1 in selected && records[n - 1].Full? && records[n - 1].result.sources.Some? {
        MergedFrom(SourcesOf(records, selected, n - 1), records[n - 1].result.sources.value, x);
      }
      if i :| 0 <= i < n - 1 && Supplies(records, selected, i, x) {
        assert 0 <= i < n && Supplies(records, selected, i, x);
      }
      if x in SourcesOf(records, selected, n) && x !in SourcesOf(records, selected, n - 1) {
        assert Supplies(records, selected, n - 1, x);
      }
    }
  }

  /** No source is given twice. */
  lemma {:induction false} SourcesAreDistinct(records: seq<Record>, selected: set<nat>, n: nat, j: nat, k: nat)
    requires n <= |records| && j < k < |SourcesOf(records, selected, n)|
    ensures SourcesOf(records, selected, n)[j] != SourcesOf(records, selected, n)[k]
  {
    if n > 0 {
      var before := SourcesOf(records, selected, n - 1);
      if n - 1 in selected && records[n - 1].Full? && records[n - 1].result.sources.Some? {
        forall a: nat, b: nat | a < b < |before| ensures before[a] != before[b] {
          SourcesAreDistinct(records, selected, n - 1, a, b);
        }
        MergedDistinct(before, records[n - 1].result.sources.value);
      } else {
        SourcesAreDistinct(records, selected, n - 1, j, k);
      }
    }
  }

  lemma {:induction false} MergedDistinct(known: seq<Source>, more: seq<Source>)
    requires forall a, b | 0 <= a < b < |known| :: known[a] != known[b]
    ensures forall a, b | 0 <= a < b < |Merged(known, more)| :: Merged(known, more)[a] != Merged(known, more)[b]
  {
    if more != [] {
      MergedDistinct(known, more[..|more| - 1]);
    }
  }

  /** A reactivated record that fits beside the other manifests is shown, and shown whole, before anything not reactivated. */
  lemma FirstRankedIsShown(context: nat, entries: seq<Entry>, order: seq<nat>)
    requires IsOrder(entries, order) && order != [] && FitsAlone(context, entries, order[0])
    ensures var s := SelectFirst(context, entries, order[..1]);
      order[0] in s.selected && s.records[order[0]] == entries[order[0]].record
    ensures order[0] in SelectFirst(context, entries, order).selected
    ensures SelectFirst(context, entries, order).records[order[0]] == entries[order[0]].record
  {
    assert order[..1][..0] == [];
    FitsAloneIff(context, entries, order[0]);
    assert SelectFirst(context, entries, order[..1]) == Consider(context, entries, Selection(Manifests(entries), {}, {}), order[0]);
    FirstStays(context, entries, order, 1);
  }

  lemma {:induction false} FirstStays(context: nat, entries: seq<Entry>, order: seq<nat>, n: nat)
    requires IsOrder(entries, order) && 1 <= n <= |order|
    requires var s := SelectFirst(context, entries, order[..n]);
      order[0] in s.selected && s.records[order[0]] == entries[order[0]].record
    ensures var s := SelectFirst(context, entries, order);
      order[0] in s.selected && s.records[order[0]] == entries[order[0]].record
    decreases |order| - n
  {
    if n < |order| {
      assert order[..n + 1][..n] == order[..n];
      FirstStays(context, entries, order, n + 1);
    } else {
      assert order[..n] == order;
    }
  }

  // ------------------------------------------------------------------ when the guarantee fails

  lemma SumOfTwo(a: nat, b: nat)
    ensures Sum([a, b]) == a + b
  {
    var one, two := [a], [a, b];
    assert two[..|two| - 1] == one && one[..|one| - 1] == [];
    assert Sum(one) == a;
  }

  /** An answer whose own status is "omitted" has itself as its manifest. */
  function Declined(i: nat, arguments: string, data: string): Entry {
    Entry(Full(i + 1, Request("state.read", arguments), ToolResult("omitted", Plain(data), None, None, None)), i + 1, 2, false)
  }

  lemma DeclinedSize(i: nat, arguments: string, data: string)
    requires i < 9
    ensures RecordSize(Declined(i, arguments, data).record) == 111 + |arguments| + |data|
    ensures ManifestOf(Declined(i, arguments, data).record) == Declined(i, arguments, data).record
  {
    var r := Declined(i, arguments, data).record.result;
    var parts: seq<nat> := [Member("data", |data|), Member("status", 9)];
    assert parts + [] + [] == parts;
    assert ResultSize(r) == Joined(parts);
    SumOfTwo(Member("data", |data|), Member("status", 9));
  }

  const LEAST := Limits(3000, 5400, 8)

  function Answer(data: string): ToolResult {
    ToolResult("omitted", Plain(data), None, None, None)
  }

  /** A result that fits, for a new request without identity, becomes a new entry as it is. */
  lemma AddedWhole(limits: Limits, w: Workspace, request: Request, result: ToolResult)
    requires RequestsOk(w) && IdentitiesOk(w) && request !in w.requests && |w.requests| < limits.requests
    requires IdentityOf(request, result).None? && RecordSize(Full(|w.entries| + 1, request, result)) <= limits.result
    ensures var t := Added(limits, w, request, result);
      && t.requests == w.requests[request := |w.entries|] && t.clock == w.clock + 1
      && t.entries == w.entries + [Entry(Full(|w.entries| + 1, request, result), w.clock + 1, Priority(request.tool), false)]
  {
  }

  /** The first of the two such answers, in a new workspace. */
  lemma OnceDeclined(data: string) returns (once: Workspace)
    requires |data| == 2800
    ensures Valid(LEAST, once) && once == Added(LEAST, Workspace([], map[], map[], 0, []), Request("state.read", "1"), Answer(data))
    ensures once.entries == [Declined(0, "1", data)] && once.clock == 1 && once.requests.Keys == {Request("state.read", "1")}
  {
    var start, first := Workspace([], map[], map[], 0, []), Request("state.read", "1");
    DeclinedSize(0, "1", data);
    AddedOk(LEAST, start, first, Answer(data));
    AddedWhole(LEAST, start, first, Answer(data));
    once := Added(LEAST, start, first, Answer(data));
  }

  /** The second. */
  lemma TwiceDeclined(data: string, once: Workspace) returns (twice: Workspace)
    requires |data| == 2800 && Valid(LEAST, once)
    requires once.entries == [Declined(0, "1", data)] && once.clock == 1 && once.requests.Keys == {Request("state.read", "1")}
    ensures Valid(LEAST, twice) && twice == Added(LEAST, once, Request("state.read", "2"), Answer(data))
    ensures twice.entries == [Declined(0, "1", data), Declined(1, "2", data)]
  {
    var second := Request("state.read", "2");
    assert |once.requests| == |once.requests.Keys|;
    DeclinedSize(1, "2", data);
    AddedOk(LEAST, once, second, Answer(data));
    AddedWhole(LEAST, once, second, Answer(data));
    twice := Added(LEAST, once, second, Answer(data));
  }

  lemma TwoManifests(a: Entry, b: Entry)
    ensures Rendered(Manifests([a, b])) == 3 + RecordSize(ManifestOf(a.record)) + RecordSize(ManifestOf(b.record))
  {
    var records := Manifests([a, b]);
    assert records == [ManifestOf(a.record), ManifestOf(b.record)];
    assert RecordSizes(records) == [RecordSize(records[0]), RecordSize(records[1])];
    SumOfTwo(RecordSize(records[0]), RecordSize(records[1]));
  }

  /**
    Two answers that declare themselves "omitted", added to a new workspace, overflow the least
    context in any order. No provider of the repository gives that status.
   */
  lemma DeclinedAnswersOverflow(data: string, order: seq<nat>) returns (once: Workspace, twice: Workspace)
    requires |data| == 2800 && IsOrder([Declined(0, "1", data), Declined(1, "2", data)], order)
    ensures Valid(LEAST, once) && once == Added(LEAST, Workspace([], map[], map[], 0, []), Request("state.read", "1"), Answer(data))
    ensures Valid(LEAST, twice) && twice == Added(LEAST, once, Request("state.read", "2"), Answer(data))
    ensures IsOrder(twice.entries, order) && Rendered(SelectFirst(LEAST.context, twice.entries, order).records) > LEAST.context
  {
    once := OnceDeclined(data);
    twice := TwiceDeclined(data, once);
    DeclinedSize(0, "1", data);
    DeclinedSize(1, "2", data);
    var a, b := Declined(0, "1", data), Declined(1, "2", data);
    TwoManifests(a, b);
    OverflowOfTwo(a, b, order);
  }

  lemma OverflowOfTwo(a: Entry, b: Entry, order: seq<nat>)
    requires IsOrder([a, b], order) && ManifestOf(a.record) == a.record && ManifestOf(b.record) == b.record
    requires Rendered(Manifests([a, b])) > LEAST.context
    ensures Rendered(SelectFirst(LEAST.context, [a, b], order).records) > LEAST.context
  {
    SelectionFitsIff(LEAST.context, [a, b], order);
  }
}
