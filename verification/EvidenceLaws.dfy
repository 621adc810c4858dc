/**
  What the operations of the evidence workspace do, in the fields of its entries and records: what
  touching and adding change, which entry goes before which, and what manifests and deduplicated
  records keep.
 */
module EvidenceLaws {
  import opened Prelude
  import opened Evidence
  import opened EvidenceWorkspace
  import opened EvidenceProvenance

  // ------------------------------------------------------------------ touching and adding

  /** Entry `h` is the newest by touch, reactivated if asked to be, and nothing else changes. */
  ghost predicate TouchLaw(s: Workspace, t: Workspace, h: nat, reactivate: bool) {
    && h < |s.entries| == |t.entries| && t.clock == s.clock + 1
    && t.entries[h] == Entry(s.entries[h].record, t.clock, s.entries[h].priority, s.entries[h].reactivated || reactivate)
    && (forall e | 0 <= e < |s.entries| && e != h :: t.entries[e] == s.entries[e])
    && t.identities == s.identities && t.diagnostics == s.diagnostics
  }

  lemma TouchIs(w: Workspace, h: nat, reactivate: bool)
    requires h < |w.entries|
    ensures TouchLaw(w, Touch(w, h, reactivate), h, reactivate) && Touch(w, h, reactivate).requests == w.requests
  {
  }

  /** Entry `e` is stored whole and is the same knowledge. */
  predicate SameAt(s: Workspace, e: nat, request: Request, result: ToolResult) {
    && e < |s.entries| && s.entries[e].record.Full?
    && SameKnowledge(Given(s.entries[e].record.request, s.entries[e].record.result), Given(request, result))
  }

  /** The diagnostics a result adds: each of its own that is not known yet, once. */
  ghost predicate Noted(known: seq<Diagnostic>, texts: seq<string>, all: seq<Diagnostic>) {
    && known <= all
    && (forall d :: d in all <==> d in known || exists k :: 0 <= k < |texts| && d == Provider(texts[k]))
    && (forall j, k | 0 <= j < k < |all| && |known| <= k :: all[j] != all[k])
  }

  /** The entry a new result gets: whole if it is within the per-result limit, and an omission of it otherwise. */
  ghost predicate NewLaw(limits: Limits, s: Workspace, request: Request, result: ToolResult, t: Workspace) {
    var n := |s.entries|;
    var size := RecordSize(Full(n + 1, request, result));
    && |t.entries| == n + 1 && t.entries[..n] == s.entries && t.clock == s.clock + 1 && t.requests == s.requests[request := n]
    && t.entries[n].touched == t.clock && !t.entries[n].reactivated
    && if size <= limits.result then
         && t.entries[n].record == Full(n + 1, request, result)
         && Noted(s.diagnostics, if result.diagnostics.Some? then result.diagnostics.value else [], t.diagnostics)
       else
         && t.entries[n].record == Omission(n + 1, request.tool, LocatorOf(result.data))
         && t.diagnostics == s.diagnostics + [TooLarge(request.tool, size)]
  }

  /** Adding: reactivate what is cached, refuse at the ceiling, share what is the same knowledge, and store the rest. */
  ghost predicate AddLaw(limits: Limits, s: Workspace, request: Request, result: ToolResult, t: Workspace) {
    if request in s.requests then
      TouchLaw(s, t, s.requests[request], true) && t.requests == s.requests
    else if |s.requests| >= limits.requests then
      t == s
    else if exists e :: SameAt(s, e, request, result) then
      exists e :: SameAt(s, e, request, result) && TouchLaw(s, t, e, false) && t.requests == s.requests[request := e]
    else
      NewLaw(limits, s, request, result, t)
  }

  lemma {:induction false} NotedBy(known: seq<Diagnostic>, texts: seq<string>)
    ensures Noted(known, texts, WithDiagnostics(known, texts))
  {
    if texts != [] {
      var n := |texts| - 1;
      NotedBy(known, texts[..n]);
      var less := WithDiagnostics(known, texts[..n]);
      var all := WithDiagnostics(known, texts);
      forall d ensures d in all <==> d in known || exists k :: 0 <= k < |texts| && d == Provider(texts[k]) {
        if d in less && d !in known {
          var k :| 0 <= k < n && d == Provider(texts[..n][k]);
          assert d == Provider(texts[k]);
        }
        if k :| 0 <= k < |texts| && d == Provider(texts[k]) {
          if k < n {
            assert d == Provider(texts[..n][k]);
          }
        }
      }
    }
  }

  lemma NewEntryIs(limits: Limits, w: Workspace, request: Request, result: ToolResult)
    ensures NewLaw(limits, w, request, result, NewEntry(limits, w, request, result))
  {
    NotedBy(w.diagnostics, if result.diagnostics.Some? then result.diagnostics.value else []);
  }

  lemma SameIsHeld(w: Workspace, request: Request, result: ToolResult, e: nat)
    requires Indexed(w) && request !in w.requests && SameAt(w, e, request, result)
    ensures Holder(w, request, result) == Some(e)
  {
    assert IndexedAt(w, e);
  }

  lemma HeldIsSame(w: Workspace, request: Request, result: ToolResult)
    requires IdentitiesOk(w) && request !in w.requests && Holder(w, request, result).Some?
    ensures SameAt(w, Holder(w, request, result).value, request, result)
  {
    var e := Holder(w, request, result).value;
    assert Identifies(w.entries[e].record, IdentityOf(request, result).value);
  }

  /** `add` on the fields of the store. */
  lemma AddedIs(limits: Limits, w: Workspace, request: Request, result: ToolResult)
    requires RequestsOk(w) && IdentitiesOk(w) && Indexed(w)
    ensures AddLaw(limits, w, request, result, Added(limits, w, request, result))
  {
    if request in w.requests {
      TouchIs(w, w.requests[request], true);
      assert w.requests[request := w.requests[request]] == w.requests;
    } else if |w.requests| < limits.requests {
      if e :| SameAt(w, e, request, result) {
        SameIsHeld(w, request, result, e);
        TouchIs(w, e, false);
      } else {
        if Holder(w, request, result).Some? {
          HeldIsSame(w, request, result);
        }
        NewEntryIs(limits, w, request, result);
      }
    }
  }

  // ------------------------------------------------------------------ which entry goes first

  predicate Deliberate(tool: string) {
    tool in ["knowledge.read", "combat.report"]
  }

  predicate Observed(tool: string) {
    tool in ["state.read", "character.read"]
  }

  /** Deliberate reads go before observations, those before inventory searches, and those before everything else. */
  predicate KindAbove(s: string, t: string) {
    || (Deliberate(s) && !Deliberate(t))
    || (Observed(s) && !Deliberate(t) && !Observed(t))
    || (s == "inventory.search" && !Deliberate(t) && !Observed(t) && t != "inventory.search")
  }

  /** What was reactivated goes first; otherwise the kind decides, and then the touch. */
  predicate Precedes(a: Entry, b: Entry) {
    if a.reactivated != b.reactivated then a.reactivated
    else if !a.reactivated && KindAbove(a.record.Tool(), b.record.Tool()) then true
    else if !a.reactivated && KindAbove(b.record.Tool(), a.record.Tool()) then false
    else a.touched > b.touched
  }

  lemma OutranksIff(a: Entry, b: Entry)
    requires a.priority == Priority(a.record.Tool()) && b.priority == Priority(b.record.Tool()) && a.touched != b.touched
    ensures Outranks(a, b) <==> Precedes(a, b)
    ensures Precedes(a, b) <==> !Precedes(b, a)
  {
  }

  /** The order of selection, by kind and touch. */
  lemma OrderIs(limits: Limits, w: Workspace, order: seq<nat>, j: nat, k: nat)
    requires Valid(limits, w) && IsOrder(w.entries, order) && j < k < |order|
    ensures Precedes(w.entries[order[j]], w.entries[order[k]])
  {
    var a, b := order[j], order[k];
    assert EntryOk(limits, w.entries[a], a, w.clock) && EntryOk(limits, w.entries[b], b, w.clock);
    assert w.entries[a].touched != w.entries[b].touched by {
      assert a != b;
    }
    OutranksIff(w.entries[b], w.entries[a]);
  }

  // ------------------------------------------------------------------ where to find an answer again

  predicate ShortEnough(v: Value) {
    match v
    case Text(text) => |text| <= 160
    case Number(digits) => |digits| <= 160
    case Other(_) => false
  }

  /** The data have this field, and its value is a text or number of at most 160 characters. */
  predicate HasField(data: Data, name: string, value: Value) {
    && data.Object? && ShortEnough(value)
    && ( || (name == "source_id" && data.sourceId == Some(value))
         || (name == "section_id" && data.sectionId == Some(value))
         || (name == "start" && data.start == Some(value))
         || (name == "end" && data.end == Some(value))
         || (name == "next_cursor" && data.nextCursor == Some(value)))
  }

  /** These are all of the data's short fields. */
  ghost predicate AllFields(data: Data, fields: seq<(string, Value)>) {
    forall name, value :: (name, value) in fields <==> HasField(data, name, value)
  }

  predicate Handy(item: Item) {
    item.isObject && item.source.Some? && |item.source.value| <= 160
  }

  /**
    The handles are the sources of the items at these places, which are the first ones that fit: a
    short source is left out only after six of them, or when with those before it it would exceed
    200 characters.
   */
  ghost predicate Picked(items: seq<Item>, n: nat, handles: seq<string>, at: seq<nat>) {
    && |at| == |handles| <= 6 && n <= |items|
    && (forall j | 0 <= j < |at| :: at[j] < n && Handy(items[at[j]]) && items[at[j]].source.value == handles[j])
    && (forall j, k | 0 <= j < k < |at| :: at[j] < at[k])
    && (forall k | 0 <= k < n && Handy(items[k]) :: k in at || LeftOut(items, handles, at, k))
  }

  ghost predicate LeftOut(items: seq<Item>, handles: seq<string>, at: seq<nat>, k: nat)
    requires k < |items| && Handy(items[k]) && |at| == |handles|
  {
    || (|at| == 6 && at[5] < k)
    || exists j: nat :: j <= |at| && (forall m | 0 <= m < j :: at[m] < k) && (forall m | j <= m < |at| :: k < at[m])
         && LocatorSize(Handles(handles[..j] + [items[k].source.value])) > 200
  }

  ghost predicate IsGathered(items: seq<Item>, handles: seq<string>) {
    exists at :: Picked(items, |items|, handles, at)
  }

  ghost predicate HasAnyField(data: Data) {
    exists name, value :: HasField(data, name, value)
  }

  /** All of the short fields, or the source alone where they exceed 200 characters. */
  ghost predicate FieldsLocate(data: Data, all: seq<(string, Value)>, l: Locator) {
    && AllFields(data, all) && |all| <= 5
    && if LocatorSize(Fields(all)) <= 200 then l == Fields(all)
       else if exists value :: HasField(data, "source_id", value) then
         exists value :: HasField(data, "source_id", value) && l == Fields([("source_id", value)])
       else l == NoLocator
  }

  ghost predicate HandlesLocate(items: seq<Item>, handles: seq<string>, l: Locator) {
    IsGathered(items, handles) && l == if handles == [] then NoLocator else Handles(handles)
  }

  /** Where to find an answer again: its own short fields, or else the handles of what it found. */
  ghost predicate LocatorLaw(data: Data, l: Locator) {
    if HasAnyField(data) then exists all :: FieldsLocate(data, all, l)
    else if data.Object? && data.items.Some? then exists handles :: HandlesLocate(data.items.value, handles, l)
    else l == NoLocator
  }

  lemma LeftOutStays(items: seq<Item>, handles: seq<string>, at: seq<nat>, k: nat, handle: string, n: nat)
    requires k < n < |items| && Handy(items[k]) && |at| == |handles| < 6 && LeftOut(items, handles, at, k)
    ensures LeftOut(items, handles + [handle], at + [n], k)
  {
    var j: nat :| j <= |at| && (forall m | 0 <= m < j :: at[m] < k) && (forall m | j <= m < |at| :: k < at[m])
      && LocatorSize(Handles(handles[..j] + [items[k].source.value])) > 200;
    assert (handles + [handle])[..j] == handles[..j];
  }

  lemma PickedNext(items: seq<Item>, i: nat, handles: seq<string>, at: seq<nat>)
    requires i < |items| && |handles| < 6 && Picked(items, i, handles, at) && Handy(items[i])
    ensures LocatorSize(Handles(handles + [items[i].source.value])) <= 200 ==>
      Picked(items, i + 1, handles + [items[i].source.value], at + [i])
    ensures LocatorSize(Handles(handles + [items[i].source.value])) > 200 ==> Picked(items, i + 1, handles, at)
  {
    var handle := items[i].source.value;
    if LocatorSize(Handles(handles + [handle])) <= 200 {
      forall k | 0 <= k < i + 1 && Handy(items[k]) ensures k in at + [i] || LeftOut(items, handles + [handle], at + [i], k) {
        if k < i && k !in at {
          LeftOutStays(items, handles, at, k, handle, i);
        } else if k == i {
          assert (at + [i])[|at|] == i;
        }
      }
    } else {
      assert handles[..|at|] == handles;
      assert LeftOut(items, handles, at, i);
    }
  }

  lemma PickedEnough(items: seq<Item>, i: nat, handles: seq<string>, at: seq<nat>)
    requires Picked(items, i, handles, at) && |handles| == 6
    ensures Picked(items, |items|, handles, at)
  {
  }

  lemma PickedPast(items: seq<Item>, i: nat, handles: seq<string>, at: seq<nat>)
    requires i < |items| && Picked(items, i, handles, at) && !Handy(items[i])
    ensures Picked(items, i + 1, handles, at)
  {
  }

  lemma {:induction false} GatherIs(items: seq<Item>, i: nat, handles: seq<string>, at: seq<nat>)
    requires i <= |items| && |handles| < 6 && Picked(items, i, handles, at)
    ensures IsGathered(items, Gather(items, i, handles))
    decreases |items| - i
  {
    if i == |items| {
      assert Picked(items, |items|, handles, at);
    } else if !Handy(items[i]) {
      PickedPast(items, i, handles, at);
      GatherIs(items, i + 1, handles, at);
    } else {
      PickedNext(items, i, handles, at);
      var more := handles + [items[i].source.value];
      if LocatorSize(Handles(more)) > 200 {
        GatherIs(items, i + 1, handles, at);
      } else if |more| == 6 {
        PickedEnough(items, i + 1, more, at + [i]);
      } else {
        GatherIs(items, i + 1, more, at + [i]);
      }
    }
  }

  lemma FieldsAreAll(data: Data)
    requires data.Object?
    ensures AllFields(data, KeptFields(data)) && |KeptFields(data)| <= 5
  {
    var a, b, c, d, e := Kept("source_id", data.sourceId), Kept("section_id", data.sectionId), Kept("start", data.start),
      Kept("end", data.end), Kept("next_cursor", data.nextCursor);
    forall name, value ensures (name, value) in KeptFields(data) <==> HasField(data, name, value) {
      assert (name, value) in a + b + c + d + e <==> (name, value) in a || (name, value) in b || (name, value) in c || (name, value) in d || (name, value) in e;
    }
  }

  lemma FieldsLocator(data: Data)
    requires data.Object? && KeptFields(data) != []
    ensures FieldsLocate(data, KeptFields(data), LocatorOf(data)) && HasAnyField(data)
  {
    var all := KeptFields(data);
    FieldsAreAll(data);
    assert (all[0].0, all[0].1) in all;
    var source := Kept("source_id", data.sourceId);
    if source != [] {
      assert HasField(data, "source_id", source[0].1) && source == [("source_id", source[0].1)];
    }
  }

  lemma NoFields(data: Data)
    requires data.Object? && KeptFields(data) == []
    ensures !HasAnyField(data)
  {
    FieldsAreAll(data);
    forall name, value ensures !HasField(data, name, value) {
      assert (name, value) !in KeptFields(data);
    }
  }

  lemma LocatorIs(data: Data)
    ensures LocatorLaw(data, LocatorOf(data))
  {
    if data.Object? && KeptFields(data) != [] {
      FieldsLocator(data);
    } else if data.Object? {
      NoFields(data);
      if data.items.Some? {
        GatherIs(data.items.value, 0, [], []);
        assert HandlesLocate(data.items.value, Gather(data.items.value, 0, []), LocatorOf(data));
      }
    }
  }

  // ------------------------------------------------------------------ what a record keeps

  /** What a manifest keeps of an answer: the number, the request unless it is too long, and where to find it again. */
  predicate ManifestLaw(r: Record, m: Record) {
    if r.Full? && r.result.status != "omitted" then
      && m.Manifest? && m.number == r.number && m.locator == LocatorOf(r.result.data)
      && m.shown == if 24 + |r.request.tool| + |r.request.arguments| <= 180 then Whole(r.request) else ToolOnly(r.request.tool)
    else m == r
  }

  lemma ManifestIs(r: Record)
    ensures ManifestLaw(r, ManifestOf(r))
  {
  }

  /** `kept` is `all` without the elements that fail the test: each other one as often as before, and in order. */
  ghost predicate Filters<T(!new)>(all: seq<T>, test: T -> bool, kept: seq<T>) {
    && (forall x :: multiset(kept)[x] == if test(x) then multiset(all)[x] else 0)
    && exists at: seq<nat> :: IsPicked(all, at, kept)
  }

  predicate IsPicked<T(==)>(all: seq<T>, at: seq<nat>, kept: seq<T>) {
    && |at| == |kept| && (forall j | 0 <= j < |at| :: at[j] < |all| && all[at[j]] == kept[j])
    && (forall j, k | 0 <= j < k < |at| :: at[j] < at[k])
  }

  lemma FiltersMore<T(!new)>(all: seq<T>, test: T -> bool, kept: seq<T>, x: T)
    requires Filters(all, test, kept)
    ensures Filters(all + [x], test, kept + if test(x) then [x] else [])
  {
    var at: seq<nat> :| IsPicked(all, at, kept);
    if test(x) {
      assert IsPicked(all + [x], at + [|all|], kept + [x]);
    } else {
      assert kept + [] == kept;
      assert IsPicked(all + [x], at, kept);
    }
  }

  lemma {:induction false} FreshItemsIs(items: seq<Item>, seen: set<string>)
    ensures Filters(items, (item: Item) => !item.Identified() || item.key !in seen, FreshItems(items, seen))
  {
    if items == [] {
      assert IsPicked(items, [], FreshItems(items, seen));
    } else {
      var n := |items| - 1;
      FreshItemsIs(items[..n], seen);
      assert items[..n] + [items[n]] == items;
      FiltersMore(items[..n], (item: Item) => !item.Identified() || item.key !in seen, FreshItems(items[..n], seen), items[n]);
    }
  }

  lemma {:induction false} SourcesAmongIs(sources: seq<Source>, ids: set<Option<string>>)
    ensures Filters(sources, (x: Source) => x.id in ids, SourcesAmong(sources, ids))
  {
    if sources == [] {
      assert IsPicked(sources, [], SourcesAmong(sources, ids));
    } else {
      var n := |sources| - 1;
      SourcesAmongIs(sources[..n], ids);
      assert sources[..n] + [sources[n]] == sources;
      FiltersMore(sources[..n], (x: Source) => x.id in ids, SourcesAmong(sources[..n], ids), sources[n]);
    }
  }

  /** Deduplication takes out the identified items already seen, and the sources no shown item names; nothing else. */
  lemma DeduplicatedIs(r: Record, seen: set<string>)
    ensures var d := Deduplicated(r, seen);
      if !(r.Full? && r.request.tool == "knowledge.search" && r.result.data.Object? && r.result.data.items.Some?) then d == r
      else
        var items := r.result.data.items.value;
        && Searches(d) && Filters(items, (item: Item) => !item.Identified() || item.key !in seen, d.result.data.items.value)
        && (d.result.data.items.value == items ==> d == r)
        && (d.result.data.items.value != items ==>
              && d == r.(result := r.result.(data := r.result.data.(items := d.result.data.items, noted := true), sources := d.result.sources))
              && d.result.sources.Some?
              && (r.result.sources.Some? ==>
                    Filters(r.result.sources.value, (x: Source) => x.id in SourceIds(d.result.data.items.value), d.result.sources.value)))
  {
    if Searches(r) {
      var items := r.result.data.items.value;
      FreshItemsIs(items, seen);
      FreshItemsKeys(items, seen);
      if seen == {} {
        AllPicked(items, (item: Item) => !item.Identified() || item.key !in seen);
      } else if FreshItems(items, seen) != items && r.result.sources.Some? {
        SourcesAmongIs(r.result.sources.value, SourceIds(FreshItems(items, seen)));
      }
    }
  }

  lemma AllPicked<T(!new)>(all: seq<T>, test: T -> bool)
    requires forall x | x in all :: test(x)
    ensures Filters(all, test, all)
  {
    assert IsPicked(all, seq(|all|, i => i), all);
  }
}
