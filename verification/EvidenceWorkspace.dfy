/**
  The question-local evidence store of `evidence_workspace.py`: cached requests, records kept
  whole or omitted, and the greedy selection of what fits the model's context.
 */
module EvidenceWorkspace {
  import opened Prelude
  import opened Evidence

  /** What makes two knowledge answers the same: the digest of these values is injective. */
  datatype Identity =
    | ReadIdentity(tool: string, key: string)
    | AnswerIdentity(tool: string, status: string, data: Data, sources: seq<Source>)

  function IdentityOf(request: Request, result: ToolResult): Option<Identity> {
    if request.tool != "knowledge.search" && request.tool != "knowledge.read" then None
    else if result.readKey.Some? then Some(ReadIdentity(request.tool, result.readKey.value))
    else Some(AnswerIdentity(request.tool, result.status, result.data, if result.sources.Some? then result.sources.value else []))
  }

  datatype Entry = Entry(record: Record, touched: nat, priority: nat, reactivated: bool)

  datatype Diagnostic = Provider(text: string) | TooLarge(tool: string, size: nat)

  datatype Limits = Limits(result: nat, context: nat, requests: nat)

  datatype Workspace = Workspace(
    entries: seq<Entry>, requests: map<Request, nat>, identities: map<Identity, nat>, clock: nat, diagnostics: seq<Diagnostic>)

  function Priority(tool: string): nat {
    if tool == "knowledge.read" || tool == "combat.report" then 3
    else if tool == "state.read" || tool == "character.read" then 2
    else if tool == "inventory.search" then 1
    else 0
  }

  // ------------------------------------------------------------------ storing

  function Touch(w: Workspace, i: nat, reactivate: bool): Workspace
    requires i < |w.entries|
  {
    var e := w.entries[i];
    w.(clock := w.clock + 1, entries := w.entries[i := e.(touched := w.clock + 1, reactivated := e.reactivated || reactivate)])
  }

  function WithDiagnostics(known: seq<Diagnostic>, texts: seq<string>): seq<Diagnostic> {
    if texts == [] then known
    else
      var d := WithDiagnostics(known, texts[..|texts| - 1]);
      var last := Provider(texts[|texts| - 1]);
      if last in d then d else d + [last]
  }

  /** A record stored whole, or replaced by an omission when it exceeds the per-result budget. */
  function Stored(limits: Limits, number: nat, request: Request, result: ToolResult): Record {
    var record := Full(number, request, result);
    if RecordSize(record) > limits.result then Omission(number, request.tool, LocatorOf(result.data)) else record
  }

  function NewEntry(limits: Limits, w: Workspace, request: Request, result: ToolResult): Workspace {
    var record := Stored(limits, |w.entries| + 1, request, result);
    var identity := IdentityOf(request, result);
    w.(entries := w.entries + [Entry(record, w.clock + 1, Priority(request.tool), false)],
       requests := w.requests[request := |w.entries|],
       identities := if record.Full? && identity.Some? then w.identities[identity.value := |w.entries|] else w.identities,
       clock := w.clock + 1,
       diagnostics := if record.Full?
                      then WithDiagnostics(w.diagnostics, if result.diagnostics.Some? then result.diagnostics.value else [])
                      else w.diagnostics + [TooLarge(request.tool, RecordSize(Full(|w.entries| + 1, request, result)))])
  }

  /** The stored entry that already answers this request: cached, or the same knowledge under another request. */
  function Holder(w: Workspace, request: Request, result: ToolResult): Option<nat> {
    var identity := IdentityOf(request, result);
    if request in w.requests then Some(w.requests[request])
    else if identity.Some? && identity.value in w.identities then Some(w.identities[identity.value])
    else None
  }

  predicate Refuses(limits: Limits, w: Workspace, request: Request) {
    request !in w.requests && |w.requests| >= limits.requests
  }

  ghost predicate Valid(limits: Limits, w: Workspace) {
    |w.entries| <= |w.requests| <= limits.requests && RequestsOk(w) && IdentitiesOk(w) && EntriesOk(limits, w) && TouchesDiffer(w)
  }

  ghost predicate RequestsOk(w: Workspace) {
    forall r | r in w.requests :: w.requests[r] < |w.entries| && w.entries[w.requests[r]].record.Tool() == r.tool
  }

  ghost predicate IdentitiesOk(w: Workspace) {
    forall id | id in w.identities :: w.identities[id] < |w.entries| && Identifies(w.entries[w.identities[id]].record, id)
  }

  ghost predicate EntriesOk(limits: Limits, w: Workspace) {
    forall i | 0 <= i < |w.entries| :: EntryOk(limits, w.entries[i], i, w.clock)
  }

  ghost predicate TouchesDiffer(w: Workspace) {
    forall i, j | 0 <= i < j < |w.entries| :: w.entries[i].touched != w.entries[j].touched
  }

  predicate Identifies(record: Record, id: Identity) {
    record.Full? && IdentityOf(record.request, record.result) == Some(id)
  }

  ghost predicate EntryOk(limits: Limits, e: Entry, i: nat, clock: nat) {
    RecordOk(limits, e.record, i) && e.touched <= clock && e.priority == Priority(e.record.Tool())
  }

  /** Entry `i` holds a bounded record or an omission with a bounded locator. */
  ghost predicate RecordOk(limits: Limits, r: Record, i: nat) {
    && !r.Manifest? && r.number == i + 1
    && (r.Full? ==> RecordSize(r) <= limits.result)
    && (r.Omission? ==> LocatorSize(r.locator) <= MAX_LOCATOR)
  }

  function Added(limits: Limits, w: Workspace, request: Request, result: ToolResult): Workspace
    requires RequestsOk(w) && IdentitiesOk(w)
  {
    if Refuses(limits, w, request) then w
    else
      match Holder(w, request, result)
      case Some(i) => Touch(w, i, request in w.requests).(requests := w.requests[request := i])
      case None => NewEntry(limits, w, request, result)
  }

  lemma TouchOk(limits: Limits, w: Workspace, i: nat, reactivate: bool)
    requires Valid(limits, w) && i < |w.entries|
    ensures Valid(limits, Touch(w, i, reactivate))
  {
    var t := Touch(w, i, reactivate);
    assert forall k | 0 <= k < |w.entries| :: t.entries[k].record == w.entries[k].record;
    forall k | 0 <= k < |t.entries| ensures EntryOk(limits, t.entries[k], k, t.clock) {
      assert EntryOk(limits, w.entries[k], k, w.clock);
    }
    forall j, k | 0 <= j < k < |t.entries| ensures t.entries[j].touched != t.entries[k].touched {
      assert EntryOk(limits, w.entries[j], j, w.clock) && EntryOk(limits, w.entries[k], k, w.clock);
    }
  }

  lemma StoredOk(limits: Limits, number: nat, request: Request, result: ToolResult)
    requires number > 0
    ensures RecordOk(limits, Stored(limits, number, request, result), number - 1)
    ensures Stored(limits, number, request, result).Tool() == request.tool
  {
    LocatorFits(result.data);
  }

  lemma PushOk(limits: Limits, w: Workspace, t: Workspace, e: Entry)
    requires RequestsOk(w) && IdentitiesOk(w) && EntriesOk(limits, w) && TouchesDiffer(w)
    requires t.entries == w.entries + [e] && t.clock == w.clock + 1
    requires e.touched == w.clock + 1 && RecordOk(limits, e.record, |w.entries|) && e.priority == Priority(e.record.Tool())
    ensures EntriesOk(limits, t) && TouchesDiffer(t)
  {
    forall k | 0 <= k < |t.entries| ensures EntryOk(limits, t.entries[k], k, t.clock) {
      if k < |w.entries| {
        assert EntryOk(limits, w.entries[k], k, w.clock);
      }
    }
    forall j, k | 0 <= j < k < |t.entries| ensures t.entries[j].touched != t.entries[k].touched {
      assert EntryOk(limits, w.entries[j], j, w.clock);
    }
  }

  lemma NewRequestOk(w: Workspace, t: Workspace, request: Request, e: Entry)
    requires RequestsOk(w) && request !in w.requests && e.record.Tool() == request.tool
    requires t.entries == w.entries + [e] && t.requests == w.requests[request := |w.entries|]
    ensures RequestsOk(t) && |t.requests| == |w.requests| + 1
  {
    assert t.requests.Keys == w.requests.Keys + {request};
    forall r | r in t.requests ensures t.requests[r] < |t.entries| && t.entries[t.requests[r]].record.Tool() == r.tool {
      if r != request {
        assert r in w.requests && t.entries[w.requests[r]] == w.entries[w.requests[r]];
      }
    }
  }

  lemma NewIdentityOk(w: Workspace, t: Workspace, e: Entry)
    requires IdentitiesOk(w) && t.entries == w.entries + [e]
    requires t.identities == w.identities
      || (exists id :: Identifies(e.record, id) && t.identities == w.identities[id := |w.entries|])
    ensures IdentitiesOk(t)
  {
    assert forall k | 0 <= k < |w.entries| :: t.entries[k] == w.entries[k];
  }

  lemma NewEntryOk(limits: Limits, w: Workspace, request: Request, result: ToolResult)
    requires Valid(limits, w) && request !in w.requests && |w.requests| < limits.requests
    ensures Valid(limits, NewEntry(limits, w, request, result))
  {
    var t := NewEntry(limits, w, request, result);
    var record := Stored(limits, |w.entries| + 1, request, result);
    var e := Entry(record, w.clock + 1, Priority(request.tool), false);
    StoredOk(limits, |w.entries| + 1, request, result);
    PushOk(limits, w, t, e);
    NewRequestOk(w, t, request, e);
    if record.Full? && IdentityOf(request, result).Some? {
      assert Identifies(record, IdentityOf(request, result).value);
    }
    NewIdentityOk(w, t, e);
  }

  lemma ShareRequest(w: Workspace, t: Workspace, request: Request, i: nat)
    requires RequestsOk(w) && i < |w.entries| && w.entries[i].record.Tool() == request.tool
    requires t.entries == w.entries && t.requests == w.requests[request := i]
    ensures RequestsOk(t) && |w.requests| <= |t.requests| <= |w.requests| + (if request in w.requests then 0 else 1)
  {
    assert t.requests.Keys == w.requests.Keys + {request};
    if request in w.requests {
      assert t.requests.Keys == w.requests.Keys;
    }
    forall r | r in t.requests ensures t.requests[r] < |t.entries| && t.entries[t.requests[r]].record.Tool() == r.tool {
      if r != request {
        assert t.requests[r] == w.requests[r] && w.entries[w.requests[r]].record.Tool() == r.tool;
      }
    }
  }

  lemma SameEntries(limits: Limits, w: Workspace, t: Workspace)
    requires IdentitiesOk(w) && EntriesOk(limits, w) && TouchesDiffer(w)
    requires t.entries == w.entries && t.identities == w.identities && t.clock == w.clock
    ensures IdentitiesOk(t) && EntriesOk(limits, t) && TouchesDiffer(t)
  {
  }

  lemma ShareOk(limits: Limits, w: Workspace, request: Request, i: nat)
    requires Valid(limits, w) && i < |w.entries| && w.entries[i].record.Tool() == request.tool
    requires request in w.requests || |w.requests| < limits.requests
    ensures Valid(limits, w.(requests := w.requests[request := i]))
  {
    var t := w.(requests := w.requests[request := i]);
    ShareRequest(w, t, request, i);
    SameEntries(limits, w, t);
  }

  /** Adding keeps the store valid; the request is then answered unless the ceiling refuses it. */
  lemma AddedOk(limits: Limits, w: Workspace, request: Request, result: ToolResult)
    requires Valid(limits, w)
    ensures Valid(limits, Added(limits, w, request, result))
    ensures request in Added(limits, w, request, result).requests <==> !Refuses(limits, w, request)
  {
    if !Refuses(limits, w, request) {
      match Holder(w, request, result)
      case Some(i) =>
        HolderOk(limits, w, request, result);
        TouchOk(limits, w, i, request in w.requests);
        ShareOk(limits, Touch(w, i, request in w.requests), request, i);
      case None => NewEntryOk(limits, w, request, result);
    }
  }

  /** Whatever entry answers a request belongs to the same tool. */
  lemma HolderOk(limits: Limits, w: Workspace, request: Request, result: ToolResult)
    requires Valid(limits, w) && Holder(w, request, result).Some?
    ensures var i := Holder(w, request, result).value; i < |w.entries| && w.entries[i].record.Tool() == request.tool
  {
    if request !in w.requests {
      var i := Holder(w, request, result).value;
      assert Identifies(w.entries[i].record, IdentityOf(request, result).value);
    }
  }

  // ------------------------------------------------------------------ selecting

  datatype Selection = Selection(records: seq<Record>, selected: set<nat>, seen: set<string>)

  function Manifests(entries: seq<Entry>): seq<Record> {
    seq(|entries|, i requires 0 <= i < |entries| => ManifestOf(entries[i].record))
  }

  /** Offer entry `i` the place of its manifest. */
  function Consider(context: nat, entries: seq<Entry>, s: Selection, i: nat): Selection
    requires i < |entries| == |s.records|
  {
    var candidate := Deduplicated(entries[i].record, s.seen);
    var records := s.records[i := candidate];
    if Rendered(records) <= context then Selection(records, s.selected + {i}, s.seen + Keys(candidate)) else s
  }

  predicate Indexes(order: seq<nat>, n: nat) {
    forall k | 0 <= k < |order| :: order[k] < n
  }

  function SelectFirst(context: nat, entries: seq<Entry>, order: seq<nat>): (s: Selection)
    requires Indexes(order, |entries|)
    ensures |s.records| == |entries|
  {
    if order == [] then Selection(Manifests(entries), {}, {})
    else
      assert Indexes(order[..|order| - 1], |entries|);
      Consider(context, entries, SelectFirst(context, entries, order[..|order| - 1]), order[|order| - 1])
  }

  function Rank(e: Entry): nat {
    if e.reactivated then 4 else e.priority
  }

  predicate Outranks(a: Entry, b: Entry) {
    Rank(a) > Rank(b) || (Rank(a) == Rank(b) && a.touched > b.touched)
  }

  /** `order` lists every entry once, the highest-ranked and most recently touched first. */
  ghost predicate IsOrder(entries: seq<Entry>, order: seq<nat>) {
    && |order| == |entries| && Indexes(order, |entries|)
    && (forall j, k | 0 <= j < k < |order| :: order[j] != order[k] && !Outranks(entries[order[k]], entries[order[j]]))
  }

  /** What the greedy loop makes of an order. */
  ghost predicate IsSelection(context: nat, entries: seq<Entry>, order: seq<nat>, records: seq<Record>, selected: set<nat>)
    requires Indexes(order, |entries|)
  {
    var s := SelectFirst(context, entries, order);
    records == s.records && selected == s.selected
  }

  function SourcesOf(records: seq<Record>, selected: set<nat>, n: nat): seq<Source>
    requires n <= |records|
  {
    if n == 0 then []
    else
      var before := SourcesOf(records, selected, n - 1);
      var r := records[n - 1];
      if n - 1 in selected && r.Full? && r.result.sources.Some? then Merged(before, r.result.sources.value) else before
  }

  function Merged(known: seq<Source>, more: seq<Source>): seq<Source> {
    if more == [] then known
    else
      var m := Merged(known, more[..|more| - 1]);
      var last := more[|more| - 1];
      if last in m then m else m + [last]
  }

  function Rested(entries: seq<Entry>): seq<Entry> {
    seq(|entries|, i requires 0 <= i < |entries| => entries[i].(reactivated := false))
  }

  // ------------------------------------------------------------------ the store

  class EvidenceWorkspace {
    const limits: Limits
    var entries: seq<Entry>
    var requests: map<Request, nat>
    var identities: map<Identity, nat>
    var clock: nat
    var diagnostics: seq<Diagnostic>

    ghost function State(): Workspace reads this {
      Workspace(entries, requests, identities, clock, diagnostics)
    }

    constructor (limits: Limits)
      ensures this.limits == limits && State() == Workspace([], map[], map[], 0, []) && Valid(limits, State())
    {
      this.limits := limits;
      entries, requests, identities, clock, diagnostics := [], map[], map[], 0, [];
    }

    method TouchEntry(i: nat, reactivate: bool)
      requires i < |entries|
      modifies `entries, `clock
      ensures State() == Touch(old(State()), i, reactivate)
    {
      clock := clock + 1;
      entries := entries[i := entries[i].(touched := clock)];
      if reactivate {
        entries := entries[i := entries[i].(reactivated := true)];
      }
    }

    /** Reactivate a cached request without executing anything. */
    method Activate(request: Request) returns (cached: bool)
      requires Valid(limits, State())
      modifies `entries, `clock
      ensures cached <==> request in old(requests)
      ensures State() == if cached then Touch(old(State()), old(requests)[request], true) else old(State())
      ensures Valid(limits, State())
    {
      if request !in requests {
        return false;
      }
      TouchOk(limits, State(), requests[request], true);
      TouchEntry(requests[request], true);
      return true;
    }

    /** False stands for the raised request ceiling. */
    method Add(request: Request, result: ToolResult) returns (admitted: bool)
      requires Valid(limits, State())
      modifies this
      ensures admitted <==> !Refuses(limits, old(State()), request)
      ensures State() == Added(limits, old(State()), request, result)
      ensures Valid(limits, State()) && (admitted ==> request in requests)
    {
      AddedOk(limits, State(), request, result);
      admitted := Put(request, result);
    }

    method Put(request: Request, result: ToolResult) returns (admitted: bool)
      requires RequestsOk(State()) && IdentitiesOk(State())
      modifies this
      ensures admitted <==> !Refuses(limits, old(State()), request)
      ensures State() == Added(limits, old(State()), request, result)
    {
      if request in requests {
        ghost var known := requests;
        TouchEntry(requests[request], true);
        assert known[request := known[request]] == known;
        return true;
      }
      if |requests| >= limits.requests {
        return false;
      }
      var identity := IdentityOf(request, result);
      if identity.Some? && identity.value in identities {
        var i := identities[identity.value];
        TouchEntry(i, false);
        requests := requests[request := i];
        return true;
      }
      Store(request, result, identity);
      return true;
    }

    method AddDiagnostics(texts: seq<string>)
      modifies `diagnostics
      ensures diagnostics == WithDiagnostics(old(diagnostics), texts)
    {
      ghost var known := diagnostics;
      for k := 0 to |texts|
        invariant diagnostics == WithDiagnostics(known, texts[..k])
      {
        assert texts[..k + 1][..k] == texts[..k];
        if Provider(texts[k]) !in diagnostics {
          diagnostics := diagnostics + [Provider(texts[k])];
        }
      }
      assert texts[..|texts|] == texts;
    }

    method Store(request: Request, result: ToolResult, identity: Option<Identity>)
      requires identity == IdentityOf(request, result)
      modifies this
      ensures State() == NewEntry(limits, old(State()), request, result)
    {
      var index := |entries|;
      var record := Full(index + 1, request, result);
      var size := RecordSize(record);
      var kept := identity;
      if size > limits.result {
        record := Omission(index + 1, request.tool, LocatorOf(result.data));
        diagnostics := diagnostics + [TooLarge(request.tool, size)];
        kept := None;
      } else if result.diagnostics.Some? {
        AddDiagnostics(result.diagnostics.value);
      }
      assert record == Stored(limits, index + 1, request, result) && (kept.Some? <==> record.Full? && identity.Some?);
      clock := clock + 1;
      requests := requests[request := index];
      if kept.Some? {
        identities := identities[kept.value := index];
      }
      entries := entries + [Entry(record, clock, Priority(request.tool), false)];
    }

    /** The place in `rest` of an entry none of them outranks. */
    method Best(rest: seq<nat>) returns (best: nat)
      requires rest != [] && Indexes(rest, |entries|)
      ensures best < |rest| && forall j | 0 <= j < |rest| :: !Outranks(entries[rest[j]], entries[rest[best]])
    {
      best := 0;
      for k := 1 to |rest|
        invariant best < |rest|
        invariant forall j | 0 <= j < k :: !Outranks(entries[rest[j]], entries[rest[best]])
      {
        if Outranks(entries[rest[k]], entries[rest[best]]) {
          best := k;
        }
      }
    }

    /** The order of selection, by repeatedly taking an entry the rest do not outrank. */
    method Order() returns (order: seq<nat>)
      ensures IsOrder(entries, order)
    {
      order := [];
      var rest := Indices(|entries|);
      while rest != []
        invariant Ordering(entries, order, rest)
        decreases |rest|
      {
        var best := Best(rest);
        OrderingStep(entries, order, rest, best);
        order, rest := order + [rest[best]], rest[..best] + rest[best + 1 ..];
      }
    }

    method ManifestRecords() returns (records: seq<Record>)
      ensures records == Manifests(entries)
    {
      records := [];
      for i := 0 to |entries|
        invariant records == Manifests(entries)[..i]
      {
        records := records + [ManifestOf(entries[i].record)];
      }
    }

    method SelectRecords() returns (records: seq<Record>, selected: set<nat>)
      ensures exists order :: IsOrder(entries, order) && IsSelection(limits.context, entries, order, records, selected)
    {
      records := ManifestRecords();
      var seen: set<string> := {};
      selected := {};
      var list := Order();
      for k := 0 to |list|
        invariant Indexes(list[..k], |entries|) && |records| == |entries|
        invariant Selection(records, selected, seen) == SelectFirst(limits.context, entries, list[..k])
      {
        assert list[..k + 1][..k] == list[..k];
        var i := list[k];
        var candidate := Deduplicated(entries[i].record, seen);
        var replaced := records[i];
        records := records[i := candidate];
        if Rendered(records) <= limits.context {
          selected, seen := selected + {i}, seen + Keys(candidate);
        } else {
          records := records[i := replaced];
        }
      }
      assert list[..|list|] == list;
    }

    static method CollectSources(records: seq<Record>, selected: set<nat>) returns (sources: seq<Source>)
      ensures sources == SourcesOf(records, selected, |records|)
    {
      sources := [];
      for i := 0 to |records|
        invariant sources == SourcesOf(records, selected, i)
      {
        if i in selected && records[i].Full? && records[i].result.sources.Some? {
          var more := records[i].result.sources.value;
          ghost var before := sources;
          for k := 0 to |more|
            invariant sources == Merged(before, more[..k])
          {
            assert more[..k + 1][..k] == more[..k];
            if more[k] !in sources {
              sources := sources + [more[k]];
            }
          }
          assert more[..|more|] == more;
        }
      }
    }

    method Select() returns (records: seq<Record>, sources: seq<Source>)
      requires Valid(limits, State())
      modifies `entries
      ensures exists order, selected ::
        IsOrder(old(entries), order) && IsSelection(limits.context, old(entries), order, records, selected) && sources == SourcesOf(records, selected, |records|)
      ensures State() == old(State()).(entries := Rested(old(entries))) && Valid(limits, State())
    {
      var selected: set<nat>;
      records, selected := SelectRecords();
      sources := CollectSources(records, selected);
      RestedOk(limits, State());
      entries := Rested(entries);
    }
  }

  function Indices(n: nat): (r: seq<nat>)
    ensures |r| == n && forall i | 0 <= i < n :: r[i] == i
  {
    if n == 0 then [] else Indices(n - 1) + [n - 1]
  }

  /** Part of the way through ordering: `order` is final, and nothing in `rest` outranks it. */
  ghost predicate Ordering(entries: seq<Entry>, order: seq<nat>, rest: seq<nat>) {
    && |order| + |rest| == |entries| && Indexes(order, |entries|) && Indexes(rest, |entries|)
    && (forall j, k | 0 <= j < k < |order| :: order[j] != order[k] && !Outranks(entries[order[k]], entries[order[j]]))
    && (forall j, k | 0 <= j < k < |rest| :: rest[j] != rest[k])
    && (forall j, k | 0 <= j < |order| && 0 <= k < |rest| :: order[j] != rest[k] && !Outranks(entries[rest[k]], entries[order[j]]))
  }

  lemma OrderingStep(entries: seq<Entry>, order: seq<nat>, rest: seq<nat>, best: nat)
    requires Ordering(entries, order, rest) && best < |rest|
    requires forall j | 0 <= j < |rest| :: !Outranks(entries[rest[j]], entries[rest[best]])
    ensures Ordering(entries, order + [rest[best]], rest[..best] + rest[best + 1 ..])
  {
  }

  lemma RestedOk(limits: Limits, w: Workspace)
    requires Valid(limits, w)
    ensures Valid(limits, w.(entries := Rested(w.entries)))
  {
    var t := w.(entries := Rested(w.entries));
    assert forall i | 0 <= i < |w.entries| :: t.entries[i] == w.entries[i].(reactivated := false);
    forall i | 0 <= i < |t.entries| ensures EntryOk(limits, t.entries[i], i, t.clock) {
      assert EntryOk(limits, w.entries[i], i, w.clock);
    }
  }
}
