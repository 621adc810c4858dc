/**
  Whose evidence the workspace holds. Nothing here speaks of how a result is added: a record is
  compared with the results the executions gave, so a store that keeps something else, or files it
  under another request, is not faithful.
 */
module EvidenceProvenance {
  import opened Prelude
  import opened Evidence
  import opened EvidenceWorkspace

  /** One execution that gave a result. */
  datatype Given = Given(request: Request, result: ToolResult)

  /** The record is this result, whole, or an omission of it because it exceeds the per-result limit. */
  predicate Keeps(limits: Limits, record: Record, g: Given) {
    || (record.Full? && record.request == g.request && record.result == g.result && RecordSize(record) <= limits.result)
    || (record.Omission? && record.tool == g.request.tool && record.locator == LocatorOf(g.result.data)
        && RecordSize(Full(record.number, g.request, g.result)) > limits.result)
  }

  function SourceList(x: ToolResult): seq<Source> {
    if x.sources.Some? then x.sources.value else []
  }

  /** Two answers of one knowledge tool that are the same: by their read key, or else in status, data and sources. */
  predicate SameKnowledge(g: Given, h: Given) {
    var x, y := g.result, h.result;
    && (g.request.tool == "knowledge.search" || g.request.tool == "knowledge.read") && h.request.tool == g.request.tool
    && if x.readKey.Some? || y.readKey.Some? then x.readKey == y.readKey
       else x.status == y.status && x.data == y.data && SourceList(x) == SourceList(y)
  }

  /** The record keeps the `i`-th given result, which is the `j`-th or the same knowledge. */
  ghost predicate Answers(limits: Limits, record: Record, log: seq<Given>, i: nat, j: nat)
    requires i < |log| && j < |log|
  {
    Keeps(limits, record, log[i]) && (i == j || (record.Full? && SameKnowledge(log[i], log[j])))
  }

  /** The record answers the `j`-th request with its own result, or an earlier one that is the same knowledge. */
  ghost predicate Answered(limits: Limits, record: Record, log: seq<Given>, j: nat)
    requires j < |log|
  {
    exists i: nat :: i <= j && Answers(limits, record, log, i, j)
  }

  ghost predicate Holds(limits: Limits, w: Workspace, log: seq<Given>, j: nat)
    requires j < |log|
  {
    var r := log[j].request;
    r in w.requests && w.requests[r] < |w.entries| && Answered(limits, w.entries[w.requests[r]].record, log, j)
  }

  ghost predicate IsKept(limits: Limits, record: Record, log: seq<Given>) {
    exists i: nat :: i < |log| && Keeps(limits, record, log[i])
  }

  /** Everything stored was given by an execution, and every result given is stored under its request. */
  ghost predicate Faithful(limits: Limits, w: Workspace, log: seq<Given>) {
    && (forall e {:trigger IsKept(limits, w.entries[e].record, log)} | 0 <= e < |w.entries| :: IsKept(limits, w.entries[e].record, log))
    && (forall j | 0 <= j < |log| :: Holds(limits, w, log, j))
  }

  /** The same records under the same requests. */
  ghost predicate SameRecords(w: Workspace, t: Workspace) {
    && |t.entries| == |w.entries| && t.requests == w.requests
    && forall e | 0 <= e < |w.entries| :: t.entries[e].record == w.entries[e].record
  }

  lemma TouchedSame(w: Workspace, i: nat, reactivate: bool)
    requires i < |w.entries|
    ensures SameRecords(w, Touch(w, i, reactivate)) && Touch(w, i, reactivate).identities == w.identities
  {
  }

  lemma RestedSame(w: Workspace)
    ensures SameRecords(w, w.(entries := Rested(w.entries)))
  {
  }

  lemma SameRecordsFaithful(limits: Limits, w: Workspace, t: Workspace, log: seq<Given>)
    requires Faithful(limits, w, log) && SameRecords(w, t)
    ensures Faithful(limits, t, log)
  {
    forall j | 0 <= j < |log| ensures Holds(limits, t, log, j) {
      assert Holds(limits, w, log, j);
    }
    forall e | 0 <= e < |t.entries| ensures IsKept(limits, t.entries[e].record, log) {
      assert IsKept(limits, w.entries[e].record, log);
    }
  }

  lemma KeptMore(limits: Limits, record: Record, log: seq<Given>, g: Given)
    requires IsKept(limits, record, log)
    ensures IsKept(limits, record, log + [g])
  {
    var i: nat :| i < |log| && Keeps(limits, record, log[i]);
    assert Keeps(limits, record, (log + [g])[i]);
  }

  lemma AnsweredMore(limits: Limits, record: Record, log: seq<Given>, g: Given, j: nat)
    requires j < |log| && Answered(limits, record, log, j)
    ensures Answered(limits, record, log + [g], j)
  {
    var i: nat :| i <= j && Answers(limits, record, log, i, j);
    assert Answers(limits, record, log + [g], i, j);
  }

  /** What adding does to records and requests: old records stay, and the request's record is new or the one that holds it. */
  ghost predicate Extends(limits: Limits, w: Workspace, t: Workspace, request: Request, result: ToolResult, h: nat) {
    && |w.entries| <= |t.entries| && h < |t.entries| && t.requests == w.requests[request := h]
    && (forall e | 0 <= e < |w.entries| :: t.entries[e].record == w.entries[e].record)
    && (forall e | |w.entries| <= e < |t.entries| :: e == h && t.entries[e].record == Stored(limits, h + 1, request, result))
    && (h < |w.entries| ==> SharesIdentity(w.entries[h].record, request, result))
  }

  predicate SharesIdentity(record: Record, request: Request, result: ToolResult) {
    IdentityOf(request, result).Some? && Identifies(record, IdentityOf(request, result).value)
  }

  lemma AddedExtends(limits: Limits, w: Workspace, request: Request, result: ToolResult)
    requires RequestsOk(w) && IdentitiesOk(w) && request !in w.requests && !Refuses(limits, w, request)
    ensures exists h: nat :: Extends(limits, w, Added(limits, w, request, result), request, result, h)
  {
    var t := Added(limits, w, request, result);
    match Holder(w, request, result)
    case None => assert Extends(limits, w, t, request, result, |w.entries|);
    case Some(h) =>
      assert t.entries == Touch(w, h, false).entries;
      assert Extends(limits, w, t, request, result, h);
  }

  lemma StoredKeeps(limits: Limits, number: nat, request: Request, result: ToolResult)
    ensures Keeps(limits, Stored(limits, number, request, result), Given(request, result))
  {
  }

  lemma SharedKeeps(limits: Limits, record: Record, g: Given, h: Given)
    requires Keeps(limits, record, g) && SharesIdentity(record, h.request, h.result)
    ensures record.Full? && SameKnowledge(g, h)
  {
  }

  lemma NewAnswered(limits: Limits, record: Record, log: seq<Given>, g: Given)
    requires Keeps(limits, record, g) || (IsKept(limits, record, log) && SharesIdentity(record, g.request, g.result))
    ensures Answered(limits, record, log + [g], |log|)
  {
    var more := log + [g];
    if Keeps(limits, record, g) {
      assert Answers(limits, record, more, |log|, |log|);
    } else {
      var i: nat :| i < |log| && Keeps(limits, record, log[i]);
      SharedKeeps(limits, record, log[i], g);
      assert Answers(limits, record, more, i, |log|);
    }
  }

  lemma ExtendsKept(limits: Limits, w: Workspace, t: Workspace, log: seq<Given>, g: Given, h: nat, e: nat)
    requires Faithful(limits, w, log) && Extends(limits, w, t, g.request, g.result, h) && e < |t.entries|
    ensures IsKept(limits, t.entries[e].record, log + [g])
  {
    if e < |w.entries| {
      assert IsKept(limits, w.entries[e].record, log);
      KeptMore(limits, w.entries[e].record, log, g);
    } else {
      StoredKeeps(limits, h + 1, g.request, g.result);
      assert Keeps(limits, t.entries[e].record, (log + [g])[|log|]);
    }
  }

  lemma ExtendsHolds(limits: Limits, w: Workspace, t: Workspace, log: seq<Given>, g: Given, h: nat, j: nat)
    requires Faithful(limits, w, log) && Extends(limits, w, t, g.request, g.result, h) && j <= |log|
    requires forall k | 0 <= k < |log| :: log[k].request != g.request
    ensures Holds(limits, t, log + [g], j)
  {
    if j < |log| {
      assert Holds(limits, w, log, j);
      AnsweredMore(limits, w.entries[w.requests[log[j].request]].record, log, g, j);
    } else if h < |w.entries| {
      assert IsKept(limits, w.entries[h].record, log);
      NewAnswered(limits, t.entries[h].record, log, g);
    } else {
      StoredKeeps(limits, h + 1, g.request, g.result);
      NewAnswered(limits, t.entries[h].record, log, g);
    }
  }

  /** Storing what an execution of a new request gave keeps the store faithful. */
  lemma AddedFaithful(limits: Limits, w: Workspace, log: seq<Given>, g: Given)
    requires RequestsOk(w) && IdentitiesOk(w) && Faithful(limits, w, log)
    requires g.request !in w.requests && !Refuses(limits, w, g.request)
    ensures Faithful(limits, Added(limits, w, g.request, g.result), log + [g])
  {
    var t := Added(limits, w, g.request, g.result);
    AddedExtends(limits, w, g.request, g.result);
    var h: nat :| Extends(limits, w, t, g.request, g.result, h);
    forall k | 0 <= k < |log| ensures log[k].request != g.request {
      assert Holds(limits, w, log, k);
    }
    forall j | 0 <= j < |log + [g]| ensures Holds(limits, t, log + [g], j) {
      ExtendsHolds(limits, w, t, log, g, h, j);
    }
    forall e | 0 <= e < |t.entries| ensures IsKept(limits, t.entries[e].record, log + [g]) {
      ExtendsKept(limits, w, t, log, g, h, e);
    }
  }

  // ------------------------------------------------------------------ no knowledge is stored twice

  /** No two records stored whole are the same knowledge. */
  ghost predicate StoredOnce(w: Workspace) {
    forall e, f | 0 <= e < f < |w.entries| :: Differ(w.entries[e].record, w.entries[f].record)
  }

  predicate Differ(r: Record, q: Record) {
    r.Full? && q.Full? ==> !SameKnowledge(Given(r.request, r.result), Given(q.request, q.result))
  }

  ghost predicate IndexedAt(w: Workspace, e: nat)
    requires e < |w.entries|
  {
    var r := w.entries[e].record;
    r.Full? && IdentityOf(r.request, r.result).Some? ==>
      IdentityOf(r.request, r.result).value in w.identities && w.identities[IdentityOf(r.request, r.result).value] == e
  }

  ghost predicate Indexed(w: Workspace) {
    forall e | 0 <= e < |w.entries| :: IndexedAt(w, e)
  }

  lemma IndexedDistinct(w: Workspace)
    requires Indexed(w)
    ensures StoredOnce(w)
  {
    forall e, f | 0 <= e < f < |w.entries| ensures Differ(w.entries[e].record, w.entries[f].record) {
      assert IndexedAt(w, e) && IndexedAt(w, f);
    }
  }

  lemma SameRecordsIndexed(w: Workspace, t: Workspace)
    requires Indexed(w) && SameRecords(w, t) && t.identities == w.identities
    ensures Indexed(t)
  {
    forall e | 0 <= e < |t.entries| ensures IndexedAt(t, e) {
      assert IndexedAt(w, e);
    }
  }

  lemma AddedIndexed(limits: Limits, w: Workspace, request: Request, result: ToolResult)
    requires RequestsOk(w) && IdentitiesOk(w) && Indexed(w) && request !in w.requests && !Refuses(limits, w, request)
    ensures Indexed(Added(limits, w, request, result))
  {
    var t := Added(limits, w, request, result);
    forall e | 0 <= e < |t.entries| ensures IndexedAt(t, e) {
      if e < |w.entries| {
        assert IndexedAt(w, e) && t.entries[e].record == w.entries[e].record;
      }
    }
  }
}
