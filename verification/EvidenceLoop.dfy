/**
  The bounded evidence loop of `evidence_loop.py`. The model, the session and the question's
  control are arbitrary: the n-th reply, the n-th execution and the n-th deadline check are
  whatever the caller's functions say.
 */
module EvidenceLoop {
  import opened Prelude
  import opened Evidence
  import opened EvidenceWorkspace
  import opened EvidenceSelection
  import opened EvidenceProvenance

  const MAX_ROUNDS := 3
  const MAX_BATCH := 4
  const MAX_REQUESTS := 8
  const MAX_TURN_CHARS := 32000
  const MAX_ARGUMENT_CHARS := 2000

  /** A member of a request list: absent when it is not an object with exactly a tool and arguments. */
  type Member = Option<Request>

  /** One model reply: too long or blank, plain text, or protocol JSON with the fields it has. */
  datatype Reply =
    | Unusable
    | Plain(text: string)
    | Malformed
    | Protocol(answer: Option<string>, requests: Option<seq<Member>>, otherFields: bool)

  datatype Turn = Bad | Answers(text: string) | Asks(requests: seq<Request>)

  predicate White(c: char) {
    c == ' ' || c == '\t' || c == '\n' || c == '\r'
  }

  predicate Blank(s: string) {
    forall i | 0 <= i < |s| :: White(s[i])
  }

  /** All of the white space around the string lies before `i` or from `j` on. */
  predicate Trims(s: string, i: nat, j: nat) {
    && i <= j <= |s| && (forall k | 0 <= k < i :: s[k] in " \t\n\r") && (forall k | j <= k < |s| :: s[k] in " \t\n\r")
    && (i < j ==> s[i] !in " \t\n\r" && s[j - 1] !in " \t\n\r")
  }

  /** `text` is the string without the white space around it. */
  ghost predicate IsStripped(s: string, text: string) {
    exists i: nat, j: nat :: Trims(s, i, j) && text == s[i..j]
  }

  function Lead(s: string, i: nat): (r: nat)
    requires i <= |s|
    ensures i <= r <= |s| && (r < |s| ==> !White(s[r])) && forall k | i <= k < r :: White(s[k])
    decreases |s| - i
  {
    if i < |s| && White(s[i]) then Lead(s, i + 1) else i
  }

  function Trail(s: string, low: nat, j: nat): (r: nat)
    requires low <= j <= |s|
    ensures low <= r <= j && (low < r ==> !White(s[r - 1])) && forall k | r <= k < j :: White(s[k])
  {
    if low < j && White(s[j - 1]) then Trail(s, low, j - 1) else j
  }

  function Strip(s: string): (text: string)
    ensures IsStripped(s, text)
  {
    var i := Lead(s, 0);
    var j := Trail(s, i, |s|);
    assert Trims(s, i, j);
    s[i..j]
  }

  predicate WellFormed(m: Member) {
    m.Some? && |m.value.arguments| <= MAX_ARGUMENT_CHARS
  }

  /** The reply is a request batch: protocol JSON with one to four well-formed requests and nothing else. */
  predicate IsBatch(reply: Reply) {
    && reply.Protocol? && reply.answer.None? && !reply.otherFields && reply.requests.Some?
    && 1 <= |reply.requests.value| <= 4
    && forall i | 0 <= i < |reply.requests.value| ::
         reply.requests.value[i].Some? && |reply.requests.value[i].value.arguments| <= 2000
  }

  /** The reply is an answer: plain text, or protocol JSON with a nonblank answer and nothing else. */
  predicate IsSomeAnswer(reply: Reply) {
    || reply.Plain?
    || (reply.Protocol? && reply.requests.None? && !reply.otherFields && reply.answer.Some?
        && exists k :: 0 <= k < |reply.answer.value| && reply.answer.value[k] !in " \t\n\r")
  }

  /** The reply is this answer, without the white space around it. */
  ghost predicate IsAnswer(reply: Reply, text: string) {
    IsSomeAnswer(reply) && IsStripped(if reply.Plain? then reply.text else reply.answer.value, text)
  }

  method ParseTurn(reply: Reply) returns (turn: Turn)
    ensures turn.Asks? ==> 1 <= |turn.requests| <= MAX_BATCH && forall i | 0 <= i < |turn.requests| :: |turn.requests[i].arguments| <= MAX_ARGUMENT_CHARS
    ensures turn.Asks? <==> IsBatch(reply)
    ensures turn.Asks? ==> |turn.requests| == |reply.requests.value|
    ensures turn.Asks? ==> forall i | 0 <= i < |turn.requests| :: reply.requests.value[i] == Some(turn.requests[i])
    ensures turn.Answers? <==> IsSomeAnswer(reply)
    ensures turn.Answers? ==> IsAnswer(reply, turn.text)
  {
    if reply.Unusable? || reply.Malformed? {
      return Bad;
    }
    if reply.Plain? {
      return Answers(Strip(reply.text));
    }
    if reply.answer.Some? && reply.requests.None? && !reply.otherFields {
      return if Blank(reply.answer.value) then Bad else Answers(Strip(reply.answer.value));
    }
    if reply.answer.Some? || reply.otherFields || reply.requests.None? {
      return Bad;
    }
    var members := reply.requests.value;
    if !(1 <= |members| <= MAX_BATCH) {
      return Bad;
    }
    var requests: seq<Request> := [];
    for i := 0 to |members|
      invariant |requests| == i
      invariant forall j | 0 <= j < i :: WellFormed(members[j]) && members[j] == Some(requests[j])
    {
      if members[i].None? || |members[i].value.arguments| > MAX_ARGUMENT_CHARS {
        return Bad;
      }
      requests := requests + [members[i].value];
    }
    return Asks(requests);
  }

  /** The n-th execution fails, returns something that is not a result, or returns a result. */
  datatype Executed = Raises | Invalid | Gives(result: ToolResult)

  /** What the loop cannot control; `display` is the text stored for a diagnostic of a tool. */
  datatype World = World(
    model: nat -> Reply, names: set<string>, valid: Request -> bool, execute: nat -> Executed, expired: nat -> bool,
    display: (string, string) -> string)

  datatype Ending =
    | Answered(text: string, sources: seq<Source>) | LimitReached(sources: seq<Source>)
    | ModelError | Cancelled | SessionError | CeilingExceeded

  /** Tool names are short and no answer of the session declares itself omitted. */
  ghost predicate Modest(world: World) {
    && (forall name | name in world.names :: |name| <= MAX_MANIFEST_REQUEST - 11)
    && (forall n: nat :: world.execute(n).Gives? ==> world.execute(n).result.status != "omitted")
  }

  predicate Admissible(world: World, r: Request) {
    r.tool in world.names && world.valid(r)
  }

  // ------------------------------------------------------------------ what the executions gave

  function DiagnosticsOf(x: ToolResult): seq<string> {
    if x.diagnostics.Some? then x.diagnostics.value else []
  }

  /** The result as it is stored: its diagnostics in display form, and everything else as returned. */
  function Displayed(world: World, tool: string, x: ToolResult): ToolResult {
    var texts := DiagnosticsOf(x);
    x.(diagnostics := Some(seq(|texts|, i requires 0 <= i < |texts| => world.display(texts[i], tool))))
  }

  /** Every one of these executions returned a result. */
  ghost predicate Gave(world: World, executed: seq<Request>) {
    forall j: nat | j < |executed| :: world.execute(j).Gives?
  }

  ghost function GivenBy(world: World, request: Request, x: ToolResult): Given {
    var shown := seq(|DiagnosticsOf(x)|, i requires 0 <= i < |DiagnosticsOf(x)| => world.display(DiagnosticsOf(x)[i], request.tool));
    Given(request, ToolResult(x.status, x.data, x.sources, Some(shown), x.readKey))
  }

  /** The executed requests with what each execution returned. */
  ghost function Log(world: World, executed: seq<Request>): (log: seq<Given>)
    requires Gave(world, executed)
    ensures |log| == |executed|
  {
    seq(|executed|, j requires 0 <= j < |executed| => GivenBy(world, executed[j], world.execute(j).result))
  }

  lemma LogOne(world: World, executed: seq<Request>, request: Request, x: ToolResult)
    requires Gave(world, executed) && world.execute(|executed|) == Gives(x)
    ensures Gave(world, executed + [request])
    ensures Log(world, executed + [request]) == Log(world, executed) + [Given(request, Displayed(world, request.tool, x))]
  {
    assert GivenBy(world, request, x).result.diagnostics.value == Displayed(world, request.tool, x).diagnostics.value;
  }

  /** The store holds exactly what the executions returned, each piece of knowledge once. */
  ghost predicate Holding(world: World, limits: Limits, w: Workspace, executed: seq<Request>) {
    Gave(world, executed) && Faithful(limits, w, Log(world, executed)) && Indexed(w)
  }

  lemma HoldingSame(world: World, limits: Limits, w: Workspace, t: Workspace, executed: seq<Request>)
    requires Holding(world, limits, w, executed) && SameRecords(w, t) && t.identities == w.identities
    ensures Holding(world, limits, t, executed)
  {
    SameRecordsFaithful(limits, w, t, Log(world, executed));
    SameRecordsIndexed(w, t);
  }

  lemma HoldingOne(world: World, limits: Limits, w: Workspace, executed: seq<Request>, request: Request, x: ToolResult)
    requires RequestsOk(w) && IdentitiesOk(w) && Holding(world, limits, w, executed)
    requires request !in w.requests && !Refuses(limits, w, request) && world.execute(|executed|) == Gives(x)
    ensures Holding(world, limits, Added(limits, w, request, Displayed(world, request.tool, x)), executed + [request])
  {
    var result := Displayed(world, request.tool, x);
    LogOne(world, executed, request, x);
    AddedFaithful(limits, w, Log(world, executed), Given(request, result));
    AddedIndexed(limits, w, request, result);
  }

  lemma AddedCompact(limits: Limits, w: Workspace, request: Request, result: ToolResult)
    requires Valid(limits, w) && Compact(w.entries)
    requires |request.tool| <= MAX_MANIFEST_REQUEST - 11 && result.status != "omitted"
    ensures Compact(Added(limits, w, request, result).entries)
  {
    if !Refuses(limits, w, request) && Holder(w, request, result).None? {
      PushCompact(w.entries, NewEntry(limits, w, request, result).entries[|w.entries|]);
    }
  }

  lemma PushCompact(entries: seq<Entry>, e: Entry)
    requires Compact(entries) && |e.record.Tool()| <= MAX_MANIFEST_REQUEST - 11
    requires e.record.Full? ==> e.record.result.status != "omitted"
    ensures Compact(entries + [e])
  {
  }

  /** The executed requests, none of them twice, each from a batch whose every member was admissible. */
  ghost predicate Logged(world: World, executed: seq<Request>, batches: seq<seq<Request>>) {
    && (forall j, k | 0 <= j < k < |executed| :: executed[j] != executed[k])
    && (forall j {:trigger InSomeBatch(executed[j], batches)} | 0 <= j < |executed| :: InSomeBatch(executed[j], batches))
    && (forall b | 0 <= b < |batches| :: BatchOk(world, batches[b]))
  }

  /** The store caches exactly the executed requests. */
  ghost predicate Caches(w: Workspace, executed: seq<Request>) {
    w.requests.Keys == Asked(executed) && |w.requests| == |executed|
  }

  ghost predicate InSomeBatch(r: Request, batches: seq<seq<Request>>) {
    exists b :: 0 <= b < |batches| && r in batches[b]
  }

  ghost predicate BatchOk(world: World, batch: seq<Request>) {
    1 <= |batch| <= MAX_BATCH && forall i | 0 <= i < |batch| :: Admissible(world, batch[i])
  }

  ghost function Asked(executed: seq<Request>): (r: set<Request>)
    ensures forall x :: x in r <==> x in executed
  {
    set x | x in executed
  }

  /** What the loop keeps; `waiting` requests of the current batch are still to be looked at. */
  ghost predicate Bounded(world: World, limits: Limits, w: Workspace, executed: seq<Request>, batches: seq<seq<Request>>, used: nat, waiting: nat) {
    && Valid(limits, w) && Caches(w, executed) && Logged(world, executed, batches)
    && |executed| + waiting <= used <= MAX_REQUESTS
    && (Modest(world) ==> Compact(w.entries))
  }

  lemma CachesOne(w: Workspace, t: Workspace, executed: seq<Request>, request: Request)
    requires Caches(w, executed) && request !in w.requests && t.requests.Keys == w.requests.Keys + {request}
    ensures Caches(t, executed + [request])
  {
    assert |t.requests.Keys| == |w.requests.Keys| + 1;
  }

  lemma AddedKeys(limits: Limits, w: Workspace, request: Request, result: ToolResult)
    requires RequestsOk(w) && IdentitiesOk(w) && !Refuses(limits, w, request)
    ensures Added(limits, w, request, result).requests.Keys == w.requests.Keys + {request}
  {
  }

  lemma AdmissibleTool(world: World, request: Request, batches: seq<seq<Request>>)
    requires InSomeBatch(request, batches) && forall b | 0 <= b < |batches| :: BatchOk(world, batches[b])
    ensures Admissible(world, request)
  {
    var b :| 0 <= b < |batches| && request in batches[b];
    assert BatchOk(world, batches[b]);
  }

  lemma LoggedOne(world: World, executed: seq<Request>, batches: seq<seq<Request>>, request: Request)
    requires Logged(world, executed, batches) && request !in executed && InSomeBatch(request, batches)
    ensures Logged(world, executed + [request], batches)
  {
  }

  lemma ExecutedOne(world: World, limits: Limits, w: Workspace, executed: seq<Request>, batches: seq<seq<Request>>, used: nat, waiting: nat,
                    request: Request, result: ToolResult)
    requires Bounded(world, limits, w, executed, batches, used, waiting) && waiting > 0
    requires limits.requests == MAX_REQUESTS && request !in w.requests
    requires InSomeBatch(request, batches) && (Modest(world) ==> result.status != "omitted")
    ensures !Refuses(limits, w, request)
    ensures Bounded(world, limits, Added(limits, w, request, result), executed + [request], batches, used, waiting - 1)
  {
    var t := Added(limits, w, request, result);
    AddedOk(limits, w, request, result);
    AddedKeys(limits, w, request, result);
    CachesOne(w, t, executed, request);
    LoggedOne(world, executed, batches, request);
    AdmissibleTool(world, request, batches);
    if Modest(world) {
      AddedCompact(limits, w, request, result);
    }
  }

  lemma ReactivatedOne(world: World, limits: Limits, w: Workspace, executed: seq<Request>, batches: seq<seq<Request>>, used: nat, waiting: nat, i: nat)
    requires Bounded(world, limits, w, executed, batches, used, waiting) && waiting > 0 && i < |w.entries|
    ensures Bounded(world, limits, Touch(w, i, true), executed, batches, used, waiting - 1)
  {
    TouchOk(limits, w, i, true);
  }

  // ------------------------------------------------------------------ serving a batch

  /** How the execution of one batch went on: to its end, or to an ending of the whole run. */
  type Interruption = Option<Ending>

  ghost predicate AllIn(requests: seq<Request>, executed: seq<Request>) {
    forall i | 0 <= i < |requests| :: requests[i] in executed
  }

  lemma StillIn(batch: seq<Request>, k: nat, earlier: seq<Request>, executed: seq<Request>)
    requires k < |batch| && AllIn(batch[..k], earlier) && earlier <= executed
    ensures batch[k] in executed ==> AllIn(batch[..k + 1], executed)
  {
    forall i | 0 <= i < k ensures batch[i] in executed {
      assert batch[..k][i] in earlier;
    }
  }

  /** Every deadline check before the `n`-th found time left. */
  ghost predicate Passed(world: World, n: nat) {
    forall c: nat | c < n :: !world.expired(c)
  }

  lemma PassedOne(world: World, n: nat)
    requires Passed(world, n) && !world.expired(n)
    ensures Passed(world, n + 1)
  {
  }

  /** What interrupts a batch: an expired check, an execution that raised, or one without a result. */
  ghost predicate Interrupts(world: World, ending: Ending, executed: seq<Request>, checks: nat) {
    && Passed(world, checks) && (ending.Cancelled? <==> world.expired(checks))
    && (executed != [] ==> Gave(world, executed[..|executed| - 1]))
    && (ending.SessionError? <==> executed != [] && world.execute(|executed| - 1).Raises?)
    && (ending.ModelError? ==> executed != [] && world.execute(|executed| - 1).Invalid?)
    && (ending.Cancelled? || ending.ModelError? || ending.SessionError?)
  }

  /** What holds of the store while requests of admitted batches are served. */
  ghost predicate Serving(world: World, limits: Limits, w: Workspace, executed: seq<Request>, batches: seq<seq<Request>>, used: nat, waiting: nat) {
    Bounded(world, limits, w, executed, batches, used, waiting) && Holding(world, limits, w, executed)
  }

  /**
    What is kept of the store, given the executions, the served batches, the requests used and
    those still waiting: a name for `Serving` that hides what it means from the methods.
   */
  type Keeping = iset<(Workspace, seq<Request>, seq<seq<Request>>, nat, nat)>

  ghost function Servable(world: World, limits: Limits): Keeping {
    iset s: (Workspace, seq<Request>, seq<seq<Request>>, nat, nat) | Serving(world, limits, s.0, s.1, s.2, s.3, s.4)
  }

  ghost predicate Means(world: World, limits: Limits, kept: Keeping) {
    forall w, executed, batches, used: nat, waiting: nat {:trigger Serving(world, limits, w, executed, batches, used, waiting)} ::
      (w, executed, batches, used, waiting) in kept <==> Serving(world, limits, w, executed, batches, used, waiting)
  }

  lemma KeptServing(world: World, limits: Limits, kept: Keeping, w: Workspace, executed: seq<Request>, batches: seq<seq<Request>>, used: nat, waiting: nat)
    requires Means(world, limits, kept)
    ensures (w, executed, batches, used, waiting) in kept <==> Serving(world, limits, w, executed, batches, used, waiting)
  {
  }

  lemma KeptFacts(world: World, limits: Limits, kept: Keeping, w: Workspace, executed: seq<Request>, batches: seq<seq<Request>>, used: nat, waiting: nat)
    requires (w, executed, batches, used, waiting) in kept && Means(world, limits, kept)
    ensures Valid(limits, w) && Gave(world, executed) && Logged(world, executed, batches) && |executed| + waiting <= used
    ensures forall r :: r in w.requests <==> r in executed
  {
    KeptServing(world, limits, kept, w, executed, batches, used, waiting);
  }

  lemma CachedServing(world: World, limits: Limits, w: Workspace, executed: seq<Request>, batches: seq<seq<Request>>, used: nat, waiting: nat, i: nat)
    requires Serving(world, limits, w, executed, batches, used, waiting) && waiting > 0 && i < |w.entries|
    ensures Serving(world, limits, Touch(w, i, true), executed, batches, used, waiting - 1)
  {
    ReactivatedOne(world, limits, w, executed, batches, used, waiting, i);
    TouchedSame(w, i, true);
    HoldingSame(world, limits, w, Touch(w, i, true), executed);
  }

  lemma ServedCached(world: World, limits: Limits, kept: Keeping, w: Workspace, executed: seq<Request>, batches: seq<seq<Request>>, used: nat, waiting: nat, i: nat)
    requires (w, executed, batches, used, waiting) in kept && Means(world, limits, kept) && waiting > 0 && i < |w.entries|
    ensures (Touch(w, i, true), executed, batches, used, waiting - 1) in kept
  {
    KeptServing(world, limits, kept, w, executed, batches, used, waiting);
    CachedServing(world, limits, w, executed, batches, used, waiting, i);
    KeptServing(world, limits, kept, Touch(w, i, true), executed, batches, used, waiting - 1);
  }

  lemma NewServing(world: World, limits: Limits, w: Workspace, executed: seq<Request>, batches: seq<seq<Request>>, used: nat, waiting: nat,
                   request: Request, x: ToolResult, t: Workspace)
    requires Serving(world, limits, w, executed, batches, used, waiting) && waiting > 0
    requires limits.requests == MAX_REQUESTS && request !in w.requests
    requires InSomeBatch(request, batches) && world.execute(|executed|) == Gives(x)
    requires t == Added(limits, w, request, Displayed(world, request.tool, x))
    ensures !Refuses(limits, w, request)
    ensures Serving(world, limits, t, executed + [request], batches, used, waiting - 1)
  {
    ExecutedOne(world, limits, w, executed, batches, used, waiting, request, Displayed(world, request.tool, x));
    HoldingOne(world, limits, w, executed, request, x);
  }

  lemma ServedNew(world: World, limits: Limits, kept: Keeping, w: Workspace, executed: seq<Request>, batches: seq<seq<Request>>, used: nat, waiting: nat,
                  request: Request, x: ToolResult)
    requires (w, executed, batches, used, waiting) in kept && Means(world, limits, kept) && waiting > 0
    requires Valid(limits, w) && limits.requests == MAX_REQUESTS && request !in w.requests
    requires InSomeBatch(request, batches) && world.execute(|executed|) == Gives(x)
    ensures !Refuses(limits, w, request)
    ensures (Added(limits, w, request, Displayed(world, request.tool, x)), executed + [request], batches, used, waiting - 1) in kept
  {
    var t := Added(limits, w, request, Displayed(world, request.tool, x));
    KeptServing(world, limits, kept, w, executed, batches, used, waiting);
    NewServing(world, limits, w, executed, batches, used, waiting, request, x, t);
    KeptServing(world, limits, kept, t, executed + [request], batches, used, waiting - 1);
  }

  lemma InterruptedBefore(world: World, executed: seq<Request>, checks: nat)
    requires Gave(world, executed) && Passed(world, checks) && world.expired(checks)
    ensures Interrupts(world, Cancelled, executed, checks)
  {
  }

  lemma InterruptedAfter(world: World, ending: Ending, before: seq<Request>, request: Request, checks: nat)
    requires Gave(world, before) && Passed(world, checks)
    requires match world.execute(|before|)
             case Raises => ending == SessionError && !world.expired(checks)
             case Invalid => ending == if world.expired(checks) then Cancelled else ModelError
             case Gives(_) => ending == Cancelled && world.expired(checks)
    ensures Interrupts(world, ending, before + [request], checks)
  {
    assert (before + [request])[..|before|] == before;
  }

  /** A request that is not cached: executed once, and its result stored. */
  method ExecuteOne(world: World, store: EvidenceWorkspace, request: Request, before: seq<Request>, from: nat,
                    ghost batches: seq<seq<Request>>, ghost used: nat, ghost waiting: nat, ghost kept: Keeping)
    returns (stopped: Interruption, executed: seq<Request>, checks: nat)
    requires (store.State(), before, batches, used, waiting) in kept && Means(world, store.limits, kept) && waiting > 0
    requires store.limits.requests == MAX_REQUESTS && InSomeBatch(request, batches)
    requires request !in store.requests && Passed(world, from + 1)
    modifies store
    ensures executed == before + [request]
    ensures stopped.Some? ==> Interrupts(world, stopped.value, executed, checks)
    ensures stopped.None? ==> (store.State(), executed, batches, used, waiting - 1) in kept
    ensures stopped.None? ==> Passed(world, checks + 1) && checks == from + 1
  {
    executed, checks := before, from;
    ghost var w := store.State();
    KeptFacts(world, store.limits, kept, w, before, batches, used, waiting);
    var outcome := world.execute(|executed|);
    executed := executed + [request];
    if outcome.Raises? {
      InterruptedAfter(world, SessionError, before, request, checks);
      return Some(SessionError), executed, checks;
    }
    checks := checks + 1;
    if world.expired(checks) {
      InterruptedAfter(world, Cancelled, before, request, checks);
      return Some(Cancelled), executed, checks;
    }
    if outcome.Invalid? {
      InterruptedAfter(world, ModelError, before, request, checks);
      return Some(ModelError), executed, checks;
    }
    PassedOne(world, checks);
    ServedNew(world, store.limits, kept, w, before, batches, used, waiting, request, outcome.result);
    var admitted := store.Add(request, Displayed(world, request.tool, outcome.result));
    return if admitted then None else Some(CeilingExceeded), executed, checks;
  }

  /** One request of an admitted batch: reactivated when cached, executed and stored otherwise. */
  method ServeOne(world: World, store: EvidenceWorkspace, request: Request, before: seq<Request>, from: nat,
                  ghost batches: seq<seq<Request>>, ghost used: nat, ghost waiting: nat, ghost kept: Keeping)
    returns (stopped: Interruption, executed: seq<Request>, checks: nat)
    requires (store.State(), before, batches, used, waiting) in kept && Means(world, store.limits, kept) && waiting > 0
    requires store.limits.requests == MAX_REQUESTS && InSomeBatch(request, batches) && Passed(world, from + 1)
    modifies store
    ensures Logged(world, executed, batches) && |executed| <= used
    ensures executed == before || executed == before + [request]
    ensures request in before ==> executed == before
    ensures stopped.Some? ==> Interrupts(world, stopped.value, executed, checks)
    ensures stopped.None? ==> (store.State(), executed, batches, used, waiting - 1) in kept
    ensures stopped.None? ==> request in executed && Passed(world, checks + 1) && checks == from + 1 + |executed| - |before|
  {
    executed, checks := before, from + 1;
    ghost var w := store.State();
    KeptFacts(world, store.limits, kept, w, before, batches, used, waiting);
    if world.expired(checks) {
      InterruptedBefore(world, before, checks);
      return Some(Cancelled), executed, checks;
    }
    PassedOne(world, checks);
    var cached := store.Activate(request);
    if cached {
      ServedCached(world, store.limits, kept, w, executed, batches, used, waiting, w.requests[request]);
      return None, executed, checks;
    }
    LoggedOne(world, before, batches, request);
    stopped, executed, checks := ExecuteOne(world, store, request, executed, checks, batches, used, waiting, kept);
  }

  /** Serve every member of an admitted batch; `checks` is the last deadline check made. */
  method ServeBatch(world: World, store: EvidenceWorkspace, batch: seq<Request>, before: seq<Request>, from: nat,
                    ghost batches: seq<seq<Request>>, ghost used: nat, ghost kept: Keeping)
    returns (stopped: Interruption, executed: seq<Request>, checks: nat)
    requires (store.State(), before, batches, used, |batch|) in kept && Means(world, store.limits, kept)
    requires store.limits.requests == MAX_REQUESTS && batch in batches && Passed(world, from + 1)
    modifies store
    ensures Logged(world, executed, batches) && |executed| <= used && before <= executed
    ensures stopped.Some? ==> Interrupts(world, stopped.value, executed, checks)
    ensures stopped.None? ==> (store.State(), executed, batches, used, 0) in kept && Gave(world, executed)
    ensures stopped.None? ==> AllIn(batch, executed) && Passed(world, checks + 1) && checks == from + |batch| + |executed| - |before|
  {
    executed, checks := before, from;
    for k := 0 to |batch|
      invariant (store.State(), executed, batches, used, |batch| - k) in kept
      invariant before <= executed && AllIn(batch[..k], executed)
      invariant Passed(world, checks + 1) && checks == from + k + |executed| - |before|
    {
      assert InSomeBatch(batch[k], batches);
      ghost var earlier := executed;
      stopped, executed, checks := ServeOne(world, store, batch[k], executed, checks, batches, used, |batch| - k, kept);
      StillIn(batch, k, earlier, executed);
      if stopped.Some? {
        return;
      }
    }
    assert batch[..|batch|] == batch;
    KeptFacts(world, store.limits, kept, store.State(), executed, batches, used, 0);
    return None, executed, checks;
  }

  method AllAdmissible(world: World, batch: seq<Request>) returns (ok: bool)
    ensures ok <==> forall i | 0 <= i < |batch| :: Admissible(world, batch[i])
  {
    for i := 0 to |batch|
      invariant forall j | 0 <= j < i :: Admissible(world, batch[j])
    {
      if batch[i].tool !in world.names || !world.valid(batch[i]) {
        return false;
      }
    }
    return true;
  }

  lemma AdmittedBatch(world: World, limits: Limits, w: Workspace, executed: seq<Request>, batches: seq<seq<Request>>, used: nat, batch: seq<Request>)
    requires Bounded(world, limits, w, executed, batches, used, 0) && used + |batch| <= MAX_REQUESTS && BatchOk(world, batch)
    ensures Bounded(world, limits, w, executed, batches + [batch], used + |batch|, |batch|)
  {
    var more := batches + [batch];
    forall j | 0 <= j < |executed| ensures InSomeBatch(executed[j], more) {
      assert InSomeBatch(executed[j], batches);
      var b :| 0 <= b < |batches| && executed[j] in batches[b];
      assert executed[j] in more[b];
    }
  }

  lemma AdmittedServing(world: World, limits: Limits, kept: Keeping, w: Workspace, executed: seq<Request>, batches: seq<seq<Request>>, used: nat, batch: seq<Request>)
    requires Means(world, limits, kept) && (w, executed, batches, used, 0) in kept && used + |batch| <= MAX_REQUESTS && BatchOk(world, batch)
    ensures (w, executed, batches + [batch], used + |batch|, |batch|) in kept
  {
    KeptServing(world, limits, kept, w, executed, batches, used, 0);
    AdmittedBatch(world, limits, w, executed, batches, used, batch);
    KeptServing(world, limits, kept, w, executed, batches + [batch], used + |batch|, |batch|);
  }

  /** Validate the whole batch before serving even its first member. */
  method TakeBatch(world: World, store: EvidenceWorkspace, batch: seq<Request>, before: seq<Request>, from: nat,
                   ghost batches: seq<seq<Request>>, ghost used: nat, ghost kept: Keeping)
    returns (stopped: Interruption, executed: seq<Request>, checks: nat, admitted: bool)
    requires (store.State(), before, batches, used, 0) in kept && Means(world, store.limits, kept)
    requires store.limits.requests == MAX_REQUESTS && 1 <= |batch| <= MAX_BATCH && used + |batch| <= MAX_REQUESTS
    requires Passed(world, from + 1)
    modifies store
    ensures admitted <==> BatchOk(world, batch) && !world.expired(from + 1)
    ensures !admitted ==> executed == before && checks == if BatchOk(world, batch) then from + 1 else from
    ensures !admitted ==> stopped == Some(if BatchOk(world, batch) then Cancelled else ModelError)
    ensures Logged(world, executed, if admitted then batches + [batch] else batches) && |executed| <= used + |batch|
    ensures before <= executed && (admitted && stopped.Some? ==> Interrupts(world, stopped.value, executed, checks))
    ensures stopped.None? ==> (store.State(), executed, batches + [batch], used + |batch|, 0) in kept && Gave(world, executed)
    ensures stopped.None? ==> AllIn(batch, executed) && Passed(world, checks + 1)
    ensures stopped.None? ==> checks == from + 1 + |batch| + |executed| - |before|
  {
    checks := from;
    KeptFacts(world, store.limits, kept, store.State(), before, batches, used, 0);
    var admissible := AllAdmissible(world, batch);
    assert admissible <==> BatchOk(world, batch);
    if !admissible {
      return Some(ModelError), before, checks, false;
    }
    checks := checks + 1;
    if world.expired(checks) {
      return Some(Cancelled), before, checks, false;
    }
    PassedOne(world, checks);
    AdmittedServing(world, store.limits, kept, store.State(), before, batches, used, batch);
    stopped, executed, checks := ServeBatch(world, store, batch, before, checks, batches + [batch], used + |batch|, kept);
    admitted := true;
  }

  // ------------------------------------------------------------------ the turns of the model

  /** The parsed turn of a reply. */
  ghost predicate IsTurn(reply: Reply, turn: Turn) {
    match turn
    case Bad => !IsBatch(reply) && !IsSomeAnswer(reply)
    case Answers(text) => IsSomeAnswer(reply) && IsAnswer(reply, text)
    case Asks(requests) => !IsSomeAnswer(reply) && IsBatchOf(reply, requests)
  }

  predicate IsBatchOf(reply: Reply, batch: seq<Request>) {
    && IsBatch(reply) && |batch| == |reply.requests.value|
    && forall i | 0 <= i < |batch| :: reply.requests.value[i] == Some(batch[i])
  }

  /** What a model call was shown: the store, the selection of it, and the number of executions and checks before the reply counts. */
  datatype View = View(workspace: Workspace, records: seq<Record>, sources: seq<Source>, count: nat, check: nat)

  ghost predicate Shown(limits: Limits, v: View) {
    exists order, selected :: IsOrder(v.workspace.entries, order) && IsSelection(limits.context, v.workspace.entries, order, v.records, selected)
      && v.sources == SourcesOf(v.records, selected, |v.records|)
  }

  /** The store the model was shown a selection of holds the results of these executions. */
  ghost predicate HeldFor(world: World, limits: Limits, v: View, before: seq<Request>) {
    Gave(world, before) && Faithful(limits, v.workspace, Log(world, before)) && StoredOnce(v.workspace)
  }

  /** What a turn was shown, given the executions before it. */
  type Showing = iset<(View, seq<Request>)>

  /** It was shown a selection of a store that holds exactly what those executions returned. */
  ghost function Faithfully(world: World, limits: Limits): Showing {
    iset s: (View, seq<Request>) | HeldFor(world, limits, s.0, s.1) && Shown(limits, s.0)
  }

  lemma ParsedTurn(reply: Reply, turn: Turn)
    requires turn.Asks? <==> IsBatch(reply)
    requires turn.Asks? ==> |turn.requests| == |reply.requests.value|
    requires turn.Asks? ==> forall i | 0 <= i < |turn.requests| :: reply.requests.value[i] == Some(turn.requests[i])
    requires turn.Answers? <==> IsSomeAnswer(reply)
    requires turn.Answers? ==> IsAnswer(reply, turn.text)
    ensures IsTurn(reply, turn)
  {
  }

  lemma HoldingView(world: World, limits: Limits, ok: Showing, executed: seq<Request>, v: View)
    requires Holding(world, limits, v.workspace, executed) && Shown(limits, v) && Faithfully(world, limits) <= ok
    ensures (v, executed) in ok
  {
    IndexedDistinct(v.workspace);
    assert (v, executed) in Faithfully(world, limits);
  }

  lemma RestedServing(world: World, limits: Limits, w: Workspace, executed: seq<Request>, batches: seq<seq<Request>>, used: nat)
    requires Serving(world, limits, w, executed, batches, used, 0)
    ensures Serving(world, limits, w.(entries := Rested(w.entries)), executed, batches, used, 0)
  {
    RestedBounded(world, limits, w, executed, batches, used);
    RestedSame(w);
    HoldingSame(world, limits, w, w.(entries := Rested(w.entries)), executed);
  }

  lemma RestedBounded(world: World, limits: Limits, w: Workspace, executed: seq<Request>, batches: seq<seq<Request>>, used: nat)
    requires Bounded(world, limits, w, executed, batches, used, 0)
    ensures Bounded(world, limits, w.(entries := Rested(w.entries)), executed, batches, used, 0)
  {
    RestedOk(limits, w);
  }

  lemma SelectionWithin(world: World, limits: Limits, w: Workspace, executed: seq<Request>, batches: seq<seq<Request>>, used: nat,
                        order: seq<nat>, records: seq<Record>, selected: set<nat>)
    requires Serving(world, limits, w, executed, batches, used, 0)
    requires limits.requests == MAX_REQUESTS && 3000 <= limits.result && limits.result + 2400 <= limits.context
    requires IsOrder(w.entries, order) && IsSelection(limits.context, w.entries, order, records, selected)
    ensures Modest(world) ==> Rendered(records) <= limits.context
  {
    if Modest(world) {
      SelectionFits(limits, w, order);
    }
  }

  /** One model turn: the current selection is rendered and the reply parsed; no turn when the deadline passed. */
  method AskModel(world: World, store: EvidenceWorkspace, call: nat, from: nat,
                  ghost executed: seq<Request>, ghost batches: seq<seq<Request>>, ghost used: nat,
                  ghost kept: Keeping, ghost ok: Showing)
    returns (turn: Option<Turn>, sources: seq<Source>, size: nat, checks: nat, ghost view: View)
    requires (store.State(), executed, batches, used, 0) in kept && Means(world, store.limits, kept) && Faithfully(world, store.limits) <= ok
    requires store.limits.requests == MAX_REQUESTS && 3000 <= store.limits.result && store.limits.result + 2400 <= store.limits.context
    modifies store
    ensures (store.State(), executed, batches, used, 0) in kept
    ensures Modest(world) ==> size <= store.limits.context
    ensures checks == from + 1 && (turn.None? <==> world.expired(checks))
    ensures turn.Some? ==> IsTurn(world.model(call), turn.value)
    ensures turn.Some? && turn.value.Asks? ==> 1 <= |turn.value.requests| <= MAX_BATCH
    ensures (view, executed) in ok && view.sources == sources && view.count == |executed| && view.check == checks
  {
    ghost var w := store.State();
    KeptServing(world, store.limits, kept, w, executed, batches, used, 0);
    var records;
    records, sources := store.Select();
    ghost var order, selected :| IsOrder(w.entries, order) && IsSelection(store.limits.context, w.entries, order, records, selected)
      && sources == SourcesOf(records, selected, |records|);
    SelectionWithin(world, store.limits, w, executed, batches, used, order, records, selected);
    RestedServing(world, store.limits, w, executed, batches, used);
    KeptServing(world, store.limits, kept, store.State(), executed, batches, used, 0);
    size := Rendered(records);
    checks := from + 1;
    view := View(w, records, sources, |executed|, checks);
    HoldingView(world, store.limits, ok, executed, view);
    if world.expired(checks) {
      return None, sources, size, checks, view;
    }
    var parsed := ParseTurn(world.model(call));
    ParsedTurn(world.model(call), parsed);
    return Some(parsed), sources, size, checks, view;
  }

  // ------------------------------------------------------------------ how a run goes on

  function Total(batches: seq<seq<Request>>): nat {
    if batches == [] then 0 else Total(batches[..|batches| - 1]) + |batches[|batches| - 1]|
  }

  /** The reply before turn `n` was a batch beyond the requests that were left; it was not served. */
  predicate BeyondBudget(world: World, batches: seq<seq<Request>>, n: nat) {
    && n == |batches| + 1 && IsBatch(world.model(n - 1))
    && Total(batches) + |world.model(n - 1).requests.value| > 8
  }

  /** Turn `n` is final: three batches or eight requests were served, or the last batch was beyond the budget. */
  predicate Final(world: World, batches: seq<seq<Request>>, n: nat) {
    n == 3 || (n <= |batches| && Total(batches[..n]) == 8) || BeyondBudget(world, batches, n)
  }

  /** The served batches are the replies of the first turns, in order. */
  ghost predicate AsReplied(world: World, batches: seq<seq<Request>>) {
    forall b: nat | b < |batches| :: IsBatchOf(world.model(b), batches[b])
  }

  ghost predicate Served(batches: seq<seq<Request>>, n: nat, executed: seq<Request>) {
    forall b: nat | b < |batches| && b < n :: AllIn(batches[b], executed)
  }

  /** Turn `n` was shown what the earlier turns had asked for. */
  ghost predicate TurnOk(world: World, ok: Showing, v: View, executed: seq<Request>, batches: seq<seq<Request>>, n: nat) {
    && v.count <= |executed| && (v, executed[..v.count]) in ok
    && Served(batches, n, executed[..v.count]) && (n <= |batches| || BeyondBudget(world, batches, n))
  }

  ghost predicate TurnsOk(world: World, ok: Showing, views: seq<View>, executed: seq<Request>, batches: seq<seq<Request>>) {
    forall n: nat {:trigger TurnOk(world, ok, views[n], executed, batches, n)} | n < |views| :: TurnOk(world, ok, views[n], executed, batches, n)
  }

  /** Every member of the batch is admissible. */
  predicate Sound(world: World, reply: Reply)
    requires IsBatch(reply)
  {
    forall i | 0 <= i < |reply.requests.value| :: Admissible(world, reply.requests.value[i].value)
  }

  /** The reply of turn `n` is a batch that may be asked for: the turn is not final and the budget has room for it. */
  predicate Askable(world: World, batches: seq<seq<Request>>, n: nat) {
    && IsBatch(world.model(n)) && !Final(world, batches, n)
    && n <= |batches| && Total(batches[..n]) + |world.model(n).requests.value| <= 8
  }

  /** The batch of turn `n` is taken: it may be asked for, all of it is admissible, and the next check finds time left. */
  predicate Taken(world: World, batches: seq<seq<Request>>, v: View, n: nat) {
    && Askable(world, batches, n) && Sound(world, world.model(n))
    && !world.expired(v.check) && !world.expired(v.check + 1)
  }

  /** The run went on after turn `n`: the reply was a batch in time, the turn was not final, and the batch is served if taken. */
  predicate WentOn(world: World, v: View, batches: seq<seq<Request>>, n: nat) {
    && IsBatch(world.model(n)) && !world.expired(v.check) && !Final(world, batches, n)
    && (n < |batches| <==> Taken(world, batches, v, n))
  }

  ghost predicate AllWentOn(world: World, views: seq<View>, batches: seq<seq<Request>>, m: nat)
    requires m <= |views|
  {
    forall n: nat {:trigger WentOn(world, views[n], batches, n)} | n < m :: WentOn(world, views[n], batches, n)
  }

  lemma TotalOne(batches: seq<seq<Request>>, batch: seq<Request>)
    ensures Total(batches + [batch]) == Total(batches) + |batch|
  {
    assert (batches + [batch])[..|batches|] == batches;
  }

  lemma FinalStays(world: World, batches: seq<seq<Request>>, batch: seq<Request>, n: nat)
    requires n <= |batches|
    ensures Final(world, batches + [batch], n) == Final(world, batches, n)
  {
    assert (batches + [batch])[..n] == batches[..n];
  }

  lemma TurnStays(world: World, ok: Showing, v: View, executed: seq<Request>, more: seq<Request>, batches: seq<seq<Request>>, batch: seq<Request>, n: nat)
    requires TurnOk(world, ok, v, executed, batches, n) && executed <= more && n <= |batches|
    ensures TurnOk(world, ok, v, more, batches + [batch], n)
  {
    assert more[..v.count] == executed[..v.count];
    assert forall b: nat | b < n :: (batches + [batch])[b] == batches[b];
  }

  /** The turns so far, `m` of which went on. */
  ghost predicate Turned(world: World, ok: Showing, executed: seq<Request>, batches: seq<seq<Request>>, views: seq<View>, m: nat)
    requires m <= |views|
  {
    && AsReplied(world, batches) && TurnsOk(world, ok, views, executed, batches) && AllWentOn(world, views, batches, m)
    && (batches == [] ==> executed == [])
  }

  /** Where the loop stands before a turn: every earlier turn went on, and every check found time left. */
  ghost predicate Running(world: World, ok: Showing, executed: seq<Request>, batches: seq<seq<Request>>, views: seq<View>, checks: nat) {
    && |views| <= 3 && Turned(world, ok, executed, batches, views, |views|)
    && (|views| == |batches| || (BeyondBudget(world, batches, |views|) && |executed| == views[|views| - 1].count))
    && Gave(world, executed) && Served(batches, |batches|, executed)
    && Passed(world, checks + 1) && checks == 2 * |views| + |batches| + Total(batches) + |executed|
  }

  /** The last turn was asked; its reply decides how the run goes on. */
  ghost predicate AtReply(world: World, ok: Showing, executed: seq<Request>, batches: seq<seq<Request>>, views: seq<View>, checks: nat) {
    && 1 <= |views| <= 4 && Turned(world, ok, executed, batches, views, |views| - 1)
    && (|views| == |batches| + 1 || BeyondBudget(world, batches, |views| - 1))
    && Gave(world, executed) && Served(batches, |batches|, executed)
    && Passed(world, checks) && checks == 2 * |views| + |batches| + Total(batches) + |executed|
    && views[|views| - 1].check == checks && views[|views| - 1].count == |executed|
  }

  /** The reply is unusable, the batch has an inadmissible member, or the last execution gave something that is not a result. */
  ghost predicate ModelAtFault(world: World, executed: seq<Request>, batches: seq<seq<Request>>, n: nat) {
    || (!IsBatch(world.model(n)) && !IsSomeAnswer(world.model(n)))
    || (Askable(world, batches, n) && !Sound(world, world.model(n)))
    || (executed != [] && world.execute(|executed| - 1).Invalid?)
  }

  /** How a run ends after its last turn `n`, from what the model, the session and the clock said. */
  ghost predicate EndsAfter(world: World, ending: Ending, executed: seq<Request>, batches: seq<seq<Request>>, v: View, n: nat, checks: nat) {
    var reply := world.model(n);
    && (ending.Answered? <==> IsSomeAnswer(reply) && !world.expired(v.check))
    && (ending.Answered? ==> IsAnswer(reply, ending.text) && ending.sources == v.sources)
    && (ending.LimitReached? <==> IsBatch(reply) && Final(world, batches, n) && !world.expired(v.check))
    && (ending.LimitReached? ==> ending.sources == v.sources)
    && (ending.ModelError? <==> !world.expired(checks) && ModelAtFault(world, executed, batches, n))
    && (|batches| == n + 1 <==> Taken(world, batches, v, n))
    && (|batches| == n + 1 || |executed| == v.count)
    && (ending.Answered? || ending.LimitReached? ==> checks == 2 * (n + 1) + |batches| + Total(batches) + |executed|)
  }

  /** How a run ends; `checks` is the last deadline check made. */
  ghost predicate Ends(world: World, ending: Ending, executed: seq<Request>, batches: seq<seq<Request>>, views: seq<View>, checks: nat) {
    && Passed(world, checks) && (ending.Cancelled? <==> world.expired(checks))
    && (executed != [] ==> Gave(world, executed[..|executed| - 1]))
    && (ending.SessionError? <==> executed != [] && world.execute(|executed| - 1).Raises?)
    && if views == [] then ending.Cancelled? && executed == [] && batches == []
       else EndsAfter(world, ending, executed, batches, views[|views| - 1], |views| - 1, checks)
  }

  /** The turns of an ended run: each shown what was asked for before, and all but the last went on. */
  ghost predicate Traced(world: World, ok: Showing, executed: seq<Request>, batches: seq<seq<Request>>, views: seq<View>) {
    && AsReplied(world, batches) && TurnsOk(world, ok, views, executed, batches)
    && (views != [] ==> AllWentOn(world, views, batches, |views| - 1))
  }

  lemma RunStarts(world: World, ok: Showing)
    requires !world.expired(0)
    ensures Running(world, ok, [], [], [], 0) && !Final(world, [], 0)
  {
  }

  /** The check before a turn may end the run. */
  lemma EndsBetween(world: World, ok: Showing, executed: seq<Request>, batches: seq<seq<Request>>, views: seq<View>, checks: nat)
    requires Running(world, ok, executed, batches, views, checks) && world.expired(checks + 1)
    ensures Ends(world, Cancelled, executed, batches, views, checks + 1)
  {
    if views != [] {
      var n := |views| - 1;
      assert WentOn(world, views[n], batches, n);
      if executed != [] {
        assert world.execute(|executed| - 1).Gives?;
      }
    }
  }

  lemma TurnPushed(world: World, ok: Showing, executed: seq<Request>, batches: seq<seq<Request>>, views: seq<View>, v: View)
    requires Turned(world, ok, executed, batches, views, |views|)
    requires TurnOk(world, ok, v, executed, batches, |views|)
    ensures Turned(world, ok, executed, batches, views + [v], |views|)
  {
  }

  lemma TurnIsOk(world: World, ok: Showing, executed: seq<Request>, batches: seq<seq<Request>>, v: View, n: nat)
    requires v.count == |executed| && (v, executed) in ok && Served(batches, |batches|, executed)
    requires n <= |batches| || BeyondBudget(world, batches, n)
    ensures TurnOk(world, ok, v, executed, batches, n)
  {
    assert executed[..v.count] == executed;
  }

  lemma TurnAsked(world: World, ok: Showing, executed: seq<Request>, batches: seq<seq<Request>>, views: seq<View>, v: View, checks: nat)
    requires Running(world, ok, executed, batches, views, checks) && !world.expired(checks + 1)
    requires v.count == |executed| && v.check == checks + 2
    requires (v, executed) in ok
    ensures AtReply(world, ok, executed, batches, views + [v], checks + 2)
  {
    PassedOne(world, checks + 1);
    TurnIsOk(world, ok, executed, batches, v, |views|);
    TurnPushed(world, ok, executed, batches, views, v);
  }

  /** The reply itself ends the run. */
  lemma EndsAtReply(world: World, ok: Showing, ending: Ending, executed: seq<Request>, batches: seq<seq<Request>>, views: seq<View>, checks: nat)
    requires AtReply(world, ok, executed, batches, views, checks)
    requires world.expired(checks) ==> ending.Cancelled?
    requires !world.expired(checks) && IsSomeAnswer(world.model(|views| - 1)) ==>
      ending.Answered? && IsAnswer(world.model(|views| - 1), ending.text) && ending.sources == views[|views| - 1].sources
    requires !world.expired(checks) && IsBatch(world.model(|views| - 1)) ==>
      Final(world, batches, |views| - 1) && ending == LimitReached(views[|views| - 1].sources)
    requires !world.expired(checks) && !IsBatch(world.model(|views| - 1)) && !IsSomeAnswer(world.model(|views| - 1)) ==> ending.ModelError?
    ensures Ends(world, ending, executed, batches, views, checks)
  {
    if executed != [] {
      assert world.execute(|executed| - 1).Gives?;
    }
  }

  /** A batch with an inadmissible member is not taken, and one is not taken either when the deadline passed. */
  lemma EndsUntaken(world: World, ok: Showing, ending: Ending, executed: seq<Request>, batches: seq<seq<Request>>, views: seq<View>,
                    checks: nat, last: nat)
    requires AtReply(world, ok, executed, batches, views, checks) && !world.expired(checks)
    requires Askable(world, batches, |views| - 1) && !IsSomeAnswer(world.model(|views| - 1))
    requires if Sound(world, world.model(|views| - 1)) then last == checks + 1 && world.expired(last) && ending.Cancelled?
             else last == checks && ending.ModelError?
    ensures Ends(world, ending, executed, batches, views, last)
  {
    PassedOne(world, checks);
    if executed != [] {
      assert world.execute(|executed| - 1).Gives?;
    }
  }

  lemma SoundBatch(world: World, reply: Reply, batch: seq<Request>)
    requires IsBatchOf(reply, batch)
    ensures Sound(world, reply) <==> BatchOk(world, batch)
  {
  }

  /** After a batch beyond the budget the next turn is the final one. */
  lemma GoesOnBeyond(world: World, ok: Showing, executed: seq<Request>, batches: seq<seq<Request>>, views: seq<View>, checks: nat)
    requires AtReply(world, ok, executed, batches, views, checks) && !world.expired(checks)
    requires IsBatch(world.model(|views| - 1)) && !Final(world, batches, |views| - 1) && BeyondBudget(world, batches, |views|)
    ensures Running(world, ok, executed, batches, views, checks) && Final(world, batches, |views|)
  {
    PassedOne(world, checks);
    assert batches[..|batches|] == batches;
    assert WentOn(world, views[|views| - 1], batches, |views| - 1);
  }

  lemma WentOnStays(world: World, v: View, batches: seq<seq<Request>>, batch: seq<Request>, n: nat)
    requires WentOn(world, v, batches, n) && n < |batches|
    ensures WentOn(world, v, batches + [batch], n)
  {
    FinalStays(world, batches, batch, n);
    assert (batches + [batch])[..n] == batches[..n];
  }

  lemma WentOnTaking(world: World, v: View, batches: seq<seq<Request>>, batch: seq<Request>)
    requires !Final(world, batches, |batches|) && Askable(world, batches, |batches|) && Sound(world, world.model(|batches|))
    requires !world.expired(v.check) && !world.expired(v.check + 1)
    ensures WentOn(world, v, batches + [batch], |batches|)
  {
    FinalStays(world, batches, batch, |batches|);
    assert (batches + [batch])[..|batches|] == batches[..|batches|];
  }

  /** The turns when the last one's batch was taken. */
  lemma TurnedTaking(world: World, ok: Showing, executed: seq<Request>, more: seq<Request>, batches: seq<seq<Request>>, batch: seq<Request>, views: seq<View>)
    requires |views| == |batches| + 1 && Turned(world, ok, executed, batches, views, |batches|) && executed <= more
    requires IsBatchOf(world.model(|batches|), batch) && WentOn(world, views[|batches|], batches + [batch], |batches|)
    ensures Turned(world, ok, more, batches + [batch], views, |views|)
  {
    forall n: nat | n < |views| ensures TurnOk(world, ok, views[n], more, batches + [batch], n) {
      assert TurnOk(world, ok, views[n], executed, batches, n);
      TurnStays(world, ok, views[n], executed, more, batches, batch, n);
    }
    forall n: nat | n < |views| ensures WentOn(world, views[n], batches + [batch], n) {
      if n < |batches| {
        assert WentOn(world, views[n], batches, n);
        WentOnStays(world, views[n], batches, batch, n);
      }
    }
  }

  lemma ServedOne(batches: seq<seq<Request>>, batch: seq<Request>, executed: seq<Request>, more: seq<Request>)
    requires Served(batches, |batches|, executed) && executed <= more && AllIn(batch, more)
    ensures Served(batches + [batch], |batches| + 1, more)
  {
  }

  /** A batch was served to its end. */
  lemma GoesOnServed(world: World, ok: Showing, executed: seq<Request>, more: seq<Request>, batches: seq<seq<Request>>, batch: seq<Request>,
                     views: seq<View>, checks: nat, last: nat)
    requires AtReply(world, ok, executed, batches, views, checks) && |views| == |batches| + 1 && |views| <= 3
    requires IsBatchOf(world.model(|batches|), batch) && WentOn(world, views[|batches|], batches + [batch], |batches|)
    requires executed <= more && Gave(world, more) && AllIn(batch, more)
    requires Passed(world, last + 1) && last == checks + 1 + |batch| + |more| - |executed|
    ensures Running(world, ok, more, batches + [batch], views, last)
    ensures Final(world, batches + [batch], |views|) <==> |views| == 3 || Total(batches + [batch]) == 8
  {
    TotalOne(batches, batch);
    TurnedTaking(world, ok, executed, more, batches, batch, views);
    ServedOne(batches, batch, executed, more);
    assert (batches + [batch])[..|views|] == batches + [batch];
  }

  /** The batch was taken, and serving it was interrupted. */
  lemma EndsServing(world: World, ending: Ending, executed: seq<Request>, batches: seq<seq<Request>>, views: seq<View>, last: nat)
    requires views != [] && |batches| == |views| && WentOn(world, views[|views| - 1], batches, |views| - 1)
    requires Interrupts(world, ending, executed, last) && !IsSomeAnswer(world.model(|views| - 1))
    ensures Ends(world, ending, executed, batches, views, last)
  {
  }

  lemma TracedFrom(world: World, ok: Showing, executed: seq<Request>, batches: seq<seq<Request>>, views: seq<View>, m: nat)
    requires m <= |views| <= m + 1 && Turned(world, ok, executed, batches, views, m)
    ensures Traced(world, ok, executed, batches, views)
  {
  }

  /** Where the loop stands between turns. */
  ghost predicate Between(world: World, ok: Showing, executed: seq<Request>, batches: seq<seq<Request>>, views: seq<View>,
                          used: nat, finalOnly: bool, checks: nat) {
    && Running(world, ok, executed, batches, views, checks)
    && used == Total(batches) <= MAX_REQUESTS && |batches| <= MAX_ROUNDS && (finalOnly <==> Final(world, batches, |views|))
  }

  /** What is true of an ended run. */
  ghost predicate Ended(world: World, ok: Showing, ending: Ending, executed: seq<Request>, batches: seq<seq<Request>>, views: seq<View>, checks: nat) {
    && |views| <= 4 && |batches| <= MAX_ROUNDS && |executed| <= MAX_REQUESTS && Logged(world, executed, batches)
    && Traced(world, ok, executed, batches, views) && Ends(world, ending, executed, batches, views, checks)
  }

  /** The last turn was not final and its reply was this batch. */
  ghost predicate Asking(world: World, ok: Showing, executed: seq<Request>, batches: seq<seq<Request>>, views: seq<View>, used: nat, checks: nat, batch: seq<Request>) {
    && AtReply(world, ok, executed, batches, views, checks) && !world.expired(checks)
    && |views| == |batches| + 1 <= 3 && used == Total(batches) <= MAX_REQUESTS
    && !Final(world, batches, |batches|) && IsBatchOf(world.model(|batches|), batch) && !IsSomeAnswer(world.model(|batches|))
  }

  lemma BeyondBetween(world: World, ok: Showing, executed: seq<Request>, batches: seq<seq<Request>>, views: seq<View>, used: nat, checks: nat, batch: seq<Request>)
    requires Asking(world, ok, executed, batches, views, used, checks, batch) && used + |batch| > MAX_REQUESTS
    ensures Between(world, ok, executed, batches, views, used, true, checks)
  {
    GoesOnBeyond(world, ok, executed, batches, views, checks);
  }

  lemma UntakenEnded(world: World, ok: Showing, executed: seq<Request>, batches: seq<seq<Request>>, views: seq<View>, used: nat, checks: nat, batch: seq<Request>,
                     ending: Ending, last: nat)
    requires Asking(world, ok, executed, batches, views, used, checks, batch) && used + |batch| <= MAX_REQUESTS
    requires Logged(world, executed, batches) && |executed| <= used
    requires if BatchOk(world, batch) then last == checks + 1 && world.expired(last) && ending.Cancelled? else last == checks && ending.ModelError?
    ensures Ended(world, ok, ending, executed, batches, views, last)
  {
    SoundBatch(world, world.model(|batches|), batch);
    AskableBatch(world, batches, batch);
    TracedFrom(world, ok, executed, batches, views, |batches|);
    EndsUntaken(world, ok, ending, executed, batches, views, checks, last);
  }

  lemma AskableBatch(world: World, batches: seq<seq<Request>>, batch: seq<Request>)
    requires IsBatchOf(world.model(|batches|), batch) && !Final(world, batches, |batches|) && Total(batches) + |batch| <= MAX_REQUESTS
    ensures Askable(world, batches, |batches|)
  {
    assert batches[..|batches|] == batches;
  }

  lemma TakenWentOn(world: World, v: View, batches: seq<seq<Request>>, batch: seq<Request>)
    requires IsBatchOf(world.model(|batches|), batch) && !Final(world, batches, |batches|) && Total(batches) + |batch| <= MAX_REQUESTS
    requires BatchOk(world, batch) && !world.expired(v.check) && !world.expired(v.check + 1)
    ensures WentOn(world, v, batches + [batch], |batches|)
  {
    SoundBatch(world, world.model(|batches|), batch);
    AskableBatch(world, batches, batch);
    WentOnTaking(world, v, batches, batch);
  }

  lemma InterruptedEnded(world: World, ok: Showing, executed: seq<Request>, more: seq<Request>, batches: seq<seq<Request>>, views: seq<View>, used: nat, checks: nat,
                         batch: seq<Request>, ending: Ending, last: nat)
    requires Asking(world, ok, executed, batches, views, used, checks, batch)
    requires WentOn(world, views[|batches|], batches + [batch], |batches|)
    requires executed <= more && |more| <= MAX_REQUESTS && Logged(world, more, batches + [batch]) && Interrupts(world, ending, more, last)
    ensures Ended(world, ok, ending, more, batches + [batch], views, last)
  {
    TurnedTaking(world, ok, executed, more, batches, batch, views);
    TracedFrom(world, ok, more, batches + [batch], views, |views|);
    EndsServing(world, ending, more, batches + [batch], views, last);
  }

  lemma ServedBetween(world: World, ok: Showing, executed: seq<Request>, more: seq<Request>, batches: seq<seq<Request>>, views: seq<View>, used: nat, checks: nat,
                      batch: seq<Request>, last: nat)
    requires Asking(world, ok, executed, batches, views, used, checks, batch) && used + |batch| <= MAX_REQUESTS
    requires WentOn(world, views[|batches|], batches + [batch], |batches|)
    requires executed <= more && Gave(world, more) && AllIn(batch, more)
    requires Passed(world, last + 1) && last == checks + 1 + |batch| + |more| - |executed|
    ensures Between(world, ok, more, batches + [batch], views, used + |batch|, |batches| + 1 >= MAX_ROUNDS || used + |batch| >= MAX_REQUESTS, last)
  {
    TotalOne(batches, batch);
    GoesOnServed(world, ok, executed, more, batches, batch, views, checks, last);
  }

  /** A batch at a turn that is not final: beyond the budget, or validated and served. */
  method FollowUp(world: World, store: EvidenceWorkspace, batch: seq<Request>, rounds: nat, before: seq<Request>, from: nat, usedBefore: nat,
                  ghost kept: Keeping, ghost ok: Showing, ghost asked: seq<seq<Request>>, ghost views: seq<View>)
    returns (stopped: Interruption, executed: seq<Request>, checks: nat, used: nat, finalOnly: bool, taken: bool, ghost batches: seq<seq<Request>>)
    requires (store.State(), before, asked, usedBefore, 0) in kept && Means(world, store.limits, kept) && store.limits.requests == MAX_REQUESTS
    requires Asking(world, ok, before, asked, views, usedBefore, from, batch) && rounds == |asked|
    modifies store
    ensures |batches| == |asked| + (if taken then 1 else 0) && (stopped.None? ==> finalOnly || taken)
    ensures stopped.Some? ==> Ended(world, ok, stopped.value, executed, batches, views, checks)
    ensures stopped.None? ==> (store.State(), executed, batches, used, 0) in kept
    ensures stopped.None? ==> Between(world, ok, executed, batches, views, used, finalOnly, checks)
  {
    executed, checks, used, finalOnly, batches := before, from, usedBefore, true, asked;
    KeptFacts(world, store.limits, kept, store.State(), before, asked, usedBefore, 0);
    if usedBefore + |batch| > MAX_REQUESTS {
      BeyondBetween(world, ok, before, asked, views, usedBefore, from, batch);
      return None, executed, checks, used, finalOnly, false, batches;
    }
    PassedOne(world, from);
    stopped, executed, checks, taken := TakeBatch(world, store, batch, executed, checks, asked, usedBefore, kept);
    if !taken {
      UntakenEnded(world, ok, executed, asked, views, usedBefore, from, batch, stopped.value, checks);
      return;
    }
    used, batches := usedBefore + |batch|, asked + [batch];
    finalOnly := rounds + 1 >= MAX_ROUNDS || used >= MAX_REQUESTS;
    TakenWentOn(world, views[|asked|], asked, batch);
    if stopped.Some? {
      InterruptedEnded(world, ok, before, executed, asked, views, usedBefore, from, batch, stopped.value, checks);
    } else {
      ServedBetween(world, ok, before, executed, asked, views, usedBefore, from, batch, checks);
    }
  }

  lemma BetweenEnded(world: World, ok: Showing, executed: seq<Request>, batches: seq<seq<Request>>, views: seq<View>, used: nat, finalOnly: bool, checks: nat)
    requires Between(world, ok, executed, batches, views, used, finalOnly, checks) && world.expired(checks + 1)
    requires Logged(world, executed, batches) && |executed| <= used
    ensures Ended(world, ok, Cancelled, executed, batches, views, checks + 1)
  {
    EndsBetween(world, ok, executed, batches, views, checks);
    TracedFrom(world, ok, executed, batches, views, |views|);
  }

  /** The last turn was asked, and it was final or not. */
  ghost predicate Replied(world: World, ok: Showing, executed: seq<Request>, batches: seq<seq<Request>>, views: seq<View>, used: nat, finalOnly: bool, checks: nat) {
    && AtReply(world, ok, executed, batches, views, checks) && used == Total(batches) <= MAX_REQUESTS && |batches| <= MAX_ROUNDS
    && (finalOnly <==> Final(world, batches, |views| - 1))
  }

  lemma BetweenAsked(world: World, ok: Showing, executed: seq<Request>, batches: seq<seq<Request>>, views: seq<View>, used: nat, finalOnly: bool, checks: nat, v: View)
    requires Between(world, ok, executed, batches, views, used, finalOnly, checks) && !world.expired(checks + 1)
    requires v.count == |executed| && v.check == checks + 2 && (v, executed) in ok
    ensures Replied(world, ok, executed, batches, views + [v], used, finalOnly, checks + 2)
  {
    TurnAsked(world, ok, executed, batches, views, v, checks);
  }

  lemma ReplyEnded(world: World, ok: Showing, ending: Ending, executed: seq<Request>, batches: seq<seq<Request>>, views: seq<View>, used: nat, finalOnly: bool,
                   checks: nat, turn: Option<Turn>, sources: seq<Source>)
    requires Replied(world, ok, executed, batches, views, used, finalOnly, checks) && sources == views[|views| - 1].sources
    requires Logged(world, executed, batches) && |executed| <= used
    requires turn.None? <==> world.expired(checks)
    requires turn.Some? ==> IsTurn(world.model(|views| - 1), turn.value)
    requires turn.None? || turn.value.Bad? || turn.value.Answers? || finalOnly
    requires ending == if turn.None? then Cancelled else if turn.value.Bad? then ModelError
                       else if turn.value.Answers? then Answered(turn.value.text, sources) else LimitReached(sources)
    ensures Ended(world, ok, ending, executed, batches, views, checks)
  {
    TracedFrom(world, ok, executed, batches, views, |views| - 1);
    EndsAtReply(world, ok, ending, executed, batches, views, checks);
  }

  lemma ReplyAsks(world: World, ok: Showing, executed: seq<Request>, batches: seq<seq<Request>>, views: seq<View>, used: nat, checks: nat, batch: seq<Request>)
    requires Replied(world, ok, executed, batches, views, used, false, checks) && !world.expired(checks)
    requires IsTurn(world.model(|views| - 1), Asks(batch))
    ensures Asking(world, ok, executed, batches, views, used, checks, batch)
  {
  }

  lemma ServableMeans(world: World, limits: Limits)
    ensures Means(world, limits, Servable(world, limits))
  {
  }

  lemma ServableEmpty(world: World, limits: Limits)
    requires Valid(limits, Workspace([], map[], map[], 0, []))
    ensures (Workspace([], map[], map[], 0, []), [], [], 0, 0) in Servable(world, limits)
  {
    assert Serving(world, limits, Workspace([], map[], map[], 0, []), [], [], 0, 0);
  }

  /** One turn: a model call, and what its reply asks for. */
  method TakeTurn(world: World, store: EvidenceWorkspace, call: nat, rounds: nat, before: seq<Request>, from: nat, usedBefore: nat, finalBefore: bool,
                  ghost kept: Keeping, ghost ok: Showing, ghost asked: seq<seq<Request>>, ghost seen: seq<View>)
    returns (stopped: Interruption, executed: seq<Request>, checks: nat, used: nat, finalOnly: bool, taken: bool, size: nat,
             ghost batches: seq<seq<Request>>, ghost views: seq<View>)
    requires (store.State(), before, asked, usedBefore, 0) in kept && Means(world, store.limits, kept) && Faithfully(world, store.limits) <= ok
    requires store.limits.requests == MAX_REQUESTS && 3000 <= store.limits.result && store.limits.result + 2400 <= store.limits.context
    requires from > 0 && Between(world, ok, before, asked, seen, usedBefore, finalBefore, from - 1) && !world.expired(from)
    requires Logged(world, before, asked) && |before| <= usedBefore && call == |seen| && rounds == |asked|
    modifies store
    ensures |views| == |seen| + 1 && |batches| == |asked| + if taken then 1 else 0
    ensures Modest(world) ==> size <= store.limits.context
    ensures stopped.Some? ==> Ended(world, ok, stopped.value, executed, batches, views, checks)
    ensures stopped.None? ==> (store.State(), executed, batches, used, 0) in kept
    ensures stopped.None? ==> Between(world, ok, executed, batches, views, used, finalOnly, checks) && !finalBefore && (finalOnly || taken)
  {
    var turn, sources;
    ghost var view;
    turn, sources, size, checks, view := AskModel(world, store, call, from, before, asked, usedBefore, kept, ok);
    BetweenAsked(world, ok, before, asked, seen, usedBefore, finalBefore, from - 1, view);
    executed, used, finalOnly, taken, batches, views := before, usedBefore, finalBefore, false, asked, seen + [view];
    if turn.None? || turn.value.Bad? || turn.value.Answers? || finalBefore {
      var ending := if turn.None? then Cancelled else if turn.value.Bad? then ModelError
                    else if turn.value.Answers? then Answered(turn.value.text, sources) else LimitReached(sources);
      ReplyEnded(world, ok, ending, executed, batches, views, used, finalBefore, checks, turn, sources);
      stopped := Some(ending);
      return;
    }
    var batch := turn.value.requests;
    ReplyAsks(world, ok, executed, batches, views, used, checks, batch);
    stopped, executed, checks, used, finalOnly, taken, batches :=
      FollowUp(world, store, batch, rounds, executed, checks, used, kept, ok, asked, views);
  }

  /** The turns of `run`; `ok` is what every model call is shown, and `kept` what is kept of the store. */
  method TakeTurns(world: World, store: EvidenceWorkspace, ghost kept: Keeping, ghost ok: Showing)
    returns (ending: Ending, executed: seq<Request>, modelCalls: nat, rounds: nat, largest: nat, checks: nat,
             ghost batches: seq<seq<Request>>, ghost views: seq<View>)
    requires (store.State(), [], [], 0, 0) in kept && Means(world, store.limits, kept) && Faithfully(world, store.limits) <= ok
    requires store.limits.requests == MAX_REQUESTS && 3000 <= store.limits.result && store.limits.result + 2400 <= store.limits.context
    requires !world.expired(0)
    modifies store
    ensures modelCalls == |views| && rounds == |batches| && (Modest(world) ==> largest <= store.limits.context)
    ensures Ended(world, ok, ending, executed, batches, views, checks)
  {
    executed, modelCalls, rounds, largest, checks, batches, views := [], 0, 0, 0, 0, [], [];
    var used: nat, finalOnly := 0, false;
    RunStarts(world, ok);
    while true
      invariant (store.State(), executed, batches, used, 0) in kept
      invariant Between(world, ok, executed, batches, views, used, finalOnly, checks)
      invariant modelCalls == |views| && rounds == |batches| && (Modest(world) ==> largest <= store.limits.context)
      decreases !finalOnly, 3 - rounds
    {
      KeptFacts(world, store.limits, kept, store.State(), executed, batches, used, 0);
      checks := checks + 1;
      if world.expired(checks) {
        BetweenEnded(world, ok, executed, batches, views, used, finalOnly, checks - 1);
        return Cancelled, executed, modelCalls, rounds, largest, checks, batches, views;
      }
      var stopped: Interruption;
      var taken, size;
      stopped, executed, checks, used, finalOnly, taken, size, batches, views :=
        TakeTurn(world, store, modelCalls, rounds, executed, checks, used, finalOnly, kept, ok, batches, views);
      modelCalls, largest, rounds := modelCalls + 1, Max(largest, size), if taken then rounds + 1 else rounds;
      if stopped.Some? {
        return stopped.value, executed, modelCalls, rounds, largest, checks, batches, views;
      }
    }
  }

  /**
    `run`: at most four model calls, three rounds and eight executions; no request executed twice,
    none from a batch with an inadmissible member. Every model call was shown a selection of
    exactly what the executions so far returned, and the ending is the one the model, the session
    and the clock called for. `largest` is the size of the longest evidence a model call was given.
   */
  method Run(world: World, maxResult: nat, maxContext: nat)
    returns (ending: Ending, executed: seq<Request>, modelCalls: nat, rounds: nat, largest: nat, checks: nat,
             ghost batches: seq<seq<Request>>, ghost views: seq<View>)
    requires 3000 <= maxResult && maxResult + 2400 <= maxContext
    ensures modelCalls == |views| <= 4 && rounds == |batches| <= 3 && |executed| <= 8
    ensures Logged(world, executed, batches)
    ensures Modest(world) ==> largest <= maxContext
    ensures Traced(world, Faithfully(world, Limits(maxResult, maxContext, 8)), executed, batches, views)
    ensures Ends(world, ending, executed, batches, views, checks)
  {
    if world.expired(0) {
      return Cancelled, [], 0, 0, 0, 0, [], [];
    }
    var store := new EvidenceWorkspace(Limits(maxResult, maxContext, MAX_REQUESTS));
    ghost var kept := Servable(world, store.limits);
    ServableMeans(world, store.limits);
    ServableEmpty(world, store.limits);
    ending, executed, modelCalls, rounds, largest, checks, batches, views := TakeTurns(world, store, kept, Faithfully(world, store.limits));
  }
}
