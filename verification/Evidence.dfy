/**
  The records of `evidence_workspace.py` and their sizes as JSON text. Sizes add up over the
  parts of a value; characters that JSON would escape count once. A value whose parts do not
  matter here is its canonical JSON text, so equal values are equal texts.
 */
module Evidence {
  import opened Prelude

  datatype Request = Request(tool: string, arguments: string)

  datatype Source = Source(id: Option<string>, text: string)

  /** A member of a discovery result; `key` is the canonical text of its identifying fields. */
  datatype Item = Item(isObject: bool, source: Option<string>, key: string, text: string)
  {
    predicate Identified() { isObject && source.Some? && source.value != "" }
  }

  datatype Value = Text(text: string) | Number(digits: string) | Other(json: string)

  datatype Data =
    | Plain(json: string)
    | Object(sourceId: Option<Value>, sectionId: Option<Value>, start: Option<Value>, end: Option<Value>,
             nextCursor: Option<Value>, items: Option<seq<Item>>, noted: bool, rest: string)

  /** `readKey` is the identity of a deliberate read: present when the data has a source and a text. */
  datatype ToolResult = ToolResult(status: string, data: Data, sources: Option<seq<Source>>, diagnostics: Option<seq<string>>, readKey: Option<string>)

  datatype Locator = NoLocator | Fields(fields: seq<(string, Value)>) | Handles(ids: seq<string>)

  datatype ShownRequest = Whole(request: Request) | ToolOnly(tool: string)

  datatype Record =
    | Full(number: nat, request: Request, result: ToolResult)
    | Omission(number: nat, tool: string, locator: Locator)
    | Manifest(number: nat, shown: ShownRequest, locator: Locator)
  {
    function Tool(): string {
      match this
      case Full(_, request, _) => request.tool
      case Omission(_, tool, _) => tool
      case Manifest(_, Whole(request), _) => request.tool
      case Manifest(_, ToolOnly(tool), _) => tool
    }
  }

  // ------------------------------------------------------------------ sizes

  function Digits(n: nat): nat {
    if n < 10 then 1 else 1 + Digits(n / 10)
  }

  function Sum(parts: seq<nat>): nat {
    if parts == [] then 0 else Sum(parts[..|parts| - 1]) + parts[|parts| - 1]
  }

  /** The size of an array or object with these members: two brackets, and commas between members. */
  function Joined(parts: seq<nat>): nat {
    if parts == [] then 2 else 1 + Sum(parts) + |parts|
  }

  function ValueSize(v: Value): nat {
    match v
    case Text(text) => |text| + 2
    case Number(digits) => |digits|
    case Other(json) => |json|
  }

  function RequestSize(r: Request): nat {
    24 + |r.tool| + |r.arguments|
  }

  function ToolOnlySize(tool: string): nat {
    11 + |tool|
  }

  function Member(name: string, size: nat): nat {
    |name| + 3 + size
  }

  function FieldSizes(fields: seq<(string, Value)>): seq<nat> {
    seq(|fields|, i requires 0 <= i < |fields| => Member(fields[i].0, ValueSize(fields[i].1)))
  }

  function HandleSizes(ids: seq<string>): seq<nat> {
    seq(|ids|, i requires 0 <= i < |ids| => |ids[i]| + 2)
  }

  function LocatorSize(l: Locator): nat {
    match l
    case NoLocator => 4
    case Fields(fields) => Joined(FieldSizes(fields))
    case Handles(ids) => Joined([Member("source_ids", Joined(HandleSizes(ids)))])
  }

  function ItemSizes(items: seq<Item>): seq<nat> {
    seq(|items|, i requires 0 <= i < |items| => |items[i].text|)
  }

  function SourceSizes(sources: seq<Source>): seq<nat> {
    seq(|sources|, i requires 0 <= i < |sources| => |sources[i].text|)
  }

  function TextSizes(texts: seq<string>): seq<nat> {
    seq(|texts|, i requires 0 <= i < |texts| => |texts[i]|)
  }

  function Optional(name: string, value: Option<Value>): seq<(string, Value)> {
    if value.Some? then [(name, value.value)] else []
  }

  /** The five fields a locator may be made of, in the order they are looked up. */
  function LocatorFields(data: Data): seq<(string, Value)>
    requires data.Object?
  {
    Optional("source_id", data.sourceId) + Optional("section_id", data.sectionId) + Optional("start", data.start)
    + Optional("end", data.end) + Optional("next_cursor", data.nextCursor)
  }

  const NOTE_SIZE := 106

  function DataSize(data: Data): nat {
    match data
    case Plain(json) => |json|
    case Object(_, _, _, _, _, items, noted, rest) =>
      Joined(FieldSizes(LocatorFields(data))
             + (if items.Some? then [Member("items", Joined(ItemSizes(items.value)))] else [])
             + (if noted then [NOTE_SIZE] else [])
             + (if rest != "" then [|rest|] else []))
  }

  function ResultSize(r: ToolResult): nat {
    Joined([Member("data", DataSize(r.data)), Member("status", |r.status| + 2)]
           + (if r.sources.Some? then [Member("sources", Joined(SourceSizes(r.sources.value)))] else [])
           + (if r.diagnostics.Some? then [Member("diagnostics", Joined(TextSizes(r.diagnostics.value)))] else []))
  }

  /** The constant parts of a full record, of a manifest and of an omission, without the record's number. */
  const FULL_FRAME := 48
  const MANIFEST_FRAME := 193
  const OMISSION_FRAME := 179

  function RecordSize(r: Record): nat {
    match r
    case Full(n, request, result) => FULL_FRAME + Digits(n) + RequestSize(request) + ResultSize(result)
    case Omission(n, tool, locator) => OMISSION_FRAME + Digits(n) + ToolOnlySize(tool) + LocatorSize(locator)
    case Manifest(n, shown, locator) =>
      MANIFEST_FRAME + Digits(n) + (match shown case Whole(request) => RequestSize(request) case ToolOnly(tool) => ToolOnlySize(tool))
      + LocatorSize(locator)
  }

  function RecordSizes(records: seq<Record>): seq<nat> {
    seq(|records|, i requires 0 <= i < |records| => RecordSize(records[i]))
  }

  function Rendered(records: seq<Record>): nat {
    Joined(RecordSizes(records))
  }

  lemma {:induction false} SumUpdate(parts: seq<nat>, i: nat, part: nat)
    requires i < |parts|
    ensures Sum(parts[i := part]) == Sum(parts) - parts[i] + part
  {
    var n := |parts| - 1;
    if i < n {
      SumUpdate(parts[..n], i, part);
      assert parts[i := part][..n] == parts[..n][i := part];
    } else {
      assert parts[i := part][..n] == parts[..n];
    }
  }

  lemma RenderedUpdate(records: seq<Record>, i: nat, record: Record)
    requires i < |records|
    ensures Rendered(records[i := record]) == Rendered(records) - RecordSize(records[i]) + RecordSize(record)
  {
    assert RecordSizes(records[i := record]) == RecordSizes(records)[i := RecordSize(record)];
    SumUpdate(RecordSizes(records), i, RecordSize(record));
  }

  // ------------------------------------------------------------------ locators

  const MAX_LOCATOR := 200
  const MAX_LOCATOR_VALUE := 160
  const MAX_HANDLES := 6

  /** A text or number short enough to serve in a locator. */
  predicate Locates(v: Value) {
    (v.Text? && |v.text| <= MAX_LOCATOR_VALUE) || (v.Number? && |v.digits| <= MAX_LOCATOR_VALUE)
  }

  function Kept(name: string, value: Option<Value>): seq<(string, Value)> {
    if value.Some? && Locates(value.value) then [(name, value.value)] else []
  }

  function KeptFields(data: Data): seq<(string, Value)>
    requires data.Object?
  {
    Kept("source_id", data.sourceId) + Kept("section_id", data.sectionId) + Kept("start", data.start)
    + Kept("end", data.end) + Kept("next_cursor", data.nextCursor)
  }

  /** The handle loop from item `i` on. */
  function Gather(items: seq<Item>, i: nat, handles: seq<string>): seq<string>
    requires i <= |items|
    decreases |items| - i
  {
    if i == |items| then handles
    else
      var item := items[i];
      if item.isObject && item.source.Some? && |item.source.value| <= MAX_LOCATOR_VALUE then
        var more := handles + [item.source.value];
        var next := if LocatorSize(Handles(more)) <= MAX_LOCATOR then more else handles;
        if |next| == MAX_HANDLES then next else Gather(items, i + 1, next)
      else Gather(items, i + 1, handles)
  }

  function LocatorOf(data: Data): Locator {
    if data.Plain? then NoLocator
    else
      var fields := KeptFields(data);
      if fields == [] then
        if data.items.None? then NoLocator
        else
          var handles := Gather(data.items.value, 0, []);
          if handles == [] then NoLocator else Handles(handles)
      else if LocatorSize(Fields(fields)) <= MAX_LOCATOR then Fields(fields)
      else
        var source := Kept("source_id", data.sourceId);
        if source == [] then NoLocator else Fields(source)
  }

  lemma {:induction false} GatherFits(items: seq<Item>, i: nat, handles: seq<string>)
    requires i <= |items| && |handles| < MAX_HANDLES
    requires handles != [] ==> LocatorSize(Handles(handles)) <= MAX_LOCATOR
    ensures var h := Gather(items, i, handles); |h| <= MAX_HANDLES && (h != [] ==> LocatorSize(Handles(h)) <= MAX_LOCATOR)
    decreases |items| - i
  {
    if i < |items| {
      var item := items[i];
      if item.isObject && item.source.Some? && |item.source.value| <= MAX_LOCATOR_VALUE {
        var more := handles + [item.source.value];
        var next := if LocatorSize(Handles(more)) <= MAX_LOCATOR then more else handles;
        if |next| != MAX_HANDLES {
          GatherFits(items, i + 1, next);
        }
      } else {
        GatherFits(items, i + 1, handles);
      }
    }
  }

  lemma OneFieldSize(field: (string, Value))
    ensures LocatorSize(Fields([field])) == 2 + Member(field.0, ValueSize(field.1))
  {
    var parts := FieldSizes([field]);
    assert parts[..|parts| - 1] == [];
    assert Sum(parts) == parts[0];
  }

  /** Every locator is at most 200 characters, so a manifest never has to shorten it again. */
  lemma LocatorFits(data: Data)
    ensures LocatorSize(LocatorOf(data)) <= MAX_LOCATOR
  {
    if data.Object? {
      var fields := KeptFields(data);
      if fields == [] {
        if data.items.Some? {
          GatherFits(data.items.value, 0, []);
        }
      } else {
        var source := Kept("source_id", data.sourceId);
        if source != [] {
          OneFieldSize(source[0]);
          assert source == [source[0]];
        }
      }
    }
  }

  // ------------------------------------------------------------------ manifests and discovery

  const MAX_MANIFEST_REQUEST := 180

  function ManifestOf(r: Record): Record {
    match r
    case Full(n, request, result) =>
      if result.status == "omitted" then r
      else Manifest(n, if RequestSize(request) > MAX_MANIFEST_REQUEST then ToolOnly(request.tool) else Whole(request), LocatorOf(result.data))
    case Omission(_, _, _) => r
    case Manifest(_, _, _) => r
  }

  predicate Searches(r: Record) {
    r.Full? && r.request.tool == "knowledge.search" && r.result.data.Object? && r.result.data.items.Some?
  }

  /** The identified items a search record shows. */
  function Keys(r: Record): set<string> {
    if Searches(r) then ItemKeys(r.result.data.items.value) else {}
  }

  function ItemKeys(items: seq<Item>): set<string> {
    set i | 0 <= i < |items| && items[i].Identified() :: items[i].key
  }

  predicate Fresh(item: Item, seen: set<string>) {
    !item.Identified() || item.key !in seen
  }

  function FreshItems(items: seq<Item>, seen: set<string>): seq<Item> {
    if items == [] then []
    else FreshItems(items[..|items| - 1], seen) + (if Fresh(items[|items| - 1], seen) then [items[|items| - 1]] else [])
  }

  function SourceIds(items: seq<Item>): set<Option<string>> {
    set i | 0 <= i < |items| && items[i].isObject :: items[i].source
  }

  function SourcesAmong(sources: seq<Source>, ids: set<Option<string>>): seq<Source> {
    if sources == [] then []
    else SourcesAmong(sources[..|sources| - 1], ids) + (if sources[|sources| - 1].id in ids then [sources[|sources| - 1]] else [])
  }

  /** A search record without the items other selected searches already show. */
  function Deduplicated(r: Record, seen: set<string>): Record {
    if seen == {} || !Searches(r) then r
    else
      var items := FreshItems(r.result.data.items.value, seen);
      if |items| == |r.result.data.items.value| then r
      else
        var sources := if r.result.sources.Some? then SourcesAmong(r.result.sources.value, SourceIds(items)) else [];
        r.(result := r.result.(data := r.result.data.(items := Some(items), noted := true), sources := Some(sources)))
  }

  lemma {:induction false} FreshItemsKeys(items: seq<Item>, seen: set<string>)
    ensures |FreshItems(items, seen)| <= |items|
    ensures |FreshItems(items, seen)| == |items| ==> FreshItems(items, seen) == items
    ensures ItemKeys(FreshItems(items, seen)) == ItemKeys(items) - seen
  {
    if items != [] {
      var less := items[..|items| - 1];
      var last := items[|items| - 1];
      FreshItemsKeys(less, seen);
      KeysOfMore(less, last);
      assert items == less + [last];
      if Fresh(last, seen) {
        KeysOfMore(FreshItems(less, seen), last);
        assert FreshItems(items, seen) == FreshItems(less, seen) + [last];
      } else {
        assert FreshItems(items, seen) == FreshItems(less, seen);
      }
    }
  }

  lemma KeysOfMore(items: seq<Item>, item: Item)
    ensures ItemKeys(items + [item]) == ItemKeys(items) + (if item.Identified() then {item.key} else {})
  {
    var more := items + [item];
    forall key | key in ItemKeys(items) ensures key in ItemKeys(more) {
      var i :| 0 <= i < |items| && items[i].Identified() && items[i].key == key;
      assert more[i] == items[i];
    }
    forall key | key in ItemKeys(more) && !(item.Identified() && key == item.key) ensures key in ItemKeys(items) {
      var i :| 0 <= i < |more| && more[i].Identified() && more[i].key == key;
      assert i < |items| && items[i] == more[i];
    }
    if item.Identified() {
      assert more[|items|] == item;
    }
  }

  /** Deduplication hides exactly the keys already seen. */
  lemma DeduplicatedKeys(r: Record, seen: set<string>)
    ensures Keys(Deduplicated(r, seen)) == Keys(r) - seen
  {
    if Searches(r) {
      FreshItemsKeys(r.result.data.items.value, seen);
    }
  }

  lemma {:induction false} SourceKept(sources: seq<Source>, ids: set<Option<string>>, i: nat)
    requires i < |sources| && sources[i].id in ids
    ensures sources[i] in SourcesAmong(sources, ids)
  {
    if i < |sources| - 1 {
      SourceKept(sources[..|sources| - 1], ids, i);
    }
  }

  /** Every item still shown keeps the source it came with. */
  lemma ShownItemsKeepTheirSources(r: Record, seen: set<string>, k: nat, i: nat)
    requires Searches(r) && r.result.sources.Some? && Searches(Deduplicated(r, seen))
    requires k < |Deduplicated(r, seen).result.data.items.value| && Deduplicated(r, seen).result.data.items.value[k].isObject
    requires i < |r.result.sources.value| && r.result.sources.value[i].id == Deduplicated(r, seen).result.data.items.value[k].source
    ensures Deduplicated(r, seen).result.sources.Some?
    ensures r.result.sources.value[i] in Deduplicated(r, seen).result.sources.value
  {
    var items := Deduplicated(r, seen).result.data.items.value;
    assert items[k].source in SourceIds(items);
    SourceKept(r.result.sources.value, SourceIds(items), i);
  }
}
