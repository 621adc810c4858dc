/**
  The JSON text the sizes of `Evidence` count: compact, without spaces. The members of an object are
  in the order their sizes are added in; sorting them does not change the length of the text.
 */
module EvidenceJson {
  import opened Prelude
  import opened Evidence

  function Quoted(s: string): string {
    "\"" + s + "\""
  }

  function Commas(parts: seq<string>): string {
    if parts == [] then ""
    else if |parts| == 1 then parts[0]
    else Commas(parts[..|parts| - 1]) + "," + parts[|parts| - 1]
  }

  function ListOf(parts: seq<string>): string {
    "[" + Commas(parts) + "]"
  }

  function ObjectOf(members: seq<string>): string {
    "{" + Commas(members) + "}"
  }

  function Pair(name: string, json: string): string {
    Quoted(name) + ":" + json
  }

  function Decimal(n: nat): string {
    if n < 10 then ["0123456789"[n]] else Decimal(n / 10) + ["0123456789"[n % 10]]
  }

  function ValueJson(v: Value): string {
    match v
    case Text(text) => Quoted(text)
    case Number(digits) => digits
    case Other(json) => json
  }

  function FieldsJson(fields: seq<(string, Value)>): seq<string> {
    seq(|fields|, i requires 0 <= i < |fields| => Pair(fields[i].0, ValueJson(fields[i].1)))
  }

  function HandlesJson(ids: seq<string>): seq<string> {
    seq(|ids|, i requires 0 <= i < |ids| => Quoted(ids[i]))
  }

  function ItemsJson(items: seq<Item>): seq<string> {
    seq(|items|, i requires 0 <= i < |items| => items[i].text)
  }

  function SourcesJson(sources: seq<Source>): seq<string> {
    seq(|sources|, i requires 0 <= i < |sources| => sources[i].text)
  }

  function LocatorJson(l: Locator): string {
    match l
    case NoLocator => "null"
    case Fields(fields) => ObjectOf(FieldsJson(fields))
    case Handles(ids) => ObjectOf([Pair("source_ids", ListOf(HandlesJson(ids)))])
  }

  function RequestJson(r: Request): string {
    ObjectOf([Pair("arguments", r.arguments), Pair("tool", Quoted(r.tool))])
  }

  function ToolOnlyJson(tool: string): string {
    ObjectOf([Pair("tool", Quoted(tool))])
  }

  const NOTE := "Duplicate discovery candidates already supplied in other selected results were removed."
  const NOT_IN_CONTEXT := "Retained, not supplied. Repeat the original request to reactivate, or read a listed source handle."
  const OMITTED := "Entire result omitted because it exceeded the evidence output budget; contents are unknown."

  function FieldJson(name: string, value: Option<Value>): seq<string> {
    if value.Some? then [Pair(name, ValueJson(value.value))] else []
  }

  function DataJson(data: Data): string {
    match data
    case Plain(json) => json
    case Object(source, section, start, end, cursor, items, noted, rest) =>
      ObjectOf(FieldJson("source_id", source) + FieldJson("section_id", section) + FieldJson("start", start) + FieldJson("end", end)
               + FieldJson("next_cursor", cursor)
               + (if items.Some? then [Pair("items", ListOf(ItemsJson(items.value)))] else [])
               + (if noted then [Pair("discovery_note", Quoted(NOTE))] else [])
               + (if rest != "" then [rest] else []))
  }

  function ResultJson(r: ToolResult): string {
    ObjectOf([Pair("data", DataJson(r.data)), Pair("status", Quoted(r.status))]
             + (if r.sources.Some? then [Pair("sources", ListOf(SourcesJson(r.sources.value)))] else [])
             + (if r.diagnostics.Some? then [Pair("diagnostics", ListOf(r.diagnostics.value))] else []))
  }

  function PlaceholderJson(locator: Locator, detail: string, status: string): string {
    ObjectOf([Pair("data", LocatorJson(locator)), Pair("detail", Quoted(detail)), Pair("status", Quoted(status))])
  }

  function Recorded(n: nat, request: string, result: string): string {
    ObjectOf([Pair("evidence_id", Quoted("evidence-" + Decimal(n))), Pair("request", request), Pair("result", result)])
  }

  function RecordJson(r: Record): string {
    match r
    case Full(n, request, result) => Recorded(n, RequestJson(request), ResultJson(result))
    case Omission(n, tool, locator) => Recorded(n, ToolOnlyJson(tool), PlaceholderJson(locator, OMITTED, "omitted"))
    case Manifest(n, Whole(request), locator) => Recorded(n, RequestJson(request), PlaceholderJson(locator, NOT_IN_CONTEXT, "not_in_context"))
    case Manifest(n, ToolOnly(tool), locator) => Recorded(n, ToolOnlyJson(tool), PlaceholderJson(locator, NOT_IN_CONTEXT, "not_in_context"))
  }

  function RecordsJson(records: seq<Record>): seq<string> {
    seq(|records|, i requires 0 <= i < |records| => RecordJson(records[i]))
  }

  /** The evidence of a prompt as JSON text. */
  function EvidenceText(records: seq<Record>): string {
    ListOf(RecordsJson(records))
  }

  // ------------------------------------------------------------------ the sizes are the lengths of the texts

  function Lengths(parts: seq<string>): seq<nat> {
    seq(|parts|, i requires 0 <= i < |parts| => |parts[i]|)
  }

  lemma {:induction false} CommasLength(parts: seq<string>)
    ensures parts != [] ==> |Commas(parts)| == Sum(Lengths(parts)) + |parts| - 1
  {
    if |parts| == 1 {
      assert Lengths(parts)[..0] == [];
    } else if parts != [] {
      CommasLength(parts[..|parts| - 1]);
      assert Lengths(parts)[..|parts| - 1] == Lengths(parts[..|parts| - 1]);
    }
  }

  lemma JoinedLength(parts: seq<string>, sizes: seq<nat>)
    requires sizes == Lengths(parts)
    ensures |ListOf(parts)| == Joined(sizes) && |ObjectOf(parts)| == Joined(sizes)
  {
    CommasLength(parts);
  }

  lemma {:induction false} DecimalLength(n: nat)
    ensures |Decimal(n)| == Digits(n)
  {
    if n >= 10 {
      DecimalLength(n / 10);
    }
  }

  lemma FieldsLength(fields: seq<(string, Value)>)
    ensures Lengths(FieldsJson(fields)) == FieldSizes(fields)
  {
  }

  lemma LocatorLength(l: Locator)
    ensures |LocatorJson(l)| == LocatorSize(l)
  {
    match l
    case NoLocator =>
    case Fields(fields) =>
      FieldsLength(fields);
      JoinedLength(FieldsJson(fields), FieldSizes(fields));
    case Handles(ids) =>
      assert Lengths(HandlesJson(ids)) == HandleSizes(ids);
      JoinedLength(HandlesJson(ids), HandleSizes(ids));
      var member := Pair("source_ids", ListOf(HandlesJson(ids)));
      assert Lengths([member]) == [Member("source_ids", Joined(HandleSizes(ids)))];
      JoinedLength([member], [Member("source_ids", Joined(HandleSizes(ids)))]);
  }

  lemma DataLength(data: Data)
    ensures |DataJson(data)| == DataSize(data)
  {
    if data.Object? {
      var items := if data.items.Some? then [Pair("items", ListOf(ItemsJson(data.items.value)))] else [];
      var note := if data.noted then [Pair("discovery_note", Quoted(NOTE))] else [];
      var rest := if data.rest != "" then [data.rest] else [];
      var itemsSize := if data.items.Some? then [Member("items", Joined(ItemSizes(data.items.value)))] else [];
      var noteSize := if data.noted then [NOTE_SIZE] else [];
      var restSize := if data.rest != "" then [|data.rest|] else [];
      if data.items.Some? {
        JoinedLength(ItemsJson(data.items.value), ItemSizes(data.items.value));
      }
      assert Lengths(items) == itemsSize;
      assert Lengths(note) == noteSize by {
        assert |Pair("discovery_note", Quoted(NOTE))| == NOTE_SIZE;
      }
      assert Lengths(rest) == restSize;
      FieldsAre(data);
      FieldsLength(LocatorFields(data));
      LengthsJoin(FieldsJson(LocatorFields(data)), items);
      LengthsJoin(FieldsJson(LocatorFields(data)) + items, note);
      LengthsJoin(FieldsJson(LocatorFields(data)) + items + note, rest);
      JoinedLength(FieldsJson(LocatorFields(data)) + items + note + rest, FieldSizes(LocatorFields(data)) + itemsSize + noteSize + restSize);
    }
  }

  lemma FieldsJoin(a: seq<(string, Value)>, b: seq<(string, Value)>)
    ensures FieldsJson(a + b) == FieldsJson(a) + FieldsJson(b)
  {
  }

  lemma FieldIs(name: string, value: Option<Value>)
    ensures FieldJson(name, value) == FieldsJson(Optional(name, value))
  {
  }

  /** The five fields of the data as they are written. */
  lemma FieldsAre(data: Data)
    requires data.Object?
    ensures FieldJson("source_id", data.sourceId) + FieldJson("section_id", data.sectionId) + FieldJson("start", data.start)
            + FieldJson("end", data.end) + FieldJson("next_cursor", data.nextCursor)
      == FieldsJson(LocatorFields(data))
  {
    var a, b, c, d, e := Optional("source_id", data.sourceId), Optional("section_id", data.sectionId), Optional("start", data.start),
      Optional("end", data.end), Optional("next_cursor", data.nextCursor);
    FieldIs("source_id", data.sourceId);
    FieldIs("section_id", data.sectionId);
    FieldIs("start", data.start);
    FieldIs("end", data.end);
    FieldIs("next_cursor", data.nextCursor);
    FieldsJoin(a, b);
    FieldsJoin(a + b, c);
    FieldsJoin(a + b + c, d);
    FieldsJoin(a + b + c + d, e);
  }

  lemma LengthsJoin(a: seq<string>, b: seq<string>)
    ensures Lengths(a + b) == Lengths(a) + Lengths(b)
  {
  }

  lemma ResultLength(r: ToolResult)
    ensures |ResultJson(r)| == ResultSize(r)
  {
    DataLength(r.data);
    var always := [Pair("data", DataJson(r.data)), Pair("status", Quoted(r.status))];
    var sources := if r.sources.Some? then [Pair("sources", ListOf(SourcesJson(r.sources.value)))] else [];
    var diagnostics := if r.diagnostics.Some? then [Pair("diagnostics", ListOf(r.diagnostics.value))] else [];
    var alwaysSize := [Member("data", DataSize(r.data)), Member("status", |r.status| + 2)];
    var sourcesSize := if r.sources.Some? then [Member("sources", Joined(SourceSizes(r.sources.value)))] else [];
    var diagnosticsSize := if r.diagnostics.Some? then [Member("diagnostics", Joined(TextSizes(r.diagnostics.value)))] else [];
    if r.sources.Some? {
      JoinedLength(SourcesJson(r.sources.value), SourceSizes(r.sources.value));
    }
    if r.diagnostics.Some? {
      JoinedLength(r.diagnostics.value, TextSizes(r.diagnostics.value));
    }
    assert Lengths(always) == alwaysSize;
    assert Lengths(sources) == sourcesSize;
    assert Lengths(diagnostics) == diagnosticsSize;
    LengthsJoin(always, sources);
    LengthsJoin(always + sources, diagnostics);
    JoinedLength(always + sources + diagnostics, alwaysSize + sourcesSize + diagnosticsSize);
  }

  lemma ObjectOfTwo(a: string, b: string)
    ensures |ObjectOf([a, b])| == 3 + |a| + |b|
  {
    assert [a, b][..1] == [a];
    assert Commas([a, b]) == Commas([a]) + "," + b;
  }

  lemma ObjectOfThree(a: string, b: string, c: string)
    ensures |ObjectOf([a, b, c])| == 4 + |a| + |b| + |c|
  {
    assert [a, b, c][..2] == [a, b];
    assert [a, b][..1] == [a];
    assert Commas([a, b]) == Commas([a]) + "," + b;
  }

  lemma PlaceholderLength(locator: Locator, detail: string, status: string)
    ensures |PlaceholderJson(locator, detail, status)| == 33 + LocatorSize(locator) + |detail| + |status|
  {
    LocatorLength(locator);
    ObjectOfThree(Pair("data", LocatorJson(locator)), Pair("detail", Quoted(detail)), Pair("status", Quoted(status)));
  }

  lemma RecordedLength(n: nat, request: string, result: string)
    ensures |Recorded(n, request, result)| == 48 + Digits(n) + |request| + |result|
  {
    DecimalLength(n);
    ObjectOfThree(Pair("evidence_id", Quoted("evidence-" + Decimal(n))), Pair("request", request), Pair("result", result));
  }

  lemma RequestLength(r: Request)
    ensures |RequestJson(r)| == RequestSize(r) && |ToolOnlyJson(r.tool)| == ToolOnlySize(r.tool)
  {
    ObjectOfTwo(Pair("arguments", r.arguments), Pair("tool", Quoted(r.tool)));
  }

  /** The size of a record is the length of its JSON text. */
  lemma RecordLength(r: Record)
    ensures |RecordJson(r)| == RecordSize(r)
  {
    match r
    case Full(n, request, result) =>
      RequestLength(request);
      ResultLength(result);
      RecordedLength(n, RequestJson(request), ResultJson(result));
    case Omission(n, tool, locator) =>
      RequestLength(Request(tool, ""));
      PlaceholderLength(locator, OMITTED, "omitted");
      RecordedLength(n, ToolOnlyJson(tool), PlaceholderJson(locator, OMITTED, "omitted"));
    case Manifest(n, Whole(request), locator) =>
      RequestLength(request);
      PlaceholderLength(locator, NOT_IN_CONTEXT, "not_in_context");
      RecordedLength(n, RequestJson(request), PlaceholderJson(locator, NOT_IN_CONTEXT, "not_in_context"));
    case Manifest(n, ToolOnly(tool), locator) =>
      RequestLength(Request(tool, ""));
      PlaceholderLength(locator, NOT_IN_CONTEXT, "not_in_context");
      RecordedLength(n, ToolOnlyJson(tool), PlaceholderJson(locator, NOT_IN_CONTEXT, "not_in_context"));
  }

  /** The size a selection is measured by is the length of the evidence text in the prompt. */
  lemma RenderedIsLength(records: seq<Record>)
    ensures |EvidenceText(records)| == Rendered(records)
  {
    forall i | 0 <= i < |records| ensures |RecordsJson(records)[i]| == RecordSizes(records)[i] {
      RecordLength(records[i]);
    }
    assert Lengths(RecordsJson(records)) == RecordSizes(records);
    JoinedLength(RecordsJson(records), RecordSizes(records));
  }
}
