/**
  Bounded reads and their continuations in a research session (`research.py`). Handles are fresh
  numbers; a registered document's text and ranges do not change, and reads here are of documents
  that have not been replaced.
 */
module ReadCursors {
  import opened Prelude

  datatype Range = Range(start: nat, end: nat)

  datatype Document = Document(text: string, sections: map<nat, Range>)
  {
    predicate Ok() { forall s | s in sections :: sections[s].start <= sections[s].end <= |text| }
    predicate Has(section: Option<nat>) { section.Some? ==> section.value in sections }

    /** The whole document, or the range of one of its sections. */
    function RangeOf(section: Option<nat>): (r: Range)
      requires Ok() && Has(section)
      ensures r.start <= r.end <= |text|
    {
      if section.None? then Range(0, |text|) else sections[section.value]
    }
  }

  const MAX_DOCUMENTS := 64
  const MAX_DOCUMENT_CHARS := 1_000_000

  /** What makes two documents the same: the digest of the text is injective. */
  datatype Identity = Identity(scope: string, source: string, revision: string, text: string)

  datatype Target = Target(source: nat, section: Option<nat>, offset: nat)

  datatype Piece = Piece(text: string, start: nat, end: nat, complete: bool, atEnd: bool, next: Option<nat>)

  /** The pieces a range is read in, `step` characters at a time. */
  function Pieces(text: string, at: nat, end: nat, step: nat): seq<string>
    requires at <= end <= |text| && step > 0
    decreases end - at
  {
    if at + step >= end then [text[at..end]] else [text[at..at + step]] + Pieces(text, at + step, end, step)
  }

  function Joined(pieces: seq<string>): string {
    if pieces == [] then "" else pieces[0] + Joined(pieces[1..])
  }

  /** Reassembling the pieces gives back exactly the range. */
  lemma {:induction false} PiecesReassemble(text: string, at: nat, end: nat, step: nat)
    requires at <= end <= |text| && step > 0
    ensures Joined(Pieces(text, at, end, step)) == text[at..end]
    decreases end - at
  {
    if at + step >= end {
      assert Pieces(text, at, end, step)[1..] == [];
    } else {
      PiecesReassemble(text, at + step, end, step);
      assert Pieces(text, at, end, step)[1..] == Pieces(text, at + step, end, step);
      assert text[at..end] == text[at..at + step] + text[at + step..end];
    }
  }

  /** No more pieces than needed: all but the last are full, and the last is not empty. */
  lemma {:induction false} PieceCount(text: string, at: nat, end: nat, step: nat)
    requires at < end <= |text| && step > 0
    ensures var n := |Pieces(text, at, end, step)|; n > 0 && (n - 1) * step < end - at <= n * step
    decreases end - at
  {
    if at + step < end {
      PieceCount(text, at + step, end, step);
      var n := |Pieces(text, at + step, end, step)|;
      Distribute(n - 1, step);
      Distribute(n, step);
    }
  }

  lemma Distribute(n: nat, step: nat)
    ensures (n + 1) * step == n * step + step
  {
  }

  // ------------------------------------------------------------------ what a session keeps

  type Documents = map<nat, Document>

  /** At most so many documents of bounded size, each with sections in range; an identity stands for its own text. */
  ghost predicate StorageOk(documents: Documents, identities: map<Identity, nat>, handles: nat) {
    && |documents| <= MAX_DOCUMENTS
    && (forall d | d in documents :: d < handles && documents[d].Ok() && |documents[d].text| <= MAX_DOCUMENT_CHARS)
    && (forall id | id in identities :: identities[id] in documents && documents[identities[id]].text == id.text)
  }

  /** A continuation points strictly inside the range it continues. */
  ghost predicate Continues(documents: Documents, target: Target) {
    && target.source in documents && documents[target.source].Ok() && documents[target.source].Has(target.section)
    && var range := documents[target.source].RangeOf(target.section);
    && range.start < target.offset < range.end
  }

  /** The two maps are inverse, and every continuation is inside its range. */
  ghost predicate CursorsOk(documents: Documents, cursors: map<nat, Target>, cursorKeys: map<Target, nat>, handles: nat) {
    && (forall c | c in cursors :: c < handles && cursors[c] in cursorKeys && cursorKeys[cursors[c]] == c)
    && (forall t | t in cursorKeys :: cursorKeys[t] in cursors && cursors[cursorKeys[t]] == t)
    && (forall t | t in cursorKeys :: Continues(documents, t))
  }

  lemma Published(documents: Documents, identities: map<Identity, nat>, handles: nat, identity: Identity, document: Document)
    requires StorageOk(documents, identities, handles) && |documents| < MAX_DOCUMENTS
    requires document.Ok() && document.text == identity.text && |document.text| <= MAX_DOCUMENT_CHARS && identity !in identities
    ensures handles !in documents && StorageOk(documents[handles := document], identities[identity := handles], handles + 1)
  {
    var more := documents[handles := document];
    assert more.Keys == documents.Keys + {handles};
    assert |more| == |more.Keys| && |documents| == |documents.Keys|;
  }

  lemma Extended(documents: Documents, identities: map<Identity, nat>, handles: nat, source: nat, sections: map<nat, Range>)
    requires StorageOk(documents, identities, handles) && source in documents && Document(documents[source].text, sections).Ok()
    ensures StorageOk(documents[source := documents[source].(sections := sections)], identities, handles)
  {
    var more := documents[source := documents[source].(sections := sections)];
    assert more.Keys == documents.Keys;
    assert |more| == |more.Keys| && |documents| == |documents.Keys|;
  }

  /** Documents that keep their texts and sections keep every continuation. */
  lemma StillContinues(documents: Documents, later: Documents, cursors: map<nat, Target>, cursorKeys: map<Target, nat>, handles: nat, more: nat)
    requires CursorsOk(documents, cursors, cursorKeys, handles) && handles <= more
    requires forall d | d in documents :: d in later && later[d].Ok() && later[d].text == documents[d].text
    requires forall d | d in documents :: documents[d].sections.Items <= later[d].sections.Items
    ensures CursorsOk(later, cursors, cursorKeys, more)
  {
    forall t | t in cursorKeys ensures Continues(later, t) {
      assert Continues(documents, t);
      if t.section.Some? {
        var s := t.section.value;
        assert (s, documents[t.source].sections[s]) in documents[t.source].sections.Items;
        assert (s, documents[t.source].sections[s]) in later[t.source].sections.Items;
      }
    }
  }

  class ResearchSession {
    const maxChars: int
    var documents: map<nat, Document>
    var identities: map<Identity, nat>
    var cursors: map<nat, Target>
    var cursorKeys: map<Target, nat>
    var handles: nat
    var closed: bool

    constructor (maxChars: int)
      ensures Valid() && documents == map[] && identities == map[] && cursors == map[] && !closed && this.maxChars == maxChars
    {
      this.maxChars := maxChars;
      documents, identities, cursors, cursorKeys, handles, closed := map[], map[], map[], map[], 0, false;
    }

    /** The text one read may return. */
    function Step(): (step: nat)
      ensures step >= 128
    {
      Max(128, maxChars - 1000)
    }

    ghost predicate Valid()
      reads this
    {
      StorageOk(documents, identities, handles) && CursorsOk(documents, cursors, cursorKeys, handles)
    }

    /** The read `validate_read` accepts. */
    predicate Accepts(source: nat, section: Option<nat>, cursor: Option<nat>)
      reads this
    {
      && !closed && source in documents && documents[source].Has(section)
      && (cursor.Some? ==> cursor.value in cursors && cursors[cursor.value].source == source && cursors[cursor.value].section == section)
    }

    /** Where a read starts: at its range, or where its continuation left off. */
    ghost function StartOf(source: nat, section: Option<nat>, cursor: Option<nat>): (start: nat)
      requires Valid() && Accepts(source, section, cursor)
      reads this
      ensures start <= documents[source].RangeOf(section).end
      ensures cursor.Some? ==> documents[source].RangeOf(section).start < start < documents[source].RangeOf(section).end
    {
      assert cursor.Some? ==> cursors[cursor.value] in cursorKeys && Continues(documents, cursors[cursor.value]);
      if cursor.Some? then cursors[cursor.value].offset else documents[source].RangeOf(section).start
    }

    /** `_register`: the document already registered under this identity, or a new one within the storage limits. */
    method Register(identity: Identity, sections: map<nat, Range>) returns (source: Option<nat>)
      requires Valid() && Document(identity.text, sections).Ok()
      modifies `documents, `identities, `handles
      ensures Valid()
      ensures source.Some? <==>
        !closed && (identity in old(identities) || (|old(documents)| < MAX_DOCUMENTS && |identity.text| <= MAX_DOCUMENT_CHARS))
      ensures source.Some? ==> identity in identities && source.value == identities[identity]
      ensures source.None? || identity in old(identities) ==> documents == old(documents) && identities == old(identities)
      ensures source.Some? && identity !in old(identities) ==>
        && source.value !in old(documents)
        && documents == old(documents)[source.value := Document(identity.text, sections)]
        && identities == old(identities)[identity := source.value]
    {
      if closed {
        return None;
      }
      if identity in identities {
        return Some(identities[identity]);
      }
      if |documents| >= MAX_DOCUMENTS || |identity.text| > MAX_DOCUMENT_CHARS {
        return None;
      }
      var fresh' := handles;
      handles := handles + 1;
      ghost var before := documents;
      Published(documents, identities, fresh', identity, Document(identity.text, sections));
      documents := documents[fresh' := Document(identity.text, sections)];
      identities := identities[identity := fresh'];
      StillContinues(before, documents, cursors, cursorKeys, fresh', handles);
      return Some(fresh');
    }

    /** `_register_passages`: ranges added to a document; what it has stays. */
    method AddPassages(source: nat, sections: map<nat, Range>)
      requires Valid() && source in documents && Document(documents[source].text, sections).Ok()
      requires documents[source].sections.Items <= sections.Items
      modifies `documents
      ensures Valid() && documents == old(documents)[source := old(documents)[source].(sections := sections)]
    {
      ghost var before := documents;
      Extended(documents, identities, handles, source, sections);
      documents := documents[source := documents[source].(sections := sections)];
      StillContinues(before, documents, cursors, cursorKeys, handles, handles);
    }

    method Close()
      requires Valid()
      modifies this
      ensures Valid() && closed && documents == map[] && identities == map[] && cursors == map[]
      ensures forall source, section, cursor :: !Accepts(source, section, cursor)
    {
      closed, documents, identities, cursors, cursorKeys := true, map[], map[], map[], map[];
    }

    /** `setdefault`: the continuation already issued for this place, or a fresh one. */
    method CursorFor(target: Target) returns (cursor: nat)
      requires Valid() && Continues(documents, target)
      modifies `cursors, `cursorKeys, `handles
      ensures Valid() && cursor in cursors && cursors[cursor] == target
      ensures target in old(cursorKeys) ==> cursor == old(cursorKeys)[target] && cursors == old(cursors)
      ensures target !in old(cursorKeys) ==> cursor !in old(cursors) && cursors == old(cursors)[cursor := target]
    {
      var fresh' := handles;
      handles := handles + 1;
      if target in cursorKeys {
        cursor := cursorKeys[target];
      } else {
        cursor := fresh';
        cursorKeys := cursorKeys[target := cursor];
      }
      ghost var before := cursors;
      cursors := cursors[cursor := target];
      assert target in old(cursorKeys) ==> cursors == before;
    }

    method ReadPassage(source: nat, section: Option<nat>, cursor: Option<nat>) returns (piece: Piece)
      requires Valid() && Accepts(source, section, cursor)
      modifies `cursors, `cursorKeys, `handles
      ensures Valid()
      ensures forall c | c in old(cursors) :: c in cursors && cursors[c] == old(cursors)[c]
      ensures piece.start == old(StartOf(source, section, cursor))
      ensures cursor.None? ==> piece.start == documents[source].RangeOf(section).start
      ensures cursor.Some? ==> piece.start == old(cursors)[cursor.value].offset
      ensures var range := documents[source].RangeOf(section);
        && piece.start <= piece.end <= range.end
        && (piece.end < range.end ==> piece.end == piece.start + if maxChars < 1128 then 128 else maxChars - 1000)
        && (piece.end == range.end ==> piece.end <= piece.start + if maxChars < 1128 then 128 else maxChars - 1000)
        && piece.text == documents[source].text[piece.start..piece.end]
        && (piece.atEnd <==> piece.end == range.end)
        && (piece.complete <==> piece.start == range.start && piece.end == range.end)
        && (piece.next.Some? <==> !piece.atEnd)
        && (piece.next.Some? ==> Accepts(source, section, piece.next) && cursors[piece.next.value].offset == piece.end)
    {
      var document := documents[source];
      var range := document.RangeOf(section);
      var start, limit := range.start, range.end;
      if cursor.Some? {
        assert Continues(documents, cursors[cursor.value]);
        start := cursors[cursor.value].offset;
      }
      var end := Min(limit, start + Step());
      var next: Option<nat> := None;
      if end < limit {
        var issued := CursorFor(Target(source, section, end));
        next := Some(issued);
      }
      return Piece(document.text[start..end], start, end, start == range.start && end == limit, end == limit, next);
    }

    /** Following the continuations of any accepted read: it ends, and the pieces are the rest of the range. */
    method ReadOn(source: nat, section: Option<nat>, cursor: Option<nat>) returns (pieces: seq<string>)
      requires Valid() && Accepts(source, section, cursor)
      modifies `cursors, `cursorKeys, `handles
      decreases documents[source].RangeOf(section).end - StartOf(source, section, cursor)
      ensures Valid()
      ensures var range := documents[source].RangeOf(section); var start := old(StartOf(source, section, cursor));
        start <= range.end && pieces == Pieces(documents[source].text, start, range.end, Step())
      ensures var range := documents[source].RangeOf(section);
        Joined(pieces) == documents[source].text[old(StartOf(source, section, cursor))..range.end]
    {
      ghost var start := StartOf(source, section, cursor);
      ghost var end := documents[source].RangeOf(section).end;
      PiecesReassemble(documents[source].text, start, end, Step());
      var piece := ReadPassage(source, section, cursor);
      pieces := [piece.text];
      if piece.next.Some? {
        var rest := ReadOn(source, section, piece.next);
        pieces := pieces + rest;
      }
    }
  }
}
