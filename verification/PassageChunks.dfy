/**
  `_blocks` and `_chunks` of `passage_index.py`. Tables and headings arrive as the ordered,
  disjoint spans their patterns find; paragraphs are cut here, character by character.
 */
module PassageChunks {
  import opened Prelude
  import opened Headings
  import opened Layout

  const PASSAGE_CHARS := 1800

  datatype Block = Block(start: nat, end: nat, table: bool)
  datatype Chunk = Chunk(start: nat, end: nat, path: seq<string>, oversized: bool)
  datatype Section = Section(start: nat, end: nat, path: seq<string>)

  function BlockSpans(bs: seq<Block>): (r: seq<Span>)
    ensures |r| == |bs| && forall i | 0 <= i < |bs| :: r[i] == Span(bs[i].start, bs[i].end)
  {
    seq(|bs|, i requires 0 <= i < |bs| => Span(bs[i].start, bs[i].end))
  }

  function ChunkSpans(cs: seq<Chunk>): (r: seq<Span>)
    ensures |r| == |cs| && forall i | 0 <= i < |cs| :: r[i] == Span(cs[i].start, cs[i].end)
  {
    seq(|cs|, i requires 0 <= i < |cs| => Span(cs[i].start, cs[i].end))
  }

  // ------------------------------------------------------------------ paragraphs and blocks

  /** The rest of a blank line: blanks up to a newline before `hi`. */
  predicate BlankTo(text: string, m: nat, hi: nat)
    requires hi <= |text|
    decreases hi - m
  {
    m < hi && (text[m] == '\n' || ((text[m] == ' ' || text[m] == '\t') && BlankTo(text, m + 1, hi)))
  }

  predicate BlankLine(text: string, q: nat, hi: nat)
    requires hi <= |text|
  {
    q < hi && text[q] == '\n' && BlankTo(text, q + 1, hi)
  }

  /** A newline, then blanks and tabs only up to the next newline of the slice. */
  lemma {:induction false} BlankToIff(text: string, m: nat, hi: nat)
    requires hi <= |text|
    ensures BlankTo(text, m, hi) <==> exists n :: m <= n < hi && text[n] == '\n' && forall k | m <= k < n :: text[k] in " \t"
    decreases hi - m
  {
    if m < hi && text[m] != '\n' {
      BlankToIff(text, m + 1, hi);
    } else if m < hi {
      assert text[m] == '\n';
    }
  }

  lemma BlankLineIff(text: string, q: nat, hi: nat)
    requires hi <= |text|
    ensures BlankLine(text, q, hi) <==>
      q < hi && text[q] == '\n' && exists n :: q < n < hi && text[n] == '\n' && forall k | q < k < n :: text[k] in " \t"
  {
    BlankToIff(text, q + 1, hi);
    if BlankLine(text, q, hi) {
      var n :| q + 1 <= n < hi && text[n] == '\n' && forall k | q + 1 <= k < n :: text[k] in " \t";
      assert q < n;
    }
  }

  /** A match of the paragraph pattern in the slice that ends at `hi`. */
  ghost predicate IsParagraph(text: string, b: Block, hi: nat)
    requires hi <= |text|
  {
    && b.start < b.end <= hi
    && !IsSpace(text[b.start])
    && (b.end == hi || BlankLine(text, b.end, hi))
    && (forall q | b.start < q < b.end :: !BlankLine(text, q, hi))
    && !b.table
  }

  /** The lazy tail of the pattern: the first place after `at` where the slice or the paragraph ends. */
  method ParagraphEnd(text: string, at: nat, hi: nat) returns (q: nat)
    requires at < hi <= |text|
    ensures at < q <= hi && (q == hi || BlankLine(text, q, hi))
    ensures forall x | at < x < q :: !BlankLine(text, x, hi)
  {
    q := at + 1;
    while q < hi && !BlankLine(text, q, hi)
      invariant at < q <= hi
      invariant forall x | at < x < q :: !BlankLine(text, x, hi)
    {
      q := q + 1;
    }
  }

  method Paragraphs(text: string, lo: nat, hi: nat) returns (out: seq<Block>)
    requires lo <= hi <= |text|
    ensures Laid(text, lo, hi, BlockSpans(out))
    ensures forall b | b in out :: IsParagraph(text, b, hi)
  {
    out := [];
    var at := lo;
    while at < hi
      invariant lo <= at <= hi
      invariant Laid(text, lo, at, BlockSpans(out))
      invariant forall b | b in out :: IsParagraph(text, b, hi)
    {
      if IsSpace(text[at]) {
        LaidGrow(text, lo, at, at + 1, BlockSpans(out));
        at := at + 1;
      } else {
        var q := ParagraphEnd(text, at, hi);
        LaidPush(text, lo, q, BlockSpans(out), Span(at, q));
        assert BlockSpans(out + [Block(at, q, false)]) == BlockSpans(out) + [Span(at, q)];
        out := out + [Block(at, q, false)];
        at := q;
      }
    }
  }

  ghost predicate TablesIn(tables: seq<Span>, lo: nat, hi: nat) {
    && (forall i | 0 <= i < |tables| :: lo <= tables[i].start < tables[i].end <= hi)
    && (forall i, j | 0 <= i < j < |tables| :: tables[i].end <= tables[j].start)
  }

  ghost predicate EndsParagraph(text: string, hi: nat, tables: seq<Span>, b: Block, e: nat)
    requires hi <= |text|
  {
    e <= hi && IsParagraph(text, b, e) && (e == hi || exists i :: 0 <= i < |tables| && tables[i].start == e)
  }

  /** A whole table, or a paragraph of the slice up to the next table or the end of the range. */
  ghost predicate BlockOk(text: string, hi: nat, tables: seq<Span>, b: Block)
    requires hi <= |text|
  {
    if b.table then Span(b.start, b.end) in tables
    else exists e: nat :: EndsParagraph(text, hi, tables, b, e)
  }

  ghost predicate BlocksSoFar(text: string, lo: nat, cursor: nat, hi: nat, tables: seq<Span>, n: nat, blocks: seq<Block>)
    requires hi <= |text| && n <= |tables|
  {
    && Laid(text, lo, cursor, BlockSpans(blocks))
    && (forall i | 0 <= i < n :: Block(tables[i].start, tables[i].end, true) in blocks)
    && (forall i | 0 <= i < |blocks| :: BlockOk(text, hi, tables, blocks[i]))
  }

  /** What `_blocks` promises: the range is laid out in whole tables and in paragraphs between them. */
  ghost predicate BlocksOk(text: string, lo: nat, hi: nat, tables: seq<Span>, blocks: seq<Block>)
    requires hi <= |text|
  {
    BlocksSoFar(text, lo, hi, hi, tables, |tables|, blocks)
  }

  lemma AddParagraphs(text: string, lo: nat, cursor: nat, mid: nat, hi: nat, tables: seq<Span>, n: nat, blocks: seq<Block>, more: seq<Block>)
    requires hi <= |text| && n <= |tables| && mid <= hi && BlocksSoFar(text, lo, cursor, hi, tables, n, blocks)
    requires Laid(text, cursor, mid, BlockSpans(more)) && forall b | b in more :: IsParagraph(text, b, mid)
    requires mid == hi || (n < |tables| && tables[n].start == mid)
    ensures BlocksSoFar(text, lo, mid, hi, tables, n, blocks + more)
  {
    LaidConcat(text, lo, cursor, mid, BlockSpans(blocks), BlockSpans(more));
    assert BlockSpans(blocks + more) == BlockSpans(blocks) + BlockSpans(more);
    forall i | 0 <= i < |blocks + more|
      ensures BlockOk(text, hi, tables, (blocks + more)[i])
    {
      if i >= |blocks| {
        var b := more[i - |blocks|];
        assert b in more;
        assert EndsParagraph(text, hi, tables, b, mid);
      }
    }
  }

  lemma AddTable(text: string, lo: nat, hi: nat, tables: seq<Span>, n: nat, blocks: seq<Block>)
    requires hi <= |text| && n < |tables| && tables[n].start < tables[n].end <= hi
    requires BlocksSoFar(text, lo, tables[n].start, hi, tables, n, blocks)
    ensures BlocksSoFar(text, lo, tables[n].end, hi, tables, n + 1, blocks + [Block(tables[n].start, tables[n].end, true)])
  {
    var block := Block(tables[n].start, tables[n].end, true);
    LaidPush(text, lo, tables[n].end, BlockSpans(blocks), tables[n]);
    assert BlockSpans(blocks + [block]) == BlockSpans(blocks) + [tables[n]];
    assert (blocks + [block])[|blocks|] == block;
  }

  method Blocks(text: string, lo: nat, hi: nat, tables: seq<Span>) returns (result: seq<Block>)
    requires lo <= hi <= |text| && TablesIn(tables, lo, hi)
    ensures BlocksOk(text, lo, hi, tables, result)
  {
    result := [];
    var cursor := lo;
    for n := 0 to |tables|
      invariant lo <= cursor <= hi && (n < |tables| ==> cursor <= tables[n].start)
      invariant BlocksSoFar(text, lo, cursor, hi, tables, n, result)
    {
      var table := tables[n];
      var before := Paragraphs(text, cursor, table.start);
      AddParagraphs(text, lo, cursor, table.start, hi, tables, n, result, before);
      result := result + before;
      AddTable(text, lo, hi, tables, n, result);
      result := result + [Block(table.start, table.end, true)];
      cursor := table.end;
    }
    var rest := Paragraphs(text, cursor, hi);
    AddParagraphs(text, lo, cursor, hi, hi, tables, |tables|, result, rest);
    result := result + rest;
  }

  // ------------------------------------------------------------------ table neighbourhoods

  datatype Range = Range(left: nat, right: nat)   // block indices, inclusive

  function LeftOf(index: nat): nat { if index == 0 then 0 else index - 1 }
  function RightOf(index: nat, count: nat): nat { if index + 1 < count then index + 1 else index }

  /** A table or a neighbour of one. */
  ghost predicate NearTable(blocks: seq<Block>, i: nat) {
    exists t :: 0 <= t < |blocks| && blocks[t].table && LeftOf(t) <= i <= RightOf(t, |blocks|)
  }

  ghost predicate OnlyNear(blocks: seq<Block>, r: Range) {
    forall i | r.left <= i <= r.right :: NearTable(blocks, i)
  }

  ghost predicate Within(rs: seq<Range>, lo: nat, hi: nat) {
    exists k :: 0 <= k < |rs| && rs[k].left <= lo && hi <= rs[k].right
  }

  ghost predicate RangesOk(rs: seq<Range>, blocks: seq<Block>) {
    && (forall i | 0 <= i < |rs| :: rs[i].left <= rs[i].right < |blocks| && OnlyNear(blocks, rs[i]))
    && (forall i, j | 0 <= i < j < |rs| :: rs[i].right < rs[j].left)
  }

  ghost predicate TablesWithin(rs: seq<Range>, blocks: seq<Block>, n: nat) {
    forall t | 0 <= t < n && t < |blocks| && blocks[t].table :: Within(rs, LeftOf(t), RightOf(t, |blocks|))
  }

  /** Replacing or adding the last range keeps every neighbourhood found so far. */
  lemma KeepsTables(rs: seq<Range>, qs: seq<Range>, blocks: seq<Block>, n: nat)
    requires TablesWithin(rs, blocks, n) && n < |blocks| && Within(qs, LeftOf(n), RightOf(n, |blocks|))
    requires |rs| <= |qs|
    requires forall k | 0 <= k < |rs| :: qs[k].left <= rs[k].left && rs[k].right <= qs[k].right
    ensures TablesWithin(qs, blocks, n + 1)
  {
    forall t | 0 <= t < n && blocks[t].table
      ensures Within(qs, LeftOf(t), RightOf(t, |blocks|))
    {
      var k :| 0 <= k < |rs| && rs[k].left <= LeftOf(t) && RightOf(t, |blocks|) <= rs[k].right;
      assert qs[k].left <= LeftOf(t);
    }
  }

  lemma NewRangeNear(blocks: seq<Block>, index: nat)
    requires index < |blocks| && blocks[index].table
    ensures OnlyNear(blocks, Range(LeftOf(index), RightOf(index, |blocks|)))
  {
  }

  ghost predicate Protected(rs: seq<Range>, blocks: seq<Block>, n: nat) {
    && RangesOk(rs, blocks)
    && TablesWithin(rs, blocks, n)
    && (rs != [] ==> rs[|rs| - 1].left <= LeftOf(n) && rs[|rs| - 1].right <= n)
  }

  lemma PushRange(rs: seq<Range>, blocks: seq<Block>, index: nat)
    requires Protected(rs, blocks, index) && index < |blocks| && blocks[index].table
    requires rs != [] ==> rs[|rs| - 1].right < LeftOf(index)
    ensures Protected(rs + [Range(LeftOf(index), RightOf(index, |blocks|))], blocks, index + 1)
  {
    var qs := rs + [Range(LeftOf(index), RightOf(index, |blocks|))];
    NewRangeNear(blocks, index);
    assert qs[|rs|].right == RightOf(index, |blocks|);
    KeepsTables(rs, qs, blocks, index);
  }

  lemma StretchRange(rs: seq<Range>, blocks: seq<Block>, index: nat)
    requires Protected(rs, blocks, index) && index < |blocks| && blocks[index].table
    requires rs != [] && LeftOf(index) <= rs[|rs| - 1].right
    ensures Protected(rs[..|rs| - 1] + [Range(rs[|rs| - 1].left, RightOf(index, |blocks|))], blocks, index + 1)
  {
    var last := rs[|rs| - 1];
    var longer := Range(last.left, RightOf(index, |blocks|));
    NewRangeNear(blocks, index);
    forall i | last.left <= i <= longer.right ensures NearTable(blocks, i) {
      assert OnlyNear(blocks, last);
    }
    var qs := rs[..|rs| - 1] + [longer];
    assert qs[|rs| - 1] == longer;
    KeepsTables(rs, qs, blocks, index);
  }

  lemma SkipBlock(rs: seq<Range>, blocks: seq<Block>, index: nat)
    requires Protected(rs, blocks, index) && index < |blocks| && !blocks[index].table
    ensures Protected(rs, blocks, index + 1)
  {
  }

  /** The ranges protected are exactly the tables with their neighbours, overlapping ones joined. */
  method Protect(blocks: seq<Block>) returns (protected: seq<Range>)
    ensures RangesOk(protected, blocks)
    ensures TablesWithin(protected, blocks, |blocks|)
  {
    protected := [];
    for index := 0 to |blocks|
      invariant Protected(protected, blocks, index)
    {
      if blocks[index].table {
        var left, right := LeftOf(index), RightOf(index, |blocks|);
        if protected != [] && left <= protected[|protected| - 1].right {
          StretchRange(protected, blocks, index);
          protected := protected[..|protected| - 1] + [Range(protected[|protected| - 1].left, right)];
        } else {
          PushRange(protected, blocks, index);
          protected := protected + [Range(left, right)];
        }
      } else {
        SkipBlock(protected, blocks, index);
      }
    }
  }

  /** One protected range as a single group. */
  function Merged(blocks: seq<Block>, r: Range): Block
    requires r.left < |blocks| && r.right < |blocks|
  {
    Block(blocks[r.left].start, blocks[r.right].end, true)
  }

  ghost predicate GroupOk(blocks: seq<Block>, rs: seq<Range>, g: Block) {
    if g.table then exists k :: 0 <= k < |rs| && rs[k].left < |blocks| && rs[k].right < |blocks| && g == Merged(blocks, rs[k])
    else g in blocks
  }

  ghost predicate Grouped(text: string, lo: nat, hi: nat, blocks: seq<Block>, rs: seq<Range>, n: nat, cursor: nat, groups: seq<Block>)
    requires n <= |rs| && RangesOk(rs, blocks)
  {
    && Laid(text, lo, Mark(BlockSpans(blocks), cursor, hi), BlockSpans(groups))
    && (forall k | 0 <= k < n :: Merged(blocks, rs[k]) in groups)
    && (forall i | 0 <= i < |groups| :: GroupOk(blocks, rs, groups[i]))
  }

  lemma PlainBetween(blocks: seq<Block>, rs: seq<Range>, n: nat, t: nat)
    requires RangesOk(rs, blocks) && TablesWithin(rs, blocks, |blocks|) && n <= |rs| && t < |blocks|
    requires n > 0 ==> rs[n - 1].right < t
    requires n < |rs| ==> t < rs[n].left
    ensures !blocks[t].table
  {
    forall k | 0 <= k < |rs| ensures !(rs[k].left <= LeftOf(t) && RightOf(t, |blocks|) <= rs[k].right) {
      assert LeftOf(t) <= t <= RightOf(t, |blocks|);
    }
  }

  lemma AddSlice(text: string, lo: nat, hi: nat, blocks: seq<Block>, rs: seq<Range>, n: nat, cursor: nat, left: nat, groups: seq<Block>)
    requires n <= |rs| && RangesOk(rs, blocks) && cursor <= left <= |blocks|
    requires Laid(text, lo, hi, BlockSpans(blocks)) && Grouped(text, lo, hi, blocks, rs, n, cursor, groups)
    requires forall t | cursor <= t < left :: !blocks[t].table
    ensures Grouped(text, lo, hi, blocks, rs, n, left, groups + blocks[cursor..left])
  {
    var spans := BlockSpans(blocks);
    LaidSlice(text, lo, hi, spans, cursor, left);
    LaidConcat(text, lo, Mark(spans, cursor, hi), Mark(spans, left, hi), BlockSpans(groups), spans[cursor..left]);
    assert BlockSpans(groups + blocks[cursor..left]) == BlockSpans(groups) + spans[cursor..left];
  }

  lemma AddPlain(text: string, lo: nat, hi: nat, blocks: seq<Block>, rs: seq<Range>, n: nat, cursor: nat, left: nat, groups: seq<Block>)
    requires n <= |rs| && RangesOk(rs, blocks) && cursor <= left <= |blocks|
    requires Laid(text, lo, hi, BlockSpans(blocks)) && Grouped(text, lo, hi, blocks, rs, n, cursor, groups)
    requires TablesWithin(rs, blocks, |blocks|) && cursor == (if n > 0 then rs[n - 1].right + 1 else 0)
    requires n < |rs| ==> left <= rs[n].left
    ensures Grouped(text, lo, hi, blocks, rs, n, left, groups + blocks[cursor..left])
  {
    forall t | cursor <= t < left ensures !blocks[t].table { PlainBetween(blocks, rs, n, t); }
    AddSlice(text, lo, hi, blocks, rs, n, cursor, left, groups);
  }

  lemma AddMerged(text: string, lo: nat, hi: nat, blocks: seq<Block>, rs: seq<Range>, n: nat, groups: seq<Block>)
    requires n < |rs| && RangesOk(rs, blocks)
    requires Laid(text, lo, hi, BlockSpans(blocks)) && Grouped(text, lo, hi, blocks, rs, n, rs[n].left, groups)
    ensures Grouped(text, lo, hi, blocks, rs, n + 1, rs[n].right + 1, groups + [Merged(blocks, rs[n])])
  {
    var spans := BlockSpans(blocks);
    var left, next := rs[n].left, rs[n].right + 1;
    LaidSlice(text, lo, hi, spans, left, next);
    LaidMerge(text, Mark(spans, left, hi), Mark(spans, next, hi), spans[left..next]);
    var merged := Merged(blocks, rs[n]);
    var one := [Span(merged.start, merged.end)];
    LaidConcat(text, lo, Mark(spans, left, hi), Mark(spans, next, hi), BlockSpans(groups), one);
    assert BlockSpans(groups + [merged]) == BlockSpans(groups) + one;
    assert (groups + [merged])[|groups|] == merged;
  }

  lemma AddRange(text: string, lo: nat, hi: nat, blocks: seq<Block>, rs: seq<Range>, n: nat, cursor: nat, groups: seq<Block>)
    requires n < |rs| && RangesOk(rs, blocks) && TablesWithin(rs, blocks, |blocks|)
    requires Laid(text, lo, hi, BlockSpans(blocks)) && Grouped(text, lo, hi, blocks, rs, n, cursor, groups)
    requires cursor <= rs[n].left && cursor == (if n > 0 then rs[n - 1].right + 1 else 0)
    ensures Grouped(text, lo, hi, blocks, rs, n + 1, rs[n].right + 1, groups + blocks[cursor..rs[n].left] + [Merged(blocks, rs[n])])
  {
    AddPlain(text, lo, hi, blocks, rs, n, cursor, rs[n].left, groups);
    AddMerged(text, lo, hi, blocks, rs, n, groups + blocks[cursor..rs[n].left]);
  }

  /** Ranges of block positions, in order and apart. */
  ghost predicate Apart(rs: seq<Range>, count: nat) {
    && (forall i | 0 <= i < |rs| :: rs[i].left <= rs[i].right < count)
    && (forall i, j | 0 <= i < j < |rs| :: rs[i].right < rs[j].left)
  }

  /** The first block after the first `n` protected ranges. */
  function Next(rs: seq<Range>, n: nat): nat
    requires n <= |rs|
  {
    if n > 0 then rs[n - 1].right + 1 else 0
  }

  /** The groups up to the end of the first `n` protected ranges. */
  ghost function GroupsUpTo(blocks: seq<Block>, rs: seq<Range>, n: nat): seq<Block>
    requires n <= |rs| && Apart(rs, |blocks|)
  {
    if n == 0 then []
    else GroupsUpTo(blocks, rs, n - 1) + blocks[Next(rs, n - 1)..rs[n - 1].left] + [Merged(blocks, rs[n - 1])]
  }

  /** What adding one protected range keeps, adding any number of them keeps. */
  lemma {:induction false} UpToKeeps(kept: (nat, seq<Block>) -> bool, blocks: seq<Block>, rs: seq<Range>, n: nat)
    requires n <= |rs| && Apart(rs, |blocks|) && kept(0, [])
    requires forall m: nat, groups: seq<Block> | m < |rs| && kept(m, groups) ::
      kept(m + 1, groups + blocks[Next(rs, m)..rs[m].left] + [Merged(blocks, rs[m])])
    ensures kept(n, GroupsUpTo(blocks, rs, n))
  {
    if n > 0 {
      UpToKeeps(kept, blocks, rs, n - 1);
    }
  }

  /** Nothing grouped yet. */
  lemma NoneGrouped(text: string, lo: nat, hi: nat, blocks: seq<Block>, rs: seq<Range>)
    requires lo <= hi <= |text| && Laid(text, lo, hi, BlockSpans(blocks)) && RangesOk(rs, blocks)
    ensures Grouped(text, lo, hi, blocks, rs, 0, 0, [])
  {
    LaidPrefix(text, lo, hi, BlockSpans(blocks), 0);
    assert BlockSpans([]) == BlockSpans(blocks)[..0];
  }

  ghost predicate GroupedAt(text: string, lo: nat, hi: nat, blocks: seq<Block>, rs: seq<Range>, n: nat, groups: seq<Block>) {
    RangesOk(rs, blocks) && n <= |rs| && Grouped(text, lo, hi, blocks, rs, n, Next(rs, n), groups)
  }

  lemma AddRangeAt(text: string, lo: nat, hi: nat, blocks: seq<Block>, rs: seq<Range>, n: nat, groups: seq<Block>)
    requires Laid(text, lo, hi, BlockSpans(blocks)) && TablesWithin(rs, blocks, |blocks|) && Apart(rs, |blocks|)
    requires GroupedAt(text, lo, hi, blocks, rs, n, groups) && n < |rs|
    ensures GroupedAt(text, lo, hi, blocks, rs, n + 1, groups + blocks[Next(rs, n)..rs[n].left] + [Merged(blocks, rs[n])])
  {
    AddRange(text, lo, hi, blocks, rs, n, Next(rs, n), groups);
  }

  /** One more range added keeps the groups so far in order, whatever they are. */
  ghost predicate AddsWell(text: string, lo: nat, hi: nat, blocks: seq<Block>, rs: seq<Range>, m: nat, groups: seq<Block>)
    requires Apart(rs, |blocks|)
  {
    m < |rs| && GroupedAt(text, lo, hi, blocks, rs, m, groups) ==>
      GroupedAt(text, lo, hi, blocks, rs, m + 1, groups + blocks[Next(rs, m)..rs[m].left] + [Merged(blocks, rs[m])])
  }

  lemma AlwaysAddsWell(text: string, lo: nat, hi: nat, blocks: seq<Block>, rs: seq<Range>, m: nat, groups: seq<Block>)
    requires Laid(text, lo, hi, BlockSpans(blocks)) && TablesWithin(rs, blocks, |blocks|) && Apart(rs, |blocks|)
    ensures AddsWell(text, lo, hi, blocks, rs, m, groups)
  {
    if m < |rs| && GroupedAt(text, lo, hi, blocks, rs, m, groups) {
      AddRangeAt(text, lo, hi, blocks, rs, m, groups);
    }
  }

  lemma UpToIsGrouped(text: string, lo: nat, hi: nat, blocks: seq<Block>, rs: seq<Range>)
    requires lo <= hi <= |text| && Laid(text, lo, hi, BlockSpans(blocks))
    requires RangesOk(rs, blocks) && TablesWithin(rs, blocks, |blocks|) && Apart(rs, |blocks|)
    ensures GroupedAt(text, lo, hi, blocks, rs, |rs|, GroupsUpTo(blocks, rs, |rs|))
  {
    NoneGrouped(text, lo, hi, blocks, rs);
    forall m: nat, groups: seq<Block> ensures AddsWell(text, lo, hi, blocks, rs, m, groups) {
      AlwaysAddsWell(text, lo, hi, blocks, rs, m, groups);
    }
    UpToKeeps((m: nat, groups: seq<Block>) => GroupedAt(text, lo, hi, blocks, rs, m, groups), blocks, rs, |rs|);
  }

  method GroupBlocks(blocks: seq<Block>, protected: seq<Range>) returns (groups: seq<Block>)
    requires Apart(protected, |blocks|)
    ensures groups == GroupsUpTo(blocks, protected, |protected|) + blocks[Next(protected, |protected|)..]
  {
    groups := [];
    var cursor := 0;
    for n := 0 to |protected|
      invariant cursor == Next(protected, n)
      invariant groups == GroupsUpTo(blocks, protected, n)
    {
      var left, right := protected[n].left, protected[n].right;
      groups := groups + blocks[cursor..left];
      groups := groups + [Block(blocks[left].start, blocks[right].end, true)];
      cursor := right + 1;
    }
    groups := groups + blocks[cursor..];
  }

  /** Tables become one group together with their neighbours; other paragraphs stay as they are. */
  method Groups(text: string, lo: nat, hi: nat, blocks: seq<Block>, protected: seq<Range>) returns (groups: seq<Block>)
    requires lo <= hi <= |text| && Laid(text, lo, hi, BlockSpans(blocks))
    requires RangesOk(protected, blocks) && TablesWithin(protected, blocks, |blocks|)
    ensures Grouped(text, lo, hi, blocks, protected, |protected|, |blocks|, groups)
  {
    groups := GroupBlocks(blocks, protected);
    AllGrouped(text, lo, hi, blocks, protected);
  }

  lemma AllGrouped(text: string, lo: nat, hi: nat, blocks: seq<Block>, rs: seq<Range>)
    requires lo <= hi <= |text| && Laid(text, lo, hi, BlockSpans(blocks))
    requires RangesOk(rs, blocks) && TablesWithin(rs, blocks, |blocks|) && Apart(rs, |blocks|)
    ensures Grouped(text, lo, hi, blocks, rs, |rs|, |blocks|, GroupsUpTo(blocks, rs, |rs|) + blocks[Next(rs, |rs|)..])
  {
    UpToIsGrouped(text, lo, hi, blocks, rs);
    AddPlain(text, lo, hi, blocks, rs, |rs|, Next(rs, |rs|), |blocks|, GroupsUpTo(blocks, rs, |rs|));
    assert blocks[Next(rs, |rs|)..|blocks|] == blocks[Next(rs, |rs|)..];
  }

  // ------------------------------------------------------------------ cutting

  /** `text.rfind(' ', lo, hi)` */
  method RFindSpace(text: string, lo: nat, hi: nat) returns (at: Option<nat>)
    requires lo <= hi <= |text|
    ensures at.Some? ==> lo <= at.value < hi && text[at.value] == ' ' && forall k | at.value < k < hi :: text[k] != ' '
    ensures at.None? ==> forall k | lo <= k < hi :: text[k] != ' '
  {
    var k := hi;
    while k > lo
      invariant lo <= k <= hi
      invariant forall j | k <= j < hi :: text[j] != ' '
    {
      k := k - 1;
      if text[k] == ' ' {
        return Some(k);
      }
    }
    return None;
  }

  /** No space in the second half of the limit: the piece is cut exactly at it. */
  predicate Forced(text: string, c: Chunk)
    requires c.end <= |text|
  {
    c.end == c.start + PASSAGE_CHARS && forall k | c.start + PASSAGE_CHARS / 2 <= k < c.end :: text[k] != ' '
  }

  /** A piece cut off a long paragraph: as much as fits up to a space, else exactly the limit. */
  ghost predicate Cut(text: string, c: Chunk) {
    && c.start + PASSAGE_CHARS / 2 < c.end <= c.start + PASSAGE_CHARS && c.end <= |text| && !c.oversized
    && (forall k | c.end <= k < c.start + PASSAGE_CHARS && k < |text| :: text[k] != ' ')
    && (text[c.end - 1] == ' ' || Forced(text, c))
  }

  method SplitLong(text: string, left: nat, right: nat, path: seq<string>) returns (pieces: seq<Chunk>, rest: nat)
    requires left < right <= |text|
    ensures left <= rest < right && right - rest <= PASSAGE_CHARS
    ensures Laid(text, left, rest, ChunkSpans(pieces))
    ensures forall k | 0 <= k < |pieces| :: Cut(text, pieces[k]) && pieces[k].path == path && left < pieces[k].end <= rest
    ensures right - left <= PASSAGE_CHARS ==> pieces == [] && rest == left
  {
    pieces, rest := [], left;
    while right - rest > PASSAGE_CHARS
      invariant left <= rest < right && Splits(text, left, rest, path, pieces)
      invariant right - left <= PASSAGE_CHARS ==> pieces == [] && rest == left
      decreases right - rest
    {
      var space := RFindSpace(text, rest + PASSAGE_CHARS / 2, rest + PASSAGE_CHARS);
      var stop := if space.Some? then space.value + 1 else rest + PASSAGE_CHARS;
      var piece := Chunk(rest, stop, path, false);
      SplitStep(text, left, rest, path, pieces, piece);
      pieces := pieces + [piece];
      rest := stop;
    }
  }

  /** The pieces cut so far lie end to end from `left` to `rest`. */
  ghost predicate Splits(text: string, left: nat, rest: nat, path: seq<string>, pieces: seq<Chunk>) {
    && Laid(text, left, rest, ChunkSpans(pieces))
    && (forall k | 0 <= k < |pieces| :: Cut(text, pieces[k]) && pieces[k].path == path && left < pieces[k].end <= rest)
  }

  lemma SplitStep(text: string, left: nat, rest: nat, path: seq<string>, pieces: seq<Chunk>, piece: Chunk)
    requires left <= rest && Splits(text, left, rest, path, pieces)
    requires Cut(text, piece) && piece.path == path && piece.start == rest < piece.end <= |text|
    ensures Splits(text, left, piece.end, path, pieces + [piece])
  {
    LaidPush(text, left, piece.end, ChunkSpans(pieces), Span(rest, piece.end));
    assert ChunkSpans(pieces + [piece]) == ChunkSpans(pieces) + [Span(rest, piece.end)];
  }

  // ------------------------------------------------------------------ emission

  /** What has been yielded plus the pending range, if there is one. */
  function WithPending(out: seq<Chunk>, pending: Option<Span>, path: seq<string>): seq<Chunk> {
    if pending.Some? then out + [Chunk(pending.value.start, pending.value.end, path, false)] else out
  }

  ghost predicate ChunkOk(text: string, groups: seq<Block>, path: seq<string>, c: Chunk) {
    && c.path == path
    && (c.oversized <==> c.end - c.start > PASSAGE_CHARS)
    && (Cut(text, c) || exists g :: 0 <= g < |groups| && groups[g].end == c.end)
  }

  /** A table group is a chunk of its own; a paragraph that fits is never cut. */
  ghost predicate Whole(all: seq<Chunk>, g: Block) {
    if g.table then exists k :: 0 <= k < |all| && all[k].start == g.start && all[k].end == g.end
    else g.end - g.start <= PASSAGE_CHARS ==> exists k :: 0 <= k < |all| && all[k].start <= g.start && g.end <= all[k].end
  }

  /** A chunk that ends with a paragraph could not have taken the next one. */
  ghost predicate Full(groups: seq<Block>, c: Chunk) {
    forall g | 0 <= g < |groups| - 1 && groups[g].end == c.end && !groups[g].table && !groups[g + 1].table ::
      groups[g + 1].end - c.start > PASSAGE_CHARS
  }

  /** The first `n` groups are emitted as `all`; with `open`, the last chunk is still pending. */
  ghost predicate Emitted(text: string, lo: nat, hi: nat, groups: seq<Block>, n: nat, path: seq<string>, all: seq<Chunk>, open: bool)
    requires n <= |groups|
  {
    && Laid(text, lo, Mark(BlockSpans(groups), n, hi), ChunkSpans(all))
    && (forall k | 0 <= k < |all| :: ChunkOk(text, groups, path, all[k]))
    && (forall g | 0 <= g < n :: Whole(all, groups[g]))
    && (forall k | 0 <= k < |all| - (if open then 1 else 0) :: Full(groups, all[k]))
    && (open ==> n > 0 && all != [] && !groups[n - 1].table)
    && (open ==> all[|all| - 1].end == groups[n - 1].end && !all[|all| - 1].oversized)
  }

  ghost predicate GroupsOk(text: string, lo: nat, hi: nat, groups: seq<Block>) {
    && Laid(text, lo, hi, BlockSpans(groups))
    && (forall i | 0 <= i < |groups| :: groups[i].start < groups[i].end)
    && (forall i, j | 0 <= i < j < |groups| :: groups[i].end <= groups[j].start)
  }

  lemma GroupsFromLaid(text: string, lo: nat, hi: nat, groups: seq<Block>)
    requires Laid(text, lo, hi, BlockSpans(groups))
    ensures GroupsOk(text, lo, hi, groups)
  {
    var spans := BlockSpans(groups);
    LaidMeans(text, lo, hi, spans);
    forall i | 0 <= i < |groups| ensures groups[i].start < groups[i].end {
      assert spans[i].start < spans[i].end;
    }
    forall i, j | 0 <= i < j < |groups| ensures groups[i].end <= groups[j].start {
      assert spans[i].end <= spans[j].start;
    }
  }

  lemma WholeGrows(all: seq<Chunk>, more: seq<Chunk>, g: Block)
    requires Whole(all, g) && |all| <= |more|
    requires forall k | 0 <= k < |all| :: more[k] == all[k]
    ensures Whole(more, g)
  {
    if g.table {
      var k :| 0 <= k < |all| && all[k].start == g.start && all[k].end == g.end;
      assert more[k] == all[k];
    } else if g.end - g.start <= PASSAGE_CHARS {
      var k :| 0 <= k < |all| && all[k].start <= g.start && g.end <= all[k].end;
      assert more[k] == all[k];
    }
  }

  lemma LaidNext(text: string, lo: nat, hi: nat, groups: seq<Block>, n: nat)
    requires GroupsOk(text, lo, hi, groups) && n < |groups|
    ensures Gap(text, groups[n].end, Mark(BlockSpans(groups), n + 1, hi))
    ensures groups[n].start < groups[n].end <= |text|
  {
    var spans := BlockSpans(groups);
    LaidSlice(text, lo, hi, spans, n, n + 1);
    assert spans[n..n + 1] == [spans[n]];
  }

  /** A pending range is closed when the next group cannot join it. */
  lemma ClosePending(text: string, lo: nat, hi: nat, groups: seq<Block>, n: nat, path: seq<string>, all: seq<Chunk>)
    requires GroupsOk(text, lo, hi, groups) && n <= |groups| && Emitted(text, lo, hi, groups, n, path, all, true)
    requires n < |groups| && !groups[n].table ==> groups[n].end - all[|all| - 1].start > PASSAGE_CHARS
    ensures Emitted(text, lo, hi, groups, n, path, all, false)
  {
    var last := all[|all| - 1];
    forall g | 0 <= g < |groups| - 1 && groups[g].end == last.end && !groups[g].table && !groups[g + 1].table
      ensures groups[g + 1].end - last.start > PASSAGE_CHARS
    {
      assert g == n - 1;
    }
  }

  lemma EmitTable(text: string, lo: nat, hi: nat, groups: seq<Block>, n: nat, path: seq<string>, all: seq<Chunk>)
    requires GroupsOk(text, lo, hi, groups) && n < |groups| && groups[n].table
    requires Emitted(text, lo, hi, groups, n, path, all, false)
    ensures var g := groups[n];
      Emitted(text, lo, hi, groups, n + 1, path, all + [Chunk(g.start, g.end, path, g.end - g.start > PASSAGE_CHARS)], false)
  {
    var g := groups[n];
    var c := Chunk(g.start, g.end, path, g.end - g.start > PASSAGE_CHARS);
    var more := all + [c];
    LaidNext(text, lo, hi, groups, n);
    LaidPush(text, lo, Mark(BlockSpans(groups), n + 1, hi), ChunkSpans(all), Span(g.start, g.end));
    assert ChunkSpans(more) == ChunkSpans(all) + [Span(g.start, g.end)];
    forall i | 0 <= i < n ensures Whole(more, groups[i]) { WholeGrows(all, more, groups[i]); }
    assert more[|all|] == c;
    forall i | 0 <= i < |groups| - 1 && groups[i].end == c.end ensures groups[i].table {
      assert i == n;
    }
  }

  /** Extending the pending range by the next paragraph keeps the layout. */
  lemma JoinLaid(text: string, lo: nat, hi: nat, groups: seq<Block>, n: nat, path: seq<string>, all: seq<Chunk>)
    requires GroupsOk(text, lo, hi, groups) && n < |groups| && all != []
    requires Laid(text, lo, Mark(BlockSpans(groups), n, hi), ChunkSpans(all)) && all[|all| - 1].end <= groups[n].end
    ensures Laid(text, lo, Mark(BlockSpans(groups), n + 1, hi),
                 ChunkSpans(all[..|all| - 1] + [Chunk(all[|all| - 1].start, groups[n].end, path, false)]))
  {
    var m := |all| - 1;
    var last := all[m];
    var spans := ChunkSpans(all);
    LaidNext(text, lo, hi, groups, n);
    LaidEnds(text, lo, Mark(BlockSpans(groups), n, hi), spans);
    assert spans == spans[..m] + [Span(last.start, last.end)];
    assert spans[m].start < spans[m].end;
    LaidReplaceLast(text, lo, Mark(BlockSpans(groups), n, hi), Mark(BlockSpans(groups), n + 1, hi),
                    spans[..m], Span(last.start, last.end), groups[n].end);
    assert ChunkSpans(all[..m] + [Chunk(last.start, groups[n].end, path, false)]) == spans[..m] + [Span(last.start, groups[n].end)];
  }

  lemma JoinPending(text: string, lo: nat, hi: nat, groups: seq<Block>, n: nat, path: seq<string>, all: seq<Chunk>)
    requires GroupsOk(text, lo, hi, groups) && n < |groups| && !groups[n].table
    requires Emitted(text, lo, hi, groups, n, path, all, true)
    requires groups[n].end - all[|all| - 1].start <= PASSAGE_CHARS
    ensures Emitted(text, lo, hi, groups, n + 1, path,
                    all[..|all| - 1] + [Chunk(all[|all| - 1].start, groups[n].end, path, false)], true)
  {
    var m := |all| - 1;
    var joined := Chunk(all[m].start, groups[n].end, path, false);
    var more := all[..m] + [joined];
    JoinLaid(text, lo, hi, groups, n, path, all);
    assert more[m] == joined;
    assert forall k | 0 <= k < m :: more[k] == all[k];
    forall i | 0 <= i <= n ensures Whole(more, groups[i]) {
      JoinWhole(groups, n, all, more, i);
    }
  }

  lemma JoinWhole(groups: seq<Block>, n: nat, all: seq<Chunk>, more: seq<Chunk>, i: nat)
    requires 0 < n < |groups| && i <= n && all != [] && |more| == |all| && !groups[n].table && !groups[n - 1].table
    requires forall a | 0 <= a < |groups| :: groups[a].start < groups[a].end
    requires forall a, b | 0 <= a < b < |groups| :: groups[a].end <= groups[b].start
    requires var m := |all| - 1;
      && (forall k | 0 <= k < m :: more[k] == all[k])
      && more[m].start == all[m].start && all[m].end == groups[n - 1].end && more[m].end == groups[n].end
      && all[m].start < all[m].end
    requires i < n ==> Whole(all, groups[i])
    ensures Whole(more, groups[i])
  {
    var m := |all| - 1;
    if i == n {
      assert more[m].start <= groups[n].start;
    } else if groups[i].table {
      var k :| 0 <= k < |all| && all[k].start == groups[i].start && all[k].end == groups[i].end;
      assert k != m;
      assert more[k] == all[k];
    } else if groups[i].end - groups[i].start <= PASSAGE_CHARS {
      var k :| 0 <= k < |all| && all[k].start <= groups[i].start && groups[i].end <= all[k].end;
      assert more[k].start == all[k].start && groups[i].end <= more[k].end;
    }
  }

  ghost predicate SplitOk(text: string, g: Block, path: seq<string>, pieces: seq<Chunk>, rest: nat) {
    && g.start <= rest < g.end && g.end - rest <= PASSAGE_CHARS
    && Laid(text, g.start, rest, ChunkSpans(pieces))
    && (forall k | 0 <= k < |pieces| :: Cut(text, pieces[k]) && pieces[k].path == path && g.start < pieces[k].end <= rest)
    && (g.end - g.start <= PASSAGE_CHARS ==> pieces == [] && rest == g.start)
  }

  lemma PiecesLaid(text: string, lo: nat, hi: nat, g: Block, path: seq<string>, all: seq<Chunk>, pieces: seq<Chunk>, rest: nat)
    requires SplitOk(text, g, path, pieces, rest)
    requires Laid(text, lo, g.start, ChunkSpans(all)) && Gap(text, g.end, hi)
    ensures Laid(text, lo, hi, ChunkSpans(all + pieces + [Chunk(rest, g.end, path, false)]))
  {
    LaidConcat(text, lo, g.start, rest, ChunkSpans(all), ChunkSpans(pieces));
    LaidPush(text, lo, hi, ChunkSpans(all) + ChunkSpans(pieces), Span(rest, g.end));
    assert ChunkSpans(all + pieces + [Chunk(rest, g.end, path, false)])
        == ChunkSpans(all) + ChunkSpans(pieces) + [Span(rest, g.end)];
  }

  lemma PiecesFull(text: string, lo: nat, hi: nat, groups: seq<Block>, n: nat, path: seq<string>, all: seq<Chunk>, pieces: seq<Chunk>, rest: nat)
    requires GroupsOk(text, lo, hi, groups) && n < |groups| && SplitOk(text, groups[n], path, pieces, rest)
    requires forall k | 0 <= k < |all| :: Full(groups, all[k])
    ensures forall k | 0 <= k < |all + pieces| :: Full(groups, (all + pieces)[k])
  {
    forall k | 0 <= k < |all + pieces| ensures Full(groups, (all + pieces)[k]) {
      if k >= |all| {
        CutIsInside(groups, n, pieces[k - |all|]);
      }
    }
  }

  lemma StartPending(text: string, lo: nat, hi: nat, groups: seq<Block>, n: nat, path: seq<string>, all: seq<Chunk>, pieces: seq<Chunk>, rest: nat)
    requires GroupsOk(text, lo, hi, groups) && n < |groups| && !groups[n].table
    requires Emitted(text, lo, hi, groups, n, path, all, false)
    requires SplitOk(text, groups[n], path, pieces, rest)
    ensures Emitted(text, lo, hi, groups, n + 1, path, all + pieces + [Chunk(rest, groups[n].end, path, false)], true)
  {
    var last := Chunk(rest, groups[n].end, path, false);
    var more := all + pieces + [last];
    LaidNext(text, lo, hi, groups, n);
    PiecesLaid(text, lo, Mark(BlockSpans(groups), n + 1, hi), groups[n], path, all, pieces, rest);
    PiecesFull(text, lo, hi, groups, n, path, all, pieces, rest);
    forall i | 0 <= i < n ensures Whole(more, groups[i]) { WholeGrows(all, more, groups[i]); }
    assert more[|all| + |pieces|] == last;
    forall k | 0 <= k < |more| - 1 ensures Full(groups, more[k]) {
      assert more[k] == (all + pieces)[k];
    }
  }

  lemma CutIsInside(groups: seq<Block>, n: nat, piece: Chunk)
    requires n < |groups| && groups[n].start < piece.end < groups[n].end
    requires forall a, b | 0 <= a < b < |groups| :: groups[a].end <= groups[b].start
    requires forall a | 0 <= a < |groups| :: groups[a].start < groups[a].end
    ensures Full(groups, piece)
  {
    forall g | 0 <= g < |groups| ensures groups[g].end != piece.end {
      if g > n {
        assert groups[n].end <= groups[g].start;
      }
    }
  }

  /** The yielding loop of one section. */
  method Emit(text: string, lo: nat, hi: nat, groups: seq<Block>, path: seq<string>) returns (out: seq<Chunk>)
    requires lo <= hi <= |text| && Laid(text, lo, hi, BlockSpans(groups))
    ensures Emitted(text, lo, hi, groups, |groups|, path, out, false)
  {
    GroupsFromLaid(text, lo, hi, groups);
    LaidPrefix(text, lo, hi, BlockSpans(groups), 0);
    out := [];
    var pending: Option<Span> := None;
    for n := 0 to |groups|
      invariant Emitted(text, lo, hi, groups, n, path, WithPending(out, pending, path), pending.Some?)
    {
      ghost var all := WithPending(out, pending, path);
      var left, right := groups[n].start, groups[n].end;
      if groups[n].table {
        if pending.Some? {
          ClosePending(text, lo, hi, groups, n, path, all);
          out := out + [Chunk(pending.value.start, pending.value.end, path, false)];
          pending := None;
        }
        EmitTable(text, lo, hi, groups, n, path, out);
        out := out + [Chunk(left, right, path, right - left > PASSAGE_CHARS)];
      } else if pending.Some? && right - pending.value.start <= PASSAGE_CHARS {
        JoinPending(text, lo, hi, groups, n, path, all);
        assert all[..|all| - 1] == out;
        pending := Some(Span(pending.value.start, right));
      } else {
        if pending.Some? {
          ClosePending(text, lo, hi, groups, n, path, all);
          out := out + [Chunk(pending.value.start, pending.value.end, path, false)];
          pending := None;
        }
        LaidNext(text, lo, hi, groups, n);
        var pieces, rest := SplitLong(text, left, right, path);
        StartPending(text, lo, hi, groups, n, path, out, pieces, rest);
        out := out + pieces;
        pending := Some(Span(rest, right));
      }
    }
    if pending.Some? {
      ClosePending(text, lo, hi, groups, |groups|, path, WithPending(out, pending, path));
      out := out + [Chunk(pending.value.start, pending.value.end, path, false)];
    }
  }

  // ------------------------------------------------------------------ sections and the whole text

  predicate InTable(tables: seq<Span>, at: nat) {
    exists i :: 0 <= i < |tables| && tables[i].start <= at < tables[i].end
  }

  /** Headings that lie in a table are not headings. */
  function Kept(found: seq<Heading>, tables: seq<Span>): (r: seq<Heading>)
    ensures forall h :: h in r <==> h in found && !InTable(tables, h.start)
  {
    if found == [] then []
    else if InTable(tables, found[|found| - 1].start) then Kept(found[..|found| - 1], tables)
    else Kept(found[..|found| - 1], tables) + [found[|found| - 1]]
  }

  lemma {:induction false} KeptOrdered(found: seq<Heading>, tables: seq<Span>, length: nat)
    requires Ordered(found, length)
    ensures Ordered(Kept(found, tables), length)
  {
    if found != [] {
      var init := found[..|found| - 1];
      KeptOrdered(init, tables, length);
      var r := Kept(init, tables);
      forall i | 0 <= i < |r| ensures r[i].start < found[|found| - 1].start {
        assert r[i] in init;
      }
    }
  }

  function TablesOf(tables: seq<Span>, lo: nat, hi: nat): (r: seq<Span>)
    ensures forall t :: t in r <==> t in tables && lo <= t.start && t.end <= hi
  {
    if tables == [] then []
    else
      var rest := TablesOf(tables[..|tables| - 1], lo, hi);
      var t := tables[|tables| - 1];
      if lo <= t.start && t.end <= hi then rest + [t] else rest
  }

  lemma {:induction false} TablesOfIn(tables: seq<Span>, lo: nat, hi: nat, length: nat)
    requires TablesIn(tables, 0, length) && lo <= hi
    ensures TablesIn(TablesOf(tables, lo, hi), lo, hi)
  {
    if tables != [] {
      var init := tables[..|tables| - 1];
      TablesOfIn(init, lo, hi, length);
      var r := TablesOf(init, lo, hi);
      forall i | 0 <= i < |r| ensures r[i].end <= tables[|tables| - 1].start && r[i].start < r[i].end {
        assert r[i] in init;
      }
    }
  }

  function Titles(hs: seq<Heading>, path: seq<nat>): (r: seq<string>)
    requires Below(path, |hs|)
  {
    seq(|path|, i requires 0 <= i < |path| => hs[path[i]].title)
  }

  function SectionStart(hs: seq<Heading>, i: nat): nat requires i <= |hs| { if i == 0 then 0 else hs[i - 1].start }
  function SectionEnd(hs: seq<Heading>, i: nat, length: nat): nat { if i < |hs| then hs[i].start else length }

  /** Section `i` of a text: what precedes the first heading, or heading `i - 1` up to the next heading. */
  function SectionAt(hs: seq<Heading>, i: nat, length: nat): Section
    requires i <= |hs|
  {
    Section(SectionStart(hs, i), SectionEnd(hs, i, length), Titles(hs, FilteredPath(hs, i)))
  }

  method Sections(hs: seq<Heading>, length: nat) returns (sections: seq<Section>)
    requires Ordered(hs, length)
    ensures |sections| == |hs| + 1
    ensures forall i | 0 <= i <= |hs| :: sections[i] == SectionAt(hs, i, length)
  {
    sections := [Section(0, if hs != [] then hs[0].start else length, [])];
    var path: seq<nat> := [];
    for index := 0 to |hs|
      invariant |sections| == index + 1 && Below(path, index) && path == FilteredPath(hs, index)
      invariant forall i | 0 <= i <= index :: sections[i] == SectionAt(hs, i, length)
    {
      path := Above(hs, index, path, hs[index].level) + [index];
      assert path == FilteredPath(hs, index + 1);
      var end := SectionEnd(hs, index + 1, length);
      var section := Section(hs[index].start, end, Titles(hs, path));
      assert section == SectionAt(hs, index + 1, length);
      sections := sections + [section];
    }
  }

  ghost predicate ChunkFits(section: Section, c: Chunk) {
    && section.start <= c.start < c.end <= section.end
    && c.path == section.path
    && (c.oversized <==> c.end - c.start > PASSAGE_CHARS)
  }

  /** One chunk holds block `t` together with its neighbours. */
  ghost predicate Together(blocks: seq<Block>, t: nat, out: seq<Chunk>)
    requires t < |blocks|
  {
    exists k :: 0 <= k < |out|
      && out[k].start <= blocks[LeftOf(t)].start && blocks[RightOf(t, |blocks|)].end <= out[k].end
  }

  ghost predicate SectionOk(text: string, section: Section, tables: seq<Span>, blocks: seq<Block>, out: seq<Chunk>)
    requires section.end <= |text|
  {
    && BlocksOk(text, section.start, section.end, tables, blocks)
    && Laid(text, section.start, section.end, ChunkSpans(out))
    && (forall k | 0 <= k < |out| :: ChunkFits(section, out[k]))
    && (forall t | 0 <= t < |blocks| && blocks[t].table :: Together(blocks, t, out))
  }

  lemma MergedHolds(blocks: seq<Block>, r: Range, t: nat)
    requires forall i, j | 0 <= i < j < |blocks| :: blocks[i].end <= blocks[j].start
    requires forall i | 0 <= i < |blocks| :: blocks[i].start < blocks[i].end
    requires t < |blocks| && r.left <= LeftOf(t) && RightOf(t, |blocks|) <= r.right < |blocks|
    ensures Merged(blocks, r).start <= blocks[LeftOf(t)].start
    ensures blocks[RightOf(t, |blocks|)].end <= Merged(blocks, r).end
  {
  }

  lemma TableTogether(blocks: seq<Block>, rs: seq<Range>, groups: seq<Block>, out: seq<Chunk>, t: nat, k: nat)
    requires forall i, j | 0 <= i < j < |blocks| :: blocks[i].end <= blocks[j].start
    requires forall i | 0 <= i < |blocks| :: blocks[i].start < blocks[i].end
    requires t < |blocks| && k < |rs| && rs[k].left <= LeftOf(t) && RightOf(t, |blocks|) <= rs[k].right < |blocks|
    requires Merged(blocks, rs[k]) in groups
    requires forall g | 0 <= g < |groups| :: Whole(out, groups[g])
    ensures Together(blocks, t, out)
  {
    MergedHolds(blocks, rs[k], t);
    var g :| 0 <= g < |groups| && groups[g] == Merged(blocks, rs[k]);
    assert Whole(out, groups[g]);
    var c :| 0 <= c < |out| && out[c].start == groups[g].start && out[c].end == groups[g].end;
    assert out[c].start <= blocks[LeftOf(t)].start && blocks[RightOf(t, |blocks|)].end <= out[c].end;
  }

  lemma TablesTogether(text: string, section: Section, blocks: seq<Block>, rs: seq<Range>, groups: seq<Block>, out: seq<Chunk>)
    requires Laid(text, section.start, section.end, BlockSpans(blocks))
    requires RangesOk(rs, blocks) && TablesWithin(rs, blocks, |blocks|)
    requires forall k | 0 <= k < |rs| :: Merged(blocks, rs[k]) in groups
    requires forall g | 0 <= g < |groups| :: Whole(out, groups[g])
    ensures forall t | 0 <= t < |blocks| && blocks[t].table :: Together(blocks, t, out)
  {
    GroupsFromLaid(text, section.start, section.end, blocks);
    forall t | 0 <= t < |blocks| && blocks[t].table ensures Together(blocks, t, out) {
      assert Within(rs, LeftOf(t), RightOf(t, |blocks|));
      var k :| 0 <= k < |rs| && rs[k].left <= LeftOf(t) && RightOf(t, |blocks|) <= rs[k].right;
      TableTogether(blocks, rs, groups, out, t, k);
    }
  }

  lemma EmittedFits(text: string, section: Section, groups: seq<Block>, out: seq<Chunk>)
    requires Emitted(text, section.start, section.end, groups, |groups|, section.path, out, false)
    ensures Laid(text, section.start, section.end, ChunkSpans(out))
    ensures forall k | 0 <= k < |out| :: ChunkFits(section, out[k])
  {
    LaidEnds(text, section.start, section.end, ChunkSpans(out));
    forall k | 0 <= k < |out| ensures ChunkFits(section, out[k]) {
      assert ChunkOk(text, groups, section.path, out[k]);
      assert ChunkSpans(out)[k] == Span(out[k].start, out[k].end);
    }
  }

  // ------------------------------------------------------------------ where ranges end

  /** A place where a block of the range up to `hi` ends: there, before whitespace, or at a table's edge. */
  ghost predicate BlockEdge(text: string, hi: nat, tables: seq<Span>, e: nat) {
    e == hi || (e < |text| && IsSpace(text[e])) || exists i :: 0 <= i < |tables| && (tables[i].start == e || tables[i].end == e)
  }

  lemma BlocksEnd(text: string, lo: nat, hi: nat, tables: seq<Span>, blocks: seq<Block>, b: Block)
    requires hi <= |text| && BlocksOk(text, lo, hi, tables, blocks) && b in blocks
    ensures BlockEdge(text, hi, tables, b.end)
  {
    var i :| 0 <= i < |blocks| && blocks[i] == b;
    assert BlockOk(text, hi, tables, blocks[i]);
    if b.table {
      var t :| 0 <= t < |tables| && tables[t] == Span(b.start, b.end);
    } else {
      var e: nat :| EndsParagraph(text, hi, tables, b, e);
    }
  }

  lemma GroupsEnd(text: string, lo: nat, hi: nat, tables: seq<Span>, blocks: seq<Block>, rs: seq<Range>, groups: seq<Block>, g: nat)
    requires hi <= |text| && BlocksOk(text, lo, hi, tables, blocks) && RangesOk(rs, blocks) && g < |groups| && GroupOk(blocks, rs, groups[g])
    ensures BlockEdge(text, hi, tables, groups[g].end)
  {
    if groups[g].table {
      var k :| 0 <= k < |rs| && rs[k].left < |blocks| && rs[k].right < |blocks| && groups[g] == Merged(blocks, rs[k]);
      BlocksEnd(text, lo, hi, tables, blocks, blocks[rs[k].right]);
    } else {
      BlocksEnd(text, lo, hi, tables, blocks, groups[g]);
    }
  }

  /** A range ends at a block's edge, after a space, or by a forced cut. */
  ghost predicate EndOk(text: string, hi: nat, tables: seq<Span>, c: Chunk) {
    0 < c.end <= |text| && (Forced(text, c) || text[c.end - 1] == ' ' || BlockEdge(text, hi, tables, c.end))
  }

  lemma EmittedEnd(text: string, section: Section, tables: seq<Span>, blocks: seq<Block>, rs: seq<Range>, groups: seq<Block>, out: seq<Chunk>, k: nat)
    requires section.end <= |text| && BlocksOk(text, section.start, section.end, tables, blocks) && RangesOk(rs, blocks)
    requires forall g | 0 <= g < |groups| :: GroupOk(blocks, rs, groups[g])
    requires k < |out| && ChunkOk(text, groups, section.path, out[k]) && 0 < out[k].end <= |text|
    ensures EndOk(text, section.end, tables, out[k])
  {
    if !Cut(text, out[k]) {
      var g :| 0 <= g < |groups| && groups[g].end == out[k].end;
      GroupsEnd(text, section.start, section.end, tables, blocks, rs, groups, g);
    }
  }

  /** The same over the whole text, whose sections end at kept headings. */
  ghost predicate EndsWell(text: string, hs: seq<Heading>, tables: seq<Span>, c: Chunk) {
    && 0 < c.end <= |text|
    && (Forced(text, c) || IsSpace(text[c.end - 1]) || BlockEdge(text, |text|, tables, c.end)
        || exists h :: 0 <= h < |hs| && hs[h].start == c.end)
  }

  lemma SectionEndsWell(text: string, hs: seq<Heading>, tables: seq<Span>, i: nat, c: Chunk)
    requires i <= |hs|
    requires var section := SectionAt(hs, i, |text|); EndOk(text, section.end, TablesOf(tables, section.start, section.end), c)
    ensures EndsWell(text, hs, tables, c)
  {
    var section := SectionAt(hs, i, |text|);
    var inside := TablesOf(tables, section.start, section.end);
    if t :| 0 <= t < |inside| && (inside[t].start == c.end || inside[t].end == c.end) {
      assert inside[t] in tables;
      var u :| 0 <= u < |tables| && tables[u] == inside[t];
      assert tables[u].start == c.end || tables[u].end == c.end;
    }
    if i < |hs| {
      assert hs[i].start == section.end;
    }
  }

  ghost predicate AllEndOk(text: string, section: Section, tables: seq<Span>, out: seq<Chunk>) {
    forall k | 0 <= k < |out| :: EndOk(text, section.end, tables, out[k])
  }

  ghost predicate AllEndWell(text: string, hs: seq<Heading>, tables: seq<Span>, out: seq<Chunk>) {
    forall k | 0 <= k < |out| :: EndsWell(text, hs, tables, out[k])
  }

  lemma AddEnds(text: string, hs: seq<Heading>, tables: seq<Span>, i: nat, out: seq<Chunk>, section: Section, more: seq<Chunk>)
    requires i <= |hs| && AllEndWell(text, hs, tables, out) && section == SectionAt(hs, i, |text|)
    requires AllEndOk(text, section, TablesOf(tables, section.start, section.end), more)
    ensures AllEndWell(text, hs, tables, out + more)
  {
    forall k | 0 <= k < |out + more| ensures EndsWell(text, hs, tables, (out + more)[k]) {
      if k >= |out| {
        SectionEndsWell(text, hs, tables, i, more[k - |out|]);
      }
    }
  }

  method ChunkSection(text: string, section: Section, tables: seq<Span>) returns (out: seq<Chunk>, ghost blocks: seq<Block>)
    requires section.start <= section.end <= |text| && TablesIn(tables, section.start, section.end)
    ensures SectionOk(text, section, tables, blocks, out)
    ensures AllEndOk(text, section, tables, out)
  {
    var parts := Blocks(text, section.start, section.end, tables);
    var protected := Protect(parts);
    var groups := Groups(text, section.start, section.end, parts, protected);
    assert Mark(BlockSpans(parts), |parts|, section.end) == section.end;
    out := Emit(text, section.start, section.end, groups, section.path);
    blocks := parts;
    EmittedFits(text, section, groups, out);
    TablesTogether(text, section, parts, protected, groups, out);
    forall k | 0 <= k < |out| ensures EndOk(text, section.end, tables, out[k]) {
      EmittedEnd(text, section, tables, parts, protected, groups, out, k);
    }
  }

  ghost predicate ChunkInSection(hs: seq<Heading>, length: nat, n: nat, c: Chunk)
    requires n <= |hs| + 1
  {
    exists i :: 0 <= i < n && ChunkFits(SectionAt(hs, i, length), c)
  }

  /** `blocks[i]` is the layout of section `i`; its tables stay with their neighbours. */
  ghost predicate SectionDone(text: string, hs: seq<Heading>, tables: seq<Span>, i: nat, blocks: seq<Block>, out: seq<Chunk>)
    requires i <= |hs| && Ordered(hs, |text|)
  {
    var section := SectionAt(hs, i, |text|);
    && section.end <= |text|
    && BlocksOk(text, section.start, section.end, TablesOf(tables, section.start, section.end), blocks)
    && (forall t | 0 <= t < |blocks| && blocks[t].table :: Together(blocks, t, out))
  }

  lemma DoneGrows(text: string, hs: seq<Heading>, tables: seq<Span>, i: nat, blocks: seq<Block>, out: seq<Chunk>, all: seq<Chunk>)
    requires i <= |hs| && Ordered(hs, |text|) && SectionDone(text, hs, tables, i, blocks, out)
    requires forall c | c in out :: c in all
    ensures SectionDone(text, hs, tables, i, blocks, all)
  {
    forall t | 0 <= t < |blocks| && blocks[t].table ensures Together(blocks, t, all) {
      var k :| 0 <= k < |out|
        && out[k].start <= blocks[LeftOf(t)].start && blocks[RightOf(t, |blocks|)].end <= out[k].end;
      assert out[k] in all;
    }
  }

  lemma JoinLayouts(text: string, mid: nat, hi: nat, out: seq<Chunk>, more: seq<Chunk>)
    requires Laid(text, 0, mid, ChunkSpans(out)) && Laid(text, mid, hi, ChunkSpans(more))
    ensures Laid(text, 0, hi, ChunkSpans(out + more))
  {
    LaidConcat(text, 0, mid, hi, ChunkSpans(out), ChunkSpans(more));
    assert ChunkSpans(out + more) == ChunkSpans(out) + ChunkSpans(more);
  }

  lemma InSectionGrows(hs: seq<Heading>, length: nat, n: nat, c: Chunk)
    requires n <= |hs| && ChunkInSection(hs, length, n, c)
    ensures ChunkInSection(hs, length, n + 1, c)
  {
    var i :| 0 <= i < n && ChunkFits(SectionAt(hs, i, length), c);
  }

  lemma AddSection(text: string, hs: seq<Heading>, i: nat, out: seq<Chunk>, more: seq<Chunk>)
    requires i <= |hs|
    requires forall k | 0 <= k < |out| :: ChunkInSection(hs, |text|, i, out[k])
    requires forall k | 0 <= k < |more| :: ChunkFits(SectionAt(hs, i, |text|), more[k])
    ensures forall k | 0 <= k < |out + more| :: ChunkInSection(hs, |text|, i + 1, (out + more)[k])
  {
    forall k | 0 <= k < |out + more| ensures ChunkInSection(hs, |text|, i + 1, (out + more)[k]) {
      if k < |out| {
        InSectionGrows(hs, |text|, i, out[k]);
      } else {
        assert ChunkFits(SectionAt(hs, i, |text|), more[k - |out|]);
      }
    }
  }

  function Boundary(hs: seq<Heading>, i: nat, length: nat): nat { if i <= |hs| then SectionStart(hs, i) else length }

  /** The first `i` sections are chunked. */
  ghost predicate Progress(text: string, hs: seq<Heading>, tables: seq<Span>, i: nat, out: seq<Chunk>, blocks: seq<seq<Block>>)
    requires i <= |hs| + 1 && Ordered(hs, |text|)
  {
    && |blocks| == i
    && Laid(text, 0, Boundary(hs, i, |text|), ChunkSpans(out))
    && (forall k | 0 <= k < |out| :: ChunkInSection(hs, |text|, i, out[k]))
    && (forall j | 0 <= j < i :: SectionDone(text, hs, tables, j, blocks[j], out))
  }

  lemma DoneSteps(text: string, hs: seq<Heading>, tables: seq<Span>, i: nat, out: seq<Chunk>, blocks: seq<seq<Block>>, more: seq<Chunk>, parts: seq<Block>)
    requires i <= |hs| && Ordered(hs, |text|) && |blocks| == i
    requires forall j | 0 <= j < i :: SectionDone(text, hs, tables, j, blocks[j], out)
    requires SectionDone(text, hs, tables, i, parts, more)
    ensures forall j | 0 <= j < i + 1 :: SectionDone(text, hs, tables, j, (blocks + [parts])[j], out + more)
  {
    forall j | 0 <= j < i + 1 ensures SectionDone(text, hs, tables, j, (blocks + [parts])[j], out + more) {
      if j < i {
        DoneGrows(text, hs, tables, j, blocks[j], out, out + more);
      } else {
        DoneGrows(text, hs, tables, i, parts, more, out + more);
      }
    }
  }

  lemma ProgressStep(text: string, hs: seq<Heading>, tables: seq<Span>, i: nat, out: seq<Chunk>, blocks: seq<seq<Block>>, section: Section, more: seq<Chunk>, parts: seq<Block>)
    requires i <= |hs| && Ordered(hs, |text|) && Progress(text, hs, tables, i, out, blocks)
    requires section == SectionAt(hs, i, |text|) && section.end <= |text|
    requires SectionOk(text, section, TablesOf(tables, section.start, section.end), parts, more)
    ensures Progress(text, hs, tables, i + 1, out + more, blocks + [parts])
  {
    JoinLayouts(text, section.start, section.end, out, more);
    AddSection(text, hs, i, out, more);
    DoneSteps(text, hs, tables, i, out, blocks, more, parts);
  }

  /**
    `_chunks`: for every text the ranges are nonempty, ordered, disjoint, cover each character
    that is not whitespace exactly once, stay inside one section and carry its heading path, are
    longer than the limit exactly when flagged, and keep each table with its neighbours.
   */
  method Chunks(text: string, tables: seq<Span>, found: seq<Heading>) returns (out: seq<Chunk>, ghost blocks: seq<seq<Block>>)
    requires TablesIn(tables, 0, |text|) && Ordered(found, |text|)
    ensures Ordered(Kept(found, tables), |text|)
    ensures Progress(text, Kept(found, tables), tables, |Kept(found, tables)| + 1, out, blocks)
    ensures Laid(text, 0, |text|, ChunkSpans(out))
    ensures PassesRangeCheck(ChunkSpans(out), 0, |text|)
    ensures AllEndWell(text, Kept(found, tables), tables, out)
  {
    var headings := Kept(found, tables);
    KeptOrdered(found, tables, |text|);
    var sections := Sections(headings, |text|);
    out, blocks := [], [];
    assert Laid(text, 0, 0, ChunkSpans(out));
    for i := 0 to |sections|
      invariant Progress(text, headings, tables, i, out, blocks)
      invariant AllEndWell(text, headings, tables, out)
    {
      var section := sections[i];
      SectionBounds(headings, i, |text|);
      TablesOfIn(tables, section.start, section.end, |text|);
      ghost var parts;
      var more;
      more, parts := ChunkSection(text, section, TablesOf(tables, section.start, section.end));
      ProgressStep(text, headings, tables, i, out, blocks, section, more, parts);
      AddEnds(text, headings, tables, i, out, section, more);
      out := out + more;
      blocks := blocks + [parts];
    }
    AllDone(text, headings, tables, out, blocks);
  }

  lemma SectionBounds(hs: seq<Heading>, i: nat, length: nat)
    requires i <= |hs| && Ordered(hs, length)
    ensures SectionAt(hs, i, length).start <= SectionAt(hs, i, length).end <= length
  {
  }

  lemma AllDone(text: string, hs: seq<Heading>, tables: seq<Span>, out: seq<Chunk>, blocks: seq<seq<Block>>)
    requires Ordered(hs, |text|) && Progress(text, hs, tables, |hs| + 1, out, blocks)
    ensures Laid(text, 0, |text|, ChunkSpans(out)) && PassesRangeCheck(ChunkSpans(out), 0, |text|)
  {
    LaidMeans(text, 0, |text|, ChunkSpans(out));
    OrderedPass(ChunkSpans(out), 0, |text|);
  }

  /** No kept heading lies inside a table, so every table lies in the section it starts in. */
  lemma TableStaysInSection(text: string, tables: seq<Span>, found: seq<Heading>, t: Span, i: nat)
    requires TablesIn(tables, 0, |text|) && Ordered(found, |text|) && t in tables
    requires i <= |Kept(found, tables)|
    requires var hs := Kept(found, tables); SectionStart(hs, i) <= t.start < SectionEnd(hs, i, |text|)
    ensures var hs := Kept(found, tables); t in TablesOf(tables, SectionStart(hs, i), SectionEnd(hs, i, |text|))
  {
    var hs := Kept(found, tables);
    if i < |hs| {
      assert hs[i] in hs;
    }
  }

  lemma SectionCrossesNothing(hs: seq<Heading>, length: nat, s: nat, c: Chunk, h: nat)
    requires Ordered(hs, length) && s <= |hs| && h < |hs|
    requires SectionStart(hs, s) <= c.start < c.end <= SectionEnd(hs, s, length)
    ensures !(c.start < hs[h].start < c.end)
  {
    if h < s - 1 {
      assert hs[h].start < hs[s - 1].start;
    } else if s < h {
      assert hs[s].start < hs[h].start;
    }
  }

  /** No range crosses a kept heading, and exactly the long ones are flagged. */
  lemma ChunkCrossesNothing(hs: seq<Heading>, length: nat, c: Chunk, h: nat)
    requires Ordered(hs, length) && ChunkInSection(hs, length, |hs| + 1, c) && h < |hs|
    ensures !(c.start < hs[h].start < c.end)
    ensures c.oversized <==> c.end - c.start > PASSAGE_CHARS
  {
    var s :| 0 <= s < |hs| + 1 && ChunkFits(SectionAt(hs, s, length), c);
    SectionCrossesNothing(hs, length, s, c, h);
  }

  predicate Holds(c: Chunk, k: int) { c.start <= k < c.end }

  /** Every visible character is in exactly one range. */
  lemma ChunksCover(text: string, out: seq<Chunk>, k: nat)
    requires Laid(text, 0, |text|, ChunkSpans(out))
    requires k < |text| && !IsSpace(text[k])
    ensures exists i :: 0 <= i < |out| && Holds(out[i], k)
    ensures forall i, j | 0 <= i < |out| && 0 <= j < |out| && Holds(out[i], k) && Holds(out[j], k) :: i == j
  {
    var spans := ChunkSpans(out);
    LaidMeans(text, 0, |text|, spans);
    var i :| 0 <= i < |spans| && spans[i].start <= k < spans[i].end;
    assert Holds(out[i], k);
    forall a, b | 0 <= a < |out| && 0 <= b < |out| && Holds(out[a], k) && Holds(out[b], k) ensures a == b {
      assert spans[a] == Span(out[a].start, out[a].end) && spans[b] == Span(out[b].start, out[b].end);
    }
  }
}
