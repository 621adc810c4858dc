/**
  Coverage windows over the ranges the passage index stores: which of their ends can cut a word.
  Hits of a search are such ranges, and the window reads the same text with its letters folded.
 */
module IndexedHits {
  import opened Layout
  import H = Headings
  import P = PassageChunks
  import W = CoverageWindow

  /** Case folding character by character: whitespace and the marks of headings and tables stay outside words. */
  ghost predicate Folded(text: string, folded: string) {
    && |folded| == |text|
    && forall i | 0 <= i < |text| && (IsSpace(text[i]) || text[i] == '#' || text[i] == '{') :: !W.Wordy(folded[i])
  }

  /** What the two patterns match: a heading starts with its marks, a table with its brace, and a table ends with its line. */
  ghost predicate Marked(text: string, tables: seq<Span>, found: seq<H.Heading>) {
    && (forall h | h in found :: h.start < |text| && text[h.start] == '#')
    && (forall t | t in tables ::
          t.start < |text| && text[t.start] == '{' && t.end <= |text| && (t.end < |text| ==> text[t.end] == '\n'))
  }

  /** What chunking a text ensures of its ranges. */
  ghost predicate Chunked(text: string, tables: seq<Span>, found: seq<H.Heading>, out: seq<P.Chunk>) {
    Laid(text, 0, |text|, P.ChunkSpans(out)) && P.AllEndWell(text, P.Kept(found, tables), tables, out)
  }

  lemma EndIsClean(text: string, folded: string, tables: seq<Span>, found: seq<H.Heading>, c: P.Chunk)
    requires Folded(text, folded) && Marked(text, tables, found)
    requires P.EndsWell(text, P.Kept(found, tables), tables, c) && !P.Forced(text, c)
    ensures W.CleanCut(folded, c.end)
  {
    var hs := P.Kept(found, tables);
    if h :| 0 <= h < |hs| && hs[h].start == c.end {
      assert hs[h] in found;
    } else if t :| 0 <= t < |tables| && (tables[t].start == c.end || tables[t].end == c.end) {
      assert tables[t] in tables;
    }
  }

  /** Only whitespace lies between a range and the one before it, or the start of the text. */
  lemma GapBefore(text: string, out: seq<P.Chunk>, k: nat)
    requires Laid(text, 0, |text|, P.ChunkSpans(out)) && k < |out|
    ensures Gap(text, if k == 0 then 0 else out[k - 1].end, out[k].start)
  {
    var spans := P.ChunkSpans(out);
    if k == 0 {
      LaidPrefix(text, 0, |text|, spans, 0);
      assert spans[..0] == [];
    } else {
      LaidSlice(text, 0, |text|, spans, k - 1, k);
      assert spans[k - 1..k] == [spans[k - 1]];
    }
  }

  /** The range before ends at this one's start by a forced cut. */
  ghost predicate ForcedStart(text: string, out: seq<P.Chunk>, k: nat)
    requires k < |out|
  {
    k > 0 && out[k - 1].end <= |text| && out[k - 1].end == out[k].start && P.Forced(text, out[k - 1])
  }

  ghost predicate ForcedEnd(text: string, out: seq<P.Chunk>, k: nat)
    requires k < |out|
  {
    out[k].end <= |text| && P.Forced(text, out[k])
  }

  lemma StartIsClean(text: string, folded: string, tables: seq<Span>, found: seq<H.Heading>, out: seq<P.Chunk>, k: nat)
    requires Folded(text, folded) && Marked(text, tables, found) && Chunked(text, tables, found, out) && k < |out|
    requires !ForcedStart(text, out, k)
    ensures out[k].start <= |folded| && W.CleanCut(folded, out[k].start)
  {
    GapBefore(text, out, k);
    if k > 0 && out[k - 1].end == out[k].start {
      assert P.EndsWell(text, P.Kept(found, tables), tables, out[k - 1]);
      EndIsClean(text, folded, tables, found, out[k - 1]);
    } else if out[k].start > 0 {
      assert IsSpace(text[out[k].start - 1]);
    }
  }

  /** A stored range that neither starts nor ends at a forced cut keeps its query terms in every window around it. */
  lemma UncutHitKeepsTerms(text: string, folded: string, tables: seq<Span>, found: seq<H.Heading>, out: seq<P.Chunk>, k: nat,
                           focus: set<string>, window: W.Window)
    requires Folded(text, folded) && Marked(text, tables, found) && Chunked(text, tables, found, out) && k < |out|
    requires !ForcedStart(text, out, k) && !ForcedEnd(text, out, k)
    requires window.start <= out[k].start < out[k].end <= window.end <= |folded|
    ensures W.Terms(folded, focus, out[k].start, out[k].end) <= W.Terms(folded, focus, window.start, window.end)
  {
    StartIsClean(text, folded, tables, found, out, k);
    assert P.EndsWell(text, P.Kept(found, tables), tables, out[k]);
    EndIsClean(text, folded, tables, found, out[k]);
    W.WordsGrow(folded, window.start, out[k].start, out[k].end, window.end);
  }

  // ------------------------------------------------------------------ a forced cut loses a term

  /** A word of 1799 letters after a short one: no space in the second half of a range's limit. */
  predicate Long(text: string) {
    && |text| == 1801 && text[0] == 'x' && text[1] == ' ' && text[1800] == 'b'
    && forall k | 2 <= k < 1800 :: text[k] == 'a'
  }

  function LongText(): (text: string)
    ensures Long(text)
  {
    "x " + seq(1798, _ => 'a') + "b"
  }

  lemma {:induction false} RunEnds(text: string, i: nat, hi: nat)
    requires i < hi <= |text| && forall k | i <= k < hi :: W.IsAlnum(text[k])
    ensures W.WordEnd(text, i, hi) == hi
    decreases hi - i
  {
    if i + 1 < hi {
      RunEnds(text, i + 1, hi);
    }
  }

  lemma StartsWithX(text: string, hi: nat)
    requires 2 < hi <= |text| && text[0] == 'x' && text[1] == ' '
    ensures W.Words(text, 0, hi) == {"x"} + W.Words(text, 2, hi)
  {
    assert W.WordEnd(text, 0, hi) == 1 && text[0..1] == "x";
    assert W.Words(text, 1, hi) == W.Words(text, 2, hi);
  }

  lemma OneLongWord(text: string, lo: nat, hi: nat)
    requires lo + 1 < hi <= |text| && (forall k | lo <= k < hi :: W.IsAlnum(text[k])) && text[hi - 1] == 'b'
    ensures "b" !in W.Words(text, lo, hi) && "x" !in W.Words(text, lo, hi)
  {
    RunEnds(text, lo, hi);
    assert W.Words(text, lo, hi) == {W.Stem(text[lo..hi])} + W.Words(text, hi, hi);
    assert |W.Stem(text[lo..hi])| > 1;
  }

  lemma LongWord(text: string, lo: nat, hi: nat)
    requires Long(text) && lo == 2 && hi == 1801
    ensures "b" !in W.Words(text, lo, hi)
  {
    assert forall k | lo <= k < hi :: W.IsAlnum(text[k]);
    OneLongWord(text, lo, hi);
  }

  lemma LastLetter(text: string)
    requires Long(text)
    ensures W.Words(text, 1800, 1801) == {"b"}
  {
    assert text[1800..1801] == "b";
    assert W.Words(text, 1800, 1801) == {"b"} + W.Words(text, 1801, 1801);
  }

  /** The splitting loop cuts this text at its limit, inside the word. */
  method CutsInsideWord(text: string) returns (pieces: seq<P.Chunk>, rest: nat)
    requires Long(text)
    ensures pieces == [P.Chunk(0, 1800, [], false)] && rest == 1800 && P.Forced(text, pieces[0])
  {
    pieces, rest := P.SplitLong(text, 0, 1801, []);
    FirstPiece(text, pieces, rest);
  }

  lemma FirstPiece(text: string, pieces: seq<P.Chunk>, rest: nat)
    requires Long(text)
    requires Laid(text, 0, rest, P.ChunkSpans(pieces)) && 1 <= rest < 1801
    requires forall k | 0 <= k < |pieces| :: P.Cut(text, pieces[k]) && pieces[k].path == []
    ensures pieces == [P.Chunk(0, 1800, [], false)] && rest == 1800
  {
    var spans := P.ChunkSpans(pieces);
    LaidMeans(text, 0, rest, spans);
    if pieces != [] {
      assert P.Cut(text, pieces[0]) && spans[0].start == pieces[0].start;
    }
  }

  /** The two ranges of such a text as hits, the later one first. */
  predicate CutHits(hits: seq<W.Hit>) {
    |hits| == 2 && hits[0].start == 1800 && hits[0].end == 1801 && hits[1].start == 0 && hits[1].end == 1800
  }

  /**
    The last range of such a text starts at a forced cut. As a first hit its term is lost to the
    window that joins it to the range before.
   */
  method ForcedCutLosesTerm(text: string, hits: seq<W.Hit>, maxChars: int, chunksOversized: (nat, nat) -> bool) returns (out: seq<W.Hit>)
    requires Long(text) && CutHits(hits) && maxChars >= 3000
    ensures out != [] && out[0].start == 0 && out[0].end == 1801
    ensures "b" in W.Terms(text, {"b", "x"}, 1800, 1801) && "b" !in W.Terms(text, {"b", "x"}, 0, 1801)
  {
    StartsWithX(text, 1801);
    LongWord(text, 2, 1801);
    LastLetter(text);
    JoinsBoth(text, {"b", "x"}, hits, W.Allowance(maxChars));
    out := W.CoverageWindow(text, {"b", "x"}, hits, maxChars, chunksOversized);
  }

  lemma JoinsBoth(text: string, focus: set<string>, hits: seq<W.Hit>, allowance: int)
    requires Long(text) && CutHits(hits) && allowance >= 1801 && "x" in focus
    ensures W.InText(text, hits) && W.GrownFrom(text, focus, hits, allowance).window == W.Window(0, 1801)
  {
    StartsWithX(text, 1800);
    LastLetter(text);
    assert hits == [hits[0], hits[1]];
    assert "x" in W.Adds(text, focus, W.Terms(text, focus, 1800, 1801), hits[1]);
    W.TwoHitGrowth(text, focus, hits[0], hits[1], allowance);
  }
}
