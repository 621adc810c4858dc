/**
  The coverage window of `research.py`: one contiguous read grown around the first matching
  passage until no other passage adds a query term within the read allowance. The text is
  case-folded; words are read from it as `discovery.py` reads them.
 */
module CoverageWindow {
  import opened Prelude

  // ------------------------------------------------------------------ words

  predicate IsAlnum(c: char) { 'a' <= c <= 'z' || '0' <= c <= '9' }
  predicate IsJoiner(c: char) { c == '\'' || c == '-' }
  predicate Wordy(c: char) { IsAlnum(c) || IsJoiner(c) }

  /** The end of the longest word starting at `i`, reading no further than `hi`. */
  function WordEnd(text: string, i: nat, hi: nat): (e: nat)
    requires i < hi <= |text| && IsAlnum(text[i])
    ensures i < e <= hi && IsAlnum(text[e - 1])
    decreases hi - i
  {
    if i + 1 < hi && IsAlnum(text[i + 1]) then WordEnd(text, i + 1, hi)
    else if i + 2 < hi && IsJoiner(text[i + 1]) && IsAlnum(text[i + 2]) then WordEnd(text, i + 2, hi)
    else i + 1
  }

  /** The small plural normalization. */
  function Stem(word: string): string {
    var n := |word|;
    if n > 4 && word[n - 1] == 's' && word[n - 2] != 's' then word[..n - 1] else word
  }

  /** The words of `text[lo:hi]`. */
  function Words(text: string, lo: nat, hi: nat): set<string>
    requires lo <= hi <= |text|
    decreases hi - lo
  {
    if lo == hi then {}
    else if IsAlnum(text[lo]) then
      var e := WordEnd(text, lo, hi);
      {Stem(text[lo..e])} + Words(text, e, hi)
    else Words(text, lo + 1, hi)
  }

  /** Position `p` does not separate two characters a word could hold together. */
  predicate CleanCut(text: string, p: nat)
    requires p <= |text|
  {
    p == 0 || p == |text| || !(Wordy(text[p - 1]) && Wordy(text[p]))
  }

  lemma {:induction false} WordStaysBefore(text: string, i: nat, cut: nat, hi: nat)
    requires i < cut <= hi <= |text| && IsAlnum(text[i]) && CleanCut(text, cut)
    ensures WordEnd(text, i, hi) == WordEnd(text, i, cut)
    decreases cut - i
  {
    if i + 1 < cut && IsAlnum(text[i + 1]) {
      WordStaysBefore(text, i + 1, cut, hi);
    } else if i + 2 < cut && IsJoiner(text[i + 1]) && IsAlnum(text[i + 2]) {
      WordStaysBefore(text, i + 2, cut, hi);
    }
  }

  /** Reading on past a clean cut finds the same words before it. */
  lemma {:induction false} WordsBeforeCut(text: string, lo: nat, cut: nat, hi: nat)
    requires lo <= cut <= hi <= |text| && CleanCut(text, cut)
    ensures Words(text, lo, hi) == Words(text, lo, cut) + Words(text, cut, hi)
    decreases cut - lo
  {
    if lo < cut {
      if IsAlnum(text[lo]) {
        WordStaysBefore(text, lo, cut, hi);
        WordsBeforeCut(text, WordEnd(text, lo, cut), cut, hi);
      } else {
        WordsBeforeCut(text, lo + 1, cut, hi);
      }
    }
  }

  /** A range whose ends cut no word has all its words in every range around it. */
  lemma WordsGrow(text: string, lo: nat, a: nat, b: nat, hi: nat)
    requires lo <= a <= b <= hi <= |text| && CleanCut(text, a) && CleanCut(text, b)
    ensures Words(text, a, b) <= Words(text, lo, hi)
  {
    WordsBeforeCut(text, lo, a, hi);
    WordsBeforeCut(text, a, b, hi);
  }

  // ------------------------------------------------------------------ words a cut makes

  /** The first word of a range, if it has one. */
  function FirstWord(text: string, lo: nat, hi: nat): (w: Option<string>)
    requires lo <= hi <= |text|
    ensures if w.None? then Words(text, lo, hi) == {} else w.value in Words(text, lo, hi)
    decreases hi - lo
  {
    if lo == hi then None
    else if IsAlnum(text[lo]) then Some(Stem(text[lo..WordEnd(text, lo, hi)]))
    else FirstWord(text, lo + 1, hi)
  }

  /** The last word of a range, if it has one. */
  function LastWord(text: string, lo: nat, hi: nat): (w: Option<string>)
    requires lo <= hi <= |text|
    ensures if w.None? then Words(text, lo, hi) == {} else w.value in Words(text, lo, hi)
    decreases hi - lo
  {
    if lo == hi then None
    else if IsAlnum(text[lo]) then
      var e := WordEnd(text, lo, hi);
      var later := LastWord(text, e, hi);
      if later.Some? then later else Some(Stem(text[lo..e]))
    else LastWord(text, lo + 1, hi)
  }

  /** A word cut short at `b` ends there, or just before a joiner there, and `b` is no clean cut. */
  lemma {:induction false} WordCutShort(text: string, i: nat, b: nat, hi: nat)
    requires i < b <= hi <= |text| && IsAlnum(text[i]) && WordEnd(text, i, b) != WordEnd(text, i, hi)
    ensures b < hi && !CleanCut(text, b)
    ensures WordEnd(text, i, b) == b || (WordEnd(text, i, b) == b - 1 && IsJoiner(text[b - 1]))
    ensures Words(text, WordEnd(text, i, b), b) == {}
    decreases b - i
  {
    if i + 1 < b && IsAlnum(text[i + 1]) {
      WordCutShort(text, i + 1, b, hi);
    } else if i + 2 < b && IsJoiner(text[i + 1]) && IsAlnum(text[i + 2]) {
      WordCutShort(text, i + 2, b, hi);
    } else if i + 2 == b {
      assert Words(text, b - 1, b) == Words(text, b, b);
    }
  }

  /** Reading on past `b` keeps every word but the last, and that one too where `b` cuts cleanly. */
  lemma {:induction false} KeptRight(text: string, p: nat, b: nat, hi: nat, x: string)
    requires p <= b <= hi <= |text| && x in Words(text, p, b)
    ensures x in Words(text, p, hi) || (b < hi && !CleanCut(text, b) && LastWord(text, p, b) == Some(x))
    decreases b - p
  {
    if IsAlnum(text[p]) {
      var e := WordEnd(text, p, b);
      if e != WordEnd(text, p, hi) {
        WordCutShort(text, p, b, hi);
      } else if x in Words(text, e, b) {
        KeptRight(text, e, b, hi, x);
      }
    } else {
      KeptRight(text, p + 1, b, hi, x);
    }
  }

  /** A word that goes on past `a` ends where the first word from `a` on does. */
  lemma {:induction false} WordGoesOn(text: string, lo: nat, a: nat, hi: nat)
    requires lo < a < hi <= |text| && IsAlnum(text[lo]) && a < WordEnd(text, lo, hi)
    ensures var i := if IsAlnum(text[a]) then a else a + 1;
      i < hi && IsAlnum(text[i]) && WordEnd(text, i, hi) == WordEnd(text, lo, hi)
    decreases a - lo
  {
    var next := if IsAlnum(text[lo + 1]) then lo + 1 else lo + 2;
    if next < a {
      WordGoesOn(text, next, a, hi);
    }
  }

  /** Reading from before `a` keeps every word but the first. */
  lemma {:induction false} KeptLeft(text: string, lo: nat, a: nat, hi: nat, x: string)
    requires lo <= a <= hi <= |text| && x in Words(text, a, hi)
    ensures x in Words(text, lo, hi) || FirstWord(text, a, hi) == Some(x)
    decreases a - lo
  {
    if lo < a && IsAlnum(text[lo]) {
      var e := WordEnd(text, lo, hi);
      if e <= a {
        KeptLeft(text, e, a, hi, x);
      } else {
        WordGoesOn(text, lo, a, hi);
      }
    } else if lo < a {
      KeptLeft(text, lo + 1, a, hi, x);
    }
  }

  /** A word of a range that is the first one of a longer range is its own first one. */
  lemma {:induction false} FirstStaysFirst(text: string, a: nat, b: nat, hi: nat, x: string)
    requires a <= b <= hi <= |text| && x in Words(text, a, b) && FirstWord(text, a, hi) == Some(x)
    ensures FirstWord(text, a, b) == Some(x)
    decreases b - a
  {
    if IsAlnum(text[a]) {
      if WordEnd(text, a, b) != WordEnd(text, a, hi) {
        WordCutShort(text, a, b, hi);
      }
    } else {
      FirstStaysFirst(text, a + 1, b, hi, x);
    }
  }

  /** The words of `text[a:b]` that an end inside a word makes, where `text[lo:hi]` goes past that end. */
  function Fragments(text: string, a: nat, b: nat, lo: nat, hi: nat): (r: set<string>)
    requires lo <= a <= b <= hi <= |text|
    ensures r <= Words(text, a, b)
    ensures (lo == a || CleanCut(text, a)) && (b == hi || CleanCut(text, b)) ==> r == {}
  {
    var first, last := FirstWord(text, a, b), LastWord(text, a, b);
    (if lo < a && !CleanCut(text, a) && first.Some? then {first.value} else {})
    + (if b < hi && !CleanCut(text, b) && last.Some? then {last.value} else {})
  }

  /** Every word of a range is in each range around it, except the at most two fragments. */
  lemma KeptWords(text: string, lo: nat, a: nat, b: nat, hi: nat)
    requires lo <= a <= b <= hi <= |text|
    ensures Words(text, a, b) <= Words(text, lo, hi) + Fragments(text, a, b, lo, hi)
  {
    forall x | x in Words(text, a, b) ensures x in Words(text, lo, hi) + Fragments(text, a, b, lo, hi) {
      KeptRight(text, a, b, hi, x);
      if x in Words(text, a, hi) {
        if CleanCut(text, a) {
          WordsBeforeCut(text, lo, a, hi);
        } else {
          KeptLeft(text, lo, a, hi, x);
          if FirstWord(text, a, hi) == Some(x) {
            FirstStaysFirst(text, a, b, hi, x);
          }
        }
      }
    }
  }

  // ------------------------------------------------------------------ hits

  datatype Hit = Hit(start: nat, end: nat, path: seq<string>, oversized: bool)

  ghost predicate InText(text: string, hits: seq<Hit>) {
    forall i | 0 <= i < |hits| :: hits[i].start < hits[i].end <= |text|
  }

  predicate Within(h: Hit, start: nat, end: nat) {
    start <= h.start && h.end <= end
  }

  function Uncontained(hits: seq<Hit>, start: nat, end: nat): seq<Hit> {
    if hits == [] then []
    else
      var last := hits[|hits| - 1];
      Uncontained(hits[..|hits| - 1], start, end) + (if Within(last, start, end) then [] else [last])
  }

  lemma {:induction false} UncontainedKeeps(hits: seq<Hit>, start: nat, end: nat, i: nat)
    requires i < |hits|
    ensures Within(hits[i], start, end) || hits[i] in Uncontained(hits, start, end)
  {
    if i < |hits| - 1 {
      UncontainedKeeps(hits[..|hits| - 1], start, end, i);
    }
  }

  /** `path` ends with `common`, or continues differently from `first`. */
  predicate Stops(common: seq<string>, first: seq<string>, path: seq<string>)
    requires common <= first && common <= path
  {
    |path| == |common| || |first| == |common| || path[|common|] != first[|common|]
  }

  /** `common` is the longest list of headings every path starts with. */
  ghost predicate LongestCommonPrefix(common: seq<string>, paths: seq<seq<string>>) {
    && (forall i | 0 <= i < |paths| :: common <= paths[i])
    && (exists i :: 0 <= i < |paths| && Stops(common, paths[0], paths[i]))
  }

  method CommonPath(paths: seq<seq<string>>) returns (common: seq<string>)
    requires paths != []
    ensures LongestCommonPrefix(common, paths)
  {
    common := [];
    while true
      invariant forall i | 0 <= i < |paths| :: common <= paths[i]
      decreases |paths[0]| - |common|
    {
      for i := 0 to |paths|
        invariant forall j | 0 <= j < i :: !Stops(common, paths[0], paths[j])
      {
        if |paths[i]| == |common| || |paths[0]| == |common| || paths[i][|common|] != paths[0][|common|] {
          assert Stops(common, paths[0], paths[i]);
          return;
        }
      }
      assert !Stops(common, paths[0], paths[0]);
      assert forall i | 0 <= i < |paths| :: !Stops(common, paths[0], paths[i]);
      common := common + [paths[0][|common|]];
    }
  }

  // ------------------------------------------------------------------ choosing the next hit

  datatype Window = Window(start: nat, end: nat)
  {
    function Size(): int { end - start }
    function With(h: Hit): Window { Window(Min(start, h.start), Max(end, h.end)) }
  }

  /** The focus words a range of the text has. */
  function Terms(text: string, focus: set<string>, start: nat, end: nat): set<string>
    requires start <= end <= |text|
  {
    focus * Words(text, start, end)
  }

  /** The focus words a hit would add. */
  function Adds(text: string, focus: set<string>, covered: set<string>, h: Hit): set<string>
    requires h.start < h.end <= |text|
  {
    Terms(text, focus, h.start, h.end) - covered
  }

  predicate Eligible(text: string, focus: set<string>, covered: set<string>, w: Window, allowance: int, h: Hit)
    requires h.start < h.end <= |text|
  {
    Adds(text, focus, covered, h) != {} && w.With(h).Size() <= allowance
  }

  /** `a` is preferred to `b`: more new words, then the smaller window. */
  predicate Better(text: string, focus: set<string>, covered: set<string>, w: Window, a: Hit, b: Hit)
    requires a.start < a.end <= |text| && b.start < b.end <= |text|
  {
    var m, n := |Adds(text, focus, covered, a)|, |Adds(text, focus, covered, b)|;
    m > n || (m == n && w.With(a).Size() < w.With(b).Size())
  }

  /** The best of the first `n` hits to join. */
  ghost function BestOf(text: string, focus: set<string>, covered: set<string>, w: Window, allowance: int, remaining: seq<Hit>, n: nat): (best: Option<nat>)
    requires InText(text, remaining) && n <= |remaining|
    ensures best.Some? ==> best.value < n && Eligible(text, focus, covered, w, allowance, remaining[best.value])
  {
    if n == 0 then None
    else
      var best := BestOf(text, focus, covered, w, allowance, remaining, n - 1);
      var h := remaining[n - 1];
      if Eligible(text, focus, covered, w, allowance, h) && (best.None? || Better(text, focus, covered, w, h, remaining[best.value])) then
        Some(n - 1)
      else best
  }

  /** The best hit is the earliest eligible one that no other is preferred to; there is none exactly if none is eligible. */
  lemma {:induction false} BestIsPreferred(text: string, focus: set<string>, covered: set<string>, w: Window, allowance: int, remaining: seq<Hit>, n: nat, i: nat)
    requires InText(text, remaining) && i < n <= |remaining| && Eligible(text, focus, covered, w, allowance, remaining[i])
    ensures var best := BestOf(text, focus, covered, w, allowance, remaining, n);
      && best.Some?
      && !Better(text, focus, covered, w, remaining[i], remaining[best.value])
      && (i < best.value ==> Better(text, focus, covered, w, remaining[best.value], remaining[i]))
  {
    if i < n - 1 {
      BestIsPreferred(text, focus, covered, w, allowance, remaining, n - 1, i);
    }
  }

  method Choose(text: string, focus: set<string>, covered: set<string>, w: Window, allowance: int, remaining: seq<Hit>) returns (best: Option<nat>)
    requires InText(text, remaining)
    ensures best == BestOf(text, focus, covered, w, allowance, remaining, |remaining|)
  {
    best := None;
    for i := 0 to |remaining|
      invariant best == BestOf(text, focus, covered, w, allowance, remaining, i)
    {
      if Eligible(text, focus, covered, w, allowance, remaining[i]) {
        if best.None? || Better(text, focus, covered, w, remaining[i], remaining[best.value]) {
          best := Some(i);
        }
      }
    }
  }

  /** Nothing left to consider adds a word within the allowance. */
  ghost predicate Saturated(text: string, focus: set<string>, covered: set<string>, w: Window, allowance: int, remaining: seq<Hit>)
    requires InText(text, remaining)
  {
    forall i | 0 <= i < |remaining| :: !Eligible(text, focus, covered, w, allowance, remaining[i])
  }

  lemma NoneBestSaturated(text: string, focus: set<string>, covered: set<string>, w: Window, allowance: int, remaining: seq<Hit>)
    requires InText(text, remaining) && BestOf(text, focus, covered, w, allowance, remaining, |remaining|).None?
    ensures Saturated(text, focus, covered, w, allowance, remaining)
  {
    forall i | 0 <= i < |remaining| ensures !Eligible(text, focus, covered, w, allowance, remaining[i]) {
      if Eligible(text, focus, covered, w, allowance, remaining[i]) {
        BestIsPreferred(text, focus, covered, w, allowance, remaining, |remaining|, i);
      }
    }
  }

  // ------------------------------------------------------------------ growing the window

  /** A window that has grown: the words counted as covered, the hits merged in order, and those still to consider. */
  datatype Growth = Growth(window: Window, covered: set<string>, merged: seq<Hit>, remaining: seq<Hit>)

  ghost function Join(text: string, focus: set<string>, g: Growth, i: nat): Growth
    requires InText(text, g.remaining) && g.window.start < g.window.end <= |text| && i < |g.remaining|
  {
    var h := g.remaining[i];
    var w := g.window.With(h);
    Growth(w, g.covered + Terms(text, focus, w.start, w.end), g.merged + [h], g.remaining[..i] + g.remaining[i + 1 ..])
  }

  /** The growth once no hit is eligible any more, each time joining the best one. */
  ghost function GrowOn(text: string, focus: set<string>, allowance: int, g: Growth): Growth
    requires InText(text, g.remaining) && g.window.start < g.window.end <= |text|
    decreases |g.remaining|
  {
    var best := BestOf(text, focus, g.covered, g.window, allowance, g.remaining, |g.remaining|);
    if best.None? then g else GrowOn(text, focus, allowance, Join(text, focus, g, best.value))
  }

  lemma GrowOnStep(text: string, focus: set<string>, allowance: int, g: Growth, i: nat, target: Growth)
    requires InText(text, g.remaining) && g.window.start < g.window.end <= |text| && i < |g.remaining|
    requires BestOf(text, focus, g.covered, g.window, allowance, g.remaining, |g.remaining|) == Some(i)
    requires GrowOn(text, focus, allowance, g) == target
    ensures var j := Join(text, focus, g, i); GrowOn(text, focus, allowance, j) == target
  {
  }

  ghost function GrownFrom(text: string, focus: set<string>, hits: seq<Hit>, allowance: int): Growth
    requires hits != [] && InText(text, hits)
  {
    var first := hits[0];
    GrowOn(text, focus, allowance,
           Growth(Window(first.start, first.end), Terms(text, focus, first.start, first.end), [first], hits[1..]))
  }

  /** The window so far: the hull of the merged hits, each of them an input hit, and the rest still to consider. */
  ghost predicate Growing(text: string, hits: seq<Hit>, w: Window, merged: seq<Hit>, remaining: seq<Hit>, allowance: int)
    requires hits != []
  {
    && merged != [] && merged[0] == hits[0]
    && InText(text, merged) && InText(text, remaining) && w.start < w.end <= |text|
    && (forall i | 0 <= i < |merged| :: merged[i] in hits && Within(merged[i], w.start, w.end))
    && (exists i :: 0 <= i < |merged| && merged[i].start == w.start)
    && (exists i :: 0 <= i < |merged| && merged[i].end == w.end)
    && (forall i | 0 <= i < |remaining| :: remaining[i] in hits)
    && (forall i | 0 <= i < |hits| :: hits[i] in merged || hits[i] in remaining)
    && (w != Window(hits[0].start, hits[0].end) ==> w.Size() <= allowance)
  }

  lemma GrowingStep(text: string, hits: seq<Hit>, w: Window, merged: seq<Hit>, remaining: seq<Hit>, allowance: int, best: nat)
    requires hits != [] && Growing(text, hits, w, merged, remaining, allowance)
    requires best < |remaining| && w.With(remaining[best]).Size() <= allowance
    ensures Growing(text, hits, w.With(remaining[best]), merged + [remaining[best]], remaining[..best] + remaining[best + 1 ..], allowance)
  {
    var h := remaining[best];
    var v, more, rest := w.With(h), merged + [h], remaining[..best] + remaining[best + 1 ..];
    var i :| 0 <= i < |merged| && merged[i].start == w.start;
    var j :| 0 <= j < |merged| && merged[j].end == w.end;
    assert more[i] == merged[i] && more[j] == merged[j] && more[|merged|] == h;
    forall k | 0 <= k < |hits| ensures hits[k] in more || hits[k] in rest {
      if hits[k] in remaining {
        var m :| 0 <= m < |remaining| && remaining[m] == hits[k];
        assert m == best || (m < best && rest[m] == hits[k]) || (m > best && rest[m - 1] == hits[k]);
      }
    }
  }

  ghost predicate Clean(text: string, hits: seq<Hit>)
    requires InText(text, hits)
  {
    forall i | 0 <= i < |hits| :: CleanCut(text, hits[i].start) && CleanCut(text, hits[i].end)
  }

  /** Where no hit cuts a word, the words counted as covered are those of the window, and a hit's words grow them. */
  lemma CoveredStep(text: string, focus: set<string>, w: Window, h: Hit)
    requires h.start < h.end <= |text| && CleanCut(text, h.start) && CleanCut(text, h.end)
    requires w.start <= w.end <= |text| && CleanCut(text, w.start) && CleanCut(text, w.end)
    ensures var v := w.With(h);
      && v.end <= |text| && CleanCut(text, v.start) && CleanCut(text, v.end)
      && Terms(text, focus, w.start, w.end) + Terms(text, focus, v.start, v.end) == Terms(text, focus, v.start, v.end)
      && Terms(text, focus, h.start, h.end) <= Terms(text, focus, v.start, v.end)
  {
    var v := w.With(h);
    WordsGrow(text, v.start, w.start, w.end, v.end);
    WordsGrow(text, v.start, h.start, h.end, v.end);
  }

  /** Some merged hit is an oversized structure. */
  predicate AnyOversized(hits: seq<Hit>) {
    exists i :: 0 <= i < |hits| && hits[i].oversized
  }

  function Paths(hits: seq<Hit>): seq<seq<string>> {
    seq(|hits|, i requires 0 <= i < |hits| => hits[i].path)
  }

  /** What `covered` is worth where no merged hit cuts a word: exactly the window's query terms, more than the first hit's. */
  ghost predicate Covers(text: string, focus: set<string>, hits: seq<Hit>, w: Window, merged: seq<Hit>, covered: set<string>)
    requires hits != [] && InText(text, hits) && InText(text, merged) && w.start <= w.end <= |text| && merged != []
  {
    Clean(text, merged) ==>
      && CleanCut(text, w.start) && CleanCut(text, w.end) && covered == Terms(text, focus, w.start, w.end)
      && (forall i | 0 <= i < |merged| :: Terms(text, focus, merged[i].start, merged[i].end) <= covered)
      && (|merged| > 1 ==> Terms(text, focus, hits[0].start, hits[0].end) < covered)
  }

  lemma CoversStep(text: string, focus: set<string>, hits: seq<Hit>, w: Window, merged: seq<Hit>, covered: set<string>, h: Hit)
    requires hits != [] && InText(text, hits) && InText(text, merged) && w.start <= w.end <= |text| && merged != [] && merged[0] == hits[0]
    requires Covers(text, focus, hits, w, merged, covered) && h.start < h.end <= |text|
    requires Adds(text, focus, covered, h) != {}
    ensures w.With(h).start <= w.With(h).end <= |text|
    ensures var v := w.With(h); Covers(text, focus, hits, v, merged + [h], covered + Terms(text, focus, v.start, v.end))
  {
    var all := merged + [h];
    assert all[|merged|] == h && forall i | 0 <= i < |merged| :: all[i] == merged[i];
    if Clean(text, all) {
      assert CleanCut(text, all[|merged|].start) && CleanCut(text, all[|merged|].end);
      assert Clean(text, merged) by {
        forall i | 0 <= i < |merged| ensures CleanCut(text, merged[i].start) && CleanCut(text, merged[i].end) {
          assert CleanCut(text, all[i].start) && CleanCut(text, all[i].end);
        }
      }
      CoveredStep(text, focus, w, h);
      var v := w.With(h);
      var more := covered + Terms(text, focus, v.start, v.end);
      var x :| x in Adds(text, focus, covered, h);
      assert x in more && x !in covered;
      assert Terms(text, focus, hits[0].start, hits[0].end) <= covered by {
        assert Terms(text, focus, merged[0].start, merged[0].end) <= covered;
      }
    }
  }

  /** What a window has while it grows towards `target`. */
  ghost predicate Grows(text: string, focus: set<string>, hits: seq<Hit>, allowance: int, g: Growth, target: Growth)
    requires hits != [] && InText(text, hits)
  {
    && Growing(text, hits, g.window, g.merged, g.remaining, allowance)
    && Covers(text, focus, hits, g.window, g.merged, g.covered)
    && GrowOn(text, focus, allowance, g) == target
  }

  lemma GrowsStep(text: string, focus: set<string>, hits: seq<Hit>, allowance: int, g: Growth, target: Growth, i: nat)
    requires hits != [] && InText(text, hits) && Grows(text, focus, hits, allowance, g, target)
    requires BestOf(text, focus, g.covered, g.window, allowance, g.remaining, |g.remaining|) == Some(i)
    ensures Grows(text, focus, hits, allowance, Join(text, focus, g, i), target)
  {
    GrowingStep(text, hits, g.window, g.merged, g.remaining, allowance, i);
    CoversStep(text, focus, hits, g.window, g.merged, g.covered, g.remaining[i]);
    GrowOnStep(text, focus, allowance, g, i, target);
  }

  /** Grow the window hit by hit until nothing eligible remains. */
  method Grow(text: string, focus: set<string>, hits: seq<Hit>, allowance: int)
    returns (w: Window, covered: set<string>, paths: seq<seq<string>>, oversized: bool, ghost merged: seq<Hit>, ghost rest: seq<Hit>)
    requires hits != [] && InText(text, hits)
    ensures Within(hits[0], w.start, w.end) && w.start < w.end <= |text|
    ensures w == Window(hits[0].start, hits[0].end) || w.Size() <= allowance
    ensures Growth(w, covered, merged, rest) == GrownFrom(text, focus, hits, allowance)
    ensures Growing(text, hits, w, merged, rest, allowance)
    ensures Covers(text, focus, hits, w, merged, covered) && Saturated(text, focus, covered, w, allowance, rest)
    ensures paths == Paths(merged) && (oversized <==> AnyOversized(merged))
  {
    var first := hits[0];
    w := Window(first.start, first.end);
    covered := Terms(text, focus, w.start, w.end);
    var remaining := hits[1..];
    paths, oversized, merged := [first.path], first.oversized, [first];
    assert forall i | 1 <= i < |hits| :: hits[i] == remaining[i - 1];
    ghost var target := GrownFrom(text, focus, hits, allowance);
    ghost var g := Growth(w, covered, merged, remaining);
    while true
      invariant g == Growth(w, covered, merged, remaining) && Grows(text, focus, hits, allowance, g, target)
      invariant paths == Paths(merged) && (oversized <==> AnyOversized(merged))
      decreases |remaining|
    {
      var best := Choose(text, focus, covered, w, allowance, remaining);
      if best.None? {
        rest := remaining;
        NoneBestSaturated(text, focus, covered, w, allowance, remaining);
        return;
      }
      var h := remaining[best.value];
      GrowsStep(text, focus, hits, allowance, g, target, best.value);
      OversizedStep(merged, h);
      PathsStep(merged, h);
      g := Join(text, focus, g, best.value);
      remaining := remaining[..best.value] + remaining[best.value + 1 ..];
      w := w.With(h);
      covered := covered + Terms(text, focus, w.start, w.end);
      paths, oversized, merged := paths + [h.path], oversized || h.oversized, merged + [h];
    }
  }

  lemma PathsStep(merged: seq<Hit>, h: Hit)
    ensures Paths(merged + [h]) == Paths(merged) + [h.path]
  {
  }

  /** A hit that is not eligible adds nothing, or does not fit. */
  lemma NotEligible(text: string, focus: set<string>, covered: set<string>, w: Window, allowance: int, h: Hit)
    requires h.start < h.end <= |text| && !Eligible(text, focus, covered, w, allowance, h)
    ensures Terms(text, focus, h.start, h.end) <= covered || Max(w.end, h.end) - Min(w.start, h.start) > allowance
  {
    if Adds(text, focus, covered, h) == {} {
      forall x | x in Terms(text, focus, h.start, h.end) ensures x in covered {
        assert x !in Adds(text, focus, covered, h);
      }
    }
  }

  lemma MergedOrUseless(text: string, focus: set<string>, w: Window, allowance: int, merged: seq<Hit>, rest: seq<Hit>, covered: set<string>, h: Hit)
    requires InText(text, merged) && InText(text, rest) && h.start < h.end <= |text|
    requires h in merged || h in rest
    requires forall i | 0 <= i < |merged| :: Terms(text, focus, merged[i].start, merged[i].end) <= covered
    requires Saturated(text, focus, covered, w, allowance, rest)
    ensures Terms(text, focus, h.start, h.end) <= covered || Max(w.end, h.end) - Min(w.start, h.start) > allowance
  {
    if h !in merged {
      var k :| 0 <= k < |rest| && rest[k] == h;
      NotEligible(text, focus, covered, w, allowance, rest[k]);
    }
  }

  lemma OversizedStep(merged: seq<Hit>, h: Hit)
    ensures AnyOversized(merged + [h]) <==> AnyOversized(merged) || h.oversized
  {
    if i :| 0 <= i < |merged| && merged[i].oversized {
      assert (merged + [h])[i].oversized;
    }
    if h.oversized {
      assert (merged + [h])[|merged|].oversized;
    }
  }

  /** What one read may span. */
  function Allowance(maxChars: int): int {
    Max(128, maxChars - 1000)
  }

  /** Nothing to join: fewer than two hits, or a window that grows by nothing. */
  ghost predicate Unchanged(text: string, focus: set<string>, hits: seq<Hit>, allowance: int)
    requires InText(text, hits)
  {
    |hits| < 2 || GrownFrom(text, focus, hits, allowance).window == Window(hits[0].start, hits[0].end)
  }

  /**
    `_coverage_window`: the hits unchanged, or one window followed by the hits it does not
    contain. `chunksOversized` says whether the indexer's structure rules find an oversized
    structure in a range of the text.
   */
  method CoverageWindow(text: string, focus: set<string>, hits: seq<Hit>, maxChars: int, chunksOversized: (nat, nat) -> bool)
    returns (out: seq<Hit>)
    requires InText(text, hits)
    ensures Unchanged(text, focus, hits, Allowance(maxChars)) ==> out == hits
    ensures !Unchanged(text, focus, hits, Allowance(maxChars)) ==>
      IsCovering(text, focus, hits, Allowance(maxChars), chunksOversized, out, GrownFrom(text, focus, hits, Allowance(maxChars)))
  {
    if |hits| < 2 {
      return hits;
    }
    var allowance := Allowance(maxChars);
    var w, covered, paths, oversized;
    ghost var merged, rest;
    w, covered, paths, oversized, merged, rest := Grow(text, focus, hits, allowance);
    if w == Window(hits[0].start, hits[0].end) {
      return hits;
    }
    var common := CommonPath(paths);
    var window := Hit(w.start, w.end, common, oversized || chunksOversized(w.start, w.end));
    out := [window] + Uncontained(hits, w.start, w.end);
    CoveringOk(text, focus, hits, allowance, chunksOversized, out, Growth(w, covered, merged, rest));
  }

  /** The grown window and what follows it. */
  ghost predicate IsCovering(text: string, focus: set<string>, hits: seq<Hit>, allowance: int, chunksOversized: (nat, nat) -> bool,
                             out: seq<Hit>, g: Growth)
    requires InText(text, hits)
  {
    && hits != [] && out != []
    && var window, merged := out[0], g.merged;
    && Window(window.start, window.end) == g.window
    && window.start < window.end <= |text| && window.end - window.start <= allowance
    // exactly the hull of some input hits, the first among them
    && |merged| > 1 && merged[0] == hits[0] && InText(text, merged) && (forall i | 0 <= i < |merged| :: merged[i] in hits && Within(merged[i], window.start, window.end))
    && (exists i :: 0 <= i < |merged| && merged[i].start == window.start)
    && (exists i :: 0 <= i < |merged| && merged[i].end == window.end)
    && LongestCommonPrefix(window.path, Paths(merged))
    && (window.oversized <==> AnyOversized(merged) || chunksOversized(window.start, window.end))
    // every input hit is contained or follows, in order
    && out[1..] == Uncontained(hits, window.start, window.end)
    && KeepsFirst(text, focus, hits[0], window)
    && (Clean(text, merged) ==> CoversMore(text, focus, hits, allowance, window))
  }

  /**
    The query terms of the first hit are all among the window's exactly if every fragment one of
    its own ends makes is no query term or a word of the window; so they are where both ends cut
    cleanly.
   */
  ghost predicate KeepsFirst(text: string, focus: set<string>, first: Hit, window: Hit)
    requires window.start <= first.start < first.end <= window.end <= |text|
  {
    var kept := Terms(text, focus, first.start, first.end) <= Terms(text, focus, window.start, window.end);
    && (kept <==> forall x | x in Fragments(text, first.start, first.end, window.start, window.end) && x in focus ::
                    x in Words(text, window.start, window.end))
    && (CleanCut(text, first.start) && CleanCut(text, first.end) ==> kept)
  }

  lemma FirstTermsKeptIff(text: string, focus: set<string>, first: Hit, window: Hit)
    requires window.start <= first.start < first.end <= window.end <= |text|
    ensures KeepsFirst(text, focus, first, window)
  {
    var fragments := Fragments(text, first.start, first.end, window.start, window.end);
    var mine, its := Words(text, first.start, first.end), Words(text, window.start, window.end);
    KeptWords(text, window.start, first.start, first.end, window.end);
    if focus * mine <= focus * its {
      forall x | x in fragments && x in focus ensures x in its {
        assert x in focus * mine;
      }
    }
  }

  /** Strictly more query terms than the first hit's, and no hit that could still be joined has another. */
  ghost predicate CoversMore(text: string, focus: set<string>, hits: seq<Hit>, allowance: int, window: Hit)
    requires hits != [] && InText(text, hits) && window.start < window.end <= |text|
  {
    var terms := Terms(text, focus, window.start, window.end);
    && Terms(text, focus, hits[0].start, hits[0].end) < terms
    && (forall i | 0 <= i < |hits| ::
          Terms(text, focus, hits[i].start, hits[i].end) <= terms
          || Max(window.end, hits[i].end) - Min(window.start, hits[i].start) > allowance)
  }

  lemma HullOfOne(text: string, hits: seq<Hit>, w: Window, merged: seq<Hit>, rest: seq<Hit>, allowance: int)
    requires hits != [] && Growing(text, hits, w, merged, rest, allowance)
    ensures w != Window(hits[0].start, hits[0].end) ==> |merged| > 1
  {
  }

  lemma CoveringOk(text: string, focus: set<string>, hits: seq<Hit>, allowance: int, chunksOversized: (nat, nat) -> bool,
                   out: seq<Hit>, g: Growth)
    requires |hits| >= 2 && InText(text, hits) && out != [] && g.window == Window(out[0].start, out[0].end)
    requires Growing(text, hits, g.window, g.merged, g.remaining, allowance)
    requires Covers(text, focus, hits, g.window, g.merged, g.covered)
    requires Saturated(text, focus, g.covered, g.window, allowance, g.remaining)
    requires g.window != Window(hits[0].start, hits[0].end)
    requires LongestCommonPrefix(out[0].path, Paths(g.merged))
    requires out[0].oversized <==> AnyOversized(g.merged) || chunksOversized(out[0].start, out[0].end)
    requires out[1..] == Uncontained(hits, out[0].start, out[0].end)
    ensures IsCovering(text, focus, hits, allowance, chunksOversized, out, g)
  {
    var window := out[0];
    HullOfOne(text, hits, g.window, g.merged, g.remaining, allowance);
    assert Within(g.merged[0], window.start, window.end);
    FirstTermsKeptIff(text, focus, hits[0], window);
    if Clean(text, g.merged) {
      forall i | 0 <= i < |hits|
        ensures Terms(text, focus, hits[i].start, hits[i].end) <= g.covered
             || Max(window.end, hits[i].end) - Min(window.start, hits[i].start) > allowance
      {
        MergedOrUseless(text, focus, g.window, allowance, g.merged, g.remaining, g.covered, hits[i]);
      }
    }
  }

  lemma LostTermWords()
    ensures var text := "x ab"; Words(text, 3, 4) == {"b"} && Words(text, 0, 1) == {"x"} && Words(text, 0, 4) == {"x", "ab"}
  {
    var text := "x ab";
    assert text[3..4] == "b" && text[0..1] == "x" && text[2..4] == "ab";
    assert Words(text, 2, 4) == {"ab"} + Words(text, 4, 4);
    assert Words(text, 1, 4) == Words(text, 2, 4);
  }

  /** Of two hits the second is joined where it is eligible, and then nothing is left. */
  lemma TwoHitGrowth(text: string, focus: set<string>, a: Hit, b: Hit, allowance: int)
    requires a.start < a.end <= |text| && b.start < b.end <= |text|
    requires Eligible(text, focus, Terms(text, focus, a.start, a.end), Window(a.start, a.end), allowance, b)
    ensures InText(text, [a, b]) && GrownFrom(text, focus, [a, b], allowance).window == Window(a.start, a.end).With(b)
  {
    var g := Growth(Window(a.start, a.end), Terms(text, focus, a.start, a.end), [a], [b]);
    assert [a, b][1..] == [b] && [b][0] == b;
    assert BestOf(text, focus, g.covered, g.window, allowance, [b], 1) == Some(0);
    var j := Join(text, focus, g, 0);
    assert j.remaining == [];
    GrowOnStep(text, focus, allowance, g, 0, GrowOn(text, focus, allowance, g));
  }

  /** A hit that starts inside a word: the window joins it to the word's start and has its term no more. */
  method WindowLosesTerm(hits: seq<Hit>, maxChars: int, chunksOversized: (nat, nat) -> bool) returns (out: seq<Hit>)
    requires |hits| == 2 && hits[0].start == 3 && hits[0].end == 4 && hits[1].start == 0 && hits[1].end == 1
    ensures out != [] && out[0].start == 0 && out[0].end == 4
    ensures Terms("x ab", {"b", "x"}, 3, 4) == {"b"} && Terms("x ab", {"b", "x"}, 0, 4) == {"x"}
  {
    LostTermWords();
    assert hits == [hits[0], hits[1]];
    assert "x" in Adds("x ab", {"b", "x"}, Terms("x ab", {"b", "x"}, 3, 4), hits[1]);
    TwoHitGrowth("x ab", {"b", "x"}, hits[0], hits[1], Allowance(maxChars));
    out := CoverageWindow("x ab", {"b", "x"}, hits, maxChars, chunksOversized);
  }
}
