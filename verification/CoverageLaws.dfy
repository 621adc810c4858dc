/**
  What the coverage window prefers and keeps, in words, places and sizes.
 */
module CoverageLaws {
  import opened Prelude
  import opened CoverageWindow

  /** A plural ending goes from words of at least five letters, and nothing else. */
  lemma StemIs(word: string)
    ensures if |word| >= 5 && word[|word| - 1] == 's' && word[|word| - 2] != 's' then Stem(word) + "s" == word else Stem(word) == word
  {
  }

  lemma AllowanceIs(maxChars: int)
    ensures Allowance(maxChars) == if maxChars < 1128 then 128 else maxChars - 1000
  {
  }

  /** The hits left beside a window are those that do not lie in it. */
  lemma {:induction false} UncontainedIs(hits: seq<Hit>, start: nat, end: nat, h: Hit)
    ensures h in Uncontained(hits, start, end) <==> h in hits && (h.start < start || end < h.end)
  {
    if hits != [] {
      var n := |hits| - 1;
      UncontainedIs(hits[..n], start, end, h);
      assert hits == hits[..n] + [hits[n]];
    }
  }

  /** How many focus words a hit has that are not covered yet. */
  ghost function NewWords(text: string, focus: set<string>, covered: set<string>, h: Hit): nat
    requires h.start < h.end <= |text|
  {
    |set x | x in focus && x in Words(text, h.start, h.end) && x !in covered|
  }

  /** The size of the window that holds both. */
  function Span(w: Window, h: Hit): int {
    (if h.end > w.end then h.end else w.end) - (if h.start < w.start then h.start else w.start)
  }

  /** A hit that adds a word and keeps the window within the allowance. */
  ghost predicate Joinable(text: string, focus: set<string>, covered: set<string>, w: Window, allowance: int, h: Hit)
    requires h.start < h.end <= |text|
  {
    NewWords(text, focus, covered, h) > 0 && Span(w, h) <= allowance
  }

  /** Hit `b` at place `j` goes before hit `a` at place `i`: more new words, then the smaller window, then the earlier place. */
  ghost predicate Preferred(text: string, focus: set<string>, covered: set<string>, w: Window, b: Hit, j: nat, a: Hit, i: nat)
    requires a.start < a.end <= |text| && b.start < b.end <= |text|
  {
    var m, n := NewWords(text, focus, covered, b), NewWords(text, focus, covered, a);
    m > n || (m == n && (Span(w, b) < Span(w, a) || (Span(w, b) == Span(w, a) && j <= i)))
  }

  lemma NewWordsAre(text: string, focus: set<string>, covered: set<string>, h: Hit)
    requires h.start < h.end <= |text|
    ensures NewWords(text, focus, covered, h) == |Adds(text, focus, covered, h)|
    ensures NewWords(text, focus, covered, h) > 0 <==> Adds(text, focus, covered, h) != {}
  {
    assert (set x | x in focus && x in Words(text, h.start, h.end) && x !in covered) == Adds(text, focus, covered, h);
  }

  lemma JoinableIff(text: string, focus: set<string>, covered: set<string>, w: Window, allowance: int, h: Hit)
    requires h.start < h.end <= |text|
    ensures Joinable(text, focus, covered, w, allowance, h) <==> Eligible(text, focus, covered, w, allowance, h)
  {
    NewWordsAre(text, focus, covered, h);
  }

  lemma BetterIff(text: string, focus: set<string>, covered: set<string>, w: Window, a: Hit, b: Hit, i: nat, j: nat)
    requires a.start < a.end <= |text| && b.start < b.end <= |text| && i != j
    ensures Preferred(text, focus, covered, w, b, j, a, i) <==>
      if j < i then !Better(text, focus, covered, w, a, b) else Better(text, focus, covered, w, b, a)
  {
    NewWordsAre(text, focus, covered, a);
    NewWordsAre(text, focus, covered, b);
  }

  /** The next hit to join: a joinable one preferred to every other joinable one, and none exactly if none is joinable. */
  lemma BestIs(text: string, focus: set<string>, covered: set<string>, w: Window, allowance: int, hits: seq<Hit>, n: nat, i: nat)
    requires InText(text, hits) && i < n <= |hits|
    ensures var best := BestOf(text, focus, covered, w, allowance, hits, n);
      && (best.Some? ==> best.value < n && Joinable(text, focus, covered, w, allowance, hits[best.value]))
      && (Joinable(text, focus, covered, w, allowance, hits[i]) ==>
            best.Some? && Preferred(text, focus, covered, w, hits[best.value], best.value, hits[i], i))
  {
    var best := BestOf(text, focus, covered, w, allowance, hits, n);
    if best.Some? {
      JoinableIff(text, focus, covered, w, allowance, hits[best.value]);
    }
    JoinableIff(text, focus, covered, w, allowance, hits[i]);
    if Eligible(text, focus, covered, w, allowance, hits[i]) {
      BestIsPreferred(text, focus, covered, w, allowance, hits, n, i);
      if i != best.value {
        BetterIff(text, focus, covered, w, hits[i], hits[best.value], i, best.value);
      }
    }
  }
}
