/** Ranges laid out over a text: in order, disjoint, nonempty, with only whitespace left between them. */
module Layout {

  datatype Span = Span(start: nat, end: nat)

  /** Python's `\s` for text. */
  predicate IsSpace(c: char) {
    var n := c as int;
    9 <= n <= 13 || 28 <= n <= 32 || n == 0x85 || n == 0xA0 || n == 0x1680 || 0x2000 <= n <= 0x200A
    || n == 0x2028 || n == 0x2029 || n == 0x202F || n == 0x205F || n == 0x3000
  }

  ghost predicate Gap(text: string, lo: nat, hi: nat) {
    lo <= hi <= |text| && forall k | lo <= k < hi :: IsSpace(text[k])
  }

  ghost predicate Laid(text: string, lo: nat, hi: nat, spans: seq<Span>)
    decreases |spans|
  {
    if spans == [] then Gap(text, lo, hi)
    else
      var last := spans[|spans| - 1];
      Laid(text, lo, last.start, spans[..|spans| - 1]) && last.start < last.end && Gap(text, last.end, hi)
  }

  lemma {:induction false} LaidGrow(text: string, lo: nat, mid: nat, hi: nat, spans: seq<Span>)
    requires Laid(text, lo, mid, spans) && Gap(text, mid, hi)
    ensures Laid(text, lo, hi, spans)
  {
  }

  lemma LaidPush(text: string, lo: nat, hi: nat, spans: seq<Span>, span: Span)
    requires Laid(text, lo, span.start, spans) && span.start < span.end && Gap(text, span.end, hi)
    ensures Laid(text, lo, hi, spans + [span])
  {
    assert (spans + [span])[..|spans|] == spans;
  }

  /** The last range may be replaced by one that starts at the same place. */
  lemma LaidReplaceLast(text: string, lo: nat, mid: nat, hi: nat, spans: seq<Span>, last: Span, end: nat)
    requires Laid(text, lo, mid, spans + [last]) && last.start < end && Gap(text, end, hi)
    ensures Laid(text, lo, hi, spans + [Span(last.start, end)])
  {
    assert (spans + [last])[..|spans|] == spans;
    LaidPush(text, lo, hi, spans, Span(last.start, end));
  }

  lemma {:induction false} LaidConcat(text: string, lo: nat, mid: nat, hi: nat, a: seq<Span>, b: seq<Span>)
    requires Laid(text, lo, mid, a) && Laid(text, mid, hi, b)
    ensures Laid(text, lo, hi, a + b)
    decreases |b|
  {
    if b == [] {
      assert a + b == a;
      LaidGrow(text, lo, mid, hi, a);
    } else {
      var last := b[|b| - 1];
      LaidConcat(text, lo, mid, last.start, a, b[..|b| - 1]);
      LaidPush(text, lo, hi, a + b[..|b| - 1], last);
      assert a + b == a + b[..|b| - 1] + [last];
    }
  }

  /** Where the layout of the first `n` ranges ends. */
  function Mark(spans: seq<Span>, n: nat, hi: nat): nat {
    if n < |spans| then spans[n].start else hi
  }

  lemma {:induction false} LaidPrefix(text: string, lo: nat, hi: nat, spans: seq<Span>, n: nat)
    requires Laid(text, lo, hi, spans) && n <= |spans|
    ensures Laid(text, lo, Mark(spans, n, hi), spans[..n])
    decreases |spans|
  {
    if n < |spans| {
      var init := spans[..|spans| - 1];
      LaidPrefix(text, lo, spans[|spans| - 1].start, init, n);
      assert init[..n] == spans[..n];
    } else {
      assert spans[..n] == spans;
    }
  }

  lemma {:induction false} LaidSlice(text: string, lo: nat, hi: nat, spans: seq<Span>, m: nat, n: nat)
    requires Laid(text, lo, hi, spans) && m <= n <= |spans|
    ensures Laid(text, Mark(spans, m, hi), Mark(spans, n, hi), spans[m..n])
    decreases n - m
  {
    LaidPrefix(text, lo, hi, spans, n);
    if m < n {
      LaidSlice(text, lo, hi, spans, m, n - 1);
      assert spans[..n][..n - 1] == spans[..n - 1];
      LaidPush(text, Mark(spans, m, hi), Mark(spans, n, hi), spans[m..n - 1], spans[n - 1]);
      assert spans[m..n] == spans[m..n - 1] + [spans[n - 1]];
    } else {
      LaidEnds(text, lo, Mark(spans, n, hi), spans[..n]);
    }
  }

  lemma {:induction false} LaidEnds(text: string, lo: nat, hi: nat, spans: seq<Span>)
    requires Laid(text, lo, hi, spans)
    ensures lo <= hi <= |text|
    ensures forall i | 0 <= i < |spans| :: lo <= spans[i].start < spans[i].end <= hi
    decreases |spans|
  {
    if spans != [] {
      LaidEnds(text, lo, spans[|spans| - 1].start, spans[..|spans| - 1]);
    }
  }

  /** Several neighbouring ranges may be replaced by the range from the first to the last of them. */
  lemma LaidMerge(text: string, lo: nat, hi: nat, spans: seq<Span>)
    requires Laid(text, lo, hi, spans) && spans != []
    ensures Laid(text, lo, hi, [Span(spans[0].start, spans[|spans| - 1].end)])
  {
    LaidPrefix(text, lo, hi, spans, 0);
    LaidEnds(text, lo, hi, spans);
    var merged := Span(spans[0].start, spans[|spans| - 1].end);
    LaidSlice(text, lo, hi, spans, 0, |spans|);
    assert spans[0..|spans|] == spans;
    LaidEnds(text, spans[0].start, hi, spans);
    assert [merged][..0] == [] && spans[..0] == [];
  }

  /** Order, disjointness and coverage: every character that is not whitespace is in exactly one range. */
  lemma {:induction false} LaidMeans(text: string, lo: nat, hi: nat, spans: seq<Span>)
    requires Laid(text, lo, hi, spans)
    ensures lo <= hi <= |text|
    ensures forall i | 0 <= i < |spans| :: lo <= spans[i].start < spans[i].end <= hi
    ensures forall i, j | 0 <= i < j < |spans| :: spans[i].end <= spans[j].start
    ensures forall k | lo <= k < hi && !IsSpace(text[k]) ::
      exists i :: 0 <= i < |spans| && spans[i].start <= k < spans[i].end
    decreases |spans|
  {
    if spans != [] {
      var n := |spans| - 1;
      var init := spans[..n];
      LaidMeans(text, lo, spans[n].start, init);
      forall k | lo <= k < hi && !IsSpace(text[k])
        ensures exists i :: 0 <= i < |spans| && spans[i].start <= k < spans[i].end
      {
        if k < spans[n].start {
          var i :| 0 <= i < |init| && init[i].start <= k < init[i].end;
          assert spans[i] == init[i];
        } else {
          assert spans[n].start <= k < spans[n].end;
        }
      }
    }
  }

  /** The loop of `document_passages` over stored ranges, from `prior` on. */
  predicate PassesRangeCheck(spans: seq<Span>, prior: nat, length: nat) {
    spans == [] ||
    (prior <= spans[0].start < spans[0].end <= length && PassesRangeCheck(spans[1..], spans[0].end, length))
  }

  lemma {:induction false} OrderedPass(spans: seq<Span>, prior: nat, length: nat)
    requires forall i | 0 <= i < |spans| :: prior <= spans[i].start < spans[i].end <= length
    requires forall i, j | 0 <= i < j < |spans| :: spans[i].end <= spans[j].start
    ensures PassesRangeCheck(spans, prior, length)
  {
    if spans != [] {
      OrderedPass(spans[1..], spans[0].end, length);
    }
  }

  /** The check passes for nothing but nonempty ranges in order, one after another within the text. */
  lemma {:induction false} PassIsOrdered(spans: seq<Span>, prior: nat, length: nat, i: nat)
    requires PassesRangeCheck(spans, prior, length) && i < |spans|
    ensures prior <= spans[i].start < spans[i].end <= length && (i > 0 ==> spans[i - 1].end <= spans[i].start)
  {
    if i > 0 {
      PassIsOrdered(spans[1..], spans[0].end, length, i - 1);
    }
  }
}
