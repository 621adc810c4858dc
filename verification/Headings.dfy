/**
  Heading structure of a text. `passage_index.py` filters a path of ancestors, `research.py`
  keeps a stack; both are shown equal to the interval definition: heading `j` is an ancestor
  of heading `i` when the section that `j` opens still contains `i`.
 */
module Headings {

  datatype Heading = Heading(start: nat, level: nat, title: string)

  /** Matches of a heading pattern: in text order, inside the text. */
  ghost predicate Ordered(hs: seq<Heading>, length: nat) {
    && (forall i | 0 <= i < |hs| :: hs[i].start < length)
    && (forall i, j | 0 <= i < j < |hs| :: hs[i].start < hs[j].start)
  }

  /** Where the section opened by heading `i` ends: at the next heading of the same or a higher rank. */
  function EndFrom(hs: seq<Heading>, i: nat, k: nat, length: nat): nat
    requires i < |hs| && k <= |hs|
    decreases |hs| - k
  {
    if k == |hs| then length
    else if hs[k].level <= hs[i].level then hs[k].start
    else EndFrom(hs, i, k + 1, length)
  }

  function End(hs: seq<Heading>, i: nat, length: nat): nat
    requires i < |hs|
  {
    EndFrom(hs, i, i + 1, length)
  }

  ghost predicate Open(hs: seq<Heading>, j: nat, i: nat)
    requires i < |hs|
  {
    j <= i && forall k | j < k <= i :: hs[k].level > hs[j].level
  }

  ghost predicate Below(path: seq<nat>, n: nat) {
    forall i | 0 <= i < |path| :: path[i] < n
  }

  /** `path = [p for p in path if depth(p) < level]` */
  function Above(hs: seq<Heading>, n: nat, path: seq<nat>, level: nat): (r: seq<nat>)
    requires n <= |hs| && Below(path, n)
    ensures Below(r, n)
  {
    if path == [] then []
    else
      var rest := Above(hs, n, path[..|path| - 1], level);
      if hs[path[|path| - 1]].level < level then rest + [path[|path| - 1]] else rest
  }

  /** The path after the first `n` headings, by filtering. */
  function FilteredPath(hs: seq<Heading>, n: nat): (r: seq<nat>)
    requires n <= |hs|
    ensures Below(r, n)
  {
    if n == 0 then [] else Above(hs, n - 1, FilteredPath(hs, n - 1), hs[n - 1].level) + [n - 1]
  }

  /** `while ancestors and ancestors[-1].level >= level: ancestors.pop()` */
  function Popped(hs: seq<Heading>, n: nat, path: seq<nat>, level: nat): (r: seq<nat>)
    requires n <= |hs| && Below(path, n)
    ensures Below(r, n)
  {
    if path != [] && hs[path[|path| - 1]].level >= level
    then Popped(hs, n, path[..|path| - 1], level)
    else path
  }

  function StackPath(hs: seq<Heading>, n: nat): (r: seq<nat>)
    requires n <= |hs|
    ensures Below(r, n)
  {
    if n == 0 then [] else Popped(hs, n - 1, StackPath(hs, n - 1), hs[n - 1].level) + [n - 1]
  }

  ghost predicate Descending(hs: seq<Heading>, path: seq<nat>)
    requires Below(path, |hs|)
  {
    && (forall a, b | 0 <= a < b < |path| :: path[a] < path[b])
    && (forall a, b | 0 <= a < b < |path| :: hs[path[a]].level < hs[path[b]].level)
  }

  lemma {:induction false} AboveMembers(hs: seq<Heading>, n: nat, path: seq<nat>, level: nat, p: nat)
    requires n <= |hs| && Below(path, n)
    ensures p in Above(hs, n, path, level) <==> p in path && p < |hs| && hs[p].level < level
  {
    if path != [] {
      var last := path[|path| - 1];
      AboveMembers(hs, n, path[..|path| - 1], level, p);
      assert path == path[..|path| - 1] + [last];
    }
  }

  lemma {:induction false} AboveAll(hs: seq<Heading>, n: nat, path: seq<nat>, level: nat)
    requires n <= |hs| && Below(path, n) && forall i | 0 <= i < |path| :: hs[path[i]].level < level
    ensures Above(hs, n, path, level) == path
  {
    if path != [] {
      AboveAll(hs, n, path[..|path| - 1], level);
      assert path == path[..|path| - 1] + [path[|path| - 1]];
    }
  }

  /** On a path of strictly increasing levels, filtering and popping coincide. */
  lemma {:induction false} AboveIsPopped(hs: seq<Heading>, n: nat, path: seq<nat>, level: nat)
    requires n <= |hs| && Below(path, n) && Descending(hs, path)
    ensures Above(hs, n, path, level) == Popped(hs, n, path, level)
    ensures var r := Popped(hs, n, path, level);
      Below(r, n) && Descending(hs, r) && (forall i | 0 <= i < |r| :: hs[r[i]].level < level)
  {
    if path != [] {
      if hs[path[|path| - 1]].level < level {
        AboveAll(hs, n, path, level);
      } else {
        AboveIsPopped(hs, n, path[..|path| - 1], level);
      }
    }
  }

  lemma PushKeeps(hs: seq<Heading>, n: nat, path: seq<nat>)
    requires n < |hs| && Below(path, n) && Descending(hs, path)
    requires forall i | 0 <= i < |path| :: hs[path[i]].level < hs[n].level
    ensures Descending(hs, path + [n])
  {
  }

  lemma {:induction false} StackIsFilter(hs: seq<Heading>, n: nat)
    requires n <= |hs|
    ensures StackPath(hs, n) == FilteredPath(hs, n)
    ensures Descending(hs, StackPath(hs, n))
  {
    if n > 0 {
      StackIsFilter(hs, n - 1);
      AboveIsPopped(hs, n - 1, StackPath(hs, n - 1), hs[n - 1].level);
      PushKeeps(hs, n - 1, Popped(hs, n - 1, StackPath(hs, n - 1), hs[n - 1].level));
    }
  }

  lemma PushMembers(hs: seq<Heading>, n: nat, j: nat, before: seq<nat>)
    requires 0 < n <= |hs| && Below(before, n - 1) && Descending(hs, before)
    requires n == 1 ==> before == []
    requires n > 1 ==> (j in before <==> Open(hs, j, n - 2))
    ensures j in Popped(hs, n - 1, before, hs[n - 1].level) + [n - 1] <==> Open(hs, j, n - 1)
  {
    AboveIsPopped(hs, n - 1, before, hs[n - 1].level);
    AboveMembers(hs, n - 1, before, hs[n - 1].level, j);
    if n > 1 {
      OpenNext(hs, j, n - 1);
    }
  }

  lemma {:induction false} StackMembers(hs: seq<Heading>, n: nat, j: nat)
    requires 0 < n <= |hs|
    ensures j in StackPath(hs, n) <==> Open(hs, j, n - 1)
  {
    StackIsFilter(hs, n - 1);
    if n > 1 {
      StackMembers(hs, n - 1, j);
    }
    PushMembers(hs, n, j, StackPath(hs, n - 1));
  }

  lemma OpenNext(hs: seq<Heading>, j: nat, i: nat)
    requires 0 < i < |hs|
    ensures Open(hs, j, i) <==> j == i || (Open(hs, j, i - 1) && hs[j].level < hs[i].level)
  {
  }

  /**
    The stack, the filter and the interval definition give the same path: the headings whose
    section is still open, outermost first and with strictly increasing levels.
   */
  lemma PathIsAncestors(hs: seq<Heading>, n: nat)
    requires 0 < n <= |hs|
    ensures StackPath(hs, n) == FilteredPath(hs, n)
    ensures Descending(hs, StackPath(hs, n))
    ensures forall j: nat :: j in StackPath(hs, n) <==> Open(hs, j, n - 1)
  {
    StackIsFilter(hs, n);
    forall j: nat ensures j in StackPath(hs, n) <==> Open(hs, j, n - 1) {
      StackMembers(hs, n, j);
    }
  }

  lemma {:induction false} EndFromIs(hs: seq<Heading>, i: nat, k: nat, length: nat)
    requires Ordered(hs, length) && i < k <= |hs|
    requires forall m | i < m < k :: hs[m].level > hs[i].level
    ensures var e := EndFrom(hs, i, k, length);
      && hs[i].start < e <= length
      && (forall m | i < m < |hs| :: hs[m].start < e <==> Open(hs, i, m))
      && (e == length || exists m :: k <= m < |hs| && e == hs[m].start && hs[m].level <= hs[i].level)
    decreases |hs| - k
  {
    if k < |hs| {
      if hs[k].level > hs[i].level {
        EndFromIs(hs, i, k + 1, length);
      } else {
        forall m | i < m < |hs| ensures hs[m].start < hs[k].start <==> Open(hs, i, m) {
          if m >= k {
            assert !Open(hs, i, m);
          }
        }
      }
    } else {
      assert forall m | i < m < |hs| :: Open(hs, i, m);
    }
  }

  /** A section contains a later heading exactly when it is open there. */
  lemma EndIs(hs: seq<Heading>, i: nat, length: nat)
    requires Ordered(hs, length) && i < |hs|
    ensures var e := End(hs, i, length);
      && hs[i].start < e <= length
      && (forall m | i < m < |hs| :: hs[m].start < e <==> Open(hs, i, m))
      && (e == length || exists m :: i < m < |hs| && e == hs[m].start && hs[m].level <= hs[i].level)
  {
    EndFromIs(hs, i, i + 1, length);
  }

  /** Sections never overlap partially: a later section lies inside an earlier one or after it. */
  lemma Laminar(hs: seq<Heading>, i: nat, j: nat, length: nat)
    requires Ordered(hs, length) && i < j < |hs|
    ensures End(hs, i, length) <= hs[j].start || End(hs, j, length) <= End(hs, i, length)
    ensures End(hs, j, length) <= End(hs, i, length) <==> Open(hs, i, j)
  {
    EndIs(hs, i, length);
    EndIs(hs, j, length);
    if Open(hs, i, j) && End(hs, i, length) != length {
      var m :| i < m < |hs| && End(hs, i, length) == hs[m].start && hs[m].level <= hs[i].level;
      assert m > j && hs[m].level < hs[j].level;
      assert !Open(hs, j, m);
    }
  }

  /** No earlier section contains heading `k`. */
  ghost predicate Outermost(hs: seq<Heading>, k: nat)
    requires k < |hs|
  {
    forall j | 0 <= j < k :: !Open(hs, j, k)
  }

  ghost function NextOuter(hs: seq<Heading>, k: nat): (r: nat)
    requires k <= |hs|
    ensures k <= r <= |hs|
    decreases |hs| - k
  {
    if k == |hs| || Outermost(hs, k) then k else NextOuter(hs, k + 1)
  }

  /** The first section is outermost, and each outermost one ends where the next one starts, or with the text. */
  lemma OutermostTile(hs: seq<Heading>, i: nat, length: nat)
    requires i < |hs| && Outermost(hs, i)
    ensures var n := NextOuter(hs, i + 1);
      End(hs, i, length) == if n == |hs| then length else hs[n].start
    ensures Outermost(hs, 0)
  {
    OuterFrom(hs, i, i + 1, length);
  }

  lemma {:induction false} OuterFrom(hs: seq<Heading>, i: nat, k: nat, length: nat)
    requires i < k <= |hs| && Outermost(hs, i)
    requires forall m | i < m < k :: hs[m].level > hs[i].level
    ensures var n := NextOuter(hs, k);
      EndFrom(hs, i, k, length) == if n == |hs| then length else hs[n].start
    decreases |hs| - k
  {
    if k < |hs| {
      if hs[k].level > hs[i].level {
        assert Open(hs, i, k);
        OuterFrom(hs, i, k + 1, length);
      } else {
        forall j | 0 <= j < k ensures !Open(hs, j, k) {
          if Open(hs, j, k) && j < i {
            assert Open(hs, j, i);
          }
        }
      }
    }
  }
}
