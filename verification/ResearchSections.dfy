/** The section tree a research document is registered with (`research.py`, `_register_open`). */
module ResearchSections {
  import opened Headings

  /** A stored section: its range, and the levels and folded titles of the path down to it. */
  datatype Section = Section(title: string, start: nat, end: nat, path: seq<(nat, string)>)

  function Label(hs: seq<Heading>, fold: string -> string, i: nat): (nat, string)
    requires i < |hs|
  {
    (hs[i].level, fold(hs[i].title))
  }

  function Labels(hs: seq<Heading>, fold: string -> string, path: seq<nat>): seq<(nat, string)>
    requires Below(path, |hs|)
  {
    seq(|path|, k requires 0 <= k < |path| => Label(hs, fold, path[k]))
  }

  /** The labels of the ancestor stack after `n` headings. */
  function PathLabels(hs: seq<Heading>, fold: string -> string, n: nat): seq<(nat, string)>
    requires n <= |hs|
  {
    Labels(hs, fold, StackPath(hs, n))
  }

  predicate HasIntroduction(hs: seq<Heading>) {
    hs != [] && hs[0].start > 0
  }

  /** How many sections come before the first heading's. */
  function Offset(hs: seq<Heading>): nat {
    if HasIntroduction(hs) then 1 else 0
  }

  function Introduction(hs: seq<Heading>): Section
    requires hs != []
  {
    Section("Introduction", 0, hs[0].start, [(0, "introduction")])
  }

  function SectionOf(hs: seq<Heading>, fold: string -> string, i: nat, length: nat): Section
    requires i < |hs|
  {
    Section(hs[i].title, hs[i].start, End(hs, i, length), PathLabels(hs, fold, i + 1))
  }

  method EndOf(hs: seq<Heading>, i: nat, length: nat) returns (end: nat)
    requires i < |hs|
    ensures end == End(hs, i, length)
  {
    end := length;
    var k := i + 1;
    while k < |hs|
      invariant i < k <= |hs| && end == length
      invariant EndFrom(hs, i, i + 1, length) == EndFrom(hs, i, k, length)
    {
      if hs[k].level <= hs[i].level {
        return hs[k].start;
      }
      k := k + 1;
    }
  }

  /** Pop the ancestors the new heading closes, and push the heading. */
  method NextAncestors(hs: seq<Heading>, fold: string -> string, i: nat, before: seq<(nat, string)>, ghost path: seq<nat>)
    returns (ancestors: seq<(nat, string)>)
    requires i < |hs| && Below(path, i) && before == Labels(hs, fold, path)
    ensures ancestors == Labels(hs, fold, Popped(hs, i, path, hs[i].level) + [i])
  {
    ancestors := before;
    ghost var left := path;
    while ancestors != [] && ancestors[|ancestors| - 1].0 >= hs[i].level
      invariant Below(left, i) && ancestors == Labels(hs, fold, left)
      invariant Popped(hs, i, left, hs[i].level) == Popped(hs, i, path, hs[i].level)
      decreases |ancestors|
    {
      left := left[..|left| - 1];
      ancestors := ancestors[..|ancestors| - 1];
    }
    ancestors := ancestors + [Label(hs, fold, i)];
  }

  method Register(hs: seq<Heading>, length: nat, title: string, fold: string -> string) returns (sections: seq<Section>)
    ensures Registered(sections, hs, length, title, fold)
    ensures |sections| == if hs == [] then 1 else if hs[0].start > 0 then |hs| + 1 else |hs|
    ensures hs == [] ==> sections[0] == Section(title, 0, length, [(0, "whole document")])
    ensures hs != [] && hs[0].start > 0 ==> sections[0] == Section("Introduction", 0, hs[0].start, [(0, "introduction")])
    ensures hs != [] ==> forall k | |sections| - |hs| <= k < |sections| ::
      sections[k].title == hs[k + |hs| - |sections|].title && sections[k].start == hs[k + |hs| - |sections|].start
  {
    sections := [];
    if hs != [] && hs[0].start > 0 {
      sections := [Section("Introduction", 0, hs[0].start, [(0, "introduction")])];
    }
    var ancestors: seq<(nat, string)> := [];
    for i := 0 to |hs|
      invariant ancestors == PathLabels(hs, fold, i)
      invariant |sections| == Offset(hs) + i
      invariant HasIntroduction(hs) ==> sections[0] == Introduction(hs)
      invariant forall j | 0 <= j < i :: sections[Offset(hs) + j] == SectionOf(hs, fold, j, length)
    {
      var end := EndOf(hs, i, length);
      ancestors := NextAncestors(hs, fold, i, ancestors, StackPath(hs, i));
      sections := sections + [Section(hs[i].title, hs[i].start, end, ancestors)];
    }
    forall k | Offset(hs) <= k < |sections|
      ensures sections[k].title == hs[k - Offset(hs)].title && sections[k].start == hs[k - Offset(hs)].start
    {
      assert sections[Offset(hs) + (k - Offset(hs))] == SectionOf(hs, fold, k - Offset(hs), length);
    }
    if sections == [] {
      sections := [Section(title, 0, length, [(0, "whole document")])];
    }
  }

  /** The registered sections, as the method above stores them. */
  ghost predicate Registered(sections: seq<Section>, hs: seq<Heading>, length: nat, title: string, fold: string -> string) {
    && (hs == [] ==> sections == [Section(title, 0, length, [(0, "whole document")])])
    && (hs != [] ==> |sections| == Offset(hs) + |hs|)
    && (HasIntroduction(hs) ==> sections[0] == Introduction(hs))
    && (forall i | 0 <= i < |hs| :: sections[Offset(hs) + i] == SectionOf(hs, fold, i, length))
  }

  predicate NestedOrDisjoint(a: Section, b: Section) {
    a.end <= b.start || (a.start <= b.start && b.end <= a.end)
  }

  lemma HeadingSections(hs: seq<Heading>, fold: string -> string, i: nat, j: nat, length: nat)
    requires Ordered(hs, length) && i < j < |hs|
    ensures NestedOrDisjoint(SectionOf(hs, fold, i, length), SectionOf(hs, fold, j, length))
  {
    Laminar(hs, i, j, length);
  }

  lemma IntroductionFirst(hs: seq<Heading>, fold: string -> string, j: nat, length: nat)
    requires Ordered(hs, length) && j < |hs|
    ensures NestedOrDisjoint(Introduction(hs), SectionOf(hs, fold, j, length))
  {
  }

  /** Any two registered sections are nested or disjoint. */
  lemma SectionsAreLaminar(sections: seq<Section>, hs: seq<Heading>, length: nat, title: string, fold: string -> string, a: nat, b: nat)
    requires Ordered(hs, length) && Registered(sections, hs, length, title, fold) && a < b < |sections|
    ensures NestedOrDisjoint(sections[a], sections[b])
  {
    var offset := Offset(hs);
    var j := b - offset;
    assert sections[offset + j] == SectionOf(hs, fold, j, length);
    if a >= offset {
      var i := a - offset;
      assert sections[offset + i] == SectionOf(hs, fold, i, length);
      HeadingSections(hs, fold, i, j, length);
    } else {
      IntroductionFirst(hs, fold, j, length);
    }
  }

  lemma OpenIffContains(hs: seq<Heading>, i: nat, j: nat, length: nat)
    requires Ordered(hs, length) && i < |hs| && j < |hs|
    ensures Open(hs, j, i) <==> hs[j].start <= hs[i].start < End(hs, j, length)
  {
    EndIs(hs, j, length);
    if j < i {
      assert hs[i].start < End(hs, j, length) <==> Open(hs, j, i);
    }
  }

  /** The stored path of a heading lists exactly the sections containing the heading, outermost first, with rising levels. */
  lemma PathListsContainingSections(hs: seq<Heading>, fold: string -> string, i: nat, length: nat) returns (path: seq<nat>)
    requires Ordered(hs, length) && i < |hs|
    ensures Below(path, |hs|) && SectionOf(hs, fold, i, length).path == Labels(hs, fold, path)
    ensures forall a, b | 0 <= a < b < |path| :: path[a] < path[b] && hs[path[a]].level < hs[path[b]].level
    ensures forall j: nat | j < |hs| :: j in path <==> hs[j].start <= hs[i].start < End(hs, j, length)
  {
    path := StackPath(hs, i + 1);
    PathIsAncestors(hs, i + 1);
    forall j: nat | j < |hs| ensures j in path <==> hs[j].start <= hs[i].start < End(hs, j, length) {
      OpenIffContains(hs, i, j, length);
    }
  }

  /** Two outermost sections do not overlap. */
  lemma OutermostDisjoint(hs: seq<Heading>, i: nat, j: nat, length: nat)
    requires Ordered(hs, length) && i < j < |hs| && Outermost(hs, j)
    ensures End(hs, i, length) <= hs[j].start
  {
    Laminar(hs, i, j, length);
  }

  /** From an outermost heading on, every position lies in some outermost section. */
  lemma {:induction false} OutermostCover(hs: seq<Heading>, i: nat, length: nat, p: nat) returns (k: nat)
    requires Ordered(hs, length) && i < |hs| && Outermost(hs, i) && hs[i].start <= p < length
    ensures i <= k < |hs| && Outermost(hs, k) && hs[k].start <= p < End(hs, k, length)
    decreases |hs| - i
  {
    OutermostTile(hs, i, length);
    if p < End(hs, i, length) {
      k := i;
    } else {
      var n := NextOuter(hs, i + 1);
      NextOuterIs(hs, i + 1);
      k := OutermostCover(hs, n, length, p);
    }
  }

  lemma {:induction false} NextOuterIs(hs: seq<Heading>, k: nat)
    requires k <= |hs|
    ensures NextOuter(hs, k) < |hs| ==> Outermost(hs, NextOuter(hs, k))
    decreases |hs| - k
  {
    if k < |hs| && !Outermost(hs, k) {
      NextOuterIs(hs, k + 1);
    }
  }

  /** The introduction and the outermost sections partition the text: each position is in exactly one of them. */
  lemma TopSectionsPartition(hs: seq<Heading>, length: nat, p: nat)
    requires Ordered(hs, length) && hs != [] && p < length
    ensures p < hs[0].start <==> !(exists k :: 0 <= k < |hs| && Outermost(hs, k) && hs[k].start <= p < End(hs, k, length))
    ensures forall j, k | 0 <= j < k < |hs| && Outermost(hs, j) && Outermost(hs, k) ::
      !(hs[j].start <= p < End(hs, j, length) && hs[k].start <= p < End(hs, k, length))
  {
    OutermostTile(hs, 0, length);
    if p >= hs[0].start {
      var k := OutermostCover(hs, 0, length, p);
    }
    forall j, k | 0 <= j < k < |hs| && Outermost(hs, j) && Outermost(hs, k)
      ensures !(hs[j].start <= p < End(hs, j, length) && hs[k].start <= p < End(hs, k, length))
    {
      OutermostDisjoint(hs, j, k, length);
    }
  }
}
