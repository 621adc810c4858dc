/** The insertion-ordered dictionaries of the conversation memory, as values. */
module OrderedDict {

  datatype Dict<K(==,!new), V> = Dict(order: seq<K>, at: map<K, V>) {

    ghost predicate Valid() {
      && (forall i, j | 0 <= i < j < |order| :: order[i] != order[j])
      && (forall k :: k in order <==> k in at)
    }

    /** `pop(key, None)` */
    function Pop(k: K): (d: Dict<K, V>) {
      Dict(Without(order, k), at - {k})
    }

    /** Assigning a key that was just popped puts it last. */
    function PutLast(k: K, v: V): (d: Dict<K, V>) {
      Dict(Without(order, k) + [k], at[k := v])
    }

    /** `while len(d) > limit: d.popitem(last=False)` */
    function Trim(limit: nat): (d: Dict<K, V>)
      decreases |order|
    {
      if |order| <= limit then this else Dict(order[1..], at - {order[0]}).Trim(limit)
    }
  }

  function Without<K(==,!new)>(s: seq<K>, k: K): (r: seq<K>) {
    if s == [] then []
    else if s[0] == k then s[1..]
    else [s[0]] + Without(s[1..], k)
  }

  lemma {:induction false} WithoutKeeps<K(!new)>(s: seq<K>, k: K)
    requires forall i, j | 0 <= i < j < |s| :: s[i] != s[j]
    ensures var r := Without(s, k);
      && (forall i, j | 0 <= i < j < |r| :: r[i] != r[j])
      && (forall x :: x in r <==> x in s && x != k)
      && |r| == (if k in s then |s| - 1 else |s|)
  {
    if s == [] {
    } else if s[0] == k {
      assert s == [s[0]] + s[1..];
    } else {
      var rest := Without(s[1..], k);
      WithoutKeeps(s[1..], k);
      assert s == [s[0]] + s[1..];
      assert Without(s, k) == [s[0]] + rest;
      assert s[0] !in s[1..];
    }
  }

  /** Recording under a key makes it the newest entry and leaves every other entry as it was. */
  lemma PutLastKeeps<K(!new), V>(d: Dict<K, V>, k: K, v: V)
    requires d.Valid()
    ensures d.PutLast(k, v).Valid()
    ensures |d.PutLast(k, v).order| == (if k in d.at then |d.order| else |d.order| + 1)
  {
    WithoutKeeps(d.order, k);
    var p := d.PutLast(k, v);
    forall x ensures x in p.order <==> x in p.at {
      assert x in p.order <==> x in Without(d.order, k) || x == k;
    }
  }

  lemma PopKeeps<K(!new), V>(d: Dict<K, V>, k: K)
    requires d.Valid()
    ensures d.Pop(k).Valid()
    ensures k !in d.Pop(k).at
    ensures |d.Pop(k).order| <= |d.order|
  {
    WithoutKeeps(d.order, k);
    var p := d.Pop(k);
    forall x ensures x in p.order <==> x in p.at {
      assert x in p.order <==> x in d.order && x != k;
    }
  }

  lemma {:induction false} WithoutAbsent<K(!new)>(s: seq<K>, k: K)
    requires k !in s
    ensures Without(s, k) == s
  {
    if s != [] {
      WithoutAbsent(s[1..], k);
      assert s == [s[0]] + s[1..];
    }
  }

  /** `popitem(last=False)` removes the oldest entry and nothing else. */
  lemma DropOldest<K(!new), V>(d: Dict<K, V>)
    requires d.Valid() && d.order != []
    ensures var r := Dict(d.order[1..], d.at - {d.order[0]});
      && r.Valid()
      && d.order[0] !in r.at
      && (forall x | x in d.at && x != d.order[0] :: x in r.at && r.at[x] == d.at[x])
  {
    var r := Dict(d.order[1..], d.at - {d.order[0]});
    assert d.order == [d.order[0]] + r.order;
    forall x ensures x in r.order <==> x in r.at {
      assert x in d.order <==> x == d.order[0] || x in r.order;
    }
  }

  /**
    Recording under a key of a bounded dictionary keeps it bounded and makes that entry the
    newest; at most one other entry goes, the oldest one, and only when the dictionary was full.
   */
  lemma RecordKeeps<K(!new), V>(d: Dict<K, V>, k: K, v: V, limit: nat)
    requires d.Valid() && |d.order| <= limit && limit >= 1
    ensures var r := d.PutLast(k, v).Trim(limit);
      && r.Valid() && |r.order| <= limit
      && k in r.at && r.at[k] == v && r.order[|r.order| - 1] == k
      && (forall x | x in r.at && x != k :: x in d.at && r.at[x] == d.at[x])
      && (forall x | x in d.at && x !in r.at :: |d.order| == limit && k !in d.at && x == d.order[0])
  {
    var p := d.PutLast(k, v);
    PutLastKeeps(d, k, v);
    if |p.order| > limit {
      assert k !in d.order;
      WithoutAbsent(d.order, k);
      DropOldest(p);
      var r := Dict(p.order[1..], p.at - {p.order[0]});
      assert p.Trim(limit) == r.Trim(limit) == r;
      assert p.order[0] == d.order[0];
    } else {
      assert p.Trim(limit) == p;
    }
  }
}
