/** Generic operations over the in-memory record lists that every page keeps:
    the array methods `filter`, `map`, `find` and `reduce` as the pages use them. */
module Lists {

  datatype Option<T> = None | Some(value: T)

  /** `s.filter(p)`: the elements satisfying `p`, in their original order. */
  function Filter<T(!new)>(s: seq<T>, p: T -> bool): (r: seq<T>)
    ensures |r| <= |s|
    ensures forall x :: x in r <==> x in s && p(x)
  {
    if s == [] then []
    else
      assert s == s[..|s| - 1] + [s[|s| - 1]];
      var init := Filter(s[..|s| - 1], p);
      if p(s[|s| - 1]) then init + [s[|s| - 1]] else init
  }

  /** The positions of `s` whose element satisfies `p`, in increasing order. */
  function Kept<T>(s: seq<T>, p: T -> bool): (idx: seq<nat>)
    ensures forall k :: 0 <= k < |idx| ==> idx[k] < |s| && p(s[idx[k]])
    ensures forall k, l :: 0 <= k < l < |idx| ==> idx[k] < idx[l]
    ensures forall i :: 0 <= i < |s| && p(s[i]) ==> i in idx
  {
    if s == [] then []
    else
      var init := Kept(s[..|s| - 1], p);
      if p(s[|s| - 1]) then init + [|s| - 1] else init
  }

  /** The filter is exactly the elements at the kept positions: an order-preserving
      subsequence that drops nothing satisfying `p`. */
  lemma {:induction false} FilterIsKept<T(!new)>(s: seq<T>, p: T -> bool)
    ensures |Filter(s, p)| == |Kept(s, p)|
    ensures forall k :: 0 <= k < |Kept(s, p)| ==> Filter(s, p)[k] == s[Kept(s, p)[k]]
  {
    if s != [] {
      var init := s[..|s| - 1];
      FilterIsKept(init, p);
      var f, ks := Filter(init, p), Kept(init, p);
      forall k | 0 <= k < |ks| ensures s[ks[k]] == f[k] {
        assert s[ks[k]] == init[ks[k]];
      }
      if p(s[|s| - 1]) {
        assert Filter(s, p) == f + [s[|s| - 1]];
        assert Kept(s, p) == ks + [|s| - 1];
      } else {
        assert Filter(s, p) == f;
        assert Kept(s, p) == ks;
      }
    }
  }

  /** Filtering a concatenation filters each part. */
  lemma {:induction false} FilterAppend<T(!new)>(s: seq<T>, t: seq<T>, p: T -> bool)
    ensures Filter(s + t, p) == Filter(s, p) + Filter(t, p)
    decreases |t|
  {
    if t == [] {
      assert s + t == s;
    } else {
      var t' := t[..|t| - 1];
      assert (s + t)[..|s + t| - 1] == s + t';
      FilterAppend(s, t', p);
    }
  }

  /** When every element satisfies `p`, the filter keeps the whole list. */
  lemma {:induction false} FilterAll<T(!new)>(s: seq<T>, p: T -> bool)
    requires forall x :: x in s ==> p(x)
    ensures Filter(s, p) == s
  {
    if s != [] {
      assert s == s[..|s| - 1] + [s[|s| - 1]];
      FilterAll(s[..|s| - 1], p);
    }
  }

  /** Filtering twice with the same predicate is filtering once. */
  lemma FilterIdempotent<T(!new)>(s: seq<T>, p: T -> bool)
    ensures Filter(Filter(s, p), p) == Filter(s, p)
  {
    FilterAll(Filter(s, p), p);
  }

  /** `s.filter(p).length`. */
  function Count<T(!new)>(s: seq<T>, p: T -> bool): (n: nat)
    ensures n <= |s|
  {
    |Filter(s, p)|
  }

  /** Every element satisfies exactly one of `p` and its negation. */
  lemma {:induction false} CountComplement<T(!new)>(s: seq<T>, p: T -> bool, q: T -> bool)
    requires forall x :: q(x) == !p(x)
    ensures Count(s, p) + Count(s, q) == |s|
  {
    if s != [] {
      CountComplement(s[..|s| - 1], p, q);
    }
  }

  /** Counts of two predicates that no element satisfies together add up to the
      count of their disjunction. */
  lemma {:induction false} CountDisjoint<T(!new)>(s: seq<T>, p: T -> bool, q: T -> bool, pq: T -> bool)
    requires forall x :: x in s ==> !(p(x) && q(x))
    requires forall x :: pq(x) == (p(x) || q(x))
    ensures Count(s, p) + Count(s, q) == Count(s, pq)
  {
    if s != [] {
      CountDisjoint(s[..|s| - 1], p, q, pq);
    }
  }

  /** `s.reduce((sum, x) => sum + f(x), 0)`. */
  function Sum<T>(s: seq<T>, f: T -> int): (r: int)
    ensures (forall x :: x in s ==> f(x) >= 0) ==> r >= 0
  {
    if s == [] then 0 else Sum(s[..|s| - 1], f) + f(s[|s| - 1])
  }

  /** Summing is linear: a per-element identity `h == f - g - k` lifts to the sums. */
  lemma {:induction false} SumLinear<T>(s: seq<T>, h: T -> int, f: T -> int, g: T -> int, k: T -> int)
    requires forall x :: x in s ==> h(x) == f(x) - g(x) - k(x)
    ensures Sum(s, h) == Sum(s, f) - Sum(s, g) - Sum(s, k)
  {
    if s != [] {
      SumLinear(s[..|s| - 1], h, f, g, k);
    }
  }

  /** Every summand at least `lo` gives a sum at least `lo` times the length. */
  lemma {:induction false} SumAtLeast<T>(s: seq<T>, f: T -> int, lo: int)
    requires forall x :: x in s ==> f(x) >= lo
    ensures Sum(s, f) >= |s| * lo
  {
    if s != [] {
      SumAtLeast(s[..|s| - 1], f, lo);
    }
  }

  /** The total of a tally's entries, `Object.values(m).reduce((a, b) => a + b, 0)`;
      addition does not depend on the order the entries are visited in. */
  ghost function MapSum<K>(m: map<K, nat>): nat
    decreases |m|
  {
    if m == map[] then 0
    else
      var k :| k in m;
      m[k] + MapSum(m - {k})
  }

  /** Any entry can be taken out first. */
  lemma {:induction false} MapSumRemove<K>(m: map<K, nat>, k: K)
    requires k in m
    ensures MapSum(m) == m[k] + MapSum(m - {k})
    decreases |m|
  {
    var j :| j in m && MapSum(m) == m[j] + MapSum(m - {j});
    if j != k {
      assert |m - {j}| == |m| - 1;
      assert |m - {k}| == |m| - 1;
      MapSumRemove(m - {j}, k);
      MapSumRemove(m - {k}, j);
      assert (m - {j}) - {k} == (m - {k}) - {j};
    }
  }

  /** Setting an entry to `v` changes the total by `v` less the entry's old value
      (0 when there was none). */
  lemma MapSumUpdate<K>(m: map<K, nat>, k: K, v: nat)
    ensures MapSum(m[k := v]) + (if k in m then m[k] else 0) == MapSum(m) + v
  {
    MapSumRemove(m[k := v], k);
    assert m[k := v] - {k} == m - {k};
    if k in m {
      MapSumRemove(m, k);
    } else {
      assert m - {k} == m;
    }
  }

  /** `s.map(x => key(x) === id ? upd(x) : x)`. */
  function MapWhere<T>(s: seq<T>, key: T -> string, id: string, upd: T -> T): (r: seq<T>)
    ensures |r| == |s|
    ensures forall i :: 0 <= i < |s| ==> r[i] == if key(s[i]) == id then upd(s[i]) else s[i]
  {
    if s == [] then []
    else
      var last := s[|s| - 1];
      MapWhere(s[..|s| - 1], key, id, upd) + [if key(last) == id then upd(last) else last]
  }

  /** The update function that ignores the old record: the page stores a freshly built record. */
  function Overwrite<T>(rec: T): T -> T
  {
    _ => rec
  }

  /** Replacing under an id no record has changes nothing. */
  lemma MapWhereAbsent<T>(s: seq<T>, key: T -> string, id: string, upd: T -> T)
    requires forall x :: x in s ==> key(x) != id
    ensures MapWhere(s, key, id, upd) == s
  {
    var r := MapWhere(s, key, id, upd);
    assert forall i :: 0 <= i < |s| ==> r[i] == s[i] by {
      forall i | 0 <= i < |s| ensures r[i] == s[i] {
        assert s[i] in s;
      }
    }
  }

  /** Two updates of the same id compose when the first keeps the id. */
  lemma MapWhereTwice<T>(s: seq<T>, key: T -> string, id: string, f: T -> T, g: T -> T, gf: T -> T)
    requires forall x :: key(x) == id ==> key(f(x)) == id
    requires forall x :: gf(x) == g(f(x))
    ensures MapWhere(MapWhere(s, key, id, f), key, id, g) == MapWhere(s, key, id, gf)
  {
  }

  /** `s.filter(x => key(x) !== id)`. */
  function RemoveId<T(!new)>(s: seq<T>, key: T -> string, id: string): (r: seq<T>)
    ensures forall x :: x in r <==> x in s && key(x) != id
  {
    Filter(s, x => key(x) != id)
  }

  /** Removing an id no record has changes nothing. */
  lemma RemoveAbsent<T(!new)>(s: seq<T>, key: T -> string, id: string)
    requires forall x :: x in s ==> key(x) != id
    ensures RemoveId(s, key, id) == s
  {
    FilterAll(s, x => key(x) != id);
  }

  /** `s.findIndex(x => key(x) === id)`: the first position holding `id`. */
  function FindIndex<T>(s: seq<T>, key: T -> string, id: string): (r: Option<nat>)
    ensures r.Some? ==> r.value < |s| && key(s[r.value]) == id
    ensures r.Some? ==> forall j :: 0 <= j < r.value ==> key(s[j]) != id
    ensures r.None? ==> forall j :: 0 <= j < |s| ==> key(s[j]) != id
  {
    if s == [] then None
    else if key(s[0]) == id then Some(0)
    else match FindIndex(s[1..], key, id)
      case None => None
      case Some(i) => Some(i + 1)
  }

  /** `r` is what a page shows for `id`: the field of the first element holding `id`,
      or "" when no element does. */
  predicate Shows<T>(s: seq<T>, key: T -> string, id: string, field: T -> string, r: string)
  {
    ((forall j :: 0 <= j < |s| ==> key(s[j]) != id) ==> r == "") &&
    (forall i :: 0 <= i < |s| && key(s[i]) == id && (forall j :: 0 <= j < i ==> key(s[j]) != id)
       ==> r == field(s[i]))
  }

  /** `s.find(x => key(x) === id)?.field || ""`: a display field copied from the first
      record holding `id`, or the empty string when no record does. */
  function Lookup<T>(s: seq<T>, key: T -> string, id: string, field: T -> string): (r: string)
    ensures Shows(s, key, id, field, r)
  {
    assert forall i | 0 <= i < |s| && key(s[i]) == id && (forall j :: 0 <= j < i ==> key(s[j]) != id)
      :: FindIndex(s, key, id) == Some(i) by {
      forall i | 0 <= i < |s| && key(s[i]) == id && (forall j :: 0 <= j < i ==> key(s[j]) != id)
        ensures FindIndex(s, key, id) == Some(i)
      {
        FindIndexFirst(s, key, id, i);
      }
    }
    match FindIndex(s, key, id)
    case Some(i) => field(s[i])
    case None => ""
  }

  /** The first position holding `id` is the one `FindIndex` returns. */
  lemma FindIndexFirst<T>(s: seq<T>, key: T -> string, id: string, i: nat)
    requires i < |s| && key(s[i]) == id
    requires forall j :: 0 <= j < i ==> key(s[j]) != id
    ensures FindIndex(s, key, id) == Some(i)
  {
    var r := FindIndex(s, key, id);
    assert r.Some?;
    assert !(r.value < i);
    assert !(r.value > i);
  }
}
