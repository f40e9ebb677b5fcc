/**
 * The list operations every screen of the dashboard performs on its ordered
 * store: `filter`, `map` by identifier, append, counting and summing.
 */
module Records {

  /** A stored entity: its identifier and the rest of its fields (the source's `Omit<T, 'id'>`). */
  datatype Rec<D> = Rec(id: string, data: D)

  // ---------------------------------------------------------------------
  // order-preserving selection

  /** `r` is obtained from `s` by deleting elements, keeping the order of the rest. */
  predicate Subseq<T(==)>(r: seq<T>, s: seq<T>)
    decreases |s|
  {
    if r == [] then true
    else if s == [] then false
    else (r[0] == s[0] && Subseq(r[1..], s[1..])) || Subseq(r, s[1..])
  }

  /** `s.filter(p)`: the elements satisfying `p`, in their original order. */
  function Filter<T(==)>(s: seq<T>, p: T -> bool): (r: seq<T>)
    ensures |r| <= |s|
    ensures forall i :: 0 <= i < |r| ==> r[i] in s && p(r[i])
    ensures forall i :: 0 <= i < |s| && p(s[i]) ==> s[i] in r
    ensures Subseq(r, s)
  {
    if s == [] then []
    else
      var rest := Filter(s[1..], p);
      assert forall i :: 0 < i < |s| ==> s[i] == s[1..][i - 1];
      if p(s[0]) then
        assert ([s[0]] + rest)[1..] == rest;
        [s[0]] + rest
      else
        rest
  }

  /** Filtering distributes over concatenation; with the one-element case this determines `Filter`. */
  lemma {:induction false} FilterConcat<T>(a: seq<T>, b: seq<T>, p: T -> bool)
    ensures Filter(a + b, p) == Filter(a, p) + Filter(b, p)
    ensures Filter([], p) == []
    ensures forall x :: Filter([x], p) == if p(x) then [x] else []
  {
    if a != [] {
      assert (a + b)[1..] == a[1..] + b;
      FilterConcat(a[1..], b, p);
    } else {
      assert a + b == b;
    }
    forall x ensures Filter([x], p) == if p(x) then [x] else [] {
      assert [x][1..] == [];
    }
  }

  /** A predicate every element satisfies keeps the whole list. */
  lemma {:induction false} FilterAll<T>(s: seq<T>, p: T -> bool)
    ensures (forall x :: x in s ==> p(x)) ==> Filter(s, p) == s
  {
    if s != [] && forall x :: x in s ==> p(x) {
      assert forall x :: x in s[1..] ==> x in s;
      FilterAll(s[1..], p);
    }
  }

  /**
   * A stronger predicate keeps a subsequence of what the weaker one keeps:
   * narrowing a filter never enlarges the result.
   */
  lemma {:induction false} FilterNarrows<T>(s: seq<T>, p: T -> bool, q: T -> bool)
    requires forall x :: x in s && p(x) ==> q(x)
    ensures Subseq(Filter(s, p), Filter(s, q))
    ensures |Filter(s, p)| <= |Filter(s, q)|
  {
    if s != [] {
      assert forall x :: x in s[1..] ==> x in s;
      FilterNarrows(s[1..], p, q);
      var rp, rq := Filter(s[1..], p), Filter(s[1..], q);
      if p(s[0]) {
        assert ([s[0]] + rp)[1..] == rp && ([s[0]] + rq)[1..] == rq;
      } else if q(s[0]) {
        SubseqSkip(rp, s[0], rq);
      }
    }
  }

  /** Adding an element in front of the larger list keeps a subsequence a subsequence. */
  lemma SubseqSkip<T>(r: seq<T>, x: T, s: seq<T>)
    requires Subseq(r, s)
    ensures Subseq(r, [x] + s)
  {
    if r != [] {
      assert ([x] + s)[1..] == s;
    }
  }

  // ---------------------------------------------------------------------
  // identifiers

  function Ids<D(==)>(s: seq<Rec<D>>): seq<string> {
    seq(|s|, i requires 0 <= i < |s| => s[i].id)
  }

  predicate HasId<D(==)>(s: seq<Rec<D>>, id: string) {
    exists i :: 0 <= i < |s| && s[i].id == id
  }

  /** No two records of the list share an identifier. */
  predicate UniqueIds<D(==)>(s: seq<Rec<D>>) {
    forall i, j :: 0 <= i < j < |s| ==> s[i].id != s[j].id
  }

  /** Uniqueness of a non-empty list: a fresh head and a unique tail. */
  lemma UniqueCons<D>(s: seq<Rec<D>>)
    requires s != []
    ensures UniqueIds(s) <==> !HasId(s[1..], s[0].id) && UniqueIds(s[1..])
  {
    if !HasId(s[1..], s[0].id) && UniqueIds(s[1..]) {
      forall i, j | 0 <= i < j < |s| ensures s[i].id != s[j].id {
        if i > 0 {
          assert s[i].id == s[1..][i - 1].id && s[j].id == s[1..][j - 1].id;
        } else {
          assert s[j].id == s[1..][j - 1].id;
        }
      }
    }
    if UniqueIds(s) {
      forall k | 0 <= k < |s[1..]| ensures s[1..][k].id != s[0].id {
        assert s[1..][k] == s[k + 1];
      }
    }
  }

  // ---------------------------------------------------------------------
  // map by identifier

  /** `s.map(r => r.id === id ? {...f(r), id} : r)`: apply `f` to the records carrying `id`. */
  function UpdateById<D(==)>(s: seq<Rec<D>>, id: string, f: D -> D): (r: seq<Rec<D>>)
    ensures |r| == |s|
    ensures forall i :: 0 <= i < |s| && s[i].id == id ==> r[i] == Rec(id, f(s[i].data))
    ensures forall i :: 0 <= i < |s| && s[i].id != id ==> r[i] == s[i]
    ensures Ids(r) == Ids(s)
  {
    if s == [] then []
    else
      var head := if s[0].id == id then Rec(id, f(s[0].data)) else s[0];
      var rest := UpdateById(s[1..], id, f);
      var r := [head] + rest;
      forall i | 0 < i < |s| ensures r[i] == rest[i - 1] && s[i] == s[1..][i - 1] {
      }
      assert Ids(r) == Ids(s) by {
        forall i | 0 < i < |s| ensures Ids(r)[i] == Ids(s)[i] {
          assert Ids(rest)[i - 1] == Ids(s[1..])[i - 1];
        }
      }
      r
  }

  /** Edit-save: every record carrying `id` becomes `{...data, id}`; nothing else changes. */
  function ReplaceById<D(==)>(s: seq<Rec<D>>, id: string, data: D): (r: seq<Rec<D>>)
    ensures |r| == |s|
    ensures forall i :: 0 <= i < |s| && s[i].id == id ==> r[i] == Rec(id, data)
    ensures forall i :: 0 <= i < |s| && s[i].id != id ==> r[i] == s[i]
    ensures UniqueIds(s) ==> UniqueIds(r)
  {
    var r := UpdateById(s, id, _ => data);
    assert forall i :: 0 <= i < |s| ==> r[i].id == Ids(r)[i] == Ids(s)[i] == s[i].id;
    r
  }

  /** Updating a record whose identifier is absent changes nothing. */
  lemma UpdateAbsent<D>(s: seq<Rec<D>>, id: string, f: D -> D)
    requires !HasId(s, id)
    ensures UpdateById(s, id, f) == s
  {
  }

  /** Create-save: the new record goes at the end; with a fresh identifier ids stay unique. */
  lemma AppendFresh<D>(s: seq<Rec<D>>, freshId: string, data: D)
    ensures |s + [Rec(freshId, data)]| == |s| + 1
    ensures (s + [Rec(freshId, data)])[..|s|] == s
    ensures UniqueIds(s) && !HasId(s, freshId) ==> UniqueIds(s + [Rec(freshId, data)])
  {
    var r := s + [Rec(freshId, data)];
    if UniqueIds(s) && !HasId(s, freshId) {
      forall i, j | 0 <= i < j < |r| ensures r[i].id != r[j].id {
        if j == |s| {
          assert r[i] == s[i];
        } else {
          assert r[i] == s[i] && r[j] == s[j];
        }
      }
    }
  }

  // ---------------------------------------------------------------------
  // removal by identifier

  /** `s.filter(r => r.id !== id)`. */
  function RemoveById<D(==)>(s: seq<Rec<D>>, id: string): (r: seq<Rec<D>>)
    ensures forall i :: 0 <= i < |r| ==> r[i] in s && r[i].id != id
    ensures forall i :: 0 <= i < |s| && s[i].id != id ==> s[i] in r
    ensures Subseq(r, s)
    ensures !HasId(r, id)
  {
    Filter(s, (x: Rec<D>) => x.id != id)
  }

  /** Removing by identifier keeps identifiers unique. */
  lemma {:induction false} RemoveKeepsUnique<D>(s: seq<Rec<D>>, id: string)
    requires UniqueIds(s)
    ensures UniqueIds(RemoveById(s, id))
  {
    if s != [] {
      UniqueCons(s);
      RemoveKeepsUnique(s[1..], id);
      var rest := RemoveById(s[1..], id);
      assert RemoveById(s, id) == if s[0].id != id then [s[0]] + rest else rest;
      if s[0].id != id {
        var r := [s[0]] + rest;
        assert r[1..] == rest;
        UniqueCons(r);
      }
    }
  }

  /** With unique identifiers, removing a present identifier shortens the list by exactly one. */
  lemma {:induction false} RemoveExactlyOne<D>(s: seq<Rec<D>>, id: string)
    requires UniqueIds(s)
    ensures HasId(s, id) ==> |RemoveById(s, id)| == |s| - 1
    ensures !HasId(s, id) ==> RemoveById(s, id) == s
  {
    if s == [] {
    } else {
      UniqueCons(s);
      RemoveExactlyOne(s[1..], id);
      var rest := RemoveById(s[1..], id);
      assert RemoveById(s, id) == if s[0].id != id then [s[0]] + rest else rest;
      assert HasId(s, id) <==> s[0].id == id || HasId(s[1..], id) by {
        if HasId(s, id) && s[0].id != id {
          var k :| 0 <= k < |s| && s[k].id == id;
          assert s[1..][k - 1].id == id;
        }
        if HasId(s[1..], id) {
          var k :| 0 <= k < |s[1..]| && s[1..][k].id == id;
          assert s[k + 1].id == id;
        }
      }
      if s[0].id == id {
        assert !HasId(s[1..], id);
      } else {
        assert s == [s[0]] + s[1..];
      }
    }
  }

  // ---------------------------------------------------------------------
  // index removal

  /** `s.filter((_, i) => i !== index)`: drop the element at `index`, if there is one. */
  function RemoveAt<T(==)>(s: seq<T>, index: int): (r: seq<T>)
    ensures 0 <= index < |s| ==> r == s[..index] + s[index + 1..]
    ensures !(0 <= index < |s|) ==> r == s
  {
    if s == [] then []
    else
      var rest := RemoveAt(s[1..], index - 1);
      if index == 0 then rest
      else
        assert 0 < index < |s| ==> s[..index] + s[index + 1..] == [s[0]] + (s[1..][..index - 1] + s[1..][index..]);
        [s[0]] + rest
  }

  /** A property of every element and of a new one holds for every element after appending it. */
  lemma AppendKeeps<T>(s: seq<T>, x: T, p: T -> bool)
    requires p(x)
    ensures (forall k :: 0 <= k < |s| ==> p(s[k])) ==> forall k :: 0 <= k < |s + [x]| ==> p((s + [x])[k])
  {
    if forall k :: 0 <= k < |s| ==> p(s[k]) {
      forall k | 0 <= k < |s + [x]| ensures p((s + [x])[k]) {
        if k < |s| {
          assert (s + [x])[k] == s[k];
        }
      }
    }
  }

  /** Every element left after removing one by index was already in the list: a property of all elements survives. */
  lemma RemoveAtKeeps<T>(s: seq<T>, index: int, p: T -> bool)
    requires forall k :: 0 <= k < |s| ==> p(s[k])
    ensures forall k :: 0 <= k < |RemoveAt(s, index)| ==> p(RemoveAt(s, index)[k])
  {
    var r := RemoveAt(s, index);
    if 0 <= index < |s| {
      forall k | 0 <= k < |r| ensures p(r[k]) {
        if k < index {
          assert r[k] == s[k];
        } else {
          assert r[k] == s[k + 1];
        }
      }
    }
  }

  // ---------------------------------------------------------------------
  // counting and summing

  /** `s.filter(p).length`. */
  function Count<T(==)>(s: seq<T>, p: T -> bool): nat {
    |Filter(s, p)|
  }

  /** Counting one step at a time. */
  lemma CountCons<T>(s: seq<T>, p: T -> bool)
    requires s != []
    ensures Count(s, p) == (if p(s[0]) then 1 else 0) + Count(s[1..], p)
  {
  }

  /** Every element satisfies `p` or its negation, never both. */
  lemma {:induction false} CountComplement<T>(s: seq<T>, p: T -> bool, notP: T -> bool)
    requires forall x :: notP(x) == !p(x)
    ensures Count(s, p) + Count(s, notP) == |s|
  {
    if s != [] {
      CountComplement(s[1..], p, notP);
      CountCons(s, p);
      CountCons(s, notP);
    }
  }

  /** Three mutually exclusive predicates count at most the list; exactly the list when one always holds. */
  lemma {:induction false} CountThree<T>(s: seq<T>, p: T -> bool, q: T -> bool, r: T -> bool)
    requires forall x :: !(p(x) && q(x)) && !(p(x) && r(x)) && !(q(x) && r(x))
    ensures Count(s, p) + Count(s, q) + Count(s, r) <= |s|
    ensures (forall x :: x in s ==> p(x) || q(x) || r(x)) ==> Count(s, p) + Count(s, q) + Count(s, r) == |s|
  {
    if s != [] {
      assert forall x :: x in s[1..] ==> x in s;
      CountThree(s[1..], p, q, r);
      CountCons(s, p);
      CountCons(s, q);
      CountCons(s, r);
    }
  }

  /** `s.reduce((acc, x) => acc + f(x), 0)` on integers. */
  function Sum<T>(s: seq<T>, f: T -> int): int {
    if s == [] then 0 else f(s[0]) + Sum(s[1..], f)
  }

  /** Bounds on every term bound the sum. */
  lemma {:induction false} SumBounds<T>(s: seq<T>, f: T -> int, lo: int, hi: int)
    requires forall i :: 0 <= i < |s| ==> lo <= f(s[i]) <= hi
    ensures lo * |s| <= Sum(s, f) <= hi * |s|
  {
    if s != [] {
      var n := |s| - 1;
      assert forall i :: 0 <= i < n ==> s[1..][i] == s[i + 1];
      SumBounds(s[1..], f, lo, hi);
      assert lo * (n + 1) == lo * n + lo;
      assert hi * (n + 1) == hi * n + hi;
    }
  }

  /** A pointwise smaller term gives a smaller sum. */
  lemma {:induction false} SumMonotone<T>(s: seq<T>, f: T -> int, g: T -> int)
    requires forall i :: 0 <= i < |s| ==> f(s[i]) <= g(s[i])
    ensures Sum(s, f) <= Sum(s, g)
  {
    if s != [] {
      assert forall i :: 0 <= i < |s| - 1 ==> s[1..][i] == s[i + 1];
      SumMonotone(s[1..], f, g);
    }
  }

  /** Non-negative terms give a non-negative sum. */
  lemma {:induction false} SumNonNegative<T>(s: seq<T>, f: T -> int)
    requires forall i :: 0 <= i < |s| ==> 0 <= f(s[i])
    ensures 0 <= Sum(s, f)
  {
    if s != [] {
      assert forall i :: 0 <= i < |s| - 1 ==> s[1..][i] == s[i + 1];
      SumNonNegative(s[1..], f);
    }
  }

  /** The same reduction on real numbers. */
  function SumReal<T>(s: seq<T>, f: T -> real): real {
    if s == [] then 0.0 else f(s[0]) + SumReal(s[1..], f)
  }

  lemma {:induction false} SumRealBounds<T>(s: seq<T>, f: T -> real, hi: real)
    requires forall i :: 0 <= i < |s| ==> 0.0 <= f(s[i]) <= hi
    ensures 0.0 <= SumReal(s, f) <= hi * |s| as real
  {
    if s != [] {
      var n := |s| - 1;
      assert forall i :: 0 <= i < n ==> s[1..][i] == s[i + 1];
      SumRealBounds(s[1..], f, hi);
      assert hi * (n + 1) as real == hi * n as real + hi;
    }
  }
}
