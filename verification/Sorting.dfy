/** The numeric sort of index and id lists. */
module Sorting {
  predicate Distinct(ids: seq<int>) {
    forall i, j :: 0 <= i < j < |ids| ==> ids[i] != ids[j]
  }

  function Insert(id: int, ids: seq<int>): seq<int> {
    if ids == [] || id <= ids[0] then [id] + ids else [ids[0]] + Insert(id, ids[1..])
  }

  function Sort(ids: seq<int>): seq<int> {
    if ids == [] then [] else Insert(ids[0], Sort(ids[1..]))
  }

  predicate Sorted(ids: seq<int>) {
    |ids| >= 2 ==> ids[0] <= ids[1] && Sorted(ids[1..])
  }

  lemma {:induction false} InsertSorts(id: int, ids: seq<int>)
    requires Sorted(ids)
    ensures Sorted(Insert(id, ids)) && multiset(Insert(id, ids)) == multiset(ids) + multiset{id}
  {
    if ids != [] && id > ids[0] {
      InsertSorts(id, ids[1..]);
      assert ids == [ids[0]] + ids[1..];
      assert Insert(id, ids)[1..] == Insert(id, ids[1..]);
    } else {
      assert Insert(id, ids)[1..] == ids;
    }
  }

  lemma {:induction false} SortSorts(ids: seq<int>)
    ensures Sorted(Sort(ids)) && multiset(Sort(ids)) == multiset(ids)
  {
    if ids != [] {
      SortSorts(ids[1..]);
      InsertSorts(ids[0], Sort(ids[1..]));
      assert ids == [ids[0]] + ids[1..];
    }
  }

  lemma {:induction false} SortKeepsSorted(ids: seq<int>)
    requires Sorted(ids)
    ensures Sort(ids) == ids
  {
    if ids != [] {
      SortKeepsSorted(ids[1..]);
    }
  }

  lemma {:induction false} SortedHead(ids: seq<int>, i: nat)
    requires Sorted(ids) && i < |ids|
    ensures ids[0] <= ids[i]
  {
    if i > 0 {
      SortedHead(ids[1..], i - 1);
    }
  }

  /** Sorting keeps length, members and distinctness. */
  lemma SortKeeps(ids: seq<int>)
    ensures |Sort(ids)| == |ids| && (forall x :: x in Sort(ids) <==> x in ids)
    ensures Distinct(ids) ==> Distinct(Sort(ids))
  {
    SortSorts(ids);
    var r := Sort(ids);
    assert |multiset(r)| == |multiset(ids)|;
    forall x ensures x in r <==> x in ids {
      assert x in multiset(r) <==> x in multiset(ids);
    }
    if Distinct(ids) {
      forall i, j | 0 <= i < j < |r| ensures r[i] != r[j] {
        if r[i] == r[j] {
          TwiceInMultiset(r, i, j);
          OnceInMultiset(ids, r[i]);
          assert false;
        }
      }
    }
  }

  lemma TwiceInMultiset(s: seq<int>, i: nat, j: nat)
    requires i < j < |s| && s[i] == s[j]
    ensures multiset(s)[s[i]] >= 2
  {
    assert s == s[..j] + [s[j]] + s[j + 1..];
    assert s[i] in s[..j];
  }

  lemma {:induction false} OnceInMultiset(s: seq<int>, x: int)
    requires Distinct(s)
    ensures multiset(s)[x] <= 1
  {
    if s != [] {
      assert s == [s[0]] + s[1..];
      OnceInMultiset(s[1..], x);
      if x == s[0] {
        assert x !in s[1..];
      }
    }
  }
}
