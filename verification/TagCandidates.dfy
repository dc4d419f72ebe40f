/** The candidate sets of private-tag channels. */
module TagCandidates {
  import opened Wrappers
  import opened Numbers
  import opened Sorting

  /** `Math.floor(Math.sqrt(n))` */
  function Sqrt(n: nat): (s: nat)
    ensures s * s <= n < (s + 1) * (s + 1)
  {
    if n == 0 then 0
    else
      var s := Sqrt(n - 1);
      if (s + 1) * (s + 1) <= n then s + 1 else s
  }

  function Decoys(n: nat): (d: nat)
    ensures d >= 1 && n < (d + 1) * (d + 1) && (d > 1 ==> d * d <= n)
  {
    if Sqrt(n) > 1 then Sqrt(n) else 1
  }

  function Candidate(n: nat, recipient: nat, offset: nat): (c: nat)
    requires n > 0
    ensures c < n && (offset == 0 && recipient < n ==> c == recipient)
  {
    (recipient + offset * 2) % n
  }

  /** The candidate list after offsets 1 to k of the subset loop. */
  function After(n: nat, recipient: nat, k: nat): seq<int>
    requires n > 0
  {
    if k == 0 then [recipient]
    else
      var before := After(n, recipient, k - 1);
      var index := Candidate(n, recipient, k);
      if index in before then before else before + [index]
  }

  /** The loop's exit condition is met at some offset. */
  ghost predicate Terminates(n: nat, recipient: nat)
    requires n > 0
  {
    exists k: nat :: |After(n, recipient, k)| >= Decoys(n) + 1
  }

  /** The parties for which the subset loop ends: exactly when the step-2 residues suffice. */
  predicate EnoughParties(n: nat) {
    n == 3 || n >= 5
  }

  lemma StepsSuffice(n: nat)
    requires EnoughParties(n)
    ensures 2 * Decoys(n) < n
  {
    RootBounds(n, Sqrt(n));
  }

  lemma RootBounds(n: nat, s: nat)
    requires s * s <= n < (s + 1) * (s + 1)
    ensures s <= 1 ==> n < 4
    ensures s == 2 ==> n >= 4
    ensures s >= 3 ==> 3 * s <= n
  {
    if s <= 1 {
      assert s == 0 || s == 1;
    } else if s >= 3 {
      var d := s - 3;
      assert s * s == 3 * s + d * s;
      assert d * s >= 0;
    }
  }

  lemma CandidatesDiffer(n: nat, recipient: nat, i: nat, j: nat)
    requires n > 0 && i < j && 2 * (j - i) < n
    ensures Candidate(n, recipient, i) != Candidate(n, recipient, j)
  {
    if Congruent(recipient + j * 2, recipient + i * 2, n) {
      var k := Quotient(recipient + j * 2, recipient + i * 2, n);
      NoMultipleBetween(2 * (j - i), k, n);
    }
  }

  lemma NoMultipleBetween(d: int, k: int, n: nat)
    requires 0 < d < n
    ensures d != k * n
  {
    assert k <= 0 ==> k * n <= 0;
    assert k >= 1 ==> k * n >= n;
  }

  /** While the residues suffice no offset is ever wasted. */
  lemma {:induction false} AfterExact(n: nat, recipient: nat, k: nat)
    requires recipient < n && 2 * k < n
    ensures |After(n, recipient, k)| == k + 1
    ensures forall i :: 0 <= i <= k ==> After(n, recipient, k)[i] == Candidate(n, recipient, i)
  {
    if k > 0 {
      AfterExact(n, recipient, k - 1);
      var before := After(n, recipient, k - 1);
      forall i | 0 <= i < k ensures before[i] != Candidate(n, recipient, k) {
        CandidatesDiffer(n, recipient, i, k);
      }
    }
  }

  /** With one, two or four parties the list stops growing too early. */
  lemma {:induction false} AfterStuck(n: nat, recipient: nat, k: nat)
    requires recipient < n && (n == 1 || n == 2 || n == 4)
    ensures var c := After(n, recipient, k);
            c == [recipient] || (n == 4 && c == [recipient, (recipient + 2) % 4])
  {
    hide Candidate;
    if k > 0 {
      AfterStuck(n, recipient, k - 1);
      FewResidues(n, recipient, k);
      assert After(n, recipient, k - 1)[0] == recipient;
    }
  }

  /** Steps of two reach one residue of 1 or 2, and two residues of 4. */
  lemma FewResidues(n: nat, recipient: nat, k: nat)
    requires recipient < n && (n == 1 || n == 2 || n == 4)
    ensures Candidate(n, recipient, k) == recipient || (n == 4 && Candidate(n, recipient, k) == (recipient + 2) % 4)
  {
    var x := recipient + k * 2;
    if n == 1 {
      ResidueUnique(x, x, 0, n);
    } else if n == 2 {
      ResidueUnique(x, k, recipient, n);
    } else {
      var r := recipient + 2 * (k % 2);
      if r < 4 {
        ResidueUnique(x, k / 2, r, n);
      } else {
        ResidueUnique(x, k / 2 + 1, r - 4, n);
      }
    }
  }

  /** The subset loop ends for every recipient exactly when there are three, or at least five, parties. */
  lemma TerminatesIff(n: nat, recipient: nat)
    requires recipient < n
    ensures Terminates(n, recipient) <==> EnoughParties(n)
  {
    if EnoughParties(n) {
      StepsSuffice(n);
      AfterExact(n, recipient, Decoys(n));
    } else {
      forall k: nat ensures |After(n, recipient, k)| < Decoys(n) + 1 {
        AfterStuck(n, recipient, k);
      }
    }
  }

  /** The subset mode of `retailTagCandidateIndices`. */
  method SubsetCandidates(n: nat, recipient: nat) returns (r: seq<int>)
    requires recipient < n && EnoughParties(n)
    ensures |r| == Decoys(n) + 1 && Sorted(r) && Distinct(r)
    ensures recipient in r && forall i :: 0 <= i < |r| ==> 0 <= r[i] < n
    ensures r == Sort(After(n, recipient, Decoys(n)))
  {
    hide Sqrt, Decoys, Candidate, Sort, Sorted, Distinct;
    StepsSuffice(n);
    var candidates, offset := [recipient], 1;
    while |candidates| < Decoys(n) + 1
      invariant 1 <= offset <= Decoys(n) + 1
      invariant candidates == After(n, recipient, offset - 1) && |candidates| == offset
      decreases Decoys(n) + 1 - offset
    {
      var index := Candidate(n, recipient, offset);
      AfterExact(n, recipient, offset);
      if index !in candidates {
        candidates := candidates + [index];
      }
      offset := offset + 1;
    }
    r := Sort(candidates);
    SortedGood(n, recipient, candidates, Decoys(n));
  }

  lemma SortedGood(n: nat, recipient: nat, candidates: seq<int>, k: nat)
    requires recipient < n && 2 * k < n && candidates == After(n, recipient, k)
    ensures var r := Sort(candidates);
            && |r| == |candidates| && Sorted(r) && Distinct(r)
            && recipient in r && forall i :: 0 <= i < |r| ==> 0 <= r[i] < n
  {
    hide After, Sort, Sorted, Distinct;
    AfterGood(n, recipient, k);
    SortSorts(candidates);
    SortKeeps(candidates);
    var r := Sort(candidates);
    forall i | 0 <= i < |r| ensures 0 <= r[i] < n {
      assert r[i] in candidates;
    }
  }

  lemma AfterGood(n: nat, recipient: nat, k: nat)
    requires recipient < n && 2 * k < n
    ensures var c := After(n, recipient, k);
            Distinct(c) && recipient in c && forall x :: x in c ==> 0 <= x < n
  {
    hide After, Candidate;
    AfterExact(n, recipient, k);
    var c := After(n, recipient, k);
    forall i, j | 0 <= i < j < |c| ensures c[i] != c[j] {
      CandidatesDiffer(n, recipient, i, j);
    }
    assert c[0] == recipient;
  }

  // ---------- rift ----------

  /** The caller's clean-up: in range, not the recipient, first occurrences only. */
  function Clean(raw: seq<int>, n: nat, recipient: nat): (r: seq<int>)
    ensures Distinct(r)
    ensures forall x :: x in r <==> x in raw && 0 <= x < n && x != recipient
  {
    if raw == [] then []
    else
      var m := |raw| - 1;
      var rest := Clean(raw[..m], n, recipient);
      assert raw == raw[..m] + [raw[m]];
      if 0 <= raw[m] < n && raw[m] != recipient && raw[m] !in rest then rest + [raw[m]] else rest
  }

  function Range(n: nat, excluded: seq<int>, recipient: nat): (r: seq<int>)
    ensures forall x :: x in r <==> 0 <= x < n && !(x in excluded && x != recipient)
    ensures forall i :: 0 <= i < |r| ==> r[i] < n
    ensures forall i, j :: 0 <= i < j < |r| ==> r[i] < r[j]
  {
    if n == 0 then []
    else
      var before := Range(n - 1, excluded, recipient);
      if n - 1 in excluded && n - 1 != recipient then before else before + [n - 1]
  }

  /** The rift mode behind the caller's guard: `None` is the rejected request. */
  function RiftCandidates(raw: seq<int>, n: nat, recipient: nat): Option<seq<int>> {
    var excluded := Clean(raw, n, recipient);
    if |excluded| >= n - 1 then None else Some(Range(n, excluded, recipient))
  }

  /** How many of the first n indices are excluded. */
  function CountBelow(excluded: seq<int>, n: nat): nat {
    if n == 0 then 0 else (if n - 1 in excluded then 1 else 0) + CountBelow(excluded, n - 1)
  }

  lemma {:induction false} RangeLength(n: nat, excluded: seq<int>, recipient: nat)
    requires recipient !in excluded
    ensures |Range(n, excluded, recipient)| == n - CountBelow(excluded, n)
  {
    if n > 0 {
      RangeLength(n - 1, excluded, recipient);
    }
  }

  lemma {:induction false} CountDrop(excluded: seq<int>, x: int, n: nat)
    requires x !in excluded
    ensures CountBelow(excluded + [x], n) == CountBelow(excluded, n) + if 0 <= x < n then 1 else 0
  {
    if n > 0 {
      CountDrop(excluded, x, n - 1);
    }
  }

  lemma {:induction false} CountAll(excluded: seq<int>, n: nat)
    requires Distinct(excluded) && forall i :: 0 <= i < |excluded| ==> 0 <= excluded[i] < n
    ensures CountBelow(excluded, n) == |excluded|
  {
    if excluded == [] {
      CountNone(n);
    } else {
      var m := |excluded| - 1;
      CountAll(excluded[..m], n);
      CountDrop(excluded[..m], excluded[m], n);
      assert excluded == excluded[..m] + [excluded[m]];
    }
  }

  lemma {:induction false} CountNone(n: nat)
    ensures CountBelow([], n) == 0
  {
    if n > 0 {
      CountNone(n - 1);
    }
  }

  /** An accepted rift set keeps the recipient, drops exactly the exclusions, and leaves at least two
      candidates; a request is rejected exactly when it excludes everybody else. */
  lemma RiftExact(raw: seq<int>, n: nat, recipient: nat)
    requires recipient < n
    ensures var r := RiftCandidates(raw, n, recipient);
            r.Some? ==>
              && recipient in r.value && |r.value| >= 2
              && (forall x :: x in r.value <==> 0 <= x < n && (x == recipient || x !in raw))
    ensures RiftCandidates(raw, n, recipient).Some? <==> exists x :: 0 <= x < n && x != recipient && x !in raw
  {
    hide Clean, Range, CountBelow, Distinct;
    var excluded := Clean(raw, n, recipient);
    forall i | 0 <= i < |excluded| ensures 0 <= excluded[i] < n {
      assert excluded[i] in excluded;
    }
    CountAll(excluded, n);
    RangeLength(n, excluded, recipient);
    AnotherKept(Range(n, excluded, recipient), recipient);
  }

  lemma AnotherKept(kept: seq<int>, recipient: int)
    requires recipient in kept && forall i, j :: 0 <= i < j < |kept| ==> kept[i] < kept[j]
    ensures |kept| >= 2 <==> exists x :: x in kept && x != recipient
  {
    if |kept| >= 2 {
      var x := if kept[0] == recipient then kept[1] else kept[0];
      assert x in kept;
    } else {
      assert kept == [recipient];
    }
  }
}
