/**
 * Counting into a JavaScript object used as a dictionary:
 * `counts[key] = (counts[key] || 0) + 1`. The object's key order (insertion
 * order, i.e. the order in which keys were first seen) is kept as a sequence
 * beside the map of counts.
 */
module Tally {
  import opened Seqs

  /** Number of occurrences of k in s; defined from the end, as a loop extends it. */
  function Count<K(==)>(s: seq<K>, k: K): nat
  {
    if s == [] then 0 else Count(s[..|s| - 1], k) + (if s[|s| - 1] == k then 1 else 0)
  }

  /** The keys of s in the order in which each is first seen. */
  function Distinct<K(==,!new)>(s: seq<K>): (d: seq<K>)
    ensures forall k :: k in d <==> k in s
    ensures NoDup(d)
  {
    if s == [] then []
    else
      var p := s[..|s| - 1];
      assert s == p + [s[|s| - 1]];
      var d := Distinct(p);
      if s[|s| - 1] in d then d else d + [s[|s| - 1]]
  }

  lemma CountSnoc<K>(s: seq<K>, x: K, k: K)
    ensures Count(s + [x], k) == Count(s, k) + (if x == k then 1 else 0)
  {
    assert (s + [x])[..|s|] == s;
  }

  lemma {:induction false} CountPositive<K>(s: seq<K>, k: K)
    ensures Count(s, k) > 0 <==> k in s
  {
    if s != [] {
      var p := s[..|s| - 1];
      assert s == p + [s[|s| - 1]];
      CountPositive(p, k);
    }
  }

  lemma DistinctSnoc<K(!new)>(s: seq<K>, x: K)
    ensures Distinct(s + [x]) == if x in s then Distinct(s) else Distinct(s) + [x]
  {
    assert (s + [x])[..|s|] == s;
  }

  /** A sequence without repetitions is its own list of distinct keys. */
  lemma {:induction false} DistinctOfNoDup<K(!new)>(s: seq<K>)
    requires NoDup(s)
    ensures Distinct(s) == s
  {
    if s != [] {
      var p := s[..|s| - 1];
      assert s == p + [s[|s| - 1]];
      DistinctOfNoDup(p);
      DistinctSnoc(p, s[|s| - 1]);
    }
  }

  /** The JavaScript dictionary state after counting every key of s, in order. */
  ghost predicate IsTally<K(!new)>(s: seq<K>, counts: map<K, nat>, order: seq<K>)
  {
    && order == Distinct(s)
    && (forall k :: k in counts <==> k in s)
    && (forall k :: k in counts ==> counts[k] == Count(s, k))
  }

  /** `counts[key] = (counts[key] || 0) + 1`. */
  function Incrementar<K>(counts: map<K, nat>, x: K): map<K, nat>
  {
    counts[x := (if x in counts then counts[x] else 0) + 1]
  }

  /** The object's key order after that assignment: a new key goes last. */
  function Anotar<K>(order: seq<K>, counts: map<K, nat>, x: K): seq<K>
  {
    if x in counts then order else order + [x]
  }

  /** One step of `counts[key] = (counts[key] || 0) + 1` keeps the dictionary the tally of the keys seen. */
  lemma {:induction false} TallyStep<K(!new)>(s: seq<K>, x: K, s2: seq<K>, counts: map<K, nat>, order: seq<K>)
    requires IsTally(s, counts, order)
    requires s2 == s + [x]
    ensures IsTally(s2, Incrementar(counts, x), Anotar(order, counts, x))
  {
    DistinctSnoc(s, x);
    forall k ensures Count(s + [x], k) == Count(s, k) + (if x == k then 1 else 0) {
      CountSnoc(s, x, k);
    }
    CountPositive(s, x);
  }

  lemma {:induction false} SumCountsIsSumBy<K>(ks: seq<K>, s: seq<K>, f: K -> int)
    requires forall k :: f(k) == Count(s, k)
    ensures SumCounts(ks, s) == SumBy(ks, f)
  {
    if ks != [] {
      SumCountsIsSumBy(ks[1..], s, f);
    }
  }

  /** Sum of the counts of the keys ks. */
  function SumCounts<K(==)>(ks: seq<K>, s: seq<K>): nat
  {
    if ks == [] then 0 else Count(s, ks[0]) + SumCounts(ks[1..], s)
  }

  lemma {:induction false} SumCountsConcat<K>(a: seq<K>, b: seq<K>, s: seq<K>)
    ensures SumCounts(a + b, s) == SumCounts(a, s) + SumCounts(b, s)
  {
    if a == [] {
      assert a + b == b;
    } else {
      assert (a + b)[1..] == a[1..] + b;
      SumCountsConcat(a[1..], b, s);
    }
  }

  /** Counting one more occurrence of x raises the sum over keys listing x once by one. */
  lemma {:induction false} SumCountsSnoc<K>(ks: seq<K>, s: seq<K>, x: K)
    requires NoDup(ks)
    ensures SumCounts(ks, s + [x]) == SumCounts(ks, s) + (if x in ks then 1 else 0)
  {
    if ks != [] {
      CountSnoc(s, x, ks[0]);
      assert NoDup(ks[1..]) by {
        forall i, j | 0 <= i < j < |ks[1..]| ensures ks[1..][i] != ks[1..][j] {
          assert ks[1..][i] == ks[i + 1] && ks[1..][j] == ks[j + 1];
        }
      }
      SumCountsSnoc(ks[1..], s, x);
      assert x in ks <==> x == ks[0] || x in ks[1..] by {
        assert ks == [ks[0]] + ks[1..];
      }
      if x == ks[0] {
        assert x !in ks[1..] by {
          forall j | 0 <= j < |ks[1..]| ensures ks[1..][j] != x {
            assert ks[1..][j] == ks[j + 1];
          }
        }
      }
    }
  }

  /** Every element is counted under exactly one key: the counts add up to the length. */
  lemma {:induction false} CountsAddUp<K(!new)>(s: seq<K>)
    ensures SumCounts(Distinct(s), s) == |s|
  {
    if s != [] {
      var p := s[..|s| - 1];
      var x := s[|s| - 1];
      assert s == p + [x];
      CountsAddUp(p);
      DistinctSnoc(p, x);
      var d := Distinct(p);
      SumCountsSnoc(Distinct(s), p, x);
      if x !in p {
        SumCountsConcat(d, [x], p);
        CountPositive(p, x);
        assert SumCounts([x], p) == Count(p, x) + SumCounts([], p);
      }
    }
  }
}
