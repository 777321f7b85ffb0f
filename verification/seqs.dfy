/** Order-preserving selection from a sequence. The benchmark uses it to say
    which attempts leave a trace in each of its result lists, and in what
    order. */
module Seqs {

  /** The elements of `s` that satisfy `p`, in their original order. */
  function Filter<T>(s: seq<T>, p: T -> bool): (r: seq<T>)
    ensures |r| <= |s|
    ensures forall i :: 0 <= i < |r| ==> p(r[i])
    decreases |s|
  {
    if |s| == 0 then []
    else (if p(s[0]) then [s[0]] else []) + Filter(s[1..], p)
  }

  /** An element is selected exactly when it occurs in `s` and satisfies `p`. */
  lemma {:induction false} FilterMembers<T>(s: seq<T>, p: T -> bool)
    ensures forall i :: 0 <= i < |Filter(s, p)| ==> Filter(s, p)[i] in s
    ensures forall i :: 0 <= i < |s| && p(s[i]) ==> s[i] in Filter(s, p)
    decreases |s|
  {
    if |s| > 0 {
      FilterMembers(s[1..], p);
      var head := if p(s[0]) then [s[0]] else [];
      assert Filter(s, p) == head + Filter(s[1..], p);
      forall i | 0 <= i < |s| && p(s[i]) ensures s[i] in Filter(s, p) {
        if i > 0 {
          assert s[i] == s[1..][i - 1];
        }
      }
    }
  }

  /** Selecting from a concatenation selects from each part in turn. */
  lemma {:induction false} FilterConcat<T>(a: seq<T>, b: seq<T>, p: T -> bool)
    ensures Filter(a + b, p) == Filter(a, p) + Filter(b, p)
    decreases |a|
  {
    if |a| == 0 {
      assert a + b == b;
    } else {
      assert (a + b)[0] == a[0];
      assert (a + b)[1..] == a[1..] + b;
      FilterConcat(a[1..], b, p);
    }
  }

  /** When two predicates are complementary on the elements of `s`, every
      element is selected by exactly one of them. */
  lemma {:induction false} FilterPartition<T>(s: seq<T>, p: T -> bool, q: T -> bool)
    requires forall k :: 0 <= k < |s| ==> q(s[k]) == !p(s[k])
    ensures |Filter(s, p)| + |Filter(s, q)| == |s|
    decreases |s|
  {
    if |s| > 0 {
      FilterPartition(s[1..], p, q);
    }
  }

  /** Selecting keeps a sequence that is ordered by `key` ordered. */
  lemma {:induction false} FilterKeepsOrder<T>(s: seq<T>, p: T -> bool, key: T -> int)
    requires forall k, l :: 0 <= k < l < |s| ==> key(s[k]) <= key(s[l])
    ensures forall k, l :: 0 <= k < l < |Filter(s, p)| ==> key(Filter(s, p)[k]) <= key(Filter(s, p)[l])
    decreases |s|
  {
    if |s| > 0 {
      var tail := s[1..];
      forall k, l | 0 <= k < l < |tail| ensures key(tail[k]) <= key(tail[l]) {
        assert tail[k] == s[k + 1] && tail[l] == s[l + 1];
      }
      FilterKeepsOrder(tail, p, key);
      FilterMembers(tail, p);
      var rest := Filter(tail, p);
      forall y | y in rest ensures key(s[0]) <= key(y) {
        var m :| 0 <= m < |tail| && tail[m] == y;
        assert y == s[m + 1];
      }
    }
  }

  /** Selecting with `p` then with a stronger `q` is selecting with `q`. */
  lemma {:induction false} FilterOfSubset<T>(s: seq<T>, p: T -> bool, q: T -> bool)
    requires forall x :: q(x) ==> p(x)
    ensures Filter(Filter(s, p), q) == Filter(s, q)
    decreases |s|
  {
    if |s| > 0 {
      FilterOfSubset(s[1..], p, q);
      var head := if p(s[0]) then [s[0]] else [];
      FilterConcat(head, Filter(s[1..], p), q);
    }
  }

  /** Concatenation is associative. */
  lemma SeqAssoc<T>(a: seq<T>, b: seq<T>, c: seq<T>)
    ensures (a + b) + c == a + (b + c)
  {
  }
}
