/** Sequence operations the source takes from JavaScript's Array and String
    prototypes (`filter`, `flat`, `join`, `split`), with the facts the rest of
    the model needs about them. */
module Seqs {

  /** `Array.prototype.filter`: the elements satisfying `p`, in their order. */
  function Filter<T>(s: seq<T>, p: T -> bool): (r: seq<T>)
    ensures |r| <= |s|
    ensures forall k :: 0 <= k < |r| ==> r[k] in s && p(r[k])
    ensures forall k :: 0 <= k < |s| && p(s[k]) ==> s[k] in r
  {
    if |s| == 0 then [] else (if p(s[0]) then [s[0]] else []) + Filter(s[1..], p)
  }

  /** Filtering distributes over concatenation; together with the one-element
      case this pins `Filter` down as the order-preserving selection. */
  lemma {:induction false} FilterConcat<T>(a: seq<T>, b: seq<T>, p: T -> bool)
    ensures Filter(a + b, p) == Filter(a, p) + Filter(b, p)
  {
    if |a| == 0 {
      assert a + b == b;
    } else {
      assert (a + b)[0] == a[0];
      assert (a + b)[1..] == a[1..] + b;
      FilterConcat(a[1..], b, p);
    }
  }

  /** Filtering a sequence whose elements all pass returns it unchanged. */
  lemma {:induction false} FilterAllPass<T>(s: seq<T>, p: T -> bool)
    requires forall k :: 0 <= k < |s| ==> p(s[k])
    ensures Filter(s, p) == s
  {
    if |s| > 0 {
      FilterAllPass(s[1..], p);
    }
  }

  /** Filtering a sequence none of whose elements pass gives the empty sequence. */
  lemma {:induction false} FilterNonePass<T>(s: seq<T>, p: T -> bool)
    requires forall k :: 0 <= k < |s| ==> !p(s[k])
    ensures Filter(s, p) == []
  {
    if |s| > 0 {
      FilterNonePass(s[1..], p);
    }
  }

  /** Filtering twice with the same predicate equals filtering once. */
  lemma FilterIdempotent<T>(s: seq<T>, p: T -> bool)
    ensures Filter(Filter(s, p), p) == Filter(s, p)
  {
    FilterAllPass(Filter(s, p), p);
  }

  /** A predicate and its complement split a sequence: their two filters
      together hold every element exactly as often as the sequence does. */
  lemma {:induction false} FilterComplement<T>(s: seq<T>, p: T -> bool, q: T -> bool)
    requires forall x :: q(x) == !p(x)
    ensures multiset(Filter(s, p)) + multiset(Filter(s, q)) == multiset(s)
    ensures |Filter(s, p)| + |Filter(s, q)| == |s|
  {
    if |s| > 0 {
      FilterComplement(s[1..], p, q);
      assert s == [s[0]] + s[1..];
    }
  }

  /** `Array.prototype.flat` on a sequence of sequences (left to right). */
  function Flatten<T>(ss: seq<seq<T>>): (r: seq<T>)
  {
    if |ss| == 0 then [] else Flatten(ss[..|ss| - 1]) + ss[|ss| - 1]
  }

  /** The flattened length is the sum of the piece lengths. */
  function TotalLength<T>(ss: seq<seq<T>>): nat
  {
    if |ss| == 0 then 0 else TotalLength(ss[..|ss| - 1]) + |ss[|ss| - 1]|
  }

  lemma {:induction false} FlattenLength<T>(ss: seq<seq<T>>)
    ensures |Flatten(ss)| == TotalLength(ss)
  {
    if |ss| > 0 {
      FlattenLength(ss[..|ss| - 1]);
    }
  }

  /** Appending one more piece appends its elements. */
  lemma FlattenSnoc<T>(ss: seq<seq<T>>, x: seq<T>)
    ensures Flatten(ss + [x]) == Flatten(ss) + x
  {
    assert (ss + [x])[..|ss|] == ss;
  }

  /** `FlattenMember` for every element at once. */
  lemma FlattenMembers<T>(ss: seq<seq<T>>)
    ensures forall x :: x in Flatten(ss) <==> exists k :: 0 <= k < |ss| && x in ss[k]
  {
    forall x
      ensures x in Flatten(ss) <==> exists k :: 0 <= k < |ss| && x in ss[k]
    {
      FlattenMember(ss, x);
    }
  }

  /** The flattened sequence is what precedes piece `k`, then piece `k`,
      then what follows it. */
  lemma {:induction false} FlattenSplit<T>(ss: seq<seq<T>>, k: int)
    requires 0 <= k < |ss|
    ensures Flatten(ss) == Flatten(ss[..k]) + ss[k] + Flatten(ss[k + 1..])
  {
    var n := |ss|;
    var init := ss[..n - 1];
    assert Flatten(ss) == Flatten(init) + ss[n - 1];
    if k == n - 1 {
      assert ss[k + 1..] == [];
    } else {
      FlattenSplit(init, k);
      assert init[..k] == ss[..k] && init[k] == ss[k];
      var post := ss[k + 1..];
      assert post[..|post| - 1] == init[k + 1..];
      assert post[|post| - 1] == ss[n - 1];
      assert Flatten(post) == Flatten(init[k + 1..]) + ss[n - 1];
    }
  }

  /** `Array.prototype.map`. */
  function Map<A, B>(f: A -> B, s: seq<A>): (r: seq<B>)
    ensures |r| == |s| && forall k :: 0 <= k < |s| ==> r[k] == f(s[k])
  {
    seq(|s|, k requires 0 <= k < |s| => f(s[k]))
  }

  lemma MapConcat<A, B>(f: A -> B, a: seq<A>, b: seq<A>)
    ensures Map(f, a + b) == Map(f, a) + Map(f, b)
  {
  }

  /** Filtering with one predicate and then another is filtering with the
      second and then the first. */
  lemma {:induction false} FilterCommute<T>(s: seq<T>, p: T -> bool, q: T -> bool)
    ensures Filter(Filter(s, p), q) == Filter(Filter(s, q), p)
  {
    if |s| > 0 {
      FilterCommute(s[1..], p, q);
      var h := Filter([s[0]], p);
      FilterConcat(h, Filter(s[1..], p), q);
      FilterConcat(Filter([s[0]], q), Filter(s[1..], q), p);
      assert [s[0]][1..] == [];
    }
  }

  /** Filtering with one predicate and then another is filtering once with
      their conjunction. */
  lemma {:induction false} FilterAnd<T>(s: seq<T>, p: T -> bool, q: T -> bool, pq: T -> bool)
    requires forall x :: pq(x) == (p(x) && q(x))
    ensures Filter(Filter(s, p), q) == Filter(s, pq)
  {
    if |s| > 0 {
      FilterAnd(s[1..], p, q, pq);
      FilterConcat(Filter([s[0]], p), Filter(s[1..], p), q);
      assert [s[0]][1..] == [];
    }
  }

  /** Filtering a flattened sequence filters each piece. */
  lemma {:induction false} FilterFlatten<T>(ss: seq<seq<T>>, p: T -> bool)
    ensures Filter(Flatten(ss), p) == Flatten(seq(|ss|, k requires 0 <= k < |ss| => Filter(ss[k], p)))
  {
    var fs := seq(|ss|, k requires 0 <= k < |ss| => Filter(ss[k], p));
    if |ss| > 0 {
      var init := ss[..|ss| - 1];
      FilterFlatten(init, p);
      FilterConcat(Flatten(init), ss[|ss| - 1], p);
      assert fs[..|fs| - 1] == seq(|init|, k requires 0 <= k < |init| => Filter(init[k], p));
    }
  }

  /** Flattening pieces that are all empty but one gives that piece. */
  lemma {:induction false} FlattenSingle<T>(ss: seq<seq<T>>, i: int)
    requires 0 <= i < |ss|
    requires forall k :: 0 <= k < |ss| && k != i ==> ss[k] == []
    ensures Flatten(ss) == ss[i]
  {
    FlattenUpTo(ss, i, |ss|);
    assert ss[..|ss|] == ss;
  }

  lemma {:induction false} FlattenUpTo<T>(ss: seq<seq<T>>, i: int, n: nat)
    requires 0 <= i < |ss| && n <= |ss|
    requires forall k :: 0 <= k < |ss| && k != i ==> ss[k] == []
    ensures Flatten(ss[..n]) == if i < n then ss[i] else []
  {
    if n > 0 {
      FlattenUpTo(ss, i, n - 1);
      assert ss[..n][..n - 1] == ss[..n - 1];
    }
  }

  /** An element is in a flattened sequence exactly when it is in one of the pieces. */
  lemma {:induction false} FlattenMember<T>(ss: seq<seq<T>>, x: T)
    ensures x in Flatten(ss) <==> exists k :: 0 <= k < |ss| && x in ss[k]
  {
    if |ss| > 0 {
      var init := ss[..|ss| - 1];
      FlattenMember(init, x);
      assert forall k :: 0 <= k < |init| ==> init[k] == ss[k];
    }
  }

  /** `Array.prototype.join(sep)` on strings. */
  function Join(xs: seq<string>, sep: string): (r: string)
  {
    if |xs| == 0 then "" else if |xs| == 1 then xs[0] else xs[0] + sep + Join(xs[1..], sep)
  }

  /** A character absent from every piece and from the separator is absent
      from the joined string. */
  lemma {:induction false} JoinAvoids(xs: seq<string>, sep: string, c: char)
    requires forall k :: 0 <= k < |xs| ==> c !in xs[k]
    requires c !in sep
    ensures c !in Join(xs, sep)
  {
    if |xs| > 1 {
      JoinAvoids(xs[1..], sep, c);
    }
  }

  /** Number of occurrences of `c` in `s`. */
  function Occurrences(s: string, c: char): nat
  {
    if |s| == 0 then 0 else (if s[0] == c then 1 else 0) + Occurrences(s[1..], c)
  }

  lemma {:induction false} OccurrencesConcat(a: string, b: string, c: char)
    ensures Occurrences(a + b, c) == Occurrences(a, c) + Occurrences(b, c)
  {
    if |a| == 0 {
      assert a + b == b;
    } else {
      assert (a + b)[1..] == a[1..] + b;
      OccurrencesConcat(a[1..], b, c);
    }
  }

  lemma {:induction false} OccurrencesAbsent(s: string, c: char)
    requires c !in s
    ensures Occurrences(s, c) == 0
  {
    if |s| > 0 {
      OccurrencesAbsent(s[1..], c);
    }
  }

  /** Joining n pieces that do not contain `c` with a separator holding `c`
      once yields exactly n - 1 occurrences of `c`. */
  lemma {:induction false} JoinOccurrences(xs: seq<string>, sep: string, c: char)
    requires |xs| >= 1
    requires forall k :: 0 <= k < |xs| ==> c !in xs[k]
    requires Occurrences(sep, c) == 1
    ensures Occurrences(Join(xs, sep), c) == |xs| - 1
  {
    if |xs| == 1 {
      OccurrencesAbsent(xs[0], c);
    } else {
      JoinOccurrences(xs[1..], sep, c);
      OccurrencesAbsent(xs[0], c);
      OccurrencesConcat(xs[0], sep, c);
      OccurrencesConcat(xs[0] + sep, Join(xs[1..], sep), c);
    }
  }

  /** `String.prototype.split(c)` for a one-character separator: never empty,
      empty pieces kept (`"a,,b"` gives three pieces, `""` gives one). */
  function Split(s: string, c: char): (r: seq<string>)
    ensures |r| >= 1
    ensures forall k :: 0 <= k < |r| ==> c !in r[k]
  {
    if |s| == 0 then [""]
    else
      var rest := Split(s[1..], c);
      if s[0] == c then [""] + rest else [[s[0]] + rest[0]] + rest[1..]
  }

  /** Joining the pieces of a split with the separator gives the string back. */
  lemma {:induction false} JoinSplit(s: string, c: char)
    ensures Join(Split(s, c), [c]) == s
  {
    if |s| > 0 {
      var rest := Split(s[1..], c);
      JoinSplit(s[1..], c);
      if s[0] == c {
        assert Split(s, c) == [""] + rest;
        assert ([""] + rest)[1..] == rest;
      } else {
        var r := [[s[0]] + rest[0]] + rest[1..];
        assert Split(s, c) == r;
        if |rest| > 1 {
          assert r[1..] == rest[1..];
          assert Join(rest, [c]) == rest[0] + [c] + Join(rest[1..], [c]);
        }
      }
    }
  }

  /** Splitting a string in which `c` does not occur gives that one piece. */
  lemma {:induction false} SplitAbsent(s: string, c: char)
    requires c !in s
    ensures Split(s, c) == [s]
  {
    if |s| > 0 {
      SplitAbsent(s[1..], c);
      assert [s[0]] + s[1..] == s;
    }
  }

  /** A piece free of `c` followed by `c` splits off as the first piece. */
  lemma {:induction false} SplitPrefix(a: string, c: char, rest: string)
    requires c !in a
    ensures Split(a + [c] + rest, c) == [a] + Split(rest, c)
  {
    if |a| == 0 {
      assert a + [c] + rest == [c] + rest;
      assert ([c] + rest)[1..] == rest;
    } else {
      var s := a + [c] + rest;
      assert s[0] == a[0];
      assert s[1..] == a[1..] + [c] + rest;
      SplitPrefix(a[1..], c, rest);
      assert [a[0]] + a[1..] == a;
    }
  }

  /** Splitting pieces free of `c` that were joined with `c` gives the pieces back. */
  lemma {:induction false} SplitJoin(xs: seq<string>, c: char)
    requires |xs| >= 1
    requires forall k :: 0 <= k < |xs| ==> c !in xs[k]
    ensures Split(Join(xs, [c]), c) == xs
  {
    if |xs| == 1 {
      SplitAbsent(xs[0], c);
    } else {
      SplitJoin(xs[1..], c);
      SplitPrefix(xs[0], c, Join(xs[1..], [c]));
      assert [xs[0]] + xs[1..] == xs;
    }
  }
}
