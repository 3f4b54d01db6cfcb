/**
 * Order-preserving filtering of sequences, the `Array.prototype.filter`
 * that both the exhibitor store and the attendee page rely on, and the
 * subsequence relation it produces.
 */
module Lists {

  /** `items.map(f)`: one result per item, in item order. */
  function Map<T, U>(f: T -> U, items: seq<T>): (r: seq<U>)
    ensures |r| == |items|
    ensures forall k :: 0 <= k < |items| ==> r[k] == f(items[k])
  {
    if items == [] then [] else [f(items[0])] + Map(f, items[1..])
  }

  /** `a` can be obtained from `b` by deleting elements (matched greedily). */
  predicate IsSubseq<T(==)>(a: seq<T>, b: seq<T>)
    decreases |b|
  {
    if a == [] then true
    else if b == [] then false
    else if a[0] == b[0] then IsSubseq(a[1..], b[1..])
    else IsSubseq(a, b[1..])
  }

  /** A subsequence is never longer than the sequence it is taken from. */
  lemma {:induction false} SubseqLength<T>(a: seq<T>, b: seq<T>)
    requires IsSubseq(a, b)
    ensures |a| <= |b|
    decreases |b|
  {
    if a != [] {
      if a[0] == b[0] {
        SubseqLength(a[1..], b[1..]);
      } else {
        SubseqLength(a, b[1..]);
      }
    }
  }

  /** The elements of `s` that satisfy `p`, in their original order. */
  function Filter<T(==)>(p: T -> bool, s: seq<T>): (r: seq<T>)
    ensures |r| <= |s|
    ensures forall x :: x in r ==> x in s && p(x)
    ensures IsSubseq(r, s)
  {
    if s == [] then []
    else if p(s[0]) then [s[0]] + Filter(p, s[1..])
    else
      var rest := Filter(p, s[1..]);
      SubseqOfTail(rest, s);
      rest
  }

  lemma {:induction false} SubseqOfTail<T>(a: seq<T>, b: seq<T>)
    requires |b| > 0 && IsSubseq(a, b[1..])
    ensures IsSubseq(a, b)
    decreases |a| + |b|, 1
  {
    if a != [] && a[0] == b[0] {
      DropFirst(a, b[1..]);
    }
  }

  lemma {:induction false} DropFirst<T>(a: seq<T>, c: seq<T>)
    requires a != [] && IsSubseq(a, c)
    ensures IsSubseq(a[1..], c)
    decreases |a| + |c|, 0
  {
    if a[0] == c[0] {
      SubseqOfTail(a[1..], c);
    } else {
      DropFirst(a, c[1..]);
      SubseqOfTail(a[1..], c);
    }
  }

  /** Every element that satisfies `p` survives, as often as it occurs. */
  lemma {:induction false} FilterMultiset<T>(p: T -> bool, s: seq<T>, x: T)
    ensures multiset(Filter(p, s))[x] == if p(x) then multiset(s)[x] else 0
  {
    if s != [] {
      FilterMultiset(p, s[1..], x);
      assert s == [s[0]] + s[1..];
    }
  }

  /** Membership in the result is exactly membership in `s` plus `p`. */
  lemma FilterMember<T>(p: T -> bool, s: seq<T>, x: T)
    ensures x in Filter(p, s) <==> x in s && p(x)
  {
    FilterMultiset(p, s, x);
  }

  /** A predicate that holds everywhere in `s` keeps all of `s`. */
  lemma {:induction false} FilterKeepsAll<T>(p: T -> bool, s: seq<T>)
    requires forall k :: 0 <= k < |s| ==> p(s[k])
    ensures Filter(p, s) == s
  {
    if s != [] {
      FilterKeepsAll(p, s[1..]);
    }
  }

  /** Filtering by a stronger predicate is filtering the weaker result again. */
  lemma {:induction false} FilterStronger<T>(p: T -> bool, q: T -> bool, s: seq<T>)
    requires forall x :: q(x) ==> p(x)
    ensures Filter(q, s) == Filter(q, Filter(p, s))
  {
    if s != [] {
      FilterStronger(p, q, s[1..]);
    }
  }

  /** A stronger predicate never keeps anything the weaker one drops. */
  lemma FilterNarrows<T>(p: T -> bool, q: T -> bool, s: seq<T>)
    requires forall x :: q(x) ==> p(x)
    ensures IsSubseq(Filter(q, s), Filter(p, s))
  {
    FilterStronger(p, q, s);
  }
}
