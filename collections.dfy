/**
 * Sequence vocabulary shared by the site's helpers: an optional value (a
 * TypeScript field that may be `undefined`), the order-preserving
 * `Array.prototype.filter`, and the first-occurrence deduplication that
 * `Array.from(new Set(xs))` performs (a JavaScript `Set` iterates in
 * insertion order).
 */
module Collections {

  datatype Option<T> = None | Some(value: T)

  /** `r` is obtained from `s` by deleting elements, keeping the rest in order. */
  ghost predicate IsSubsequence<T>(r: seq<T>, s: seq<T>)
    decreases |s|
  {
    if r == [] then true
    else if s == [] then false
    else (r[0] == s[0] && IsSubsequence(r[1..], s[1..])) || IsSubsequence(r, s[1..])
  }

  /** No element occurs twice. */
  predicate NoDuplicates<T(==)>(s: seq<T>)
  {
    forall i, j :: 0 <= i < j < |s| ==> s[i] != s[j]
  }

  /** The index at which `x` first occurs in `s`. */
  function FirstIndex<T(==)>(s: seq<T>, x: T): (k: nat)
    requires x in s
    ensures k < |s| && s[k] == x && x !in s[..k]
  {
    if s[0] == x then 0 else 1 + FirstIndex(s[1..], x)
  }

  /**
   * `Array.prototype.filter`: the elements of `s` that satisfy `p`, each kept
   * as often as it occurs, in their original order.
   */
  function Filter<T(==,!new)>(s: seq<T>, p: T -> bool): (r: seq<T>)
    ensures IsSubsequence(r, s)
    ensures forall x :: x in r <==> x in s && p(x)
    ensures forall x :: multiset(r)[x] == if p(x) then multiset(s)[x] else 0
  {
    if s == [] then []
    else
      assert s == [s[0]] + s[1..];
      var rest := Filter(s[1..], p);
      if p(s[0]) then
        assert ([s[0]] + rest)[1..] == rest;
        [s[0]] + rest
      else rest
  }

  /**
   * `Array.from(new Set(s))`: every element of `s` once, in the order of its
   * first occurrence. The last element is added only if the set built from
   * the prefix does not hold it yet, as `Set.prototype.add` does.
   */
  function Dedup<T(==,!new)>(s: seq<T>): (r: seq<T>)
    ensures NoDuplicates(r)
    ensures forall x :: x in r <==> x in s
    ensures IsSubsequence(r, s)
  {
    if s == [] then []
    else
      var init := s[..|s| - 1];
      var last := s[|s| - 1];
      assert s == init + [last];
      var prev := Dedup(init);
      if last in prev then
        SubsequenceExtend(prev, init, last);
        prev
      else
        SubsequenceAppend(prev, init, last);
        prev + [last]
  }

  lemma {:induction false} SubsequenceExtend<T>(r: seq<T>, s: seq<T>, x: T)
    requires IsSubsequence(r, s)
    ensures IsSubsequence(r, s + [x])
    decreases |s|
  {
    if r != [] {
      assert s != [];
      assert (s + [x])[0] == s[0] && (s + [x])[1..] == s[1..] + [x];
      if r[0] == s[0] && IsSubsequence(r[1..], s[1..]) {
        SubsequenceExtend(r[1..], s[1..], x);
      } else {
        SubsequenceExtend(r, s[1..], x);
      }
    }
  }

  lemma {:induction false} SubsequenceAppend<T>(r: seq<T>, s: seq<T>, x: T)
    requires IsSubsequence(r, s)
    ensures IsSubsequence(r + [x], s + [x])
    decreases |s|
  {
    if r == [] {
      assert [x][1..] == [];
      assert IsSubsequence([x][1..], (s + [x])[1..]);
      if s == [] {
        assert [x] + [] == [x];
      } else {
        SubsequenceAppend(r, s[1..], x);
        assert (s + [x])[1..] == s[1..] + [x];
        assert r + [x] == [x];
      }
    } else {
      assert s != [];
      assert (s + [x])[0] == s[0] && (s + [x])[1..] == s[1..] + [x];
      assert (r + [x])[0] == r[0] && (r + [x])[1..] == r[1..] + [x];
      if r[0] == s[0] && IsSubsequence(r[1..], s[1..]) {
        SubsequenceAppend(r[1..], s[1..], x);
      } else {
        SubsequenceAppend(r, s[1..], x);
      }
    }
  }

  /** Appending an element does not move the first occurrence of an earlier one. */
  lemma {:induction false} FirstIndexAppend<T>(s: seq<T>, y: T, x: T)
    requires x in s
    ensures FirstIndex(s + [y], x) == FirstIndex(s, x)
  {
    assert (s + [y])[0] == s[0];
    if s[0] != x {
      assert (s + [y])[1..] == s[1..] + [y];
      FirstIndexAppend(s[1..], y, x);
    }
  }

  /** The output of `Dedup` lists the elements in the order of their first occurrence in `s`. */
  lemma {:induction false} DedupFirstOccurrenceOrder<T(!new)>(s: seq<T>)
    ensures forall i, j :: 0 <= i < j < |Dedup(s)| ==>
      FirstIndex(s, Dedup(s)[i]) < FirstIndex(s, Dedup(s)[j])
  {
    if s != [] {
      var init, last := s[..|s| - 1], s[|s| - 1];
      assert s == init + [last];
      DedupFirstOccurrenceOrder(init);
      var prev := Dedup(init);
      forall x | x in prev ensures FirstIndex(s, x) == FirstIndex(init, x) {
        FirstIndexAppend(init, last, x);
      }
      if last !in prev {
        assert Dedup(s) == prev + [last];
        assert last !in init;
        assert FirstIndex(s, last) == |init|;
        forall i, j | 0 <= i < j < |Dedup(s)|
          ensures FirstIndex(s, Dedup(s)[i]) < FirstIndex(s, Dedup(s)[j])
        {
          assert Dedup(s)[i] == prev[i] && prev[i] in prev;
          if j < |prev| {
            assert Dedup(s)[j] == prev[j] && prev[j] in prev;
          } else {
            assert FirstIndex(init, prev[i]) < |init|;
          }
        }
      } else {
        assert Dedup(s) == prev;
        forall i, j | 0 <= i < j < |Dedup(s)|
          ensures FirstIndex(s, Dedup(s)[i]) < FirstIndex(s, Dedup(s)[j])
        {
          assert prev[i] in prev && prev[j] in prev;
        }
      }
    }
  }

  /** Adding one element at the end of the input adds it to the output unless it was seen before. */
  lemma DedupSnoc<T(!new)>(s: seq<T>, x: T)
    ensures Dedup(s + [x]) == if x in s then Dedup(s) else Dedup(s) + [x]
  {
    assert (s + [x])[..|s|] == s;
  }

  /** Deduplicating changes nothing when there are no duplicates. */
  lemma {:induction false} DedupOfDistinct<T(!new)>(s: seq<T>)
    requires NoDuplicates(s)
    ensures Dedup(s) == s
  {
    if s != [] {
      var init, last := s[..|s| - 1], s[|s| - 1];
      assert NoDuplicates(init);
      DedupOfDistinct(init);
      assert last !in init;
      assert s == init + [last];
    }
  }

  /** A common prefix cancels: `prefix + x == prefix + y` only when `x == y`. */
  lemma PrefixCancels<T>(prefix: seq<T>, x: seq<T>, y: seq<T>)
    ensures prefix + x == prefix + y ==> x == y
  {
    if prefix + x == prefix + y {
      assert (prefix + x)[|prefix|..] == x;
      assert (prefix + y)[|prefix|..] == y;
    }
  }

  /** A sequence ending in `suffix` differs from one whose last `|suffix|` elements are not `suffix`. */
  lemma SuffixesDiffer<T>(x: seq<T>, suffix: seq<T>, other: seq<T>)
    requires |suffix| <= |other| && other[|other| - |suffix|..] != suffix
    ensures x + suffix != other
  {
  }
}
