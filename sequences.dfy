/** Order-preserving filtering of sequences, the model of `Array.prototype.filter`. */
module Sequences {

  /** The elements of `s` that satisfy `p`, in their original order. */
  function Filter<T>(s: seq<T>, p: T -> bool): (r: seq<T>)
    ensures |r| <= |s|
    ensures forall i :: 0 <= i < |r| ==> r[i] in s && p(r[i])
  {
    if s == [] then []
    else (if p(s[0]) then [s[0]] else []) + Filter(s[1..], p)
  }

  /** Every element that passes is kept. */
  lemma {:induction false} FilterKeeps<T>(s: seq<T>, i: nat, p: T -> bool)
    requires i < |s| && p(s[i])
    ensures s[i] in Filter(s, p)
  {
    if i > 0 {
      FilterKeeps(s[1..], i - 1, p);
    }
  }

  /** Filtering distributes over concatenation: it keeps the relative order of what it keeps. */
  lemma {:induction false} FilterConcat<T>(a: seq<T>, b: seq<T>, p: T -> bool)
    ensures Filter(a + b, p) == Filter(a, p) + Filter(b, p)
  {
    if a == [] {
      assert a + b == b;
    } else {
      assert (a + b)[0] == a[0];
      assert (a + b)[1..] == a[1..] + b;
      FilterConcat(a[1..], b, p);
    }
  }

  /** Filtering a sequence all of whose elements pass gives it back unchanged. */
  lemma {:induction false} FilterKeepsAll<T>(s: seq<T>, p: T -> bool)
    requires forall i :: 0 <= i < |s| ==> p(s[i])
    ensures Filter(s, p) == s
  {
    if s != [] {
      FilterKeepsAll(s[1..], p);
    }
  }

  /** The result is empty exactly when no element passes. */
  lemma {:induction false} FilterEmptyIff<T>(s: seq<T>, p: T -> bool)
    ensures Filter(s, p) == [] <==> forall i :: 0 <= i < |s| ==> !p(s[i])
  {
    if Filter(s, p) == [] {
      forall i | 0 <= i < |s| ensures !p(s[i]) {
        if p(s[i]) {
          FilterKeeps(s, i, p);
        }
      }
    } else {
      var x := Filter(s, p)[0];
      var i :| 0 <= i < |s| && s[i] == x;
      assert p(s[i]);
    }
  }

  /** When exactly the element at position `k` fails, filtering deletes that one element. */
  lemma {:induction false} FilterDropsOne<T>(s: seq<T>, k: nat, p: T -> bool)
    requires k < |s|
    requires !p(s[k])
    requires forall i :: 0 <= i < |s| && i != k ==> p(s[i])
    ensures Filter(s, p) == s[..k] + s[k + 1..]
  {
    if k == 0 {
      forall i | 0 <= i < |s[1..]| ensures p(s[1..][i]) {
        assert s[1..][i] == s[i + 1];
      }
      FilterKeepsAll(s[1..], p);
    } else {
      var t := s[1..];
      forall i | 0 <= i < |t| && i != k - 1 ensures p(t[i]) {
        assert t[i] == s[i + 1];
      }
      FilterDropsOne(t, k - 1, p);
      assert Filter(s, p) == [s[0]] + (t[..k - 1] + t[k..]);
      assert s[..k] == [s[0]] + t[..k - 1];
      assert s[k + 1..] == t[k..];
    }
  }
}
