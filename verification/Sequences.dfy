/** Subsequences: what is left of a sequence when some of its elements are taken out. */
module Sequences {

  predicate Subsequence<T(==)>(a: seq<T>, b: seq<T>) {
    if a == [] then true
    else if b == [] then false
    else if a[0] == b[0] then Subsequence(a[1..], b[1..])
    else Subsequence(a, b[1..])
  }

  lemma {:induction false} SubsequenceSkip<T>(a: seq<T>, x: T, b: seq<T>)
    requires Subsequence(a, b)
    ensures Subsequence(a, [x] + b)
    decreases |b|, 1
  {
    assert ([x] + b)[1..] == b;
    if a != [] && a[0] == x {
      // taking x early leaves a shorter sequence to find in the same b
      SubsequenceTail(a, b);
    }
  }

  lemma {:induction false} SubsequenceTail<T>(a: seq<T>, b: seq<T>)
    requires a != [] && Subsequence(a, b)
    ensures Subsequence(a[1..], b)
    decreases |b|, 0
  {
    if a[0] == b[0] {
      SubsequenceSkip(a[1..], b[0], b[1..]);
      assert [b[0]] + b[1..] == b;
    } else {
      SubsequenceTail(a, b[1..]);
      SubsequenceSkip(a[1..], b[0], b[1..]);
      assert [b[0]] + b[1..] == b;
    }
  }

  lemma {:induction false} SubsequenceSelf<T>(a: seq<T>)
    ensures Subsequence(a, a)
  {
    if a != [] {
      SubsequenceSelf(a[1..]);
    }
  }

  /** The same element may be added at the end of both. */
  lemma {:induction false} SubsequenceAppend<T>(a: seq<T>, b: seq<T>, x: T)
    requires Subsequence(a, b)
    ensures Subsequence(a + [x], b + [x])
    decreases |b|
  {
    if b == [] {
      assert a + [x] == [x] && b + [x] == [x];
      assert [x][1..] == [];
    } else {
      assert (b + [x])[1..] == b[1..] + [x];
      if a == [] {
        SubsequenceAppend(a, b[1..], x);
        assert a + [x] == [x];
        SubsequenceSkip([x], b[0], b[1..] + [x]);
        assert [b[0]] + (b[1..] + [x]) == b + [x];
      } else {
        assert (a + [x])[1..] == a[1..] + [x];
        SubsequenceAppend(if a[0] == b[0] then a[1..] else a, b[1..], x);
      }
    }
  }

  lemma {:induction false} SubsequenceTransitive<T>(a: seq<T>, b: seq<T>, c: seq<T>)
    requires Subsequence(a, b) && Subsequence(b, c)
    ensures Subsequence(a, c)
    decreases |c|
  {
    if a != [] {
      if b[0] != c[0] {
        SubsequenceTransitive(a, b, c[1..]);
        SubsequenceSkip(a, c[0], c[1..]);
        assert [c[0]] + c[1..] == c;
      } else {
        SubsequenceTransitive(if a[0] == b[0] then a[1..] else a, b[1..], c[1..]);
      }
    }
  }

  lemma {:induction false} SubsequencePart<T>(a: seq<T>, i: nat, j: nat)
    requires i <= j <= |a|
    ensures Subsequence(a[i..j], a)
    decreases |a|
  {
    if i > 0 {
      SubsequencePart(a[1..], i - 1, j - 1);
      assert a[1..][i - 1..j - 1] == a[i..j] && [a[0]] + a[1..] == a;
      SubsequenceSkip(a[i..j], a[0], a[1..]);
    } else if j > 0 {
      SubsequencePart(a[1..], 0, j - 1);
      assert a[0..j][1..] == a[1..][0..j - 1];
    }
  }

  lemma {:induction false} SubsequenceLength<T>(a: seq<T>, b: seq<T>)
    requires Subsequence(a, b)
    ensures |a| <= |b|
    decreases |b|
  {
    if a != [] {
      SubsequenceLength(if a[0] == b[0] then a[1..] else a, b[1..]);
    }
  }

  /** An element may be taken out of the shorter one. */
  lemma {:induction false} SubsequenceWithout<T>(a: seq<T>, b: seq<T>, i: nat)
    requires i < |a| && Subsequence(a, b)
    ensures Subsequence(a[..i] + a[i + 1..], b)
    decreases |b|
  {
    if i == 0 {
      SubsequenceTail(a, b);
      assert a[..0] + a[1..] == a[1..];
    } else if a[0] == b[0] {
      SubsequenceWithout(a[1..], b[1..], i - 1);
      assert (a[..i] + a[i + 1..])[1..] == a[1..][..i - 1] + a[1..][i..];
    } else {
      SubsequenceWithout(a, b[1..], i);
      SubsequenceSkip(a[..i] + a[i + 1..], b[0], b[1..]);
      assert [b[0]] + b[1..] == b;
    }
  }
}
