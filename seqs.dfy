/**
 * The array operations the controllers apply to document arrays, as
 * functions on sequences: Mongoose's `pull`, `Array.prototype.find`/
 * `findIndex`, and the pull-then-unshift that moves an entry to the front.
 */
module Seqs {

  /** Every element occurs at most once. */
  predicate NoDup<T(==)>(s: seq<T>) {
    forall i, j :: 0 <= i < j < |s| ==> s[i] != s[j]
  }

  /** Number of occurrences of `x` in `s`. */
  function Occurrences<T(==)>(s: seq<T>, x: T): (n: nat)
    ensures n <= |s|
    ensures n == 0 <==> x !in s
  {
    if s == [] then 0 else (if s[0] == x then 1 else 0) + Occurrences(s[1..], x)
  }

  /** `array.pull(x)`: every element equal to `x` goes, the others keep their order. */
  function Pull<T(==,!new)>(s: seq<T>, x: T): (r: seq<T>)
    ensures forall y :: y in r <==> y in s && y != x
    ensures |r| == |s| - Occurrences(s, x)
  {
    if s == [] then []
    else if s[0] == x then Pull(s[1..], x)
    else [s[0]] + Pull(s[1..], x)
  }

  /** Pulling an element that is not there changes nothing. */
  lemma {:induction false} PullAbsent<T(!new)>(s: seq<T>, x: T)
    requires x !in s
    ensures Pull(s, x) == s
  {
    if s != [] {
      PullAbsent(s[1..], x);
      assert [s[0]] + s[1..] == s;
    }
  }

  /** Pull distributes over concatenation. */
  lemma {:induction false} PullConcat<T(!new)>(a: seq<T>, b: seq<T>, x: T)
    ensures Pull(a + b, x) == Pull(a, x) + Pull(b, x)
  {
    if a == [] {
      assert a + b == b;
    } else {
      var ab := a + b;
      assert ab[0] == a[0];
      assert ab[1..] == a[1..] + b;
      PullConcat(a[1..], b, x);
      if a[0] == x {
        assert Pull(ab, x) == Pull(a[1..] + b, x);
      } else {
        assert Pull(ab, x) == [a[0]] + Pull(a[1..] + b, x);
        assert Pull(a, x) == [a[0]] + Pull(a[1..], x);
      }
    }
  }

  /** Pull undoes a push of a fresh element. */
  lemma PullAfterPush<T(!new)>(s: seq<T>, x: T)
    requires x !in s
    ensures Pull(s + [x], x) == s
  {
    PullConcat(s, [x], x);
    PullAbsent(s, x);
    assert Pull([x], x) == [];
  }

  /** Pull undoes an unshift of a fresh element. */
  lemma PullAfterUnshift<T(!new)>(s: seq<T>, x: T)
    requires x !in s
    ensures Pull([x] + s, x) == s
  {
    assert ([x] + s)[1..] == s;
    PullAbsent(s, x);
  }

  /** Other elements keep their number of occurrences under a pull. */
  lemma {:induction false} PullKeepsOthers<T(!new)>(s: seq<T>, x: T, y: T)
    requires y != x
    ensures Occurrences(Pull(s, x), y) == Occurrences(s, y)
  {
    if s != [] {
      PullKeepsOthers(s[1..], x, y);
      if s[0] != x {
        assert ([s[0]] + Pull(s[1..], x))[1..] == Pull(s[1..], x);
      }
    }
  }

  /** A pull keeps a duplicate-free sequence duplicate-free. */
  lemma {:induction false} PullKeepsNoDup<T(!new)>(s: seq<T>, x: T)
    requires NoDup(s)
    ensures NoDup(Pull(s, x))
  {
    if s != [] {
      assert NoDup(s[1..]) by {
        forall i, j | 0 <= i < j < |s[1..]| ensures s[1..][i] != s[1..][j] {
          assert s[1..][i] == s[i + 1] && s[1..][j] == s[j + 1];
        }
      }
      PullKeepsNoDup(s[1..], x);
      if s[0] != x {
        assert s[0] !in s[1..] by {
          forall k | 0 <= k < |s[1..]| ensures s[1..][k] != s[0] {
            assert s[1..][k] == s[k + 1];
          }
        }
        ConsNoDup(s[0], Pull(s[1..], x));
      }
    }
  }

  lemma PullKeepsNoDupIf<T(!new)>(s: seq<T>, x: T)
    ensures NoDup(s) ==> NoDup(Pull(s, x))
  {
    if NoDup(s) {
      PullKeepsNoDup(s, x);
    }
  }

  /** Putting a new element in front of a duplicate-free sequence keeps it duplicate-free. */
  lemma ConsNoDup<T>(x: T, s: seq<T>)
    requires NoDup(s) && x !in s
    ensures NoDup([x] + s)
  {
    forall i, j | 0 <= i < j < |[x] + s| ensures ([x] + s)[i] != ([x] + s)[j] {
      if i == 0 {
        assert ([x] + s)[j] == s[j - 1];
      } else {
        assert ([x] + s)[i] == s[i - 1] && ([x] + s)[j] == s[j - 1];
      }
    }
  }

  lemma ConsNoDupIf<T>(x: T, s: seq<T>)
    ensures NoDup(s) && x !in s ==> NoDup([x] + s)
  {
    if NoDup(s) && x !in s {
      ConsNoDup(x, s);
    }
  }

  /** Appending a new element keeps a sequence duplicate-free. */
  lemma SnocNoDup<T>(s: seq<T>, x: T)
    requires NoDup(s) && x !in s
    ensures NoDup(s + [x])
  {
    forall i, j | 0 <= i < j < |s + [x]| ensures (s + [x])[i] != (s + [x])[j] {
      if j == |s| {
        assert (s + [x])[i] == s[i];
      } else {
        assert (s + [x])[i] == s[i] && (s + [x])[j] == s[j];
      }
    }
  }

  /** In a duplicate-free sequence, pulling a member removes exactly that one element. */
  lemma {:induction false} PullMemberOnce<T(!new)>(s: seq<T>, x: T)
    requires NoDup(s) && x in s
    ensures Occurrences(s, x) == 1
    ensures |Pull(s, x)| == |s| - 1
  {
    if s[0] == x {
      assert x !in s[1..] by {
        forall k | 0 <= k < |s[1..]| ensures s[1..][k] != x {
          assert s[1..][k] == s[k + 1];
        }
      }
    } else {
      assert x in s[1..];
      assert NoDup(s[1..]) by {
        forall i, j | 0 <= i < j < |s[1..]| ensures s[1..][i] != s[1..][j] {
          assert s[1..][i] == s[i + 1] && s[1..][j] == s[j + 1];
        }
      }
      PullMemberOnce(s[1..], x);
    }
  }

  /** Pull `x`, then unshift it: `x` stands first and occurs once. */
  function MoveToFront<T(==,!new)>(s: seq<T>, x: T): (r: seq<T>)
    ensures |r| >= 1 && r[0] == x
    ensures forall y :: y in r <==> y in s || y == x
  {
    [x] + Pull(s, x)
  }

  /** Moving the same element to the front twice is the same as once. */
  lemma MoveToFrontIdempotent<T(!new)>(s: seq<T>, x: T)
    ensures MoveToFront(MoveToFront(s, x), x) == MoveToFront(s, x)
  {
    PullAfterUnshift(Pull(s, x), x);
  }

  /** Moving an element to the front keeps a sequence duplicate-free and its other elements in order. */
  lemma MoveToFrontNoDup<T(!new)>(s: seq<T>, x: T)
    requires NoDup(s)
    ensures NoDup(MoveToFront(s, x))
    ensures MoveToFront(s, x)[1..] == Pull(s, x)
  {
    PullKeepsNoDup(s, x);
    ConsNoDup(x, Pull(s, x));
  }

  /** `find`/`findIndex`: the first position whose element satisfies `p`. */
  function FindFirst<T>(s: seq<T>, p: T -> bool): (r: Option<nat>)
    ensures r.Some? ==> r.value < |s| && p(s[r.value])
    ensures r.Some? ==> forall j :: 0 <= j < r.value ==> !p(s[j])
    ensures r.None? ==> forall j :: 0 <= j < |s| ==> !p(s[j])
  {
    if s == [] then None
    else if p(s[0]) then Some(0)
    else match FindFirst(s[1..], p)
      case None => None
      case Some(i) => Some(i + 1)
  }

  datatype Option<T> = None | Some(value: T)

  /** The sequence without its element at position `i`. */
  function RemoveAt<T>(s: seq<T>, i: nat): (r: seq<T>)
    requires i < |s|
    ensures |r| == |s| - 1
    ensures forall j :: 0 <= j < i ==> r[j] == s[j]
    ensures forall j :: i <= j < |r| ==> r[j] == s[j + 1]
  {
    s[..i] + s[i + 1..]
  }

  /** Removing a later position keeps the head in front. */
  lemma RemoveAtTail<T>(s: seq<T>, i: nat)
    requires 0 < i < |s|
    ensures RemoveAt(s, i) == [s[0]] + RemoveAt(s[1..], i - 1)
  {
    assert s[1..][..i - 1] == s[1..i];
    assert s[1..][i..] == s[i + 1..];
    assert s[..i] == [s[0]] + s[1..i];
  }
}
