/**
 * JavaScript's default `Array.prototype.sort`: with no comparator the
 * elements are compared as strings, code unit by code unit, so numbers
 * are ordered by their decimal text (`10` before `9`).
 */
module StringOrder {
  import opened Numerals

  /** Code-unit (lexicographic) order on strings, the order of the default sort. */
  predicate LexLeq(a: string, b: string) {
    a == [] || (b != [] && (a[0] < b[0] || (a[0] == b[0] && LexLeq(a[1..], b[1..]))))
  }

  lemma {:induction false} LexLeqTotal(a: string, b: string)
    ensures LexLeq(a, b) || LexLeq(b, a)
  {
    if a != [] && b != [] && a[0] == b[0] {
      LexLeqTotal(a[1..], b[1..]);
    }
  }

  /** Numbers in the order of their decimal strings. */
  predicate NumLeq(x: int, y: int) {
    LexLeq(IntString(x), IntString(y))
  }

  /** Every adjacent pair is in string order. */
  predicate StringSorted(xs: seq<int>) {
    forall i :: 0 < i < |xs| ==> NumLeq(xs[i - 1], xs[i])
  }

  function Insert(x: int, ys: seq<int>): seq<int> {
    if ys == [] then [x]
    else if NumLeq(x, ys[0]) then [x] + ys
    else [ys[0]] + Insert(x, ys[1..])
  }

  /** `[...xs].sort()` on an array of numbers. */
  function SortByString(xs: seq<int>): seq<int> {
    if xs == [] then [] else Insert(xs[0], SortByString(xs[1..]))
  }

  /** Insertion adds exactly the one element. */
  lemma {:induction false} InsertPermutes(x: int, ys: seq<int>)
    ensures multiset(Insert(x, ys)) == multiset(ys) + multiset{x}
  {
    if ys != [] && !NumLeq(x, ys[0]) {
      InsertPermutes(x, ys[1..]);
      assert ys == [ys[0]] + ys[1..];
    }
  }

  /** The default sort is a permutation. */
  lemma {:induction false} SortByStringPermutes(xs: seq<int>)
    ensures multiset(SortByString(xs)) == multiset(xs)
  {
    if xs != [] {
      SortByStringPermutes(xs[1..]);
      InsertPermutes(xs[0], SortByString(xs[1..]));
      assert xs == [xs[0]] + xs[1..];
    }
  }

  lemma {:induction false} InsertSorted(x: int, ys: seq<int>)
    requires StringSorted(ys)
    ensures StringSorted(Insert(x, ys))
    ensures ys != [] ==> Insert(x, ys)[0] == x || Insert(x, ys)[0] == ys[0]
  {
    if ys != [] && !NumLeq(x, ys[0]) {
      LexLeqTotal(IntString(x), IntString(ys[0]));
      InsertSorted(x, ys[1..]);
    }
  }

  /** The default sort yields a string-sorted permutation. */
  lemma {:induction false} SortByStringSorted(xs: seq<int>)
    ensures StringSorted(SortByString(xs))
  {
    if xs != [] {
      SortByStringSorted(xs[1..]);
      InsertSorted(xs[0], SortByString(xs[1..]));
    }
  }

  /** A list is unchanged by the default sort exactly when it is already in string order. */
  lemma {:induction false} SortFixedIffSorted(xs: seq<int>)
    ensures SortByString(xs) == xs <==> StringSorted(xs)
  {
    SortByStringSorted(xs);
    if xs != [] && StringSorted(xs) {
      assert StringSorted(xs[1..]) by {
        forall i | 0 < i < |xs[1..]| ensures NumLeq(xs[1..][i - 1], xs[1..][i]) {
          assert xs[1..][i - 1] == xs[i] && xs[1..][i] == xs[i + 1];
        }
      }
      SortFixedIffSorted(xs[1..]);
      assert xs == [xs[0]] + xs[1..];
    }
  }

  /** `9` sorts after `10`. */
  lemma NineAfterTen()
    ensures !NumLeq(9, 10) && NumLeq(10, 9)
  {
    assert IntString(9) == "9";
    assert IntString(10) == "10";
  }
}
