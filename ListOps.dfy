/**
 * The array operations of the source, on sequences: `findIndex` for an
 * element, `splice(start, 1)` with its handling of a negative start, and the
 * `filter` that drops every copy of one element.
 */
module ListOps {

  /** `findIndex(v => v === x)`: the first position of x, or -1 when x does not occur. */
  function IndexOf<T(==)>(s: seq<T>, x: T): (i: int)
    ensures i == -1 <==> x !in s
    ensures i != -1 ==> 0 <= i < |s| && s[i] == x && x !in s[..i]
  {
    if s == [] then -1
    else if s[0] == x then 0
    else
      var j := IndexOf(s[1..], x);
      if j == -1 then -1
      else
        assert s[..j + 1] == [s[0]] + s[1..][..j];
        j + 1
  }

  /**
   * `splice(start, 1)`: removes the element at start; a negative start counts
   * from the end (so -1 removes the last element), and a start at or past the
   * end removes nothing.
   */
  function SpliceOne<T>(s: seq<T>, start: int): (r: seq<T>)
    ensures 0 <= start < |s| ==> r == s[..start] + s[start + 1..]
    ensures start >= |s| ==> r == s
  {
    var k := if start >= 0 then start else if |s| + start < 0 then 0 else |s| + start;
    if k < |s| then s[..k] + s[k + 1..] else s
  }

  /** The first copy of x goes, everything else stays in order. */
  function RemoveFirst<T(==)>(s: seq<T>, x: T): (r: seq<T>)
    requires x in s
    ensures |r| == |s| - 1
  {
    if s[0] == x then s[1..] else [s[0]] + RemoveFirst(s[1..], x)
  }

  /** RemoveFirst is `splice(findIndex(v => v === x), 1)` for an x that occurs. */
  lemma {:induction false} RemoveFirstIsSplice<T>(s: seq<T>, x: T)
    requires x in s
    ensures RemoveFirst(s, x) == SpliceOne(s, IndexOf(s, x))
  {
    if s[0] != x {
      RemoveFirstIsSplice(s[1..], x);
      SpliceOneBehindHead(s, IndexOf(s[1..], x));
    }
  }

  /** Splicing behind the head is splicing the tail one position earlier. */
  lemma SpliceOneBehindHead<T>(s: seq<T>, j: int)
    requires 0 <= j < |s| - 1
    ensures SpliceOne(s, j + 1) == [s[0]] + SpliceOne(s[1..], j)
  {
    var t := s[1..];
    assert SpliceOne(t, j) == t[..j] + t[j + 1..];
    assert s[..j + 1] == [s[0]] + t[..j];
    assert s[j + 2..] == t[j + 1..];
  }

  /** Exactly one copy of x goes: as multisets, the result is s less one x. */
  lemma {:induction false} RemoveFirstMultiset<T>(s: seq<T>, x: T)
    requires x in s
    ensures multiset(RemoveFirst(s, x)) == multiset(s) - multiset{x}
  {
    assert s == [s[0]] + s[1..];
    if s[0] != x {
      RemoveFirstMultiset(s[1..], x);
    }
  }

  /**
   * What is left: every other element stays, and x stays only when it
   * occurred more than once.
   */
  lemma RemoveFirstMembers<T>(s: seq<T>, x: T, y: T)
    requires x in s
    ensures y in RemoveFirst(s, x) <==> y in s && (y != x || multiset(s)[x] > 1)
  {
    RemoveFirstMultiset(s, x);
    assert y in RemoveFirst(s, x) <==> multiset(RemoveFirst(s, x))[y] > 0;
  }

  /**
   * Where the source relies on the element being present: for an absent x,
   * `splice(findIndex(...), 1)` drops the LAST element instead.
   */
  lemma AbsentElementSplicesLast<T>(s: seq<T>, x: T)
    requires x !in s && s != []
    ensures SpliceOne(s, IndexOf(s, x)) == s[..|s| - 1]
  {
  }

  /** `filter(v => v !== x)`: every copy of x goes, everything else stays in order. */
  function RemoveAll<T(==)>(s: seq<T>, x: T): (r: seq<T>)
    ensures x !in r
    ensures multiset(r) == multiset(s)[x := 0]
  {
    if s == [] then []
    else
      var rest := RemoveAll(s[1..], x);
      assert s == [s[0]] + s[1..];
      if s[0] == x then rest else [s[0]] + rest
  }

  /**
   * The filter keeps list order: an element added at the end is kept, last,
   * exactly when it is not x.
   */
  lemma {:induction false} RemoveAllSnoc<T>(s: seq<T>, y: T, x: T)
    ensures RemoveAll(s + [y], x) == RemoveAll(s, x) + (if y == x then [] else [y])
  {
    if s != [] {
      assert (s + [y])[1..] == s[1..] + [y];
      RemoveAllSnoc(s[1..], y, x);
    }
  }

  /** Filtering out an element that does not occur changes nothing. */
  lemma {:induction false} RemoveAllAbsent<T>(s: seq<T>, x: T)
    requires x !in s
    ensures RemoveAll(s, x) == s
  {
    if s != [] {
      RemoveAllAbsent(s[1..], x);
    }
  }

  /** Filtering the same element out twice is the same as once. */
  lemma RemoveAllIdempotent<T>(s: seq<T>, x: T)
    ensures RemoveAll(RemoveAll(s, x), x) == RemoveAll(s, x)
  {
    RemoveAllAbsent(RemoveAll(s, x), x);
  }
}
