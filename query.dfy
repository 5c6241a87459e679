/** The two list queries the routes issue to the document store: `find` with an
    equality filter, which keeps the matching documents, and `.sort({ field: -1 })`,
    which orders them by a key, largest first. */
module Query {
  import opened Sorting

  /** The elements of `s` satisfying `p`, in order. */
  function Where<T>(s: seq<T>, p: T -> bool): seq<T> {
    if s == [] then [] else (if p(s[0]) then [s[0]] else []) + Where(s[1..], p)
  }

  /** A filter keeps exactly the elements satisfying it, each as many times
      as it occurs. */
  lemma {:induction false} WhereMembers<T>(s: seq<T>, p: T -> bool)
    ensures forall x :: x in Where(s, p) <==> x in s && p(x)
    ensures multiset(Where(s, p)) <= multiset(s)
  {
    if s != [] {
      WhereMembers(s[1..], p);
      assert s == [s[0]] + s[1..];
    }
  }

  /** Filtering a concatenation filters each part, so the kept elements keep
      their relative order. */
  lemma {:induction false} WhereAppend<T>(a: seq<T>, b: seq<T>, p: T -> bool)
    ensures Where(a + b, p) == Where(a, p) + Where(b, p)
  {
    if a == [] {
      assert a + b == b;
    } else {
      var ab := a + b;
      assert ab[0] == a[0] && ab[1..] == a[1..] + b;
      WhereAppend(a[1..], b, p);
      var head := if p(a[0]) then [a[0]] else [];
      calc {
        Where(ab, p);
        head + Where(a[1..] + b, p);
        head + (Where(a[1..], p) + Where(b, p));
        (head + Where(a[1..], p)) + Where(b, p);
      }
    }
  }

  /** `s.map(y => matches(y) ? x : y)`: every element that `matches` holds for
      replaced by `x`, the others kept in place. */
  function Replace<T>(s: seq<T>, matches: T -> bool, x: T): (r: seq<T>)
    ensures |r| == |s|
    ensures forall i :: 0 <= i < |s| ==> r[i] == if matches(s[i]) then x else s[i]
  {
    if s == [] then [] else [if matches(s[0]) then x else s[0]] + Replace(s[1..], matches, x)
  }

  /** `find(filter).sort({ key: -1 })`. */
  function FindSorted<T>(s: seq<T>, p: T -> bool, key: T -> int): (r: seq<T>)
    ensures SortedDesc(r, key)
    ensures multiset(r) == multiset(Where(s, p))
  {
    SortDescCorrect(Where(s, p), key);
    SortDesc(Where(s, p), key)
  }

  /** The query result holds exactly the matching documents. */
  lemma FindSortedMembers<T>(s: seq<T>, p: T -> bool, key: T -> int)
    ensures forall x :: x in FindSorted(s, p, key) <==> x in s && p(x)
  {
    WhereMembers(s, p);
    SortDescMembers(Where(s, p), key);
  }
}
