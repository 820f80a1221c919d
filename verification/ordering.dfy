/**
  The order `list.sort()` puts the record lists in before rendering.

  Records are Python tuples `(method, index, owner)`, so the order is
  lexicographic: method names first (string comparison by code point),
  then indices, then owner names.  The sort is modelled as an insertion
  sort; since the order is total and antisymmetric, every sorted
  permutation of a list is the same list (`SortedUnique`), so any correct
  sort, Python's included, produces exactly `Sort`'s output.
 */
module Ordering {
  import opened Classifier

  /** Python's `<=` on strings: lexicographic by code point, a proper prefix
      sorting first. */
  predicate StrLe(a: string, b: string)
    decreases |a|
  {
    |a| == 0 || (|b| > 0 && (a[0] < b[0] || (a[0] == b[0] && StrLe(a[1..], b[1..]))))
  }

  lemma {:induction false} StrLeRefl(a: string)
    ensures StrLe(a, a)
    decreases |a|
  {
    if |a| > 0 {
      StrLeRefl(a[1..]);
    }
  }

  lemma {:induction false} StrLeAntisym(a: string, b: string)
    requires StrLe(a, b) && StrLe(b, a)
    ensures a == b
    decreases |a|
  {
    if |a| > 0 {
      StrLeAntisym(a[1..], b[1..]);
      assert a == [a[0]] + a[1..];
      assert b == [b[0]] + b[1..];
    }
  }

  lemma {:induction false} StrLeTrans(a: string, b: string, c: string)
    requires StrLe(a, b) && StrLe(b, c)
    ensures StrLe(a, c)
    decreases |a|
  {
    if |a| > 0 && a[0] == b[0] && b[0] == c[0] {
      StrLeTrans(a[1..], b[1..], c[1..]);
    }
  }

  lemma {:induction false} StrLeTotal(a: string, b: string)
    ensures StrLe(a, b) || StrLe(b, a)
    decreases |a|
  {
    if |a| > 0 && |b| > 0 && a[0] == b[0] {
      StrLeTotal(a[1..], b[1..]);
    }
  }

  /** Python's `<=` on `(method, index, owner)` tuples. */
  predicate RecordLe(x: Record, y: Record)
  {
    if x.methodName != y.methodName then StrLe(x.methodName, y.methodName)
    else if x.index != y.index then x.index < y.index
    else StrLe(x.owner, y.owner)
  }

  /** `RecordLe` is a total order: reflexive, antisymmetric, transitive and
      total. */
  lemma RecordLeTotalOrder(x: Record, y: Record, z: Record)
    ensures RecordLe(x, x)
    ensures RecordLe(x, y) && RecordLe(y, x) ==> x == y
    ensures RecordLe(x, y) && RecordLe(y, z) ==> RecordLe(x, z)
    ensures RecordLe(x, y) || RecordLe(y, x)
  {
    StrLeRefl(x.owner);
    StrLeTotal(x.methodName, y.methodName);
    StrLeTotal(x.owner, y.owner);
    if RecordLe(x, y) && RecordLe(y, x) {
      if x.methodName != y.methodName {
        StrLeAntisym(x.methodName, y.methodName);
      } else if x.index == y.index {
        StrLeAntisym(x.owner, y.owner);
      }
    }
    if RecordLe(x, y) && RecordLe(y, z) {
      if x.methodName != y.methodName {
        if y.methodName != z.methodName {
          StrLeTrans(x.methodName, y.methodName, z.methodName);
          if x.methodName == z.methodName {
            StrLeAntisym(x.methodName, y.methodName);
          }
        }
      } else if y.methodName == z.methodName && x.index == y.index && y.index == z.index {
        StrLeTrans(x.owner, y.owner, z.owner);
      }
    }
  }

  predicate Sorted(s: seq<Record>)
  {
    forall i, j :: 0 <= i < j < |s| ==> RecordLe(s[i], s[j])
  }

  /** Insert `x` into the sorted list `s` before the first element it does
      not follow. */
  function Insert(x: Record, s: seq<Record>): (r: seq<Record>)
    requires Sorted(s)
    ensures Sorted(r)
    ensures multiset(r) == multiset(s) + multiset{x}
  {
    if |s| == 0 then [x]
    else if RecordLe(x, s[0]) then
      InsertFront(x, s);
      [x] + s
    else
      var rest := Insert(x, s[1..]);
      InsertBehind(x, s, rest);
      [s[0]] + rest
  }

  /** `x` goes in front of a sorted list whose first element it precedes. */
  lemma InsertFront(x: Record, s: seq<Record>)
    requires Sorted(s) && |s| > 0 && RecordLe(x, s[0])
    ensures Sorted([x] + s)
  {
    forall j | 0 < j < |s| + 1
      ensures RecordLe(x, ([x] + s)[j])
    {
      RecordLeTotalOrder(x, s[0], s[j - 1]);
    }
  }

  /** `s[0]` stays in front of the insertion of `x` into `s[1..]`. */
  lemma InsertBehind(x: Record, s: seq<Record>, rest: seq<Record>)
    requires Sorted(s) && |s| > 0 && !RecordLe(x, s[0])
    requires Sorted(rest) && multiset(rest) == multiset(s[1..]) + multiset{x}
    ensures Sorted([s[0]] + rest)
    ensures multiset([s[0]] + rest) == multiset(s) + multiset{x}
  {
    forall j | 0 <= j < |rest|
      ensures RecordLe(s[0], rest[j])
    {
      assert rest[j] in multiset(rest);
      if rest[j] == x {
        RecordLeTotalOrder(x, s[0], x);
      } else {
        assert rest[j] in multiset(s[1..]);
        var k :| 0 <= k < |s[1..]| && s[1..][k] == rest[j];
        assert s[k + 1] == rest[j];
      }
    }
    assert s == [s[0]] + s[1..];
  }

  /** Insertion sort. */
  function Sort(s: seq<Record>): (r: seq<Record>)
    ensures Sorted(r)
    ensures multiset(r) == multiset(s)
  {
    if |s| == 0 then []
    else
      assert s == [s[0]] + s[1..];
      Insert(s[0], Sort(s[1..]))
  }

  /** Two sorted arrangements of the same records start with the same record. */
  lemma SortedSameHead(a: seq<Record>, b: seq<Record>)
    requires Sorted(a) && Sorted(b) && |a| > 0 && |b| > 0
    requires multiset(a) == multiset(b)
    ensures a[0] == b[0]
  {
    assert a[0] in multiset(b);
    var k :| 0 <= k < |b| && b[k] == a[0];
    assert b[0] in multiset(a);
    var l :| 0 <= l < |a| && a[l] == b[0];
    RecordLeTotalOrder(a[0], b[0], a[0]);
    if k > 0 {
      assert RecordLe(b[0], a[0]);
    }
    if l > 0 {
      assert RecordLe(a[0], b[0]);
    }
  }

  /** Dropping the first record of a list drops one copy of it from the
      multiset. */
  lemma MultisetTail(a: seq<Record>)
    requires |a| > 0
    ensures multiset(a[1..]) == multiset(a) - multiset{a[0]}
  {
    assert a == [a[0]] + a[1..];
  }

  /** A total order admits exactly one sorted arrangement of a multiset of
      records. */
  lemma {:induction false} SortedUnique(a: seq<Record>, b: seq<Record>)
    requires Sorted(a) && Sorted(b)
    requires multiset(a) == multiset(b)
    ensures a == b
    decreases |a|
  {
    assert |a| == |multiset(a)| == |multiset(b)| == |b|;
    if |a| > 0 {
      SortedSameHead(a, b);
      MultisetTail(a);
      MultisetTail(b);
      SortedUnique(a[1..], b[1..]);
      assert a == [a[0]] + a[1..];
      assert b == [b[0]] + b[1..];
    }
  }

  /** The sorted output depends only on which records there are, not on the
      order the classifier found them in. */
  lemma SortIgnoresOrder(a: seq<Record>, b: seq<Record>)
    requires multiset(a) == multiset(b)
    ensures Sort(a) == Sort(b)
  {
    SortedUnique(Sort(a), Sort(b));
  }
}
