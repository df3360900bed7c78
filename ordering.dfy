/**
 * The comparison `a < b` that the table pages apply to a column's values,
 * and the stable sort `Array.prototype.sort` performs with the comparator
 * `a < b ? -1 : a > b ? 1 : 0` (ascending) or its mirror (descending).
 */
module Ordering {

  /** The value of one column: a number or a string. */
  datatype Key = Num(n: int) | Str(s: string)

  /** JavaScript `<` on strings: lexicographic by character. */
  predicate StrLess(a: string, b: string) {
    if |a| == 0 then |b| > 0
    else if |b| == 0 then false
    else if a[0] == b[0] then StrLess(a[1..], b[1..])
    else a[0] < b[0]
  }

  /** `<` on column values; within one column all values are of one kind. */
  predicate Less(a: Key, b: Key) {
    match (a, b)
    case (Num(x), Num(y)) => x < y
    case (Str(x), Str(y)) => StrLess(x, y)
    case (Num(_), Str(_)) => true
    case (Str(_), Num(_)) => false
  }

  lemma {:induction false} StrLessIrreflexive(a: string)
    ensures !StrLess(a, a)
  {
    if |a| > 0 {
      StrLessIrreflexive(a[1..]);
    }
  }

  lemma {:induction false} StrLessTransitive(a: string, b: string, c: string)
    requires StrLess(a, b) && StrLess(b, c)
    ensures StrLess(a, c)
  {
    if |a| > 0 && |b| > 0 && |c| > 0 && a[0] == b[0] && b[0] == c[0] {
      StrLessTransitive(a[1..], b[1..], c[1..]);
    }
  }

  lemma {:induction false} StrLessTotal(a: string, b: string)
    ensures a == b || StrLess(a, b) || StrLess(b, a)
  {
    if |a| > 0 && |b| > 0 && a[0] == b[0] {
      StrLessTotal(a[1..], b[1..]);
      if a[1..] == b[1..] {
        assert a == [a[0]] + a[1..] && b == [b[0]] + b[1..];
      }
    }
  }

  /** `Less` is a strict total order on column values. */
  lemma LessIsStrictTotalOrder(a: Key, b: Key, c: Key)
    ensures !Less(a, a)
    ensures Less(a, b) && Less(b, c) ==> Less(a, c)
    ensures a == b || Less(a, b) || Less(b, a)
  {
    if a.Str? {
      StrLessIrreflexive(a.s);
    }
    if a.Str? && b.Str? && c.Str? && Less(a, b) && Less(b, c) {
      StrLessTransitive(a.s, b.s, c.s);
    }
    if a.Str? && b.Str? {
      StrLessTotal(a.s, b.s);
    }
  }

  /** The comparator returns a negative number: `a` must be placed before `b`. */
  predicate Before(a: Key, b: Key, descending: bool) {
    if descending then Less(b, a) else Less(a, b)
  }

  /** `Before` is irreflexive, and "not before" is total and transitive. */
  lemma BeforeFacts(a: Key, b: Key, c: Key, descending: bool)
    ensures !Before(a, a, descending)
    ensures Before(a, b, descending) ==> !Before(b, a, descending)
    ensures !Before(b, a, descending) && !Before(c, b, descending) ==> !Before(c, a, descending)
  {
    LessIsStrictTotalOrder(a, b, a);
    LessIsStrictTotalOrder(b, a, b);
    LessIsStrictTotalOrder(a, b, c);
    LessIsStrictTotalOrder(b, a, c);
    LessIsStrictTotalOrder(c, b, a);
    LessIsStrictTotalOrder(a, c, b);
    LessIsStrictTotalOrder(b, c, a);
    LessIsStrictTotalOrder(c, a, b);
  }

  /** No element is placed after one that must come after it. */
  ghost predicate Ordered<T>(s: seq<T>, key: T -> Key, descending: bool) {
    forall i, j :: 0 <= i < j < |s| ==> !Before(key(s[j]), key(s[i]), descending)
  }

  /** Places `x`, which preceded every element of `s`, before the first element it may precede. */
  function Insert<T>(x: T, s: seq<T>, key: T -> Key, descending: bool): (r: seq<T>)
    ensures |r| == |s| + 1
  {
    if |s| == 0 then [x]
    else if Before(key(s[0]), key(x), descending) then [s[0]] + Insert(x, s[1..], key, descending)
    else [x] + s
  }

  /** The stable sort of `s` by `key`. */
  function SortBy<T>(s: seq<T>, key: T -> Key, descending: bool): (r: seq<T>)
    ensures |r| == |s|
  {
    if |s| == 0 then [] else Insert(s[0], SortBy(s[1..], key, descending), key, descending)
  }

  /** No element of `s` must be placed before `y`. */
  ghost predicate NoneBefore<T>(y: T, s: seq<T>, key: T -> Key, descending: bool) {
    forall j :: 0 <= j < |s| ==> !Before(key(s[j]), key(y), descending)
  }

  lemma OrderedCons<T>(y: T, t: seq<T>, key: T -> Key, descending: bool)
    requires Ordered(t, key, descending) && NoneBefore(y, t, key, descending)
    ensures Ordered([y] + t, key, descending)
  {
    var r := [y] + t;
    forall i, j | 0 <= i < j < |r| ensures !Before(key(r[j]), key(r[i]), descending) {
      assert r[j] == t[j - 1];
      if i > 0 {
        assert r[i] == t[i - 1];
      }
    }
  }

  lemma {:induction false} InsertMultiset<T>(x: T, s: seq<T>, key: T -> Key, descending: bool)
    ensures multiset(Insert(x, s, key, descending)) == multiset(s) + multiset{x}
  {
    if |s| > 0 && Before(key(s[0]), key(x), descending) {
      InsertMultiset(x, s[1..], key, descending);
      assert s == [s[0]] + s[1..];
    }
  }

  lemma {:induction false} InsertNoneBefore<T>(y: T, x: T, s: seq<T>, key: T -> Key, descending: bool)
    requires NoneBefore(y, s, key, descending) && !Before(key(x), key(y), descending)
    ensures NoneBefore(y, Insert(x, s, key, descending), key, descending)
  {
    if |s| > 0 && Before(key(s[0]), key(x), descending) {
      InsertNoneBefore(y, x, s[1..], key, descending);
      var t := Insert(x, s[1..], key, descending);
      forall j | 0 <= j < |[s[0]] + t| ensures !Before(key(([s[0]] + t)[j]), key(y), descending) {
        if j > 0 {
          assert ([s[0]] + t)[j] == t[j - 1];
        }
      }
    }
  }

  lemma {:induction false} InsertOrdered<T>(x: T, s: seq<T>, key: T -> Key, descending: bool)
    requires Ordered(s, key, descending)
    ensures Ordered(Insert(x, s, key, descending), key, descending)
  {
    if |s| == 0 {
      return;
    }
    var s0 := s[0];
    var rest := s[1..];
    assert Ordered(rest, key, descending) by {
      forall i, j | 0 <= i < j < |rest| ensures !Before(key(rest[j]), key(rest[i]), descending) {
        assert rest[i] == s[i + 1] && rest[j] == s[j + 1];
      }
    }
    assert NoneBefore(s0, rest, key, descending) by {
      forall j | 0 <= j < |rest| ensures !Before(key(rest[j]), key(s0), descending) {
        assert rest[j] == s[j + 1];
      }
    }
    if Before(key(s0), key(x), descending) {
      InsertOrdered(x, rest, key, descending);
      BeforeFacts(key(s0), key(x), key(x), descending);
      InsertNoneBefore(s0, x, rest, key, descending);
      OrderedCons(s0, Insert(x, rest, key, descending), key, descending);
    } else {
      forall j | 0 <= j < |s| ensures !Before(key(s[j]), key(x), descending) {
        BeforeFacts(key(x), key(s0), key(s[j]), descending);
      }
      OrderedCons(x, s, key, descending);
    }
  }

  /** The sort is a permutation of its input and leaves it ordered by `key`. */
  lemma {:induction false} SortByCorrect<T>(s: seq<T>, key: T -> Key, descending: bool)
    ensures multiset(SortBy(s, key, descending)) == multiset(s)
    ensures Ordered(SortBy(s, key, descending), key, descending)
  {
    if |s| > 0 {
      SortByCorrect(s[1..], key, descending);
      InsertMultiset(s[0], SortBy(s[1..], key, descending), key, descending);
      InsertOrdered(s[0], SortBy(s[1..], key, descending), key, descending);
      assert s == [s[0]] + s[1..];
    }
  }

  /** When every element has the same key (the comparator always answers 0) the order is unchanged. */
  lemma {:induction false} SortByEqualKeys<T>(s: seq<T>, key: T -> Key, descending: bool, k: Key)
    requires forall i :: 0 <= i < |s| ==> key(s[i]) == k
    ensures SortBy(s, key, descending) == s
  {
    if |s| > 0 {
      SortByEqualKeys(s[1..], key, descending, k);
      BeforeFacts(k, k, k, descending);
      assert [s[0]] + s[1..] == s;
    }
  }

  /** The elements of `s` whose key is `k`, in the order of `s`. */
  function WithKey<T>(s: seq<T>, key: T -> Key, k: Key): seq<T> {
    if |s| == 0 then [] else (if key(s[0]) == k then [s[0]] else []) + WithKey(s[1..], key, k)
  }

  /** Inserting `x` puts it in front of every element with its own key, and moves no other element of that key. */
  lemma {:induction false} InsertWithKey<T>(x: T, s: seq<T>, key: T -> Key, descending: bool, k: Key)
    ensures WithKey(Insert(x, s, key, descending), key, k) == (if key(x) == k then [x] else []) + WithKey(s, key, k)
  {
    if |s| > 0 && Before(key(s[0]), key(x), descending) {
      InsertWithKey(x, s[1..], key, descending, k);
      BeforeFacts(key(x), key(x), key(x), descending);
      assert ([s[0]] + Insert(x, s[1..], key, descending))[1..] == Insert(x, s[1..], key, descending);
    } else if |s| > 0 {
      assert ([x] + s)[1..] == s;
    }
  }

  /** The sort is stable: the elements sharing any one key come out in their input order. */
  lemma {:induction false} SortByStable<T>(s: seq<T>, key: T -> Key, descending: bool, k: Key)
    ensures WithKey(SortBy(s, key, descending), key, k) == WithKey(s, key, k)
  {
    if |s| > 0 {
      SortByStable(s[1..], key, descending, k);
      InsertWithKey(s[0], SortBy(s[1..], key, descending), key, descending, k);
    }
  }
}
