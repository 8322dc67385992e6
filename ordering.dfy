/** `order_by(...)` as a sort over sequences of rows.

    An ordering such as `('-is_featured', 'order', '-created_at')` becomes a key
    function giving each row a sequence of parts compared lexicographically:
    a descending boolean or number is encoded by negation, an ascending text as
    `Text`, a descending text as `RevText`. Rows with equal keys keep their input
    order (the database leaves their order unspecified). */
module Ordering {

  datatype Part = Num(n: int) | Text(s: string) | RevText(r: string)

  type Key = seq<Part>

  /** Strict lexicographic order on strings, by code point. */
  predicate StrLt(a: string, b: string)
  {
    if a == [] then b != []
    else if b == [] then false
    else if a[0] < b[0] then true
    else a[0] == b[0] && StrLt(a[1..], b[1..])
  }

  lemma {:induction false} StrLtIrreflexive(a: string)
    ensures !StrLt(a, a)
  {
    if a != [] {
      StrLtIrreflexive(a[1..]);
    }
  }

  lemma {:induction false} StrLtTotal(a: string, b: string)
    ensures a == b || StrLt(a, b) || StrLt(b, a)
  {
    if a != [] && b != [] && a[0] == b[0] {
      StrLtTotal(a[1..], b[1..]);
      if a[1..] == b[1..] {
        assert a == [a[0]] + a[1..] && b == [b[0]] + b[1..];
      }
    }
  }

  lemma {:induction false} StrLtTransitive(a: string, b: string, c: string)
    requires StrLt(a, b) && StrLt(b, c)
    ensures StrLt(a, c)
  {
    if a != [] && a[0] == b[0] && b[0] == c[0] {
      StrLtTransitive(a[1..], b[1..], c[1..]);
    }
  }

  lemma StrLtAsymmetric(a: string, b: string)
    requires StrLt(a, b)
    ensures !StrLt(b, a)
  {
    if StrLt(b, a) {
      StrLtTransitive(a, b, a);
      StrLtIrreflexive(a);
    }
  }

  predicate PartLt(x: Part, y: Part)
  {
    match (x, y)
    case (Num(a), Num(b)) => a < b
    case (Text(a), Text(b)) => StrLt(a, b)
    case (RevText(a), RevText(b)) => StrLt(b, a)
    case (Num(_), _) => true
    case (Text(_), RevText(_)) => true
    case (_, _) => false
  }

  lemma PartLtTotal(x: Part, y: Part)
    ensures x == y || PartLt(x, y) || PartLt(y, x)
  {
    match (x, y)
    case (Text(a), Text(b)) => StrLtTotal(a, b);
    case (RevText(a), RevText(b)) => StrLtTotal(a, b);
    case (_, _) =>
  }

  lemma PartLtTransitive(x: Part, y: Part, z: Part)
    requires PartLt(x, y) && PartLt(y, z)
    ensures PartLt(x, z)
  {
    match (x, y, z)
    case (Text(a), Text(b), Text(c)) => StrLtTransitive(a, b, c);
    case (RevText(a), RevText(b), RevText(c)) => StrLtTransitive(c, b, a);
    case (_, _, _) =>
  }

  lemma PartLtIrreflexive(x: Part)
    ensures !PartLt(x, x)
  {
    match x
    case Text(a) => StrLtIrreflexive(a);
    case RevText(a) => StrLtIrreflexive(a);
    case Num(_) =>
  }

  /** Lexicographic "comes no later than" on keys. */
  predicate KeyLe(a: Key, b: Key)
  {
    if a == [] then true
    else if b == [] then false
    else PartLt(a[0], b[0]) || (a[0] == b[0] && KeyLe(a[1..], b[1..]))
  }

  lemma {:induction false} KeyLeTotal(a: Key, b: Key)
    ensures KeyLe(a, b) || KeyLe(b, a)
  {
    if a != [] && b != [] {
      PartLtTotal(a[0], b[0]);
      if a[0] == b[0] {
        KeyLeTotal(a[1..], b[1..]);
      }
    }
  }

  lemma {:induction false} KeyLeTransitive(a: Key, b: Key, c: Key)
    requires KeyLe(a, b) && KeyLe(b, c)
    ensures KeyLe(a, c)
  {
    if a != [] {
      if PartLt(a[0], b[0]) && PartLt(b[0], c[0]) {
        PartLtTransitive(a[0], b[0], c[0]);
      } else if a[0] == b[0] && b[0] == c[0] {
        KeyLeTransitive(a[1..], b[1..], c[1..]);
      }
    }
  }

  lemma {:induction false} KeyLeReflexive(a: Key)
    ensures KeyLe(a, a)
  {
    if a != [] {
      KeyLeReflexive(a[1..]);
    }
  }

  predicate SortedBy<T>(s: seq<T>, key: T -> Key)
  {
    forall i, j :: 0 <= i < j < |s| ==> KeyLe(key(s[i]), key(s[j]))
  }

  /** Places `x` before the first row it does not come after. */
  function Insert<T>(x: T, s: seq<T>, key: T -> Key): seq<T>
  {
    if s == [] then [x]
    else if KeyLe(key(x), key(s[0])) then [x] + s
    else [s[0]] + Insert(x, s[1..], key)
  }

  /** `order_by(...)`: insertion sort by `key`. */
  function Sort<T>(s: seq<T>, key: T -> Key): seq<T>
  {
    if s == [] then [] else Insert(s[0], Sort(s[1..], key), key)
  }

  lemma {:induction false} InsertPermutes<T>(x: T, s: seq<T>, key: T -> Key)
    ensures multiset(Insert(x, s, key)) == multiset(s) + multiset{x}
  {
    if s != [] && !KeyLe(key(x), key(s[0])) {
      InsertPermutes(x, s[1..], key);
      assert s == [s[0]] + s[1..];
    }
  }

  lemma {:induction false} InsertSorted<T>(x: T, s: seq<T>, key: T -> Key)
    requires SortedBy(s, key)
    ensures SortedBy(Insert(x, s, key), key)
  {
    if s == [] {
    } else if KeyLe(key(x), key(s[0])) {
      forall j | 0 <= j < |s| ensures KeyLe(key(x), key(s[j])) {
        if j > 0 {
          KeyLeTransitive(key(x), key(s[0]), key(s[j]));
        }
      }
      ConsSorted(x, s, key);
    } else {
      KeyLeTotal(key(x), key(s[0]));
      InsertSorted(x, s[1..], key);
      InsertAfterHead(x, s, key);
      ConsSorted(s[0], Insert(x, s[1..], key), key);
    }
  }

  /** A row no later than every row of a sorted sequence can go in front of it. */
  lemma ConsSorted<T>(h: T, t: seq<T>, key: T -> Key)
    requires SortedBy(t, key)
    requires forall j :: 0 <= j < |t| ==> KeyLe(key(h), key(t[j]))
    ensures SortedBy([h] + t, key)
  {
    var r := [h] + t;
    forall i, j | 0 <= i < j < |r| ensures KeyLe(key(r[i]), key(r[j])) {
      if i == 0 {
        assert r[j] == t[j - 1];
      } else {
        assert r[i] == t[i - 1] && r[j] == t[j - 1];
      }
    }
  }

  /** Inserting a row that comes after the head of a sorted sequence into its
      tail keeps every row no earlier than the head. */
  lemma InsertAfterHead<T>(x: T, s: seq<T>, key: T -> Key)
    requires SortedBy(s, key) && s != [] && KeyLe(key(s[0]), key(x))
    ensures forall j :: 0 <= j < |Insert(x, s[1..], key)| ==> KeyLe(key(s[0]), key(Insert(x, s[1..], key)[j]))
  {
    var tail := Insert(x, s[1..], key);
    InsertPermutes(x, s[1..], key);
    forall j | 0 <= j < |tail| ensures KeyLe(key(s[0]), key(tail[j])) {
      assert tail[j] in multiset(tail);
      if tail[j] != x {
        assert tail[j] in multiset(s[1..]);
        var k :| 0 <= k < |s[1..]| && s[1..][k] == tail[j];
        assert s[k + 1] == tail[j];
      }
    }
  }

  /** The result of `Sort` is ordered by the key. */
  lemma {:induction false} SortSorted<T>(s: seq<T>, key: T -> Key)
    ensures SortedBy(Sort(s, key), key)
  {
    if s != [] {
      SortSorted(s[1..], key);
      InsertSorted(s[0], Sort(s[1..], key), key);
    }
  }

  /** `Sort` only reorders: the same rows, each as often as before. */
  lemma SortPermutes<T>(s: seq<T>, key: T -> Key)
    ensures multiset(Sort(s, key)) == multiset(s)
    ensures |Sort(s, key)| == |s|
    ensures forall x :: x in Sort(s, key) <==> x in s
  {
    SortMultiset(s, key);
    var t := Sort(s, key);
    assert |multiset(t)| == |multiset(s)|;
    forall x ensures x in t <==> x in s {
      assert x in t <==> x in multiset(t);
      assert x in s <==> x in multiset(s);
    }
  }

  lemma {:induction false} SortMultiset<T>(s: seq<T>, key: T -> Key)
    ensures multiset(Sort(s, key)) == multiset(s)
  {
    if s != [] {
      SortMultiset(s[1..], key);
      InsertPermutes(s[0], Sort(s[1..], key), key);
      assert s == [s[0]] + s[1..];
    }
  }

  /** A sorted prefix stays sorted. */
  lemma SortedPrefix<T>(s: seq<T>, n: nat, key: T -> Key)
    requires SortedBy(s, key) && n <= |s|
    ensures SortedBy(s[..n], key)
  {
  }

  /** `order_by(...)[:n]`: the first `n` rows in key order. */
  function TopN<T>(s: seq<T>, key: T -> Key, n: nat): (r: seq<T>)
    ensures |r| == if |s| < n then |s| else n
    ensures multiset(r) <= multiset(s)
    ensures forall x :: x in r ==> x in s
    ensures SortedBy(r, key)
  {
    var t := Sort(s, key);
    var m := if |s| < n then |s| else n;
    SortSorted(s, key);
    SortPermutes(s, key);
    SortedPrefix(t, m, key);
    assert t == t[..m] + t[m..];
    assert multiset(t) == multiset(t[..m]) + multiset(t[m..]);
    assert forall x :: x in t[..m] ==> x in multiset(s);
    t[..m]
  }

  /** The rows `TopN` leaves out come no earlier in key order than any row it keeps. */
  lemma TopNKeepsFirst<T>(s: seq<T>, key: T -> Key, n: nat, y: T)
    requires y in multiset(s) - multiset(TopN(s, key, n))
    ensures forall x :: x in TopN(s, key, n) ==> KeyLe(key(x), key(y))
  {
    var t := Sort(s, key);
    var m := if |s| < n then |s| else n;
    SortSorted(s, key);
    SortPermutes(s, key);
    assert TopN(s, key, n) == t[..m];
    var j := LeftOutIndex(t, m, y);
    forall x | x in t[..m]
      ensures KeyLe(key(x), key(y))
    {
      var i :| 0 <= i < m && t[..m][i] == x;
      assert t[i] == x && t[j] == y && i < j;
    }
  }

  /** A row counted in `t` more often than in its first `m` rows sits after them. */
  lemma LeftOutIndex<T>(t: seq<T>, m: nat, y: T) returns (j: nat)
    requires m <= |t| && y in multiset(t) - multiset(t[..m])
    ensures m <= j < |t| && t[j] == y
  {
    assert t == t[..m] + t[m..];
    assert multiset(t) == multiset(t[..m]) + multiset(t[m..]);
    assert y in multiset(t[m..]);
    var k :| 0 <= k < |t[m..]| && t[m..][k] == y;
    j := m + k;
  }
}
