/**
 * Kotlin's `sortedBy { key }` and `sortedByDescending { key }` over nullable
 * `Comparable` keys: a stable sort in which `null` is smaller than every value,
 * so nulls come first when ascending and last when descending.
 */
module Sorting {
  import opened Text
  import opened Seqs

  /** A nullable sort key: `null`, an `Int`, or a `String`. */
  datatype Key = Absent | Num(n: int) | Str(s: string)

  /** `compareValues(a, b) < 0`: null first, then numbers, strings lexicographically. */
  predicate KeyLess(a: Key, b: Key) {
    match (a, b)
    case (Absent, Absent) => false
    case (Absent, _) => true
    case (_, Absent) => false
    case (Num(x), Num(y)) => x < y
    case (Num(_), Str(_)) => true
    case (Str(_), Num(_)) => false
    case (Str(x), Str(y)) => StrLess(x, y)
  }

  lemma KeyLessIrreflexive(a: Key)
    ensures !KeyLess(a, a)
  {
    if a.Str? {
      StrLessIrreflexive(a.s);
    }
  }

  lemma KeyLessTransitive(a: Key, b: Key, c: Key)
    requires KeyLess(a, b) && KeyLess(b, c)
    ensures KeyLess(a, c)
  {
    if a.Str? && b.Str? && c.Str? {
      StrLessTransitive(a.s, b.s, c.s);
    }
  }

  lemma KeyLessTotal(a: Key, b: Key)
    requires a != b
    ensures KeyLess(a, b) || KeyLess(b, a)
  {
    if a.Str? && b.Str? {
      StrLessTotal(a.s, b.s);
    }
  }

  /** Key `a` is placed strictly before key `b` in the requested direction. */
  predicate Before(a: Key, b: Key, desc: bool) {
    if desc then KeyLess(b, a) else KeyLess(a, b)
  }

  /** Every element is placed no later than it should be relative to every later element. */
  predicate SortedBy<T>(s: seq<T>, key: T -> Key, desc: bool) {
    forall i, j :: 0 <= i < j < |s| ==> !Before(key(s[j]), key(s[i]), desc)
  }

  /** Inserts `x` in front of the first element that does not belong strictly before it. */
  function Insert<T>(x: T, s: seq<T>, key: T -> Key, desc: bool): (r: seq<T>)
    requires SortedBy(s, key, desc)
    ensures multiset(r) == multiset(s) + multiset{x}
    ensures SortedBy(r, key, desc)
  {
    if s == [] || !Before(key(s[0]), key(x), desc) then
      forall j | 0 <= j < |s| ensures !Before(key(s[j]), key(x), desc) {
        if j > 0 {
          NotBeforeChain(key(s[j]), key(s[0]), key(x), desc);
        }
      }
      ConsSorted(x, s, key, desc);
      [x] + s
    else
      HeadTail(s, key, desc);
      var rest := Insert(x, s[1..], key, desc);
      forall j | 0 <= j < |rest| ensures !Before(key(rest[j]), key(s[0]), desc) {
        assert rest[j] in multiset(rest);
        if rest[j] == x {
          NotBeforeAsym(key(s[0]), key(x), desc);
        } else {
          assert rest[j] in multiset(s[1..]);
        }
      }
      ConsSorted(s[0], rest, key, desc);
      [s[0]] + rest
  }

  /** Splitting a sorted sequence after its head: the tail is sorted and nothing in it belongs before the head. */
  lemma HeadTail<T>(s: seq<T>, key: T -> Key, desc: bool)
    requires SortedBy(s, key, desc) && s != []
    ensures SortedBy(s[1..], key, desc)
    ensures forall y :: y in s[1..] ==> !Before(key(y), key(s[0]), desc)
    ensures multiset(s) == multiset{s[0]} + multiset(s[1..])
  {
    forall i, j | 0 <= i < j < |s[1..]| ensures !Before(key(s[1..][j]), key(s[1..][i]), desc) {
      assert s[1..][i] == s[i + 1] && s[1..][j] == s[j + 1];
    }
    forall y | y in s[1..] ensures !Before(key(y), key(s[0]), desc) {
      var k :| 0 <= k < |s[1..]| && s[1..][k] == y;
      assert s[k + 1] == y;
    }
    assert s == [s[0]] + s[1..];
  }

  /** A head that belongs before everything in a sorted tail gives a sorted sequence. */
  lemma ConsSorted<T>(y: T, r: seq<T>, key: T -> Key, desc: bool)
    requires SortedBy(r, key, desc)
    requires forall j :: 0 <= j < |r| ==> !Before(key(r[j]), key(y), desc)
    ensures SortedBy([y] + r, key, desc)
  {
    var c := [y] + r;
    forall i, j | 0 <= i < j < |c| ensures !Before(key(c[j]), key(c[i]), desc) {
      assert c[j] == r[j - 1];
      if i > 0 {
        assert c[i] == r[i - 1];
      }
    }
  }

  /** `!Before` is the reflexive companion of `Before`, and it is transitive. */
  lemma NotBeforeChain(a: Key, b: Key, c: Key, desc: bool)
    requires !Before(a, b, desc) && !Before(b, c, desc)
    ensures !Before(a, c, desc)
  {
    if Before(a, c, desc) {
      if a == b {
      } else if b == c {
      } else {
        KeyLessTotal(a, b);
        KeyLessTotal(b, c);
        if desc {
          KeyLessTransitive(a, b, c);
        } else {
          KeyLessTransitive(c, b, a);
        }
        KeyLessTransitive(a, c, a);
        KeyLessIrreflexive(a);
      }
    }
  }

  lemma NotBeforeAsym(a: Key, b: Key, desc: bool)
    requires Before(a, b, desc)
    ensures !Before(b, a, desc)
  {
    if Before(b, a, desc) {
      if desc {
        KeyLessTransitive(b, a, b);
        KeyLessIrreflexive(b);
      } else {
        KeyLessTransitive(a, b, a);
        KeyLessIrreflexive(a);
      }
    }
  }

  /** `s.sortedBy(key)` (`desc` false) or `s.sortedByDescending(key)` (`desc` true). */
  function Sort<T>(s: seq<T>, key: T -> Key, desc: bool): (r: seq<T>)
    ensures multiset(r) == multiset(s)
    ensures SortedBy(r, key, desc)
  {
    if s == [] then []
    else
      assert s == [s[0]] + s[1..];
      Insert(s[0], Sort(s[1..], key, desc), key, desc)
  }

  /** Selects the elements whose key is `k`. */
  function HasKey<T>(key: T -> Key, k: Key): T -> bool {
    x => key(x) == k
  }

  /** One step of `Insert`: in front of `s`, or after its head. */
  lemma InsertStep<T>(x: T, s: seq<T>, key: T -> Key, desc: bool)
    requires SortedBy(s, key, desc)
    ensures s == [] || !Before(key(s[0]), key(x), desc) ==> Insert(x, s, key, desc) == [x] + s
    ensures s != [] && Before(key(s[0]), key(x), desc) ==>
      SortedBy(s[1..], key, desc) && Insert(x, s, key, desc) == [s[0]] + Insert(x, s[1..], key, desc)
  {
  }

  /** Inserting an element whose key differs from `k` leaves the `k`-keyed elements as they were. */
  lemma {:induction false} InsertOtherKey<T(!new)>(x: T, s: seq<T>, key: T -> Key, desc: bool, k: Key)
    requires SortedBy(s, key, desc)
    requires key(x) != k
    ensures Keep(Insert(x, s, key, desc), HasKey(key, k)) == Keep(s, HasKey(key, k))
  {
    var p := HasKey(key, k);
    InsertStep(x, s, key, desc);
    if s == [] || !Before(key(s[0]), key(x), desc) {
      KeepCons(x, s, p);
    } else {
      InsertOtherKey(x, s[1..], key, desc, k);
      KeepCons(s[0], Insert(x, s[1..], key, desc), p);
    }
  }

  /** Inserting an element with key `k` puts it ahead of every `k`-keyed element already there. */
  lemma {:induction false} InsertSameKey<T(!new)>(x: T, s: seq<T>, key: T -> Key, desc: bool)
    requires SortedBy(s, key, desc)
    ensures Keep(Insert(x, s, key, desc), HasKey(key, key(x))) == [x] + Keep(s, HasKey(key, key(x)))
  {
    var p := HasKey(key, key(x));
    InsertStep(x, s, key, desc);
    if s == [] || !Before(key(s[0]), key(x), desc) {
      KeepCons(x, s, p);
    } else {
      KeyLessIrreflexive(key(x));
      assert key(s[0]) != key(x);
      InsertSameKey(x, s[1..], key, desc);
      KeepCons(s[0], Insert(x, s[1..], key, desc), p);
    }
  }

  /** The sort is stable: elements with equal keys keep their original relative order. */
  lemma {:induction false} SortStable<T(!new)>(s: seq<T>, key: T -> Key, desc: bool, k: Key)
    ensures Keep(Sort(s, key, desc), HasKey(key, k)) == Keep(s, HasKey(key, k))
  {
    if s != [] {
      var p := HasKey(key, k);
      var rest := Sort(s[1..], key, desc);
      SortStable(s[1..], key, desc, k);
      assert s == [s[0]] + s[1..];
      if key(s[0]) == k {
        InsertSameKey(s[0], rest, key, desc);
      } else {
        InsertOtherKey(s[0], rest, key, desc, k);
      }
    }
  }

  /** Ascending order puts every null key ahead of every present key. */
  lemma NullsFirst<T>(s: seq<T>, key: T -> Key, i: nat, j: nat)
    requires SortedBy(s, key, false)
    requires i < |s| && j < |s| && key(s[i]) == Absent && key(s[j]) != Absent
    ensures i < j
  {
  }

  /** Descending order puts every null key after every present key. */
  lemma NullsLast<T>(s: seq<T>, key: T -> Key, i: nat, j: nat)
    requires SortedBy(s, key, true)
    requires i < |s| && j < |s| && key(s[i]) == Absent && key(s[j]) != Absent
    ensures j < i
  {
  }
}
