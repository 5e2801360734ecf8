/**
 * Strictly ascending sequences under a strict total order. They stand in for
 * the orders that SQL's ORDER BY and JavaScript's integer-keyed objects impose.
 */
module Ordering {

  /** `lt` is irreflexive, transitive and total: a strict total order. */
  ghost predicate StrictTotalOrder<T(!new)>(lt: (T, T) -> bool)
  {
    && (forall x :: !lt(x, x))
    && (forall x, y, z :: lt(x, y) && lt(y, z) ==> lt(x, z))
    && (forall x, y :: x == y || lt(x, y) || lt(y, x))
  }

  /** Every element is strictly below every later one. */
  predicate Ascending<T>(lt: (T, T) -> bool, s: seq<T>)
  {
    forall i, j :: 0 <= i < j < |s| ==> lt(s[i], s[j])
  }

  /** The elements of a sequence, as a set. */
  function Elems<T>(s: seq<T>): set<T>
  {
    set x | x in s
  }

  function Min(a: int, b: int): int
  {
    if a <= b then a else b
  }

  /** The order of record ids (non-negative integers), as a value that can be passed around. */
  predicate IdLess(a: nat, b: nat)
  {
    a < b
  }

  lemma IdLessIsStrictTotal()
    ensures StrictTotalOrder(IdLess)
  {
  }

  /** Inserts `x` at its place in the ascending `s`, unless it is already there. */
  function Insert<T(==)>(lt: (T, T) -> bool, s: seq<T>, x: T): seq<T>
  {
    if s == [] then [x]
    else if s[0] == x then s
    else if lt(x, s[0]) then [x] + s
    else [s[0]] + Insert(lt, s[1..], x)
  }

  lemma {:induction false} InsertKeepsAscending<T(!new)>(lt: (T, T) -> bool, s: seq<T>, x: T)
    requires StrictTotalOrder(lt)
    requires Ascending(lt, s)
    ensures Ascending(lt, Insert(lt, s, x))
    ensures Elems(Insert(lt, s, x)) == Elems(s) + {x}
  {
    if s == [] {
    } else if s[0] == x {
    } else if lt(x, s[0]) {
      ConsAscending(lt, x, s);
    } else {
      assert Ascending(lt, s[1..]);
      InsertKeepsAscending(lt, s[1..], x);
      ConsAscending(lt, s[0], Insert(lt, s[1..], x));
      assert s == [s[0]] + s[1..];
      assert Elems(s) == {s[0]} + Elems(s[1..]);
    }
  }

  /** Putting an element below all of an ascending sequence in front keeps it ascending. */
  lemma ConsAscending<T(!new)>(lt: (T, T) -> bool, x: T, s: seq<T>)
    requires StrictTotalOrder(lt)
    requires Ascending(lt, s)
    requires s != [] ==> lt(x, s[0]) || forall q :: q in Elems(s) ==> lt(x, q)
    ensures Ascending(lt, [x] + s)
    ensures Elems([x] + s) == {x} + Elems(s)
  {
    var r := [x] + s;
    forall k | 0 <= k < |s| ensures lt(x, s[k]) {
      assert s[k] in Elems(s);
      if k > 0 {
        assert lt(s[0], s[k]);
      }
    }
    forall i, j | 0 <= i < j < |r| ensures lt(r[i], r[j]) {
      assert r[j] == s[j - 1];
      if i > 0 {
        assert r[i] == s[i - 1];
      }
    }
    assert forall z :: z in r <==> z == x || z in s;
  }

  /** Folds `Insert` over `ks` from left to right: the distinct keys of `ks` in ascending order. */
  function AscendingSet<T(==)>(lt: (T, T) -> bool, ks: seq<T>): seq<T>
  {
    if ks == [] then [] else Insert(lt, AscendingSet(lt, ks[..|ks| - 1]), ks[|ks| - 1])
  }

  lemma {:induction false} AscendingSetSpec<T(!new)>(lt: (T, T) -> bool, ks: seq<T>)
    requires StrictTotalOrder(lt)
    ensures Ascending(lt, AscendingSet(lt, ks))
    ensures Elems(AscendingSet(lt, ks)) == Elems(ks)
  {
    if ks != [] {
      var p := ks[..|ks| - 1];
      AscendingSetSpec(lt, p);
      InsertKeepsAscending(lt, AscendingSet(lt, p), ks[|ks| - 1]);
      assert ks == p + [ks[|ks| - 1]];
      assert Elems(ks) == Elems(p) + {ks[|ks| - 1]};
    }
  }

  lemma AscendingSetSnoc<T>(lt: (T, T) -> bool, ks: seq<T>, x: T)
    ensures AscendingSet(lt, ks + [x]) == Insert(lt, AscendingSet(lt, ks), x)
  {
    assert (ks + [x])[..|ks|] == ks;
  }

  /** An ascending sequence has no repeated element, so its length is its number of elements. */
  lemma {:induction false} AscendingCard<T(!new)>(lt: (T, T) -> bool, s: seq<T>)
    requires StrictTotalOrder(lt)
    requires Ascending(lt, s)
    ensures |Elems(s)| == |s|
  {
    if s != [] {
      assert Ascending(lt, s[1..]);
      AscendingCard(lt, s[1..]);
      assert s == [s[0]] + s[1..];
      assert Elems(s) == {s[0]} + Elems(s[1..]);
      forall m | 1 <= m < |s| ensures s[m] != s[0] {
        assert lt(s[0], s[m]);
      }
      assert s[0] !in Elems(s[1..]);
    }
  }

  /** Two ascending sequences with the same elements are the same sequence. */
  lemma {:induction false} AscendingUnique<T(!new)>(lt: (T, T) -> bool, a: seq<T>, b: seq<T>)
    requires StrictTotalOrder(lt)
    requires Ascending(lt, a) && Ascending(lt, b)
    requires Elems(a) == Elems(b)
    ensures a == b
  {
    AscendingCard(lt, a);
    AscendingCard(lt, b);
    if a != [] {
      assert a[0] in Elems(b) && b[0] in Elems(a);
      var i :| 0 <= i < |a| && a[i] == b[0];
      var j :| 0 <= j < |b| && b[j] == a[0];
      assert a[0] == b[0];
      assert Ascending(lt, a[1..]) && Ascending(lt, b[1..]);
      forall z ensures z in Elems(a[1..]) <==> z in Elems(b[1..]) {
        assert a == [a[0]] + a[1..];
        assert b == [b[0]] + b[1..];
        if z in a[1..] {
          var m :| 1 <= m < |a| && a[m] == z;
          assert lt(a[0], z);
          assert z in Elems(b);
        }
        if z in b[1..] {
          var m :| 1 <= m < |b| && b[m] == z;
          assert lt(b[0], z);
          assert z in Elems(a);
        }
      }
      AscendingUnique(lt, a[1..], b[1..]);
      assert a == [a[0]] + a[1..];
      assert b == [b[0]] + b[1..];
    }
  }

  /** Nothing of an ascending sequence lies strictly between two neighbours. */
  lemma AdjacentNoneBetween<T(!new)>(lt: (T, T) -> bool, s: seq<T>, k: int)
    requires StrictTotalOrder(lt) && Ascending(lt, s) && 0 < k < |s|
    ensures forall q :: q in Elems(s) ==> !(lt(s[k - 1], q) && lt(q, s[k]))
  {
    forall q | q in Elems(s) ensures !(lt(s[k - 1], q) && lt(q, s[k])) {
      var t :| 0 <= t < |s| && s[t] == q;
      if t < k - 1 {
        assert lt(s[t], s[k - 1]);
      } else if t > k {
        assert lt(s[k], s[t]);
      }
    }
  }

  /** Only the first element of an ascending sequence has nothing of it below. */
  lemma HasSmallerIffNotFirst<T(!new)>(lt: (T, T) -> bool, s: seq<T>, k: int)
    requires StrictTotalOrder(lt) && Ascending(lt, s) && 0 <= k < |s|
    ensures (exists q :: q in Elems(s) && lt(q, s[k])) <==> k > 0
  {
    if k > 0 {
      assert s[0] in Elems(s) && lt(s[0], s[k]);
    } else {
      forall q | q in Elems(s) ensures !lt(q, s[0]) {
        var t :| 0 <= t < |s| && s[t] == q;
        if t > 0 {
          assert lt(s[0], s[t]);
        }
      }
    }
  }
}
