/**
 * The JavaScript reshaping step shared by the three analytics: a `reduce`
 * over the flat query rows into an object keyed by user_id, followed by
 * `Object.values`. Integer-like keys of a JavaScript object are enumerated in
 * ascending numeric order (ECMA-262, OrdinaryOwnPropertyKeys, section
 * 10.1.11.1), which the fold models by keeping its key list ascending.
 */
module Grouping {
  import opened Ordering

  /** One row of a query result: the partition's user and the payload of the row. */
  datatype Flat<V> = Flat(userId: nat, userName: string, item: V)

  /** One accumulator entry: `{ user_id, user_name, <list> }`. */
  datatype Group<V> = Group(userId: nat, userName: string, items: seq<V>)

  /** The users that have at least one row. */
  function KeySet<V>(rows: seq<Flat<V>>): set<nat>
  {
    Elems(FlatKeys(rows))
  }

  function FlatKeys<V>(rows: seq<Flat<V>>): seq<nat>
  {
    if rows == [] then [] else FlatKeys(rows[..|rows| - 1]) + [rows[|rows| - 1].userId]
  }

  /** The key order of the accumulator object. */
  function AscKeys<V>(rows: seq<Flat<V>>): seq<nat>
  {
    AscendingSet(IdLess, FlatKeys(rows))
  }

  /** The payloads of user `k`'s rows, in row order: what the fold pushes onto `k`'s list. */
  function Items<V>(rows: seq<Flat<V>>, k: nat): seq<V>
  {
    if rows == [] then []
    else
      var last := rows[|rows| - 1];
      Items(rows[..|rows| - 1], k) + (if last.userId == k then [last.item] else [])
  }

  /** The user_name of user `k`'s first row: the fold copies it when it creates the entry. */
  function FirstName<V>(rows: seq<Flat<V>>, k: nat): string
  {
    if rows == [] then ""
    else
      var p, last := rows[..|rows| - 1], rows[|rows| - 1];
      if k in KeySet(p) then FirstName(p, k) else if last.userId == k then last.userName else ""
  }

  /** What `Object.values(groupedResults)` returns after the fold. */
  function GroupsOf<V>(rows: seq<Flat<V>>): seq<Group<V>>
  {
    GroupsFor(rows, AscKeys(rows))
  }

  function GroupsFor<V>(rows: seq<Flat<V>>, ks: seq<nat>): seq<Group<V>>
  {
    seq(|ks|, i requires 0 <= i < |ks| => Group(ks[i], FirstName(rows, ks[i]), Items(rows, ks[i])))
  }

  /** One more row: how each of the fold's summaries of the rows so far changes. */
  lemma Snoc<V>(p: seq<Flat<V>>, r: Flat<V>)
    ensures FlatKeys(p + [r]) == FlatKeys(p) + [r.userId]
    ensures KeySet(p + [r]) == KeySet(p) + {r.userId}
    ensures forall k :: Items(p + [r], k) == Items(p, k) + (if r.userId == k then [r.item] else [])
    ensures forall k :: FirstName(p + [r], k) ==
                        if k in KeySet(p) then FirstName(p, k) else if r.userId == k then r.userName else ""
  {
    assert (p + [r])[..|p|] == p;
    assert Elems(FlatKeys(p) + [r.userId]) == Elems(FlatKeys(p)) + {r.userId};
  }

  /** `Snoc` for one user. */
  lemma SnocAt<V>(p: seq<Flat<V>>, r: Flat<V>, k: nat)
    ensures Items(p + [r], k) == Items(p, k) + (if r.userId == k then [r.item] else [])
    ensures FirstName(p + [r], k) ==
            if k in KeySet(p) then FirstName(p, k) else if r.userId == k then r.userName else ""
  {
    assert (p + [r])[..|p|] == p;
  }

  lemma KeySetSnoc<V>(p: seq<Flat<V>>, r: Flat<V>)
    ensures KeySet(p + [r]) == KeySet(p) + {r.userId}
  {
    Snoc(p, r);
  }

  lemma AscKeysSpec<V>(rows: seq<Flat<V>>)
    ensures Ascending(IdLess, AscKeys(rows))
    ensures Elems(AscKeys(rows)) == KeySet(rows)
  {
    IdLessIsStrictTotal();
    AscendingSetSpec(IdLess, FlatKeys(rows));
  }

  /** A user with a row has a row: `k in KeySet(rows)` is witnessed by a row of `k`. */
  lemma {:induction false} KeySetWitness<V>(rows: seq<Flat<V>>, k: nat)
    requires k in KeySet(rows)
    ensures exists r :: r in rows && r.userId == k
  {
    var p, last := rows[..|rows| - 1], rows[|rows| - 1];
    assert rows == p + [last];
    Snoc(p, last);
    if k in KeySet(p) {
      KeySetWitness(p, k);
      var r :| r in p && r.userId == k;
      assert r in rows;
    } else {
      assert last in rows;
    }
  }

  /** Inserting a key that is already present leaves an ascending key list unchanged. */
  lemma {:induction false} InsertPresent(s: seq<nat>, x: nat)
    requires Ascending(IdLess, s) && x in s
    ensures Insert(IdLess, s, x) == s
  {
    if s[0] != x {
      var m :| 0 < m < |s| && s[m] == x;
      assert IdLess(s[0], s[m]);
      assert Ascending(IdLess, s[1..]);
      InsertPresent(s[1..], x);
      assert s == [s[0]] + s[1..];
    }
  }

  /** What the `reduce` fold holds after the rows `rows`: its key order and one entry per user. */
  ghost predicate Summarises<V>(acc: map<nat, Group<V>>, keys: seq<nat>, rows: seq<Flat<V>>)
  {
    && keys == AscKeys(rows)
    && acc.Keys == KeySet(rows)
    && forall k :: k in acc ==> acc[k] == Group(k, FirstName(rows, k), Items(rows, k))
  }

  /** One step of the fold: creating the entry on first sight, then pushing, keeps the summary. */
  lemma SummarisesStep<V>(p: seq<Flat<V>>, r: Flat<V>, acc0: map<nat, Group<V>>, keys0: seq<nat>,
                          acc1: map<nat, Group<V>>, acc: map<nat, Group<V>>, keys: seq<nat>)
    requires Summarises(acc0, keys0, p)
    requires keys == if r.userId in acc0 then keys0 else Insert(IdLess, keys0, r.userId)
    requires acc1 == if r.userId in acc0 then acc0 else acc0[r.userId := Group(r.userId, r.userName, [])]
    requires acc == acc1[r.userId := acc1[r.userId].(items := acc1[r.userId].items + [r.item])]
    ensures Summarises(acc, keys, p + [r])
  {
    AscKeysSnoc(p, r, keys0, keys, r.userId in acc0);
    KeySetSnoc(p, r);
    forall k | k in acc ensures acc[k] == Group(k, FirstName(p + [r], k), Items(p + [r], k)) {
      EntrySnoc(p, r, acc0, acc1, acc, k);
    }
  }

  lemma AscKeysSnoc<V>(p: seq<Flat<V>>, r: Flat<V>, keys0: seq<nat>, keys: seq<nat>, seen: bool)
    requires keys0 == AscKeys(p)
    requires seen <==> r.userId in KeySet(p)
    requires keys == if seen then keys0 else Insert(IdLess, keys0, r.userId)
    ensures keys == AscKeys(p + [r])
  {
    Snoc(p, r);
    AscendingSetSnoc(IdLess, FlatKeys(p), r.userId);
    if seen {
      AscKeysSpec(p);
      InsertPresent(keys0, r.userId);
    }
  }

  lemma EntrySnoc<V>(p: seq<Flat<V>>, r: Flat<V>, acc0: map<nat, Group<V>>, acc1: map<nat, Group<V>>,
                     acc: map<nat, Group<V>>, k: nat)
    requires acc0.Keys == KeySet(p)
    requires forall k :: k in acc0 ==> acc0[k] == Group(k, FirstName(p, k), Items(p, k))
    requires acc1 == if r.userId in acc0 then acc0 else acc0[r.userId := Group(r.userId, r.userName, [])]
    requires acc == acc1[r.userId := acc1[r.userId].(items := acc1[r.userId].items + [r.item])]
    requires k in acc
    ensures acc[k] == Group(k, FirstName(p + [r], k), Items(p + [r], k))
  {
    SnocAt(p, r, k);
    if k == r.userId && r.userId !in acc0 {
      ItemsAbsent(p, k);
    }
  }

  /**
   * The `reduce` fold: for each row, create the user's entry on first sight
   * (copying its user_name) and push the row's payload onto that entry's list.
   * The key list is the order in which `Object.values` will enumerate entries.
   */
  method GroupByUser<V>(rows: seq<Flat<V>>) returns (acc: map<nat, Group<V>>, keys: seq<nat>)
    ensures keys == AscKeys(rows)
    ensures acc.Keys == KeySet(rows) == Elems(keys)
    ensures forall k :: k in acc ==> acc[k] == Group(k, FirstName(rows, k), Items(rows, k))
  {
    acc, keys := map[], [];
    var i := 0;
    while i < |rows|
      invariant 0 <= i <= |rows|
      invariant Summarises(acc, keys, rows[..i])
    {
      var row := rows[i];
      assert rows[..i + 1] == rows[..i] + [row];
      ghost var acc0, keys0 := acc, keys;
      if row.userId !in acc {
        acc := acc[row.userId := Group(row.userId, row.userName, [])];
        keys := Insert(IdLess, keys, row.userId);
      }
      ghost var acc1 := acc;
      acc := acc[row.userId := acc[row.userId].(items := acc[row.userId].items + [row.item])];
      SummarisesStep(rows[..i], row, acc0, keys0, acc1, acc, keys);
      i := i + 1;
    }
    assert rows[..|rows|] == rows;
    AscKeysSpec(rows);
  }

  /** `Object.values` of the accumulator. */
  function Values<V>(acc: map<nat, Group<V>>, keys: seq<nat>): seq<Group<V>>
    requires forall k :: k in keys ==> k in acc
  {
    seq(|keys|, i requires 0 <= i < |keys| => acc[keys[i]])
  }

  /** The fold followed by `Object.values` yields one entry per user, ascending by user id. */
  method GroupValues<V>(rows: seq<Flat<V>>) returns (groups: seq<Group<V>>)
    ensures groups == GroupsOf(rows)
  {
    var acc, keys := GroupByUser(rows);
    groups := Values(acc, keys);
  }

  /**
   * The fold that keeps only the payloads: on a user's first row it creates
   * an empty list under the user's id, and every row pushes its payload.
   */
  method ItemsByUser<V>(rows: seq<Flat<V>>) returns (acc: map<nat, seq<V>>)
    ensures acc.Keys == KeySet(rows)
    ensures forall k :: k in acc ==> acc[k] == Items(rows, k)
  {
    acc := map[];
    var i := 0;
    while i < |rows|
      invariant 0 <= i <= |rows|
      invariant ItemsSummarised(acc, rows[..i])
    {
      var row := rows[i];
      assert rows[..i + 1] == rows[..i] + [row];
      ghost var acc0 := acc;
      if row.userId !in acc {
        acc := acc[row.userId := []];
      }
      ghost var acc1 := acc;
      acc := acc[row.userId := acc[row.userId] + [row.item]];
      ItemsSummarisedStep(rows[..i], row, acc0, acc1, acc);
      i := i + 1;
    }
    assert rows[..|rows|] == rows;
  }

  /** What the payload-only fold holds after the rows `rows`: each user's payloads. */
  ghost predicate ItemsSummarised<V>(acc: map<nat, seq<V>>, rows: seq<Flat<V>>)
  {
    acc.Keys == KeySet(rows) && forall k :: k in acc ==> acc[k] == Items(rows, k)
  }

  lemma ItemsSummarisedStep<V>(p: seq<Flat<V>>, r: Flat<V>, acc0: map<nat, seq<V>>, acc1: map<nat, seq<V>>,
                               acc: map<nat, seq<V>>)
    requires ItemsSummarised(acc0, p)
    requires acc1 == if r.userId in acc0 then acc0 else acc0[r.userId := []]
    requires acc == acc1[r.userId := acc1[r.userId] + [r.item]]
    ensures ItemsSummarised(acc, p + [r])
  {
    KeySetSnoc(p, r);
    forall k | k in acc ensures acc[k] == Items(p + [r], k) {
      SnocAt(p, r, k);
      if k == r.userId && r.userId !in acc0 {
        ItemsAbsent(p, k);
      }
    }
  }

  // ---------------------------------------------------------------------
  // Fold of a query result that lists the partitions one after another

  /** The rows a query emits for one user: that user's payloads, each tagged with the user. */
  function Block<V>(u: nat, name: string, xs: seq<V>): seq<Flat<V>>
  {
    seq(|xs|, i requires 0 <= i < |xs| => Flat(u, name, xs[i]))
  }

  /** A query result ORDER BY user_id: the blocks of the users `us`, one after the other. */
  function Blocks<V>(users: map<nat, string>, us: seq<nat>, xss: seq<seq<V>>): seq<Flat<V>>
    requires |us| == |xss|
    requires forall i :: 0 <= i < |us| ==> us[i] in users
  {
    if us == [] then [] else Block(us[0], users[us[0]], xss[0]) + Blocks(users, us[1..], xss[1..])
  }

  /** The users of `us` whose block is not empty. */
  function NonEmptyKeys<V>(us: seq<nat>, xss: seq<seq<V>>): seq<nat>
    requires |us| == |xss|
  {
    if us == [] then [] else (if xss[0] != [] then [us[0]] else []) + NonEmptyKeys(us[1..], xss[1..])
  }

  /** One entry per user of `us` whose block is not empty, holding that block's payloads. */
  function NonEmptyGroups<V>(users: map<nat, string>, us: seq<nat>, xss: seq<seq<V>>): seq<Group<V>>
    requires |us| == |xss|
    requires forall i :: 0 <= i < |us| ==> us[i] in users
  {
    if us == [] then []
    else
      (if xss[0] != [] then [Group(us[0], users[us[0]], xss[0])] else [])
      + NonEmptyGroups(users, us[1..], xss[1..])
  }

  lemma {:induction false} ItemsConcat<V>(a: seq<Flat<V>>, b: seq<Flat<V>>, k: nat)
    ensures Items(a + b, k) == Items(a, k) + Items(b, k)
  {
    if b != [] {
      var p := b[..|b| - 1];
      ItemsConcat(a, p, k);
      assert (a + b)[..|a + b| - 1] == a + p;
    } else {
      assert a + b == a;
    }
  }

  lemma {:induction false} ItemsAbsent<V>(rows: seq<Flat<V>>, k: nat)
    requires k !in KeySet(rows)
    ensures Items(rows, k) == []
  {
    if rows != [] {
      var p := rows[..|rows| - 1];
      assert rows == p + [rows[|rows| - 1]];
      KeySetSnoc(p, rows[|rows| - 1]);
      ItemsAbsent(p, k);
    }
  }

  lemma {:induction false} ItemsBlock<V>(u: nat, name: string, xs: seq<V>, k: nat)
    ensures Items(Block(u, name, xs), k) == if u == k then xs else []
    ensures KeySet(Block(u, name, xs)) == if xs == [] then {} else {u}
    ensures forall r :: r in Block(u, name, xs) ==> r.userId == u && r.userName == name
  {
    if xs != [] {
      var p, last := xs[..|xs| - 1], Flat(u, name, xs[|xs| - 1]);
      ItemsBlock(u, name, p, k);
      BlockSnoc(u, name, xs);
      SnocAt(Block(u, name, p), last, k);
      KeySetSnoc(Block(u, name, p), last);
      DropLast(xs);
    }
  }

  /** A non-empty sequence is its front followed by its last element. */
  lemma DropLast<T>(s: seq<T>)
    requires s != []
    ensures s == s[..|s| - 1] + [s[|s| - 1]]
  {
  }

  lemma BlockSnoc<V>(u: nat, name: string, xs: seq<V>)
    requires xs != []
    ensures Block(u, name, xs) == Block(u, name, xs[..|xs| - 1]) + [Flat(u, name, xs[|xs| - 1])]
  {
  }

  /** When every row of user `k` carries the name `n`, the fold records `n` for `k`. */
  lemma {:induction false} FirstNameUniform<V>(rows: seq<Flat<V>>, k: nat, n: string)
    requires k in KeySet(rows)
    requires forall r :: r in rows && r.userId == k ==> r.userName == n
    ensures FirstName(rows, k) == n
  {
    var p, last := rows[..|rows| - 1], rows[|rows| - 1];
    assert rows == p + [last];
    KeySetSnoc(p, last);
    if k in KeySet(p) {
      FirstNameUniform(p, k, n);
    }
  }

  lemma {:induction false} FlatKeysConcat<V>(a: seq<Flat<V>>, b: seq<Flat<V>>)
    ensures FlatKeys(a + b) == FlatKeys(a) + FlatKeys(b)
    ensures KeySet(a + b) == KeySet(a) + KeySet(b)
  {
    if b == [] {
      assert a + b == a;
    } else {
      var p := b[..|b| - 1];
      FlatKeysConcat(a, p);
      assert (a + b)[..|a + b| - 1] == a + p;
    }
  }

  lemma {:induction false} NonEmptyKeysAscending<V>(us: seq<nat>, xss: seq<seq<V>>)
    requires |us| == |xss|
    requires Ascending(IdLess, us)
    ensures Ascending(IdLess, NonEmptyKeys(us, xss))
    ensures forall k :: k in NonEmptyKeys(us, xss) ==> k in us
  {
    if us != [] {
      assert Ascending(IdLess, us[1..]);
      NonEmptyKeysAscending(us[1..], xss[1..]);
      var tail := NonEmptyKeys(us[1..], xss[1..]);
      forall k | k in tail ensures IdLess(us[0], k) && k in us {
        var m :| 0 <= m < |us[1..]| && us[1..][m] == k;
        assert us[m + 1] == k;
      }
      if xss[0] != [] {
        IdLessIsStrictTotal();
        ConsAscending(IdLess, us[0], tail);
      }
    }
  }

  lemma {:induction false} BlocksKeySet<V>(users: map<nat, string>, us: seq<nat>, xss: seq<seq<V>>)
    requires |us| == |xss|
    requires forall i :: 0 <= i < |us| ==> us[i] in users
    ensures KeySet(Blocks(users, us, xss)) == Elems(NonEmptyKeys(us, xss))
  {
    if us != [] {
      var b0 := Block(us[0], users[us[0]], xss[0]);
      BlocksKeySet(users, us[1..], xss[1..]);
      ItemsBlock(us[0], users[us[0]], xss[0], us[0]);
      FlatKeysConcat(b0, Blocks(users, us[1..], xss[1..]));
      var head := if xss[0] != [] then [us[0]] else [];
      assert Elems(head + NonEmptyKeys(us[1..], xss[1..])) == Elems(head) + Elems(NonEmptyKeys(us[1..], xss[1..]));
    }
  }

  lemma {:induction false} BlocksNames<V>(users: map<nat, string>, us: seq<nat>, xss: seq<seq<V>>)
    requires |us| == |xss|
    requires forall i :: 0 <= i < |us| ==> us[i] in users
    ensures forall r :: r in Blocks(users, us, xss) ==> r.userId in users && r.userName == users[r.userId]
  {
    if us != [] {
      var b0, rest := Block(us[0], users[us[0]], xss[0]), Blocks(users, us[1..], xss[1..]);
      BlocksNames(users, us[1..], xss[1..]);
      ItemsBlock(us[0], users[us[0]], xss[0], us[0]);
      forall r: Flat<V> | r in b0 + rest ensures r.userId in users && r.userName == users[r.userId] {
        assert r in b0 || r in rest;
      }
    }
  }

  lemma {:induction false} BlocksItems<V>(users: map<nat, string>, us: seq<nat>, xss: seq<seq<V>>)
    requires |us| == |xss|
    requires forall i :: 0 <= i < |us| ==> us[i] in users
    requires Ascending(IdLess, us)
    ensures forall i :: 0 <= i < |us| ==> Items(Blocks(users, us, xss), us[i]) == xss[i]
  {
    if us != [] {
      var b0, rest := Block(us[0], users[us[0]], xss[0]), Blocks(users, us[1..], xss[1..]);
      assert Ascending(IdLess, us[1..]);
      BlocksItems(users, us[1..], xss[1..]);
      BlocksKeySet(users, us[1..], xss[1..]);
      NonEmptyKeysAscending(us[1..], xss[1..]);
      forall i | 0 <= i < |us| ensures Items(b0 + rest, us[i]) == xss[i] {
        ItemsConcat(b0, rest, us[i]);
        ItemsBlock(us[0], users[us[0]], xss[0], us[i]);
        if i == 0 {
          forall k | k in KeySet(rest) ensures k != us[0] {
            var m :| 0 <= m < |us[1..]| && us[1..][m] == k;
            assert IdLess(us[0], us[m + 1]);
          }
          ItemsAbsent(rest, us[0]);
        } else {
          assert us[i] == us[1..][i - 1];
          assert IdLess(us[0], us[i]);
        }
      }
    }
  }

  lemma {:induction false} GroupsForNonEmpty<V>(rows: seq<Flat<V>>, users: map<nat, string>, us: seq<nat>, xss: seq<seq<V>>)
    requires |us| == |xss|
    requires forall i :: 0 <= i < |us| ==> us[i] in users
    requires forall i :: 0 <= i < |us| ==> Items(rows, us[i]) == xss[i]
    requires forall i :: 0 <= i < |us| && xss[i] != [] ==> FirstName(rows, us[i]) == users[us[i]]
    ensures GroupsFor(rows, NonEmptyKeys(us, xss)) == NonEmptyGroups(users, us, xss)
  {
    if us != [] {
      var head := if xss[0] != [] then [us[0]] else [];
      var tail := NonEmptyKeys(us[1..], xss[1..]);
      GroupsForNonEmpty(rows, users, us[1..], xss[1..]);
      GroupsForConcat(rows, head, tail);
      assert GroupsFor(rows, head) == if xss[0] != [] then [Group(us[0], users[us[0]], xss[0])] else [];
    }
  }

  lemma GroupsForConcat<V>(rows: seq<Flat<V>>, a: seq<nat>, b: seq<nat>)
    ensures GroupsFor(rows, a + b) == GroupsFor(rows, a) + GroupsFor(rows, b)
  {
  }

  /**
   * Folding a query result that lists the users `us` in ascending order, block
   * after block, yields one entry per user with a non-empty block, in the same
   * order, holding exactly that user's rows.
   */
  lemma GroupsOfBlocks<V>(users: map<nat, string>, us: seq<nat>, xss: seq<seq<V>>)
    requires |us| == |xss|
    requires forall i :: 0 <= i < |us| ==> us[i] in users
    requires Ascending(IdLess, us)
    ensures GroupsOf(Blocks(users, us, xss)) == NonEmptyGroups(users, us, xss)
  {
    var rows := Blocks(users, us, xss);
    BlocksKeySet(users, us, xss);
    BlocksNames(users, us, xss);
    BlocksItems(users, us, xss);
    NonEmptyKeysAscending(us, xss);
    AscKeysSpec(rows);
    IdLessIsStrictTotal();
    AscendingUnique(IdLess, AscKeys(rows), NonEmptyKeys(us, xss));
    forall i | 0 <= i < |us| && xss[i] != [] ensures FirstName(rows, us[i]) == users[us[i]] {
      ItemsAbsentContra(rows, us[i], xss[i]);
      FirstNameUniform(rows, us[i], users[us[i]]);
    }
    GroupsForNonEmpty(rows, users, us, xss);
  }

  lemma ItemsAbsentContra<V>(rows: seq<Flat<V>>, k: nat, xs: seq<V>)
    requires Items(rows, k) == xs && xs != []
    ensures k in KeySet(rows)
  {
    if k !in KeySet(rows) {
      ItemsAbsent(rows, k);
    }
  }

  /** When every block is non-empty, every user of `us` gets an entry. */
  lemma {:induction false} NonEmptyGroupsAll<V>(users: map<nat, string>, us: seq<nat>, xss: seq<seq<V>>)
    requires |us| == |xss|
    requires forall i :: 0 <= i < |us| ==> us[i] in users
    requires forall i :: 0 <= i < |us| ==> xss[i] != []
    ensures NonEmptyGroups(users, us, xss) == seq(|us|, i requires 0 <= i < |us| => Group(us[i], users[us[i]], xss[i]))
  {
    if us != [] {
      NonEmptyGroupsAll(users, us[1..], xss[1..]);
    }
  }

  lemma {:induction false} NonEmptyGroupsMembers<V>(users: map<nat, string>, us: seq<nat>, xss: seq<seq<V>>)
    requires |us| == |xss|
    requires forall i :: 0 <= i < |us| ==> us[i] in users
    ensures forall g :: g in NonEmptyGroups(users, us, xss) ==>
                          exists i :: 0 <= i < |us| && xss[i] != [] && g == Group(us[i], users[us[i]], xss[i])
  {
    if us != [] {
      var tail := NonEmptyGroups(users, us[1..], xss[1..]);
      NonEmptyGroupsMembers(users, us[1..], xss[1..]);
      forall g | g in NonEmptyGroups(users, us, xss)
        ensures exists i :: 0 <= i < |us| && xss[i] != [] && g == Group(us[i], users[us[i]], xss[i])
      {
        if g in tail {
          var i :| 0 <= i < |us[1..]| && xss[1..][i] != [] && g == Group(us[1..][i], users[us[1..][i]], xss[1..][i]);
          assert us[i + 1] == us[1..][i] && xss[i + 1] == xss[1..][i];
        }
      }
    }
  }

  lemma {:induction false} NonEmptyGroupsComplete<V>(users: map<nat, string>, us: seq<nat>, xss: seq<seq<V>>)
    requires |us| == |xss|
    requires forall i :: 0 <= i < |us| ==> us[i] in users
    ensures forall i :: 0 <= i < |us| && xss[i] != [] ==> Group(us[i], users[us[i]], xss[i]) in NonEmptyGroups(users, us, xss)
  {
    if us != [] {
      NonEmptyGroupsComplete(users, us[1..], xss[1..]);
      forall i | 0 <= i < |us| && xss[i] != [] ensures Group(us[i], users[us[i]], xss[i]) in NonEmptyGroups(users, us, xss) {
        if i > 0 {
          assert us[1..][i - 1] == us[i] && xss[1..][i - 1] == xss[i];
        }
      }
    }
  }

  lemma {:induction false} NonEmptyGroupsAscending<V>(users: map<nat, string>, us: seq<nat>, xss: seq<seq<V>>)
    requires |us| == |xss|
    requires forall i :: 0 <= i < |us| ==> us[i] in users
    requires Ascending(IdLess, us)
    ensures forall i, j :: 0 <= i < j < |NonEmptyGroups(users, us, xss)| ==>
                             NonEmptyGroups(users, us, xss)[i].userId < NonEmptyGroups(users, us, xss)[j].userId
  {
    NonEmptyGroupsKeys(users, us, xss);
    NonEmptyKeysAscending(us, xss);
  }

  /** The entries' user ids, in order, are the users with a non-empty block. */
  lemma {:induction false} NonEmptyGroupsKeys<V>(users: map<nat, string>, us: seq<nat>, xss: seq<seq<V>>)
    requires |us| == |xss|
    requires forall i :: 0 <= i < |us| ==> us[i] in users
    ensures |NonEmptyGroups(users, us, xss)| == |NonEmptyKeys(us, xss)|
    ensures forall i :: 0 <= i < |NonEmptyKeys(us, xss)| ==> NonEmptyGroups(users, us, xss)[i].userId == NonEmptyKeys(us, xss)[i]
  {
    if us != [] {
      NonEmptyGroupsKeys(users, us[1..], xss[1..]);
      var g, k := NonEmptyGroups(users, us, xss), NonEmptyKeys(us, xss);
      var gt, kt := NonEmptyGroups(users, us[1..], xss[1..]), NonEmptyKeys(us[1..], xss[1..]);
      if xss[0] != [] {
        assert g == [Group(us[0], users[us[0]], xss[0])] + gt;
        assert k == [us[0]] + kt;
        forall i | 0 < i < |k| ensures g[i].userId == k[i] {
          assert g[i] == gt[i - 1] && k[i] == kt[i - 1];
        }
      } else {
        assert g == gt && k == kt;
      }
    }
  }

}
