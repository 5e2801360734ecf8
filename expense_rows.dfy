/**
 * The `expenses` fact table joined to `users`, and the per-user groupings the
 * analytics queries build from it: daily totals (GROUP BY user_id, date) and
 * monthly totals (GROUP BY user_id, YEAR(date), MONTH(date)).
 */
module ExpenseRows {
  import opened Ordering

  /** A value of the DATE column. */
  datatype Date = Date(year: int, month: int, day: int)

  /** The pair (YEAR(date), MONTH(date)). */
  datatype YearMonth = YearMonth(year: int, month: int)

  /** One row of `expenses`; the DECIMAL amount is held in integer cents. */
  datatype Expense = Expense(id: nat, userId: nat, categoryId: nat, date: Date, cents: int)

  /** The `users` table as far as the queries read it: id to name. */
  type Users = map<nat, string>

  /** Chronological order of dates. */
  predicate DateBefore(a: Date, b: Date)
  {
    a.year < b.year || (a.year == b.year && (a.month < b.month || (a.month == b.month && a.day < b.day)))
  }

  /** The order of ORDER BY year, month. */
  predicate MonthBefore(a: YearMonth, b: YearMonth)
  {
    a.year < b.year || (a.year == b.year && a.month < b.month)
  }

  lemma DateBeforeIsStrictTotal()
    ensures StrictTotalOrder(DateBefore)
  {
  }

  lemma MonthBeforeIsStrictTotal()
    ensures StrictTotalOrder(MonthBefore)
  {
  }

  function MonthOf(d: Date): YearMonth
  {
    YearMonth(d.year, d.month)
  }

  // ---------------------------------------------------------------------
  // Users that survive the inner JOIN with `users`

  /** Users with at least one expense whose user_id matches a `users` row. */
  function ExpenseUsers(rows: seq<Expense>, users: Users): set<nat>
  {
    set r | r in rows && r.userId in users :: r.userId
  }

  /** The user ids of the joined rows, in table order. */
  function UserKeys(rows: seq<Expense>, users: Users): seq<nat>
  {
    if rows == [] then []
    else
      var r := rows[|rows| - 1];
      UserKeys(rows[..|rows| - 1], users) + (if r.userId in users then [r.userId] else [])
  }

  /** The partitions of the queries, in the order of ORDER BY user_id. */
  function UsersAsc(rows: seq<Expense>, users: Users): seq<nat>
  {
    AscendingSet(IdLess, UserKeys(rows, users))
  }

  lemma {:induction false} UserKeysElems(rows: seq<Expense>, users: Users)
    ensures Elems(UserKeys(rows, users)) == ExpenseUsers(rows, users)
  {
    if rows != [] {
      var p := rows[..|rows| - 1];
      var last := rows[|rows| - 1];
      UserKeysElems(p, users);
      assert rows == p + [last];
      assert ExpenseUsers(rows, users) == ExpenseUsers(p, users) + (if last.userId in users then {last.userId} else {});
    }
  }

  /** The partitions are the users with a joined expense, each once, ascending. */
  lemma UsersAscSpec(rows: seq<Expense>, users: Users)
    ensures Ascending(IdLess, UsersAsc(rows, users))
    ensures Elems(UsersAsc(rows, users)) == ExpenseUsers(rows, users)
    ensures |UsersAsc(rows, users)| == |ExpenseUsers(rows, users)|
    ensures forall i :: 0 <= i < |UsersAsc(rows, users)| ==> UsersAsc(rows, users)[i] in users
  {
    IdLessIsStrictTotal();
    AscendingSetSpec(IdLess, UserKeys(rows, users));
    UserKeysElems(rows, users);
    AscendingCard(IdLess, UsersAsc(rows, users));
    var us := UsersAsc(rows, users);
    forall i | 0 <= i < |us| ensures us[i] in users {
      assert us[i] in Elems(us);
    }
  }

  // ---------------------------------------------------------------------
  // Daily totals: GROUP BY e.user_id, u.name, e.date with SUM(e.amount)

  /** SUM(e.amount) over user `u`'s expenses dated `d`. */
  function DailyTotal(rows: seq<Expense>, u: nat, d: Date): int
  {
    if rows == [] then 0
    else (if rows[0].userId == u && rows[0].date == d then rows[0].cents else 0) + DailyTotal(rows[1..], u, d)
  }

  /** The dates on which user `u` has at least one expense. */
  function SpendingDates(rows: seq<Expense>, u: nat): set<Date>
  {
    set r | r in rows && r.userId == u :: r.date
  }

  function DateKeys(rows: seq<Expense>, u: nat): seq<Date>
  {
    if rows == [] then []
    else
      var r := rows[|rows| - 1];
      DateKeys(rows[..|rows| - 1], u) + (if r.userId == u then [r.date] else [])
  }

  /** User `u`'s daily groups, one per spending date, in date order. */
  function DatesAsc(rows: seq<Expense>, u: nat): seq<Date>
  {
    AscendingSet(DateBefore, DateKeys(rows, u))
  }

  lemma {:induction false} DateKeysElems(rows: seq<Expense>, u: nat)
    ensures Elems(DateKeys(rows, u)) == SpendingDates(rows, u)
  {
    if rows != [] {
      var p := rows[..|rows| - 1];
      var last := rows[|rows| - 1];
      DateKeysElems(p, u);
      assert rows == p + [last];
      assert SpendingDates(rows, u) == SpendingDates(p, u) + (if last.userId == u then {last.date} else {});
    }
  }

  lemma DatesAscSpec(rows: seq<Expense>, u: nat)
    ensures Ascending(DateBefore, DatesAsc(rows, u))
    ensures Elems(DatesAsc(rows, u)) == SpendingDates(rows, u)
    ensures |DatesAsc(rows, u)| == |SpendingDates(rows, u)|
  {
    DateBeforeIsStrictTotal();
    AscendingSetSpec(DateBefore, DateKeys(rows, u));
    DateKeysElems(rows, u);
    AscendingCard(DateBefore, DatesAsc(rows, u));
  }

  // ---------------------------------------------------------------------
  // Monthly totals: GROUP BY e.user_id, u.name, YEAR(e.date), MONTH(e.date)

  /** SUM(e.amount) over user `u`'s expenses in month `m`. */
  function MonthlyTotal(rows: seq<Expense>, u: nat, m: YearMonth): int
  {
    if rows == [] then 0
    else (if rows[0].userId == u && MonthOf(rows[0].date) == m then rows[0].cents else 0) + MonthlyTotal(rows[1..], u, m)
  }

  /** The months in which user `u` has at least one expense. */
  function ActiveMonths(rows: seq<Expense>, u: nat): set<YearMonth>
  {
    set r | r in rows && r.userId == u :: MonthOf(r.date)
  }

  function MonthKeys(rows: seq<Expense>, u: nat): seq<YearMonth>
  {
    if rows == [] then []
    else
      var r := rows[|rows| - 1];
      MonthKeys(rows[..|rows| - 1], u) + (if r.userId == u then [MonthOf(r.date)] else [])
  }

  /** User `u`'s monthly groups in the order of ORDER BY year, month. */
  function MonthsAsc(rows: seq<Expense>, u: nat): seq<YearMonth>
  {
    AscendingSet(MonthBefore, MonthKeys(rows, u))
  }

  lemma {:induction false} MonthKeysElems(rows: seq<Expense>, u: nat)
    ensures Elems(MonthKeys(rows, u)) == ActiveMonths(rows, u)
  {
    if rows != [] {
      var p := rows[..|rows| - 1];
      var last := rows[|rows| - 1];
      MonthKeysElems(p, u);
      assert rows == p + [last];
      assert ActiveMonths(rows, u) == ActiveMonths(p, u) + (if last.userId == u then {MonthOf(last.date)} else {});
    }
  }

  lemma MonthsAscSpec(rows: seq<Expense>, u: nat)
    ensures Ascending(MonthBefore, MonthsAsc(rows, u))
    ensures Elems(MonthsAsc(rows, u)) == ActiveMonths(rows, u)
    ensures |MonthsAsc(rows, u)| == |ActiveMonths(rows, u)|
  {
    MonthBeforeIsStrictTotal();
    AscendingSetSpec(MonthBefore, MonthKeys(rows, u));
    MonthKeysElems(rows, u);
    AscendingCard(MonthBefore, MonthsAsc(rows, u));
  }

  /** A user who survives the join has at least one spending date and one active month. */
  lemma ExpenseUserIsActive(rows: seq<Expense>, users: Users, u: nat)
    requires u in ExpenseUsers(rows, users)
    ensures u in users
    ensures SpendingDates(rows, u) != {} && ActiveMonths(rows, u) != {}
  {
    var r :| r in rows && r.userId in users && r.userId == u;
    assert r.date in SpendingDates(rows, u);
    assert MonthOf(r.date) in ActiveMonths(rows, u);
  }
}
