/**
 * getMonthlyChanges: month-over-month change of each user's spending.
 *
 * monthly_spending sums the joined expenses per (user_id, YEAR, MONTH); LAG
 * pairs every month with the user's previous month that has spending; rows
 * without a previous month are dropped; the rest are ordered by user_id,
 * year DESC, month DESC and folded under their user.
 */
module MonthlyChanges {
  import opened Ordering
  import opened Decimal
  import opened ExpenseRows
  import opened Grouping

  /**
   * One element of `monthly_changes`. Totals are in cents and the percentage
   * in hundredths of a percent.
   */
  datatype MonthlyChange = MonthlyChange(
    year: int, month: int, monthlyTotal: int, previousMonthTotal: int, percentageChange: int)

  function MonthOfChange(c: MonthlyChange): YearMonth
  {
    YearMonth(c.year, c.month)
  }

  /**
   * The CASE expression: 100% when the previous total is zero and the current
   * one positive, 0% when both are zero (or the current one is not positive),
   * and otherwise the relative change rounded to two decimals.
   */
  function PercentageChange(current: int, previous: int): (r: int)
    ensures previous != 0 ==> 2 * Abs((current - previous) * 10000 - r * previous) <= Abs(previous)
    ensures previous != 0 && 2 * Abs((current - previous) * 10000 - r * previous) == Abs(previous) ==>
              Abs(r * previous) > Abs((current - previous) * 10000)
  {
    if previous == 0 then (if current > 0 then 10000 else 0)
    else RoundHalfAway((current - previous) * 10000, previous)
  }

  /** Landmark values of the percentage: unchanged, doubled, dropped to zero, from zero. */
  lemma PercentageChangeFacts(current: int, previous: int)
    ensures previous != 0 && current == previous ==> PercentageChange(current, previous) == 0
    ensures previous != 0 && current == 2 * previous ==> PercentageChange(current, previous) == 10000
    ensures previous != 0 && current == 0 ==> PercentageChange(current, previous) == -10000
    ensures previous == 0 ==> PercentageChange(current, previous) == (if current > 0 then 10000 else 0)
    ensures previous > 0 && current >= previous ==> PercentageChange(current, previous) >= 0
  {
    if previous != 0 {
      if current == previous {
        RoundExact(0, previous);
      } else if current == 2 * previous {
        assert (current - previous) * 10000 == 10000 * previous;
        RoundExact(10000, previous);
      } else if current == 0 {
        assert (current - previous) * 10000 == -10000 * previous;
        RoundExact(-10000, previous);
      }
      if previous > 0 && current >= previous {
        RoundNonNegativeQuotient((current - previous) * 10000, previous);
      }
    }
  }

  /** The row for active month `m`, whose LAG is active month `p`. */
  function ChangeAt(rows: seq<Expense>, u: nat, m: YearMonth, p: YearMonth): MonthlyChange
  {
    var cur, prev := MonthlyTotal(rows, u, m), MonthlyTotal(rows, u, p);
    MonthlyChange(m.year, m.month, cur, prev, PercentageChange(cur, prev))
  }

  /**
   * User `u`'s `monthly_changes`: every active month but the earliest, paired
   * with the active month just before it, latest month first.
   */
  function Changes(rows: seq<Expense>, u: nat): seq<MonthlyChange>
  {
    ChangesOver(rows, u, MonthsAsc(rows, u))
  }

  /** The changes over the ascending month list `ms`, latest first. */
  function ChangesOver(rows: seq<Expense>, u: nat, ms: seq<YearMonth>): seq<MonthlyChange>
  {
    var ps := LagPairs(ms);
    seq(|ps|, i requires 0 <= i < |ps| => ChangeAt(rows, u, ps[i].0, ps[i].1))
  }

  /** Each month of the ascending `ms` but the first, with the month before it, latest first. */
  function LagPairs(ms: seq<YearMonth>): seq<(YearMonth, YearMonth)>
  {
    var n := |ms|;
    if n == 0 then []
    else seq(n - 1, i requires 0 <= i < n - 1 => (ms[n - 1 - i], ms[n - 2 - i]))
  }

  lemma ChangesOverAt(rows: seq<Expense>, u: nat, ms: seq<YearMonth>, i: int)
    requires 0 <= i < |ChangesOver(rows, u, ms)|
    ensures |ms| == |ChangesOver(rows, u, ms)| + 1
    ensures ChangesOver(rows, u, ms)[i] == ChangeAt(rows, u, ms[|ms| - 1 - i], ms[|ms| - 2 - i])
  {
    var ps := LagPairs(ms);
    assert |ps| == |ms| - 1;
    assert ps[i] == (ms[|ms| - 1 - i], ms[|ms| - 2 - i]);
  }

  /** `p` is what LAG(monthly_total) reads for month `m`: the latest active month before it. */
  predicate PreviousActive(rows: seq<Expense>, u: nat, p: YearMonth, m: YearMonth)
  {
    p in ActiveMonths(rows, u) && MonthBefore(p, m) &&
    forall q :: q in ActiveMonths(rows, u) ==> !(MonthBefore(p, q) && MonthBefore(q, m))
  }

  lemma ChangesAt(rows: seq<Expense>, u: nat, i: int)
    requires 0 <= i < |Changes(rows, u)|
    ensures |MonthsAsc(rows, u)| == |Changes(rows, u)| + 1
    ensures Changes(rows, u)[i] ==
            ChangeAt(rows, u, MonthsAsc(rows, u)[|Changes(rows, u)| - i], MonthsAsc(rows, u)[|Changes(rows, u)| - i - 1])
    ensures MonthOfChange(Changes(rows, u)[i]) == MonthsAsc(rows, u)[|Changes(rows, u)| - i]
  {
    ChangesOverAt(rows, u, MonthsAsc(rows, u), i);
  }

  lemma ChangesShape(rows: seq<Expense>, u: nat)
    ensures ActiveMonths(rows, u) == {} ==> Changes(rows, u) == []
    ensures ActiveMonths(rows, u) != {} ==> |Changes(rows, u)| == |ActiveMonths(rows, u)| - 1
    ensures forall i, j :: 0 <= i < j < |Changes(rows, u)| ==>
                             MonthBefore(MonthOfChange(Changes(rows, u)[j]), MonthOfChange(Changes(rows, u)[i]))
  {
    MonthsAscSpec(rows, u);
    var ms := MonthsAsc(rows, u);
    var c := Changes(rows, u);
    if ms == [] {
      assert ActiveMonths(rows, u) == Elems(ms) == {};
    } else {
      assert ms[0] in Elems(ms);
      forall i, j | 0 <= i < j < |c| ensures MonthBefore(MonthOfChange(c[j]), MonthOfChange(c[i])) {
        ChangesAt(rows, u, i);
        ChangesAt(rows, u, j);
      }
    }
  }

  /** Row `i` is its month with the month LAG reads for it. */
  lemma ChangeRow(rows: seq<Expense>, u: nat, i: int)
    requires 0 <= i < |Changes(rows, u)|
    ensures MonthOfChange(Changes(rows, u)[i]) in ActiveMonths(rows, u)
    ensures Changes(rows, u)[i].monthlyTotal == MonthlyTotal(rows, u, MonthOfChange(Changes(rows, u)[i]))
    ensures Changes(rows, u)[i].percentageChange ==
            PercentageChange(Changes(rows, u)[i].monthlyTotal, Changes(rows, u)[i].previousMonthTotal)
    ensures exists p :: PreviousActive(rows, u, p, MonthOfChange(Changes(rows, u)[i])) &&
                        Changes(rows, u)[i].previousMonthTotal == MonthlyTotal(rows, u, p)
  {
    ChangesAt(rows, u, i);
    LagIsPreviousActive(rows, u, |Changes(rows, u)| - i);
  }

  /** Of two neighbouring active months, the earlier is the one LAG reads for the later. */
  lemma LagIsPreviousActive(rows: seq<Expense>, u: nat, k: int)
    requires 0 < k < |MonthsAsc(rows, u)|
    ensures MonthsAsc(rows, u)[k] in ActiveMonths(rows, u)
    ensures PreviousActive(rows, u, MonthsAsc(rows, u)[k - 1], MonthsAsc(rows, u)[k])
  {
    MonthsAscSpec(rows, u);
    var ms := MonthsAsc(rows, u);
    assert ms[k - 1] in Elems(ms) && ms[k] in Elems(ms);
    MonthBeforeIsStrictTotal();
    AdjacentNoneBetween(MonthBefore, ms, k);
  }

  /**
   * Every row of `monthly_changes` is an active month with its own total, the
   * total of the active month LAG reads, and the CASE percentage of the two.
   */
  lemma ChangesRows(rows: seq<Expense>, u: nat)
    ensures forall c :: c in Changes(rows, u) ==>
              MonthOfChange(c) in ActiveMonths(rows, u) &&
              c.monthlyTotal == MonthlyTotal(rows, u, MonthOfChange(c)) &&
              c.percentageChange == PercentageChange(c.monthlyTotal, c.previousMonthTotal) &&
              exists p :: PreviousActive(rows, u, p, MonthOfChange(c)) && c.previousMonthTotal == MonthlyTotal(rows, u, p)
  {
    forall c | c in Changes(rows, u)
      ensures MonthOfChange(c) in ActiveMonths(rows, u)
      ensures c.monthlyTotal == MonthlyTotal(rows, u, MonthOfChange(c))
      ensures c.percentageChange == PercentageChange(c.monthlyTotal, c.previousMonthTotal)
      ensures exists p :: PreviousActive(rows, u, p, MonthOfChange(c)) && c.previousMonthTotal == MonthlyTotal(rows, u, p)
    {
      var i :| 0 <= i < |Changes(rows, u)| && Changes(rows, u)[i] == c;
      ChangeRow(rows, u, i);
    }
  }

  /** Every active month that has an earlier active month gets a row; the earliest gets none. */
  lemma ChangesComplete(rows: seq<Expense>, u: nat)
    ensures forall m :: m in ActiveMonths(rows, u) ==>
              ((exists q :: q in ActiveMonths(rows, u) && MonthBefore(q, m)) <==>
               (exists c :: c in Changes(rows, u) && MonthOfChange(c) == m))
  {
    forall m | m in ActiveMonths(rows, u)
      ensures (exists q :: q in ActiveMonths(rows, u) && MonthBefore(q, m)) <==>
              (exists x :: x in Changes(rows, u) && MonthOfChange(x) == m)
    {
      ChangesCompleteAt(rows, u, m);
    }
  }

  lemma ChangesCompleteAt(rows: seq<Expense>, u: nat, m: YearMonth)
    requires m in ActiveMonths(rows, u)
    ensures (exists q :: q in ActiveMonths(rows, u) && MonthBefore(q, m)) <==>
            (exists x :: x in Changes(rows, u) && MonthOfChange(x) == m)
  {
    MonthsAscSpec(rows, u);
    var ms := MonthsAsc(rows, u);
    assert m in Elems(ms);
    var k :| 0 <= k < |ms| && ms[k] == m;
    MonthBeforeIsStrictTotal();
    HasSmallerIffNotFirst(MonthBefore, ms, k);
    if k > 0 {
      ChangeOfLaterMonth(rows, u, k);
    }
    if exists x :: x in Changes(rows, u) && MonthOfChange(x) == m {
      MonthOfChangeHasEarlier(rows, u, m);
    }
  }

  /** Every active month after the earliest has its row. */
  lemma ChangeOfLaterMonth(rows: seq<Expense>, u: nat, k: int)
    requires 0 < k < |MonthsAsc(rows, u)|
    ensures exists x :: x in Changes(rows, u) && MonthOfChange(x) == MonthsAsc(rows, u)[k]
  {
    var c := Changes(rows, u);
    ChangesOverAt(rows, u, MonthsAsc(rows, u), |MonthsAsc(rows, u)| - 1 - k);
    assert c[|MonthsAsc(rows, u)| - 1 - k] in c;
  }

  /** The month of a row has an earlier active month: the one LAG reads. */
  lemma MonthOfChangeHasEarlier(rows: seq<Expense>, u: nat, m: YearMonth)
    requires exists x :: x in Changes(rows, u) && MonthOfChange(x) == m
    ensures exists q :: q in ActiveMonths(rows, u) && MonthBefore(q, m)
  {
    var x :| x in Changes(rows, u) && MonthOfChange(x) == m;
    var i :| 0 <= i < |Changes(rows, u)| && Changes(rows, u)[i] == x;
    ChangeRow(rows, u, i);
  }

  // ---------------------------------------------------------------------
  // The query result and the fold

  function ChangesOf(rows: seq<Expense>, us: seq<nat>): seq<seq<MonthlyChange>>
  {
    seq(|us|, i requires 0 <= i < |us| => Changes(rows, us[i]))
  }

  /** The rows the SQL statement returns, ORDER BY user_id, year DESC, month DESC. */
  function QueryRows(rows: seq<Expense>, users: Users): seq<Flat<MonthlyChange>>
  {
    var us := UsersAsc(rows, users);
    UsersAscSpec(rows, users);
    Blocks(users, us, ChangesOf(rows, us))
  }

  /**
   * The value getMonthlyChanges resolves to: one entry per user with at least
   * one row, ascending by user_id.
   */
  function MonthlyChangesOf(rows: seq<Expense>, users: Users): seq<Group<MonthlyChange>>
  {
    var us := UsersAsc(rows, users);
    UsersAscSpec(rows, users);
    NonEmptyGroups(users, us, ChangesOf(rows, us))
  }

  /** Runs the query and the `reduce` fold followed by `Object.values`. */
  method GetMonthlyChanges(rows: seq<Expense>, users: Users) returns (result: seq<Group<MonthlyChange>>)
    ensures result == MonthlyChangesOf(rows, users)
  {
    var queryResult := QueryRows(rows, users);
    result := GroupValues(queryResult);
    UsersAscSpec(rows, users);
    GroupsOfBlocks(users, UsersAsc(rows, users), ChangesOf(rows, UsersAsc(rows, users)));
  }

  /**
   * The users listed are exactly those with a joined expense in at least two
   * distinct months, each once, ascending by user_id, with the user's name and
   * the user's changes; a user with a single active month is absent.
   */
  lemma MonthlyChangesSpec(rows: seq<Expense>, users: Users)
    ensures forall g :: g in MonthlyChangesOf(rows, users) ==>
              g.userId in ExpenseUsers(rows, users) && |ActiveMonths(rows, g.userId)| >= 2 &&
              g.userName == users[g.userId] && g.items == Changes(rows, g.userId)
    ensures forall u :: u in ExpenseUsers(rows, users) && |ActiveMonths(rows, u)| >= 2 ==>
              exists g :: g in MonthlyChangesOf(rows, users) && g.userId == u
    ensures forall i, j :: 0 <= i < j < |MonthlyChangesOf(rows, users)| ==>
              MonthlyChangesOf(rows, users)[i].userId < MonthlyChangesOf(rows, users)[j].userId
  {
    forall g | g in MonthlyChangesOf(rows, users)
      ensures g.userId in ExpenseUsers(rows, users) && |ActiveMonths(rows, g.userId)| >= 2
      ensures g.userName == users[g.userId] && g.items == Changes(rows, g.userId)
    {
      MonthlyChangesMember(rows, users, g);
    }
    forall u | u in ExpenseUsers(rows, users) && |ActiveMonths(rows, u)| >= 2
      ensures exists g :: g in MonthlyChangesOf(rows, users) && g.userId == u
    {
      MonthlyChangesHas(rows, users, u);
    }
    var us := UsersAsc(rows, users);
    UsersAscSpec(rows, users);
    NonEmptyGroupsAscending(users, us, ChangesOf(rows, us));
  }

  lemma MonthlyChangesMember(rows: seq<Expense>, users: Users, g: Group<MonthlyChange>)
    requires g in MonthlyChangesOf(rows, users)
    ensures g.userId in ExpenseUsers(rows, users) && |ActiveMonths(rows, g.userId)| >= 2
    ensures g.userName == users[g.userId] && g.items == Changes(rows, g.userId)
  {
    var us := UsersAsc(rows, users);
    var xss := ChangesOf(rows, us);
    UsersAscSpec(rows, users);
    NonEmptyGroupsMembers(users, us, xss);
    var i :| 0 <= i < |us| && xss[i] != [] && g == Group(us[i], users[us[i]], xss[i]);
    assert us[i] in Elems(us);
    ChangesShape(rows, us[i]);
  }

  lemma MonthlyChangesHas(rows: seq<Expense>, users: Users, u: nat)
    requires u in ExpenseUsers(rows, users) && |ActiveMonths(rows, u)| >= 2
    ensures exists g :: g in MonthlyChangesOf(rows, users) && g.userId == u
  {
    var us := UsersAsc(rows, users);
    var xss := ChangesOf(rows, us);
    UsersAscSpec(rows, users);
    NonEmptyGroupsComplete(users, us, xss);
    assert u in Elems(us);
    var i :| 0 <= i < |us| && us[i] == u;
    ChangesShape(rows, u);
    assert Group(us[i], users[us[i]], xss[i]) in MonthlyChangesOf(rows, users);
  }
}
