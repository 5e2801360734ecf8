/**
 * getTopSpendingDays: each user's three highest daily totals.
 *
 * The query sums the joined expenses per (user_id, date), numbers each user's
 * days with ROW_NUMBER() ordered by daily_total DESC, keeps rank_num <= 3 and
 * orders the result by user_id, daily_total DESC; the JavaScript fold then
 * nests the rows under their user.
 */
module TopSpendingDays {
  import opened Ordering
  import opened ExpenseRows
  import opened Grouping

  /** One element of `top_days`. */
  datatype TopDay = TopDay(date: Date, dailyTotal: int)

  /** The daily_spending rows of user `u`, in date order. */
  function DayTotals(rows: seq<Expense>, u: nat): seq<TopDay>
  {
    var ds := DatesAsc(rows, u);
    seq(|ds|, i requires 0 <= i < |ds| => TopDay(ds[i], DailyTotal(rows, u, ds[i])))
  }

  predicate NonIncreasing(s: seq<TopDay>)
  {
    forall i, j :: 0 <= i < j < |s| ==> s[i].dailyTotal >= s[j].dailyTotal
  }

  function DatesOf(s: seq<TopDay>): set<Date>
  {
    set i | 0 <= i < |s| :: s[i].date
  }

  /** Places `x` ahead of the first entry whose total does not exceed its own. */
  function InsertByTotal(x: TopDay, s: seq<TopDay>): seq<TopDay>
  {
    if s == [] || x.dailyTotal >= s[0].dailyTotal then [x] + s else [s[0]] + InsertByTotal(x, s[1..])
  }

  /**
   * The order of ROW_NUMBER() OVER (PARTITION BY user_id ORDER BY daily_total DESC).
   * SQL leaves the order of equal totals open; this one keeps date order among them.
   */
  function RankByTotal(s: seq<TopDay>): seq<TopDay>
  {
    if s == [] then [] else InsertByTotal(s[0], RankByTotal(s[1..]))
  }

  lemma {:induction false} InsertByTotalPerm(x: TopDay, s: seq<TopDay>)
    ensures multiset(InsertByTotal(x, s)) == multiset(s) + multiset{x}
  {
    if s != [] && x.dailyTotal < s[0].dailyTotal {
      InsertByTotalPerm(x, s[1..]);
      assert s == [s[0]] + s[1..];
    }
  }

  lemma {:induction false} InsertByTotalBound(x: TopDay, s: seq<TopDay>, b: int)
    requires x.dailyTotal <= b
    requires forall k :: 0 <= k < |s| ==> s[k].dailyTotal <= b
    ensures forall k :: 0 <= k < |InsertByTotal(x, s)| ==> InsertByTotal(x, s)[k].dailyTotal <= b
  {
    if s != [] && x.dailyTotal < s[0].dailyTotal {
      InsertByTotalBound(x, s[1..], b);
    }
  }

  lemma {:induction false} InsertByTotalSpec(x: TopDay, s: seq<TopDay>)
    requires NonIncreasing(s)
    ensures NonIncreasing(InsertByTotal(x, s))
    ensures multiset(InsertByTotal(x, s)) == multiset(s) + multiset{x}
  {
    InsertByTotalPerm(x, s);
    if s != [] && x.dailyTotal < s[0].dailyTotal {
      InsertByTotalSpec(x, s[1..]);
      InsertByTotalBound(x, s[1..], s[0].dailyTotal);
    }
  }

  /** Ranking reorders a user's days by total, highest first, and loses or adds none. */
  lemma {:induction false} RankByTotalSpec(s: seq<TopDay>)
    ensures NonIncreasing(RankByTotal(s))
    ensures multiset(RankByTotal(s)) == multiset(s)
  {
    if s != [] {
      RankByTotalSpec(s[1..]);
      InsertByTotalSpec(s[0], RankByTotal(s[1..]));
      assert s == [s[0]] + s[1..];
    }
  }

  /** The rows of user `u` kept by WHERE rank_num <= 3. */
  function TopDays(rows: seq<Expense>, u: nat): seq<TopDay>
  {
    var ranked := RankByTotal(DayTotals(rows, u));
    ranked[..Min(3, |ranked|)]
  }

  predicate NoDup(s: seq<TopDay>)
  {
    forall i, j :: 0 <= i < j < |s| ==> s[i] != s[j]
  }

  lemma {:induction false} NoDupCount(s: seq<TopDay>, x: TopDay)
    requires NoDup(s)
    ensures multiset(s)[x] <= 1
  {
    if s != [] {
      assert NoDup(s[1..]);
      NoDupCount(s[1..], x);
      assert s == [s[0]] + s[1..];
      if x == s[0] {
        forall m | 0 <= m < |s[1..]| ensures s[1..][m] != x {
          assert s[1..][m] == s[m + 1];
        }
        assert x !in s[1..];
      }
    }
  }

  /** A reordering of a sequence without repetitions has none either. */
  lemma NoDupPermutation(a: seq<TopDay>, b: seq<TopDay>)
    requires NoDup(a) && multiset(a) == multiset(b)
    ensures NoDup(b)
  {
    forall i, j | 0 <= i < j < |b| ensures b[i] != b[j] {
      NoDupCount(a, b[i]);
      assert b == b[..j] + b[j..];
      assert b[i] in b[..j] && b[j] in b[j..];
      assert multiset(b)[b[j]] == multiset(b[..j])[b[j]] + multiset(b[j..])[b[j]];
    }
  }

  lemma DayTotalsSpec(rows: seq<Expense>, u: nat)
    ensures |DayTotals(rows, u)| == |SpendingDates(rows, u)|
    ensures NoDup(DayTotals(rows, u))
    ensures forall e :: e in DayTotals(rows, u) <==>
                        e.date in SpendingDates(rows, u) && e.dailyTotal == DailyTotal(rows, u, e.date)
  {
    DatesAscSpec(rows, u);
    var ds, dt := DatesAsc(rows, u), DayTotals(rows, u);
    forall i, j | 0 <= i < j < |dt| ensures dt[i] != dt[j] {
      assert DateBefore(ds[i], ds[j]);
    }
    forall e ensures e in dt <==> e.date in SpendingDates(rows, u) && e.dailyTotal == DailyTotal(rows, u, e.date) {
      if e.date in SpendingDates(rows, u) && e.dailyTotal == DailyTotal(rows, u, e.date) {
        assert e.date in Elems(ds);
        var k :| 0 <= k < |ds| && ds[k] == e.date;
        assert dt[k] == e;
      }
      if e in dt {
        var k :| 0 <= k < |dt| && dt[k] == e;
        assert ds[k] in Elems(ds);
      }
    }
  }

  /** The ranked days are exactly the user's daily totals, each once, highest first. */
  lemma RankedSpec(rows: seq<Expense>, u: nat)
    ensures |RankByTotal(DayTotals(rows, u))| == |SpendingDates(rows, u)|
    ensures NoDup(RankByTotal(DayTotals(rows, u)))
    ensures NonIncreasing(RankByTotal(DayTotals(rows, u)))
    ensures forall e :: e in RankByTotal(DayTotals(rows, u)) <==>
                        e.date in SpendingDates(rows, u) && e.dailyTotal == DailyTotal(rows, u, e.date)
  {
    var dt := DayTotals(rows, u);
    var ranked := RankByTotal(dt);
    DayTotalsSpec(rows, u);
    RankByTotalSpec(dt);
    NoDupPermutation(dt, ranked);
    assert |ranked| == |dt| by {
      assert |multiset(ranked)| == |multiset(dt)|;
    }
    forall e ensures e in ranked <==> e in dt {
      assert e in ranked <==> e in multiset(ranked);
    }
  }

  /** A date left out of `top_days` has a total no higher than any date listed. */
  lemma TopDaysOmitted(rows: seq<Expense>, u: nat, d: Date)
    requires d in SpendingDates(rows, u) && d !in DatesOf(TopDays(rows, u))
    ensures forall i :: 0 <= i < |TopDays(rows, u)| ==> DailyTotal(rows, u, d) <= TopDays(rows, u)[i].dailyTotal
  {
    var ranked := RankByTotal(DayTotals(rows, u));
    var top := TopDays(rows, u);
    RankedSpec(rows, u);
    var e := TopDay(d, DailyTotal(rows, u, d));
    assert e in ranked;
    forall k | 0 <= k < |top| ensures ranked[k].date != d {
      assert top[k] == ranked[k] && top[k].date in DatesOf(top);
    }
    var j :| 0 <= j < |ranked| && ranked[j] == e;
    assert |top| <= j;
    forall i | 0 <= i < |top| ensures DailyTotal(rows, u, d) <= top[i].dailyTotal {
      assert top[i] == ranked[i];
    }
  }

  /**
   * Each user's `top_days`: min(3, number of spending dates) distinct dates,
   * each with the sum of the user's amounts on that date, highest first, and
   * no date left out has a strictly higher total than any date listed.
   */
  lemma TopDaysSpec(rows: seq<Expense>, u: nat)
    ensures |TopDays(rows, u)| == Min(3, |SpendingDates(rows, u)|)
    ensures forall i :: 0 <= i < |TopDays(rows, u)| ==>
                          TopDays(rows, u)[i].date in SpendingDates(rows, u) &&
                          TopDays(rows, u)[i].dailyTotal == DailyTotal(rows, u, TopDays(rows, u)[i].date)
    ensures NonIncreasing(TopDays(rows, u))
    ensures forall i, j :: 0 <= i < j < |TopDays(rows, u)| ==> TopDays(rows, u)[i].date != TopDays(rows, u)[j].date
    ensures forall d :: d in SpendingDates(rows, u) && d !in DatesOf(TopDays(rows, u)) ==>
                          forall i :: 0 <= i < |TopDays(rows, u)| ==> DailyTotal(rows, u, d) <= TopDays(rows, u)[i].dailyTotal
  {
    var ranked := RankByTotal(DayTotals(rows, u));
    var top := TopDays(rows, u);
    RankedSpec(rows, u);
    forall i | 0 <= i < |top|
      ensures top[i].date in SpendingDates(rows, u) && top[i].dailyTotal == DailyTotal(rows, u, top[i].date)
    {
      assert top[i] == ranked[i] && ranked[i] in ranked;
    }
    forall i, j | 0 <= i < j < |top| ensures top[i].date != top[j].date {
      assert top[i] == ranked[i] && top[j] == ranked[j];
      assert ranked[i] in ranked && ranked[j] in ranked;
    }
    forall d | d in SpendingDates(rows, u) && d !in DatesOf(top)
      ensures forall i :: 0 <= i < |top| ==> DailyTotal(rows, u, d) <= top[i].dailyTotal
    {
      TopDaysOmitted(rows, u, d);
    }
  }

  // ---------------------------------------------------------------------
  // The query result and the fold

  function TopDaysOf(rows: seq<Expense>, us: seq<nat>): seq<seq<TopDay>>
  {
    seq(|us|, i requires 0 <= i < |us| => TopDays(rows, us[i]))
  }

  /** The rows the SQL statement returns, ORDER BY user_id, daily_total DESC. */
  function QueryRows(rows: seq<Expense>, users: Users): seq<Flat<TopDay>>
  {
    var us := UsersAsc(rows, users);
    UsersAscSpec(rows, users);
    Blocks(users, us, TopDaysOf(rows, us))
  }

  /** The value getTopSpendingDays resolves to: one entry per user, ascending by user_id. */
  function TopSpendingDays(rows: seq<Expense>, users: Users): seq<Group<TopDay>>
  {
    var us := UsersAsc(rows, users);
    UsersAscSpec(rows, users);
    seq(|us|, i requires 0 <= i < |us| => Group(us[i], users[us[i]], TopDays(rows, us[i])))
  }

  /** Runs the query and the `reduce` fold followed by `Object.values`. */
  method GetTopSpendingDays(rows: seq<Expense>, users: Users) returns (result: seq<Group<TopDay>>)
    ensures result == TopSpendingDays(rows, users)
  {
    var queryResult := QueryRows(rows, users);
    result := GroupValues(queryResult);
    var us := UsersAsc(rows, users);
    UsersAscSpec(rows, users);
    forall i | 0 <= i < |us| ensures TopDays(rows, us[i]) != [] {
      ExpenseUserIsActive(rows, users, us[i]);
      TopDaysSpec(rows, us[i]);
    }
    GroupsOfBlocks(users, us, TopDaysOf(rows, us));
    NonEmptyGroupsAll(users, us, TopDaysOf(rows, us));
  }

  /**
   * The shape of getTopSpendingDays' result: exactly one entry per user with a
   * joined expense, in ascending user_id order, carrying the user's name and
   * that user's top days; no expenses at all gives the empty list.
   */
  lemma TopSpendingDaysSpec(rows: seq<Expense>, users: Users)
    ensures |TopSpendingDays(rows, users)| == |ExpenseUsers(rows, users)|
    ensures forall i, j :: 0 <= i < j < |TopSpendingDays(rows, users)| ==>
                             TopSpendingDays(rows, users)[i].userId < TopSpendingDays(rows, users)[j].userId
    ensures forall g :: g in TopSpendingDays(rows, users) ==>
                          g.userId in ExpenseUsers(rows, users) && g.userName == users[g.userId] &&
                          g.items == TopDays(rows, g.userId)
    ensures forall u :: u in ExpenseUsers(rows, users) ==> exists g :: g in TopSpendingDays(rows, users) && g.userId == u
    ensures rows == [] ==> TopSpendingDays(rows, users) == []
  {
    var us := UsersAsc(rows, users);
    var r := TopSpendingDays(rows, users);
    UsersAscSpec(rows, users);
    forall i, j | 0 <= i < j < |r| ensures r[i].userId < r[j].userId {
      assert IdLess(us[i], us[j]);
    }
    forall g | g in r ensures g.userId in ExpenseUsers(rows, users) {
      var k :| 0 <= k < |r| && r[k] == g;
      assert us[k] in Elems(us);
    }
    forall u | u in ExpenseUsers(rows, users) ensures exists g :: g in r && g.userId == u {
      assert u in Elems(us);
      var k :| 0 <= k < |us| && us[k] == u;
      assert r[k] in r;
    }
  }
}
