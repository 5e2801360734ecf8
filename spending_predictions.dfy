/**
 * getSpendingPredictions: each user's average over the (up to) three most
 * recent months with spending, used as the prediction for the next month.
 *
 * A summary query ranks each user's active months latest first with
 * ROW_NUMBER, averages the totals of ranks 1..3 and rounds to two decimals; a
 * detail query lists those same months; the details are folded into a map by
 * user id and attached to the summary rows.
 */
module SpendingPredictions {
  import opened Ordering
  import opened Decimal
  import opened ExpenseRows
  import opened Grouping

  /** One element of `last_3_months_detail`; the total is in cents. */
  datatype MonthDetail = MonthDetail(year: int, month: int, monthlyTotal: int)

  /** A row of the summary query; amounts in cents. */
  datatype SummaryRow = SummaryRow(
    userId: nat, userName: string, avgLast3Months: int, monthsCount: nat, predictedNextMonth: int)

  /** An element of the resolved value. */
  datatype UserPrediction = UserPrediction(
    userId: nat, userName: string, avgLast3Months: int, monthsCount: nat, predictedNextMonth: int,
    last3MonthsDetail: seq<MonthDetail>)

  /** The months with month_rank <= 3: the user's latest active months, latest first. */
  function RecentMonths(rows: seq<Expense>, u: nat): seq<YearMonth>
  {
    LatestThree(MonthsAsc(rows, u))
  }

  /** The last three elements of `ms` (fewer when it is shorter), last first. */
  function LatestThree(ms: seq<YearMonth>): seq<YearMonth>
  {
    var n := |ms|;
    seq(Min(3, n), i requires 0 <= i < Min(3, n) => ms[n - 1 - i])
  }

  /** SUM(monthly_total) over a list of the user's months. */
  function SumMonthly(rows: seq<Expense>, u: nat, ms: seq<YearMonth>): int
  {
    if ms == [] then 0 else MonthlyTotal(rows, u, ms[0]) + SumMonthly(rows, u, ms[1..])
  }

  /** The summary row of user `u`: AVG and COUNT over the recent months, then ROUND(avg, 2). */
  function Summary(rows: seq<Expense>, u: nat, name: string): SummaryRow
    requires MonthsAsc(rows, u) != []
  {
    var recent := RecentMonths(rows, u);
    var avg := RoundHalfAway(SumMonthly(rows, u, recent), |recent|);
    SummaryRow(u, name, avg, |recent|, avg)
  }

  lemma UsersHaveMonths(rows: seq<Expense>, users: Users)
    ensures forall i :: 0 <= i < |UsersAsc(rows, users)| ==> MonthsAsc(rows, UsersAsc(rows, users)[i]) != []
  {
    var us := UsersAsc(rows, users);
    UsersAscSpec(rows, users);
    forall i | 0 <= i < |us| ensures MonthsAsc(rows, us[i]) != [] {
      assert us[i] in Elems(us);
      ExpenseUserIsActive(rows, users, us[i]);
      MonthsAscSpec(rows, us[i]);
    }
  }

  /** The summary query's rows, ORDER BY user_id. */
  function SummaryRows(rows: seq<Expense>, users: Users): seq<SummaryRow>
  {
    var us := UsersAsc(rows, users);
    UsersAscSpec(rows, users);
    UsersHaveMonths(rows, users);
    seq(|us|, i requires 0 <= i < |us| => Summary(rows, us[i], users[us[i]]))
  }

  /** The detail query's rows of user `u`, year DESC, month DESC. */
  function Details(rows: seq<Expense>, u: nat): seq<MonthDetail>
  {
    var recent := RecentMonths(rows, u);
    seq(|recent|, i requires 0 <= i < |recent| =>
      MonthDetail(recent[i].year, recent[i].month, MonthlyTotal(rows, u, recent[i])))
  }

  function DetailsOf(rows: seq<Expense>, us: seq<nat>): seq<seq<MonthDetail>>
  {
    seq(|us|, i requires 0 <= i < |us| => Details(rows, us[i]))
  }

  /** The detail query's rows, ORDER BY user_id, year DESC, month DESC. */
  function DetailRows(rows: seq<Expense>, users: Users): seq<Flat<MonthDetail>>
  {
    var us := UsersAsc(rows, users);
    UsersAscSpec(rows, users);
    Blocks(users, us, DetailsOf(rows, us))
  }

  /** The `map` callback: a summary row with its detail list attached. */
  function Combine(row: SummaryRow, details: seq<MonthDetail>): (p: UserPrediction)
    ensures p.userId == row.userId && p.userName == row.userName && p.monthsCount == row.monthsCount
    ensures p.avgLast3Months == row.avgLast3Months && p.predictedNextMonth == row.predictedNextMonth
    ensures p.last3MonthsDetail == details
  {
    UserPrediction(row.userId, row.userName, row.avgLast3Months, row.monthsCount, row.predictedNextMonth, details)
  }

  /** The value getSpendingPredictions resolves to. */
  function Predictions(rows: seq<Expense>, users: Users): seq<UserPrediction>
  {
    var summary := SummaryRows(rows, users);
    seq(|summary|, i requires 0 <= i < |summary| => Combine(summary[i], Details(rows, summary[i].userId)))
  }

  /**
   * Runs both queries, folds the details by user id and maps every summary
   * row to its prediction, looking its details up with `|| []`.
   */
  method GetSpendingPredictions(rows: seq<Expense>, users: Users) returns (result: seq<UserPrediction>)
    ensures result == Predictions(rows, users)
  {
    var summary := SummaryRows(rows, users);
    var detailRows := DetailRows(rows, users);
    var detailsByUser := ItemsByUser(detailRows);
    result := AttachDetails(summary, detailsByUser);
    forall j | 0 <= j < |summary|
      ensures result[j] == Combine(summary[j], Details(rows, summary[j].userId))
    {
      LookupDetails(rows, users, detailsByUser, j);
    }
  }

  /**
   * `results[0].map(...)`: every summary row with the detail list the fold
   * stored under its user id, or `[]` when there is none.
   */
  method AttachDetails(summary: seq<SummaryRow>, detailsByUser: map<nat, seq<MonthDetail>>)
    returns (result: seq<UserPrediction>)
    ensures |result| == |summary|
    ensures forall j :: 0 <= j < |summary| ==>
              result[j] == Combine(summary[j], if summary[j].userId in detailsByUser then detailsByUser[summary[j].userId] else [])
  {
    result := [];
    var i := 0;
    while i < |summary|
      invariant 0 <= i <= |summary| && |result| == i
      invariant forall j :: 0 <= j < i ==>
                  result[j] == Combine(summary[j], if summary[j].userId in detailsByUser then detailsByUser[summary[j].userId] else [])
    {
      var id := summary[i].userId;
      var details := if id in detailsByUser then detailsByUser[id] else [];
      result := result + [Combine(summary[i], details)];
      i := i + 1;
    }
  }

  /** The fold's lookup `detailsByUser[row.user_id] || []` finds the user's detail rows. */
  lemma LookupDetails(rows: seq<Expense>, users: Users, acc: map<nat, seq<MonthDetail>>, i: int)
    requires acc.Keys == KeySet(DetailRows(rows, users))
    requires forall k :: k in acc ==> acc[k] == Items(DetailRows(rows, users), k)
    requires 0 <= i < |SummaryRows(rows, users)|
    ensures (if SummaryRows(rows, users)[i].userId in acc then acc[SummaryRows(rows, users)[i].userId] else []) ==
            Details(rows, SummaryRows(rows, users)[i].userId)
  {
    var us := UsersAsc(rows, users);
    UsersAscSpec(rows, users);
    UsersHaveMonths(rows, users);
    var u := us[i];
    assert SummaryRows(rows, users)[i].userId == u;
    BlocksItems(users, us, DetailsOf(rows, us));
    assert Items(DetailRows(rows, users), u) == Details(rows, u);
    if u !in acc {
      ItemsAbsent(DetailRows(rows, users), u);
    }
  }

  // ---------------------------------------------------------------------
  // Properties

  lemma RecentMonthsSpec(rows: seq<Expense>, u: nat)
    ensures |RecentMonths(rows, u)| == Min(3, |ActiveMonths(rows, u)|)
    ensures forall i, j :: 0 <= i < j < |RecentMonths(rows, u)| ==> MonthBefore(RecentMonths(rows, u)[j], RecentMonths(rows, u)[i])
    ensures forall i :: 0 <= i < |RecentMonths(rows, u)| ==> RecentMonths(rows, u)[i] in ActiveMonths(rows, u)
    ensures forall m :: m in ActiveMonths(rows, u) && m !in RecentMonths(rows, u) ==>
                          forall i :: 0 <= i < |RecentMonths(rows, u)| ==> MonthBefore(m, RecentMonths(rows, u)[i])
  {
    MonthsAscSpec(rows, u);
    LatestThreeSpec(MonthsAsc(rows, u));
  }

  lemma LatestThreeSpec(ms: seq<YearMonth>)
    requires Ascending(MonthBefore, ms)
    ensures |LatestThree(ms)| == Min(3, |ms|)
    ensures forall i, j :: 0 <= i < j < |LatestThree(ms)| ==> MonthBefore(LatestThree(ms)[j], LatestThree(ms)[i])
    ensures forall i :: 0 <= i < |LatestThree(ms)| ==> LatestThree(ms)[i] in Elems(ms)
    ensures forall m :: m in Elems(ms) && m !in LatestThree(ms) ==>
                          forall i :: 0 <= i < |LatestThree(ms)| ==> MonthBefore(m, LatestThree(ms)[i])
  {
    var n := |ms|;
    var recent := LatestThree(ms);
    forall i | 0 <= i < |recent| ensures recent[i] in Elems(ms) {
      assert recent[i] == ms[n - 1 - i];
    }
    forall m | m in Elems(ms) && m !in recent
      ensures forall i :: 0 <= i < |recent| ==> MonthBefore(m, recent[i])
    {
      var t :| 0 <= t < n && ms[t] == m;
      forall k | n - |recent| <= k < n ensures ms[k] in recent {
        assert recent[n - 1 - k] == ms[k];
      }
      forall i | 0 <= i < |recent| ensures MonthBefore(m, recent[i]) {
        assert recent[i] == ms[n - 1 - i];
      }
    }
  }

  lemma {:induction false} SumDetails(rows: seq<Expense>, u: nat, ds: seq<MonthDetail>, ms: seq<YearMonth>)
    requires |ds| == |ms|
    requires forall i :: 0 <= i < |ds| ==> ds[i].monthlyTotal == MonthlyTotal(rows, u, ms[i])
    ensures SumTotals(ds) == SumMonthly(rows, u, ms)
  {
    if ds != [] {
      SumDetails(rows, u, ds[1..], ms[1..]);
    }
  }

  function SumTotals(ds: seq<MonthDetail>): int
  {
    if ds == [] then 0 else ds[0].monthlyTotal + SumTotals(ds[1..])
  }

  /**
   * Each prediction: `months_count` is the number of active months capped at
   * 3; the detail list is that many of the user's latest active months, latest
   * first (the months of RecentMonths), with their totals; the average is the
   * sum of the listed totals divided by their count, rounded to the nearest
   * cent with a half cent rounded away from zero; the prediction is that same
   * average.
   */
  lemma PredictionSpec(rows: seq<Expense>, users: Users, i: int)
    requires 0 <= i < |Predictions(rows, users)|
    ensures var p := Predictions(rows, users)[i];
            && 1 <= p.monthsCount == Min(3, |ActiveMonths(rows, p.userId)|) <= 3
            && |p.last3MonthsDetail| == p.monthsCount
            && (forall j :: 0 <= j < |p.last3MonthsDetail| ==>
                  YearMonth(p.last3MonthsDetail[j].year, p.last3MonthsDetail[j].month) == RecentMonths(rows, p.userId)[j])
            && (forall j :: 0 <= j < |p.last3MonthsDetail| ==>
                  var d := p.last3MonthsDetail[j];
                  YearMonth(d.year, d.month) in ActiveMonths(rows, p.userId) &&
                  d.monthlyTotal == MonthlyTotal(rows, p.userId, YearMonth(d.year, d.month)))
            && 2 * Abs(SumTotals(p.last3MonthsDetail) - p.avgLast3Months * p.monthsCount) <= p.monthsCount
            && (2 * Abs(SumTotals(p.last3MonthsDetail) - p.avgLast3Months * p.monthsCount) == p.monthsCount ==>
                  Abs(p.avgLast3Months * p.monthsCount) > Abs(SumTotals(p.last3MonthsDetail)))
            && p.predictedNextMonth == p.avgLast3Months
  {
    var p := Predictions(rows, users)[i];
    var us := UsersAsc(rows, users);
    UsersAscSpec(rows, users);
    UsersHaveMonths(rows, users);
    var u := us[i];
    assert p.userId == u;
    MonthsAscSpec(rows, u);
    RecentMonthsSpec(rows, u);
    var recent := RecentMonths(rows, u);
    SumDetails(rows, u, Details(rows, u), recent);
    forall j | 0 <= j < |p.last3MonthsDetail|
      ensures YearMonth(p.last3MonthsDetail[j].year, p.last3MonthsDetail[j].month) == recent[j]
    {
    }
  }

  /** One prediction per user with a joined expense, ascending by user_id. */
  lemma PredictionsUsers(rows: seq<Expense>, users: Users)
    ensures |Predictions(rows, users)| == |ExpenseUsers(rows, users)|
    ensures forall i, j :: 0 <= i < j < |Predictions(rows, users)| ==>
                             Predictions(rows, users)[i].userId < Predictions(rows, users)[j].userId
    ensures forall p :: p in Predictions(rows, users) ==>
                          p.userId in ExpenseUsers(rows, users) && p.userName == users[p.userId]
    ensures forall u :: u in ExpenseUsers(rows, users) ==> exists p :: p in Predictions(rows, users) && p.userId == u
  {
    var us := UsersAsc(rows, users);
    var r := Predictions(rows, users);
    UsersAscSpec(rows, users);
    forall i, j | 0 <= i < j < |r| ensures r[i].userId < r[j].userId {
      assert IdLess(us[i], us[j]);
    }
    forall p | p in r ensures p.userId in ExpenseUsers(rows, users) && p.userName == users[p.userId] {
      var k :| 0 <= k < |r| && r[k] == p;
      assert us[k] in Elems(us);
    }
    forall u | u in ExpenseUsers(rows, users) ensures exists p :: p in r && p.userId == u {
      assert u in Elems(us);
      var k :| 0 <= k < |us| && us[k] == u;
      assert r[k] in r;
    }
  }
}
