/**
 * The client's `expenses` slice: the current page of expenses, its
 * pagination, the active filters, the dashboard list and the loading and
 * error flags, with the reducers that update them.
 */
module ExpenseSlice {
  import opened Wrappers
  import opened JsValues
  import opened ApiGuards
  import opened ExpenseQueries

  /** An expense as the client holds it: its id and its other properties. */
  datatype ExpenseItem = ExpenseItem(id: int, fields: Object)

  /** The `{ data, pagination }` body a list request resolves to. */
  datatype ExpenseList = ExpenseList(data: seq<ExpenseItem>, pagination: Pagination)

  const DefaultFilters: Object := map["page" := Num(1), "limit" := Num(10)]

  /** The pagination the slice starts with, also returned by a skipped fetch. */
  const EmptyPagination: Pagination := Pagination(1, 10, 0, 0)

  /** A value `setFilters` keeps: anything but `undefined`, `null` and `""`. */
  predicate Present(v: Value)
  {
    v != Undefined && v != Null && v != Str("")
  }

  /** The payload entries among `ks` that `setFilters` keeps. */
  function KeptOf(payload: Object, ks: set<string>): Object
  {
    map k | k in ks && k in payload && Present(payload[k]) :: payload[k]
  }

  /** Taking one more payload key into account, as one iteration of `forEach` does. */
  lemma KeptOfStep(payload: Object, done: set<string>, key: string)
    requires key in payload
    ensures DefaultFilters + KeptOf(payload, done + {key}) ==
            if Present(payload[key]) then (DefaultFilters + KeptOf(payload, done))[key := payload[key]]
            else DefaultFilters + KeptOf(payload, done)
  {
    var before, after := KeptOf(payload, done), KeptOf(payload, done + {key});
    if Present(payload[key]) {
      assert after == before[key := payload[key]];
    } else {
      assert after == before;
    }
  }

  /** The filters `setFilters(payload)` stores: page 1 and limit 10, overridden by the kept entries. */
  function Normalise(payload: Object): Object
  {
    DefaultFilters + KeptOf(payload, payload.Keys)
  }

  /**
   * The normalised filters always hold `page` and `limit`, defaulting to 1
   * and 10; they hold exactly the payload's present entries besides, with
   * their exact values, and never an undefined, null or empty value.
   * Normalising twice changes nothing.
   */
  lemma NormaliseSpec(payload: Object)
    ensures "page" in Normalise(payload) && "limit" in Normalise(payload)
    ensures Normalise(payload)["page"] ==
            if "page" in payload && Present(payload["page"]) then payload["page"] else Num(1)
    ensures Normalise(payload)["limit"] ==
            if "limit" in payload && Present(payload["limit"]) then payload["limit"] else Num(10)
    ensures forall k :: k in Normalise(payload) <==>
                        k == "page" || k == "limit" || (k in payload && Present(payload[k]))
    ensures forall k :: k in payload && Present(payload[k]) ==> Normalise(payload)[k] == payload[k]
    ensures forall k :: k in Normalise(payload) ==> Present(Normalise(payload)[k])
    ensures Normalise(Normalise(payload)) == Normalise(payload)
  {
    forall k ensures NormaliseAtHolds(payload, k) {
      NormaliseAt(payload, k);
    }
    NormaliseAt(payload, "page");
    NormaliseAt(payload, "limit");
    NormaliseIdempotent(payload);
  }

  /** What `Normalise` keeps under one key, and with what value. */
  predicate NormaliseAtHolds(payload: Object, k: string)
  {
    && (k in Normalise(payload) <==> k == "page" || k == "limit" || (k in payload && Present(payload[k])))
    && (k in Normalise(payload) ==>
          Present(Normalise(payload)[k]) &&
          Normalise(payload)[k] == if k in payload && Present(payload[k]) then payload[k]
                                   else if k == "page" then Num(1) else Num(10))
  }

  lemma NormaliseAt(payload: Object, k: string)
    ensures NormaliseAtHolds(payload, k)
  {
    assert Present(Num(1)) && Present(Num(10));
  }

  lemma NormaliseIdempotent(payload: Object)
    ensures Normalise(Normalise(payload)) == Normalise(payload)
  {
    var n := Normalise(payload);
    forall k ensures k in Normalise(n) <==> k in n {
      NormaliseAt(payload, k);
      NormaliseAt(n, k);
    }
    forall k | k in n ensures Normalise(n)[k] == n[k] {
      NormaliseAt(payload, k);
      NormaliseAt(n, k);
    }
  }

  /**
   * The body of `setFilters` before the assignment: the `forEach` over the
   * payload's keys that copies each present value onto page 1, limit 10.
   */
  method BuildFilters(payload: Object) returns (newFilters: Object)
    ensures newFilters == Normalise(payload)
  {
    newFilters := DefaultFilters;
    var done: set<string> := {};
    var remaining := payload.Keys;
    while remaining != {}
      invariant done + remaining == payload.Keys && done !! remaining
      invariant newFilters == DefaultFilters + KeptOf(payload, done)
      decreases remaining
    {
      var key :| key in remaining;
      KeptOfStep(payload, done, key);
      if Present(payload[key]) {
        newFilters := newFilters[key := payload[key]];
      }
      assert newFilters == DefaultFilters + KeptOf(payload, done + {key});
      done, remaining := done + {key}, remaining - {key};
    }
    assert done == payload.Keys;
  }

  /** `findIndex`: the position of the first expense with the id, or -1. */
  function FindIndex(s: seq<ExpenseItem>, id: int): (r: int)
    ensures -1 <= r < |s|
    ensures r >= 0 ==> s[r].id == id && forall j :: 0 <= j < r ==> s[j].id != id
    ensures r == -1 ==> forall j :: 0 <= j < |s| ==> s[j].id != id
  {
    if s == [] then -1
    else if s[0].id == id then 0
    else
      var r := FindIndex(s[1..], id);
      if r == -1 then -1 else r + 1
  }

  /** `filter(expense => expense.id !== id)`. */
  function RemoveId(s: seq<ExpenseItem>, id: int): (r: seq<ExpenseItem>)
    ensures |r| <= |s|
    ensures forall x :: x in r <==> x in s && x.id != id
  {
    if s == [] then []
    else (if s[0].id != id then [s[0]] else []) + RemoveId(s[1..], id)
  }

  /** Removing keeps the order of what stays: it distributes over concatenation. */
  lemma {:induction false} RemoveIdConcat(a: seq<ExpenseItem>, b: seq<ExpenseItem>, id: int)
    ensures RemoveId(a + b, id) == RemoveId(a, id) + RemoveId(b, id)
  {
    if a == [] {
      assert a + b == b;
    } else {
      assert (a + b)[1..] == a[1..] + b;
      RemoveIdConcat(a[1..], b, id);
    }
  }

  /** Removing an id that no expense has changes nothing. */
  lemma {:induction false} RemoveAbsentId(s: seq<ExpenseItem>, id: int)
    requires forall x :: x in s ==> x.id != id
    ensures RemoveId(s, id) == s
  {
    if s != [] {
      RemoveAbsentId(s[1..], id);
      assert s == [s[0]] + s[1..];
    }
  }

  class ExpenseStore {
    var expenses: seq<ExpenseItem>
    var loading: bool
    var error: Option<string>
    var pagination: Pagination
    var filters: Object
    var dashboardExpenses: seq<ExpenseItem>
    var dashboardLoading: bool

    /** `initialState`. */
    constructor ()
      ensures expenses == [] && !loading && error == None && pagination == EmptyPagination
      ensures filters == DefaultFilters && dashboardExpenses == [] && !dashboardLoading
    {
      expenses, loading, error, pagination := [], false, None, EmptyPagination;
      filters, dashboardExpenses, dashboardLoading := DefaultFilters, [], false;
    }

    /** `setFilters`: starts from page 1 and limit 10 and copies every present payload entry. */
    method SetFilters(payload: Object)
      modifies this
      ensures filters == Normalise(payload)
      ensures expenses == old(expenses) && loading == old(loading) && error == old(error)
      ensures pagination == old(pagination)
      ensures dashboardExpenses == old(dashboardExpenses) && dashboardLoading == old(dashboardLoading)
    {
      filters := BuildFilters(payload);
    }

    /** `clearFilters`. */
    method ClearFilters()
      modifies this
      ensures filters == DefaultFilters
      ensures expenses == old(expenses) && loading == old(loading) && error == old(error)
      ensures pagination == old(pagination)
      ensures dashboardExpenses == old(dashboardExpenses) && dashboardLoading == old(dashboardLoading)
    {
      filters := DefaultFilters;
    }

    /** `clearError`. */
    method ClearError()
      modifies this
      ensures error == None
      ensures expenses == old(expenses) && loading == old(loading) && filters == old(filters)
      ensures pagination == old(pagination)
      ensures dashboardExpenses == old(dashboardExpenses) && dashboardLoading == old(dashboardLoading)
    {
      error := None;
    }

    /** `fetchExpenses.pending` and `createExpense.pending`. */
    method ListPending()
      modifies this
      ensures loading && error == None
      ensures expenses == old(expenses) && filters == old(filters) && pagination == old(pagination)
      ensures dashboardExpenses == old(dashboardExpenses) && dashboardLoading == old(dashboardLoading)
    {
      loading := true;
      error := None;
    }

    /** `fetchExpenses.fulfilled`. */
    method FetchFulfilled(payload: ExpenseList)
      modifies this
      ensures !loading && expenses == payload.data && pagination == payload.pagination
      ensures error == old(error) && filters == old(filters)
      ensures dashboardExpenses == old(dashboardExpenses) && dashboardLoading == old(dashboardLoading)
    {
      loading := false;
      expenses := payload.data;
      pagination := payload.pagination;
    }

    /** The `rejected` cases of fetchExpenses and createExpense, with their default messages. */
    method ListRejected(message: Option<string>, fallback: string)
      modifies this
      ensures !loading && error == Some(MessageOr(message, fallback))
      ensures expenses == old(expenses) && filters == old(filters) && pagination == old(pagination)
      ensures dashboardExpenses == old(dashboardExpenses) && dashboardLoading == old(dashboardLoading)
    {
      loading := false;
      error := Some(MessageOr(message, fallback));
    }

    /** `fetchDashboardExpenses.pending`. */
    method DashboardPending()
      modifies this
      ensures dashboardLoading
      ensures expenses == old(expenses) && loading == old(loading) && error == old(error)
      ensures filters == old(filters) && pagination == old(pagination) && dashboardExpenses == old(dashboardExpenses)
    {
      dashboardLoading := true;
    }

    /** `fetchDashboardExpenses.fulfilled`. */
    method DashboardFulfilled(payload: ExpenseList)
      modifies this
      ensures !dashboardLoading && dashboardExpenses == payload.data
      ensures expenses == old(expenses) && loading == old(loading) && error == old(error)
      ensures filters == old(filters) && pagination == old(pagination)
    {
      dashboardLoading := false;
      dashboardExpenses := payload.data;
    }

    /** `fetchDashboardExpenses.rejected`. */
    method DashboardRejected(message: Option<string>)
      modifies this
      ensures !dashboardLoading && error == Some(MessageOr(message, "Failed to fetch dashboard expenses"))
      ensures expenses == old(expenses) && loading == old(loading)
      ensures filters == old(filters) && pagination == old(pagination) && dashboardExpenses == old(dashboardExpenses)
    {
      dashboardLoading := false;
      error := Some(MessageOr(message, "Failed to fetch dashboard expenses"));
    }

    /** `createExpense.fulfilled`: the new expense goes to the front. */
    method CreateFulfilled(created: ExpenseItem)
      modifies this
      ensures !loading && expenses == [created] + old(expenses)
      ensures error == old(error) && filters == old(filters) && pagination == old(pagination)
      ensures dashboardExpenses == old(dashboardExpenses) && dashboardLoading == old(dashboardLoading)
    {
      loading := false;
      expenses := [created] + expenses;
    }

    /** `updateExpense.fulfilled`: replaces the first expense with the same id, if any. */
    method UpdateFulfilled(updated: ExpenseItem)
      modifies this
      ensures |expenses| == |old(expenses)|
      ensures var i := FindIndex(old(expenses), updated.id);
              if i == -1 then expenses == old(expenses)
              else expenses[i] == updated && forall j :: 0 <= j < |expenses| && j != i ==> expenses[j] == old(expenses)[j]
      ensures loading == old(loading) && error == old(error) && filters == old(filters)
      ensures pagination == old(pagination)
      ensures dashboardExpenses == old(dashboardExpenses) && dashboardLoading == old(dashboardLoading)
    {
      var index := FindIndex(expenses, updated.id);
      if index != -1 {
        expenses := expenses[index := updated];
      }
    }

    /** `deleteExpense.fulfilled`: drops every expense with the id. */
    method DeleteFulfilled(id: int)
      modifies this
      ensures expenses == RemoveId(old(expenses), id)
      ensures loading == old(loading) && error == old(error) && filters == old(filters)
      ensures pagination == old(pagination)
      ensures dashboardExpenses == old(dashboardExpenses) && dashboardLoading == old(dashboardLoading)
    {
      expenses := RemoveId(expenses, id);
    }

    /**
     * `dispatch(fetchExpenses(filters))`: pending, then the guarded request
     * keyed by "expenses" and the filters. A call that finds its key in
     * progress resolves to an empty list (it is not rejected), which the
     * fulfilled case then stores. The guard registry ends as it began.
     */
    method FetchExpenses(g: APIGuards, requestFilters: Object, stringify: Object -> string,
                         response: Result<ExpenseList, Option<string>>)
      modifies this, g
      ensures g.guards == old(g.guards)
      ensures !loading && filters == old(filters)
      ensures dashboardExpenses == old(dashboardExpenses) && dashboardLoading == old(dashboardLoading)
      ensures CreateGuardKey("expenses", Some(requestFilters), stringify) in old(g.guards) ==>
                expenses == [] && pagination == EmptyPagination && error == None
      ensures CreateGuardKey("expenses", Some(requestFilters), stringify) !in old(g.guards) ==>
                match response
                case Ok(list) => expenses == list.data && pagination == list.pagination && error == None
                case Err(message) =>
                  expenses == old(expenses) && pagination == old(pagination) &&
                  error == Some(MessageOr(message, "Failed to fetch expenses"))
    {
      ListPending();
      var key := CreateGuardKey("expenses", Some(requestFilters), stringify);
      var outcome := RunGuarded(g, key, Ok(ExpenseList([], EmptyPagination)), response);
      match outcome
      case Ok(list) => FetchFulfilled(list);
      case Err(message) => ListRejected(message, "Failed to fetch expenses");
    }

    /**
     * `dispatch(fetchDashboardExpenses(limit))`: pending, then the request
     * guarded by "dashboardExpenses" and `{limit}`, which is refused with
     * "API call already in progress" while the key is held.
     */
    method FetchDashboardExpenses(g: APIGuards, limit: int, stringify: Object -> string,
                                  response: Result<ExpenseList, Option<string>>)
      modifies this, g
      ensures g.guards == old(g.guards)
      ensures !dashboardLoading
      ensures expenses == old(expenses) && loading == old(loading) && filters == old(filters)
      ensures pagination == old(pagination)
      ensures CreateGuardKey("dashboardExpenses", Some(map["limit" := Num(limit)]), stringify) in old(g.guards) ==>
                dashboardExpenses == old(dashboardExpenses) && error == Some("API call already in progress")
      ensures CreateGuardKey("dashboardExpenses", Some(map["limit" := Num(limit)]), stringify) !in old(g.guards) ==>
                match response
                case Ok(list) => dashboardExpenses == list.data && error == old(error)
                case Err(message) =>
                  dashboardExpenses == old(dashboardExpenses) &&
                  error == Some(MessageOr(message, "Failed to fetch dashboard expenses"))
    {
      DashboardPending();
      var key := CreateGuardKey("dashboardExpenses", Some(map["limit" := Num(limit)]), stringify);
      var outcome := RunGuarded(g, key, Err(Some("API call already in progress")), response);
      match outcome
      case Ok(list) => DashboardFulfilled(list);
      case Err(message) => DashboardRejected(message);
    }
  }

  /**
   * The filters `clearFilters` stores are what `setFilters({})` stores, and
   * calling `setFilters` with them again changes nothing.
   */
  lemma ClearedFiltersAreNormal()
    ensures Normalise(map[]) == DefaultFilters
    ensures Normalise(DefaultFilters) == DefaultFilters
  {
    forall k ensures k in Normalise(DefaultFilters) <==> k in DefaultFilters {
      NormaliseAt(DefaultFilters, k);
    }
    forall k | k in DefaultFilters ensures Normalise(DefaultFilters)[k] == DefaultFilters[k] {
      NormaliseAt(DefaultFilters, k);
    }
  }
}
