/**
 * The client's `statistics` slice: the three analytics lists, a loading flag
 * per list and one shared error, with the reducer cases of the three fetch
 * thunks and the thunks' guard handling.
 */
module StatisticsSlice {
  import opened Wrappers
  import opened JsValues
  import opened ApiGuards
  import opened Grouping
  import Top = TopSpendingDays
  import Changes = MonthlyChanges
  import Predictions = SpendingPredictions

  /** The three statistics the slice fetches. */
  datatype Kind = TopSpendingDays | MonthlyChanges | SpendingPredictions

  /** `state.loading`: one flag per kind. */
  datatype Loading = Loading(topSpendingDays: bool, monthlyChanges: bool, spendingPredictions: bool)
  {
    function Get(kind: Kind): bool
    {
      match kind
      case TopSpendingDays => topSpendingDays
      case MonthlyChanges => monthlyChanges
      case SpendingPredictions => spendingPredictions
    }

    /** The flags with the one of `kind` set to `b`. */
    function Set(kind: Kind, b: bool): (r: Loading)
      ensures r.Get(kind) == b
      ensures forall k :: k != kind ==> r.Get(k) == Get(k)
    {
      match kind
      case TopSpendingDays => this.(topSpendingDays := b)
      case MonthlyChanges => this.(monthlyChanges := b)
      case SpendingPredictions => this.(spendingPredictions := b)
    }
  }

  /** The rejected cases' fallback messages. */
  function DefaultError(kind: Kind): string
  {
    match kind
    case TopSpendingDays => "Failed to fetch top spending days"
    case MonthlyChanges => "Failed to fetch monthly changes"
    case SpendingPredictions => "Failed to fetch spending predictions"
  }

  /** The guard key of each thunk: the kind's name, without parameters. */
  function GuardKey(kind: Kind): string
  {
    match kind
    case TopSpendingDays => "topSpendingDays"
    case MonthlyChanges => "monthlyChanges"
    case SpendingPredictions => "spendingPredictions"
  }

  /** The three thunks use three different keys, each exactly the kind's name. */
  lemma GuardKeysDistinct(k1: Kind, k2: Kind, stringify: int -> string)
    ensures CreateGuardKey(GuardKey(k1), None, stringify) == GuardKey(k1)
    ensures GuardKey(k1) == GuardKey(k2) <==> k1 == k2
  {
  }

  const Busy: string := "API call already in progress"

  class StatisticsStore {
    var topSpendingDays: seq<Group<Top.TopDay>>
    var monthlyChanges: seq<Group<Changes.MonthlyChange>>
    var spendingPredictions: seq<Predictions.UserPrediction>
    var loading: Loading
    var error: Option<string>

    /** `initialState`. */
    constructor ()
      ensures topSpendingDays == [] && monthlyChanges == [] && spendingPredictions == []
      ensures forall k :: !loading.Get(k)
      ensures error == None
    {
      topSpendingDays, monthlyChanges, spendingPredictions := [], [], [];
      loading := Loading(false, false, false);
      error := None;
    }

    /** `clearError`. */
    method ClearError()
      modifies this
      ensures error == None
      ensures loading == old(loading)
      ensures topSpendingDays == old(topSpendingDays) && monthlyChanges == old(monthlyChanges)
      ensures spendingPredictions == old(spendingPredictions)
    {
      error := None;
    }

    /** The `pending` case of `kind`: its own flag on, the error cleared. */
    method Pending(kind: Kind)
      modifies this
      ensures loading == old(loading).Set(kind, true) && error == None
      ensures topSpendingDays == old(topSpendingDays) && monthlyChanges == old(monthlyChanges)
      ensures spendingPredictions == old(spendingPredictions)
    {
      loading := loading.Set(kind, true);
      error := None;
    }

    /** The `rejected` case of `kind`: its own flag off, the error set to the message or the kind's default. */
    method Rejected(kind: Kind, message: Option<string>)
      modifies this
      ensures loading == old(loading).Set(kind, false)
      ensures error == Some(MessageOr(message, DefaultError(kind)))
      ensures topSpendingDays == old(topSpendingDays) && monthlyChanges == old(monthlyChanges)
      ensures spendingPredictions == old(spendingPredictions)
    {
      loading := loading.Set(kind, false);
      error := Some(MessageOr(message, DefaultError(kind)));
    }

    /** `fetchTopSpendingDays.fulfilled`. */
    method TopSpendingDaysFulfilled(data: seq<Group<Top.TopDay>>)
      modifies this
      ensures loading == old(loading).Set(TopSpendingDays, false) && topSpendingDays == data
      ensures error == old(error) && monthlyChanges == old(monthlyChanges)
      ensures spendingPredictions == old(spendingPredictions)
    {
      loading := loading.Set(TopSpendingDays, false);
      topSpendingDays := data;
    }

    /** `fetchMonthlyChanges.fulfilled`. */
    method MonthlyChangesFulfilled(data: seq<Group<Changes.MonthlyChange>>)
      modifies this
      ensures loading == old(loading).Set(MonthlyChanges, false) && monthlyChanges == data
      ensures error == old(error) && topSpendingDays == old(topSpendingDays)
      ensures spendingPredictions == old(spendingPredictions)
    {
      loading := loading.Set(MonthlyChanges, false);
      monthlyChanges := data;
    }

    /** `fetchSpendingPredictions.fulfilled`. */
    method SpendingPredictionsFulfilled(data: seq<Predictions.UserPrediction>)
      modifies this
      ensures loading == old(loading).Set(SpendingPredictions, false) && spendingPredictions == data
      ensures error == old(error) && topSpendingDays == old(topSpendingDays)
      ensures monthlyChanges == old(monthlyChanges)
    {
      loading := loading.Set(SpendingPredictions, false);
      spendingPredictions := data;
    }

    /**
     * `dispatch(fetchTopSpendingDays())`: pending, then the request guarded
     * by "topSpendingDays"; a held key rejects the call with "API call
     * already in progress". Afterwards the flag is off and the registry is
     * as it was.
     */
    method FetchTopSpendingDays(g: APIGuards, response: Result<seq<Group<Top.TopDay>>, Option<string>>)
      modifies this, g
      ensures g.guards == old(g.guards)
      ensures loading == old(loading).Set(TopSpendingDays, false)
      ensures monthlyChanges == old(monthlyChanges) && spendingPredictions == old(spendingPredictions)
      ensures "topSpendingDays" in old(g.guards) ==>
                topSpendingDays == old(topSpendingDays) && error == Some(Busy)
      ensures "topSpendingDays" !in old(g.guards) ==>
                match response
                case Ok(data) => topSpendingDays == data && error == None
                case Err(message) =>
                  topSpendingDays == old(topSpendingDays) && error == Some(MessageOr(message, DefaultError(TopSpendingDays)))
    {
      Pending(TopSpendingDays);
      var outcome := RunGuarded(g, GuardKey(TopSpendingDays), Err(Some(Busy)), response);
      match outcome
      case Ok(data) => TopSpendingDaysFulfilled(data);
      case Err(message) => Rejected(TopSpendingDays, message);
    }

    /** `dispatch(fetchMonthlyChanges())`, guarded by "monthlyChanges". */
    method FetchMonthlyChanges(g: APIGuards, response: Result<seq<Group<Changes.MonthlyChange>>, Option<string>>)
      modifies this, g
      ensures g.guards == old(g.guards)
      ensures loading == old(loading).Set(MonthlyChanges, false)
      ensures topSpendingDays == old(topSpendingDays) && spendingPredictions == old(spendingPredictions)
      ensures "monthlyChanges" in old(g.guards) ==>
                monthlyChanges == old(monthlyChanges) && error == Some(Busy)
      ensures "monthlyChanges" !in old(g.guards) ==>
                match response
                case Ok(data) => monthlyChanges == data && error == None
                case Err(message) =>
                  monthlyChanges == old(monthlyChanges) && error == Some(MessageOr(message, DefaultError(MonthlyChanges)))
    {
      Pending(MonthlyChanges);
      var outcome := RunGuarded(g, GuardKey(MonthlyChanges), Err(Some(Busy)), response);
      match outcome
      case Ok(data) => MonthlyChangesFulfilled(data);
      case Err(message) => Rejected(MonthlyChanges, message);
    }

    /** `dispatch(fetchSpendingPredictions())`, guarded by "spendingPredictions". */
    method FetchSpendingPredictions(g: APIGuards, response: Result<seq<Predictions.UserPrediction>, Option<string>>)
      modifies this, g
      ensures g.guards == old(g.guards)
      ensures loading == old(loading).Set(SpendingPredictions, false)
      ensures topSpendingDays == old(topSpendingDays) && monthlyChanges == old(monthlyChanges)
      ensures "spendingPredictions" in old(g.guards) ==>
                spendingPredictions == old(spendingPredictions) && error == Some(Busy)
      ensures "spendingPredictions" !in old(g.guards) ==>
                match response
                case Ok(data) => spendingPredictions == data && error == None
                case Err(message) =>
                  spendingPredictions == old(spendingPredictions) &&
                  error == Some(MessageOr(message, DefaultError(SpendingPredictions)))
    {
      Pending(SpendingPredictions);
      var outcome := RunGuarded(g, GuardKey(SpendingPredictions), Err(Some(Busy)), response);
      match outcome
      case Ok(data) => SpendingPredictionsFulfilled(data);
      case Err(message) => Rejected(SpendingPredictions, message);
    }
  }
}
