/**
 * The expense list's filter bar: how editing one filter control turns the
 * current filters into the filters it dispatches, and whether any filter
 * besides paging is active. Date parsing (`new Date`), the end of the
 * current day and `parseInt` are parameters.
 */
module ExpenseFilters {
  import opened Wrappers
  import opened JsValues
  import opened ExpenseSlice

  predicate IsDigit(c: char)
  {
    '0' <= c <= '9'
  }

  /** `value.length === 10` and `/^\d{4}-\d{2}-\d{2}$/`. */
  predicate DateShaped(value: string)
  {
    && |value| == 10
    && IsDigit(value[0]) && IsDigit(value[1]) && IsDigit(value[2]) && IsDigit(value[3])
    && value[4] == '-' && IsDigit(value[5]) && IsDigit(value[6])
    && value[7] == '-' && IsDigit(value[8]) && IsDigit(value[9])
  }

  predicate OccursAt(key: string, part: string, i: int)
  {
    0 <= i <= |key| - |part| && key[i..i + |part|] == part
  }

  /** `key.includes(part)`. */
  predicate Includes(key: string, part: string)
  {
    exists i :: 0 <= i <= |key| - |part| && OccursAt(key, part, i)
  }

  /**
   * `selectedDate > today`: `parseDate` gives the instant `new Date(value)`
   * denotes, None for an invalid date (which compares false), and
   * `endOfToday` is today at 23:59:59.999.
   */
  predicate InFuture(parseDate: string -> Option<int>, value: string, endOfToday: int)
  {
    parseDate(value).Some? && parseDate(value).value > endOfToday
  }

  predicate IsDateKey(key: string)
  {
    key == "start_date" || key == "end_date"
  }

  /** The value stored for a key: ids go through parseInt, everything else is the text. */
  function Stored(key: string, value: string, parseInt: string -> Value): Value
  {
    if Includes(key, "_id") then parseInt(value) else Str(value)
  }

  /**
   * What `handleFilterChange(key, value)` dispatches to setFilters, or None
   * when it returns without dispatching.
   */
  function FilterChange(filters: Object, key: string, value: string, parseDate: string -> Option<int>,
                        endOfToday: int, parseInt: string -> Value): Option<Object>
  {
    if value == "" || value == "all" then Some(filters[key := Undefined]["page" := Num(1)])
    else if IsDateKey(key) && (!DateShaped(value) || InFuture(parseDate, value, endOfToday)) then None
    else Some(filters[key := Stored(key, value, parseInt)]["page" := Num(1)])
  }

  /**
   * `handleFilterChange`: copies the filters, clears the key for "" and
   * "all", otherwise checks a date's shape and that it is not in the future
   * and stores the value, then resets the page to 1.
   */
  method HandleFilterChange(filters: Object, key: string, value: string, parseDate: string -> Option<int>,
                            endOfToday: int, parseInt: string -> Value) returns (dispatched: Option<Object>)
    ensures dispatched == FilterChange(filters, key, value, parseDate, endOfToday, parseInt)
  {
    var newFilters := filters;
    if value == "" || value == "all" {
      newFilters := newFilters[key := Undefined];
    } else {
      if key == "start_date" || key == "end_date" {
        if value == "" || |value| != 10 || !DateShaped(value) {
          return None;
        }
        if InFuture(parseDate, value, endOfToday) {
          return None;
        }
      }
      newFilters := newFilters[key := if Includes(key, "_id") then parseInt(value) else Str(value)];
    }
    newFilters := newFilters["page" := Num(1)];
    dispatched := Some(newFilters);
  }

  /**
   * A dispatch always resets the page to 1 and carries every other filter
   * over unchanged. "" and "all" clear the key; a date filter is dropped
   * when malformed or in the future; otherwise the value is stored, through
   * parseInt for id keys.
   */
  lemma FilterChangeSpec(filters: Object, key: string, value: string, parseDate: string -> Option<int>,
                         endOfToday: int, parseInt: string -> Value)
    ensures var r := FilterChange(filters, key, value, parseDate, endOfToday, parseInt);
            && (r.Some? ==> "page" in r.value && r.value["page"] == Num(1))
            && (r.Some? ==> forall k :: k != key && k != "page" ==>
                              (k in r.value <==> k in filters) && (k in filters ==> r.value[k] == filters[k]))
            && ((value == "" || value == "all") && key != "page" ==> r.Some? && r.value[key] == Undefined)
            && (value != "" && value != "all" && IsDateKey(key) && !DateShaped(value) ==> r == None)
            && (value != "" && value != "all" && IsDateKey(key) && InFuture(parseDate, value, endOfToday) ==> r == None)
            && (value != "" && value != "all" && key != "page" &&
                (IsDateKey(key) ==> DateShaped(value) && !InFuture(parseDate, value, endOfToday)) ==>
                  r.Some? && r.value[key] == Stored(key, value, parseInt))
  {
  }

  /** The date keys are not id keys, so a date is stored as its text. */
  lemma DateStoredAsText(key: string, value: string, parseInt: string -> Value)
    requires IsDateKey(key)
    ensures Stored(key, value, parseInt) == Str(value)
  {
    assert forall j :: 0 <= j < |key| ==> key[j] != 'i';
    forall i | 0 <= i <= |key| - 3 ensures !OccursAt(key, "_id", i) {
      assert key[i..i + 3][1] == key[i + 1];
    }
  }

  /** `hasActiveFilters`: some key besides page and limit holds a truthy value. */
  predicate HasActiveFilters(filters: Object)
  {
    exists k :: k in filters && k != "page" && k != "limit" && Truthy(filters[k])
  }

  /**
   * setFilters never changes whether a filter is active: it drops only
   * undefined, null and empty values, which are falsy; so after clearFilters
   * none is active.
   */
  lemma ActiveFiltersSurviveNormalise(payload: Object)
    ensures HasActiveFilters(Normalise(payload)) <==> HasActiveFilters(payload)
    ensures !HasActiveFilters(DefaultFilters)
  {
    var n := Normalise(payload);
    if HasActiveFilters(payload) {
      var k :| k in payload && k != "page" && k != "limit" && Truthy(payload[k]);
      NormaliseAt(payload, k);
      assert k in n && n[k] == payload[k];
    }
    if HasActiveFilters(n) {
      var k :| k in n && k != "page" && k != "limit" && Truthy(n[k]);
      NormaliseAt(payload, k);
      assert k in payload && n[k] == payload[k];
    }
  }

  /**
   * Choosing "" or "all" for a filter removes it once setFilters has
   * normalised the dispatched filters; choosing a value that stores truthily
   * makes the filters active.
   */
  lemma ChangeThenSetFilters(filters: Object, key: string, value: string, parseDate: string -> Option<int>,
                             endOfToday: int, parseInt: string -> Value)
    requires key != "page" && key != "limit"
    ensures var r := FilterChange(filters, key, value, parseDate, endOfToday, parseInt);
            && ((value == "" || value == "all") ==> r.Some? && key !in Normalise(r.value))
            && (r.Some? && value != "" && value != "all" && Truthy(Stored(key, value, parseInt)) ==>
                  HasActiveFilters(Normalise(r.value)))
  {
    var r := FilterChange(filters, key, value, parseDate, endOfToday, parseInt);
    if r.Some? {
      NormaliseSpec(r.value);
      ActiveFiltersSurviveNormalise(r.value);
      if value != "" && value != "all" && Truthy(Stored(key, value, parseInt)) {
        assert key in r.value && Truthy(r.value[key]);
      }
    }
  }
}
