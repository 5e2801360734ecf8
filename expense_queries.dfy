/**
 * Expense.findAll's pagination arithmetic and Expense.update's field
 * whitelist. The filtered, ordered result set of findAll is an input: how the
 * WHERE conditions are spelt out is not modelled, only how a page is cut
 * from the rows they select.
 */
module ExpenseQueries {
  import opened Wrappers
  import opened Ordering
  import opened Decimal
  import opened JsValues

  // ---------------------------------------------------------------------
  // findAll

  datatype Pagination = Pagination(page: int, limit: int, total: nat, pages: int)

  datatype ExpensePage<T> = ExpensePage(expenses: seq<T>, pagination: Pagination)

  /**
   * `parseInt(x) || d`: `parsed` is what parseInt returned, None standing
   * for NaN; NaN and 0 are falsy and give the default.
   */
  function OrDefault(parsed: Option<int>, d: int): int
  {
    match parsed
    case None => d
    case Some(n) => if n == 0 then d else n
  }

  /** `(pageNum - 1) * limitNum`. */
  function Offset(page: int, limit: int): int
  {
    (page - 1) * limit
  }

  /**
   * findAll on the rows `matching` that its filters select, in ORDER BY
   * order. `pageArg` and `limitArg` are parseInt of the `page` and `limit`
   * filters after their defaults 1 and 10. MySQL rejects a negative LIMIT or
   * OFFSET, and findAll wraps that rejection in "Failed to fetch expenses".
   * The COUNT(*) query applies the same filters, so `total` is |matching|.
   */
  function FindAll<T>(matching: seq<T>, pageArg: Option<int>, limitArg: Option<int>): Result<ExpensePage<T>, string>
  {
    var page := OrDefault(pageArg, 1);
    var limit := OrDefault(limitArg, 10);
    var offset := Offset(page, limit);
    if limit < 0 || offset < 0 then Err("Failed to fetch expenses")
    else
      var lo := Min(offset, |matching|);
      var hi := Min(offset + limit, |matching|);
      Ok(ExpensePage(matching[lo..hi], Pagination(page, limit, |matching|, CeilDiv(|matching|, limit))))
  }

  /** A falsy parse gives the default; any other number is kept as it is. */
  lemma OrDefaultSpec(parsed: Option<int>, d: int)
    requires d != 0
    ensures OrDefault(parsed, d) != 0
    ensures parsed == None || parsed == Some(0) ==> OrDefault(parsed, d) == d
    ensures parsed.Some? && parsed.value != 0 ==> OrDefault(parsed, d) == parsed.value
  {
  }

  /**
   * findAll succeeds exactly when the page and the limit are positive. Then
   * the page holds the rows from offset (page - 1) * limit on: `limit` of
   * them, or every remaining row on a shorter last page, and none past the
   * end. The total counts every matching row, and `pages` is the least
   * number of pages of `limit` rows that hold them all.
   */
  lemma FindAllSpec<T>(matching: seq<T>, pageArg: Option<int>, limitArg: Option<int>)
    ensures var page, limit := OrDefault(pageArg, 1), OrDefault(limitArg, 10);
            FindAll(matching, pageArg, limitArg).Ok? <==> page >= 1 && limit >= 1
    ensures FindAll(matching, pageArg, limitArg).Ok? ==>
            var p := FindAll(matching, pageArg, limitArg).value;
            var offset := Offset(p.pagination.page, p.pagination.limit);
            && p.pagination.page == OrDefault(pageArg, 1)
            && p.pagination.limit == OrDefault(limitArg, 10)
            && p.pagination.total == |matching|
            && |p.expenses| <= p.pagination.limit
            && (forall i :: 0 <= i < |p.expenses| ==> offset + i < |matching| && p.expenses[i] == matching[offset + i])
            && (offset + p.pagination.limit <= |matching| ==> |p.expenses| == p.pagination.limit)
            && (offset <= |matching| ==> |p.expenses| == Min(p.pagination.limit, |matching| - offset))
            && (offset >= |matching| ==> p.expenses == [])
            && p.pagination.pages * p.pagination.limit >= p.pagination.total
            && (p.pagination.pages - 1) * p.pagination.limit < p.pagination.total
  {
    FindAllOk(matching, pageArg, limitArg);
    if FindAll(matching, pageArg, limitArg).Ok? {
      FindAllPage(matching, pageArg, limitArg);
    }
  }

  lemma FindAllOk<T>(matching: seq<T>, pageArg: Option<int>, limitArg: Option<int>)
    ensures var page, limit := OrDefault(pageArg, 1), OrDefault(limitArg, 10);
            FindAll(matching, pageArg, limitArg).Ok? <==> page >= 1 && limit >= 1
  {
    var page, limit := OrDefault(pageArg, 1), OrDefault(limitArg, 10);
    OrDefaultSpec(limitArg, 10);
    if limit >= 1 {
      if page >= 1 {
        MulMono(0, page - 1, limit);
      } else {
        MulMono(page - 1, -1, limit);
      }
    }
  }

  lemma FindAllPage<T>(matching: seq<T>, pageArg: Option<int>, limitArg: Option<int>)
    requires FindAll(matching, pageArg, limitArg).Ok?
    ensures var p := FindAll(matching, pageArg, limitArg).value;
            var offset := Offset(p.pagination.page, p.pagination.limit);
            && p.pagination.page == OrDefault(pageArg, 1)
            && p.pagination.limit == OrDefault(limitArg, 10)
            && p.pagination.total == |matching|
            && |p.expenses| <= p.pagination.limit
            && (forall i :: 0 <= i < |p.expenses| ==> offset + i < |matching| && p.expenses[i] == matching[offset + i])
            && (offset + p.pagination.limit <= |matching| ==> |p.expenses| == p.pagination.limit)
            && (offset <= |matching| ==> |p.expenses| == Min(p.pagination.limit, |matching| - offset))
            && (offset >= |matching| ==> p.expenses == [])
            && p.pagination.pages * p.pagination.limit >= p.pagination.total
            && (p.pagination.pages - 1) * p.pagination.limit < p.pagination.total
  {
    OrDefaultSpec(limitArg, 10);
  }

  lemma MulMono(a: int, b: int, c: int)
    requires a <= b && c >= 0
    ensures a * c <= b * c
  {
    assert b * c - a * c == (b - a) * c;
  }

  /**
   * With a positive limit every matching row lies on exactly one page
   * between 1 and `pages`.
   */
  lemma PageOfRow(total: nat, limit: int, t: int)
    requires limit >= 1 && 0 <= t < total
    ensures var p := t / limit + 1;
            1 <= p <= CeilDiv(total, limit) && Offset(p, limit) <= t < Offset(p, limit) + limit
    ensures forall q :: Offset(q, limit) <= t < Offset(q, limit) + limit ==> q == t / limit + 1
  {
    PageOfRowFits(total, limit, t);
    forall q | Offset(q, limit) <= t < Offset(q, limit) + limit ensures q == t / limit + 1 {
      PageOfRowUnique(limit, t, q);
    }
  }

  lemma PageOfRowFits(total: nat, limit: int, t: int)
    requires limit >= 1 && 0 <= t < total
    ensures var p := t / limit + 1;
            1 <= p <= CeilDiv(total, limit) && Offset(p, limit) <= t < Offset(p, limit) + limit
  {
    var q0, r := t / limit, t % limit;
    assert t == q0 * limit + r && 0 <= r < limit;
    assert Offset(q0 + 1, limit) == q0 * limit;
    assert q0 >= 0 by {
      if q0 < 0 {
        MulMono(q0, -1, limit);
      }
    }
    assert (q0 + 1) * limit == q0 * limit + limit;
    PageWithinPages(total, limit, q0);
  }

  lemma PageWithinPages(total: nat, limit: int, q0: int)
    requires limit >= 1 && q0 * limit < total
    ensures q0 + 1 <= CeilDiv(total, limit)
  {
    var pages := CeilDiv(total, limit);
    if pages < q0 + 1 {
      MulMono(pages, q0, limit);
    }
  }

  lemma PageOfRowUnique(limit: int, t: int, q: int)
    requires limit >= 1 && 0 <= t
    requires Offset(q, limit) <= t < Offset(q, limit) + limit
    ensures q == t / limit + 1
  {
    var q0, r := t / limit, t % limit;
    var p := q0 + 1;
    assert t == q0 * limit + r && 0 <= r < limit;
    assert Offset(p, limit) == q0 * limit;
    assert Offset(q, limit) + limit == q * limit;
    assert (q0 + 1) * limit == q0 * limit + limit;
    if q < p {
      MulMono(q, q0, limit);
    } else if q > p {
      MulMono(q0 + 1, q - 1, limit);
    }
  }

  // ---------------------------------------------------------------------
  // update

  /** The columns `update` may set. */
  const Updatable: set<string> := {"user_id", "category_id", "amount", "date", "description"}

  /** One own property of `expenseData`, in Object.keys order. */
  datatype Field = Field(key: string, value: Value)

  /** The UPDATE statement and its parameters. */
  datatype UpdateStatement = UpdateStatement(sql: string, params: seq<Value>)

  /** The fields of `data` that `update` keeps, in their order. */
  function Kept(data: seq<Field>): seq<Field>
  {
    if data == [] then []
    else
      var last := data[|data| - 1];
      Kept(data[..|data| - 1]) + (if last.key in Updatable then [last] else [])
  }

  /** `updates.join(", ")`. */
  function Join(parts: seq<string>, sep: string): string
  {
    if parts == [] then "" else if |parts| == 1 then parts[0] else parts[0] + sep + Join(parts[1..], sep)
  }

  function Assignments(fields: seq<Field>): seq<string>
  {
    seq(|fields|, i requires 0 <= i < |fields| => fields[i].key + " = ?")
  }

  function Values(fields: seq<Field>): seq<Value>
  {
    seq(|fields|, i requires 0 <= i < |fields| => fields[i].value)
  }

  /**
   * The message `update` rejects with when no key is whitelisted: the
   * "No valid fields to update" it throws, as its own `catch` rewraps it.
   */
  const NO_VALID_FIELDS := "Failed to update expense: No valid fields to update"

  /** What `update` sends to the database, or the error it rejects with. */
  function UpdateOf(data: seq<Field>, id: nat): Result<UpdateStatement, string>
  {
    var kept := Kept(data);
    if kept == [] then Err(NO_VALID_FIELDS)
    else Ok(UpdateStatement("UPDATE expenses SET " + Join(Assignments(kept), ", ") + " WHERE id = ?",
                            Values(kept) + [Num(id)]))
  }

  /**
   * The `forEach` over the keys: pushes `key = ?` and the value for every
   * whitelisted key, then refuses an empty SET list or appends the id.
   */
  method BuildUpdate(data: seq<Field>, id: nat) returns (r: Result<UpdateStatement, string>)
    ensures r == UpdateOf(data, id)
  {
    var updates: seq<string> := [];
    var params: seq<Value> := [];
    for i := 0 to |data|
      invariant updates == Assignments(Kept(data[..i]))
      invariant params == Values(Kept(data[..i]))
    {
      assert data[..i + 1][..i] == data[..i];
      var f := data[i];
      if f.key in Updatable {
        updates := updates + [f.key + " = ?"];
        params := params + [f.value];
      }
    }
    assert data[..|data|] == data;
    if |updates| == 0 {
      return Err(NO_VALID_FIELDS);
    }
    params := params + [Num(id)];
    r := Ok(UpdateStatement("UPDATE expenses SET " + Join(updates, ", ") + " WHERE id = ?", params));
  }

  /** Filtering distributes over concatenation, so the kept fields keep their input order. */
  lemma {:induction false} KeptConcat(a: seq<Field>, b: seq<Field>)
    ensures Kept(a + b) == Kept(a) + Kept(b)
  {
    if b == [] {
      assert a + b == a;
    } else {
      var p := b[..|b| - 1];
      assert (a + b)[..|a + b| - 1] == a + p;
      assert (a + b)[|a + b| - 1] == b[|b| - 1];
      KeptConcat(a, p);
    }
  }

  /** Exactly the whitelisted fields are kept. */
  lemma {:induction false} KeptMembers(data: seq<Field>)
    ensures forall f :: f in Kept(data) <==> f in data && f.key in Updatable
  {
    if data != [] {
      var p := data[..|data| - 1];
      KeptMembers(p);
      assert data == p + [data[|data| - 1]];
    }
  }

  /** Pushing one more assignment extends the SET list by the separator and that assignment. */
  lemma {:induction false} JoinSnoc(parts: seq<string>, p: string, sep: string)
    requires parts != []
    ensures Join(parts + [p], sep) == Join(parts, sep) + sep + p
    decreases |parts|
  {
    if |parts| == 1 {
      assert (parts + [p])[1..] == [p];
    } else {
      assert (parts + [p])[1..] == parts[1..] + [p];
      JoinSnoc(parts[1..], p, sep);
    }
  }

  /** The SET list of the kept fields: one `key = ?` per field, in order. */
  lemma AssignmentsSpec(fields: seq<Field>)
    ensures |Assignments(fields)| == |fields|
    ensures forall i :: 0 <= i < |fields| ==> Assignments(fields)[i] == fields[i].key + " = ?"
    ensures fields != [] ==>
            Join(Assignments(fields), ", ") ==
            Join(Assignments(fields[..|fields| - 1]), ", ") + (if |fields| == 1 then "" else ", ") + fields[|fields| - 1].key + " = ?"
  {
    if |fields| > 1 {
      var p := fields[..|fields| - 1];
      assert Assignments(fields) == Assignments(p) + [fields[|fields| - 1].key + " = ?"];
      JoinSnoc(Assignments(p), fields[|fields| - 1].key + " = ?", ", ");
    } else if |fields| == 1 {
      assert Assignments(fields[..0]) == [];
    }
  }

  /**
   * `update` rejects with "Failed to update expense: No valid fields to
   * update" exactly when no key is whitelisted; otherwise the SET list names
   * only whitelisted keys, one `key = ?` per kept field in input order, and
   * the parameters are their values followed by the expense's id.
   */
  lemma UpdateSpec(data: seq<Field>, id: nat)
    ensures UpdateOf(data, id) == Err(NO_VALID_FIELDS) <==> forall f :: f in data ==> f.key !in Updatable
    ensures UpdateOf(data, id).Ok? ==>
            var kept := Kept(data);
            && UpdateOf(data, id).value.sql == "UPDATE expenses SET " + Join(Assignments(kept), ", ") + " WHERE id = ?"
            && |Assignments(kept)| == |kept|
            && (forall i :: 0 <= i < |kept| ==> Assignments(kept)[i] == kept[i].key + " = ?")
            && UpdateOf(data, id).value.params == Values(kept) + [Num(id)]
            && (forall i :: 0 <= i < |kept| ==> kept[i].key in Updatable && kept[i] in data)
            && |UpdateOf(data, id).value.params| == |kept| + 1
  {
    KeptMembers(data);
    var kept := Kept(data);
    AssignmentsSpec(kept);
    if kept != [] {
      assert kept[0] in kept;
    }
    forall i | 0 <= i < |kept| ensures kept[i].key in Updatable && kept[i] in data {
      assert kept[i] in kept;
    }
  }
}
