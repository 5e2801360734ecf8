/**
 * The expense form's amount field: the `onInput` handler that cuts the
 * typed text to two decimals, and the `validate` rule that rejects more
 * than two. Both work on the text of the amount through `split(".")`.
 */
module ExpenseForm {
  import opened Wrappers

  /** The position of the first `c` in `s`. */
  function IndexOf(s: string, c: char): (i: nat)
    requires c in s
    ensures i < |s| && s[i] == c && c !in s[..i]
  {
    if s[0] == c then 0
    else
      var i := IndexOf(s[1..], c);
      assert s[..i + 1] == [s[0]] + s[1..][..i];
      i + 1
  }

  /** `s.split(sep)` for a one-character separator. */
  function Split(s: string, sep: char): (parts: seq<string>)
    ensures |parts| >= 1
    ensures |parts| == 1 <==> sep !in s
    ensures forall k :: 0 <= k < |parts| ==> sep !in parts[k]
    decreases |s|
  {
    if sep !in s then [s]
    else
      var i := IndexOf(s, sep);
      [s[..i]] + Split(s[i + 1..], sep)
  }

  /** `parts.join(sep)`. */
  function Join(parts: seq<string>, sep: char): string
    requires |parts| >= 1
  {
    if |parts| == 1 then parts[0] else parts[0] + [sep] + Join(parts[1..], sep)
  }

  /** Splitting loses nothing: joining the parts back gives the text. */
  lemma {:induction false} SplitJoin(s: string, sep: char)
    ensures Join(Split(s, sep), sep) == s
    decreases |s|
  {
    if sep in s {
      var i := IndexOf(s, sep);
      var rest := Split(s[i + 1..], sep);
      var parts := [s[..i]] + rest;
      assert Split(s, sep) == parts;
      assert parts[0] == s[..i] && parts[1..] == rest;
      assert Join(parts, sep) == s[..i] + [sep] + Join(rest, sep);
      SplitJoin(s[i + 1..], sep);
      SplitAround(s, i);
    }
  }

  /** A text is what comes before position `i`, the character there and what follows. */
  lemma SplitAround(s: string, i: nat)
    requires i < |s|
    ensures s == s[..i] + [s[i]] + s[i + 1..]
  {
  }

  /** A text without the separator followed by the separator splits there. */
  lemma SplitAfter(a: string, sep: char, b: string)
    requires sep !in a
    ensures Split(a + [sep] + b, sep) == [a] + Split(b, sep)
  {
    var s := a + [sep] + b;
    assert s[|a|] == sep;
    var i := IndexOf(s, sep);
    assert forall j :: 0 <= j < i ==> s[j] != sep by {
      forall j | 0 <= j < i ensures s[j] != sep {
        assert s[j] == s[..i][j];
      }
    }
    assert forall j :: 0 <= j < |a| ==> s[j] != sep by {
      forall j | 0 <= j < |a| ensures s[j] != sep {
        assert s[j] == a[j];
      }
    }
    assert i == |a|;
    assert s[..i] == a && s[i + 1..] == b;
  }

  /** The digits after the point: `value.split(".")[1]`, for a text with a point. */
  function Decimals(value: string): string
    requires '.' in value
  {
    Split(value, '.')[1]
  }

  /** The digits before the point: `value.split(".")[0]`. */
  function Whole(value: string): string
  {
    Split(value, '.')[0]
  }

  /**
   * `onInput`: a text with a point whose decimals run past two characters
   * becomes the whole part, a point and the first two decimals; anything
   * after a second point goes with them.
   */
  function TruncateDecimals(value: string): string
  {
    if '.' in value then
      var parts := Split(value, '.');
      if parts[1] != "" && |parts[1]| > 2 then parts[0] + "." + parts[1][..2] else value
    else value
  }

  /** The outcome of `validate`: `true`, or the message shown. */
  datatype Validation = Accepted | Rejected(message: string)

  /**
   * `validate` on the amount. The form passes the value as a number; `text`
   * is its `toString()`, or None for the falsy numbers 0 and NaN.
   */
  function Validate(text: Option<string>): Validation
  {
    if text.Some? && '.' in text.value then
      var decimalPart := Split(text.value, '.')[1];
      if decimalPart != "" && |decimalPart| > 2 then Rejected("Amount can have maximum 2 decimal places") else Accepted
    else Accepted
  }

  /** `validate` rejects exactly the texts whose decimals run past two characters. */
  lemma ValidateSpec(text: Option<string>)
    ensures Validate(text) != Accepted <==> text.Some? && '.' in text.value && |Decimals(text.value)| > 2
    ensures Validate(text) != Accepted ==> Validate(text) == Rejected("Amount can have maximum 2 decimal places")
  {
  }

  /**
   * Truncation leaves a text without a point, or with at most two decimals,
   * alone; otherwise it keeps the whole part and the first two decimals.
   */
  lemma TruncateSpec(value: string)
    ensures '.' !in value ==> TruncateDecimals(value) == value
    ensures '.' in value && |Decimals(value)| <= 2 ==> TruncateDecimals(value) == value
    ensures Whole(TruncateDecimals(value)) == Whole(value)
    ensures '.' in value ==> '.' in TruncateDecimals(value) && |Decimals(TruncateDecimals(value))| <= 2
    ensures '.' in value && |Decimals(value)| > 2 ==> Decimals(TruncateDecimals(value)) == Decimals(value)[..2]
    ensures '.' in value && |Decimals(value)| > 2 ==>
              Split(TruncateDecimals(value), '.') == [Whole(value), Decimals(value)[..2]]
  {
    if '.' in value {
      var parts := Split(value, '.');
      if |parts[1]| > 2 {
        var cut := parts[1][..2];
        assert '.' !in cut by {
          assert forall c :: c in cut ==> c in parts[1];
        }
        SplitAfter(parts[0], '.', cut);
        assert parts[0] + "." + cut == parts[0] + ['.'] + cut;
        assert Split(cut, '.') == [cut];
      }
    }
  }

  /** Truncating twice is truncating once. */
  lemma TruncateIdempotent(value: string)
    ensures TruncateDecimals(TruncateDecimals(value)) == TruncateDecimals(value)
  {
    TruncateSpec(value);
    TruncateSpec(TruncateDecimals(value));
  }

  /** A truncated text always passes `validate`. */
  lemma TruncatedIsValid(value: string)
    ensures Validate(Some(TruncateDecimals(value))) == Accepted
  {
    TruncateSpec(value);
  }
}
