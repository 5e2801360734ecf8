/**
 * The user-status helpers: status 1 is active, 2 inactive. The status
 * argument is any JavaScript value, compared with `===` as `switch` does.
 */
module StatusUtils {
  import opened JsValues

  const ACTIVE: int := 1
  const INACTIVE: int := 2

  /** `getStatusText`. */
  function GetStatusText(status: Value): string
  {
    if status == Num(ACTIVE) then "Active"
    else if status == Num(INACTIVE) then "Inactive"
    else "Unknown"
  }

  /** `getStatusTextLower`. */
  function GetStatusTextLower(status: Value): string
  {
    if status == Num(ACTIVE) then "active"
    else if status == Num(INACTIVE) then "inactive"
    else "unknown"
  }

  function LowerChar(c: char): char
  {
    if 'A' <= c <= 'Z' then (c as int + 32) as char else c
  }

  /** `toLowerCase` on the ASCII letters; other characters are left as they are. */
  function ToLower(s: string): (r: string)
    ensures |r| == |s|
    ensures forall i :: 0 <= i < |r| ==> !('A' <= r[i] <= 'Z')
    ensures forall i :: 0 <= i < |s| && !('A' <= s[i] <= 'Z') ==> r[i] == s[i]
    ensures forall i :: 0 <= i < |s| && 'A' <= s[i] <= 'Z' ==> r[i] as int == s[i] as int + 32
  {
    seq(|s|, i requires 0 <= i < |s| => LowerChar(s[i]))
  }

  /** `getStatusNumber`: "active" and "inactive" in any letter case; anything else counts as active. */
  function GetStatusNumber(text: string): (n: int)
    ensures n == ACTIVE || n == INACTIVE
    ensures n == INACTIVE <==> ToLower(text) == "inactive"
    ensures ToLower(text) != "inactive" ==> n == ACTIVE
  {
    var lower := ToLower(text);
    if lower == "active" then ACTIVE
    else if lower == "inactive" then INACTIVE
    else ACTIVE
  }

  /** `getStatusColor`: the badge classes of each status. */
  function GetStatusColor(status: Value): string
  {
    if status == Num(ACTIVE) then "text-green-600 bg-green-100"
    else if status == Num(INACTIVE) then "text-red-600 bg-red-100"
    else "text-gray-600 bg-gray-100"
  }

  /** `isUserActive`. */
  predicate IsUserActive(status: Value)
  {
    status == Num(ACTIVE)
  }

  /** The lower-case text is the text, lower-cased, for every status. */
  lemma TextLowerIsLowered(status: Value)
    ensures GetStatusTextLower(status) == ToLower(GetStatusText(status))
  {
    var t := GetStatusText(status);
    assert ToLower(t)[0] == LowerChar(t[0]);
  }

  /** Lower-casing twice is lower-casing once. */
  lemma ToLowerIdempotent(s: string)
    ensures ToLower(ToLower(s)) == ToLower(s)
  {
  }

  /** `getStatusNumber` ignores letter case. */
  lemma StatusNumberIgnoresCase(text: string)
    ensures GetStatusNumber(ToLower(text)) == GetStatusNumber(text)
  {
    ToLowerIdempotent(text);
  }

  /**
   * Text and number round-trip for the two known statuses, through either
   * spelling; an unknown status reads back as active.
   */
  lemma StatusRoundTrip(status: Value)
    ensures status == Num(ACTIVE) || status == Num(INACTIVE) ==>
              GetStatusNumber(GetStatusText(status)) == status.n &&
              GetStatusNumber(GetStatusTextLower(status)) == status.n
    ensures status != Num(ACTIVE) && status != Num(INACTIVE) ==>
              GetStatusNumber(GetStatusText(status)) == ACTIVE
  {
    TextLowerIsLowered(status);
    var t := GetStatusText(status);
    ToLowerIdempotent(t);
    if status != Num(ACTIVE) && status != Num(INACTIVE) {
      assert ToLower(t) == "unknown";
      assert "unknown" != "active" && "unknown" != "inactive" by {
        assert |"unknown"| != |"active"| && "unknown"[0] != "inactive"[0];
      }
    } else if status == Num(ACTIVE) {
      assert ToLower(t) == "active";
    } else {
      assert ToLower(t) == "inactive";
      assert "inactive" != "active";
    }
  }

  /** The text, the lower-case text and the colour each tell the three classes apart, and agree. */
  lemma StatusClassesAgree(a: Value, b: Value)
    ensures GetStatusText(a) == GetStatusText(b) <==> GetStatusTextLower(a) == GetStatusTextLower(b)
    ensures GetStatusText(a) == GetStatusText(b) <==> GetStatusColor(a) == GetStatusColor(b)
    ensures IsUserActive(a) <==> GetStatusText(a) == "Active"
  {
    assert "Active"[0] != "Inactive"[0] && "Active"[0] != "Unknown"[0] && "Inactive"[0] != "Unknown"[0];
    assert "active"[0] != "inactive"[0] && "active"[0] != "unknown"[0] && "inactive"[0] != "unknown"[0];
    assert "text-green-600 bg-green-100"[7] != "text-red-600 bg-red-100"[7];
    assert "text-green-600 bg-green-100"[7] != "text-gray-600 bg-gray-100"[7];
    assert "text-red-600 bg-red-100"[7] != "text-gray-600 bg-gray-100"[7];
  }
}
