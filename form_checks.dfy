/** The player-id check the login, account and order forms share. */
module FormChecks {
  import opened Wrappers
  import opened JsText

  const PlayerIdError := "Player ID must be a positive number."

  /** `parseInt(text, 10)` when that is a positive number; `isNaN(n) || n <= 0` rejects everything else. */
  function PositiveNumber(text: string): (r: Option<nat>)
    ensures r.Some? <==> ParseInt(text).Some? && ParseInt(text).value > 0
    ensures r.Some? ==> r.value > 0 && ParseInt(text) == Some(r.value as int)
  {
    match ParseInt(text)
    case None => None
    case Some(n) => if n <= 0 then None else Some(n)
  }

  /**
   * A number's own `toString()` text, followed by anything that does not start with a
   * digit, passes the check exactly when the number is positive, and yields that number.
   */
  lemma PositiveNumberOfIntToString(n: int, rest: string)
    requires rest == "" || !IsDigit(rest[0])
    ensures PositiveNumber(IntToString(n) + rest) == if n > 0 then Some(n) else None
  {
    ParseIntOfIntToString(n, rest);
  }

  /** A `loggedInPlayerId` prop that is present and truthy (not `undefined`, not `0`). */
  predicate IdGiven(id: Option<int>) {
    id.Some? && id.value != 0
  }

  /** The text an id field is filled with from a `loggedInPlayerId` prop: its `toString()`, or empty. */
  function IdFieldText(loggedInPlayerId: Option<int>): (text: string)
    ensures IdGiven(loggedInPlayerId) ==> ParseInt(text) == Some(loggedInPlayerId.value)
    ensures !IdGiven(loggedInPlayerId) ==> text == ""
  {
    if IdGiven(loggedInPlayerId) then
      var text := IntToString(loggedInPlayerId.value);
      ParseIntOfIntToString(loggedInPlayerId.value, "");
      assert text + "" == text;
      text
    else ""
  }
}
