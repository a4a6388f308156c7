/** The account tab's form: asks for the account summary of a player id. */
module AccountForm {
  import opened Wrappers
  import opened JsText
  import opened Types
  import opened FormChecks

  /** The request `handleSubmit` sends for the id text, or the error it shows. */
  function CheckAccountRequest(playerId: string): (r: Result<TransactionPayload, string>)
    ensures r.Ok? <==> PositiveNumber(playerId).Some?
    ensures r.Err? ==> r.error == PlayerIdError
    ensures r.Ok? ==> ParseInt(playerId) == Some(r.value.playerId) && r.value.playerId > 0
    ensures r.Ok? ==> r.value.transactionType == DisplayAccount
    ensures r.Ok? ==> r.value.password.None? && r.value.symbol.None? && r.value.quantity.None?
  {
    match PositiveNumber(playerId)
    case None => Err(PlayerIdError)
    case Some(id) => Ok(TransactionPayload(id, None, None, None, DisplayAccount))
  }

  /** The id a logged-in player's form is filled with is requested back unchanged (when it is positive). */
  lemma FilledIdIsRequested(n: int)
    ensures CheckAccountRequest(IntToString(n))
      == if n > 0 then Ok(TransactionPayload(n, None, None, None, DisplayAccount)) else Err(PlayerIdError)
  {
    PositiveNumberOfIntToString(n, "");
    assert IntToString(n) + "" == IntToString(n);
  }

  class AccountFormState {
    var playerId: string
    var formError: Option<string>
    // the prop the form was last given
    var loggedInPlayerId: Option<int>

    /** The id field, hidden while a player id is passed in, holds that id's text. */
    predicate Valid()
      reads this
    {
      IdGiven(loggedInPlayerId) ==> playerId == IdFieldText(loggedInPlayerId)
    }

    constructor (loggedInPlayerId: Option<int>)
      ensures Valid()
      ensures playerId == IdFieldText(loggedInPlayerId) && formError == None
      ensures this.loggedInPlayerId == loggedInPlayerId
    {
      playerId := IdFieldText(loggedInPlayerId);
      formError := None;
      this.loggedInPlayerId := loggedInPlayerId;
    }

    /** The effect run when `loggedInPlayerId` changes: a truthy id overwrites the field, anything else leaves it. */
    method LoggedInPlayerIdChanged(newId: Option<int>)
      requires Valid()
      modifies this`playerId, this`loggedInPlayerId
      ensures Valid()
      ensures loggedInPlayerId == newId
      ensures IdGiven(newId) ==> playerId == IntToString(newId.value)
      ensures !IdGiven(newId) ==> playerId == old(playerId)
    {
      loggedInPlayerId := newId;
      if IdGiven(newId) {
        playerId := IntToString(newId.value);
      }
    }

    /** Typing in the id field, which is shown only while no player id is passed in. */
    method EditPlayerId(text: string)
      requires Valid() && !IdGiven(loggedInPlayerId)
      modifies this`playerId
      ensures Valid()
      ensures playerId == text
    {
      playerId := text;
    }

    /**
     * `handleSubmit`: returns the request passed to `onSubmit`, or nothing when the id is
     * refused. A form given a positive player id always requests that player's account.
     */
    method HandleSubmit() returns (submitted: Option<TransactionPayload>)
      requires Valid()
      modifies this`formError
      ensures Valid()
      ensures CheckAccountRequest(playerId).Ok? ==> formError == None && submitted == Some(CheckAccountRequest(playerId).value)
      ensures CheckAccountRequest(playerId).Err? ==> formError == Some(PlayerIdError) && submitted == None
      ensures IdGiven(loggedInPlayerId) && loggedInPlayerId.value > 0 ==>
        submitted == Some(TransactionPayload(loggedInPlayerId.value, None, None, None, DisplayAccount))
      ensures IdGiven(loggedInPlayerId) && loggedInPlayerId.value < 0 ==> submitted == None
    {
      if IdGiven(loggedInPlayerId) {
        FilledIdIsRequested(loggedInPlayerId.value);
      }
      formError := None;
      var pId := ParseInt(playerId);
      if pId.None? || pId.value <= 0 {
        formError := Some(PlayerIdError);
        return None;
      }
      submitted := Some(TransactionPayload(pId.value, None, None, None, DisplayAccount));
    }
  }
}
