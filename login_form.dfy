/** The login form: a player id and a password, checked before they are handed to the login handler. */
module LoginForm {
  import opened Wrappers
  import opened JsText
  import opened FormChecks

  const PasswordError := "Password is required."

  /** The check `handleSubmit` runs: the id first, then the password; the credentials passed on, or the first error. */
  function CheckLogin(playerId: string, password: string): (r: Result<(int, string), string>)
    ensures r.Ok? <==> PositiveNumber(playerId).Some? && !IsBlank(password)
    ensures r.Err? ==> r.error == if PositiveNumber(playerId).None? then PlayerIdError else PasswordError
    ensures r.Ok? ==> ParseInt(playerId) == Some(r.value.0) && r.value.0 > 0
    ensures r.Ok? ==> r.value.1 == password
  {
    match PositiveNumber(playerId)
    case None => Err(PlayerIdError)
    case Some(id) => if IsBlank(password) then Err(PasswordError) else Ok((id as int, password))
  }

  /** A password made only of white space is refused once the id is accepted. */
  lemma WhiteSpacePasswordRefused(playerId: string, password: string)
    requires PositiveNumber(playerId).Some? && AllWhiteSpace(password)
    ensures CheckLogin(playerId, password) == Err(PasswordError)
  {
  }

  class LoginFormState {
    var playerId: string
    var password: string
    var formError: Option<string>

    constructor ()
      ensures playerId == "" && password == "" && formError == None
    {
      playerId, password, formError := "", "", None;
    }

    method EditPlayerId(text: string)
      modifies this`playerId
      ensures playerId == text
    {
      playerId := text;
    }

    method EditPassword(text: string)
      modifies this`password
      ensures password == text
    {
      password := text;
    }

    /** `handleSubmit`: returns the arguments `onLogin` is called with, or nothing when a check fails. */
    method HandleSubmit() returns (login: Option<(int, string)>)
      modifies this`formError
      ensures CheckLogin(playerId, password).Ok? ==> formError == None && login == Some(CheckLogin(playerId, password).value)
      ensures CheckLogin(playerId, password).Err? ==> formError == Some(CheckLogin(playerId, password).error) && login == None
    {
      formError := None;
      var pId := ParseInt(playerId);
      if pId.None? || pId.value <= 0 {
        formError := Some(PlayerIdError);
        return None;
      }
      if IsBlank(password) {
        formError := Some(PasswordError);
        return None;
      }
      login := Some((pId.value, password));
    }
  }
}
