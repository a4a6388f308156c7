/** The signup form: a name and a phone number posted to the signup endpoint, which answers with a new player id. */
module Signup {
  import opened Wrappers
  import opened JsText
  import opened JsValue
  import opened Types

  const NameError := "Name is required."
  const PhoneError := "Phone number is required."
  const SignupFailed := "Signup failed. Please try again."
  const NoPlayerId := "Could not retrieve player ID."

  /** The field check: the name first, then the phone number; `None` when both are filled in. */
  function CheckFields(name: string, phoneNumber: string): (r: Option<string>)
    ensures r.None? <==> !IsBlank(name) && !IsBlank(phoneNumber)
    ensures IsBlank(name) ==> r == Some(NameError)
    ensures !IsBlank(name) && IsBlank(phoneNumber) ==> r == Some(PhoneError)
  {
    if IsBlank(name) then Some(NameError)
    else if IsBlank(phoneNumber) then Some(PhoneError)
    else None
  }

  /** The request body: `{ name, phone_number }`, the texts as typed. */
  function SignupRequest(name: string, phoneNumber: string): (body: Value)
    ensures body.Obj? && |Keys(body)| == 2 && Keys(body)[0] == "name" && Keys(body)[1] == "phone_number"
    ensures Get(body, "name") == Str(name) && Get(body, "phone_number") == Str(phoneNumber)
  {
    var body := Obj([("name", Str(name)), ("phone_number", Str(phoneNumber))]);
    assert OwnEntries(body) == body.fields;
    body
  }

  /** The reply is accepted only when the response is ok and its body's `status` is the string `"OK"`. */
  predicate Accepted(reply: Reply)
    ensures Accepted(reply) ==> reply.Answered? && reply.ok && !IsNullish(reply.body)
    ensures Accepted(reply) ==> Get(reply.body, "status") == Str("OK")
  {
    reply.Answered? && reply.ok && !IsNullish(reply.body) && Get(reply.body, "status") == Str("OK")
  }

  /** How the reply is judged: the player id handed to `onSignupSuccess`, or the error text shown. */
  function SignupOutcome(reply: Reply): (r: Result<Value, string>)
    ensures r.Ok? <==> Accepted(reply) && Truthy(Get(reply.body, "player_id"))
    ensures r.Ok? ==> r.value == Get(reply.body, "player_id")
    ensures Accepted(reply) && !Truthy(Get(reply.body, "player_id")) ==> r == Err(NoPlayerId)
    ensures reply.Thrown? ==> r == Err(reply.message)
  {
    match reply
    case Thrown(message) => Err(message)
    case Answered(ok, _, data) =>
      if !ok then
        if IsNullish(data) then Err(NullReadMessage(data, "message"))
        else Err(ToStr(Or(Get(data, "message"), Str(SignupFailed))))
      else if IsNullish(data) then Err(NullReadMessage(data, "status"))
      else if Get(data, "status") != Str("OK") then Err(ToStr(Or(Get(data, "message"), Str(SignupFailed))))
      else if Truthy(Get(data, "player_id")) then Ok(Get(data, "player_id"))
      else Err(NoPlayerId)
  }

  /** A refusal (a failed status, or a status other than `"OK"`) shows the body's message, or the stock text without one. */
  lemma RefusalMessage(reply: Reply)
    requires reply.Answered? && !IsNullish(reply.body)
    requires !reply.ok || Get(reply.body, "status") != Str("OK")
    ensures Truthy(Get(reply.body, "message")) ==> SignupOutcome(reply) == Err(ToStr(Get(reply.body, "message")))
    ensures !Truthy(Get(reply.body, "message")) ==> SignupOutcome(reply) == Err(SignupFailed)
  {
  }

  class SignupState {
    var name: string
    var phoneNumber: string
    var loading: bool
    var error: Option<string>

    constructor ()
      ensures name == "" && phoneNumber == "" && !loading && error == None
    {
      name, phoneNumber, loading, error := "", "", false, None;
    }

    method EditName(text: string)
      modifies this`name
      ensures name == text
    {
      name := text;
    }

    method EditPhoneNumber(text: string)
      modifies this`phoneNumber
      ensures phoneNumber == text
    {
      phoneNumber := text;
    }

    /**
     * `handleSubmit`, with `reply` standing for what the endpoint answers. Returns the
     * request body sent (none when a field is missing) and the id `onSignupSuccess` receives.
     */
    method HandleSubmit(reply: Reply) returns (request: Option<Value>, signedUp: Option<Value>)
      modifies this`loading, this`error
      ensures CheckFields(name, phoneNumber).Some? ==>
        && error == CheckFields(name, phoneNumber) && loading == old(loading)
        && request == None && signedUp == None
      ensures CheckFields(name, phoneNumber).None? ==>
        && request == Some(SignupRequest(name, phoneNumber)) && !loading
        && (SignupOutcome(reply).Ok? ==> signedUp == Some(SignupOutcome(reply).value) && error == None)
        && (SignupOutcome(reply).Err? ==> signedUp == None && error == Some(SignupOutcome(reply).error))
    {
      error := None;
      signedUp := None;
      if IsBlank(name) {
        error := Some(NameError);
        return None, None;
      }
      if IsBlank(phoneNumber) {
        error := Some(PhoneError);
        return None, None;
      }
      loading := true;
      request := Some(SignupRequest(name, phoneNumber));
      match SignupOutcome(reply) {
        case Ok(playerId) => signedUp := Some(playerId);
        case Err(message) => error := Some(message);
      }
      loading := false;
    }
  }
}
