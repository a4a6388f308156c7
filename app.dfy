/**
 * The application shell: the session (who is logged in, with which password), the
 * active tab, the last result or error of the main view, and the trade dialog with a
 * result and error of its own. Each handler runs to completion on the reply it is given.
 */
module App {
  import opened Wrappers
  import opened JsText
  import opened JsValue
  import opened Types
  import FormChecks
  import StocksView
  import TransactionResult

  datatype Tab = AccountTab | StocksTab

  const LoginRefused := "Login failed. Please check credentials."
  const SubmitRefused := "Operation failed. Please check the input and try again."
  const ModalRefused := "Operation failed."
  const ModalSucceeded := "Transaction processed successfully!"

  /** The confirmation shown for a successful request when the reply carries no message of its own. */
  function TabMessage(tab: Tab): (m: string)
    ensures m != "" && m != ModalSucceeded
  {
    match tab
    case AccountTab => "Account details retrieved."
    case StocksTab => "Stock data retrieved."
  }

  /** The two tabs confirm with different texts. */
  lemma TabMessagesDiffer()
    ensures TabMessage(AccountTab) != TabMessage(StocksTab)
  {
    assert TabMessage(AccountTab)[0] != TabMessage(StocksTab)[0];
  }

  /** `success === true || success === 'true'`: the only flags a login accepts. */
  predicate AcceptsLogin(flag: Value)
    ensures AcceptsLogin(flag) ==> Truthy(flag)
    ensures flag.Bool? ==> (AcceptsLogin(flag) <==> Truthy(flag))
  {
    flag == Bool(true) || flag == Str("true")
  }

  /** `success === false || success === 'false'`: the only flags a request is refused for. */
  predicate RefusesRequest(flag: Value)
    ensures RefusesRequest(flag) ==> !AcceptsLogin(flag)
    ensures flag.Bool? ==> (RefusesRequest(flag) <==> !Truthy(flag))
    ensures flag == Str("false") ==> RefusesRequest(flag) && Truthy(flag)
  {
    flag == Bool(false) || flag == Str("false")
  }

  /** The login reply's body: its first element when it is a non-empty array, otherwise itself. */
  function LoginBody(raw: Value): (body: Value)
    ensures raw.Arr? && |raw.items| > 0 ==> body == raw.items[0]
    ensures !(raw.Arr? && |raw.items| > 0) ==> body == raw
  {
    if raw.Arr? && |raw.items| > 0 then raw.items[0] else raw
  }

  /** How `handleLogin` judges a reply: `None` when the credentials are accepted, otherwise the error text it shows. */
  function LoginError(reply: Reply): (r: Option<string>)
    ensures r.None? <==>
      reply.Answered? && reply.ok && !IsNullish(LoginBody(reply.body)) && AcceptsLogin(Get(LoginBody(reply.body), "success"))
    ensures reply.Thrown? ==> r == Some(reply.message)
  {
    match reply
    case Thrown(message) => Some(message)
    case Answered(ok, status, raw) =>
      var body := LoginBody(raw);
      if !ok then
        if IsNullish(body) then Some(NullReadMessage(body, "message"))
        else Some(ToStr(Or(Get(body, "message"), Or(Get(body, "error"), Str("Login failed with status " + IntToString(status))))))
      else if IsNullish(body) then Some(NullReadMessage(body, "success"))
      else if AcceptsLogin(Get(body, "success")) then None
      else Some(ToStr(Or(Get(body, "message"), Str(LoginRefused))))
  }

  /** A failed status shows the body's `message`, else its `error`, else the status line. */
  lemma LoginStatusFailureMessage(status: int, raw: Value)
    requires !IsNullish(LoginBody(raw))
    ensures var body := LoginBody(raw);
      && (Truthy(Get(body, "message")) ==> LoginError(Answered(false, status, raw)) == Some(ToStr(Get(body, "message"))))
      && (!Truthy(Get(body, "message")) && Truthy(Get(body, "error")) ==>
            LoginError(Answered(false, status, raw)) == Some(ToStr(Get(body, "error"))))
      && (!Truthy(Get(body, "message")) && !Truthy(Get(body, "error")) ==>
            LoginError(Answered(false, status, raw)) == Some("Login failed with status " + IntToString(status)))
  {
  }

  /** A refused login shows the body's `message`, or the stock text without one. */
  lemma LoginRefusalMessage(status: int, raw: Value)
    requires !IsNullish(LoginBody(raw)) && !AcceptsLogin(Get(LoginBody(raw), "success"))
    ensures Truthy(Get(LoginBody(raw), "message")) ==>
      LoginError(Answered(true, status, raw)) == Some(ToStr(Get(LoginBody(raw), "message")))
    ensures !Truthy(Get(LoginBody(raw), "message")) ==> LoginError(Answered(true, status, raw)) == Some(LoginRefused)
  {
  }

  /** A reply wrapped in an array, as in `[{"success": "true"}]`, is judged by its first element alone. */
  lemma LoginReadsFirstElement(ok: bool, status: int, first: Value, rest: seq<Value>)
    requires !(first.Arr? && |first.items| > 0)
    ensures LoginError(Answered(ok, status, Arr([first] + rest))) == LoginError(Answered(ok, status, first))
  {
  }

  /**
   * How `handleSubmit` and `handleModalSubmit` judge a reply: the result they store, or
   * the error text; `succeeded` and `refused` are their texts for a reply without a message.
   */
  function SubmitOutcome(reply: Reply, succeeded: string, refused: string): (r: Result<ApiResponse, string>)
    ensures reply.Thrown? ==> r == Err(reply.message)
    ensures reply.Answered? && !reply.ok ==> r.Err?
    ensures reply.Answered? && reply.ok && !IsNullish(reply.body) ==>
      (r.Err? <==> Truthy(reply.body) && RefusesRequest(Get(reply.body, "success")))
    ensures r.Ok? ==> reply.Answered? && !IsNullish(reply.body)
    ensures r.Ok? ==> r.value.success == Bool(true) && r.value.data == reply.body
    ensures r.Ok? && Truthy(Get(reply.body, "message")) ==> r.value.message == Get(reply.body, "message")
    ensures r.Ok? && !Truthy(Get(reply.body, "message")) ==> r.value.message == Str(succeeded)
  {
    match reply
    case Thrown(message) => Err(message)
    case Answered(ok, status, body) =>
      if !ok then
        if IsNullish(body) then Err(NullReadMessage(body, "error"))
        else Err(ToStr(Or(Get(body, "error"), Or(Get(body, "message"), Str("Request failed with status " + IntToString(status))))))
      else if Truthy(body) && RefusesRequest(Get(body, "success")) then
        Err(ToStr(Or(Get(body, "message"), Str(refused))))
      else if IsNullish(body) then Err(NullReadMessage(body, "message"))
      else Ok(ApiResponse(Bool(true), Or(Get(body, "message"), Str(succeeded)), Undefined, body))
  }

  /** A failed status shows the body's `error`, else its `message`, else the status line: the reverse of login's order. */
  lemma SubmitStatusFailureMessage(status: int, body: Value, succeeded: string, refused: string)
    requires !IsNullish(body)
    ensures var r := SubmitOutcome(Answered(false, status, body), succeeded, refused);
      && (Truthy(Get(body, "error")) ==> r == Err(ToStr(Get(body, "error"))))
      && (!Truthy(Get(body, "error")) && Truthy(Get(body, "message")) ==> r == Err(ToStr(Get(body, "message"))))
      && (!Truthy(Get(body, "error")) && !Truthy(Get(body, "message")) ==>
            r == Err("Request failed with status " + IntToString(status)))
  {
  }

  /**
   * An ok reply that explicitly refuses shows the body's `message`, or the handler's own
   * text without one: `SubmitRefused` on the tabs, `ModalRefused` in the trade dialog.
   */
  lemma SubmitRefusalMessage(status: int, body: Value, succeeded: string, refused: string)
    requires Truthy(body) && RefusesRequest(Get(body, "success"))
    ensures SubmitOutcome(Answered(true, status, body), succeeded, refused)
      == Err(if Truthy(Get(body, "message")) then ToStr(Get(body, "message")) else refused)
  {
  }

  /**
   * The two handlers read `success` differently: an ok reply whose body has no `success`
   * key fails a login but counts as a successful request.
   */
  lemma MissingSuccessFlag(status: int, fields: seq<(string, Value)>, succeeded: string, refused: string)
    requires !HasKey(Obj(fields), "success")
    ensures LoginError(Answered(true, status, Obj(fields))).Some?
    ensures SubmitOutcome(Answered(true, status, Obj(fields)), succeeded, refused).Ok?
  {
  }

  /** The request actually sent: the form's fields, with the stored password added when logged in with a non-empty one. */
  function WithPassword(form: TransactionPayload, isLoggedIn: bool, stored: Option<string>): (p: TransactionPayload)
    ensures isLoggedIn && stored.Some? && stored.value != "" ==> p == form.(password := stored)
    ensures !(isLoggedIn && stored.Some? && stored.value != "") ==> p == form
  {
    if isLoggedIn && stored.Some? && stored.value != "" then form.(password := stored) else form
  }

  /** `loggedInPlayerId || undefined`: the id prop the forms are given. */
  function PlayerIdProp(loggedInPlayerId: Option<int>): (r: Option<int>)
    ensures FormChecks.IdGiven(r) <==> FormChecks.IdGiven(loggedInPlayerId)
    ensures r.Some? ==> r == loggedInPlayerId
  {
    if FormChecks.IdGiven(loggedInPlayerId) then loggedInPlayerId else None
  }

  /** After logging in as `id` with password `pw`, "Get Live Stock Data" asks for `id`'s data and carries `pw`. */
  lemma StocksRequestAfterLogin(id: int, pw: string)
    requires id != 0 && pw != ""
    ensures StocksView.GetStocksRequest(PlayerIdProp(Some(id))).Some?
    ensures WithPassword(StocksView.GetStocksRequest(PlayerIdProp(Some(id))).value, true, Some(pw))
      == TransactionPayload(id, Some(pw), None, None, GetStocks)
  {
  }

  /** The trade dialog shows every successful trade as a confirmation, unless its message is an object React cannot show. */
  lemma ModalConfirmsSuccess(reply: Reply, parse: string -> Option<Value>)
    requires SubmitOutcome(reply, ModalSucceeded, ModalRefused).Ok?
    ensures var result := SubmitOutcome(reply, ModalSucceeded, ModalRefused).value;
      TransactionResult.Render(false, None, Some(result), true, false, parse)
        == if TransactionResult.Renderable(result.message) then TransactionResult.Confirmation(result.message)
           else TransactionResult.RenderError
  {
    var result := SubmitOutcome(reply, ModalSucceeded, ModalRefused).value;
    TransactionResult.SimpleViewConfirms(None, result, false, parse);
  }

  class AppState {
    // session
    var isLoggedIn: bool
    var loggedInPlayerId: Option<int>
    var loggedInPassword: Option<string>
    // main view
    var activeTab: Tab
    var loading: bool
    var error: Option<string>
    var result: Option<ApiResponse>
    // trade dialog
    var tradeModalOpen: bool
    var selectedSymbol: string
    var modalLoading: bool
    var modalError: Option<string>
    var modalResult: Option<ApiResponse>

    /** A player id and a password are stored exactly while someone is logged in. */
    predicate Valid()
      reads this
    {
      (isLoggedIn <==> loggedInPlayerId.Some?) && (isLoggedIn <==> loggedInPassword.Some?)
    }

    constructor ()
      ensures Valid()
      ensures !isLoggedIn && loggedInPlayerId == None && loggedInPassword == None
      ensures activeTab == AccountTab && !loading && error == None && result == None
      ensures !tradeModalOpen && selectedSymbol == "" && !modalLoading && modalError == None && modalResult == None
    {
      isLoggedIn, loggedInPlayerId, loggedInPassword := false, None, None;
      activeTab, loading, error, result := AccountTab, false, None, None;
      tradeModalOpen, selectedSymbol := false, "";
      modalLoading, modalError, modalResult := false, None, None;
    }

    /** What the main view shows (with symbol cells clickable). */
    function MainView(parse: string -> Option<Value>): (v: TransactionResult.View)
      reads this
      ensures loading ==> v == TransactionResult.Spinner
      ensures !loading && TransactionResult.ShowsError(error) ==> v == TransactionResult.ErrorBanner(error.value)
      ensures v == TransactionResult.Nothing <==> !loading && !TransactionResult.ShowsError(error) && !TransactionResult.Succeeded(result)
    {
      TransactionResult.Render(loading, error, result, false, true, parse)
    }

    /** What the trade dialog shows (the simple view, nothing clickable). */
    function ModalView(parse: string -> Option<Value>): (v: TransactionResult.View)
      reads this
      ensures modalLoading ==> v == TransactionResult.Spinner
      ensures !v.AccountSummary? && !v.MarketTable?
      ensures v.Confirmation? ==> modalResult.Some? && v.message == modalResult.value.message
    {
      TransactionResult.Render(modalLoading, modalError, modalResult, true, false, parse)
    }

    /** `handleLogin`, with `reply` standing for the webhook's answer; returns the request sent. */
    method HandleLogin(playerId: int, password: string, reply: Reply) returns (sent: TransactionPayload)
      requires Valid()
      modifies this`loading, this`error, this`isLoggedIn, this`loggedInPlayerId, this`loggedInPassword, this`result
      ensures Valid()
      ensures sent == TransactionPayload(playerId, Some(password), None, None, Login)
      ensures !loading
      ensures LoginError(reply).None? ==>
        && isLoggedIn && loggedInPlayerId == Some(playerId) && loggedInPassword == Some(password)
        && result == None && error == None
      ensures LoginError(reply).Some? ==>
        && isLoggedIn == old(isLoggedIn) && loggedInPlayerId == old(loggedInPlayerId)
        && loggedInPassword == old(loggedInPassword) && result == old(result)
        && error == LoginError(reply)
    {
      loading := true;
      error := None;
      sent := TransactionPayload(playerId, Some(password), None, None, Login);
      match LoginError(reply) {
        case None =>
          loggedInPlayerId := Some(playerId);
          loggedInPassword := Some(password);
          result := None;
          isLoggedIn := true;
        case Some(message) =>
          error := Some(message);
      }
      loading := false;
    }

    /** `handleSubmit` for the account and stocks tabs; returns the request sent. */
    method HandleSubmit(formData: TransactionPayload, reply: Reply) returns (sent: TransactionPayload)
      requires Valid()
      modifies this`loading, this`error, this`result
      ensures Valid()
      ensures sent == WithPassword(formData, isLoggedIn, loggedInPassword)
      ensures !loading
      ensures var outcome := SubmitOutcome(reply, TabMessage(activeTab), SubmitRefused);
        && (outcome.Ok? ==> result == Some(outcome.value) && error == None)
        && (outcome.Err? ==> result == None && error == Some(outcome.error))
    {
      loading := true;
      error := None;
      result := None;
      sent := WithPassword(formData, isLoggedIn, loggedInPassword);
      match SubmitOutcome(reply, TabMessage(activeTab), SubmitRefused) {
        case Ok(response) =>
          result := Some(response);
        case Err(message) =>
          error := Some(message);
          result := None;
      }
      loading := false;
    }

    /** `handleModalSubmit`: the same exchange, recorded only in the dialog's own fields. */
    method HandleModalSubmit(formData: TransactionPayload, reply: Reply) returns (sent: TransactionPayload)
      requires Valid()
      modifies this`modalLoading, this`modalError, this`modalResult
      ensures Valid()
      ensures sent == WithPassword(formData, isLoggedIn, loggedInPassword)
      ensures !modalLoading
      ensures var outcome := SubmitOutcome(reply, ModalSucceeded, ModalRefused);
        && (outcome.Ok? ==> modalResult == Some(outcome.value) && modalError == None)
        && (outcome.Err? ==> modalResult == None && modalError == Some(outcome.error))
    {
      modalLoading := true;
      modalError := None;
      modalResult := None;
      sent := WithPassword(formData, isLoggedIn, loggedInPassword);
      match SubmitOutcome(reply, ModalSucceeded, ModalRefused) {
        case Ok(response) =>
          modalResult := Some(response);
        case Err(message) =>
          modalError := Some(message);
      }
      modalLoading := false;
    }

    /** `closeModal`. */
    method CloseModal()
      requires Valid()
      modifies this`tradeModalOpen, this`modalResult, this`modalError, this`modalLoading
      ensures Valid()
      ensures !tradeModalOpen && modalResult == None && modalError == None && !modalLoading
    {
      tradeModalOpen := false;
      modalResult := None;
      modalError := None;
      modalLoading := false;
    }

    /** `handleLogout`: forgets the session and the main view's result; the trade dialog is left as it is. */
    method HandleLogout()
      requires Valid()
      modifies this`isLoggedIn, this`loggedInPlayerId, this`loggedInPassword, this`result, this`error, this`activeTab
      ensures Valid()
      ensures !isLoggedIn && loggedInPlayerId == None && loggedInPassword == None
      ensures result == None && error == None && activeTab == AccountTab
    {
      isLoggedIn := false;
      loggedInPlayerId := None;
      loggedInPassword := None;
      result := None;
      error := None;
      activeTab := AccountTab;
    }

    /** `handleStockClick`: opens a fresh trade dialog for the clicked symbol. */
    method HandleStockClick(symbol: string)
      requires Valid()
      modifies this`selectedSymbol, this`tradeModalOpen, this`modalResult, this`modalError
      ensures Valid()
      ensures selectedSymbol == symbol && tradeModalOpen && modalResult == None && modalError == None
    {
      selectedSymbol := symbol;
      tradeModalOpen := true;
      modalResult := None;
      modalError := None;
    }

    /** The ACCOUNT and STOCKS tab buttons. */
    method SelectTab(tab: Tab)
      requires Valid()
      modifies this`activeTab, this`result, this`error
      ensures Valid()
      ensures activeTab == tab && result == None && error == None
    {
      activeTab := tab;
      result := None;
      error := None;
    }
  }
}
