/** The request and response shapes shared by the components (types.ts), and the outcome of one HTTP exchange. */
module Types {
  import opened Wrappers
  import opened JsValue

  /** The kinds of request the webhook understands. */
  datatype TransactionType = Buy | Sell | DisplayAccount | Login | GetStocks

  /** The string each kind is sent as in a request's `transactionType` field. */
  function WireName(t: TransactionType): string {
    match t
    case Buy => "buy"
    case Sell => "sell"
    case DisplayAccount => "displayAccount"
    case Login => "login"
    case GetStocks => "getStocks"
  }

  /** The kind a wire string names, if any: the receiving side's reading of `transactionType`. */
  function TransactionTypeOf(name: string): (r: Option<TransactionType>)
    ensures r.Some? ==> WireName(r.value) == name
  {
    if name == "buy" then Some(Buy)
    else if name == "sell" then Some(Sell)
    else if name == "displayAccount" then Some(DisplayAccount)
    else if name == "login" then Some(Login)
    else if name == "getStocks" then Some(GetStocks)
    else None
  }

  /** Every kind is sent under a name of its own, so the receiver can tell them apart. */
  lemma WireNameRoundTrip(t: TransactionType)
    ensures TransactionTypeOf(WireName(t)) == Some(t)
  {
  }

  lemma WireNameInjective(t: TransactionType, u: TransactionType)
    ensures WireName(t) == WireName(u) ==> t == u
  {
    WireNameRoundTrip(t);
    WireNameRoundTrip(u);
  }

  /** A request; an absent optional field is left out of the JSON body. */
  datatype TransactionPayload = TransactionPayload(
    playerId: int,
    password: Option<string>,
    symbol: Option<string>,
    quantity: Option<int>,
    transactionType: TransactionType)

  /** What a view is given to show: a success flag (a boolean or a string), an optional message, the raw data. */
  datatype ApiResponse = ApiResponse(success: Value, message: Value, response: Value, data: Value)

  /**
   * How one `fetch` followed by `response.json()` ended: with a status and a parsed body,
   * or with an error thrown by either step (a network failure, a body that is not JSON).
   */
  datatype Reply =
    | Answered(ok: bool, status: int, body: Value)
    | Thrown(message: string)
}
