/** The stocks tab: one button that asks for live market data for the logged-in player. */
module StocksView {
  import opened Wrappers
  import opened Types
  import opened FormChecks

  /** `handleGetStocks`: the request it submits, if any. */
  function GetStocksRequest(loggedInPlayerId: Option<int>): (r: Option<TransactionPayload>)
    ensures r.Some? <==> IdGiven(loggedInPlayerId)
    ensures r.Some? ==> r.value.playerId == loggedInPlayerId.value && r.value.transactionType == GetStocks
    ensures r.Some? ==> r.value.password.None? && r.value.symbol.None? && r.value.quantity.None?
  {
    if IdGiven(loggedInPlayerId) then
      Some(TransactionPayload(loggedInPlayerId.value, None, None, None, GetStocks))
    else None
  }

  /** The id is not checked for sign: any non-zero id, a negative one included, is sent as it is. */
  lemma AnyNonZeroIdIsSent(n: int)
    requires n != 0
    ensures GetStocksRequest(Some(n)) == Some(TransactionPayload(n, None, None, None, GetStocks))
  {
  }
}
