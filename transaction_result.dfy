/**
 * The `TransactionResult` view: from the loading flag, the error text and the last
 * response it decides what to show (a spinner, an error banner, an account summary,
 * a market-data table, a confirmation, or nothing) and builds the account summary
 * and the table from the response's data.
 */
module TransactionResult {
  import opened Wrappers
  import opened JsText
  import opened JsValue
  import opened Types

  /** One table cell: the value shown (serialised as JSON when it is an object or `null`) and the symbol a click reports. */
  datatype Cell = Cell(value: Value, asJson: bool, onClick: Option<string>)

  /**
   * What the view renders. `AccountSummary` with no positions is the "No active positions"
   * notice; `RenderError` is a TypeError raised while rendering.
   */
  datatype View =
    | Spinner
    | ErrorBanner(text: string)
    | AccountSummary(name: Value, playerId: Value, cashBalance: Value, positions: seq<(string, Value)>)
    | MarketTable(headers: seq<string>, labels: seq<string>, rows: seq<seq<Cell>>)
    | Confirmation(message: Value)
    | RenderError
    | Nothing

  /** The branch of the decision chain taken. */
  datatype Branch = SpinnerBranch | ErrorBranch | AccountBranch | TableBranch | ConfirmationBranch | NothingBranch

  /** `if (error)`: an error is shown only when there is one and its text is not empty. */
  predicate ShowsError(error: Option<string>) {
    error.Some? && error.value != ""
  }

  /** `result && result.success`. */
  predicate Succeeded(result: Option<ApiResponse>) {
    result.Some? && Truthy(result.value.success)
  }

  /** The data as a list: an array as it is, any other truthy value alone, nothing otherwise. */
  function WrapData(data: Value): (list: seq<Value>)
    ensures data.Arr? ==> list == data.items
    ensures !data.Arr? ==> (list == [] <==> !Truthy(data))
    ensures !data.Arr? && list != [] ==> list == [data]
  {
    if data.Arr? then data.items else if Truthy(data) then [data] else []
  }

  /**
   * An account record: an object with both a `cash_balance` and a `holdings` key. Such a
   * value passes the source's `accountData &&` and `typeof accountData === 'object'` tests too.
   */
  predicate IsAccountRecord(v: Value)
    ensures IsAccountRecord(v) ==> Truthy(v) && IsObjectType(v) && !v.Null?
    ensures IsAccountRecord(v) ==> HasKey(v, "cash_balance") && HasKey(v, "holdings")
  {
    v.Obj? && HasKey(v, "cash_balance") && HasKey(v, "holdings")
  }

  predicate LeadsWithAccount(result: ApiResponse) {
    var data := WrapData(result.data);
    |data| > 0 && IsAccountRecord(data[0])
  }

  predicate LeadsWithObject(result: ApiResponse) {
    var data := WrapData(result.data);
    |data| > 0 && IsObjectType(data[0])
  }

  /** The decision chain: loading first, then a non-empty error, then a successful result, then nothing. */
  function Classify(loading: bool, error: Option<string>, result: Option<ApiResponse>, simpleView: bool): (b: Branch)
    ensures b == SpinnerBranch <==> loading
    ensures b == ErrorBranch <==> !loading && ShowsError(error)
    ensures b == NothingBranch <==> !loading && !ShowsError(error) && !Succeeded(result)
    ensures b == AccountBranch <==>
      !loading && !ShowsError(error) && Succeeded(result) && !simpleView && LeadsWithAccount(result.value)
    ensures b == TableBranch <==>
      !loading && !ShowsError(error) && Succeeded(result) && !simpleView
      && !LeadsWithAccount(result.value) && LeadsWithObject(result.value)
    ensures b == ConfirmationBranch <==>
      !loading && !ShowsError(error) && Succeeded(result) && (simpleView || !LeadsWithObject(result.value))
  {
    if loading then SpinnerBranch
    else if ShowsError(error) then ErrorBranch
    else if Succeeded(result) then
      var data := WrapData(result.value.data);
      var first := if |data| > 0 then Some(data[0]) else None;
      if !simpleView && first.Some? && IsAccountRecord(first.value) then AccountBranch
      else if !simpleView && first.Some? && IsObjectType(first.value) then TableBranch
      else ConfirmationBranch
    else NothingBranch
  }

  /** The holdings as a map: a string is decoded as JSON (an empty map when that fails), anything else is used as it is. */
  function DecodeHoldings(holdings: Value, parse: string -> Option<Value>): (r: Value)
    ensures !holdings.Str? ==> r == holdings
    ensures holdings.Str? ==> parse(holdings.s) == Some(r) || (parse(holdings.s).None? && r == Obj([]))
    ensures IsNullish(r) ==> IsNullish(holdings) || (holdings.Str? && parse(holdings.s) == Some(r))
  {
    if holdings.Str? then
      match parse(holdings.s)
      case Some(decoded) => decoded
      case None => Obj([])
    else holdings
  }

  /**
   * What React accepts as a child: a string, number, boolean, `null` or `undefined`, or an
   * array of such children. Rendering a plain object throws ("Objects are not valid as a
   * React child").
   */
  predicate Renderable(v: Value)
    ensures v.Obj? ==> !Renderable(v)
    ensures v.Arr? ==> (Renderable(v) <==> forall i :: 0 <= i < |v.items| ==> Renderable(v.items[i]))
    ensures !v.Obj? && !v.Arr? ==> Renderable(v)
  {
    match v
    case Obj(_) => false
    case Arr(items) => forall i :: 0 <= i < |items| ==> Renderable(items[i])
    case _ => true
  }

  /** Every position's quantity can be shown as a table cell (`{quantity}`). */
  predicate QuantitiesRenderable(positions: seq<(string, Value)>) {
    forall k :: 0 <= k < |positions| ==> Renderable(positions[k].1)
  }

  /**
   * Why rendering an account fails: reading `Object.keys` of missing holdings or
   * `toLocaleString` of a missing cash balance throws a TypeError, and an owner, an id
   * or a quantity that is an object makes React throw.
   */
  predicate AccountFails(account: Value, holdings: Value)
    requires !IsNullish(account)
  {
    || IsNullish(holdings) || IsNullish(Get(account, "cash_balance"))
    || !OwnerRenderable(account) || !QuantitiesRenderable(OwnEntries(holdings))
  }

  /** The owner's name and id can be shown (`{account.name}`, `#{account.player_id}`). */
  predicate OwnerRenderable(account: Value)
    requires !IsNullish(account)
  {
    Renderable(Get(account, "name")) && Renderable(Get(account, "player_id"))
  }

  /** The account summary: owner, id, cash and one position per holdings entry. */
  function BuildAccount(account: Value, parse: string -> Option<Value>): (v: View)
    requires IsAccountRecord(account)
    ensures v.AccountSummary? || v.RenderError?
    ensures v.RenderError? <==> AccountFails(account, DecodeHoldings(Get(account, "holdings"), parse))
    ensures v.AccountSummary? ==>
      v.name == Get(account, "name") && v.playerId == Get(account, "player_id")
      && v.cashBalance == Get(account, "cash_balance")
      && v.positions == OwnEntries(DecodeHoldings(Get(account, "holdings"), parse))
  {
    var holdings := DecodeHoldings(Get(account, "holdings"), parse);
    if AccountFails(account, holdings) then RenderError
    else AccountSummary(Get(account, "name"), Get(account, "player_id"), Get(account, "cash_balance"), OwnEntries(holdings))
  }

  /** A column whose cells name an instrument: `symbol`, `ticker` or `name`, in any letter case. */
  predicate IsSymbolColumn(header: string)
    ensures IsSymbolColumn(header) <==>
      SameUpToCase(header, "symbol") || SameUpToCase(header, "ticker") || SameUpToCase(header, "name")
    ensures header == "symbol" || header == "ticker" || header == "name" ==> IsSymbolColumn(header)
    ensures IsSymbolColumn(header) ==> |header| == 4 || |header| == 6
  {
    ToLowerIs(header, "symbol");
    ToLowerIs(header, "ticker");
    ToLowerIs(header, "name");
    var h := ToLower(header);
    h == "symbol" || h == "ticker" || h == "name"
  }

  /** The cell of `row` under `header`: its value, shown as JSON when it is an object, and the click on a symbol column. */
  function MakeCell(row: Value, header: string, clickable: bool): (c: Cell)
    requires !IsNullish(row)
    ensures c.value == Get(row, header)
    ensures c.asJson <==> IsObjectType(c.value)
    ensures c.onClick.Some? <==> clickable && IsSymbolColumn(header)
    ensures c.onClick.Some? ==> c.onClick.value == ToStr(c.value)
  {
    var v := Get(row, header);
    Cell(v, IsObjectType(v), if IsSymbolColumn(header) && clickable then Some(ToStr(v)) else None)
  }

  predicate HasNullishRow(rows: seq<Value>) {
    exists i :: 0 <= i < |rows| && IsNullish(rows[i])
  }

  /** The market-data table: the first row's keys as headers, one table row per list element. */
  function BuildTable(rows: seq<Value>, clickable: bool): (v: View)
    requires |rows| > 0 && IsObjectType(rows[0])
    ensures v.MarketTable? || v.RenderError?
    ensures v.RenderError? <==> rows[0].Null? || (|Keys(rows[0])| > 0 && HasNullishRow(rows))
    ensures v.MarketTable? ==>
      && v.headers == Keys(rows[0])
      && |v.labels| == |v.headers|
      && (forall j :: 0 <= j < |v.headers| ==> v.labels[j] == UnderscoresToSpaces(v.headers[j]))
      && |v.rows| == |rows|
      && (forall i :: 0 <= i < |rows| ==> |v.rows[i]| == |v.headers|)
    ensures v.MarketTable? ==>
      forall i, j :: 0 <= i < |rows| && 0 <= j < |v.headers| ==>
        && !IsNullish(rows[i])
        && v.rows[i][j].value == Get(rows[i], v.headers[j])
        && (v.rows[i][j].onClick.Some? <==> clickable && IsSymbolColumn(v.headers[j]))
        && (v.rows[i][j].onClick.Some? ==> v.rows[i][j].onClick.value == ToStr(v.rows[i][j].value))
  {
    if rows[0].Null? then RenderError
    else
      var headers := Keys(rows[0]);
      if |headers| > 0 && HasNullishRow(rows) then RenderError
      else
        MarketTable(
          headers,
          seq(|headers|, j requires 0 <= j < |headers| => UnderscoresToSpaces(headers[j])),
          seq(|rows|, i requires 0 <= i < |rows| =>
            seq(|headers|, j requires 0 <= j < |headers| => MakeCell(rows[i], headers[j], clickable))))
  }

  /** What `TransactionResult` renders for its props; `clickable` says whether an `onSymbolClick` callback was passed. */
  function Render(
    loading: bool, error: Option<string>, result: Option<ApiResponse>,
    simpleView: bool, clickable: bool, parse: string -> Option<Value>): (v: View)
    ensures v.RenderError? ==> Classify(loading, error, result, simpleView) in {AccountBranch, TableBranch, ConfirmationBranch}
    ensures Classify(loading, error, result, simpleView) == ConfirmationBranch ==>
      v == if Renderable(result.value.message) then Confirmation(result.value.message) else RenderError
    ensures Classify(loading, error, result, simpleView) == AccountBranch ==>
      v == BuildAccount(WrapData(result.value.data)[0], parse)
    ensures Classify(loading, error, result, simpleView) == TableBranch ==>
      v == BuildTable(WrapData(result.value.data), clickable)
    ensures Classify(loading, error, result, simpleView) == TableBranch ==> v.MarketTable? || v.RenderError?
  {
    match Classify(loading, error, result, simpleView)
    case SpinnerBranch => Spinner
    case ErrorBranch => ErrorBanner(error.value)
    case AccountBranch => BuildAccount(WrapData(result.value.data)[0], parse)
    case TableBranch => BuildTable(WrapData(result.value.data), clickable)
    case ConfirmationBranch =>
      if Renderable(result.value.message) then Confirmation(result.value.message) else RenderError
    case NothingBranch => Nothing
  }

  /**
   * In the simple view a successful result is always confirmed with its message, whatever
   * its data; only a message React cannot show makes it fail.
   */
  lemma SimpleViewConfirms(error: Option<string>, result: ApiResponse, clickable: bool, parse: string -> Option<Value>)
    requires !ShowsError(error) && Truthy(result.success)
    ensures Render(false, error, Some(result), true, clickable, parse)
      == if Renderable(result.message) then Confirmation(result.message) else RenderError
  {
  }

  /** A successful result without data, or whose first item is not an object, is confirmed with its message. */
  lemma FallbackConfirms(error: Option<string>, result: ApiResponse, simpleView: bool, clickable: bool, parse: string -> Option<Value>)
    requires !ShowsError(error) && Truthy(result.success)
    requires WrapData(result.data) == [] || !IsObjectType(WrapData(result.data)[0])
    ensures Render(false, error, Some(result), simpleView, clickable, parse)
      == if Renderable(result.message) then Confirmation(result.message) else RenderError
  {
  }

  /** While loading nothing but the spinner is shown, and an error hides any result. */
  lemma LoadingAndErrorComeFirst(error: Option<string>, result: Option<ApiResponse>, simpleView: bool, clickable: bool, parse: string -> Option<Value>)
    ensures Render(true, error, result, simpleView, clickable, parse) == Spinner
    ensures ShowsError(error) ==> Render(false, error, result, simpleView, clickable, parse) == ErrorBanner(error.value)
    ensures error == Some("") ==> Render(false, error, result, simpleView, clickable, parse) != ErrorBanner("")
  {
  }

  /** A holdings string that does not decode leaves the account with no positions ("No active positions"). */
  lemma UndecodableHoldingsShowNoPositions(account: Value, parse: string -> Option<Value>)
    requires IsAccountRecord(account)
    requires Get(account, "holdings").Str? && parse(Get(account, "holdings").s).None?
    requires !IsNullish(Get(account, "cash_balance"))
    ensures BuildAccount(account, parse).AccountSummary? <==> OwnerRenderable(account)
    ensures BuildAccount(account, parse).AccountSummary? ==> BuildAccount(account, parse).positions == []
  {
  }

  /** A holdings string that decodes to an object lists that object's entries, in order, as positions. */
  lemma DecodedHoldingsAreListed(account: Value, parse: string -> Option<Value>, fields: seq<(string, Value)>)
    requires IsAccountRecord(account)
    requires Get(account, "holdings").Str? && parse(Get(account, "holdings").s) == Some(Obj(fields))
    requires !IsNullish(Get(account, "cash_balance"))
    ensures BuildAccount(account, parse).AccountSummary? <==> OwnerRenderable(account) && QuantitiesRenderable(fields)
    ensures BuildAccount(account, parse).AccountSummary? ==> BuildAccount(account, parse).positions == fields
  {
  }

  /** Holdings that are already an object are listed without decoding. */
  lemma ObjectHoldingsAreListed(account: Value, parse: string -> Option<Value>)
    requires IsAccountRecord(account)
    requires Get(account, "holdings").Obj?
    requires !IsNullish(Get(account, "cash_balance"))
    ensures BuildAccount(account, parse).AccountSummary? <==>
      OwnerRenderable(account) && QuantitiesRenderable(Get(account, "holdings").fields)
    ensures BuildAccount(account, parse).AccountSummary? ==>
      BuildAccount(account, parse).positions == Get(account, "holdings").fields
  {
  }

  /** Whether a column is a symbol column does not depend on the case of its name. */
  lemma SymbolColumnIgnoresCase(header: string)
    ensures IsSymbolColumn(ToUpper(header)) == IsSymbolColumn(header)
  {
    ToLowerOfToUpper(header);
  }

  /**
   * For a list of objects that all have keys, the first table row shows exactly the
   * first object's values, column by column.
   */
  lemma FirstRowShowsFirstObject(rows: seq<Value>, clickable: bool, j: nat)
    requires |rows| > 0 && rows[0].Obj? && !HasNullishRow(rows)
    requires j < |rows[0].fields|
    requires forall k :: 0 <= k < j ==> rows[0].fields[k].0 != rows[0].fields[j].0
    ensures BuildTable(rows, clickable).MarketTable?
    ensures BuildTable(rows, clickable).headers[j] == rows[0].fields[j].0
    ensures BuildTable(rows, clickable).rows[0][j].value == rows[0].fields[j].1
  {
    GetOfKey(rows[0], j);
  }
}
