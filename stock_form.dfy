/** The buy/sell order form: player id, symbol, quantity and the order side. */
module StockForm {
  import opened Wrappers
  import opened JsText
  import opened Types
  import opened FormChecks

  const SymbolError := "Symbol is required."
  const QuantityError := "Quantity must be a positive number."
  const DefaultSymbol := "AAPL"
  const DefaultQuantity := "10"

  /**
   * The check `handleSubmit` runs: the id, then the symbol, then the quantity; the
   * order submitted, or the first error found.
   */
  function CheckOrder(playerId: string, symbol: string, quantity: string, side: TransactionType): (r: Result<TransactionPayload, string>)
    ensures r.Ok? <==> PositiveNumber(playerId).Some? && !IsBlank(symbol) && PositiveNumber(quantity).Some?
    ensures r.Err? && PositiveNumber(playerId).None? ==> r.error == PlayerIdError
    ensures r.Err? && PositiveNumber(playerId).Some? && IsBlank(symbol) ==> r.error == SymbolError
    ensures r.Err? && PositiveNumber(playerId).Some? && !IsBlank(symbol) ==> r.error == QuantityError
    ensures r.Ok? ==> ParseInt(playerId) == Some(r.value.playerId) && r.value.playerId > 0
    ensures r.Ok? ==> r.value.quantity.Some? && ParseInt(quantity) == r.value.quantity && r.value.quantity.value > 0
    ensures r.Ok? ==> r.value.symbol == Some(ToUpper(symbol))
    ensures r.Ok? ==> r.value.transactionType == side && r.value.password.None?
  {
    match PositiveNumber(playerId)
    case None => Err(PlayerIdError)
    case Some(id) =>
      if IsBlank(symbol) then Err(SymbolError)
      else match PositiveNumber(quantity)
        case None => Err(QuantityError)
        case Some(qty) => Ok(TransactionPayload(id, None, Some(ToUpper(symbol)), Some(qty), side))
  }

  /**
   * The id and quantity are read up to the first non-digit: `"7 shares"` orders 7.
   * The symbol is upper-cased but not trimmed.
   */
  lemma TrailingTextIsDropped(id: int, idRest: string, symbol: string, qty: int, qtyRest: string, side: TransactionType)
    requires id > 0 && qty > 0 && !IsBlank(symbol)
    requires idRest == "" || !IsDigit(idRest[0])
    requires qtyRest == "" || !IsDigit(qtyRest[0])
    ensures CheckOrder(IntToString(id) + idRest, symbol, IntToString(qty) + qtyRest, side)
      == Ok(TransactionPayload(id, None, Some(ToUpper(symbol)), Some(qty), side))
  {
    PositiveNumberOfIntToString(id, idRest);
    PositiveNumberOfIntToString(qty, qtyRest);
  }

  /** The default quantity text is the numeral of ten. */
  lemma DefaultQuantityIsTen()
    ensures IntToString(10) + "" == DefaultQuantity
  {
    assert NatToString(1) == "1";
    assert NatToString(10) == NatToString(1) + [DigitChar(0)];
  }

  /** The default symbol is filled in. */
  lemma DefaultSymbolIsFilled()
    ensures !IsBlank(DefaultSymbol)
  {
    assert !IsWhiteSpace(DefaultSymbol[0]);
  }

  /** The default symbol is already upper case. */
  lemma DefaultSymbolIsUpperCase()
    ensures ToUpper(DefaultSymbol) == "AAPL"
  {
    var u := ToUpper(DefaultSymbol);
    assert u[0] == 'A' && u[1] == 'A' && u[2] == 'P' && u[3] == 'L';
  }

  /** A freshly opened form for a logged-in player submits a buy of ten AAPL unchanged. */
  lemma DefaultOrder(id: int)
    requires id > 0
    ensures CheckOrder(IdFieldText(Some(id)), InitialSymbolText(None), DefaultQuantity, Buy)
      == Ok(TransactionPayload(id, None, Some("AAPL"), Some(10), Buy))
  {
    assert IdFieldText(Some(id)) == IntToString(id);
    assert InitialSymbolText(None) == DefaultSymbol;
    DefaultQuantityIsTen();
    DefaultSymbolIsFilled();
    DefaultSymbolIsUpperCase();
    TrailingTextIsDropped(id, "", DefaultSymbol, 10, "", Buy);
    assert IntToString(id) + "" == IntToString(id);
  }

  /** The symbol field's starting text: the `initialSymbol` prop unless it is absent or empty. */
  function InitialSymbolText(initialSymbol: Option<string>): (s: string)
    ensures s != ""
    ensures initialSymbol.Some? && initialSymbol.value != "" ==> s == initialSymbol.value
    ensures !(initialSymbol.Some? && initialSymbol.value != "") ==> s == DefaultSymbol
  {
    if initialSymbol.Some? && initialSymbol.value != "" then initialSymbol.value else DefaultSymbol
  }

  class StockFormState {
    var playerId: string
    var symbol: string
    var quantity: string
    var transactionType: TransactionType
    var formError: Option<string>
    // the props the form was last given
    var loggedInPlayerId: Option<int>
    var initialSymbol: Option<string>

    /**
     * The fields the form does not let the player edit: the id field, hidden while a
     * player id is passed in, holds that id's text; a locked symbol field holds the
     * initial symbol.
     */
    predicate Valid()
      reads this
    {
      && (IdGiven(loggedInPlayerId) ==> playerId == IdFieldText(loggedInPlayerId))
      && (IsSymbolLocked() ==> symbol == initialSymbol.value)
    }

    constructor (loggedInPlayerId: Option<int>, initialSymbol: Option<string>)
      ensures Valid()
      ensures playerId == IdFieldText(loggedInPlayerId)
      ensures symbol == InitialSymbolText(initialSymbol)
      ensures quantity == DefaultQuantity && transactionType == Buy && formError == None
      ensures this.loggedInPlayerId == loggedInPlayerId && this.initialSymbol == initialSymbol
    {
      playerId := IdFieldText(loggedInPlayerId);
      symbol := InitialSymbolText(initialSymbol);
      quantity := DefaultQuantity;
      transactionType := Buy;
      formError := None;
      this.loggedInPlayerId := loggedInPlayerId;
      this.initialSymbol := initialSymbol;
    }

    /** `!!initialSymbol`: the symbol field is read-only when a non-empty initial symbol was given. */
    predicate IsSymbolLocked()
      reads this
      ensures IsSymbolLocked() ==> initialSymbol.Some? && InitialSymbolText(initialSymbol) == initialSymbol.value
    {
      initialSymbol.Some? && initialSymbol.value != ""
    }

    /** The effect run when `loggedInPlayerId` changes: a truthy id overwrites the id field. */
    method LoggedInPlayerIdChanged(newId: Option<int>)
      requires Valid()
      modifies this`playerId, this`loggedInPlayerId
      ensures Valid()
      ensures loggedInPlayerId == newId
      ensures IdGiven(newId) ==> playerId == IntToString(newId.value)
      ensures !IdGiven(newId) ==> playerId == old(playerId)
    {
      loggedInPlayerId := newId;
      if IdGiven(newId) {
        playerId := IntToString(newId.value);
      }
    }

    /** The effect run when `initialSymbol` changes: a non-empty symbol overwrites the symbol field. */
    method InitialSymbolChanged(newSymbol: Option<string>)
      requires Valid()
      modifies this`symbol, this`initialSymbol
      ensures Valid()
      ensures initialSymbol == newSymbol
      ensures newSymbol.Some? && newSymbol.value != "" ==> symbol == newSymbol.value
      ensures !(newSymbol.Some? && newSymbol.value != "") ==> symbol == old(symbol)
    {
      initialSymbol := newSymbol;
      if newSymbol.Some? && newSymbol.value != "" {
        symbol := newSymbol.value;
      }
    }

    /** Typing in the id field, which is shown only while no player id is passed in. */
    method EditPlayerId(text: string)
      requires Valid() && !IdGiven(loggedInPlayerId)
      modifies this`playerId
      ensures Valid()
      ensures playerId == text
    {
      playerId := text;
    }

    /** Typing in the symbol field, which is read-only while it is locked. */
    method EditSymbol(text: string)
      requires Valid() && !IsSymbolLocked()
      modifies this`symbol
      ensures Valid()
      ensures symbol == text
    {
      symbol := text;
    }

    method EditQuantity(text: string)
      requires Valid()
      modifies this`quantity
      ensures Valid()
      ensures quantity == text
    {
      quantity := text;
    }

    /** The BUY and SELL buttons. */
    method ChooseSide(side: TransactionType)
      requires Valid()
      requires side == Buy || side == Sell
      modifies this`transactionType
      ensures Valid()
      ensures transactionType == side
    {
      transactionType := side;
    }

    /**
     * `handleSubmit`: returns the order passed to `onSubmit`, or nothing when a check fails.
     * A form given a player id orders for that player, and a locked form orders the
     * symbol it was opened with.
     */
    method HandleSubmit() returns (submitted: Option<TransactionPayload>)
      requires Valid()
      modifies this`formError
      ensures Valid()
      ensures var r := CheckOrder(playerId, symbol, quantity, transactionType);
        && (r.Ok? ==> formError == None && submitted == Some(r.value))
        && (r.Err? ==> formError == Some(r.error) && submitted == None)
      ensures submitted.Some? && IdGiven(loggedInPlayerId) ==> submitted.value.playerId == loggedInPlayerId.value
      ensures submitted.Some? && IsSymbolLocked() ==> submitted.value.symbol == Some(ToUpper(initialSymbol.value))
      ensures IdGiven(loggedInPlayerId) && loggedInPlayerId.value < 0 ==> submitted == None && formError == Some(PlayerIdError)
    {
      formError := None;
      var pId := ParseInt(playerId);
      if pId.None? || pId.value <= 0 {
        formError := Some(PlayerIdError);
        return None;
      }
      var qty := ParseInt(quantity);
      if IsBlank(symbol) {
        formError := Some(SymbolError);
        return None;
      }
      if qty.None? || qty.value <= 0 {
        formError := Some(QuantityError);
        return None;
      }
      submitted := Some(TransactionPayload(pId.value, None, Some(ToUpper(symbol)), Some(qty.value), transactionType));
    }
  }
}
