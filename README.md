# Shark Tank front-end: a Dafny model

This project models the deterministic layer of a browser front-end for a mock
stock-trading game. The remote webhook owns every trading rule: balances,
holdings, prices and order matching. The front-end does the following:

- checks the login, account, order and signup forms;
- builds the request payloads;
- decides from each HTTP reply whether the player is logged in, what result or
  error to store, and what the result view shows (a spinner, an error banner,
  an account summary, a market-data table, a confirmation, or nothing).

Each HTTP exchange is an input value (`Types.Reply`). It is either
`Answered(ok, status, body)`, with the parsed JSON body, or `Thrown(message)`,
when `fetch` or `response.json()` raised an error. Every handler runs to
completion on the reply it is given.

Modules, one per source file:

- `JsText`: the string and number primitives the components use (`trim`,
  `toUpperCase`/`toLowerCase`, `replace(/_/g, ' ')`, integer `toString()`,
  `parseInt(s, 10)`).
- `JsValue`: JavaScript values, truthiness, `||`, property reads,
  `Object.keys`/`Object.entries`, `in`, `String(v)`.
- `Types`: `types.ts`.
- `FormChecks`: the positive-player-id check shared by three forms.
- `TransactionResult`, `StockForm`, `LoginForm`, `AccountForm`, `StocksView`,
  `Signup`, `App`: the components of the same names.

Components whose source updates state in place are classes with `modifies`
clauses: `App.AppState` and the four form classes. Their decisions are pure
functions (`LoginError`, `SubmitOutcome`, `CheckOrder`, ...). The methods'
postconditions tie the new state to those functions.

When a property is read from a `null` body, the model gives the TypeError text
that V8 produces ("Cannot read properties of null (reading 'message')"). Other
engines word it differently.

## Model

| member | source | states |
|---|---|---|
| `JsText.Trim` | components/LoginForm.tsx:23 | trimming gives the empty text exactly when every character is white space; otherwise the result starts and ends with non-white-space, and it sits between a white-space prefix and a white-space suffix of the input |
| `JsText.IsBlank` | components/StockForm.tsx:42 | `!s.trim()` holds exactly when every character of the text is white space (the empty text included) |
| `JsText.ToLowerOfToUpper` | components/TransactionResult.tsx:147 | for the ASCII case mapping of this model, lower-casing an upper-cased text gives the same as lower-casing the original (JavaScript's full Unicode mapping differs for letters such as `ſ` and `ı`) |
| `JsText.ToUpper` | components/StockForm.tsx:53 | same length, no lower-case ASCII letter left, each character the same letter up to case |
| `JsText.ToLower` | components/TransactionResult.tsx:147 | same length, no upper-case ASCII letter left, each character the same letter up to case |
| `JsText.UnderscoresToSpaces` | components/TransactionResult.tsx:139 | same length; every `_` becomes a space and every other character is kept |
| `JsText.NatToString` | components/AccountForm.tsx:16 | a natural number's text is non-empty, all decimal digits, and starts with `0` only for zero |
| `JsText.IntToString` | App.tsx:59 | an integer's text is non-empty and starts with `-` exactly for negative numbers, with digits after it |
| `JsText.ParseInt` | components/StockForm.tsx:35-41 | `parseInt(s, 10)` skips leading white space, reads an optional sign and then the longest digit run; `None` stands for NaN and occurs exactly when no digit follows the white space and sign; the result is negative only after a `-` and never positive after one (its value is pinned by `ParseIntOfIntToString`) |
| `JsText.DigitsValueOfNatToString` | components/AccountForm.tsx:16 | reading a number's decimal digits back gives the number |
| `JsText.ParseIntOfIntToString` | components/StockForm.tsx:35 | `parseInt` of an integer's text, followed by any text that does not start with a digit, gives that integer: trailing non-digits are dropped |
| `JsText.ParseIntOfPlusDigitsThen` | components/StockForm.tsx:35 | after a leading `+`, `parseInt` reads the digit run's value unchanged (`parseInt("+7") == 7`) |
| `JsText.ParseIntSkipsWhiteSpace` | components/StockForm.tsx:35 | leading white space does not change what `parseInt` reads |
| `JsText.ArrayIndexOfNatToString` | components/TransactionResult.tsx:126 | the key `Object.keys` gives an array element names that element again |
| `JsValue.Or` | App.tsx:59 | `a || b` is `a` when `a` is truthy and `b` otherwise; the result is truthy iff either operand is |
| `JsValue.Truthy` | components/TransactionResult.tsx:44-45 | `undefined` and `null` are falsy, every array and object (even an empty one) is truthy, a string is truthy iff it is non-empty and a number iff it is non-zero |
| `JsValue.IsObjectType` | components/TransactionResult.tsx:125 | a value whose `typeof` is `'object'` is truthy exactly when it is not `null` |
| `JsValue.HasKeyIff` | components/TransactionResult.tsx:51 | `key in obj` holds exactly when some own property of the object has that key |
| `JsValue.Get` | components/TransactionResult.tsx:152 | reading a key of an object gives the value of the property with that key, and `undefined` when there is none; numbers and booleans have no such properties |
| `JsValue.OwnEntries` | components/TransactionResult.tsx:102 | `Object.entries` of an object is its properties in order; of a number or boolean it is empty; of an array or string there is one entry per element |
| `JsValue.Keys` | components/TransactionResult.tsx:126 | `Object.keys` lists the keys of `Object.entries`, in the same order |
| `JsValue.GetOfKey` | components/TransactionResult.tsx:126-155 | every key `Object.keys` reports reads back the value `Object.entries` pairs with it |
| `JsValue.ToStr` | components/TransactionResult.tsx:152 | `String(v)` of a string is the string itself; of an empty array it is empty |
| `Types.TransactionTypeOf` | types.ts:2-8 | a wire string is read back only as the kind that is sent under it |
| `Types.WireNameRoundTrip` | types.ts:2-8 | each transaction kind's wire string reads back as that kind |
| `Types.WireNameInjective` | types.ts:2-8 | different kinds are sent under different strings |
| `FormChecks.PositiveNumber` | components/StockForm.tsx:35-39 | accepts a text exactly when `parseInt` gives a positive number, and yields that number |
| `FormChecks.PositiveNumberOfIntToString` | components/AccountForm.tsx:24-28 | an integer's text, followed by anything that does not start with a digit, is accepted exactly when the integer is positive, and yields it |
| `FormChecks.IdFieldText` | components/AccountForm.tsx:11 | the id field starts empty unless `loggedInPlayerId` is truthy; its text then parses back to that id |
| `StocksView.GetStocksRequest` | components/StocksView.tsx:13-20 | a request is made exactly when the id prop is present and non-zero; it carries that id and GET_STOCKS, and no password, symbol or quantity |
| `StocksView.AnyNonZeroIdIsSent` | components/StocksView.tsx:14-18 | there is no sign check: any non-zero id, a negative one included, is sent as it is |
| `LoginForm.CheckLogin` | components/LoginForm.tsx:14-29 | accepted iff the id parses to a positive number and the password is not blank; the id error comes before the password error; on success the parsed id and the untrimmed password are passed on |
| `LoginForm.WhiteSpacePasswordRefused` | components/LoginForm.tsx:23-26 | a white-space-only password is refused with "Password is required." once the id is accepted |
| `LoginForm.LoginFormState.constructor` | components/LoginForm.tsx:10-12 | the form starts with an empty id, an empty password and no error |
| `LoginForm.LoginFormState.EditPlayerId` | components/LoginForm.tsx:45 | the id field takes the typed text |
| `LoginForm.LoginFormState.EditPassword` | components/LoginForm.tsx:62 | the password field takes the typed text |
| `LoginForm.LoginFormState.HandleSubmit` | components/LoginForm.tsx:14-29 | the error is cleared, then set to the first failed check; `onLogin` gets the checked credentials only when every check passes |
| `AccountForm.CheckAccountRequest` | components/AccountForm.tsx:20-34 | accepted iff the id parses to a positive number; the payload carries the parsed id and DISPLAY_ACCOUNT, and no password, symbol or quantity |
| `AccountForm.FilledIdIsRequested` | components/AccountForm.tsx:11-33 | the text the id field is filled with from a logged-in id `n` requests exactly `n` when `n > 0`, and is refused otherwise |
| `AccountForm.AccountFormState.constructor` | components/AccountForm.tsx:11-12 | the id field starts from the id prop's text (empty when it is absent or 0) and there is no error |
| `AccountForm.AccountFormState.LoggedInPlayerIdChanged` | components/AccountForm.tsx:14-18 | a truthy id prop overwrites the id field; anything else leaves it |
| `AccountForm.AccountFormState.EditPlayerId` | components/AccountForm.tsx:39-48 | the id field, which exists only while no id prop is passed, takes the typed text |
| `AccountForm.AccountFormState.HandleSubmit` | components/AccountForm.tsx:20-34 | the error is cleared; then either the checked request is submitted or the id error is shown and nothing is submitted; a form given a positive id requests exactly that player's account, and one given a negative id submits nothing |
| `StockForm.CheckOrder` | components/StockForm.tsx:31-57 | accepted iff the id and the quantity parse to positive numbers and the symbol is not blank; checks run id, symbol, quantity and the first failure is reported; the order carries the parsed numbers, the upper-cased untrimmed symbol, the chosen side and no password |
| `StockForm.TrailingTextIsDropped` | components/StockForm.tsx:35-56 | an id and a quantity followed by non-digit text are read as the numbers in front |
| `StockForm.DefaultOrder` | components/StockForm.tsx:13-16 | the fields a fresh form starts with, for a logged-in player and no initial symbol, submit a buy of 10 AAPL for that player |
| `StockForm.InitialSymbolText` | components/StockForm.tsx:14 | the symbol starts as `initialSymbol` when that is non-empty and as "AAPL" when it is absent or empty; it is never empty |
| `StockForm.StockFormState.constructor` | components/StockForm.tsx:13-17 | id from the id prop, symbol `initialSymbol` or "AAPL", quantity "10", side BUY, no error; the id and symbol the player cannot edit already hold the props |
| `StockForm.StockFormState.IsSymbolLocked` | components/StockForm.tsx:59 | a locked symbol field started from the given initial symbol |
| `StockForm.StockFormState.LoggedInPlayerIdChanged` | components/StockForm.tsx:19-23 | a truthy id prop overwrites the id field; anything else leaves it |
| `StockForm.StockFormState.InitialSymbolChanged` | components/StockForm.tsx:25-29 | a non-empty initial symbol overwrites the symbol field; anything else leaves it |
| `StockForm.StockFormState.EditPlayerId` | components/StockForm.tsx:64-73 | the id field, which exists only while no id prop is passed, takes the typed text |
| `StockForm.StockFormState.EditSymbol` | components/StockForm.tsx:92-93 | the symbol field takes the typed text; it cannot be edited while locked |
| `StockForm.StockFormState.EditQuantity` | components/StockForm.tsx:123 | the quantity field takes the typed text |
| `StockForm.StockFormState.ChooseSide` | components/StockForm.tsx:135-150 | the BUY and SELL buttons set the side |
| `StockForm.StockFormState.HandleSubmit` | components/StockForm.tsx:31-57 | the error is cleared, then set to the first failed check, with nothing submitted; otherwise the checked order goes to `onSubmit`; a form given an id orders for that id (a negative one is refused), and a locked form orders the upper-cased initial symbol |
| `Signup.CheckFields` | components/Signup.tsx:21-28 | the fields pass iff neither is blank; a blank name is reported before the phone number is looked at |
| `Signup.SignupRequest` | components/Signup.tsx:36 | the body has the keys `name` and `phone_number`, in that order, holding the texts as typed |
| `Signup.Accepted` | components/Signup.tsx:41 | a reply is accepted only when the response is ok, the body is not `null` and its `status` is the string "OK" |
| `Signup.SignupOutcome` | components/Signup.tsx:39-50 | succeeds iff the response is ok, its `status` is the string "OK" and `player_id` is truthy, and passes that id on; an accepted reply without an id gives "Could not retrieve player ID."; a thrown error keeps its message |
| `Signup.RefusalMessage` | components/Signup.tsx:41-43 | a refused reply shows its `message`, or "Signup failed. Please try again." |
| `Signup.SignupState.constructor` | components/Signup.tsx:10-13 | empty fields, not loading, no error |
| `Signup.SignupState.EditName` | components/Signup.tsx:77 | the name field takes the typed text |
| `Signup.SignupState.EditPhoneNumber` | components/Signup.tsx:94 | the phone field takes the typed text |
| `Signup.SignupState.HandleSubmit` | components/Signup.tsx:17-57 | a field error sends nothing and leaves `loading` alone; otherwise the name and phone number are sent, `loading` ends false, and the outcome sets either the signed-up id or the error |
| `TransactionResult.WrapData` | components/TransactionResult.tsx:45 | an array stays as it is; any other value becomes a one-element list when truthy and an empty list when falsy |
| `TransactionResult.IsAccountRecord` | components/TransactionResult.tsx:51 | an account record is an object holding both `cash_balance` and `holdings`, so it also passes the truthiness and `typeof` tests of that line |
| `TransactionResult.Classify` | components/TransactionResult.tsx:21-53 | the spinner while loading; then the error when it is non-empty; then nothing unless the result's `success` is truthy; the account view iff not simple and the first item has `cash_balance` and `holdings`; the table iff not simple, not an account, and the first item is an object; otherwise a confirmation |
| `TransactionResult.DecodeHoldings` | components/TransactionResult.tsx:55-62 | holdings that are not a string are used as they are; a string gives what it decodes to, or `{}` when decoding fails; a `null`/`undefined` result comes from the data itself |
| `TransactionResult.Renderable` | components/TransactionResult.tsx:74-105 | a plain object is never a valid React child; strings, numbers, booleans, `null` and `undefined` always are; an array is exactly when all its elements are |
| `TransactionResult.BuildAccount` | components/TransactionResult.tsx:53-120 | shows the owner, id and cash, and one position per entry of the decoded holdings; rendering fails exactly when the holdings or the cash balance are `null`/`undefined` (a TypeError), or the owner, the id or some quantity is an object React cannot show |
| `TransactionResult.IsSymbolColumn` | components/TransactionResult.tsx:147 | a column is a symbol column exactly when its name, with ASCII capitals lower-cased, is `symbol`, `ticker` or `name` |
| `TransactionResult.MakeCell` | components/TransactionResult.tsx:146-156 | the cell holds `row[h]`, is shown as JSON exactly when that value is an object or `null`, and reports `String(row[h])` on click exactly when callbacks were given and the column is a symbol column |
| `TransactionResult.BuildTable` | components/TransactionResult.tsx:125-166 | headers are exactly the first row's keys, in order; labels replace `_` by a space; one row per item and one cell per header holding `row[header]`; a cell reports `String(value)` on click iff callbacks were given and its column is a symbol column; rendering fails iff the first row is `null`, or there are headers and some row is `null`/`undefined` |
| `TransactionResult.Render` | components/TransactionResult.tsx:20-187 | the account branch shows `BuildAccount` of the first item and the table branch `BuildTable` of the wrapped data; rendering can fail only in those two branches and the confirmation branch; a confirmation shows the message unless the message is an object React cannot show, which fails |
| `TransactionResult.SimpleViewConfirms` | components/TransactionResult.tsx:47-48 | in the simple view a successful result is always confirmed with its message, whatever its data, unless the message cannot be rendered |
| `TransactionResult.FallbackConfirms` | components/TransactionResult.tsx:170-183 | a successful result with no data, or whose first item is not an object, is confirmed with its message, unless the message cannot be rendered |
| `TransactionResult.LoadingAndErrorComeFirst` | components/TransactionResult.tsx:21-42 | loading shows only the spinner; a non-empty error hides any result; an empty error text is not shown |
| `TransactionResult.UndecodableHoldingsShowNoPositions` | components/TransactionResult.tsx:55-64 | a holdings string that does not decode gives an account with no positions ("No active positions"), shown exactly when the owner and id can be rendered |
| `TransactionResult.DecodedHoldingsAreListed` | components/TransactionResult.tsx:59-64 | a holdings string that decodes to an object lists that object's entries, in order; it is shown exactly when the owner, the id and every quantity can be rendered |
| `TransactionResult.ObjectHoldingsAreListed` | components/TransactionResult.tsx:59 | holdings that are already an object are listed as they are; they are shown exactly when the owner, the id and every quantity can be rendered |
| `TransactionResult.SymbolColumnIgnoresCase` | components/TransactionResult.tsx:147 | for the ASCII case mapping of this model, whether a column is a symbol column (`symbol`, `ticker`, `name`) does not depend on letter case |
| `TransactionResult.FirstRowShowsFirstObject` | components/TransactionResult.tsx:126-155 | for a list of objects, header `j` is the first object's `j`-th key and the first row's cell `j` is its value |
| `App.LoginBody` | App.tsx:56 | a non-empty array is replaced by its first element; any other body is kept |
| `App.AcceptsLogin` | App.tsx:63 | a login is accepted only for a truthy flag; for a boolean flag, exactly when it is `true` |
| `App.RefusesRequest` | App.tsx:114 | a refused flag is never one a login accepts; a boolean flag refuses exactly when it is `false`, and the string `"false"` refuses although it is truthy |
| `App.LoginError` | App.tsx:55-77 | a login is accepted iff the response is ok, the body is not null and its `success` is `true` or `"true"`; a thrown error keeps its message |
| `App.LoginStatusFailureMessage` | App.tsx:58-60 | a failed status shows `message`, else `error`, else "Login failed with status N" |
| `App.LoginRefusalMessage` | App.tsx:63-67 | a refused login shows `message`, else "Login failed. Please check credentials." |
| `App.LoginReadsFirstElement` | App.tsx:55-56 | a body `[b, ...]` is judged exactly as `b` |
| `App.SubmitOutcome` | App.tsx:106-131 | a failed status is always an error; an ok reply is refused iff the body is truthy and its `success` is `false` or `"false"`; a stored result has `success: true`, the body as data, and the body's message or the default text |
| `App.SubmitStatusFailureMessage` | App.tsx:108-111 | a failed status shows `error`, else `message`, else "Request failed with status N" (the reverse of login's order) |
| `App.SubmitRefusalMessage` | App.tsx:114-115 | an ok reply whose `success` is `false` or `"false"` fails with the body's `message`, or without one with the handler's own text: "Operation failed. Please check the input and try again." on the tabs and "Operation failed." in the dialog (App.tsx:163-164) |
| `App.MissingSuccessFlag` | App.tsx:113-116 | an ok body without `success` fails a login but is a successful request |
| `App.TabMessage` | App.tsx:118-120 | each tab has a non-empty confirmation text, never the generic "Transaction processed successfully!" |
| `App.TabMessagesDiffer` | App.tsx:118-120 | the account tab and the stocks tab confirm with different texts |
| `App.WithPassword` | App.tsx:92-96 | the stored password is added exactly when logged in with a non-empty one; otherwise the form's payload is sent unchanged |
| `App.PlayerIdProp` | App.tsx:292 | `loggedInPlayerId || undefined` passes a non-zero id through and drops 0 and null |
| `App.StocksRequestAfterLogin` | App.tsx:295-300 | after logging in as `id` with a non-empty password, the stocks request carries `id`, that password and GET_STOCKS |
| `App.ModalConfirmsSuccess` | App.tsx:167-171 | the trade dialog shows every successful trade as a confirmation of its message, unless the message is an object React cannot show |
| `App.AppState.constructor` | App.tsx:13-31 | logged out, account tab, nothing loading, no result or error, dialog closed with no symbol |
| `App.AppState.MainView` | App.tsx:305-310 | the main result view shows the spinner while loading, then a non-empty error, and nothing exactly when there is no successful result |
| `App.AppState.ModalView` | App.tsx:344-349 | the dialog's view shows the spinner while loading, never an account summary or a table, and confirms with the stored result's own message |
| `App.AppState.HandleLogin` | App.tsx:33-81 | `loading` ends false; on acceptance the session holds the given id and password and the result is cleared; on failure the session and result are unchanged and the error is the login error; nothing else changes |
| `App.AppState.HandleSubmit` | App.tsx:83-135 | the request carries the injected password; `loading` ends false; success stores the result and no error, failure stores the error and no result; session and dialog untouched |
| `App.AppState.HandleModalSubmit` | App.tsx:137-179 | the same exchange, recorded only in the dialog's loading, result and error; the main view's result, error and loading are untouched |
| `App.AppState.CloseModal` | App.tsx:181-186 | closes the dialog and clears its result, error and loading |
| `App.AppState.HandleLogout` | App.tsx:188-195 | clears the session, result and error and returns to the account tab; the dialog is untouched |
| `App.AppState.HandleStockClick` | App.tsx:197-203 | selects the symbol, opens the dialog, and clears its result and error |
| `App.AppState.SelectTab` | App.tsx:268-277 | switching tab clears the result and the error |

## Left out

- HTTP transport, the webhook URLs, `fetch` and `response.json()` are not
  modelled. Their outcome is the `Reply` input.
- `async`/`await` interleaving is not modelled: each handler is atomic, so the
  intermediate `loading = true` state is never observed.
- JSON encoding of request bodies (`JSON.stringify`) is not modelled. Handlers
  return the payload record, not its serialised text or key order.
- `JSON.parse` of holdings is the `parse` parameter, a partial decoder with
  `None` for a syntax error. No concrete parser is given.
- Numbers are integers. NaN, fractions, `-0` and the loss of precision of
  `parseInt` beyond 2^53 are not represented.
- `IntToString`: writes every digit. JavaScript's `toString()` switches to
  exponent form from 10^21 on (`"1e+21"`), which `parseInt` reads as 1, so
  `ParseIntOfIntToString`, `PositiveNumberOfIntToString`, `IdFieldText` and
  `FilledIdIsRequested` hold for the source only for magnitudes below 10^21.
- `ParseInt` reads digits exactly. JavaScript returns a rounded value, or
  Infinity, for very long digit runs.
- `ToUpper`, `ToLower`, `UnderscoresToSpaces`, `IsSymbolColumn` and
  `SymbolColumnIgnoresCase`: case mapping covers ASCII letters only, so a
  header such as `TIC\u212AER` (with the Kelvin sign, which JavaScript
  lower-cases to `k`) is a symbol column in the source but not in the model.
  Strings are sequences of code points, not UTF-16 code units, which matters
  for string indices in `Object.keys` of a string.
- Property reads see own properties only. Inherited `Object.prototype`
  members (such as a column named `constructor`) are not modelled.
- The model does not enforce that an object lists each key once. It assumes
  this, and the `GetOfKey` lemma requires it where needed.
- JSX, CSS classes, `getTabClass`, `getTabBackgroundPosition`, icons,
  animations, `toLocaleString` formatting and `console.error` are not
  modelled. React's error for an object child is modelled only as the single
  outcome `RenderError`, not as its message.
- The `useEffect` scheduling is not modelled. Only the effect bodies are, as
  the `...Changed` methods.
- The fallback texts for non-`Error` throws ('Login failed.', 'An unknown
  error occurred.') are not modelled. Every throw in these handlers is an
  `Error`, so those texts cannot appear.
- The initial "Transaction processed successfully!" default of
  `handleSubmit` is not modelled. `activeTab` is always 'account' or
  'stocks', and each overrides it.
- Signup's success callback receives `player_id` as whatever value the body
  holds. Its declared `string` type is not enforced by the source and is not
  modelled.
- The wiring between components is modelled only by `PlayerIdProp`,
  `MainView`/`ModalView` and the lemmas that combine modules. This wiring is
  which form appears on which tab, and the dialog remounting `StockForm`.
