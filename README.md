# Options-spread webhook, modelled in Dafny

This project models a small cloud function that receives a JSON webhook and places multi-leg
option orders with a brokerage (Alpaca). Two parts are modelled:

- **trading_strategies.py**
  - `_get_option_symbol` builds an OCC option symbol. The symbol is made of:
    - the root, upper-cased and left-aligned in 6 columns;
    - the expiry as `YYMMDD`;
    - `C` or `P`;
    - the strike in thousandths, zero-padded to 8 digits.
  - Three builders check their strikes and build one multi-leg limit order:
    - `trade_bull_call_spread`;
    - `trade_bear_call_spread`;
    - `trade_iron_condor`.
- **main.py**: `handler`, the webhook entry point. It runs a fixed chain of guards:
  1. the HTTP method;
  2. the JSON body;
  3. the shared secret;
  4. the brokerage credentials;
  5. the client initialisation.

  It then dispatches on the strategy name and maps every exception to an HTTP status.

Both files are pure logic apart from their calls into Flask, the environment and the brokerage
library. They are modelled as datatypes, functions and lemmas:

| file | module | contents |
|---|---|---|
| `wrappers.dfy` | `Wrappers` | `Option` and `Result` |
| `exceptions.dfy` | `Exceptions` | the Python exception classes the code raises or catches |
| `text.dfy` | `Text` | the Python string operations used, on ASCII: `upper`, `lower`, `replace(c, '')`, `:<w` padding, `:0w` zero padding, `str(n)` of a natural number; also the reading back of a digit string and of trailing-space padding |
| `option_symbol.dfy` | `OptionSymbol` | `_get_option_symbol` and an independent decoder `Decode` that reads a symbol back into its fields |
| `strategies.dfy` | `Strategies` | the three builders, up to the call to `submit_order` |
| `webhook.dfy` | `Webhook` | `handler`, including the binding of `params` to a builder's keyword arguments |

Modelling choices:

- **Strikes** are integers in thousandths. The source multiplies a float by 1000 and truncates;
  the model takes that integer as its input.
- **Limit prices** are integers in cents: 50, 25 and 75.
- **JSON numbers** in the webhook's `params` are likewise held in thousandths.
- **The brokerage** is an input `Broker`. It says whether initialising the client raises, and
  whether submitting the order raises, and with which exception.
- **The response** records four things:
  - the status;
  - the text the handler returns (none for an `abort`);
  - the client that was set up;
  - the order that was handed to `submit_order`.

  So "no client is created" and "no order is submitted" are properties that can be stated.

## Model

| member | source | states |
|---|---|---|
| OptionSymbol.TypeChar | trading_strategies.py:20 | the type character is the capital of the first character of `option_type`; an empty `option_type` is an `IndexError`, and only then |
| OptionSymbol.TypeCharExamples | trading_strategies.py:19-20 | `'C'` and `'c'` give `C`, `'P'`, `'p'` and `'put'` give `P`, and `''` is an error |
| OptionSymbol.Symbol | trading_strategies.py:11-25 | the symbol fails exactly when `option_type` is empty; otherwise it is the root field, the date field, the type character and the strike field laid end to end |
| OptionSymbol.RootField | trading_strategies.py:25 | the `{underlying_symbol.upper():<6}` field; its properties are stated by `RootFieldShape` and `LongRootKept` |
| OptionSymbol.DateField | trading_strategies.py:17 | `expiration_date.replace('-', '')[2:]`; its `YYYY-MM-DD` case is stated by `DateFieldOfIsoDate` |
| OptionSymbol.StrikeField | trading_strategies.py:23 | the `f"{n:08d}"` field of a strike of n thousandths; its properties are stated by `StrikeFieldShape` and `StrikeRoundTrip` |
| OptionSymbol.Format | trading_strategies.py:25 | the four fields laid end to end; `FormatPrefix` and `FormatRoundTrip` state what it gives |
| OptionSymbol.RootFieldShape | trading_strategies.py:25 | the root field is `max(len, 6)` long, starts with the whole upper-cased underlying and is space-filled after it (no truncation) |
| OptionSymbol.LongRootKept | trading_strategies.py:25 | for an underlying longer than 6 characters, the symbol still starts with the whole upper-cased underlying |
| OptionSymbol.DateFieldOfIsoDate | trading_strategies.py:16-17 | for a `YYYY-MM-DD` expiration, removing every `-` and dropping two characters gives the six digits `YYMMDD` |
| OptionSymbol.StrikeFieldShape | trading_strategies.py:22-23 | the strike field is at least 8 characters; a negative strike starts with `-`; a non-negative one is all digits and reads back as the strike |
| OptionSymbol.StrikeRoundTrip | trading_strategies.py:22-23 | a strike of 0 to 10^8 - 1 thousandths gives exactly 8 digits that read back as that strike |
| OptionSymbol.SymbolLength | trading_strategies.py:17-25 | an underlying of at most 6 characters, a `YYYY-MM-DD` date and a strike below 10^8 thousandths give a symbol of exactly 21 characters |
| OptionSymbol.SymbolPrefix | trading_strategies.py:25 | every symbol starts with the root field, then the date field, then the type character |
| OptionSymbol.FormatPrefix | trading_strategies.py:25 | the same prefix property for the four fields laid end to end, for any type character |
| OptionSymbol.Decode | trading_strategies.py:25 | the reader of a symbol returns a six-character expiry and a root with no trailing space |
| OptionSymbol.DecodeParts | trading_strategies.py:25 | decoding root + six date characters + type + eight digits splits it back into those parts |
| OptionSymbol.FormatRoundTrip | trading_strategies.py:17-25 | decoding the formatted fields gives back the upper-cased underlying (of any length), `YYMMDD`, the type and the strike |
| OptionSymbol.SymbolRoundTrip | trading_strategies.py:11-25 | round trip: decoding `_get_option_symbol`'s result returns the fields it was built from |
| Text.Upper | trading_strategies.py:20 | `upper()` keeps the length and capitalises each ASCII letter in place |
| Text.Lower | main.py:56 | `lower()` keeps the length and lower-cases each ASCII letter in place |
| Text.RemoveAll | trading_strategies.py:17 | `replace('-', '')` leaves no `-` and never lengthens the string |
| Text.RemoveAllAppend | trading_strategies.py:17 | removing a character distributes over concatenation |
| Text.PadRight | trading_strategies.py:25 | `:<w` padding keeps the string as a prefix, fills with spaces and gives length `max(len, w)` |
| Text.TrimRightPadRight | trading_strategies.py:25 | trimming trailing spaces undoes the root padding for a root that does not end in a space |
| Text.Digits | trading_strategies.py:23 | the decimal rendering of a natural number is non-empty, all digits and has no leading zero |
| Text.ZeroPad | trading_strategies.py:23 | the zero padding of `:08d`: length `max(len, w)`, the digits at the end and `0`s before them |
| Text.DigitsRoundTrip | trading_strategies.py:23 | reading the decimal rendering of n gives n |
| Text.DigitsLength | trading_strategies.py:23 | a number below 10^k has at most k digits, so `:08d` adds no extra width below 10^8 |
| Text.LeadingZeros | trading_strategies.py:23 | leading zeros do not change the value of a digit string |
| Text.ZeroPadRoundTrip | trading_strategies.py:23 | the zero-padded rendering of n, at any width, reads back as n |
| Strategies.BullCallSpreadStrikes | trading_strategies.py:44-45 | passes iff `long_strike < short_strike`, and otherwise raises the source's `ValueError` message |
| Strategies.BearCallSpreadStrikes | trading_strategies.py:101-102 | passes iff `short_strike < long_strike`, and otherwise raises its `ValueError` |
| Strategies.IronCondorStep | trading_strategies.py:156-157 | one comparison of the chain: passes iff the lower strike is below the upper one, otherwise the condor's `ValueError` |
| Strategies.IronCondorStrikes | trading_strategies.py:156-157 | passes iff the four strikes are strictly ascending, and otherwise raises its `ValueError` |
| Strategies.BullCallSpread | trading_strategies.py:44-73 | rejected with exactly the source's `ValueError` message iff not `long_strike < short_strike`; otherwise: net BUY, LIMIT, MULTILEG, limit 50 cents, the underlying as symbol, and legs `[BUY call@long, SELL call@short]`, each with `qty = quantity`, LIMIT and the time in force |
| Strategies.BearCallSpread | trading_strategies.py:101-131 | rejected with its `ValueError` iff not `short_strike < long_strike`; otherwise: net SELL, limit 25 cents, legs `[SELL call@short, BUY call@long]` |
| Strategies.IronCondor | trading_strategies.py:156-179 | rejected with its `ValueError` iff the four strikes are not strictly ascending; otherwise: net SELL, limit 75 cents, legs `[BUY P@long_put, SELL P@short_put, SELL C@short_call, BUY C@long_call]` with no leg type or time in force |
| Strategies.LegReadsBack | trading_strategies.py:47-48 | a leg symbol built from a readable underlying, date and strike decodes to that type and strike |
| Strategies.LegPairReadsBack | trading_strategies.py:159-162 | two such legs decode to their two strikes |
| Strategies.BullCallSpreadLegs | trading_strategies.py:44-73 | the bought leg decodes as a call at the lower strike, the sold leg as a call at the higher one |
| Strategies.BearCallSpreadLegs | trading_strategies.py:101-131 | the sold leg decodes as a call at the lower strike, the bought leg as a call at the higher one |
| Strategies.IronCondorPutLegs | trading_strategies.py:159-175 | the first two legs decode as puts at the two lower strikes, the outer one bought and the inner one sold |
| Strategies.IronCondorCallLegs | trading_strategies.py:161-178 | the last two legs decode as calls at the two higher strikes, the inner one sold and the outer one bought |
| Strategies.IronCondorSharedPrefix | trading_strategies.py:159-179 | all four condor legs start with the same root and expiry prefix |
| Strategies.FormatStartsWith | trading_strategies.py:25 | every formatted symbol strictly starts with its root and date fields |
| Strategies.IronCondorContainsBearCallSpread | trading_strategies.py:153-179 | the condor's call legs have the same symbols and sides as the bear call spread's legs at the same strikes, and the condor is rejected whenever that spread is |
| Webhook.Handle | main.py:15-94 | the status is one of 200, 400, 403, 405, 500; a client is set up exactly when every guard passes, and with the environment's credentials; an order is submitted only after that and only for a known strategy |
| Webhook.MethodGuard | main.py:34-36 | any method other than POST is a bare 405 |
| Webhook.ForbiddenExactly | main.py:39-50 | 403 exactly when, on a POST with parseable JSON, the secret is unset or empty, or the payload object's secret differs; 403 sets up nothing |
| Webhook.AuthenticationBeforeCredentials | main.py:47-66 | an unauthenticated request gets the same response whatever the credentials, the paper-trading flag and the brokerage do; it is never 200 and never sets up a client |
| Webhook.MissingCredentials | main.py:54-60 | after authentication, a missing or empty API key or secret is a bare 500 |
| Webhook.ClientInitFailure | main.py:62-66 | after the credentials check, a client that fails to initialise is a bare 500 |
| Webhook.PaperTradingSetting | main.py:56 | paper trading is on iff the lower-cased `ALPACA_PAPER_TRADING` is `true`, and on when it is unset |
| Webhook.PaperTrading | main.py:56 | `os.environ.get('ALPACA_PAPER_TRADING', 'true').lower() == 'true'`; stated by `PaperTradingSetting` |
| Webhook.ParameterNames | trading_strategies.py:27-34 | the required keyword parameters of each builder after `client`, in declaration order (likewise for the signatures at lines 84-91 and 141-150) |
| Webhook.ErrorText | main.py:87-94 | the text of an error response: `Invalid parameters: ` or `Execution error: ` followed by the exception's message |
| Webhook.StrategyOf | main.py:75-80 | each of the three exact strings, and only it, names its strategy |
| Webhook.UnknownStrategy | main.py:81-83 | any other name, an absent one included, gives `('Unknown strategy', 400)` with no order |
| Webhook.OnlyKnownStrategiesSubmit | main.py:69-85 | an order is submitted only when every guard passed, the name is known and `params` is an object; the order is the one the builder built from it |
| Webhook.AbsentParamsDefault | main.py:70 | an absent `params` behaves exactly as `{}` |
| Webhook.AbsentParamsRejected | main.py:70-90 | so a known strategy with no `params` is a 400 with no order |
| Webhook.Route | main.py:69-94 | after the guards the status is 200, 400 or 500, the client is kept, and 200 means an order was built and submitted without an exception |
| Webhook.OutcomeStatus | main.py:74-94 | 200 iff the builder succeeds and the submission raises nothing; a builder exception gets its class's status with no order; a submission exception gets its class's status |
| Webhook.ErrorStatus | main.py:87-94 | `ValueError` and `TypeError` give 400, every other exception gives 500 (both directions) |
| Webhook.ParamsNotMapping | main.py:76-90 | a `params` that is not an object cannot be unpacked with `**`: a `TypeError`, 400, no order |
| Webhook.Invoke | main.py:75-80 | in the model, every exception a builder call raises before the submission is a `ValueError`, a `TypeError` or an `AttributeError` |
| Webhook.CallBullCallSpread | main.py:76 | in the model, `trade_bull_call_spread(client=client, **params)` fails before the submission only with a `ValueError`, a `TypeError` or an `AttributeError`, and an `AttributeError` is the one raised by reading the text arguments |
| Webhook.CallBearCallSpread | main.py:78 | the same for `trade_bear_call_spread` |
| Webhook.CallIronCondor | main.py:80 | the same for `trade_iron_condor`, whose strikes are read and compared pair by pair as the chained comparison at trading_strategies.py:156 evaluates them |
| Webhook.Missing | main.py:76-80 | the first required keyword that `params` lacks (every earlier one is present); none is reported iff every required keyword is present |
| Webhook.CheckKeywords | main.py:76-80 | a second `client`, an undeclared keyword or a missing required one is a `TypeError` |
| Webhook.CheckKeywordsBinds | main.py:76-80 | the keyword check passes exactly when `params` binds to the builder's signature |
| Webhook.TimeInForceArg | trading_strategies.py:34 | an absent `time_in_force` defaults to `TimeInForce.DAY`; a string one is passed through |
| Webhook.ReadCommon | trading_strategies.py:17-25 | reading the arguments every builder shares, after its strike check, fails only with an `AttributeError` or one of the model's `TypeError`s |
| Webhook.ReadCommonRead | trading_strategies.py:17-25 | string expiration and underlying, a whole quantity and a readable time in force give exactly those shared arguments |
| Webhook.WholeQuantityRead | main.py:76-80 | a quantity given as a whole number reads back as that number |
| Webhook.InvokeNeedsBinding | main.py:76-80 | an order is built only from params that bind to the builder's parameters |
| Webhook.InvokeBullCallSpread | main.py:75-76 | params that bind, with values of the right kinds, reach `trade_bull_call_spread` with exactly those values |
| Webhook.InvokeBearCallSpread | main.py:77-78 | the same for `trade_bear_call_spread` |
| Webhook.InvokeIronCondor | main.py:79-80 | the same for `trade_iron_condor` |
| Webhook.MinimalBullCallSpreadParamsBind | main.py:19-30 | the payload shape in the handler's docstring binds to `trade_bull_call_spread` |
| Webhook.StrikeOrderCheckedFirst | trading_strategies.py:44-47 | params that bind, with numeric strikes out of order, give the bull call spread's `ValueError` whatever the underlying, expiration and quantity are |
| Webhook.IronCondorFirstComparisonFails | trading_strategies.py:156-157 | with the put strikes out of order the condor raises its `ValueError`, whatever the call strikes are (a `null` or string one included) |
| Webhook.IronCondorSecondComparisonFails | trading_strategies.py:156-157 | with the puts in order but the short call not above the short put, the same `ValueError`, whatever the long call strike is |
| Webhook.NonStringTextArgument | trading_strategies.py:17-25 | params that bind, with numeric strikes in order but an underlying or expiration that is not a string, make `trade_bull_call_spread` raise `AttributeError` |
| Webhook.NonStringSymbolArgument | main.py:76-94 | such a request is answered 500 with no order submitted |
| Webhook.AttributeErrorSource | trading_strategies.py:17-25 | a builder raises `AttributeError` only for params that bind and whose underlying or expiration is not a string |
| Webhook.ReadCommonAttributeError | trading_strategies.py:17-25 | reading the shared arguments raises `AttributeError` only when the underlying or the expiration is not a string |
| Webhook.UnexpectedKeyword | main.py:76-90 | a `client` key or an undeclared keyword in `params` is a `TypeError`, before any order is built |

## Left out

- `initialize_alpaca_client` and `client.submit_order` are calls into the brokerage library. They
  are inputs (`Broker`): whether each one raises, and what.
  - The builders' `except APIError: ... raise` re-raises unchanged. So an exception from the
    submission reaches the handler's mapping as it is, and that is what is modelled.
- Float arithmetic is not modelled: strikes are integer thousandths and limit prices are integer
  cents. `int(strike * 1000)` can truncate a float such as 0.29 * 1000 to 289; the model does not
  capture that.
- Flask is left out: `request.get_json` and the body `abort` produces. The request's method and
  body are inputs:
  - a body that fails to parse;
  - valid JSON that is not an object;
  - an object.

  A JSON body that is not an object makes `data.get` raise an uncaught `AttributeError` once the
  secret is set. Flask answers that with 500, and the model has exactly that response
  (`Abort(500)`) without naming the exception.
- `os.environ` is replaced by the `Env` input.
- All `print` logging is left out.
- JSON values in `params` are strings, numbers (in thousandths) or anything else (`OtherJson`).
  `**params` passes every value to the builder unchanged, and what happens then is modelled as
  follows.
  - An `underlying_symbol` or `expiration_date` that is not a string is faithful. Once the strikes
    are in order, `.replace` (trading_strategies.py:17) or `.upper()` (:25) raises
    `AttributeError`, and the handler answers 500 (`TextArg`, `NonStringSymbolArgument`).
  - StrikeArg: a strike that is not a number is taken as a `TypeError` (400) when a comparison of
    the strike check reaches it. Python raises that `TypeError` when it compares a number with a
    string, `null`, an array or an object, and when it compares two values of different kinds
    (other than a boolean and a number).
    It also raises it for two `null`s or two objects, because those do not support `<`. The iron
    condor's chained comparison stops at its first failure, and the model reads its strikes in the
    same order. The model does not cover two values of a kind Python does compare (strings, arrays,
    booleans):
    - Two strings compare as strings. Then `int(s * 1000)` at trading_strategies.py:23 runs on the
      string repeated 1000 times. A string that `int()` still reads after that repetition passes,
      and any other string raises `ValueError` (400). Whether a string is read depends on Python's
      grammar for `int`, which accepts `_` between digits and non-ASCII decimal digits, and on the
      limit its version sets on the number of digits.
    - Two JSON arrays compare too (`[1] < [2]`). Then :17 raises `AttributeError` (500) for an
      expiration that is not a string, or `int(list)` at :23 raises `TypeError` (400).
    - Booleans act as 0 and 1, against each other and against numbers.
  - QuantityArg and TimeInForceArg are the model's own checks. A `quantity` that is not a whole
    number, or a `time_in_force` that is not a string, is a `TypeError` (400). The source hands
    both unchecked to `OptionOrderRequest` in the brokerage library, which is not part of this
    model.
- The exception messages the model carries for `TypeError`s and `AttributeError`s are
  placeholders. The status and the exception class are modelled; the exact wording of Python's
  messages is not.
- `upper()` and `lower()` are modelled on ASCII only. Python's Unicode case mapping (which can
  change a string's length, as `'ß'.upper()` does) is not modelled.
- `TimeInForce` and the other enumerations of the brokerage library are plain values. The
  module-level imports of `alpaca_trade_api` are not part of this model.
- The docstring of `_get_option_symbol` gives `SPY251219C00500000`, an unpadded root. The code
  pads the root to 6 columns, which gives `SPY   251219C00500000`. The model follows the code.
- `handler`'s payload example is modelled only for its shape (`MinimalBullCallSpreadParamsBind`).
  Its concrete values are not evaluated.
