/** The webhook `handler` of main.py: a chain of guards (method, shared secret, brokerage
    credentials, client initialisation), then dispatch on the strategy name, with every
    exception mapped to an HTTP status. Flask, the environment and the brokerage client are
    inputs; the result records the status, the text returned, the client that was set up and
    the order that was handed to the brokerage. */
module Webhook {
  import opened Wrappers
  import opened Exceptions
  import opened Text
  import opened Strategies

  /** A JSON value as the handler sees it; numbers are held in thousandths. */
  datatype Value = Str(text: string) | Num(milli: int) | OtherJson

  /** The `params` member: a JSON object, or anything else (which `**` cannot unpack). */
  datatype Params = Mapping(args: map<string, Value>) | NotMapping

  /** The members of the JSON object the handler reads; None is an absent member. */
  datatype Payload = Payload(secretKey: Option<Value>, strategy: Option<Value>, params: Option<Params>)

  /** The request body: not parseable as JSON, valid JSON that is not an object, or an object. */
  datatype Body = Malformed | NotAnObject | Object(payload: Payload)

  datatype Request = Request(httpMethod: string, body: Body)

  /** WEBHOOK_SECRET_KEY, ALPACA_API_KEY, ALPACA_SECRET_KEY and ALPACA_PAPER_TRADING. */
  datatype Env = Env(webhookSecret: Option<string>, apiKey: Option<string>, apiSecret: Option<string>,
                     paperTrading: Option<string>)

  /** What the two calls into the brokerage library raise, if anything: initialising the client
      and submitting the order. */
  datatype Broker = Broker(initError: Option<Exception>, submitError: Option<Exception>)

  /** The brokerage client the handler initialises. */
  datatype Client = Client(apiKey: string, secretKey: string, paper: bool)

  /** The HTTP status, the text returned (None for an `abort`), the client that was set up and the
      order handed to `submit_order`. */
  datatype Response = Response(status: nat, text: Option<string>, client: Option<Client>, submitted: Option<Order>)

  datatype StrategyName = BullCallSpreadName | BearCallSpreadName | IronCondorName

  const UnknownStrategyText := "Unknown strategy"
  const SuccessText := "Order submitted successfully."

  /** An `abort(status)`: no text of the handler's own, no client, no order. */
  function Abort(status: nat): Response {
    Response(status, None, None, None)
  }

  /** An environment variable is set to a non-empty value (Python truthiness of the string). */
  predicate IsSet(v: Option<string>) {
    v.Some? && v.value != ""
  }

  /** `os.environ.get('ALPACA_PAPER_TRADING', 'true').lower() == 'true'`. */
  function PaperTrading(env: Env): bool {
    Lower(env.paperTrading.GetOr("true")) == "true"
  }

  /** The request carries the shared secret held in WEBHOOK_SECRET_KEY. */
  predicate Authenticated(req: Request, env: Env) {
    && IsSet(env.webhookSecret)
    && req.body.Object?
    && req.body.payload.secretKey == Some(Str(env.webhookSecret.value))
  }

  /** Every guard before the strategy dispatch passes. */
  predicate Ready(req: Request, env: Env, broker: Broker) {
    && req.httpMethod == "POST"
    && Authenticated(req, env)
    && IsSet(env.apiKey) && IsSet(env.apiSecret)
    && broker.initError.None?
  }

  function ClientOf(env: Env): Client
    requires IsSet(env.apiKey) && IsSet(env.apiSecret)
  {
    Client(env.apiKey.value, env.apiSecret.value, PaperTrading(env))
  }

  /** The strategy a `strategy` member names; only three exact strings name one. */
  function StrategyOf(strategy: Option<Value>): (r: Option<StrategyName>)
    ensures r == Some(BullCallSpreadName) <==> strategy == Some(Str("bull_call_spread"))
    ensures r == Some(BearCallSpreadName) <==> strategy == Some(Str("bear_call_spread"))
    ensures r == Some(IronCondorName) <==> strategy == Some(Str("iron_condor"))
  {
    if strategy == Some(Str("bull_call_spread")) then Some(BullCallSpreadName)
    else if strategy == Some(Str("bear_call_spread")) then Some(BearCallSpreadName)
    else if strategy == Some(Str("iron_condor")) then Some(IronCondorName)
    else None
  }

  const TimeInForceParam := "time_in_force"
  const ClientParam := "client"

  /** The required keyword parameters of each builder, in declaration order. */
  function ParameterNames(s: StrategyName): seq<string> {
    match s
    case BullCallSpreadName =>
      ["underlying_symbol", "expiration_date", "long_strike", "short_strike", "quantity"]
    case BearCallSpreadName =>
      ["underlying_symbol", "expiration_date", "short_strike", "long_strike", "quantity"]
    case IronCondorName =>
      ["underlying_symbol", "expiration_date", "long_put_strike", "short_put_strike",
       "short_call_strike", "long_call_strike", "quantity"]
  }

  /** The first required name that the arguments do not supply. */
  function Missing(names: seq<string>, args: map<string, Value>): (r: Option<string>)
    ensures r.None? <==> forall i :: 0 <= i < |names| ==> names[i] in args
    ensures r.Some? ==> exists i :: 0 <= i < |names| && names[i] == r.value && r.value !in args
                                 && forall j :: 0 <= j < i ==> names[j] in args
  {
    if names == [] then None
    else if names[0] !in args then Some(names[0])
    else Missing(names[1..], args)
  }

  /** The keywords of `params` bind to the builder's parameters: no second `client`, no keyword the
      builder does not declare, and every required parameter supplied. */
  predicate Binds(s: StrategyName, args: map<string, Value>) {
    && ClientParam !in args
    && (forall k :: k in args ==> k in ParameterNames(s) || k == TimeInForceParam)
    && (forall i :: 0 <= i < |ParameterNames(s)| ==> ParameterNames(s)[i] in args)
  }

  /** Binding `f(client=client, **params)`: a second `client` or an unknown keyword is a TypeError,
      and so is a required parameter that is missing. */
  function CheckKeywords(s: StrategyName, args: map<string, Value>): (r: Result<(), Exception>)
    ensures r.Failure? ==> r.error.TypeError?
  {
    if ClientParam in args then
      Failure(TypeError("got multiple values for keyword argument 'client'"))
    else if exists k :: k in args && k !in ParameterNames(s) && k != TimeInForceParam then
      Failure(TypeError("got an unexpected keyword argument"))
    else match Missing(ParameterNames(s), args)
      case Some(name) => Failure(TypeError("missing a required argument: '" + name + "'"))
      case None => Success(())
  }

  /** The keyword check passes exactly when the params bind. */
  lemma CheckKeywordsBinds(s: StrategyName, args: map<string, Value>)
    ensures CheckKeywords(s, args).Success? <==> Binds(s, args)
  {
  }

  /** A string argument the builder calls a string method on (`expiration_date.replace`,
      `underlying_symbol.upper`): no other JSON value has that method, so the call raises
      AttributeError. */
  function TextArg(args: map<string, Value>, name: string, stringMethod: string): (r: Result<string, Exception>)
    ensures r.Success? <==> name in args && args[name].Str?
    ensures r.Success? ==> r.value == args[name].text
    ensures r.Failure? ==> r.error.AttributeError?
  {
    if name in args && args[name].Str? then Success(args[name].text)
    else Failure(AttributeError("object has no attribute '" + stringMethod + "'"))
  }

  /** A strike argument, in thousandths; anything but a number is taken as a TypeError. */
  function StrikeArg(args: map<string, Value>, name: string): (r: Result<int, Exception>)
    ensures r.Success? <==> name in args && args[name].Num?
    ensures r.Success? ==> r.value == args[name].milli
    ensures r.Failure? ==> r.error.TypeError?
  {
    if name in args && args[name].Num? then Success(args[name].milli)
    else Failure(TypeError("'<' not supported for argument '" + name + "'"))
  }

  /** The quantity, which the order takes as a whole number; anything else is taken as a TypeError. */
  function QuantityArg(args: map<string, Value>): (r: Result<int, Exception>)
    ensures r.Success? <==> "quantity" in args && args["quantity"].Num? && args["quantity"].milli % 1000 == 0
    ensures r.Success? ==> r.value * 1000 == args["quantity"].milli
    ensures r.Failure? ==> r.error.TypeError?
  {
    if "quantity" in args && args["quantity"].Num? && args["quantity"].milli % 1000 == 0 then
      Success(args["quantity"].milli / 1000)
    else
      Failure(TypeError("argument 'quantity' must be a whole number"))
  }

  /** The optional time in force, TimeInForce.DAY when absent; a value that is not a string is
      taken as a TypeError. */
  function TimeInForceArg(args: map<string, Value>): (r: Result<string, Exception>)
    ensures TimeInForceParam !in args ==> r == Success(Day)
    ensures TimeInForceParam in args && args[TimeInForceParam].Str? ==> r == Success(args[TimeInForceParam].text)
    ensures TimeInForceParam in args && !args[TimeInForceParam].Str? ==> r.Failure? && r.error.TypeError?
  {
    if TimeInForceParam !in args then Success(Day)
    else if args[TimeInForceParam].Str? then Success(args[TimeInForceParam].text)
    else Failure(TypeError("argument 'time_in_force' must be a string"))
  }

  /** The arguments all three builders take. */
  datatype CommonArgs = CommonArgs(underlying: string, expiration: string, quantity: int, timeInForce: string)

  /** What a builder does with its other arguments once its strikes are in order: the expiration
      and the underlying are used as strings when the first leg symbol is formatted
      (trading_strategies.py:17, then :25), then the quantity and the time in force go into the order. */
  function ReadCommon(args: map<string, Value>): (r: Result<CommonArgs, Exception>)
    ensures r.Failure? ==> r.error.AttributeError? || r.error.TypeError?
  {
    var expiration :- TextArg(args, "expiration_date", "replace");
    var underlying :- TextArg(args, "underlying_symbol", "upper");
    var quantity :- QuantityArg(args);
    var timeInForce :- TimeInForceArg(args);
    Success(CommonArgs(underlying, expiration, quantity, timeInForce))
  }

  /** The exceptions a builder call can raise before the order is submitted. */
  predicate IsBuilderError(e: Exception) {
    IsParameterError(e) || e.AttributeError?
  }

  /** `trade_bull_call_spread(client=client, **params)` up to the submission: bind the keywords,
      compare the strikes, then format the symbols and build the order. */
  function CallBullCallSpread(args: map<string, Value>): (r: Result<Order, Exception>)
    ensures r.Failure? ==> IsBuilderError(r.error)
    ensures r.Failure? && r.error.AttributeError? ==> ReadCommon(args) == Failure(r.error)
  {
    var _ :- CheckKeywords(BullCallSpreadName, args);
    var longStrike :- StrikeArg(args, "long_strike");
    var shortStrike :- StrikeArg(args, "short_strike");
    // The comparison of trading_strategies.py:44, run here so that it comes before the text
    // arguments are read; the builder repeats it, and on numbers the two agree.
    var _ :- BullCallSpreadStrikes(longStrike, shortStrike);
    var common :- ReadCommon(args);
    BullCallSpread(common.underlying, common.expiration, longStrike, shortStrike, common.quantity, common.timeInForce)
  }

  /** `trade_bear_call_spread(client=client, **params)` up to the submission. */
  function CallBearCallSpread(args: map<string, Value>): (r: Result<Order, Exception>)
    ensures r.Failure? ==> IsBuilderError(r.error)
    ensures r.Failure? && r.error.AttributeError? ==> ReadCommon(args) == Failure(r.error)
  {
    var _ :- CheckKeywords(BearCallSpreadName, args);
    var shortStrike :- StrikeArg(args, "short_strike");
    var longStrike :- StrikeArg(args, "long_strike");
    // The comparison of trading_strategies.py:101, run here so that it comes before the text
    // arguments are read; the builder repeats it, and on numbers the two agree.
    var _ :- BearCallSpreadStrikes(shortStrike, longStrike);
    var common :- ReadCommon(args);
    BearCallSpread(common.underlying, common.expiration, shortStrike, longStrike, common.quantity, common.timeInForce)
  }

  /** `trade_iron_condor(client=client, **params)` up to the submission: bind the keywords, run
      the chained strike comparison, then format the symbols and build the order. */
  function CallIronCondor(args: map<string, Value>): (r: Result<Order, Exception>)
    ensures r.Failure? ==> IsBuilderError(r.error)
    ensures r.Failure? && r.error.AttributeError? ==> ReadCommon(args) == Failure(r.error)
  {
    var _ :- CheckKeywords(IronCondorName, args);
    // The chained comparison of trading_strategies.py:156 reads each strike only when a
    // comparison reaches it. The builder repeats the check as IronCondorStrikes, which on
    // numbers passes exactly when the three steps do; the source checks only once.
    var longPut :- StrikeArg(args, "long_put_strike");
    var shortPut :- StrikeArg(args, "short_put_strike");
    var _ :- IronCondorStep(longPut, shortPut);
    var shortCall :- StrikeArg(args, "short_call_strike");
    var _ :- IronCondorStep(shortPut, shortCall);
    var longCall :- StrikeArg(args, "long_call_strike");
    var _ :- IronCondorStep(shortCall, longCall);
    var common :- ReadCommon(args);
    IronCondor(common.underlying, common.expiration, longPut, shortPut, shortCall, longCall,
               common.quantity, common.timeInForce)
  }

  /** The `if`/`elif` dispatch of a known strategy name to its builder. Every exception a builder
      call raises before the submission is a ValueError, a TypeError or an AttributeError. */
  function Invoke(s: StrategyName, args: map<string, Value>): (r: Result<Order, Exception>)
    ensures r.Failure? ==> IsBuilderError(r.error)
  {
    match s
    case BullCallSpreadName => CallBullCallSpread(args)
    case BearCallSpreadName => CallBearCallSpread(args)
    case IronCondorName => CallIronCondor(args)
  }

  /** An order is built only from params that bind to the builder's parameters. */
  lemma InvokeNeedsBinding(s: StrategyName, args: map<string, Value>)
    ensures Invoke(s, args).Success? ==> Binds(s, args)
  {
    CheckKeywordsBinds(s, args);
  }

  /** ValueError and TypeError are bad parameters (400); every other exception is an execution error (500). */
  function ErrorStatus(e: Exception): (status: nat)
    ensures status == 400 <==> IsParameterError(e)
    ensures status == 500 <==> !IsParameterError(e)
  {
    if IsParameterError(e) then 400 else 500
  }

  function ErrorText(e: Exception): string {
    if IsParameterError(e) then "Invalid parameters: " + e.message else "Execution error: " + e.message
  }

  function ErrorResponse(client: Client, e: Exception, submitted: Option<Order>): Response {
    Response(ErrorStatus(e), Some(ErrorText(e)), Some(client), submitted)
  }

  /** Step 3 of the handler: route to the strategy and map its outcome to a response. */
  function Route(payload: Payload, client: Client, submitError: Option<Exception>): (r: Response)
    ensures r.status in {200, 400, 500}
    ensures r.client == Some(client)
    ensures r.status == 200 <==> r.submitted.Some? && submitError.None?
  {
    match StrategyOf(payload.strategy)
    case None => Response(400, Some(UnknownStrategyText), Some(client), None)
    case Some(s) =>
      match payload.params.GetOr(Mapping(map[]))
      case NotMapping =>
        ErrorResponse(client, TypeError("argument after ** must be a mapping"), None)
      case Mapping(args) =>
        match Invoke(s, args)
        case Failure(e) => ErrorResponse(client, e, None)
        case Success(order) =>
          match submitError
          case Some(e) => ErrorResponse(client, e, Some(order))
          case None => Response(200, Some(SuccessText), Some(client), Some(order))
  }

  /** `handler(request)`. */
  function Handle(req: Request, env: Env, broker: Broker): (r: Response)
    ensures r.status in {200, 400, 403, 405, 500}
    ensures r.client.Some? <==> Ready(req, env, broker)
    ensures r.client.Some? ==> r.client.value == ClientOf(env)
    ensures r.submitted.Some? ==> r.client.Some? && StrategyOf(req.body.payload.strategy).Some?
  {
    if req.httpMethod != "POST" then Abort(405)
    else if req.body.Malformed? then Abort(400)
    // `not expected_secret or data.get(...)`: the payload is only read when the secret is set,
    // and `data.get` on a JSON value that is not an object raises AttributeError, which Flask
    // turns into 500.
    else if !IsSet(env.webhookSecret) then Abort(403)
    else if req.body.NotAnObject? then Abort(500)
    else if req.body.payload.secretKey != Some(Str(env.webhookSecret.value)) then Abort(403)
    else if !(IsSet(env.apiKey) && IsSet(env.apiSecret)) then Abort(500)
    else if broker.initError.Some? then Abort(500)
    else Route(req.body.payload, ClientOf(env), broker.submitError)
  }

  // ---------------------------------------------------------------------------------------------
  // The guard chain

  /** Any method other than POST gives 405 before the payload or the secret is looked at. */
  lemma MethodGuard(req: Request, env: Env, broker: Broker)
    requires req.httpMethod != "POST"
    ensures Handle(req, env, broker) == Abort(405)
  {
  }

  /** 403 exactly when the secret is unset or empty, or the payload's secret differs from it;
      nothing is set up and nothing is submitted then. */
  lemma ForbiddenExactly(req: Request, env: Env, broker: Broker)
    ensures Handle(req, env, broker).status == 403 <==>
      && req.httpMethod == "POST" && !req.body.Malformed?
      && (!IsSet(env.webhookSecret) || (req.body.Object? && !Authenticated(req, env)))
    ensures Handle(req, env, broker).status == 403 ==> Handle(req, env, broker) == Abort(403)
  {
  }

  /** The guards run in a fixed order: a request that fails authentication gets the same response
      whatever the brokerage credentials and the brokerage's behaviour, so a bad secret gives 403
      even when the credentials are missing. */
  lemma AuthenticationBeforeCredentials(req: Request, env: Env, broker: Broker,
                                        apiKey: Option<string>, apiSecret: Option<string>,
                                        paperTrading: Option<string>, broker': Broker)
    requires !Authenticated(req, env)
    ensures Handle(req, env, broker)
         == Handle(req, env.(apiKey := apiKey, apiSecret := apiSecret, paperTrading := paperTrading), broker')
    ensures Handle(req, env, broker).status in {400, 403, 405, 500}
    ensures Handle(req, env, broker).client.None?
  {
  }

  /** Missing credentials give 500, and only once authentication has passed. */
  lemma MissingCredentials(req: Request, env: Env, broker: Broker)
    requires req.httpMethod == "POST" && Authenticated(req, env)
    requires !(IsSet(env.apiKey) && IsSet(env.apiSecret))
    ensures Handle(req, env, broker) == Abort(500)
  {
  }

  /** A client that fails to initialise gives 500, with no order. */
  lemma ClientInitFailure(req: Request, env: Env, broker: Broker)
    requires req.httpMethod == "POST" && Authenticated(req, env) && IsSet(env.apiKey) && IsSet(env.apiSecret)
    requires broker.initError.Some?
    ensures Handle(req, env, broker) == Abort(500)
  {
  }

  /** The client is set up with paper trading on exactly when the lower-cased ALPACA_PAPER_TRADING
      is "true"; unset, it defaults to "true". */
  lemma PaperTradingSetting(env: Env)
    ensures env.paperTrading.None? ==> PaperTrading(env)
    ensures env.paperTrading.Some? ==> (PaperTrading(env) <==> Lower(env.paperTrading.value) == "true")
    ensures env.paperTrading == Some("TRUE") ==> PaperTrading(env)
    ensures env.paperTrading == Some("True") ==> PaperTrading(env)
    ensures env.paperTrading == Some("false") ==> !PaperTrading(env)
    ensures env.paperTrading == Some("") ==> !PaperTrading(env)
  {
  }

  // ---------------------------------------------------------------------------------------------
  // Dispatch and the exception-to-status mapping

  /** Any name other than the three strategies, an absent one included, gives ("Unknown strategy", 400)
      with no order, whatever the params. */
  lemma UnknownStrategy(req: Request, env: Env, broker: Broker)
    requires Ready(req, env, broker)
    requires StrategyOf(req.body.payload.strategy).None?
    ensures Handle(req, env, broker) == Response(400, Some(UnknownStrategyText), Some(ClientOf(env)), None)
  {
  }

  /** Only a known name reaches a builder, and the order submitted is the one that builder made
      from the params. */
  lemma OnlyKnownStrategiesSubmit(req: Request, env: Env, broker: Broker)
    requires Handle(req, env, broker).submitted.Some?
    ensures Ready(req, env, broker)
    ensures var s := StrategyOf(req.body.payload.strategy);
      && s.Some?
      && req.body.payload.params.GetOr(Mapping(map[])).Mapping?
      && var built := Invoke(s.value, req.body.payload.params.GetOr(Mapping(map[])).args);
         built.Success? && Handle(req, env, broker).submitted == Some(built.value)
  {
  }

  /** An absent `params` behaves as an empty object. */
  lemma AbsentParamsDefault(req: Request, env: Env, broker: Broker)
    requires req.body.Object? && req.body.payload.params.None?
    ensures Handle(req, env, broker)
         == Handle(req.(body := Object(req.body.payload.(params := Some(Mapping(map[]))))), env, broker)
  {
  }

  /** So a known strategy with no params is a TypeError: 400, no order. */
  lemma AbsentParamsRejected(req: Request, env: Env, broker: Broker)
    requires Ready(req, env, broker)
    requires StrategyOf(req.body.payload.strategy).Some? && req.body.payload.params.None?
    ensures Handle(req, env, broker).status == 400 && Handle(req, env, broker).submitted.None?
  {
    var s := StrategyOf(req.body.payload.strategy).value;
    var none: map<string, Value> := map[];
    assert ParameterNames(s)[0] !in none;
  }

  /** Once the guards pass and the strategy is known: the order is built and submitted normally
      exactly when the response is 200; a builder exception gives the status of its class; an
      exception from the submission gives the status of its class, with the order it was given. */
  lemma OutcomeStatus(req: Request, env: Env, broker: Broker)
    requires Ready(req, env, broker)
    requires StrategyOf(req.body.payload.strategy).Some?
    requires req.body.payload.params.GetOr(Mapping(map[])).Mapping?
    ensures var built := Invoke(StrategyOf(req.body.payload.strategy).value,
                                req.body.payload.params.GetOr(Mapping(map[])).args);
      var r := Handle(req, env, broker);
      && (r.status == 200 <==> built.Success? && broker.submitError.None?)
      && (built.Failure? ==> r.status == ErrorStatus(built.error) && r.submitted.None?)
      && (built.Success? && broker.submitError.Some? ==>
            r.status == ErrorStatus(broker.submitError.value) && r.submitted == Some(built.value))
  {
  }

  /** A params member that is not an object cannot be unpacked: TypeError, 400. */
  lemma ParamsNotMapping(req: Request, env: Env, broker: Broker)
    requires Ready(req, env, broker)
    requires StrategyOf(req.body.payload.strategy).Some? && req.body.payload.params == Some(NotMapping)
    ensures Handle(req, env, broker).status == 400 && Handle(req, env, broker).submitted.None?
  {
  }

  // ---------------------------------------------------------------------------------------------
  // Binding params to the builders

  /** String expiration and underlying, a whole quantity and a readable time in force give
      exactly those arguments. */
  lemma ReadCommonRead(args: map<string, Value>,
                       underlying: string, expiration: string, quantity: int, timeInForce: string)
    requires "underlying_symbol" in args && args["underlying_symbol"] == Str(underlying)
    requires "expiration_date" in args && args["expiration_date"] == Str(expiration)
    requires "quantity" in args && args["quantity"] == Num(quantity * 1000)
    requires TimeInForceArg(args) == Success(timeInForce)
    ensures ReadCommon(args) == Success(CommonArgs(underlying, expiration, quantity, timeInForce))
  {
    assert QuantityArg(args) == Success(quantity) by {
      WholeQuantityRead(args, quantity);
    }
  }

  /** A quantity given as a whole number is read back as that number. */
  lemma WholeQuantityRead(args: map<string, Value>, quantity: int)
    requires "quantity" in args && args["quantity"] == Num(quantity * 1000)
    ensures QuantityArg(args) == Success(quantity)
  {
    assert (quantity * 1000) % 1000 == 0 && (quantity * 1000) / 1000 == quantity;
  }

  /** Params that bind to the bull call spread's parameters, with values of the right kinds, reach
      `trade_bull_call_spread` with those values. */
  lemma InvokeBullCallSpread(args: map<string, Value>, underlying: string, expiration: string,
                             longStrike: int, shortStrike: int, quantity: int, timeInForce: string)
    requires Binds(BullCallSpreadName, args)
    requires "underlying_symbol" in args && args["underlying_symbol"] == Str(underlying)
    requires "expiration_date" in args && args["expiration_date"] == Str(expiration)
    requires "long_strike" in args && args["long_strike"] == Num(longStrike)
    requires "short_strike" in args && args["short_strike"] == Num(shortStrike)
    requires "quantity" in args && args["quantity"] == Num(quantity * 1000)
    requires TimeInForceArg(args) == Success(timeInForce)
    ensures CallBullCallSpread(args)
         == BullCallSpread(underlying, expiration, longStrike, shortStrike, quantity, timeInForce)
  {
    CheckKeywordsBinds(BullCallSpreadName, args);
    assert StrikeArg(args, "long_strike") == Success(longStrike);
    assert StrikeArg(args, "short_strike") == Success(shortStrike);
    if longStrike < shortStrike {
      ReadCommonRead(args, underlying, expiration, quantity, timeInForce);
    }
  }

  /** Likewise for `trade_bear_call_spread`. */
  lemma InvokeBearCallSpread(args: map<string, Value>, underlying: string, expiration: string,
                             shortStrike: int, longStrike: int, quantity: int, timeInForce: string)
    requires Binds(BearCallSpreadName, args)
    requires "underlying_symbol" in args && args["underlying_symbol"] == Str(underlying)
    requires "expiration_date" in args && args["expiration_date"] == Str(expiration)
    requires "short_strike" in args && args["short_strike"] == Num(shortStrike)
    requires "long_strike" in args && args["long_strike"] == Num(longStrike)
    requires "quantity" in args && args["quantity"] == Num(quantity * 1000)
    requires TimeInForceArg(args) == Success(timeInForce)
    ensures CallBearCallSpread(args)
         == BearCallSpread(underlying, expiration, shortStrike, longStrike, quantity, timeInForce)
  {
    CheckKeywordsBinds(BearCallSpreadName, args);
    assert StrikeArg(args, "short_strike") == Success(shortStrike);
    assert StrikeArg(args, "long_strike") == Success(longStrike);
    if shortStrike < longStrike {
      ReadCommonRead(args, underlying, expiration, quantity, timeInForce);
    }
  }

  /** Likewise for `trade_iron_condor`. */
  lemma InvokeIronCondor(args: map<string, Value>, underlying: string, expiration: string,
                         longPut: int, shortPut: int, shortCall: int, longCall: int,
                         quantity: int, timeInForce: string)
    requires Binds(IronCondorName, args)
    requires "underlying_symbol" in args && args["underlying_symbol"] == Str(underlying)
    requires "expiration_date" in args && args["expiration_date"] == Str(expiration)
    requires "long_put_strike" in args && args["long_put_strike"] == Num(longPut)
    requires "short_put_strike" in args && args["short_put_strike"] == Num(shortPut)
    requires "short_call_strike" in args && args["short_call_strike"] == Num(shortCall)
    requires "long_call_strike" in args && args["long_call_strike"] == Num(longCall)
    requires "quantity" in args && args["quantity"] == Num(quantity * 1000)
    requires TimeInForceArg(args) == Success(timeInForce)
    ensures CallIronCondor(args)
         == IronCondor(underlying, expiration, longPut, shortPut, shortCall, longCall, quantity, timeInForce)
  {
    CheckKeywordsBinds(IronCondorName, args);
    assert StrikeArg(args, "long_put_strike") == Success(longPut);
    assert StrikeArg(args, "short_put_strike") == Success(shortPut);
    assert StrikeArg(args, "short_call_strike") == Success(shortCall);
    assert StrikeArg(args, "long_call_strike") == Success(longCall);
    if longPut < shortPut < shortCall < longCall {
      ReadCommonRead(args, underlying, expiration, quantity, timeInForce);
    }
  }

  /** The strikes are compared before any other argument is used: params that bind, with numeric
      strikes out of order, give the builder's ValueError whatever the other values are. */
  lemma StrikeOrderCheckedFirst(args: map<string, Value>)
    requires Binds(BullCallSpreadName, args)
    requires "long_strike" in args && args["long_strike"].Num?
    requires "short_strike" in args && args["short_strike"].Num?
    requires !(args["long_strike"].milli < args["short_strike"].milli)
    ensures CallBullCallSpread(args) == Failure(ValueError(BullCallMessage))
  {
    CheckKeywordsBinds(BullCallSpreadName, args);
  }

  /** The condor's chained comparison stops at its first failure: with the two put strikes out of
      order, the builder raises its ValueError whatever the call strikes and the other values are. */
  lemma IronCondorFirstComparisonFails(args: map<string, Value>)
    requires Binds(IronCondorName, args)
    requires "long_put_strike" in args && args["long_put_strike"].Num?
    requires "short_put_strike" in args && args["short_put_strike"].Num?
    requires !(args["long_put_strike"].milli < args["short_put_strike"].milli)
    ensures CallIronCondor(args) == Failure(ValueError(IronCondorMessage))
  {
    CheckKeywordsBinds(IronCondorName, args);
  }

  /** Likewise when the puts are in order but the short call is not above the short put: the long
      call strike is never looked at. */
  lemma IronCondorSecondComparisonFails(args: map<string, Value>)
    requires Binds(IronCondorName, args)
    requires "long_put_strike" in args && args["long_put_strike"].Num?
    requires "short_put_strike" in args && args["short_put_strike"].Num?
    requires "short_call_strike" in args && args["short_call_strike"].Num?
    requires args["long_put_strike"].milli < args["short_put_strike"].milli
    requires !(args["short_put_strike"].milli < args["short_call_strike"].milli)
    ensures CallIronCondor(args) == Failure(ValueError(IronCondorMessage))
  {
    CheckKeywordsBinds(IronCondorName, args);
  }

  /** A bull call spread with its strikes in order but an underlying or an expiration that is not
      a string raises AttributeError while its first leg symbol is formatted: the handler answers
      500 and submits nothing. */
  lemma NonStringSymbolArgument(req: Request, env: Env, broker: Broker, args: map<string, Value>)
    requires Ready(req, env, broker)
    requires req.body.payload.strategy == Some(Str("bull_call_spread"))
    requires req.body.payload.params == Some(Mapping(args))
    requires Binds(BullCallSpreadName, args)
    requires "long_strike" in args && args["long_strike"].Num?
    requires "short_strike" in args && args["short_strike"].Num?
    requires args["long_strike"].milli < args["short_strike"].milli
    requires "underlying_symbol" in args && "expiration_date" in args
    requires !args["underlying_symbol"].Str? || !args["expiration_date"].Str?
    ensures Handle(req, env, broker).status == 500 && Handle(req, env, broker).submitted.None?
  {
    NonStringTextArgument(args);
  }

  /** The builder-level half: such params make `trade_bull_call_spread` raise AttributeError. */
  lemma NonStringTextArgument(args: map<string, Value>)
    requires Binds(BullCallSpreadName, args)
    requires "long_strike" in args && args["long_strike"].Num?
    requires "short_strike" in args && args["short_strike"].Num?
    requires args["long_strike"].milli < args["short_strike"].milli
    requires "underlying_symbol" in args && "expiration_date" in args
    requires !args["underlying_symbol"].Str? || !args["expiration_date"].Str?
    ensures CallBullCallSpread(args).Failure? && CallBullCallSpread(args).error.AttributeError?
  {
    CheckKeywordsBinds(BullCallSpreadName, args);
  }

  /** An AttributeError comes only from an underlying or an expiration that is not a string, in
      params that bind. */
  lemma AttributeErrorSource(s: StrategyName, args: map<string, Value>)
    requires Invoke(s, args).Failure? && Invoke(s, args).error.AttributeError?
    ensures Binds(s, args)
    ensures "underlying_symbol" in args && "expiration_date" in args
    ensures !args["underlying_symbol"].Str? || !args["expiration_date"].Str?
  {
    ReadCommonAttributeError(args);
    CheckKeywordsBinds(s, args);
    assert ParameterNames(s)[0] == "underlying_symbol" && ParameterNames(s)[1] == "expiration_date";
  }

  /** Reading the other arguments raises AttributeError only for a text argument that is absent or
      not a string. */
  lemma ReadCommonAttributeError(args: map<string, Value>)
    requires ReadCommon(args).Failure? && ReadCommon(args).error.AttributeError?
    ensures !("underlying_symbol" in args && args["underlying_symbol"].Str?)
         || !("expiration_date" in args && args["expiration_date"].Str?)
  {
  }

  /** The smallest params object for a bull call spread binds. */
  lemma MinimalBullCallSpreadParamsBind(underlying: string, expiration: string,
                                        longStrike: int, shortStrike: int, quantity: int)
    ensures Binds(BullCallSpreadName,
                  map["underlying_symbol" := Str(underlying), "expiration_date" := Str(expiration),
                      "long_strike" := Num(longStrike), "short_strike" := Num(shortStrike),
                      "quantity" := Num(quantity * 1000)])
  {
  }

  /** A `client` param or a keyword no builder declares is rejected with a TypeError before any
      order is built. */
  lemma UnexpectedKeyword(s: StrategyName, args: map<string, Value>, k: string)
    requires k in args && (k == ClientParam || (k !in ParameterNames(s) && k != TimeInForceParam))
    ensures Invoke(s, args).Failure? && Invoke(s, args).error.TypeError?
  {
    assert CheckKeywords(s, args).Failure?;
  }
}
