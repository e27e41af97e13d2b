/** The three strategy builders of trading_strategies.py: each checks the strict ordering of its
    strikes, raises ValueError when it fails, and otherwise builds one multi-leg limit order.
    Strikes are integer thousandths and the limit price is integer cents. */
module Strategies {
  import opened Wrappers
  import opened Exceptions
  import opened Text
  import opened OptionSymbol

  datatype Side = Buy | Sell
  datatype OrderType = Limit
  datatype OrderClass = Multileg

  /** One option leg; the iron condor's legs leave type and time in force unset. */
  datatype Leg = Leg(symbol: string, qty: int, side: Side, legType: Option<OrderType>, timeInForce: Option<string>)

  /** The multi-leg order handed to the brokerage: the underlying is the order's own symbol. */
  datatype Order = Order(
    symbol: string,
    qty: int,
    side: Side,
    orderType: OrderType,
    timeInForce: string,
    orderClass: OrderClass,
    limitCents: nat,
    legs: seq<Leg>)

  /** The default time in force, TimeInForce.DAY. */
  const Day := "day"

  const BullCallLimitCents: nat := 50
  const BearCallLimitCents: nat := 25
  const IronCondorLimitCents: nat := 75

  const BullCallMessage := "For a Bull Call Spread, the long_strike must be less than the short_strike."
  const BearCallMessage := "For a Bear Call Spread, the short_strike must be less than the long_strike."
  const IronCondorMessage := "Strikes must be in ascending order: long_put < short_put < short_call < long_call."

  /** The strike check of `trade_bull_call_spread`: the long strike must be below the short strike. */
  function BullCallSpreadStrikes(longStrike: int, shortStrike: int): (r: Result<(), Exception>)
    ensures r.Success? <==> longStrike < shortStrike
    ensures r.Failure? ==> r.error == ValueError(BullCallMessage)
  {
    if longStrike < shortStrike then Success(()) else Failure(ValueError(BullCallMessage))
  }

  /** The strike check of `trade_bear_call_spread`: the short strike must be below the long strike. */
  function BearCallSpreadStrikes(shortStrike: int, longStrike: int): (r: Result<(), Exception>)
    ensures r.Success? <==> shortStrike < longStrike
    ensures r.Failure? ==> r.error == ValueError(BearCallMessage)
  {
    if shortStrike < longStrike then Success(()) else Failure(ValueError(BearCallMessage))
  }

  /** One comparison of the chain `long_put < short_put < short_call < long_call`: Python
      evaluates them left to right and stops at the first that fails, which raises the ValueError. */
  function IronCondorStep(lower: int, upper: int): (r: Result<(), Exception>)
    ensures r.Success? <==> lower < upper
    ensures r.Failure? ==> r.error == ValueError(IronCondorMessage)
  {
    if lower < upper then Success(()) else Failure(ValueError(IronCondorMessage))
  }

  /** The strike check of `trade_iron_condor`: the four strikes must be strictly ascending. */
  function IronCondorStrikes(longPutStrike: int, shortPutStrike: int, shortCallStrike: int, longCallStrike: int): (r: Result<(), Exception>)
    ensures r.Success? <==> longPutStrike < shortPutStrike < shortCallStrike < longCallStrike
    ensures r.Failure? ==> r.error == ValueError(IronCondorMessage)
  {
    if longPutStrike < shortPutStrike < shortCallStrike < longCallStrike then Success(()) else Failure(ValueError(IronCondorMessage))
  }

  /** `trade_bull_call_spread` up to the submission: buy the lower call, sell the higher call, for a net debit. */
  function BullCallSpread(
    underlying: string, expiration: string, longStrike: int, shortStrike: int, quantity: int, timeInForce: string)
    : (r: Result<Order, Exception>)
    ensures r.Failure? <==> !(longStrike < shortStrike)
    ensures r.Failure? ==> r.error == ValueError(BullCallMessage)
    ensures r.Success? ==>
      && r.value.symbol == underlying && r.value.qty == quantity
      && r.value.side == Buy && r.value.orderType == Limit && r.value.orderClass == Multileg
      && r.value.timeInForce == timeInForce && r.value.limitCents == BullCallLimitCents
      && r.value.legs == [
           Leg(Format(underlying, expiration, 'C', longStrike), quantity, Buy, Some(Limit), Some(timeInForce)),
           Leg(Format(underlying, expiration, 'C', shortStrike), quantity, Sell, Some(Limit), Some(timeInForce))]
  {
    var _ :- BullCallSpreadStrikes(longStrike, shortStrike);
    var longCall := Symbol(underlying, expiration, "C", longStrike).value;
    var shortCall := Symbol(underlying, expiration, "C", shortStrike).value;
    Success(Order(underlying, quantity, Buy, Limit, timeInForce, Multileg, BullCallLimitCents, [
      Leg(longCall, quantity, Buy, Some(Limit), Some(timeInForce)),
      Leg(shortCall, quantity, Sell, Some(Limit), Some(timeInForce))]))
  }

  /** `trade_bear_call_spread` up to the submission: sell the lower call, buy the higher call, for a net credit. */
  function BearCallSpread(
    underlying: string, expiration: string, shortStrike: int, longStrike: int, quantity: int, timeInForce: string)
    : (r: Result<Order, Exception>)
    ensures r.Failure? <==> !(shortStrike < longStrike)
    ensures r.Failure? ==> r.error == ValueError(BearCallMessage)
    ensures r.Success? ==>
      && r.value.symbol == underlying && r.value.qty == quantity
      && r.value.side == Sell && r.value.orderType == Limit && r.value.orderClass == Multileg
      && r.value.timeInForce == timeInForce && r.value.limitCents == BearCallLimitCents
      && r.value.legs == [
           Leg(Format(underlying, expiration, 'C', shortStrike), quantity, Sell, Some(Limit), Some(timeInForce)),
           Leg(Format(underlying, expiration, 'C', longStrike), quantity, Buy, Some(Limit), Some(timeInForce))]
  {
    var _ :- BearCallSpreadStrikes(shortStrike, longStrike);
    var shortCall := Symbol(underlying, expiration, "C", shortStrike).value;
    var longCall := Symbol(underlying, expiration, "C", longStrike).value;
    Success(Order(underlying, quantity, Sell, Limit, timeInForce, Multileg, BearCallLimitCents, [
      Leg(shortCall, quantity, Sell, Some(Limit), Some(timeInForce)),
      Leg(longCall, quantity, Buy, Some(Limit), Some(timeInForce))]))
  }

  /** `trade_iron_condor` up to the submission: a bull put spread below a bear call spread, for a net credit. */
  function IronCondor(
    underlying: string, expiration: string,
    longPutStrike: int, shortPutStrike: int, shortCallStrike: int, longCallStrike: int,
    quantity: int, timeInForce: string)
    : (r: Result<Order, Exception>)
    ensures r.Failure? <==> !(longPutStrike < shortPutStrike < shortCallStrike < longCallStrike)
    ensures r.Failure? ==> r.error == ValueError(IronCondorMessage)
    ensures r.Success? ==>
      && r.value.symbol == underlying && r.value.qty == quantity
      && r.value.side == Sell && r.value.orderType == Limit && r.value.orderClass == Multileg
      && r.value.timeInForce == timeInForce && r.value.limitCents == IronCondorLimitCents
      && r.value.legs == [
           Leg(Format(underlying, expiration, 'P', longPutStrike), quantity, Buy, None, None),
           Leg(Format(underlying, expiration, 'P', shortPutStrike), quantity, Sell, None, None),
           Leg(Format(underlying, expiration, 'C', shortCallStrike), quantity, Sell, None, None),
           Leg(Format(underlying, expiration, 'C', longCallStrike), quantity, Buy, None, None)]
  {
    var _ :- IronCondorStrikes(longPutStrike, shortPutStrike, shortCallStrike, longCallStrike);
    var longPut := Symbol(underlying, expiration, "P", longPutStrike).value;
    var shortPut := Symbol(underlying, expiration, "P", shortPutStrike).value;
    var shortCall := Symbol(underlying, expiration, "C", shortCallStrike).value;
    var longCall := Symbol(underlying, expiration, "C", longCallStrike).value;
    Success(Order(underlying, quantity, Sell, Limit, timeInForce, Multileg, IronCondorLimitCents, [
      Leg(longPut, quantity, Buy, None, None),
      Leg(shortPut, quantity, Sell, None, None),
      Leg(shortCall, quantity, Sell, None, None),
      Leg(longCall, quantity, Buy, None, None)]))
  }

  /** What a leg's symbol reads back as: the option type and the strike. */
  predicate LegIs(leg: Leg, underlying: string, expiration: string, kind: char, strikeMilli: nat) {
    Decode(leg.symbol) == Some(Fields(Upper(underlying), DateField(expiration), kind, strikeMilli))
  }

  /** A legal underlying, expiration and strike, for which the leg symbols can be read back. */
  predicate Readable(underlying: string, expiration: string, strikeMilli: int) {
    && (underlying == [] || underlying[|underlying| - 1] != ' ')
    && IsIsoDate(expiration)
    && 0 <= strikeMilli < Pow10(StrikeWidth)
  }

  /** A leg whose symbol was formatted from readable inputs reads back as that type and strike. */
  lemma LegReadsBack(leg: Leg, underlying: string, expiration: string, kind: char, strikeMilli: int)
    requires leg.symbol == Format(underlying, expiration, kind, strikeMilli)
    requires Readable(underlying, expiration, strikeMilli)
    ensures LegIs(leg, underlying, expiration, kind, strikeMilli)
  {
    FormatRoundTrip(underlying, expiration, kind, strikeMilli);
  }

  /** Two legs of the same kind, underlying and expiry read back at their two strikes. */
  lemma LegPairReadsBack(first: Leg, second: Leg, underlying: string, expiration: string, kind: char,
                         firstStrike: int, secondStrike: int)
    requires first.symbol == Format(underlying, expiration, kind, firstStrike)
    requires second.symbol == Format(underlying, expiration, kind, secondStrike)
    requires Readable(underlying, expiration, firstStrike) && Readable(underlying, expiration, secondStrike)
    ensures LegIs(first, underlying, expiration, kind, firstStrike)
    ensures LegIs(second, underlying, expiration, kind, secondStrike)
  {
    LegReadsBack(first, underlying, expiration, kind, firstStrike);
    LegReadsBack(second, underlying, expiration, kind, secondStrike);
  }

  /** The bull call spread buys the call at the lower strike and sells the call at the higher one:
      its leg symbols read back as calls on the same underlying and expiry at those strikes. */
  lemma BullCallSpreadLegs(
    underlying: string, expiration: string, longStrike: int, shortStrike: int, quantity: int, timeInForce: string)
    requires longStrike < shortStrike
    requires Readable(underlying, expiration, longStrike) && Readable(underlying, expiration, shortStrike)
    ensures var o := BullCallSpread(underlying, expiration, longStrike, shortStrike, quantity, timeInForce).value;
      && o.legs[0].side == Buy && LegIs(o.legs[0], underlying, expiration, 'C', longStrike)
      && o.legs[1].side == Sell && LegIs(o.legs[1], underlying, expiration, 'C', shortStrike)
  {
    var o := BullCallSpread(underlying, expiration, longStrike, shortStrike, quantity, timeInForce).value;
    LegReadsBack(o.legs[0], underlying, expiration, 'C', longStrike);
    LegReadsBack(o.legs[1], underlying, expiration, 'C', shortStrike);
  }

  /** The bear call spread sells the call at the lower strike and buys the call at the higher one. */
  lemma BearCallSpreadLegs(
    underlying: string, expiration: string, shortStrike: int, longStrike: int, quantity: int, timeInForce: string)
    requires shortStrike < longStrike
    requires Readable(underlying, expiration, shortStrike) && Readable(underlying, expiration, longStrike)
    ensures var o := BearCallSpread(underlying, expiration, shortStrike, longStrike, quantity, timeInForce).value;
      && o.legs[0].side == Sell && LegIs(o.legs[0], underlying, expiration, 'C', shortStrike)
      && o.legs[1].side == Buy && LegIs(o.legs[1], underlying, expiration, 'C', longStrike)
  {
    var o := BearCallSpread(underlying, expiration, shortStrike, longStrike, quantity, timeInForce).value;
    LegReadsBack(o.legs[0], underlying, expiration, 'C', shortStrike);
    LegReadsBack(o.legs[1], underlying, expiration, 'C', longStrike);
  }

  /** The iron condor's put legs read back as puts at the two lower strikes, the outer one bought
      and the inner one sold. */
  lemma IronCondorPutLegs(
    underlying: string, expiration: string,
    longPutStrike: int, shortPutStrike: int, shortCallStrike: int, longCallStrike: int,
    quantity: int, timeInForce: string)
    requires longPutStrike < shortPutStrike < shortCallStrike < longCallStrike
    requires Readable(underlying, expiration, longPutStrike) && Readable(underlying, expiration, shortPutStrike)
    ensures var o := IronCondor(underlying, expiration, longPutStrike, shortPutStrike, shortCallStrike,
                                longCallStrike, quantity, timeInForce).value;
      && o.legs[0].side == Buy && LegIs(o.legs[0], underlying, expiration, 'P', longPutStrike)
      && o.legs[1].side == Sell && LegIs(o.legs[1], underlying, expiration, 'P', shortPutStrike)
  {
    var o := IronCondor(underlying, expiration, longPutStrike, shortPutStrike, shortCallStrike,
                        longCallStrike, quantity, timeInForce).value;
    LegPairReadsBack(o.legs[0], o.legs[1], underlying, expiration, 'P', longPutStrike, shortPutStrike);
  }

  /** The iron condor's call legs read back as calls at the two higher strikes, the inner one sold
      and the outer one bought. */
  lemma IronCondorCallLegs(
    underlying: string, expiration: string,
    longPutStrike: int, shortPutStrike: int, shortCallStrike: int, longCallStrike: int,
    quantity: int, timeInForce: string)
    requires longPutStrike < shortPutStrike < shortCallStrike < longCallStrike
    requires Readable(underlying, expiration, shortCallStrike) && Readable(underlying, expiration, longCallStrike)
    ensures var o := IronCondor(underlying, expiration, longPutStrike, shortPutStrike, shortCallStrike,
                                longCallStrike, quantity, timeInForce).value;
      && o.legs[2].side == Sell && LegIs(o.legs[2], underlying, expiration, 'C', shortCallStrike)
      && o.legs[3].side == Buy && LegIs(o.legs[3], underlying, expiration, 'C', longCallStrike)
  {
    var o := IronCondor(underlying, expiration, longPutStrike, shortPutStrike, shortCallStrike,
                        longCallStrike, quantity, timeInForce).value;
    LegPairReadsBack(o.legs[2], o.legs[3], underlying, expiration, 'C', shortCallStrike, longCallStrike);
  }

  /** All four legs of an iron condor share the root and expiry prefix, whatever the inputs. */
  lemma IronCondorSharedPrefix(
    underlying: string, expiration: string,
    longPutStrike: int, shortPutStrike: int, shortCallStrike: int, longCallStrike: int,
    quantity: int, timeInForce: string)
    requires longPutStrike < shortPutStrike < shortCallStrike < longCallStrike
    ensures var o := IronCondor(underlying, expiration, longPutStrike, shortPutStrike, shortCallStrike,
                                longCallStrike, quantity, timeInForce).value;
      forall leg | leg in o.legs :: StartsWith(leg.symbol, RootField(underlying) + DateField(expiration))
  {
    FormatStartsWith(underlying, expiration, 'P', longPutStrike);
    FormatStartsWith(underlying, expiration, 'P', shortPutStrike);
    FormatStartsWith(underlying, expiration, 'C', shortCallStrike);
    FormatStartsWith(underlying, expiration, 'C', longCallStrike);
  }

  /** A strict prefix. */
  predicate StartsWith(s: string, prefix: string) {
    |prefix| < |s| && s[..|prefix|] == prefix
  }

  /** Every formatted symbol starts with its root and date fields. */
  lemma FormatStartsWith(underlying: string, expiration: string, kind: char, strikeMilli: int)
    ensures StartsWith(Format(underlying, expiration, kind, strikeMilli), RootField(underlying) + DateField(expiration))
  {
    FormatPrefix(underlying, expiration, kind, strikeMilli);
  }

  /** The iron condor is a bull put spread plus a bear call spread: its two call legs have the
      symbols and sides of the bear call spread's legs at the same call strikes (the condor's legs
      carry no type or time in force), and it is rejected whenever that spread is. */
  lemma IronCondorContainsBearCallSpread(
    underlying: string, expiration: string,
    longPutStrike: int, shortPutStrike: int, shortCallStrike: int, longCallStrike: int,
    quantity: int, timeInForce: string)
    ensures var condor := IronCondor(underlying, expiration, longPutStrike, shortPutStrike, shortCallStrike,
                                     longCallStrike, quantity, timeInForce);
      var spread := BearCallSpread(underlying, expiration, shortCallStrike, longCallStrike, quantity, timeInForce);
      && (spread.Failure? ==> condor.Failure?)
      && (condor.Success? ==>
           && condor.value.legs[2].symbol == spread.value.legs[0].symbol
           && condor.value.legs[2].side == spread.value.legs[0].side
           && condor.value.legs[3].symbol == spread.value.legs[1].symbol
           && condor.value.legs[3].side == spread.value.legs[1].side)
  {
  }
}
