/** The parameter map `BasicBot.place_order` builds for the exchange's
    futures order endpoint, before any network call. */
module Orders {
  import opened Python

  // Wire constants, with the values python-binance's enums give them.
  const SideBuy := "BUY"
  const SideSell := "SELL"
  const OrderTypeLimit := "LIMIT"
  const OrderTypeStopMarket := "STOP_MARKET"
  const TimeInForceGtc := "GTC"

  const LimitNeedsPrice := "Limit order requires a price."
  const StopMarketNeedsStopPrice := "Stop-Market order requires a stop price."
  const StopMarketUndefined := "name 'ORDER_TYPE_STOP_MARKET' is not defined"

  /** The keyword arguments handed to the exchange client. */
  type Params = map<string, PyValue>

  /** The keys every successfully built request carries. */
  const CommonKeys: set<string> := {"symbol", "side", "type", "quantity"}

  /** The arguments of `place_order`, as the caller passed them. */
  datatype OrderFields = OrderFields(
    symbol: PyValue,
    side: PyValue,
    orderType: PyValue,
    quantity: PyValue,
    price: PyValue,
    stopPrice: PyValue)

  // Every builder below takes `stopMarketDefined`: whether the wildcard
  // import of `binance.enums` binds the name ORDER_TYPE_STOP_MARKET (to
  // "STOP_MARKET"). python-binance's enums name that futures constant
  // FUTURE_ORDER_TYPE_STOP_MARKET; when the name is unbound, evaluating the
  // `elif` comparison raises NameError for every type that is not LIMIT.

  /** The exchange side constant for a side word: BUY for any casing of "buy", SELL otherwise. */
  function WireSide(side: string): string
  {
    if Lower(side) == "buy" then SideBuy else SideSell
  }

  /** The extra keys an order type adds beyond the common four. The type is
      compared with the exchange constants exactly, without case folding. */
  function ExtraKeys(orderType: PyValue): set<string>
  {
    if orderType == PyStr(OrderTypeLimit) then {"price", "timeInForce"}
    else if orderType == PyStr(OrderTypeStopMarket) then {"stopPrice"}
    else {}
  }

  /** Reference definition of what building the request yields, in the order
      the code evaluates it: the AttributeError of `side.lower()`; for LIMIT,
      the ValueError of a missing price; for any other type, the NameError of
      an unbound ORDER_TYPE_STOP_MARKET, then the ValueError of a missing stop
      price; otherwise the complete parameter map. */
  function OrderParams(stopMarketDefined: bool, f: OrderFields): Result<Params, PyError>
  {
    if !f.side.PyStr? then Err(AttributeError(NoLowerMessage(f.side)))
    else if f.orderType == PyStr(OrderTypeLimit) && f.price == PyNone then
      Err(ValueError(LimitNeedsPrice))
    else if f.orderType != PyStr(OrderTypeLimit) && !stopMarketDefined then
      Err(NameError(StopMarketUndefined))
    else if f.orderType == PyStr(OrderTypeStopMarket) && f.stopPrice == PyNone then
      Err(ValueError(StopMarketNeedsStopPrice))
    else
      Ok(map k | k in CommonKeys + ExtraKeys(f.orderType) :: FieldValue(f, f.side.s, k))
  }

  /** The value a key of the request takes: the caller's field, the side
      constant, or GTC. */
  function FieldValue(f: OrderFields, side: string, key: string): PyValue
  {
    match key
    case "symbol" => f.symbol
    case "side" => PyStr(WireSide(side))
    case "type" => f.orderType
    case "quantity" => f.quantity
    case "price" => f.price
    case "timeInForce" => PyStr(TimeInForceGtc)
    case _ => f.stopPrice
  }

  /** Builds the request the way `place_order` does: the four common keys
      first, then the keys its order type needs, one update at a time. */
  method BuildParams(stopMarketDefined: bool, f: OrderFields) returns (r: Result<Params, PyError>)
    ensures r == OrderParams(stopMarketDefined, f)
  {
    if !f.side.PyStr? {
      return Err(AttributeError(NoLowerMessage(f.side)));
    }
    var side := if Lower(f.side.s) == "buy" then SideBuy else SideSell;
    var params := map["symbol" := f.symbol, "side" := PyStr(side),
                      "type" := f.orderType, "quantity" := f.quantity];
    if f.orderType == PyStr(OrderTypeLimit) {
      if f.price == PyNone {
        return Err(ValueError(LimitNeedsPrice));
      }
      params := params["price" := f.price];
      params := params["timeInForce" := PyStr(TimeInForceGtc)];
    } else {
      if !stopMarketDefined {
        return Err(NameError(StopMarketUndefined));
      }
      if f.orderType == PyStr(OrderTypeStopMarket) {
        if f.stopPrice == PyNone {
          return Err(ValueError(StopMarketNeedsStopPrice));
        }
        params := params["stopPrice" := f.stopPrice];
      }
    }
    assert params.Keys == OrderParams(stopMarketDefined, f).value.Keys;
    assert forall k | k in params :: params[k] == OrderParams(stopMarketDefined, f).value[k];
    assert params == OrderParams(stopMarketDefined, f).value;
    r := Ok(params);
  }

  /** Building fails exactly when side is not a string, a LIMIT order has no
      price, a non-LIMIT order meets an unbound ORDER_TYPE_STOP_MARKET, or a
      STOP_MARKET order has no stop price; nothing else (no range check, no
      extra-field check) is ever rejected. */
  lemma BuildFailsIff(stopMarketDefined: bool, f: OrderFields)
    ensures OrderParams(stopMarketDefined, f).Err? <==>
              || !f.side.PyStr?
              || (f.orderType == PyStr(OrderTypeLimit) && f.price == PyNone)
              || (f.orderType != PyStr(OrderTypeLimit) && !stopMarketDefined)
              || (f.orderType == PyStr(OrderTypeStopMarket) && f.stopPrice == PyNone)
    ensures !f.side.PyStr? ==>
              OrderParams(stopMarketDefined, f) == Err(AttributeError(NoLowerMessage(f.side)))
  {
  }

  /** As written against python-binance's enums: with ORDER_TYPE_STOP_MARKET
      unbound, every order whose type is not LIMIT (MARKET and STOP_MARKET
      included) fails with NameError, whatever its other fields. */
  lemma UnboundStopMarketRejectsAllButLimit(f: OrderFields)
    requires f.side.PyStr? && f.orderType != PyStr(OrderTypeLimit)
    ensures OrderParams(false, f) == Err(NameError(StopMarketUndefined))
  {
  }

  /** The side maps to BUY exactly when `side.lower() == "buy"`, which holds
      for the eight casings of "buy" and nothing else; every other string,
      "sell" or not, maps to SELL. */
  lemma SideMapping(stopMarketDefined: bool, f: OrderFields)
    requires OrderParams(stopMarketDefined, f).Ok?
    ensures f.side.PyStr?
    ensures OrderParams(stopMarketDefined, f).value["side"] == PyStr(SideBuy) <==>
              Lower(f.side.s) == "buy"
    ensures OrderParams(stopMarketDefined, f).value["side"] == PyStr(SideBuy) <==>
              |f.side.s| == 3 && (f.side.s[0] == 'b' || f.side.s[0] == 'B')
              && (f.side.s[1] == 'u' || f.side.s[1] == 'U') && (f.side.s[2] == 'y' || f.side.s[2] == 'Y')
    ensures OrderParams(stopMarketDefined, f).value["side"] != PyStr(SideBuy) ==>
              OrderParams(stopMarketDefined, f).value["side"] == PyStr(SideSell)
  {
  }

  /** Symbol, order type and quantity reach the request exactly as given. */
  lemma CommonFieldsCopied(stopMarketDefined: bool, f: OrderFields)
    requires OrderParams(stopMarketDefined, f).Ok?
    ensures CommonKeys <= OrderParams(stopMarketDefined, f).value.Keys
    ensures OrderParams(stopMarketDefined, f).value["symbol"] == f.symbol
    ensures OrderParams(stopMarketDefined, f).value["type"] == f.orderType
    ensures OrderParams(stopMarketDefined, f).value["quantity"] == f.quantity
  {
  }

  /** A LIMIT order never reaches the STOP_MARKET comparison: without a price
      it is refused with its ValueError; with a price, whatever its value, it
      gains exactly `price` and `timeInForce = GTC`. */
  lemma LimitOrder(stopMarketDefined: bool, f: OrderFields)
    requires f.side.PyStr? && f.orderType == PyStr(OrderTypeLimit)
    ensures f.price == PyNone <==>
              OrderParams(stopMarketDefined, f) == Err(ValueError(LimitNeedsPrice))
    ensures f.price != PyNone ==> OrderParams(stopMarketDefined, f).Ok?
    ensures f.price != PyNone ==>
              && OrderParams(stopMarketDefined, f).value.Keys == CommonKeys + {"price", "timeInForce"}
              && OrderParams(stopMarketDefined, f).value["price"] == f.price
              && OrderParams(stopMarketDefined, f).value["timeInForce"] == PyStr(TimeInForceGtc)
  {
  }

  /** With ORDER_TYPE_STOP_MARKET bound, a STOP_MARKET order without a stop
      price is refused with its ValueError; with one it gains exactly
      `stopPrice`, and neither `price` nor `timeInForce`. */
  lemma StopMarketOrder(f: OrderFields)
    requires f.side.PyStr? && f.orderType == PyStr(OrderTypeStopMarket)
    ensures f.stopPrice == PyNone <==> OrderParams(true, f) == Err(ValueError(StopMarketNeedsStopPrice))
    ensures f.stopPrice != PyNone ==> OrderParams(true, f).Ok?
    ensures f.stopPrice != PyNone ==>
              && OrderParams(true, f).value.Keys == CommonKeys + {"stopPrice"}
              && OrderParams(true, f).value["stopPrice"] == f.stopPrice
  {
  }

  /** With ORDER_TYPE_STOP_MARKET bound, any other order type, MARKET or an
      unrecognised word, yields the four common keys and nothing more. */
  lemma OtherOrderType(f: OrderFields)
    requires f.side.PyStr?
    requires f.orderType != PyStr(OrderTypeLimit) && f.orderType != PyStr(OrderTypeStopMarket)
    ensures OrderParams(true, f).Ok? && OrderParams(true, f).value.Keys == CommonKeys
  {
  }

  /** A price is ignored unless the type is LIMIT, and a stop price unless
      it is STOP_MARKET: changing the unused one changes nothing. */
  lemma UnusedFieldsIgnored(stopMarketDefined: bool, f: OrderFields, other: PyValue)
    ensures f.orderType != PyStr(OrderTypeLimit) ==>
              OrderParams(stopMarketDefined, f.(price := other)) == OrderParams(stopMarketDefined, f)
    ensures f.orderType != PyStr(OrderTypeStopMarket) ==>
              OrderParams(stopMarketDefined, f.(stopPrice := other)) == OrderParams(stopMarketDefined, f)
  {
    var built := OrderParams(stopMarketDefined, f);
    if f.orderType != PyStr(OrderTypeLimit) && built.Ok? {
      var g := OrderParams(stopMarketDefined, f.(price := other));
      assert forall k | k in built.value :: g.value[k] == built.value[k];
      assert g.value == built.value;
    }
    if f.orderType != PyStr(OrderTypeStopMarket) && built.Ok? {
      var g := OrderParams(stopMarketDefined, f.(stopPrice := other));
      assert forall k | k in built.value :: g.value[k] == built.value[k];
      assert g.value == built.value;
    }
  }

  /** The type comparison is case-sensitive: "limit" is not LIMIT, so a
      price-less "limit" order never raises the price ValueError. It falls
      through to the STOP_MARKET comparison: a plain four-key request when
      ORDER_TYPE_STOP_MARKET is bound, the NameError when it is not. */
  lemma LowerCaseLimitIsNotLimit(symbol: PyValue, side: string, quantity: PyValue)
    ensures OrderParams(true, OrderFields(symbol, PyStr(side), PyStr("limit"), quantity, PyNone, PyNone))
              .Ok?
    ensures OrderParams(true, OrderFields(symbol, PyStr(side), PyStr("limit"), quantity, PyNone, PyNone))
              .value.Keys == CommonKeys
    ensures OrderParams(false, OrderFields(symbol, PyStr(side), PyStr("limit"), quantity, PyNone, PyNone))
              == Err(NameError(StopMarketUndefined))
  {
  }
}
