/** The interactive path: the answers typed at the prompts, the case
    normalisation applied to them, and which optional prompts are asked. */
module Menu {
  import opened Python
  import opened Orders

  /** The answers a user would type. `price` and `stopPrice` are read only
      if their prompt is shown; numbers are already parsed. */
  datatype Answers = Answers(
    apiKey: string,
    apiSecret: string,
    symbol: string,
    side: string,
    orderType: string,
    quantity: int,
    price: int,
    stopPrice: int)

  /** The namespace `menu_input` hands back to `main`. */
  datatype Namespace = Namespace(apiKey: string, apiSecret: string, order: OrderFields)

  /** `menu_input`: upper-cases symbol and type, lower-cases side, and asks
      for a price only for LIMIT and for a stop price only for STOP_MARKET. */
  function MenuInput(a: Answers): Namespace
  {
    var orderType := Upper(a.orderType);
    Namespace(a.apiKey, a.apiSecret,
              OrderFields(PyStr(Upper(a.symbol)), PyStr(Lower(a.side)), PyStr(orderType),
                          PyNum(a.quantity),
                          if orderType == "LIMIT" then PyNum(a.price) else PyNone,
                          if orderType == "STOP_MARKET" then PyNum(a.stopPrice) else PyNone))
  }

  /** The menu prompts for the field each type needs (comparing with the
      literal strings, not the enum names), so an order entered through it
      never raises a ValueError: it builds exactly when its type is LIMIT or
      ORDER_TYPE_STOP_MARKET is bound, and otherwise hits the NameError. */
  lemma MenuOrderBuilds(stopMarketDefined: bool, a: Answers)
    ensures OrderParams(stopMarketDefined, MenuInput(a).order).Ok? <==>
              stopMarketDefined || Upper(a.orderType) == "LIMIT"
    ensures OrderParams(stopMarketDefined, MenuInput(a).order).Err? ==>
              OrderParams(stopMarketDefined, MenuInput(a).order) == Err(NameError(StopMarketUndefined))
  {
  }

  /** What the request built from menu answers holds whenever it is built:
      the upper-cased symbol and type, side BUY exactly for the casings of
      "buy", the quantity typed, and a price or a stop price exactly when the
      upper-cased type asks for one. */
  lemma MenuRequest(stopMarketDefined: bool, a: Answers)
    ensures var built := OrderParams(stopMarketDefined, MenuInput(a).order);
              built.Ok? ==>
              var p := built.value;
              && CommonKeys <= p.Keys
              && p["symbol"] == PyStr(Upper(a.symbol))
              && p["type"] == PyStr(Upper(a.orderType))
              && p["quantity"] == PyNum(a.quantity)
              && (p["side"] == PyStr(SideBuy) <==> Lower(a.side) == "buy")
              && ("price" in p <==> Upper(a.orderType) == "LIMIT")
              && ("price" in p ==> p["price"] == PyNum(a.price))
              && ("stopPrice" in p <==> Upper(a.orderType) == "STOP_MARKET")
              && ("stopPrice" in p ==> p["stopPrice"] == PyNum(a.stopPrice))
  {
    var f := MenuInput(a).order;
    if OrderParams(stopMarketDefined, f).Ok? {
      CommonFieldsCopied(stopMarketDefined, f);
      SideMapping(stopMarketDefined, f);
      LowerIdempotent(a.side);
      assert OrderParams(stopMarketDefined, f).value.Keys == CommonKeys + ExtraKeys(f.orderType);
    }
  }

  /** The menu folds case away: answers that differ only in the casing of
      symbol, side and type give the same outcome. */
  lemma MenuIgnoresCase(stopMarketDefined: bool, a: Answers, b: Answers)
    requires a.quantity == b.quantity && a.price == b.price && a.stopPrice == b.stopPrice
    requires Upper(a.symbol) == Upper(b.symbol)
    requires Lower(a.side) == Lower(b.side)
    requires Upper(a.orderType) == Upper(b.orderType)
    ensures OrderParams(stopMarketDefined, MenuInput(a).order) ==
              OrderParams(stopMarketDefined, MenuInput(b).order)
  {
  }

  /** The menu does not trim or check the side: "buy " with a trailing
      space, or any word but a casing of "buy", becomes a SELL order whenever
      the request is built (always for LIMIT). */
  lemma MenuSideTypoSells(stopMarketDefined: bool, a: Answers)
    requires a.side == "buy " || a.side == "long"
    ensures Upper(a.orderType) == "LIMIT" ==> OrderParams(stopMarketDefined, MenuInput(a).order).Ok?
    ensures OrderParams(stopMarketDefined, MenuInput(a).order).Ok? ==>
              OrderParams(stopMarketDefined, MenuInput(a).order).value["side"] == PyStr(SideSell)
  {
  }
}
