/** `BasicBot` and the one exchange call it makes. The exchange client is an
    opaque capability: what it answers to each call is fixed when it is
    created, and it keeps a log of every request it was sent. */
module Bot {
  import opened Python
  import opened Orders

  /** The exchange's acknowledgement, passed back to the caller unread. */
  type Response = map<string, PyValue>

  /** What one call to the order endpoint does: return a response, or raise. */
  datatype Reply = Returned(order: Response) | Raised(error: PyError)

  /** The futures order endpoint of the exchange client. */
  class Transport {
    /** The reply to the k-th call (counting from 0) with the given parameters. */
    const respond: (nat, Params) -> Reply
    /** Every request sent so far, oldest first. */
    var sent: seq<Params>

    constructor(respond: (nat, Params) -> Reply)
      ensures this.respond == respond && sent == []
    {
      this.respond := respond;
      sent := [];
    }

    /** `futures_create_order(**params)`: one request goes out, and the reply
        is whatever the exchange gives to this call. */
    method FuturesCreateOrder(params: Params) returns (reply: Reply)
      modifies this
      ensures sent == old(sent) + [params]
      ensures reply == respond(|old(sent)|, params)
    {
      reply := respond(|sent|, params);
      sent := sent + [params];
    }
  }

  class BasicBot {
    var apiKey: string
    var apiSecret: string
    var testnet: bool
    var client: Transport
    /** Whether the wildcard import of `binance.enums` bound the name
        ORDER_TYPE_STOP_MARKET; fixed once the script is loaded. */
    const stopMarketDefined: bool

    /** Stores the credentials, the environment flag and the exchange client. */
    constructor(apiKey: string, apiSecret: string, client: Transport, stopMarketDefined: bool,
                testnet: bool := true)
      ensures this.apiKey == apiKey && this.apiSecret == apiSecret
      ensures this.testnet == testnet && this.client == client
      ensures this.stopMarketDefined == stopMarketDefined
    {
      this.apiKey := apiKey;
      this.apiSecret := apiSecret;
      this.testnet := testnet;
      this.client := client;
      this.stopMarketDefined := stopMarketDefined;
    }

    /** `place_order`: builds the request; if that raises, sends nothing and
        returns None. Otherwise sends it exactly once and returns the
        exchange's response unchanged, or None if the call raised an
        `Exception`, whichever it was. */
    method PlaceOrder(symbol: PyValue, side: PyValue, orderType: PyValue, quantity: PyValue,
                      price: PyValue := PyNone, stopPrice: PyValue := PyNone)
      returns (order: Option<Response>)
      modifies client
      ensures var built := OrderParams(stopMarketDefined,
                                       OrderFields(symbol, side, orderType, quantity, price, stopPrice));
              built.Err? ==> order == None && client.sent == old(client.sent)
      ensures var built := OrderParams(stopMarketDefined,
                                       OrderFields(symbol, side, orderType, quantity, price, stopPrice));
              built.Ok? ==> client.sent == old(client.sent) + [built.value]
      ensures var built := OrderParams(stopMarketDefined,
                                       OrderFields(symbol, side, orderType, quantity, price, stopPrice));
              built.Ok? ==>
                var reply := client.respond(|old(client.sent)|, built.value);
                && (reply.Returned? ==> order == Some(reply.order))
                && (reply.Raised? ==> order == None)
    {
      var built := BuildParams(stopMarketDefined, OrderFields(symbol, side, orderType, quantity, price, stopPrice));
      if built.Err? {
        return None;
      }
      var reply := client.FuturesCreateOrder(built.value);
      match reply
      case Returned(response) =>
        order := Some(response);
      case Raised(_) =>
        order := None;
    }
  }

  /** With ORDER_TYPE_STOP_MARKET bound, a MARKET buy the exchange
      acknowledges: the request goes out once, with side BUY, and the
      acknowledgement comes back unchanged. */
  method AcknowledgedMarketOrder() returns (order: Option<Response>, sent: seq<Params>)
    ensures order == Some(map["orderId" := PyNum(12345)])
    ensures |sent| == 1 && sent[0].Keys == CommonKeys && sent[0]["side"] == PyStr(SideBuy)
  {
    var ack := map["orderId" := PyNum(12345)];
    var client := new Transport((k: nat, p: Params) => Returned(ack));
    var bot := new BasicBot("key", "secret", client, true);
    order := bot.PlaceOrder(PyStr("BTCUSDT"), PyStr("buy"), PyStr("MARKET"), PyNum(1));
    sent := client.sent;
    LowerIsBuy("buy");
  }

  /** As written against python-binance's enums, where ORDER_TYPE_STOP_MARKET
      is unbound: the same MARKET buy never reaches the exchange, although
      the exchange would acknowledge it, and the result is None. */
  method MarketOrderAsWritten() returns (order: Option<Response>, sent: seq<Params>)
    ensures order == None && sent == []
  {
    var ack := map["orderId" := PyNum(12345)];
    var client := new Transport((k: nat, p: Params) => Returned(ack));
    var bot := new BasicBot("key", "secret", client, false);
    order := bot.PlaceOrder(PyStr("BTCUSDT"), PyStr("buy"), PyStr("MARKET"), PyNum(1));
    sent := client.sent;
  }

  /** A LIMIT order without a price never reaches the exchange, whether or
      not ORDER_TYPE_STOP_MARKET is bound. */
  method PricelessLimitOrder(stopMarketDefined: bool) returns (order: Option<Response>, sent: seq<Params>)
    ensures order == None && sent == []
  {
    var client := new Transport((k: nat, p: Params) => Returned(map[]));
    var bot := new BasicBot("key", "secret", client, stopMarketDefined);
    order := bot.PlaceOrder(PyStr("BTCUSDT"), PyStr("buy"), PyStr("LIMIT"), PyNum(1));
    sent := client.sent;
  }

  /** With ORDER_TYPE_STOP_MARKET bound, a STOP_MARKET order the exchange
      refuses: the request went out once, and the exchange's error is folded
      into None. */
  method RefusedOrder() returns (order: Option<Response>, sent: seq<Params>)
    ensures order == None && |sent| == 1
  {
    var client := new Transport((k: nat, p: Params) =>
      Raised(BinanceApiException(-2019, "Margin is insufficient")));
    var bot := new BasicBot("key", "secret", client, true);
    order := bot.PlaceOrder(PyStr("BTCUSDT"), PyStr("sell"), PyStr("STOP_MARKET"), PyNum(1),
                            stopPrice := PyNum(50000));
    sent := client.sent;
  }
}
