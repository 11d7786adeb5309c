# Binance futures order bot: the order builder and its single exchange call

This project models `BasicBot.place_order`, the decision logic of a small
command-line bot that submits one futures order to the Binance testnet. Given
a symbol, a side word, an order type, a quantity and an optional price or
stop price, the bot:

- builds the keyword-argument map for the exchange client's
  `futures_create_order`;
- maps the side word to the exchange's BUY or SELL;
- adds `price` and `timeInForce = GTC` for LIMIT orders and `stopPrice` for
  STOP_MARKET orders;
- raises a `ValueError` when the field an order type needs is `None`.

If building succeeds, it calls the exchange exactly once and returns the
response unchanged. Every `Exception` is turned into a `None` result: the
`ValueError`, the `AttributeError` of `side.lower()` on a non-string, the
`NameError` of an undefined enum name, the exchange's `BinanceAPIException`,
or any other `Exception`. The model also covers the interactive menu's
normalisation. The menu upper-cases the symbol and the type, lower-cases the
side, and asks for a price only for LIMIT and for a stop price only for
STOP_MARKET.

Modules:

- `Python` (python.dfy) models Python's dynamically typed values. A value
  is `PyNone`, `PyStr` or `PyNum`, where `PyNum` is an opaque number. The
  module also holds the exceptions, and `str.lower()` / `str.upper()`.
- `Orders` (orders.dfy) holds the parameter map. `OrderParams` is a
  declarative reference definition, a map comprehension over the keys each
  order type carries. `BuildParams` builds the map the way the code does: a
  dictionary of four keys, then in-place additions. It is proved equal to
  `OrderParams`. Lemmas state the per-type rules.
- `Bot` (bot.dfy) holds the `BasicBot` class and the exchange client,
  modelled as the class `Transport`. A `Transport` replies to its k-th call
  through a capability fixed when it is created. It logs every request it is
  sent, so the number of exchange calls can be stated. The module also has
  four client methods that run whole scenarios.
- `Menu` (menu.dfy) models `menu_input` with the answers to its prompts
  given as a value.

The exchange constants come from python-binance's `binance.enums`, through
the wildcard import at binance_futures_bot.py:4. That module is not part of
this model. The model uses the library's values `SIDE_BUY = "BUY"`,
`SIDE_SELL = "SELL"`, `ORDER_TYPE_LIMIT = "LIMIT"` and
`TIME_IN_FORCE_GTC = "GTC"`.

The name `ORDER_TYPE_STOP_MARKET` at binance_futures_bot.py:39 is handled
differently. python-binance's enums call the futures constant
`FUTURE_ORDER_TYPE_STOP_MARKET`, and the spot `ORDER_TYPE_*` list has no
STOP_MARKET entry. So the name is most likely unbound. The model therefore
takes whether it is bound as a parameter, `stopMarketDefined`, which every
builder and `BasicBot` carry. When the name is unbound, evaluating line 39
raises `NameError` for every order whose type is not LIMIT. When it is
bound, its value is "STOP_MARKET". Lemmas state both cases (see Findings).

The code implements no stricter validation. It:

- has no positivity or range checks on quantity, price or stop price;
- does not reject a price on a non-LIMIT order or a stop price on a
  non-STOP_MARKET order, but ignores them;
- compares the order type case-sensitively, so "limit" is not LIMIT;
- maps every side other than a casing of "buy" to SELL, instead of
  rejecting it;
- does not upper-case the symbol inside `place_order`; only the menu does;
- returns the raw response or `None`, instead of a three-way
  accepted / rejected / transport-failure outcome.

## Model

| member | source | states |
|---|---|---|
| `Python.Lower` | binance_futures_bot.py:30 | `str.lower()` keeps the length and maps each character on its own, capitals to small letters |
| `Python.Upper` | binance_futures_bot.py:75-77 | `str.upper()` keeps the length and maps each character on its own, small letters to capitals |
| `Python.LowerIdempotent` | binance_futures_bot.py:76 | lower-casing the menu's already lower-cased side inside `place_order` changes nothing |
| `Python.LowerIsBuy` | binance_futures_bot.py:30 | `side.lower() == 'buy'` holds for exactly the eight casings of "buy" |
| `Orders.WireSide` | binance_futures_bot.py:30 | the side expression of the dict literal; its meaning is stated by `Orders.SideMapping` |
| `Orders.BuildParams` | binance_futures_bot.py:28-42 | the map built step by step equals the reference definition for either binding of `ORDER_TYPE_STOP_MARKET`. This covers each raising path in the code's order: AttributeError at line 30, the LIMIT ValueError at line 36, the NameError of evaluating line 39 when the name is unbound, and the STOP_MARKET ValueError at line 41 |
| `Orders.BuildFailsIff` | binance_futures_bot.py:28-42 | building raises if and only if: side is not a string; or a LIMIT order has price None; or a non-LIMIT order meets an unbound `ORDER_TYPE_STOP_MARKET`; or a STOP_MARKET order has stop price None. Nothing else is rejected |
| `Orders.UnboundStopMarketRejectsAllButLimit` | binance_futures_bot.py:39 | with `ORDER_TYPE_STOP_MARKET` unbound, every order with a string side and a non-LIMIT type (MARKET, STOP_MARKET, anything) raises NameError |
| `Orders.SideMapping` | binance_futures_bot.py:30 | the side key is BUY exactly when `side.lower() == "buy"` (equivalently, a casing of "buy"); otherwise it is SELL |
| `Orders.CommonFieldsCopied` | binance_futures_bot.py:28-33 | symbol, type and quantity are in every built map, unchanged |
| `Orders.LimitOrder` | binance_futures_bot.py:34-38 | for either binding (LIMIT never reaches line 39): LIMIT with price None raises "Limit order requires a price."; with any price the keys are exactly the common four plus `price` (the given value) and `timeInForce` = GTC |
| `Orders.StopMarketOrder` | binance_futures_bot.py:39-42 | with `ORDER_TYPE_STOP_MARKET` bound: STOP_MARKET with stop price None raises "Stop-Market order requires a stop price."; otherwise the keys are exactly the common four plus `stopPrice` |
| `Orders.OtherOrderType` | binance_futures_bot.py:28-42 | with `ORDER_TYPE_STOP_MARKET` bound: any other type, MARKET or unrecognised, builds exactly the four common keys |
| `Orders.UnusedFieldsIgnored` | binance_futures_bot.py:34-42 | price matters only for LIMIT and stop price only for STOP_MARKET: changing the unused one leaves the outcome unchanged, for either binding |
| `Orders.LowerCaseLimitIsNotLimit` | binance_futures_bot.py:34-39 | the type comparison is case-sensitive, so a price-less "limit" order never raises the price ValueError. It falls through to line 39 and builds four keys when `ORDER_TYPE_STOP_MARKET` is bound, or raises NameError when it is not |
| `Bot.Transport.constructor` | binance_futures_bot.py:20 | the client starts with no request sent and answers through the given capability |
| `Bot.Transport.FuturesCreateOrder` | binance_futures_bot.py:44 | one call appends the request to the log and gives the reply for that call |
| `Bot.BasicBot.constructor` | binance_futures_bot.py:16-20 | the bot stores the key, the secret, the testnet flag (default true) and its client, and fixes whether `ORDER_TYPE_STOP_MARKET` is bound |
| `Bot.BasicBot.PlaceOrder` | binance_futures_bot.py:26-53 | if building raises, nothing is sent and the result is None; otherwise exactly the built map is sent once, and the result is the response unchanged, or None if the call raised |
| `Bot.AcknowledgedMarketOrder` | binance_futures_bot.py:28-46 | with `ORDER_TYPE_STOP_MARKET` bound, a "buy" MARKET order sends one four-key request with side BUY and returns the acknowledgement |
| `Bot.MarketOrderAsWritten` | binance_futures_bot.py:39-53 | with `ORDER_TYPE_STOP_MARKET` unbound, the same MARKET order sends nothing and returns None, although the exchange would acknowledge it |
| `Bot.PricelessLimitOrder` | binance_futures_bot.py:34-36 | for either binding, a LIMIT order without price sends nothing and returns None |
| `Bot.RefusedOrder` | binance_futures_bot.py:39-53 | with `ORDER_TYPE_STOP_MARKET` bound, a STOP_MARKET order that the exchange refuses with a BinanceAPIException is sent once and returns None |
| `Menu.MenuInput` | binance_futures_bot.py:71-94 | the answers turned into the namespace; its meaning is stated by `Menu.MenuRequest` and `Menu.MenuOrderBuilds` |
| `Menu.MenuOrderBuilds` | binance_futures_bot.py:79-84 | a menu order never raises a ValueError, because lines 81-84 prompt for the needed field. It builds exactly when its upper-cased type is LIMIT or `ORDER_TYPE_STOP_MARKET` is bound; otherwise it raises the NameError |
| `Menu.MenuRequest` | binance_futures_bot.py:75-84 | whenever built, the menu's request has the upper-cased symbol and type, the typed quantity, and side BUY exactly for a casing of "buy". It has a price exactly when the upper-cased type is LIMIT, and a stop price exactly when it is STOP_MARKET |
| `Menu.MenuIgnoresCase` | binance_futures_bot.py:75-77 | answers differing only in the casing of symbol, side and type give the same outcome |
| `Menu.MenuSideTypoSells` | binance_futures_bot.py:76 | the side is neither trimmed nor checked: with "buy " or "long" a LIMIT order is always built, and any built request has side SELL |

## Findings

| source | as written | input that shows it | evidently intended | confidence | as-written member | corrected member |
|---|---|---|---|---|---|---|
| binance_futures_bot.py:39 | `elif order_type == ORDER_TYPE_STOP_MARKET` names a constant that python-binance's enums do not define; the futures one is `FUTURE_ORDER_TYPE_STOP_MARKET`. Evaluating the name raises NameError, which line 50 folds into None | `place_order("BTCUSDT", "buy", "MARKET", 1)` returns None and never calls `futures_create_order` | MARKET and STOP_MARKET orders are built and sent, as the command-line choices at line 61 offer them | not executed; depends on the enums of the installed python-binance version | `Orders.UnboundStopMarketRejectsAllButLimit` | `Orders.OtherOrderType` |

## Left out

- Constructing the python-binance `Client` and setting its testnet URLs (binance_futures_bot.py:20-23): this is a foreign library and network configuration. The model receives the client as a `Transport` value.
- The network behind `futures_create_order` is not modelled. The model fixes the reply to each call by its index and parameters, which covers a response, an API exception or any other exception.
- Logging and `print` (binance_futures_bot.py:9-13, 24, 43, 45, 48-49, 51-52): these are output only. The two `except` branches differ only in what they log and print, so the model folds both into `None` without telling them apart.
- `parse_args`, the `input()` calls and the `float()` parsing in `menu_input`, and `main`'s rendering of the result (binance_futures_bot.py:55-74, 78, 82, 84, 96-113): these are command-line plumbing. The menu's answers are given as already-parsed values.
- Floating-point numbers: the code never computes with or compares quantity, price or stop price; it only asks `is None`. They are modelled as opaque `PyNum` tokens.
- `Python.Lower`: models ASCII case mapping only, because Unicode case rules (some of which change a string's length) do not affect whether a side equals "buy".
- `Python.Upper`: models ASCII case mapping only. Python also maps a few non-ASCII letters to ASCII capitals, such as the dotless 'ı' to 'I' and the long 'ſ' to 'S'. So a menu type typed as "lımıt" becomes LIMIT in Python but not in the model.
- Exceptions outside `Exception` are not modelled. `except Exception` at binance_futures_bot.py:50 does not catch `KeyboardInterrupt` or `SystemExit`. An interrupt during the blocking exchange call at line 44 therefore propagates out of `place_order` instead of giving None. `Bot.Reply` has no such outcome.
- Cancellation or concurrency around the blocking exchange call: the code has none.
