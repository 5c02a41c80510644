/**
 * Account and position endpoints (src/account.rs). Reads are GETs whose
 * query starts with the category; changing the leverage is a POST whose
 * body is a four-member JSON object.
 */
module Account {
  import opened Wrappers
  import opened JsonValue
  import opened Errors
  import opened Client

  const WalletBalancePath: string := "/v5/account/wallet-balance"
  const PositionListPath: string := "/v5/position/list"
  const SetLeveragePath: string := "/v5/position/set-leverage"
  const ExecutionListPath: string := "/v5/execution/list"
  const ClosedPnlPath: string := "/v5/position/closed-pnl"

  /** `get_wallet_balance`: a query only when an account type is given, and then just that. */
  method GetWalletBalance<T>(client: BybitClient, accountType: Option<string>, env: Env,
                             decodeResult: Json -> Option<T>) returns (sent: Option<HttpRequest>, r: Result<T>)
    ensures Dispatched(client.baseUrl, client.credentials, Get, WalletBalancePath,
                       if accountType.Some? then Some([("accountType", accountType.value)]) else None, None,
                       env, decodeResult, sent, r)
  {
    var query: Option<Query> := None;
    if accountType.Some? {
      query := Some([("accountType", accountType.value)]);
    }
    sent, r := client.GetRequest(WalletBalancePath, query, env, decodeResult);
  }

  /** What the server reads from a category query: the category and, when given, the symbol; nothing else. */
  predicate CategoryParams(q: Query, category: string, symbol: Option<string>)
  {
    && |q| == (if symbol.Some? then 2 else 1)
    && Lookup(q, "category") == Some(category)
    && Lookup(q, "symbol") == symbol
  }

  /** The query that position, execution and closed-PnL reads build, pushing the symbol when given. */
  method CategoryQuery(category: string, symbol: Option<string>) returns (q: Query)
    ensures q == [("category", category)] + (if symbol.Some? then [("symbol", symbol.value)] else [])
    ensures CategoryParams(q, category, symbol)
  {
    q := [("category", category)];
    if symbol.Some? {
      q := q + [("symbol", symbol.value)];
      LookupFindsFirst(q, "symbol", 1);
    } else {
      LookupSpec(q, "symbol");
    }
  }

  /** `get_position`. */
  method GetPosition<T>(client: BybitClient, category: string, symbol: Option<string>, env: Env,
                        decodeResult: Json -> Option<T>) returns (sent: Option<HttpRequest>, r: Result<T>)
    ensures Dispatched(client.baseUrl, client.credentials, Get, PositionListPath,
                       Some([("category", category)] + (if symbol.Some? then [("symbol", symbol.value)] else [])), None,
                       env, decodeResult, sent, r)
    ensures sent.Some? ==> CategoryParams(sent.value.query.value, category, symbol)
  {
    var query := CategoryQuery(category, symbol);
    sent, r := client.GetRequest(PositionListPath, Some(query), env, decodeResult);
  }

  /** `get_execution_list`: untyped result. */
  method GetExecutionList(client: BybitClient, category: string, symbol: Option<string>, env: Env)
    returns (sent: Option<HttpRequest>, r: Result<Json>)
    ensures Dispatched(client.baseUrl, client.credentials, Get, ExecutionListPath,
                       Some([("category", category)] + (if symbol.Some? then [("symbol", symbol.value)] else [])), None,
                       env, Types.Untyped, sent, r)
    ensures sent.Some? ==> CategoryParams(sent.value.query.value, category, symbol)
  {
    var query := CategoryQuery(category, symbol);
    sent, r := client.GetRequest(ExecutionListPath, Some(query), env, Types.Untyped);
  }

  /** `get_closed_pnl`: untyped result. */
  method GetClosedPnl(client: BybitClient, category: string, symbol: Option<string>, env: Env)
    returns (sent: Option<HttpRequest>, r: Result<Json>)
    ensures Dispatched(client.baseUrl, client.credentials, Get, ClosedPnlPath,
                       Some([("category", category)] + (if symbol.Some? then [("symbol", symbol.value)] else [])), None,
                       env, Types.Untyped, sent, r)
    ensures sent.Some? ==> CategoryParams(sent.value.query.value, category, symbol)
  {
    var query := CategoryQuery(category, symbol);
    sent, r := client.GetRequest(ClosedPnlPath, Some(query), env, Types.Untyped);
  }

  /** The set-leverage body: exactly four string members, each holding its argument. */
  function SetLeverageBody(category: string, symbol: string, buyLeverage: string, sellLeverage: string): (v: Json)
    ensures v.JObject? && v.members.Keys == {"category", "symbol", "buyLeverage", "sellLeverage"}
    ensures StringMember(v, "category") == Some(category) && StringMember(v, "symbol") == Some(symbol)
    ensures StringMember(v, "buyLeverage") == Some(buyLeverage) && StringMember(v, "sellLeverage") == Some(sellLeverage)
  {
    StringObject(map["category" := category, "symbol" := symbol,
                     "buyLeverage" := buyLeverage, "sellLeverage" := sellLeverage])
  }

  /** `set_leverage`: a POST of the set-leverage body, untyped result. */
  method SetLeverage(client: BybitClient, category: string, symbol: string, buyLeverage: string,
                     sellLeverage: string, env: Env) returns (sent: Option<HttpRequest>, r: Result<Json>)
    ensures Dispatched(client.baseUrl, client.credentials, Post, SetLeveragePath, None,
                       Some(env.serde.jsonText(SetLeverageBody(category, symbol, buyLeverage, sellLeverage))),
                       env, Types.Untyped, sent, r)
  {
    var body := SetLeverageBody(category, symbol, buyLeverage, sellLeverage);
    sent, r := client.PostRequest(SetLeveragePath, Some(body), env, Types.Untyped);
  }
}
