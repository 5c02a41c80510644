/**
 * Order endpoints (src/trade.rs). Creating and cancelling orders are POSTs
 * whose JSON body is signed and sent; reading orders is a GET on the
 * realtime path.
 */
module Trade {
  import opened Wrappers
  import opened JsonValue
  import opened Errors
  import opened Types
  import opened Client

  const CreateOrderPath: string := "/v5/order/create"
  const CancelOrderPath: string := "/v5/order/cancel"
  const CancelAllPath: string := "/v5/order/cancel-all"
  const RealtimeOrdersPath: string := "/v5/order/realtime"

  /** `create_order`: the request's JSON form is the body. */
  method CreateOrder<T>(client: BybitClient, request: CreateOrderRequest, env: Env,
                        decodeResult: Json -> Option<T>) returns (sent: Option<HttpRequest>, r: Result<T>)
    ensures Dispatched(client.baseUrl, client.credentials, Post, CreateOrderPath, None,
                       Some(env.serde.jsonText(OrderRequestJson(request))), env, decodeResult, sent, r)
  {
    var body := OrderRequestJson(request);
    sent, r := client.PostRequest(CreateOrderPath, Some(body), env, decodeResult);
  }

  /** The cancel body: exactly category, orderId and symbol. */
  function CancelOrderBody(category: string, orderId: string, symbol: string): (v: Json)
    ensures v.JObject? && v.members.Keys == {"category", "orderId", "symbol"}
    ensures StringMember(v, "category") == Some(category) && StringMember(v, "orderId") == Some(orderId)
    ensures StringMember(v, "symbol") == Some(symbol)
  {
    StringObject(map["category" := category, "orderId" := orderId, "symbol" := symbol])
  }

  /** `cancel_order`: untyped result. */
  method CancelOrder(client: BybitClient, category: string, orderId: string, symbol: string, env: Env)
    returns (sent: Option<HttpRequest>, r: Result<Json>)
    ensures Dispatched(client.baseUrl, client.credentials, Post, CancelOrderPath, None,
                       Some(env.serde.jsonText(CancelOrderBody(category, orderId, symbol))), env, Untyped, sent, r)
  {
    var body := CancelOrderBody(category, orderId, symbol);
    sent, r := client.PostRequest(CancelOrderPath, Some(body), env, Untyped);
  }

  /** The cancel-all body: exactly category and symbol. */
  function CancelAllBody(category: string, symbol: string): (v: Json)
    ensures v.JObject? && v.members.Keys == {"category", "symbol"}
    ensures StringMember(v, "category") == Some(category) && StringMember(v, "symbol") == Some(symbol)
  {
    StringObject(map["category" := category, "symbol" := symbol])
  }

  /** `cancel_all_orders`: untyped result. */
  method CancelAllOrders(client: BybitClient, category: string, symbol: string, env: Env)
    returns (sent: Option<HttpRequest>, r: Result<Json>)
    ensures Dispatched(client.baseUrl, client.credentials, Post, CancelAllPath, None,
                       Some(env.serde.jsonText(CancelAllBody(category, symbol))), env, Untyped, sent, r)
  {
    var body := CancelAllBody(category, symbol);
    sent, r := client.PostRequest(CancelAllPath, Some(body), env, Untyped);
  }

  /** `get_order`: category and order id, in that order. */
  method GetOrder<T>(client: BybitClient, category: string, orderId: string, env: Env,
                     decodeResult: Json -> Option<T>) returns (sent: Option<HttpRequest>, r: Result<T>)
    ensures Dispatched(client.baseUrl, client.credentials, Get, RealtimeOrdersPath,
                       Some([("category", category), ("orderId", orderId)]), None, env, decodeResult, sent, r)
    ensures sent.Some? ==> Lookup(sent.value.query.value, "category") == Some(category)
                           && Lookup(sent.value.query.value, "orderId") == Some(orderId)
  {
    var query := [("category", category), ("orderId", orderId)];
    LookupFindsFirst(query, "orderId", 1);
    sent, r := client.GetRequest(RealtimeOrdersPath, Some(query), env, decodeResult);
  }

  /** `get_open_orders`: the same path as `get_order`, with the category only. */
  method GetOpenOrders<T>(client: BybitClient, category: string, env: Env,
                          decodeResult: Json -> Option<T>) returns (sent: Option<HttpRequest>, r: Result<T>)
    ensures Dispatched(client.baseUrl, client.credentials, Get, RealtimeOrdersPath, Some([("category", category)]), None,
                       env, decodeResult, sent, r)
  {
    var query := [("category", category)];
    sent, r := client.GetRequest(RealtimeOrdersPath, Some(query), env, decodeResult);
  }
}
