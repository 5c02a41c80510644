/**
 * Request and response shapes that carry logic (src/types.rs): the wire
 * names of the enumerations, the response envelope, the order-creation
 * request with its builder, and the request's JSON form.
 */
module Types {
  import opened Wrappers
  import opened Encoding
  import opened JsonValue

  // ---------------------------------------------------------------------
  // Enumerations and their wire names
  // ---------------------------------------------------------------------

  /** Product category. */
  datatype Category = Linear | Inverse | Spot | Option {
    function ToWire(): string
    {
      match this
      case Linear => "linear"
      case Inverse => "inverse"
      case Spot => "spot"
      case Option => "option"
    }
  }

  function CategoryFromWire(s: string): (r: Option<Category>)
    ensures r.Some? ==> r.value.ToWire() == s
  {
    if s == "linear" then Some(Linear)
    else if s == "inverse" then Some(Inverse)
    else if s == "spot" then Some(Spot)
    else if s == "option" then Some(Category.Option)
    else None
  }

  lemma CategoryRoundTrip(c: Category)
    ensures CategoryFromWire(c.ToWire()) == Some(c)
  {
  }

  datatype Side = Buy | Sell {
    function ToWire(): string
    {
      match this
      case Buy => "Buy"
      case Sell => "Sell"
    }
  }

  function SideFromWire(s: string): (r: Option<Side>)
    ensures r.Some? ==> r.value.ToWire() == s
  {
    if s == "Buy" then Some(Buy) else if s == "Sell" then Some(Sell) else None
  }

  lemma SideRoundTrip(x: Side)
    ensures SideFromWire(x.ToWire()) == Some(x)
  {
  }

  datatype OrderType = Market | Limit {
    function ToWire(): string
    {
      match this
      case Market => "Market"
      case Limit => "Limit"
    }
  }

  function OrderTypeFromWire(s: string): (r: Option<OrderType>)
    ensures r.Some? ==> r.value.ToWire() == s
  {
    if s == "Market" then Some(Market) else if s == "Limit" then Some(Limit) else None
  }

  lemma OrderTypeRoundTrip(x: OrderType)
    ensures OrderTypeFromWire(x.ToWire()) == Some(x)
  {
  }

  datatype TimeInForce = GTC | IOC | FOK | PostOnly | RPI {
    function ToWire(): string
    {
      match this
      case GTC => "GTC"
      case IOC => "IOC"
      case FOK => "FOK"
      case PostOnly => "PostOnly"
      case RPI => "RPI"
    }
  }

  function TimeInForceFromWire(s: string): (r: Option<TimeInForce>)
    ensures r.Some? ==> r.value.ToWire() == s
  {
    if s == "GTC" then Some(GTC)
    else if s == "IOC" then Some(IOC)
    else if s == "FOK" then Some(FOK)
    else if s == "PostOnly" then Some(PostOnly)
    else if s == "RPI" then Some(RPI)
    else None
  }

  lemma TimeInForceRoundTrip(x: TimeInForce)
    ensures TimeInForceFromWire(x.ToWire()) == Some(x)
  {
  }

  datatype OrderStatus = New | PartiallyFilled | Filled | Cancelled | Rejected {
    function ToWire(): string
    {
      match this
      case New => "New"
      case PartiallyFilled => "PartiallyFilled"
      case Filled => "Filled"
      case Cancelled => "Cancelled"
      case Rejected => "Rejected"
    }
  }

  function OrderStatusFromWire(s: string): (r: Option<OrderStatus>)
    ensures r.Some? ==> r.value.ToWire() == s
  {
    if s == "New" then Some(New)
    else if s == "PartiallyFilled" then Some(PartiallyFilled)
    else if s == "Filled" then Some(Filled)
    else if s == "Cancelled" then Some(Cancelled)
    else if s == "Rejected" then Some(Rejected)
    else None
  }

  lemma OrderStatusRoundTrip(x: OrderStatus)
    ensures OrderStatusFromWire(x.ToWire()) == Some(x)
  {
  }

  /** Distinct variants have distinct wire names, for all five enumerations. */
  lemma WireNamesInjective(c: Category, c': Category, s: Side, s': Side, o: OrderType, o': OrderType,
                           t: TimeInForce, t': TimeInForce, u: OrderStatus, u': OrderStatus)
    ensures c.ToWire() == c'.ToWire() ==> c == c'
    ensures s.ToWire() == s'.ToWire() ==> s == s'
    ensures o.ToWire() == o'.ToWire() ==> o == o'
    ensures t.ToWire() == t'.ToWire() ==> t == t'
    ensures u.ToWire() == u'.ToWire() ==> u == u'
  {
    CategoryRoundTrip(c); CategoryRoundTrip(c');
    SideRoundTrip(s); SideRoundTrip(s');
    OrderTypeRoundTrip(o); OrderTypeRoundTrip(o');
    TimeInForceRoundTrip(t); TimeInForceRoundTrip(t');
    OrderStatusRoundTrip(u); OrderStatusRoundTrip(u');
  }

  // ---------------------------------------------------------------------
  // Response envelope
  // ---------------------------------------------------------------------

  /** The envelope around every response; `result` has the endpoint's own shape. */
  datatype ApiResponse<T> = ApiResponse(retCode: I32, retMsg: string, result: T, retExtInfo: Json, time: I64)

  /** An integer member that fits `i32`. */
  function I32Member(v: Json, key: string): (r: Option<I32>)
    ensures r.Some? <==> Member(v, key).Some? && Member(v, key).value.JNumber?
                         && -0x8000_0000 <= Member(v, key).value.n < 0x8000_0000
    ensures r.Some? ==> Member(v, key) == Some(JNumber(r.value))
  {
    match Member(v, key)
    case Some(JNumber(n)) => if -0x8000_0000 <= n < 0x8000_0000 then Some(n as I32) else None
    case _ => None
  }

  /** An integer member that fits `i64`. */
  function I64Member(v: Json, key: string): (r: Option<I64>)
    ensures r.Some? <==> Member(v, key).Some? && Member(v, key).value.JNumber?
                         && -0x8000_0000_0000_0000 <= Member(v, key).value.n < 0x8000_0000_0000_0000
    ensures r.Some? ==> Member(v, key) == Some(JNumber(r.value))
  {
    match Member(v, key)
    case Some(JNumber(n)) =>
      if -0x8000_0000_0000_0000 <= n < 0x8000_0000_0000_0000 then Some(n as I64) else None
    case _ => None
  }

  /**
   * Field-by-field decoding of the envelope, as the derived deserializer
   * does it: retCode, retMsg, result and time must be present and well
   * typed, retExtInfo falls back to null when absent, other keys are
   * ignored. `decodeResult` decodes the endpoint's result shape.
   */
  function DecodeApiResponse<T>(v: Json, decodeResult: Json -> Option<T>): (r: Option<ApiResponse<T>>)
    ensures r.Some? <==>
      && I32Member(v, "retCode").Some?
      && StringMember(v, "retMsg").Some?
      && Member(v, "result").Some? && decodeResult(Member(v, "result").value).Some?
      && I64Member(v, "time").Some?
    ensures r.Some? ==>
      && Member(v, "retCode") == Some(JNumber(r.value.retCode))
      && Member(v, "retMsg") == Some(JString(r.value.retMsg))
      && decodeResult(Member(v, "result").value) == Some(r.value.result)
      && Member(v, "time") == Some(JNumber(r.value.time))
      && r.value.retExtInfo == Member(v, "retExtInfo").UnwrapOr(JNull)
  {
    match (I32Member(v, "retCode"), StringMember(v, "retMsg"), Member(v, "result"), I64Member(v, "time"))
    case (Some(code), Some(msg), Some(res), Some(time)) =>
      (match decodeResult(res)
       case Some(result) => Some(ApiResponse(code, msg, result, Member(v, "retExtInfo").UnwrapOr(JNull), time))
       case None => None)
    case _ => None
  }

  /** The decoder that keeps `result` as an untyped JSON value. */
  function Untyped(v: Json): Option<Json> { Some(v) }

  /**
   * Decoding with a typed result is decoding with an untyped one and then
   * decoding its result: the two-step reading loses and adds nothing.
   */
  lemma DecodeApiResponseFactors<T>(v: Json, decodeResult: Json -> Option<T>)
    ensures DecodeApiResponse(v, decodeResult).Some? <==>
      DecodeApiResponse(v, Untyped).Some? && decodeResult(DecodeApiResponse(v, Untyped).value.result).Some?
    ensures DecodeApiResponse(v, decodeResult).Some? ==>
      var raw := DecodeApiResponse(v, Untyped).value;
      DecodeApiResponse(v, decodeResult).value
        == ApiResponse(raw.retCode, raw.retMsg, decodeResult(raw.result).value, raw.retExtInfo, raw.time)
  {
  }

  /** The server-time result. */
  datatype ServerTime = ServerTime(timeSecond: string, timeNano: string)

  function DecodeServerTime(v: Json): (r: Option<ServerTime>)
    ensures r.Some? <==> StringMember(v, "timeSecond").Some? && StringMember(v, "timeNano").Some?
    ensures r.Some? ==> StringMember(v, "timeSecond") == Some(r.value.timeSecond)
                        && StringMember(v, "timeNano") == Some(r.value.timeNano)
  {
    match (StringMember(v, "timeSecond"), StringMember(v, "timeNano"))
    case (Some(s), Some(n)) => Some(ServerTime(s, n))
    case _ => None
  }

  // ---------------------------------------------------------------------
  // Order creation request
  // ---------------------------------------------------------------------

  /** The body of an order creation: four required fields and eighteen optional ones. */
  datatype CreateOrderRequest = CreateOrderRequest(
    category: string,
    symbol: string,
    side: string,
    orderType: string,
    qty: Option<string>,
    price: Option<string>,
    timeInForce: Option<string>,
    positionIdx: Option<U64>,
    orderLinkId: Option<string>,
    triggerPrice: Option<string>,
    takeProfit: Option<string>,
    stopLoss: Option<string>,
    reduceOnly: Option<bool>,
    closeOnTrigger: Option<bool>,
    triggerBy: Option<string>,
    tpTriggerBy: Option<string>,
    slTriggerBy: Option<string>,
    marketUnit: Option<string>,
    slippageToleranceType: Option<string>,
    slippageTolerance: Option<string>,
    triggerDirection: Option<I32>,
    orderFilter: Option<string>)

  const RequiredOrderKeys: set<string> := {"category", "symbol", "side", "orderType"}

  /**
   * The optional keys: most are the camelCase names the fields are renamed
   * to; the last eight keep their snake_case field names.
   */
  const OptionalOrderKeys: set<string> := {
    "qty", "price", "timeInForce", "positionIdx", "orderLinkId", "triggerPrice", "takeProfit",
    "stopLoss", "reduceOnly", "closeOnTrigger",
    "trigger_by", "tp_trigger_by", "sl_trigger_by", "market_unit", "slippage_tolerance_type",
    "slippage_tolerance", "trigger_direction", "order_filter"}

  function StrOpt(o: Option<string>): Option<Json>
  {
    if o.Some? then Some(JString(o.value)) else None
  }

  function NumOpt(o: Option<int>): Option<Json>
  {
    if o.Some? then Some(JNumber(o.value)) else None
  }

  function BoolOpt(o: Option<bool>): Option<Json>
  {
    if o.Some? then Some(JBool(o.value)) else None
  }

  /** The JSON value of the field written under `key`, or `None` when the field is unset. */
  function OrderField(r: CreateOrderRequest, key: string): Option<Json>
  {
    match key
    case "category" => Some(JString(r.category))
    case "symbol" => Some(JString(r.symbol))
    case "side" => Some(JString(r.side))
    case "orderType" => Some(JString(r.orderType))
    case "qty" => StrOpt(r.qty)
    case "price" => StrOpt(r.price)
    case "timeInForce" => StrOpt(r.timeInForce)
    case "positionIdx" => NumOpt(r.positionIdx)
    case "orderLinkId" => StrOpt(r.orderLinkId)
    case "triggerPrice" => StrOpt(r.triggerPrice)
    case "takeProfit" => StrOpt(r.takeProfit)
    case "stopLoss" => StrOpt(r.stopLoss)
    case "reduceOnly" => BoolOpt(r.reduceOnly)
    case "closeOnTrigger" => BoolOpt(r.closeOnTrigger)
    case "trigger_by" => StrOpt(r.triggerBy)
    case "tp_trigger_by" => StrOpt(r.tpTriggerBy)
    case "sl_trigger_by" => StrOpt(r.slTriggerBy)
    case "market_unit" => StrOpt(r.marketUnit)
    case "slippage_tolerance_type" => StrOpt(r.slippageToleranceType)
    case "slippage_tolerance" => StrOpt(r.slippageTolerance)
    case "trigger_direction" => NumOpt(r.triggerDirection)
    case "order_filter" => StrOpt(r.orderFilter)
    case _ => None
  }

  /**
   * The JSON form of an order request: a key for every field that is set,
   * with that field's value, and no other key. Optional fields that are
   * unset are skipped rather than written as null.
   */
  function OrderRequestJson(r: CreateOrderRequest): (o: Json)
    ensures o.JObject?
    ensures RequiredOrderKeys <= o.members.Keys <= RequiredOrderKeys + OptionalOrderKeys
    ensures forall k :: k in o.members <==> OrderField(r, k).Some?
    ensures forall k :: k in o.members ==> o.members[k] == OrderField(r, k).value
  {
    JObject(map k | k in RequiredOrderKeys + OptionalOrderKeys && OrderField(r, k).Some? :: OrderField(r, k).value)
  }

  /** Skipping unset fields: a request with only the required fields is written with exactly the required keys. */
  lemma MinimalOrderRequestJson(r: CreateOrderRequest)
    requires r.qty.None? && r.price.None? && r.timeInForce.None? && r.positionIdx.None?
    requires r.orderLinkId.None? && r.triggerPrice.None? && r.takeProfit.None? && r.stopLoss.None?
    requires r.reduceOnly.None? && r.closeOnTrigger.None? && r.triggerBy.None? && r.tpTriggerBy.None?
    requires r.slTriggerBy.None? && r.marketUnit.None? && r.slippageToleranceType.None?
    requires r.slippageTolerance.None? && r.triggerDirection.None? && r.orderFilter.None?
    ensures OrderRequestJson(r).members.Keys == RequiredOrderKeys
  {
    forall k | k in OptionalOrderKeys ensures OrderField(r, k).None? {
    }
  }

  // ---------------------------------------------------------------------
  // Builder
  // ---------------------------------------------------------------------

  /** Names of the builder's fields, to say which one a setter touches. */
  datatype BuilderField =
    | FCategory
    | FSymbol
    | FSide
    | FOrderType
    | FQty
    | FPrice
    | FTimeInForce
    | FPositionIdx
    | FOrderLinkId
    | FTriggerPrice
    | FTakeProfit
    | FStopLoss
    | FReduceOnly
    | FCloseOnTrigger
    | FTriggerBy
    | FTpTriggerBy
    | FSlTriggerBy
    | FMarketUnit
    | FSlippageToleranceType
    | FSlippageTolerance
    | FTriggerDirection
    | FOrderFilter

  /**
   * Accumulates the fields of an order request; every field starts unset.
   * Each setter consumes the builder and returns it with one field set.
   */
  datatype OrderRequestBuilder = OrderRequestBuilder(
    category: Option<string>,
    symbol: Option<string>,
    side: Option<string>,
    orderType: Option<string>,
    qty: Option<string>,
    price: Option<string>,
    timeInForce: Option<string>,
    positionIdx: Option<U64>,
    orderLinkId: Option<string>,
    triggerPrice: Option<string>,
    takeProfit: Option<string>,
    stopLoss: Option<string>,
    reduceOnly: Option<bool>,
    closeOnTrigger: Option<bool>,
    triggerBy: Option<string>,
    tpTriggerBy: Option<string>,
    slTriggerBy: Option<string>,
    marketUnit: Option<string>,
    slippageToleranceType: Option<string>,
    slippageTolerance: Option<string>,
    triggerDirection: Option<I32>,
    orderFilter: Option<string>)
  {
    /** The builder with field `f` cleared: what a setter of `f` must leave alone. */
    function Without(f: BuilderField): OrderRequestBuilder
    {
      match f
      case FCategory => this.(category := None)
      case FSymbol => this.(symbol := None)
      case FSide => this.(side := None)
      case FOrderType => this.(orderType := None)
      case FQty => this.(qty := None)
      case FPrice => this.(price := None)
      case FTimeInForce => this.(timeInForce := None)
      case FPositionIdx => this.(positionIdx := None)
      case FOrderLinkId => this.(orderLinkId := None)
      case FTriggerPrice => this.(triggerPrice := None)
      case FTakeProfit => this.(takeProfit := None)
      case FStopLoss => this.(stopLoss := None)
      case FReduceOnly => this.(reduceOnly := None)
      case FCloseOnTrigger => this.(closeOnTrigger := None)
      case FTriggerBy => this.(triggerBy := None)
      case FTpTriggerBy => this.(tpTriggerBy := None)
      case FSlTriggerBy => this.(slTriggerBy := None)
      case FMarketUnit => this.(marketUnit := None)
      case FSlippageToleranceType => this.(slippageToleranceType := None)
      case FSlippageTolerance => this.(slippageTolerance := None)
      case FTriggerDirection => this.(triggerDirection := None)
      case FOrderFilter => this.(orderFilter := None)
    }

    function SetCategory(v: string): (b: OrderRequestBuilder)
      ensures b.category == Some(v) && b.Without(FCategory) == Without(FCategory)
    {
      this.(category := Some(v))
    }

    function SetSymbol(v: string): (b: OrderRequestBuilder)
      ensures b.symbol == Some(v) && b.Without(FSymbol) == Without(FSymbol)
    {
      this.(symbol := Some(v))
    }

    function SetSide(v: string): (b: OrderRequestBuilder)
      ensures b.side == Some(v) && b.Without(FSide) == Without(FSide)
    {
      this.(side := Some(v))
    }

    function SetOrderType(v: string): (b: OrderRequestBuilder)
      ensures b.orderType == Some(v) && b.Without(FOrderType) == Without(FOrderType)
    {
      this.(orderType := Some(v))
    }

    function SetQty(v: string): (b: OrderRequestBuilder)
      ensures b.qty == Some(v) && b.Without(FQty) == Without(FQty)
    {
      this.(qty := Some(v))
    }

    function SetPrice(v: string): (b: OrderRequestBuilder)
      ensures b.price == Some(v) && b.Without(FPrice) == Without(FPrice)
    {
      this.(price := Some(v))
    }

    function SetTimeInForce(v: string): (b: OrderRequestBuilder)
      ensures b.timeInForce == Some(v) && b.Without(FTimeInForce) == Without(FTimeInForce)
    {
      this.(timeInForce := Some(v))
    }

    function SetPositionIdx(v: U64): (b: OrderRequestBuilder)
      ensures b.positionIdx == Some(v) && b.Without(FPositionIdx) == Without(FPositionIdx)
    {
      this.(positionIdx := Some(v))
    }

    function SetOrderLinkId(v: string): (b: OrderRequestBuilder)
      ensures b.orderLinkId == Some(v) && b.Without(FOrderLinkId) == Without(FOrderLinkId)
    {
      this.(orderLinkId := Some(v))
    }

    function SetTriggerPrice(v: string): (b: OrderRequestBuilder)
      ensures b.triggerPrice == Some(v) && b.Without(FTriggerPrice) == Without(FTriggerPrice)
    {
      this.(triggerPrice := Some(v))
    }

    function SetTakeProfit(v: string): (b: OrderRequestBuilder)
      ensures b.takeProfit == Some(v) && b.Without(FTakeProfit) == Without(FTakeProfit)
    {
      this.(takeProfit := Some(v))
    }

    function SetStopLoss(v: string): (b: OrderRequestBuilder)
      ensures b.stopLoss == Some(v) && b.Without(FStopLoss) == Without(FStopLoss)
    {
      this.(stopLoss := Some(v))
    }

    function SetReduceOnly(v: bool): (b: OrderRequestBuilder)
      ensures b.reduceOnly == Some(v) && b.Without(FReduceOnly) == Without(FReduceOnly)
    {
      this.(reduceOnly := Some(v))
    }

    function SetCloseOnTrigger(v: bool): (b: OrderRequestBuilder)
      ensures b.closeOnTrigger == Some(v) && b.Without(FCloseOnTrigger) == Without(FCloseOnTrigger)
    {
      this.(closeOnTrigger := Some(v))
    }

    function SetTriggerBy(v: string): (b: OrderRequestBuilder)
      ensures b.triggerBy == Some(v) && b.Without(FTriggerBy) == Without(FTriggerBy)
    {
      this.(triggerBy := Some(v))
    }

    function SetTpTriggerBy(v: string): (b: OrderRequestBuilder)
      ensures b.tpTriggerBy == Some(v) && b.Without(FTpTriggerBy) == Without(FTpTriggerBy)
    {
      this.(tpTriggerBy := Some(v))
    }

    function SetSlTriggerBy(v: string): (b: OrderRequestBuilder)
      ensures b.slTriggerBy == Some(v) && b.Without(FSlTriggerBy) == Without(FSlTriggerBy)
    {
      this.(slTriggerBy := Some(v))
    }

    function SetMarketUnit(v: string): (b: OrderRequestBuilder)
      ensures b.marketUnit == Some(v) && b.Without(FMarketUnit) == Without(FMarketUnit)
    {
      this.(marketUnit := Some(v))
    }

    function SetSlippageToleranceType(v: string): (b: OrderRequestBuilder)
      ensures b.slippageToleranceType == Some(v) && b.Without(FSlippageToleranceType) == Without(FSlippageToleranceType)
    {
      this.(slippageToleranceType := Some(v))
    }

    function SetSlippageTolerance(v: string): (b: OrderRequestBuilder)
      ensures b.slippageTolerance == Some(v) && b.Without(FSlippageTolerance) == Without(FSlippageTolerance)
    {
      this.(slippageTolerance := Some(v))
    }

    function SetTriggerDirection(v: I32): (b: OrderRequestBuilder)
      ensures b.triggerDirection == Some(v) && b.Without(FTriggerDirection) == Without(FTriggerDirection)
    {
      this.(triggerDirection := Some(v))
    }

    function SetOrderFilter(v: string): (b: OrderRequestBuilder)
      ensures b.orderFilter == Some(v) && b.Without(FOrderFilter) == Without(FOrderFilter)
    {
      this.(orderFilter := Some(v))
    }

    /**
     * `build`: the category falls back to "linear"; symbol, side and order
     * type must have been set; every optional field is carried over as is.
     */
    function Build(): (r: CreateOrderRequest)
      requires symbol.Some? && side.Some? && orderType.Some?
      ensures r.category == (if category.Some? then category.value else "linear")
      ensures r.symbol == symbol.value && r.side == side.value && r.orderType == orderType.value
      ensures r.qty == qty
      ensures r.price == price
      ensures r.timeInForce == timeInForce
      ensures r.positionIdx == positionIdx
      ensures r.orderLinkId == orderLinkId
      ensures r.triggerPrice == triggerPrice
      ensures r.takeProfit == takeProfit
      ensures r.stopLoss == stopLoss
      ensures r.reduceOnly == reduceOnly
      ensures r.closeOnTrigger == closeOnTrigger
      ensures r.triggerBy == triggerBy
      ensures r.tpTriggerBy == tpTriggerBy
      ensures r.slTriggerBy == slTriggerBy
      ensures r.marketUnit == marketUnit
      ensures r.slippageToleranceType == slippageToleranceType
      ensures r.slippageTolerance == slippageTolerance
      ensures r.triggerDirection == triggerDirection
      ensures r.orderFilter == orderFilter
    {
      CreateOrderRequest(
        category.UnwrapOr("linear"), symbol.value, side.value, orderType.value,
        qty, price, timeInForce, positionIdx, orderLinkId, triggerPrice, takeProfit, stopLoss, reduceOnly, closeOnTrigger, triggerBy, tpTriggerBy, slTriggerBy, marketUnit, slippageToleranceType, slippageTolerance, triggerDirection, orderFilter)
    }
  }

  /** `CreateOrderRequest::builder()`: nothing set. */
  const EmptyBuilder: OrderRequestBuilder := OrderRequestBuilder(
    None, None, None, None, None, None, None, None, None, None, None,
    None, None, None, None, None, None, None, None, None, None, None)

  /** The builder whose every field is set from `r`. */
  function BuilderOf(r: CreateOrderRequest): (b: OrderRequestBuilder)
    ensures b.symbol.Some? && b.side.Some? && b.orderType.Some?
  {
    OrderRequestBuilder(
      Some(r.category), Some(r.symbol), Some(r.side), Some(r.orderType),
      r.qty, r.price, r.timeInForce, r.positionIdx, r.orderLinkId, r.triggerPrice, r.takeProfit, r.stopLoss, r.reduceOnly, r.closeOnTrigger, r.triggerBy, r.tpTriggerBy, r.slTriggerBy, r.marketUnit, r.slippageToleranceType, r.slippageTolerance, r.triggerDirection, r.orderFilter)
  }

  /** Building loses nothing: every request is what building its own fields gives. */
  lemma BuildRoundTrip(r: CreateOrderRequest)
    ensures BuilderOf(r).Build() == r
  {
  }

  /** A later call of a setter replaces what an earlier call of the same setter stored. */
  lemma LastWriteWins(b: OrderRequestBuilder, x: string, y: string, i: U64, j: U64, p: bool, q: bool, d: I32, d': I32)
    ensures b.SetCategory(x).SetCategory(y) == b.SetCategory(y)
    ensures b.SetSymbol(x).SetSymbol(y) == b.SetSymbol(y)
    ensures b.SetSide(x).SetSide(y) == b.SetSide(y)
    ensures b.SetOrderType(x).SetOrderType(y) == b.SetOrderType(y)
    ensures b.SetQty(x).SetQty(y) == b.SetQty(y)
    ensures b.SetPrice(x).SetPrice(y) == b.SetPrice(y)
    ensures b.SetTimeInForce(x).SetTimeInForce(y) == b.SetTimeInForce(y)
    ensures b.SetOrderLinkId(x).SetOrderLinkId(y) == b.SetOrderLinkId(y)
    ensures b.SetTriggerPrice(x).SetTriggerPrice(y) == b.SetTriggerPrice(y)
    ensures b.SetTakeProfit(x).SetTakeProfit(y) == b.SetTakeProfit(y)
    ensures b.SetStopLoss(x).SetStopLoss(y) == b.SetStopLoss(y)
    ensures b.SetTriggerBy(x).SetTriggerBy(y) == b.SetTriggerBy(y)
    ensures b.SetTpTriggerBy(x).SetTpTriggerBy(y) == b.SetTpTriggerBy(y)
    ensures b.SetSlTriggerBy(x).SetSlTriggerBy(y) == b.SetSlTriggerBy(y)
    ensures b.SetMarketUnit(x).SetMarketUnit(y) == b.SetMarketUnit(y)
    ensures b.SetSlippageToleranceType(x).SetSlippageToleranceType(y) == b.SetSlippageToleranceType(y)
    ensures b.SetSlippageTolerance(x).SetSlippageTolerance(y) == b.SetSlippageTolerance(y)
    ensures b.SetOrderFilter(x).SetOrderFilter(y) == b.SetOrderFilter(y)
    ensures b.SetPositionIdx(i).SetPositionIdx(j) == b.SetPositionIdx(j)
    ensures b.SetReduceOnly(p).SetReduceOnly(q) == b.SetReduceOnly(q)
    ensures b.SetCloseOnTrigger(p).SetCloseOnTrigger(q) == b.SetCloseOnTrigger(q)
    ensures b.SetTriggerDirection(d).SetTriggerDirection(d') == b.SetTriggerDirection(d')
  {
  }

  /** Without a category the built request is for linear contracts; with one, it keeps it. */
  lemma BuildDefaultsCategory(b: OrderRequestBuilder, c: string)
    requires b.symbol.Some? && b.side.Some? && b.orderType.Some?
    ensures b.category.None? ==> b.Build().category == "linear"
    ensures b.SetCategory(c).Build().category == c
  {
  }

  /** A market order with only its required fields: no price and no quantity are written. */
  lemma MarketOrderJsonExample()
    ensures var r := EmptyBuilder.SetSymbol("BTCUSDT").SetSide("Buy").SetOrderType("Market").Build();
      var o := OrderRequestJson(r).members;
      && r.category == "linear"
      && o.Keys == RequiredOrderKeys
      && o["symbol"] == JString("BTCUSDT") && o["side"] == JString("Buy")
      && o["orderType"] == JString("Market") && o["category"] == JString("linear")
      && "price" !in o && "qty" !in o
  {
    var r := EmptyBuilder.SetSymbol("BTCUSDT").SetSide("Buy").SetOrderType("Market").Build();
    MinimalOrderRequestJson(r);
    assert "price" !in RequiredOrderKeys && "qty" !in RequiredOrderKeys;
  }
}
