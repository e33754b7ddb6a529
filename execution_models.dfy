/** The TradeIntent row and its status enumeration. */
module ExecutionModels {
  import opened Wrappers
  import opened Clock
  import opened Ids

  datatype IntentStatus = Draft | PendingApproval | Approved | Rejected | Queued | Placed | Failed | Canceled

  function IntentStatusValue(s: IntentStatus): string {
    match s
    case Draft => "draft"
    case PendingApproval => "pending_approval"
    case Approved => "approved"
    case Rejected => "rejected"
    case Queued => "queued"
    case Placed => "placed"
    case Failed => "failed"
    case Canceled => "canceled"
  }

  datatype Side = Buy | Sell
  datatype OrderType = Market | Limit | StopLoss | StopLossMarket
  datatype ProductType = MIS | CNC | NRML

  function SideValue(s: Side): string {
    match s
    case Buy => "BUY"
    case Sell => "SELL"
  }

  function OrderTypeValue(o: OrderType): string {
    match o
    case Market => "MARKET"
    case Limit => "LIMIT"
    case StopLoss => "SL"
    case StopLossMarket => "SL-M"
  }

  function ProductValue(p: ProductType): string {
    match p
    case MIS => "MIS"
    case CNC => "CNC"
    case NRML => "NRML"
  }

  /** The broker_response JSON column: empty, the paper-mode stub, or the adapter's reply (opaque). */
  datatype BrokerResponse = NoResponse | PaperResponse | AdapterResponse(body: string)

  /**
   * A TradeIntent row. Prices and notional are integer paise. `approvalRequest` is the
   * nullable one-to-one link to an ApprovalRequest.
   */
  datatype TradeIntent = TradeIntent(
    id: IntentId,
    idempotencyKey: nat,
    agentId: AgentId,
    approvalRequest: Option<RequestId>,
    symbol: string,
    exchange: string,
    side: Side,
    quantity: nat,
    orderType: OrderType,
    product: ProductType,
    price: Option<int>,
    triggerPrice: Option<int>,
    notionalValue: int,
    status: IntentStatus,
    brokerOrderId: string,
    brokerResponse: BrokerResponse,
    failureReason: string,
    placedAt: Option<Instant>)

  /** A new, unsaved intent with every column that has a default left at that default. */
  function NewTradeIntent(id: IntentId, key: nat, agentId: AgentId, symbol: string, side: Side,
                          quantity: nat, price: Option<int>): (t: TradeIntent)
    ensures t.status == Draft && t.exchange == "NSE" && t.orderType == Market && t.product == MIS
    ensures t.notionalValue == 0 && t.approvalRequest.None? && t.brokerOrderId == ""
    ensures t.failureReason == "" && t.placedAt.None? && t.brokerResponse == NoResponse
  {
    TradeIntent(id, key, agentId, None, symbol, "NSE", side, quantity, Market, MIS, price, None,
                0, Draft, "", NoResponse, "", None)
  }

  /**
   * The notional value `TradeIntent.save` leaves on the row: price times quantity when a
   * price is set and the quantity is non-zero, otherwise the value it already had.
   */
  function SavedNotional(t: TradeIntent): (n: int)
    ensures t.price.Some? && t.quantity != 0 ==> n == t.price.value * t.quantity
    ensures t.price.None? || t.quantity == 0 ==> n == t.notionalValue
  {
    if t.price.Some? && t.quantity != 0 then t.price.value * t.quantity else t.notionalValue
  }

  /** Saving twice stores the same notional as saving once. */
  lemma SaveIsIdempotent(t: TradeIntent)
    ensures SavedNotional(t.(notionalValue := SavedNotional(t))) == SavedNotional(t)
  {
  }

  /** A market order without a price keeps its default notional of 0. */
  lemma PricelessIntentHasZeroNotional(id: IntentId, key: nat, agentId: AgentId, symbol: string, side: Side, quantity: nat)
    ensures SavedNotional(NewTradeIntent(id, key, agentId, symbol, side, quantity, None)) == 0
  {
  }
}
