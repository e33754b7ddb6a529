/**
 * The risk gate: a pure decision over an order's notional value and symbol against the
 * agent's optional risk policy. Money is integer paise (the Decimal columns have two places).
 */
module RiskPolicyEngine {
  import opened Wrappers

  /** The fields of a RiskPolicy row that `evaluate` reads. */
  datatype RiskPolicy = RiskPolicy(maxOrderNotional: int, allowedSymbols: seq<string>)

  /** The default row: max_order_notional 10000.00, no symbol restriction. */
  function DefaultRiskPolicy(): RiskPolicy {
    RiskPolicy(1000000, [])
  }

  datatype RiskDecision = RiskDecision(approved: bool, reason: string, riskScore: int)

  const NoPolicyReason: string := "No policy configured."
  const NotionalReason: string := "Order notional exceeds max_order_notional."
  const SymbolReason: string := "Symbol not present in allowed_symbols."
  const PassedReason: string := "Risk checks passed."

  /**
   * `RiskPolicyEngine.evaluate`. `notional` is the intent's notional_value; the source's
   * `notional_value or Decimal("0")` maps a null or zero notional to 0, and the column is
   * non-null with default 0, so the value is used as it is.
   */
  function Evaluate(notional: int, symbol: string, policy: Option<RiskPolicy>): (d: RiskDecision)
    ensures policy.None? ==> d == RiskDecision(true, NoPolicyReason, 10)
    ensures policy.Some? && notional > policy.value.maxOrderNotional ==>
              d == RiskDecision(false, NotionalReason, 95)
    ensures policy.Some? && notional <= policy.value.maxOrderNotional
              && |policy.value.allowedSymbols| > 0 && symbol !in policy.value.allowedSymbols ==>
              d == RiskDecision(false, SymbolReason, 90)
    ensures policy.Some? && notional <= policy.value.maxOrderNotional
              && (|policy.value.allowedSymbols| == 0 || symbol in policy.value.allowedSymbols) ==>
              d == RiskDecision(true, PassedReason, 20)
  {
    match policy
    case None => RiskDecision(true, NoPolicyReason, 10)
    case Some(p) =>
      if notional > p.maxOrderNotional then
        RiskDecision(false, NotionalReason, 95)
      else if |p.allowedSymbols| > 0 && symbol !in p.allowedSymbols then
        RiskDecision(false, SymbolReason, 90)
      else
        RiskDecision(true, PassedReason, 20)
  }

  /** The score is always one of 10, 20, 90, 95, and the gate approves exactly when it is at most 20. */
  lemma ScoreCharacterisesApproval(notional: int, symbol: string, policy: Option<RiskPolicy>)
    ensures Evaluate(notional, symbol, policy).riskScore in {10, 20, 90, 95}
    ensures Evaluate(notional, symbol, policy).approved <==> Evaluate(notional, symbol, policy).riskScore <= 20
  {
  }

  /** A notional equal to the maximum passes the notional check; one paisa more is denied. */
  lemma NotionalBoundary(max: int, symbol: string)
    ensures Evaluate(max, symbol, Some(RiskPolicy(max, []))).approved
    ensures !Evaluate(max + 1, symbol, Some(RiskPolicy(max, []))).approved
  {
  }

  /** The notional check wins over the symbol check: an over-limit order is scored 95 whatever its symbol. */
  lemma NotionalTakesPrecedence(notional: int, symbol: string, p: RiskPolicy)
    requires notional > p.maxOrderNotional
    ensures Evaluate(notional, symbol, Some(p)).riskScore == 95
    ensures Evaluate(notional, symbol, Some(p)).reason == NotionalReason
  {
  }

  /** 50,000.00 rupees (5,000,000 paise) of notional against the default 10,000.00 limit is denied. */
  lemma LargeOrderDenied(symbol: string)
    ensures !Evaluate(5000000, symbol, Some(DefaultRiskPolicy())).approved
  {
  }
}
