/** Signals, decisions and what is written about them (services/trading/schemas.py). */
module TradingSchemas {
  import opened Basics
  import opened Options
  import opened Risk

  datatype SignalDirection = Bullish | Bearish | Neutral | AbstainSignal

  datatype Signal = Signal(symbol: string, direction: SignalDirection, confidence: real, thesis: string)

  datatype DecisionStatus = Executed | Refused | Abstained | Error

  /** The reason attached to a decision, by the branch that gave it. */
  datatype Reason =
    | KillEngaged
    | MarketContextFailed(exc: string)
    | NoSignal
    | NoEdge
    | LowConfidence(confidence: real, threshold: real)
    | NoChain
    | NotConstructible
    | RiskGates(failed: seq<Gate>)
    | ExecutionDisabled
    | OrderRejected(exc: string)

  datatype AgentDecision = AgentDecision(
    decisionId: string, symbol: string, signal: Option<Signal>, strategy: Option<OptionStrategy>,
    risk: Option<RiskResult>, status: DecisionStatus, orderId: Option<string>, reason: Option<Reason>,
    marketPrice: Option<real>, ivRank: Option<real>)

  /** The payload of a journal entry, one shape a kind. */
  datatype Payload =
    | ErrorPayload(exc: string)
    | AbstainPayload(reason: Reason, confidence: Option<real>)
    | RefusalPayload(risk: RiskResult, signal: Signal)
    | DryRunPayload(strategy: OptionStrategy, risk: RiskResult)
    | ExecutionPayload(orderId: string, status: string, strategy: OptionStrategy)
}
