/** Accepting a stored quant strategy and freezing it into a run
    (storage/strategy_policy.py, agent/backtest_policy.py). */
module StrategyPolicy {
  import opened BrokerModels

  datatype Params =
    | MomentumParams(lookback: int, entry: real, exit: real)
    | SmaParams(fast: int, slow: int)
    | UnsupportedDefinition
    | MalformedParams

  datatype StrategyType = Quant | Agent | Hitl | OtherType

  /** The stored record.  A number is None when it is missing or not a finite number, a
      ticker when it is not an uppercase symbol; `tickers` is empty when it is no list.
      `frequencyKnown` and `beliefsListed` say whether the execution frequency is one of
      the three, and whether the beliefs are a list of texts. */
  datatype Strategy = Strategy(
    active: bool,
    tickers: seq<Option<Name>>,
    kind: StrategyType,
    params: Params,
    targetPercent: Option<real>,
    maxPositionPercent: Option<real>,
    maxDrawdownPercent: Option<real>,
    initialCapital: Option<real>,
    frequencyKnown: bool,
    beliefsListed: bool)

  datatype StrategyError = Inactive | TickerNotAllowed | TypeUnsupported | NotBacktestable | ConfigInvalid

  datatype Checked<+T> = Ok(value: T) | Err(error: StrategyError)

  datatype Policy =
    | Momentum(lookback: int, entry: real, exit: real, target: real)
    | Sma(fast: int, slow: int, target: real)

  /** The field bounds of the policy models. */
  predicate ValidPolicy(p: Policy) {
    && 0.0 <= p.target <= 1.0
    && match p
       case Momentum(lookback, entry, exit, _) => 2 <= lookback <= 252 && exit <= entry
       case Sma(fast, slow, _) => 2 <= fast <= 100 && 3 <= slow <= 252 && fast < slow
  }

  function FinitePositive(v: Option<real>): Checked<real> {
    if v == None || v.value <= 0.0 then Err(ConfigInvalid) else Ok(v.value)
  }

  function FinitePercent(v: Option<real>): Checked<real> {
    match FinitePositive(v)
    case Err(e) => Err(e)
    case Ok(x) => if x > 100.0 then Err(ConfigInvalid) else Ok(x)
  }

  function MakePolicy(params: Params, target: real): Checked<Policy> {
    match params
    case MomentumParams(lookback, entry, exit) =>
      var p := Momentum(lookback, entry, exit, target);
      if ValidPolicy(p) then Ok(p) else Err(ConfigInvalid)
    case SmaParams(fast, slow) =>
      var p := Sma(fast, slow, target);
      if ValidPolicy(p) then Ok(p) else Err(ConfigInvalid)
    case UnsupportedDefinition => Err(NotBacktestable)
    case MalformedParams => Err(ConfigInvalid)
  }

  /** `validate_quant_strategy_definition` */
  function ValidateDefinition(s: Strategy): Checked<Policy> {
    if s.params == UnsupportedDefinition then Err(NotBacktestable)
    else if s.params == MalformedParams then Err(ConfigInvalid)
    else
      match FinitePercent(s.maxPositionPercent)
      case Err(e) => Err(e)
      case Ok(maxPercent) =>
        if s.targetPercent == None then Err(ConfigInvalid)
        else
          match MakePolicy(s.params, s.targetPercent.value / 100.0)
          case Err(e) => Err(e)
          case Ok(p) => if p.target > maxPercent / 100.0 then Err(ConfigInvalid) else Ok(p)
  }

  datatype RunSpec = RunSpec(ticker: Name, policy: Policy, broker: Config, maxDrawdown: real)

  const COMMISSION := 0.001
  const SLIPPAGE := 0.0005

  /** `_validate_common_strategy`; its result is the error, if any. */
  function CommonError(s: Strategy, ticker: Name): Option<StrategyError> {
    if !s.active then Some(Inactive)
    else if |s.tickers| == 0 || None in s.tickers then Some(ConfigInvalid)
    else if Some(ticker) !in s.tickers then Some(TickerNotAllowed)
    else if FinitePositive(s.initialCapital).Err? then Some(FinitePositive(s.initialCapital).error)
    else if FinitePercent(s.maxPositionPercent).Err? then Some(FinitePercent(s.maxPositionPercent).error)
    else if FinitePercent(s.maxDrawdownPercent).Err? then Some(FinitePercent(s.maxDrawdownPercent).error)
    else None
  }

  /** `_freeze_policy`, in deterministic mode. */
  function FreezePolicy(s: Strategy): Checked<Policy> {
    if s.kind != Quant then Err(TypeUnsupported) else ValidateDefinition(s)
  }

  /** `freeze_backtest_run_spec`, in deterministic mode, for a request of this ticker. */
  function Freeze(s: Strategy, ticker: Name): Checked<RunSpec> {
    match CommonError(s, ticker)
    case Some(e) => Err(e)
    case None =>
      match FreezePolicy(s)
      case Err(e) => Err(e)
      case Ok(p) =>
        match FinitePercent(s.maxPositionPercent)
        case Err(e) => Err(e)
        case Ok(maxPercent) =>
          match FinitePercent(s.maxDrawdownPercent)
          case Err(e) => Err(e)
          case Ok(drawdown) =>
            match FinitePositive(s.initialCapital)
            case Err(e) => Err(e)
            case Ok(capital) =>
              if !s.frequencyKnown || !s.beliefsListed then Err(ConfigInvalid)
              else
                var broker := Config(capital, COMMISSION, SLIPPAGE, NextOpen, maxPercent / 100.0, false);
                Ok(RunSpec(ticker, p, broker, drawdown / 100.0))
  }

  /** What every frozen run guarantees to the executor and the runner. */
  predicate ValidSpec(spec: RunSpec) {
    && ValidPolicy(spec.policy)
    && SaneRates(spec.broker)
    && spec.broker.initialCash > 0.0
    && spec.broker.timing == NextOpen && !spec.broker.allowShort
    && 0.0 < spec.broker.maxPosition <= 1.0
    && spec.policy.target <= spec.broker.maxPosition
    && 0.0 < spec.maxDrawdown <= 1.0
  }

  /** The run has what is stored, and nothing else: ticker, parameters, percentages and
      capital, a tenth of a percent commission and half of that slippage. */
  predicate CarriesOver(s: Strategy, ticker: Name, spec: RunSpec) {
    && spec.ticker == ticker
    && (match spec.policy
        case Momentum(lookback, entry, exit, _) => s.params == MomentumParams(lookback, entry, exit)
        case Sma(fast, slow, _) => s.params == SmaParams(fast, slow))
    && s.targetPercent == Some(spec.policy.target * 100.0)
    && s.maxPositionPercent == Some(spec.broker.maxPosition * 100.0)
    && s.maxDrawdownPercent == Some(spec.maxDrawdown * 100.0)
    && s.initialCapital == Some(spec.broker.initialCash)
    && spec.broker.commission == 0.001 && spec.broker.slippage == 0.0005
  }

  lemma FrozenSpecsAreValid(s: Strategy, ticker: Name)
    requires Freeze(s, ticker).Ok?
    ensures ValidSpec(Freeze(s, ticker).value)
    ensures CarriesOver(s, ticker, Freeze(s, ticker).value)
  {
  }

  predicate InPercent(v: Option<real>) {
    v.Some? && 0.0 < v.value <= 100.0
  }

  predicate GoodParams(params: Params) {
    match params
    case MomentumParams(lookback, entry, exit) => 2 <= lookback <= 252 && exit <= entry
    case SmaParams(fast, slow) => 2 <= fast <= 100 && fast < slow <= 252
    case _ => false
  }

  /** An active strategy that names its tickers properly. */
  predicate Usable(s: Strategy) {
    s.active && |s.tickers| > 0 && None !in s.tickers
  }

  predicate GoodLimits(s: Strategy) {
    && InPercent(s.maxPositionPercent) && InPercent(s.maxDrawdownPercent)
    && s.initialCapital.Some? && s.initialCapital.value > 0.0
  }

  lemma DefinitionExactly(s: Strategy)
    requires InPercent(s.maxPositionPercent)
    ensures ValidateDefinition(s).Ok? <==>
      GoodParams(s.params) && s.targetPercent.Some? && 0.0 <= s.targetPercent.value <= s.maxPositionPercent.value
    ensures ValidateDefinition(s).Err? ==>
      ValidateDefinition(s).error == if s.params == UnsupportedDefinition then NotBacktestable else ConfigInvalid
  {
  }

  /** Exactly which strategies are accepted for a ticker, and which error the others are
      refused with. */
  lemma AcceptedExactly(s: Strategy, ticker: Name)
    ensures Freeze(s, ticker).Ok? <==>
      && Usable(s) && Some(ticker) in s.tickers && GoodLimits(s) && s.kind == Quant && GoodParams(s.params)
      && s.targetPercent.Some? && 0.0 <= s.targetPercent.value <= s.maxPositionPercent.value
      && s.frequencyKnown && s.beliefsListed
    ensures Freeze(s, ticker) == Err(Inactive) <==> !s.active
    ensures Freeze(s, ticker) == Err(TickerNotAllowed) <==> Usable(s) && Some(ticker) !in s.tickers
    ensures Freeze(s, ticker) == Err(TypeUnsupported) <==>
      Usable(s) && Some(ticker) in s.tickers && GoodLimits(s) && s.kind != Quant
    ensures Freeze(s, ticker) == Err(NotBacktestable) <==>
      && Usable(s) && Some(ticker) in s.tickers && GoodLimits(s) && s.kind == Quant
      && s.params == UnsupportedDefinition
  {
    if GoodLimits(s) {
      DefinitionExactly(s);
    }
  }
}
