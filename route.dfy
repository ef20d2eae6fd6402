/**
 * The `GET /api/trading-data?model=…` handler: it validates the model, reads
 * the bot's `/status` and `/trades` responses, and shapes them into summary
 * statistics, open and closed trade lists, and two chart series.
 */
module TradingRoute {
  import opened Wrappers
  import opened Trades
  import opened Charts

  datatype Model = ChatGpt | Gemini

  function ModelName(m: Model): string {
    match m
    case ChatGpt => "chatgpt"
    case Gemini => "gemini"
  }

  /** The `model` query parameter: absent, empty or anything but the two names is refused. */
  function ParseModel(model: Option<string>): (m: Option<Model>)
    ensures m == Some(ChatGpt) <==> model == Some("chatgpt")
    ensures m == Some(Gemini) <==> model == Some("gemini")
    ensures m.Some? ==> model == Some(ModelName(m.value))
  {
    if model.None? || model.value == "" || (model.value != "chatgpt" && model.value != "gemini") then None
    else if model.value == "chatgpt" then Some(ChatGpt)
    else Some(Gemini)
  }

  function BaseUrl(m: Model): string {
    match m
    case ChatGpt => "http://35.228.171.101:8071/api/v1"
    case Gemini => "http://35.228.171.101:8073/api/v1"
  }

  function Endpoint(m: Model, path: string): string {
    BaseUrl(m) + path
  }

  /**
   * An upstream call: a failure that the handler replaces by a default, a
   * successful reply whose JSON body is `null`, or a reply with an object body.
   */
  datatype Fetched<T> = FetchFailed | ReceivedNull | Received(body: T)

  /** An element of `bots.status` in the `/status` body. */
  datatype BotStatus = BotStatus(
    totalProfit: Option<real>,
    startingBalance: Option<real>,
    tradeCount: Option<int>,
    wins: Option<int>,
    profitRatio: Option<real>)

  const NoBot := BotStatus(None, None, None, None, None)

  /** `bots.status` when it is an array; an element that is falsy is None. */
  datatype StatusBody = StatusBody(botsStatus: Option<seq<Option<BotStatus>>>)

  /**
   * The `trades` field of the `/trades` body: absent or falsy, an array whose
   * null elements are None, or some other value that has no `map`.
   */
  datatype TradesField = NoTrades | TradeArray(items: seq<Option<RawTrade>>) | NotAnArray

  datatype TradesBody = TradesBody(trades: TradesField)

  datatype Summary = Summary(
    totalBalance: real,
    pnl: real,
    totalTrades: int,
    winRate: real,
    profitRatio: real,
    winningTrades: int,
    losingTrades: int)

  datatype Payload = Payload(
    summary: Summary,
    openTrades: seq<Trade>,
    closedTrades: seq<Trade>,
    tradeHistoryForCharts: seq<ChartPoint>,
    cumulativeProfitHistory: seq<CumulativePoint>)

  datatype Response = Ok(payload: Payload) | BadRequest(error: string) | ServerError(error: string) {
    function StatusCode(): int {
      match this
      case Ok(_) => 200
      case BadRequest(_) => 400
      case ServerError(_) => 500
    }
  }

  const InvalidModelError := "Invalid model specified"

  function FailureMessage(m: Model): string {
    "Failed to fetch data from " + ModelName(m) + " API. Check server logs for details."
  }

  // Summary statistics.

  /** The first `bots.status` entry when there is a truthy one, otherwise the empty object. */
  function FirstBot(status: Fetched<StatusBody>): BotStatus {
    match status
    case FetchFailed => NoBot
    case ReceivedNull => NoBot
    case Received(body) =>
      if body.botsStatus.Some? && |body.botsStatus.value| > 0 && body.botsStatus.value[0].Some?
      then body.botsStatus.value[0].value
      else NoBot
  }

  /** `n || 0` on a count. */
  function CountOr(n: Option<int>, fallback: int): int {
    if n.Some? && n.value != 0 then n.value else fallback
  }

  /**
   * What the summary figures mean: the bot's counters with 0 for a missing
   * field, wins and losses adding up to the trade count, a win rate that is
   * wins per trade (0 without trades, in [0, 1] for sane counters), and a
   * balance that is the starting balance plus the profit.
   */
  function Summarise(status: Fetched<StatusBody>): (s: Summary)
    ensures var bot := FirstBot(status);
      s.totalTrades == bot.tradeCount.GetOr(0) &&
      s.winningTrades == bot.wins.GetOr(0) &&
      s.pnl == bot.totalProfit.GetOr(0.0) &&
      s.profitRatio == bot.profitRatio.GetOr(0.0) &&
      s.totalBalance == bot.startingBalance.GetOr(0.0) + s.pnl &&
      s.winningTrades + s.losingTrades == s.totalTrades &&
      (s.totalTrades > 0 ==> s.winRate * (s.totalTrades as real) == s.winningTrades as real) &&
      (s.totalTrades <= 0 ==> s.winRate == 0.0) &&
      (0 <= s.winningTrades <= s.totalTrades ==> 0.0 <= s.winRate <= 1.0)
  {
    var bot := FirstBot(status);
    var totalProfit := NumberOr(bot.totalProfit, 0.0);
    var startingBalance := NumberOr(bot.startingBalance, 0.0);
    var totalTrades := CountOr(bot.tradeCount, 0);
    var winningTrades := CountOr(bot.wins, 0);
    var winRate := if totalTrades > 0 then (winningTrades as real) / (totalTrades as real) else 0.0;
    Summary(
      startingBalance + totalProfit,
      totalProfit,
      totalTrades,
      winRate,
      NumberOr(bot.profitRatio, 0.0),
      winningTrades,
      totalTrades - winningTrades)
  }

  /** Without a usable `bots.status` array every figure is 0. */
  lemma SummaryWithoutBotStatus(status: Fetched<StatusBody>)
    requires !status.Received? || status.body.botsStatus.None? || status.body.botsStatus == Some([])
    ensures Summarise(status) == Summary(0.0, 0.0, 0, 0.0, 0.0, 0, 0)
  {
  }

  // The trade records.

  /** The records of an array whose elements are all objects; None when one is null. */
  function Records(items: seq<Option<RawTrade>>): (r: Option<seq<RawTrade>>)
    ensures r.Some? <==> forall i :: 0 <= i < |items| ==> items[i].Some?
    ensures r.Some? ==> |r.value| == |items| && forall i :: 0 <= i < |items| ==> items[i] == Some(r.value[i])
  {
    if items == [] then Some([])
    else
      match Records(items[1..])
      case None => None
      case Some(rest) => if items[0].None? then None else Some([items[0].value] + rest)
  }

  /**
   * `(tradesData.trades || []).map(...)` over the `/trades` result (a failed
   * call reads as `{ trades: [] }`); None where the mapping throws.
   */
  function TradeRecords(trades: Fetched<TradesBody>): (r: Option<seq<RawTrade>>)
    ensures trades.FetchFailed? ==> r == Some([])
    ensures trades.ReceivedNull? ==> r.None?
    ensures trades.Received? && trades.body.trades.NoTrades? ==> r == Some([])
    ensures trades.Received? && trades.body.trades.NotAnArray? ==> r.None?
    ensures trades.Received? && trades.body.trades.TradeArray? ==>
      var items := trades.body.trades.items;
      (r.Some? <==> forall i :: 0 <= i < |items| ==> items[i].Some?) &&
      (r.Some? ==> |r.value| == |items| && forall i :: 0 <= i < |items| ==> items[i] == Some(r.value[i]))
  {
    match trades
    case FetchFailed => Some([])
    case ReceivedNull => None
    case Received(body) =>
      match body.trades
      case NoTrades => Some([])
      case NotAnArray => None
      case TradeArray(items) => Records(items)
  }

  /** The response body built from the bot status and the trade records. */
  predicate IsPayloadFor(p: Payload, status: Fetched<StatusBody>, raw: seq<RawTrade>) {
    var all := NormaliseAll(raw);
    p.summary == Summarise(status) &&
    p.openTrades == OpenTrades(all) &&
    p.closedTrades == ClosedTrades(all) &&
    (forall t :: t in p.closedTrades ==> t.profitAbs.Some?) &&
    p.tradeHistoryForCharts == ChartSeries(p.closedTrades) &&
    IsRunningTotal(p.tradeHistoryForCharts, p.cumulativeProfitHistory)
  }

  /**
   * The handler. The upstream responses are parameters; `requested` lists the
   * URLs it asks for (none when the model is refused).
   */
  method Get(model: Option<string>, statusData: Fetched<StatusBody>, tradesData: Fetched<TradesBody>)
    returns (resp: Response, requested: seq<string>)
    ensures resp.StatusCode() == 400 <==> ParseModel(model).None?
    ensures ParseModel(model).None? ==> resp == BadRequest(InvalidModelError) && requested == []
    ensures ParseModel(model).Some? ==>
      requested == [Endpoint(ParseModel(model).value, "/status"), Endpoint(ParseModel(model).value, "/trades")]
    ensures ParseModel(model).Some? && TradeRecords(tradesData).None? ==>
      resp == ServerError(FailureMessage(ParseModel(model).value))
    ensures ParseModel(model).Some? && tradesData.ReceivedNull? ==> resp.StatusCode() == 500
    ensures ParseModel(model).Some? && TradeRecords(tradesData).Some? ==>
      resp.Ok? && IsPayloadFor(resp.payload, statusData, TradeRecords(tradesData).value)
    ensures resp.Ok? && tradesData.FetchFailed? ==>
      resp.payload.openTrades == [] && resp.payload.closedTrades == [] && resp.payload.cumulativeProfitHistory == []
  {
    var m := ParseModel(model);
    if m.None? {
      return BadRequest(InvalidModelError), [];
    }
    requested := [Endpoint(m.value, "/status"), Endpoint(m.value, "/trades")];
    var summary := Summarise(statusData);
    var records := TradeRecords(tradesData);
    if records.None? {
      return ServerError(FailureMessage(m.value)), requested;
    }
    var all := NormaliseAll(records.value);
    TradeLists(records.value);
    var openTrades := OpenTrades(all);
    var closedTrades := ClosedTrades(all);
    var tradeHistoryForCharts := ChartSeries(closedTrades);
    var cumulativeProfitHistory := CumulativeProfitHistory(tradeHistoryForCharts);
    resp := Ok(Payload(summary, openTrades, closedTrades, tradeHistoryForCharts, cumulativeProfitHistory));
  }

  /**
   * The properties of a response body taken together: the lists split the
   * trades and are ordered, the chart has a point per closed trade, and the
   * last cumulative profit is the realised profit of all closed trades.
   */
  lemma PayloadProperties(p: Payload, status: Fetched<StatusBody>, raw: seq<RawTrade>)
    requires IsPayloadFor(p, status, raw)
    ensures |p.openTrades| + |p.closedTrades| == |raw|
    ensures NewestFirst(p.openTrades, OpenDate) && NewestFirst(p.closedTrades, CloseDate)
    ensures |p.tradeHistoryForCharts| == |p.cumulativeProfitHistory| == |p.closedTrades|
    ensures p.closedTrades == [] ==> p.cumulativeProfitHistory == []
    ensures p.closedTrades != [] ==>
      p.cumulativeProfitHistory[|p.closedTrades| - 1].cumulativeProfit == Total(RealisedProfits(p.closedTrades))
  {
    TradeLists(raw);
    RunningTotalFinal(p.tradeHistoryForCharts, p.cumulativeProfitHistory);
    ChartTotalIsRealisedProfit(p.closedTrades);
  }
}
