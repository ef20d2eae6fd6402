/**
 * Trade normalisation and the open/closed trade lists of the trading-data
 * route: each upstream trade record becomes one canonical Trade, the trades
 * are split by status, and each list is ordered newest first.
 */
module Trades {
  import opened Wrappers

  datatype Side = Buy | Sell
  datatype Status = Open | Closed

  /**
   * One element of the upstream `trades` array. A field that is absent or
   * null in the JSON is None. Timestamps are epoch milliseconds.
   */
  datatype RawTrade = RawTrade(
    pair: Option<string>,
    isShort: Option<bool>,
    isOpen: Option<bool>,
    profitRatio: Option<real>,
    profitAbs: Option<real>,
    openDateTs: Option<int>,
    closeDateTs: Option<int>,
    openRate: Option<real>,
    closeRate: Option<real>,
    amount: Option<real>)

  /**
   * The canonical trade. `openDate == None` stands for the empty-string
   * fallback and `closeDate == None` for null.
   */
  datatype Trade = Trade(
    asset: string,
    side: Side,
    status: Status,
    profitPercentage: Option<real>,
    profitAbs: Option<real>,
    openDate: Option<int>,
    closeDate: Option<int>,
    openRate: real,
    closeRate: real,
    amount: real)

  // JavaScript truthiness of the field kinds that occur in a record.

  predicate Truthy(flag: Option<bool>) {
    flag == Some(true)
  }

  /** `s || fallback`: the empty string is falsy. */
  function StringOr(s: Option<string>, fallback: string): string {
    if s.Some? && s.value != "" then s.value else fallback
  }

  /** `x || fallback` on a number: 0 is falsy. */
  function NumberOr(x: Option<real>, fallback: real): real {
    if x.Some? && x.value != 0.0 then x.value else fallback
  }

  /** `ts || null` (or `ts || ''`): a zero timestamp is falsy. */
  function TimestampOrNone(ts: Option<int>): Option<int> {
    if ts.Some? && ts.value != 0 then ts else None
  }

  /** Open trades carry no profit figures; closed trades carry both. */
  predicate ProfitFieldsConsistent(t: Trade) {
    (t.status == Open ==> t.profitAbs.None? && t.profitPercentage.None?) &&
    (t.status == Closed ==> t.profitAbs.Some? && t.profitPercentage.Some?)
  }

  function Normalise(r: RawTrade): (t: Trade)
    ensures t.status == Open <==> Truthy(r.isOpen)
    ensures t.side == Sell <==> Truthy(r.isShort)
    ensures ProfitFieldsConsistent(t)
    ensures t.status == Closed ==>
      t.profitAbs == Some(r.profitAbs.GetOr(0.0)) &&
      t.profitPercentage == Some(100.0 * r.profitRatio.GetOr(0.0))
    ensures t.asset == (if r.pair.None? || r.pair == Some("") then "N/A" else r.pair.value)
    ensures t.openRate == r.openRate.GetOr(0.0) && t.closeRate == r.closeRate.GetOr(0.0)
    ensures t.amount == r.amount.GetOr(0.0)
    ensures t.closeDate.None? <==> (r.closeDateTs.None? || r.closeDateTs == Some(0))
    ensures t.closeDate.Some? ==> t.closeDate == r.closeDateTs
    ensures t.openDate.None? <==> (r.openDateTs.None? || r.openDateTs == Some(0))
    ensures t.openDate.Some? ==> t.openDate == r.openDateTs
  {
    var open := Truthy(r.isOpen);
    Trade(
      StringOr(r.pair, "N/A"),
      if Truthy(r.isShort) then Sell else Buy,
      if open then Open else Closed,
      if open then None else Some(NumberOr(r.profitRatio, 0.0) * 100.0),
      if open then None else Some(NumberOr(r.profitAbs, 0.0)),
      TimestampOrNone(r.openDateTs),
      TimestampOrNone(r.closeDateTs),
      NumberOr(r.openRate, 0.0),
      NumberOr(r.closeRate, 0.0),
      NumberOr(r.amount, 0.0))
  }

  /** `trades.map(...)`: one Trade per record, in the same order. */
  function NormaliseAll(raw: seq<RawTrade>): (all: seq<Trade>)
    ensures |all| == |raw|
    ensures forall i :: 0 <= i < |raw| ==> all[i] == Normalise(raw[i])
    ensures forall t :: t in all ==> ProfitFieldsConsistent(t)
  {
    seq(|raw|, i requires 0 <= i < |raw| => Normalise(raw[i]))
  }

  /** `filter(t => t.status === s)`: keeps exactly the trades of status `s`. */
  function WithStatus(ts: seq<Trade>, s: Status): (r: seq<Trade>)
    ensures forall t :: multiset(r)[t] == if t.status == s then multiset(ts)[t] else 0
  {
    if ts == [] then []
    else
      assert ts == [ts[0]] + ts[1..];
      if ts[0].status == s then [ts[0]] + WithStatus(ts[1..], s) else WithStatus(ts[1..], s)
  }

  /** Every trade lands in exactly one of the two lists. */
  lemma PartitionByStatus(ts: seq<Trade>)
    ensures multiset(WithStatus(ts, Open)) + multiset(WithStatus(ts, Closed)) == multiset(ts)
    ensures |WithStatus(ts, Open)| + |WithStatus(ts, Closed)| == |ts|
  {
    var open, closed := WithStatus(ts, Open), WithStatus(ts, Closed);
    assert forall t :: (multiset(open) + multiset(closed))[t] == multiset(ts)[t];
    assert multiset(open) + multiset(closed) == multiset(ts);
    calc {
      |open| + |closed|;
      |multiset(open)| + |multiset(closed)|;
      |multiset(open) + multiset(closed)|;
      |multiset(ts)|;
    }
  }

  // Ordering newest first.

  datatype DateField = OpenDate | CloseDate

  /**
   * The time value `new Date(d).getTime()` the comparator reads. A null close
   * date is epoch 0; a missing open date is given 0 as well.
   */
  function DateOf(t: Trade, f: DateField): int {
    match f
    case OpenDate => t.openDate.GetOr(0)
    case CloseDate => t.closeDate.GetOr(0)
  }

  predicate NewestFirst(ts: seq<Trade>, f: DateField) {
    forall i, j :: 0 <= i < j < |ts| ==> DateOf(ts[i], f) >= DateOf(ts[j], f)
  }

  /** Places `x` before the first trade that is not newer than it. */
  function InsertNewestFirst(x: Trade, ts: seq<Trade>, f: DateField): (r: seq<Trade>)
    requires NewestFirst(ts, f)
    ensures NewestFirst(r, f)
    ensures multiset(r) == multiset(ts) + multiset{x}
    ensures forall y :: y in r ==> y == x || y in ts
  {
    if ts == [] || DateOf(x, f) >= DateOf(ts[0], f) then [x] + ts
    else
      var rest := InsertNewestFirst(x, ts[1..], f);
      assert ts == [ts[0]] + ts[1..];
      assert forall y :: y in rest ==> DateOf(y, f) <= DateOf(ts[0], f);
      [ts[0]] + rest
  }

  /**
   * `sort((a, b) => date(b) - date(a))`: a stable sort newest first (each
   * trade goes before the later-listed trades of equal date).
   */
  function SortNewestFirst(ts: seq<Trade>, f: DateField): (r: seq<Trade>)
    ensures NewestFirst(r, f)
    ensures multiset(r) == multiset(ts)
    ensures |r| == |ts|
  {
    if ts == [] then []
    else
      assert ts == [ts[0]] + ts[1..];
      var r := InsertNewestFirst(ts[0], SortNewestFirst(ts[1..], f), f);
      assert |r| == |multiset(r)|;
      r
  }

  /** `openTrades`: the open trades, most recently opened first. */
  function OpenTrades(all: seq<Trade>): (r: seq<Trade>)
    ensures multiset(r) == multiset(WithStatus(all, Open))
    ensures forall t :: t in r ==> t in all && t.status == Open
    ensures NewestFirst(r, OpenDate)
  {
    SortNewestFirst(WithStatus(all, Open), OpenDate)
  }

  /** `closedTrades`: the closed trades, most recently closed first. */
  function ClosedTrades(all: seq<Trade>): (r: seq<Trade>)
    ensures multiset(r) == multiset(WithStatus(all, Closed))
    ensures forall t :: t in r ==> t in all && t.status == Closed
    ensures NewestFirst(r, CloseDate)
  {
    SortNewestFirst(WithStatus(all, Closed), CloseDate)
  }

  /**
   * The two lists of the response split the normalised trades: together they
   * hold every trade once, each holds one status only, open trades are newest
   * opened first and closed trades newest closed first.
   */
  lemma TradeLists(raw: seq<RawTrade>)
    ensures var all := NormaliseAll(raw);
      multiset(OpenTrades(all)) + multiset(ClosedTrades(all)) == multiset(all) &&
      |OpenTrades(all)| + |ClosedTrades(all)| == |raw| &&
      multiset(OpenTrades(all)) == multiset(WithStatus(all, Open)) &&
      multiset(ClosedTrades(all)) == multiset(WithStatus(all, Closed))
    ensures forall t :: t in OpenTrades(NormaliseAll(raw)) ==> t.status == Open && t.profitAbs.None?
    ensures forall t :: t in ClosedTrades(NormaliseAll(raw)) ==> t.status == Closed && t.profitAbs.Some?
    ensures NewestFirst(OpenTrades(NormaliseAll(raw)), OpenDate)
    ensures NewestFirst(ClosedTrades(NormaliseAll(raw)), CloseDate)
  {
    var all := NormaliseAll(raw);
    PartitionByStatus(all);
    forall t | t in OpenTrades(all) ensures t.status == Open && t.profitAbs.None? {
      assert t in multiset(WithStatus(all, Open));
      assert t in all;
    }
    forall t | t in ClosedTrades(all) ensures t.status == Closed && t.profitAbs.Some? {
      assert t in multiset(WithStatus(all, Closed));
      assert t in all;
    }
  }
}
