/**
 * Chart series of the trading-data route: the closed trades in chronological
 * order as labelled profit points, and the running cumulative profit.
 */
module Charts {
  import opened Wrappers
  import opened Decimal
  import opened Trades

  /** `date` is the close time value that the page renders as a local date. */
  datatype ChartPoint = ChartPoint(name: string, date: int, profit: real)

  datatype CumulativePoint = CumulativePoint(name: string, date: int, profit: real, cumulativeProfit: real)

  /** `slice().reverse()`: a reversed copy; the list it reads is a value and stays as it was. */
  function Reverse<T>(s: seq<T>): (r: seq<T>)
    ensures |r| == |s|
    ensures forall i :: 0 <= i < |s| ==> r[i] == s[|s| - 1 - i]
  {
    if s == [] then [] else Reverse(s[1..]) + [s[0]]
  }

  /**
   * `tradeHistoryForCharts`: the closed list (newest first) reversed, so point
   * i is the (i+1)-th oldest trade, named `Trade i+1`, with its profit.
   */
  function ChartSeries(closed: seq<Trade>): (points: seq<ChartPoint>)
    requires forall t :: t in closed ==> t.profitAbs.Some?
    ensures |points| == |closed|
    ensures forall i :: 0 <= i < |points| ==>
      points[i].name == TradeLabel(i + 1) &&
      points[i].date == DateOf(closed[|closed| - 1 - i], CloseDate) &&
      points[i].profit == closed[|closed| - 1 - i].profitAbs.value
  {
    var chronological := Reverse(closed);
    seq(|chronological|, i requires 0 <= i < |chronological| =>
      ChartPoint(TradeLabel(i + 1), DateOf(chronological[i], CloseDate), chronological[i].profitAbs.value))
  }

  /** A closed list ordered newest first gives a chart ordered oldest first. */
  lemma ChartSeriesChronological(closed: seq<Trade>)
    requires forall t :: t in closed ==> t.profitAbs.Some?
    requires NewestFirst(closed, CloseDate)
    ensures forall i, j :: 0 <= i < j < |closed| ==> ChartSeries(closed)[i].date <= ChartSeries(closed)[j].date
  {
  }

  // Sums of profit.

  /** Sum of a list of amounts, added left to right. */
  function Total(xs: seq<real>): real {
    if xs == [] then 0.0 else Total(xs[..|xs| - 1]) + xs[|xs| - 1]
  }

  function Profits(points: seq<ChartPoint>): (xs: seq<real>)
    ensures |xs| == |points| && forall i :: 0 <= i < |points| ==> xs[i] == points[i].profit
  {
    seq(|points|, i requires 0 <= i < |points| => points[i].profit)
  }

  /** The realised profit `profitAbs` of each trade (0 where there is none). */
  function RealisedProfits(trades: seq<Trade>): (xs: seq<real>)
    ensures |xs| == |trades| && forall i :: 0 <= i < |trades| ==> xs[i] == trades[i].profitAbs.GetOr(0.0)
  {
    seq(|trades|, i requires 0 <= i < |trades| => trades[i].profitAbs.GetOr(0.0))
  }

  lemma {:induction false} TotalAppend(a: seq<real>, b: seq<real>)
    ensures Total(a + b) == Total(a) + Total(b)
    decreases |b|
  {
    if b != [] {
      assert (a + b)[..|a + b| - 1] == a + b[..|b| - 1];
      TotalAppend(a, b[..|b| - 1]);
    } else {
      assert a + b == a;
    }
  }

  lemma {:induction false} TotalReverse(xs: seq<real>)
    ensures Total(Reverse(xs)) == Total(xs)
    decreases |xs|
  {
    if xs != [] {
      TotalReverse(xs[1..]);
      TotalAppend(Reverse(xs[1..]), [xs[0]]);
      assert xs == [xs[0]] + xs[1..];
      TotalAppend([xs[0]], xs[1..]);
      assert Total([xs[0]]) == xs[0] by {
        assert [xs[0]][..0] == [];
      }
    }
  }

  /** The chart's profits add up to the realised profit of all closed trades. */
  lemma ChartTotalIsRealisedProfit(closed: seq<Trade>)
    requires forall t :: t in closed ==> t.profitAbs.Some?
    ensures Total(Profits(ChartSeries(closed))) == Total(RealisedProfits(closed))
  {
    var chart := Profits(ChartSeries(closed));
    var realised := RealisedProfits(closed);
    assert chart == Reverse(realised);
    TotalReverse(realised);
  }

  // Running totals.

  function WithCumulative(p: ChartPoint, cumulative: real): CumulativePoint {
    CumulativePoint(p.name, p.date, p.profit, cumulative)
  }

  /** `cum` repeats each point of `chart` and adds the sum of the profits up to and including it. */
  predicate IsRunningTotal(chart: seq<ChartPoint>, cum: seq<CumulativePoint>) {
    |cum| == |chart| &&
    forall i :: 0 <= i < |chart| ==> cum[i] == WithCumulative(chart[i], Total(Profits(chart)[..i + 1]))
  }

  /**
   * `cumulativeProfitHistory`: a `let` accumulator that the mapping callback
   * increases by each point's profit before copying the point.
   */
  method CumulativeProfitHistory(chart: seq<ChartPoint>) returns (cum: seq<CumulativePoint>)
    ensures IsRunningTotal(chart, cum)
  {
    var cumulativeProfit := 0.0;
    cum := [];
    for i := 0 to |chart|
      invariant |cum| == i
      invariant cumulativeProfit == Total(Profits(chart)[..i])
      invariant forall j :: 0 <= j < i ==> cum[j] == WithCumulative(chart[j], Total(Profits(chart)[..j + 1]))
    {
      assert Profits(chart)[..i + 1][..i] == Profits(chart)[..i];
      cumulativeProfit := cumulativeProfit + chart[i].profit;
      cum := cum + [WithCumulative(chart[i], cumulativeProfit)];
    }
  }

  /** Each running total is the previous one plus the point's own profit. */
  lemma RunningTotalSteps(chart: seq<ChartPoint>, cum: seq<CumulativePoint>)
    requires IsRunningTotal(chart, cum)
    ensures |chart| > 0 ==> cum[0].cumulativeProfit == chart[0].profit
    ensures forall i :: 0 < i < |chart| ==> cum[i].cumulativeProfit == cum[i - 1].cumulativeProfit + chart[i].profit
  {
    var xs := Profits(chart);
    if |chart| > 0 {
      assert xs[..1][..0] == [];
      assert Total(xs[..1]) == Total(xs[..1][..0]) + xs[0];
    }
    forall i | 0 < i < |chart|
      ensures cum[i].cumulativeProfit == cum[i - 1].cumulativeProfit + chart[i].profit
    {
      assert xs[..i + 1][..i] == xs[..i];
    }
  }

  /** The last running total is the total profit; no points give no totals. */
  lemma RunningTotalFinal(chart: seq<ChartPoint>, cum: seq<CumulativePoint>)
    requires IsRunningTotal(chart, cum)
    ensures |chart| == 0 ==> cum == []
    ensures |chart| > 0 ==> cum[|chart| - 1].cumulativeProfit == Total(Profits(chart))
  {
    if |chart| > 0 {
      assert Profits(chart)[..|chart|] == Profits(chart);
    }
  }
}
