/**
 * The dashboard page's polling state: the latest data of each model, one
 * baseline trade count per model, and the badge counting trades completed
 * since the last clear.
 */
module DashboardPage {
  import opened Wrappers
  import opened TradingRoute

  /** The trade count a poll reports for a model; None when its fetch failed. */
  function TotalTrades(data: Option<Payload>): Option<int> {
    if data.Some? then Some(data.value.summary.totalTrades) else None
  }

  /** What one model adds to the badge: only an increase over a recorded baseline. */
  function Contribution(baseline: Option<int>, latest: Option<int>): (n: int)
    ensures n >= 0
    ensures baseline.None? || latest.None? ==> n == 0
    ensures baseline.Some? && latest.Some? ==>
      n == if latest.value > baseline.value then latest.value - baseline.value else 0
  {
    if latest.Some? && baseline.Some? && latest.value > baseline.value
    then latest.value - baseline.value
    else 0
  }

  /** The baseline after a poll: the reported count, or the old one when the fetch failed. */
  function NextBaseline(baseline: Option<int>, latest: Option<int>): (b: Option<int>)
    ensures latest.Some? ==> b == latest
    ensures latest.None? ==> b == baseline
  {
    if latest.Some? then latest else baseline
  }

  /**
   * One model's baseline and badge increments over a run of polls, as
   * CompleteFetch changes them, polls applied in order.
   */
  function Replay(baseline: Option<int>, polls: seq<Option<int>>): (Option<int>, int) {
    if polls == [] then (baseline, 0)
    else
      var (last, added) := Replay(baseline, polls[..|polls| - 1]);
      var latest := polls[|polls| - 1];
      (NextBaseline(last, latest), added + Contribution(last, latest))
  }

  predicate NonDecreasing(counts: seq<int>) {
    forall i, j :: 0 <= i < j < |counts| ==> counts[i] <= counts[j]
  }

  function Successes(counts: seq<int>): (polls: seq<Option<int>>)
    ensures |polls| == |counts| && forall i :: 0 <= i < |counts| ==> polls[i] == Some(counts[i])
  {
    seq(|counts|, i requires 0 <= i < |counts| => Some(counts[i]))
  }

  /** Replaying polls never takes anything off the badge. */
  lemma {:induction false} ReplayNeverNegative(baseline: Option<int>, polls: seq<Option<int>>)
    ensures Replay(baseline, polls).1 >= 0
    decreases |polls|
  {
    if polls != [] {
      ReplayNeverNegative(baseline, polls[..|polls| - 1]);
    }
  }

  /**
   * Once a baseline exists and the counts only grow, the badge gains exactly
   * the growth from the baseline to the last count, and the baseline ends there.
   */
  lemma {:induction false} ReplayTelescopes(first: int, counts: seq<int>)
    requires counts != [] && NonDecreasing([first] + counts)
    ensures Replay(Some(first), Successes(counts)) == (Some(counts[|counts| - 1]), counts[|counts| - 1] - first)
    decreases |counts|
  {
    var polls := Successes(counts);
    var n := |counts|;
    if n == 1 {
      assert polls[..0] == [];
      assert ([first] + counts)[0] <= ([first] + counts)[1];
    } else {
      var init := counts[..n - 1];
      assert polls[..n - 1] == Successes(init);
      assert NonDecreasing([first] + init) by {
        assert [first] + init == ([first] + counts)[..n];
      }
      ReplayTelescopes(first, init);
      assert ([first] + counts)[n - 1] <= ([first] + counts)[n];
    }
  }

  /** With no baseline yet, the first successful poll only records one. */
  lemma {:induction false} FirstPollOnlyRecords(latest: int, polls: seq<Option<int>>)
    requires polls != [] && polls[0] == Some(latest)
    requires forall i :: 1 <= i < |polls| ==> polls[i].None?
    ensures Replay(None, polls) == (Some(latest), 0)
    decreases |polls|
  {
    if |polls| == 1 {
      assert polls[..0] == [];
    } else {
      FirstPollOnlyRecords(latest, polls[..|polls| - 1]);
    }
  }

  class Dashboard {
    var chatGptData: Option<Payload>
    var geminiData: Option<Payload>
    var isLoading: bool
    var newTradesCount: int
    var lastChatGptTradeCount: Option<int>
    var lastGeminiTradeCount: Option<int>
    var isMounted: bool

    /** The badge is never negative. */
    ghost predicate Valid()
      reads this
    {
      newTradesCount >= 0
    }

    /** State right after mounting: no data yet, loading, an empty badge, no baselines. */
    constructor ()
      ensures Valid() && isMounted && isLoading
      ensures chatGptData.None? && geminiData.None?
      ensures newTradesCount == 0
      ensures lastChatGptTradeCount.None? && lastGeminiTradeCount.None?
    {
      chatGptData := None;
      geminiData := None;
      isLoading := true;
      newTradesCount := 0;
      lastChatGptTradeCount := None;
      lastGeminiTradeCount := None;
      isMounted := true;
    }

    /** The part of a poll before the two fetches are awaited; `proceed` is false when unmounted. */
    method BeginFetch(isInitialFetch: bool) returns (proceed: bool)
      requires Valid()
      modifies this`isLoading
      ensures Valid()
      ensures proceed == isMounted
      ensures isLoading == if isMounted && isInitialFetch then true else old(isLoading)
    {
      if !isMounted {
        return false;
      }
      if isInitialFetch {
        isLoading := true;
      }
      proceed := true;
    }

    /**
     * The part of a poll after both fetches have settled (None for a failed
     * fetch). When unmounted nothing changes; otherwise both data slots are
     * overwritten, each successful model adds its increase over its baseline
     * and records its count as the new baseline.
     */
    method CompleteFetch(isInitialFetch: bool, chatgpt: Option<Payload>, gemini: Option<Payload>)
      requires Valid()
      modifies this
      ensures Valid()
      ensures isMounted == old(isMounted)
      ensures !old(isMounted) ==>
        chatGptData == old(chatGptData) && geminiData == old(geminiData) &&
        isLoading == old(isLoading) && newTradesCount == old(newTradesCount) &&
        lastChatGptTradeCount == old(lastChatGptTradeCount) &&
        lastGeminiTradeCount == old(lastGeminiTradeCount)
      ensures old(isMounted) ==>
        chatGptData == chatgpt && geminiData == gemini &&
        isLoading == (if isInitialFetch then false else old(isLoading)) &&
        newTradesCount == old(newTradesCount)
          + Contribution(old(lastChatGptTradeCount), TotalTrades(chatgpt))
          + Contribution(old(lastGeminiTradeCount), TotalTrades(gemini)) &&
        lastChatGptTradeCount == NextBaseline(old(lastChatGptTradeCount), TotalTrades(chatgpt)) &&
        lastGeminiTradeCount == NextBaseline(old(lastGeminiTradeCount), TotalTrades(gemini))
      ensures newTradesCount >= old(newTradesCount)
    {
      if isMounted {
        chatGptData := chatgpt;
        geminiData := gemini;

        var newlyCompleted := 0;
        if chatgpt.Some? {
          var total := chatgpt.value.summary.totalTrades;
          if lastChatGptTradeCount.Some? && total > lastChatGptTradeCount.value {
            newlyCompleted := newlyCompleted + (total - lastChatGptTradeCount.value);
          }
          lastChatGptTradeCount := Some(total);
        }
        if gemini.Some? {
          var total := gemini.value.summary.totalTrades;
          if lastGeminiTradeCount.Some? && total > lastGeminiTradeCount.value {
            newlyCompleted := newlyCompleted + (total - lastGeminiTradeCount.value);
          }
          lastGeminiTradeCount := Some(total);
        }

        if newlyCompleted > 0 {
          newTradesCount := newTradesCount + newlyCompleted;
        }
        if isInitialFetch {
          isLoading := false;
        }
      }
    }

    /** A whole poll when the page stays mounted while the fetches run. */
    method FetchAllData(isInitialFetch: bool, chatgpt: Option<Payload>, gemini: Option<Payload>)
      requires Valid()
      modifies this
      ensures Valid()
      ensures isMounted == old(isMounted)
      ensures !old(isMounted) ==>
        chatGptData == old(chatGptData) && geminiData == old(geminiData) &&
        isLoading == old(isLoading) && newTradesCount == old(newTradesCount) &&
        lastChatGptTradeCount == old(lastChatGptTradeCount) &&
        lastGeminiTradeCount == old(lastGeminiTradeCount)
      ensures old(isMounted) ==>
        chatGptData == chatgpt && geminiData == gemini &&
        isLoading == (if isInitialFetch then false else old(isLoading))
      ensures old(isMounted) ==>
        newTradesCount == old(newTradesCount)
          + Contribution(old(lastChatGptTradeCount), TotalTrades(chatgpt))
          + Contribution(old(lastGeminiTradeCount), TotalTrades(gemini)) &&
        lastChatGptTradeCount == NextBaseline(old(lastChatGptTradeCount), TotalTrades(chatgpt)) &&
        lastGeminiTradeCount == NextBaseline(old(lastGeminiTradeCount), TotalTrades(gemini))
    {
      var proceed := BeginFetch(isInitialFetch);
      if proceed {
        CompleteFetch(isInitialFetch, chatgpt, gemini);
      }
    }

    /** The effect's cleanup: later fetch completions are ignored. */
    method Unmount()
      requires Valid()
      modifies this`isMounted
      ensures Valid()
      ensures !isMounted
    {
      isMounted := false;
    }

    /** `handleClearNotifications`: empties the badge and keeps the baselines. */
    method ClearNotifications()
      modifies this`newTradesCount
      ensures Valid()
      ensures newTradesCount == 0
    {
      newTradesCount := 0;
    }

    /** Opening the notification menu clears the badge only when it shows something. */
    method HandleOpenChange(open: bool)
      requires Valid()
      modifies this`newTradesCount
      ensures Valid()
      ensures newTradesCount == if open && old(newTradesCount) > 0 then 0 else old(newTradesCount)
    {
      if open && newTradesCount > 0 {
        ClearNotifications();
      }
    }
  }
}
