/** connector.py: the earlier connector. Its `getLatestRepositories` builds the same search
    query but keeps an item when the EARLIER of its two timestamps lies within the last
    `timeRange` HOURS; its `getFormattedUpdates` builds a small record per item and then
    returns nothing. */
module Connector {
  import opened Wrappers
  import opened Sequences
  import opened Calendar
  import opened GithubApi
  import GithubConnector

  /** `min(updated_at, pushed_at) >= now - timedelta(hours=timeRange)`, with the timestamps
      parsed; `cutoff` is `now - timeRange` hours in seconds. */
  predicate KeptByMin(item: Repository, cutoff: int)
  {
    TimestampsParse(item) &&
    (if PushedSeconds(item) < UpdatedSeconds(item) then PushedSeconds(item) else UpdatedSeconds(item)) >= cutoff
  }

  function KeepMin(cutoff: int): Repository -> bool
  {
    item => KeptByMin(item, cutoff)
  }

  function HoursCutoff(now: int, timeRange: int): int
  {
    now - timeRange * 3600
  }

  /** What the loop of `getLatestRepositories` returns or raises for the results `items`. */
  function Recent(items: seq<Repository>, now: int, timeRange: int): Result<seq<Repository>, Error>
  {
    RecentBy(items, HoursCutoff(now, timeRange), KeepMin(HoursCutoff(now, timeRange)))
  }

  /** The loop of `getLatestRepositories`: parse both timestamps of each item, keep it when
      the earlier one is within the last `timeRange` hours. */
  method FilterRecent(items: seq<Repository>, now: int, timeRange: int) returns (r: Result<seq<Repository>, Error>)
    ensures r == Recent(items, now, timeRange)
  {
    var itemList: seq<Repository> := [];
    var cutoff := HoursCutoff(now, timeRange);
    for i := 0 to |items|
      invariant AllTimestampsParse(items[..i])
      invariant i > 0 ==> InRange(cutoff) && TimestampsParse(items[0])
      invariant itemList == Filter(items[..i], KeepMin(cutoff))
    {
      var item := items[i];
      var itemUpdate := ParseTimestamp(item.updatedAt);
      var itemPush := ParseTimestamp(item.pushedAt);
      if itemUpdate.None? || itemPush.None? {
        RecentStopsAtMalformed(items, i, cutoff, KeepMin(cutoff));
        return Err(MalformedTimestamp);
      }
      var lastUpdate := if Seconds(itemPush.value) < Seconds(itemUpdate.value) then Seconds(itemPush.value) else Seconds(itemUpdate.value);
      if !InRange(cutoff) {
        RecentStopsAtOverflow(items, cutoff, KeepMin(cutoff));
        return Err(DateOverflow);
      }
      RecentStep(items, i, cutoff);
      if lastUpdate >= cutoff {
        itemList := itemList + [item];
      }
    }
    assert items[..|items|] == items;
    RecentRunsToEnd(items, cutoff, KeepMin(cutoff));
    return Ok(itemList);
  }

  /** One iteration of the filter loop: a parsing item extends both the parsed prefix and
      the kept prefix. */
  lemma RecentStep(items: seq<Repository>, i: int, cutoff: int)
    requires 0 <= i < |items| && AllTimestampsParse(items[..i]) && TimestampsParse(items[i])
    ensures AllTimestampsParse(items[..i + 1])
    ensures Filter(items[..i + 1], KeepMin(cutoff)) ==
      Filter(items[..i], KeepMin(cutoff)) + (if KeptByMin(items[i], cutoff) then [items[i]] else [])
  {
    var prefix := items[..i + 1];
    assert prefix[..|prefix| - 1] == items[..i];
  }

  /** The filter keeps an order-preserving selection of the search results, unmodified, and
      an item is in it exactly when both its timestamps are at or after `now - timeRange`
      hours: the boundary itself is kept. */
  lemma RecentKeepsTheWindow(items: seq<Repository>, now: int, timeRange: int)
    requires Recent(items, now, timeRange).Ok?
    ensures IsSubsequence(Recent(items, now, timeRange).value, items)
    ensures forall x :: x in Recent(items, now, timeRange).value <==>
      x in items && TimestampsParse(x) &&
      UpdatedSeconds(x) >= now - timeRange * 3600 && PushedSeconds(x) >= now - timeRange * 3600
  {
    var keep := KeepMin(HoursCutoff(now, timeRange));
    FilterIsSubsequence(items, keep);
    forall x
      ensures x in Filter(items, keep) <==>
        x in items && TimestampsParse(x) &&
        UpdatedSeconds(x) >= now - timeRange * 3600 && PushedSeconds(x) >= now - timeRange * 3600
    {
      FilterMembership(items, keep, x);
    }
  }

  /** With the same window length in seconds, the min-based filter keeps a subsequence of
      what the max-based filter of connectors/GithubConnector.py keeps (the earlier of two
      timestamps is never later than the later one), and the two fail on the same inputs. */
  lemma MinFilterWithinMaxFilter(items: seq<Repository>, now: int, timeRange: int, pingRange: int)
    requires timeRange * 3600 == pingRange * 60
    ensures Recent(items, now, timeRange).Ok? <==> GithubConnector.Recent(items, now, pingRange).Ok?
    ensures Recent(items, now, timeRange).Ok? ==>
      IsSubsequence(Recent(items, now, timeRange).value, GithubConnector.Recent(items, now, pingRange).value)
  {
    var cutoff := HoursCutoff(now, timeRange);
    assert GithubConnector.PingCutoff(now, pingRange) == cutoff;
    if Recent(items, now, timeRange).Ok? {
      forall i | 0 <= i < |items| && KeepMin(cutoff)(items[i])
        ensures GithubConnector.KeepMax(cutoff)(items[i])
      {
      }
      FilterMonotone(items, KeepMin(cutoff), GithubConnector.KeepMax(cutoff));
    }
  }

  /** The filtering step of `getLatestRepositories`: the same query as the newer connector
      (with `dayBefore` days), the search, then the min/hours filter. */
  function Latest(language: string, dayBefore: int, timeRange: int, now: int,
                  search: string -> Option<seq<Repository>>): Result<seq<Repository>, Error>
    requires InRange(now)
  {
    match GithubConnector.SearchQuery(language, dayBefore, now)
    case None => Err(DateOverflow)
    case Some(q) =>
      match search(q)
      case None => Err(SearchFailed)
      case Some(items) => Recent(items, now, timeRange)
  }

  /** `getLatestRepositories(language, dayBefore, timeRange)` with the search request given
      as `search` (from query string to the `items` of the response). */
  method GetLatestRepositories(language: string, dayBefore: int, timeRange: int, now: int,
                               search: string -> Option<seq<Repository>>)
    returns (r: Result<seq<Repository>, Error>)
    requires InRange(now)
    ensures r == Latest(language, dayBefore, timeRange, now, search)
    ensures r.Ok? ==> IsSubsequence(r.value, search(GithubConnector.SearchQuery(language, dayBefore, now).value).value)
  {
    var queryString := GithubConnector.SearchQuery(language, dayBefore, now);
    if queryString.None? {
      return Err(DateOverflow);
    }
    var results := search(queryString.value);
    if results.None? {
      return Err(SearchFailed);
    }
    r := FilterRecent(results.value, now, timeRange);
    if r.Ok? {
      RecentKeepsTheWindow(results.value, now, timeRange);
    }
  }

  /** The dictionary `tmp` that `getFormattedUpdates` fills for each item. */
  datatype Summary = Summary(id: int, fullName: string, htmlUrl: string, description: Option<string>)

  function Summarize(item: Repository): Summary
  {
    Summary(item.id, item.fullName, item.htmlUrl, item.description)
  }

  /** `getFormattedUpdates(language, dayBefore, timeRange)`: it returns `None` (here `Ok(())`)
      whenever `getLatestRepositories` returns, and re-raises what it raises; the records it
      builds are dropped. */
  method GetFormattedUpdates(language: string, dayBefore: int, timeRange: int, now: int,
                             search: string -> Option<seq<Repository>>)
    returns (outcome: Result<(), Error>)
    requires InRange(now)
    ensures outcome.Ok? <==> Latest(language, dayBefore, timeRange, now, search).Ok?
    ensures outcome.Err? ==> outcome.error == Latest(language, dayBefore, timeRange, now, search).error
  {
    var updates := GetLatestRepositories(language, dayBefore, timeRange, now, search);
    if updates.Err? {
      return Err(updates.error);
    }
    for i := 0 to |updates.value|
    {
      var tmp := Summarize(updates.value[i]);
    }
    return Ok(());
  }
}
