/** The JSON the search, users and commits endpoints return, as typed records, and what
    both connectors share about the recency filter of their `getLatestRepositories`. */
module GithubApi {
  import opened Wrappers
  import opened Sequences
  import opened Calendar

  /** One element of `results["items"]`: the fields the connectors read. Timestamps are
      kept as the API's strings; they are parsed where the source parses them. */
  datatype Repository = Repository(
    id: int,
    fullName: string,
    htmlUrl: string,
    description: Option<string>,
    ownerUrl: string,
    createdAt: string,
    updatedAt: string,
    pushedAt: string,
    stargazersCount: int,
    watchersCount: int,
    forksCount: int,
    openIssuesCount: int,
    commitsUrl: string)

  /** The users endpoint's profile object. */
  datatype UserResponse = UserResponse(
    login: string,
    id: int,
    avatarUrl: string,
    htmlUrl: string,
    followers: int,
    following: int,
    bio: Option<string>,
    publicRepos: int,
    createdAt: string,
    updatedAt: string)

  /** The fields read from one element of the commits endpoint's array. */
  datatype CommitInfo = CommitInfo(sha: string, nodeId: string, author: string, message: string)

  /** The exceptions that escape `getLatestRepositories` and `formatUpdates`: `ValueError`
      from `strptime`, `OverflowError` from datetime arithmetic, and a failed search
      request or a payload without `items`. */
  datatype Error = MalformedTimestamp | DateOverflow | SearchFailed

  predicate InRange(t: int)
  {
    0 <= t < MAX_INSTANT
  }

  predicate TimestampsParse(item: Repository)
  {
    ParseTimestamp(item.updatedAt).Some? && ParseTimestamp(item.pushedAt).Some?
  }

  /** Every item's two timestamps parse (stated recursively, so that proofs about it need
      no quantifier over the items). */
  predicate AllTimestampsParse(items: seq<Repository>)
  {
    items == [] || (AllTimestampsParse(items[..|items| - 1]) && TimestampsParse(items[|items| - 1]))
  }

  lemma {:induction false} AllTimestampsParseAt(items: seq<Repository>, i: int)
    requires AllTimestampsParse(items) && 0 <= i < |items|
    ensures TimestampsParse(items[i])
  {
    if i < |items| - 1 {
      AllTimestampsParseAt(items[..|items| - 1], i);
    }
  }

  lemma FirstFailsAll(items: seq<Repository>)
    requires items != [] && !TimestampsParse(items[0])
    ensures !AllTimestampsParse(items)
  {
    if AllTimestampsParse(items) {
      AllTimestampsParseAt(items, 0);
    }
  }

  function UpdatedSeconds(item: Repository): int
    requires TimestampsParse(item)
  {
    Seconds(ParseTimestamp(item.updatedAt).value)
  }

  function PushedSeconds(item: Repository): int
    requires TimestampsParse(item)
  {
    Seconds(ParseTimestamp(item.pushedAt).value)
  }

  /** What a `getLatestRepositories` loop returns or raises for the search results `items`,
      when it keeps the items `keep` accepts and compares against `cutoff` (seconds):
      each item's two timestamps are parsed first, then `now - window` is computed, which
      raises `OverflowError` when it leaves the datetime range. */
  function RecentBy(items: seq<Repository>, cutoff: int, keep: Repository -> bool): (r: Result<seq<Repository>, Error>)
    ensures r.Ok? <==> items == [] || (InRange(cutoff) && AllTimestampsParse(items))
    ensures r.Err? && r.error == DateOverflow <==> items != [] && TimestampsParse(items[0]) && !InRange(cutoff)
    ensures r.Err? ==> r.error != SearchFailed
    ensures r.Ok? ==> r.value == Filter(items, keep)
  {
    if items == [] then Ok([])
    else if !TimestampsParse(items[0]) then FirstFailsAll(items); Err(MalformedTimestamp)
    else if !InRange(cutoff) then Err(DateOverflow)
    else if !AllTimestampsParse(items) then Err(MalformedTimestamp)
    else Ok(Filter(items, keep))
  }

  /** The loop stops with `ValueError` at the first item `i` whose timestamps do not parse
      (the cutoff having been computed on the earlier iterations). */
  lemma RecentStopsAtMalformed(items: seq<Repository>, i: int, cutoff: int, keep: Repository -> bool)
    requires 0 <= i < |items| && !TimestampsParse(items[i])
    requires i > 0 ==> InRange(cutoff) && TimestampsParse(items[0])
    ensures RecentBy(items, cutoff, keep) == Err(MalformedTimestamp)
  {
    if AllTimestampsParse(items) {
      AllTimestampsParseAt(items, i);
    }
  }

  /** The loop stops with `OverflowError` on the first item when the cutoff is out of range. */
  lemma RecentStopsAtOverflow(items: seq<Repository>, cutoff: int, keep: Repository -> bool)
    requires items != [] && TimestampsParse(items[0]) && !InRange(cutoff)
    ensures RecentBy(items, cutoff, keep) == Err(DateOverflow)
  {
  }

  /** The loop runs to the end when every item parses and the cutoff is in range. */
  lemma RecentRunsToEnd(items: seq<Repository>, cutoff: int, keep: Repository -> bool)
    requires AllTimestampsParse(items) && (items != [] ==> InRange(cutoff))
    ensures RecentBy(items, cutoff, keep) == Ok(Filter(items, keep))
  {
  }
}
