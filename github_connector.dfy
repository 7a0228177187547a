/** connectors/GithubConnector.py: the search query, the max/minutes recency filter, the
    owner and commit lookups with their empty fallback, the flattening of each kept
    repository into a record, and the two text renderings of a record.
    "now" is a parameter (whole seconds since 0001-01-01T00:00:00 UTC); HTTP responses are
    parameters too, `None` standing for any failed request or missing key. */
module GithubConnector {
  import opened Wrappers
  import opened Sequences
  import opened Decimal
  import opened Calendar
  import opened GithubApi

  // ---------------------------------------------------------------- search query

  /** The `q` parameter `pushed:{before}..{today} language:{language}`, or `None` where
      `utcnow() - timedelta(days=searchRange)` raises `OverflowError`. */
  function SearchQuery(language: string, searchRange: int, now: int): (r: Option<string>)
    requires InRange(now)
    ensures r.Some? <==> InRange(now - searchRange * 86400)
  {
    var before := now - searchRange * 86400;
    if InRange(before) then
      Some("pushed:" + FormatDate(FromSeconds(before)) + ".." + FormatDate(FromSeconds(now))
           + " language:" + language)
    else None
  }

  lemma DayShift(now: int, days: int)
    requires InRange(now) && InRange(now - days * 86400)
    ensures (now - days * 86400) / 86400 == now / 86400 - days
  {
  }

  /** Where the six parts of a query string stand. */
  lemma QueryLayout(head: string, since: string, dots: string, today: string, term: string, language: string)
    requires |head| == 7 && |since| == 10 && |dots| == 2 && |today| == 10 && |term| == 10
    ensures var q := head + since + dots + today + term + language;
      |q| == 39 + |language| &&
      q[..7] == head && q[7..17] == since && q[17..19] == dots &&
      q[19..29] == today && q[29..39] == term && q[39..] == language
  {
  }

  /** The query's two dates are the calendar dates of "now" and of `searchRange` days
      earlier, each written `YYYY-MM-DD`, and the language term follows them. */
  lemma SearchQueryDates(language: string, searchRange: int, now: int)
    requires InRange(now) && SearchQuery(language, searchRange, now).Some?
    ensures var q := SearchQuery(language, searchRange, now).value;
      var today := FromSeconds(now);
      var since := FromSeconds(now - searchRange * 86400);
      |q| == 39 + |language| &&
      q[..7] == "pushed:" && q[7..17] == FormatDate(since) && q[17..19] == ".." &&
      q[19..29] == FormatDate(today) && q[29..39] == " language:" && q[39..] == language &&
      Ordinal(since.year, since.month, since.day) + searchRange == Ordinal(today.year, today.month, today.day) &&
      Seconds(today) == now
  {
    var today := FromSeconds(now);
    var since := FromSeconds(now - searchRange * 86400);
    QueryLayout("pushed:", FormatDate(since), "..", FormatDate(today), " language:", language);
    DayShift(now, searchRange);
  }

  // ---------------------------------------------------------------- recency filter

  /** `max(updated_at, pushed_at) >= now - timedelta(minutes=pingRange)`, with the
      timestamps parsed; `cutoff` is `now - pingRange` minutes in seconds. */
  predicate KeptByMax(item: Repository, cutoff: int)
  {
    TimestampsParse(item) &&
    (if PushedSeconds(item) > UpdatedSeconds(item) then PushedSeconds(item) else UpdatedSeconds(item)) >= cutoff
  }

  function KeepMax(cutoff: int): Repository -> bool
  {
    item => KeptByMax(item, cutoff)
  }

  function PingCutoff(now: int, pingRange: int): int
  {
    now - pingRange * 60
  }

  /** What the loop of `getLatestRepositories` returns or raises for the results `items`. */
  function Recent(items: seq<Repository>, now: int, pingRange: int): Result<seq<Repository>, Error>
  {
    RecentBy(items, PingCutoff(now, pingRange), KeepMax(PingCutoff(now, pingRange)))
  }

  /** The loop of `getLatestRepositories`: parse both timestamps of each item, keep it when
      the later one is within the last `pingRange` minutes. */
  method FilterRecent(items: seq<Repository>, now: int, pingRange: int) returns (r: Result<seq<Repository>, Error>)
    ensures r == Recent(items, now, pingRange)
  {
    var updates: seq<Repository> := [];
    var cutoff := PingCutoff(now, pingRange);
    for i := 0 to |items|
      invariant AllTimestampsParse(items[..i])
      invariant i > 0 ==> InRange(cutoff) && TimestampsParse(items[0])
      invariant updates == Filter(items[..i], KeepMax(cutoff))
    {
      var item := items[i];
      var itemUpdate := ParseTimestamp(item.updatedAt);
      var itemPush := ParseTimestamp(item.pushedAt);
      if itemUpdate.None? || itemPush.None? {
        RecentStopsAtMalformed(items, i, cutoff, KeepMax(cutoff));
        return Err(MalformedTimestamp);
      }
      var lastUpdate := if Seconds(itemPush.value) > Seconds(itemUpdate.value) then Seconds(itemPush.value) else Seconds(itemUpdate.value);
      if !InRange(cutoff) {
        RecentStopsAtOverflow(items, cutoff, KeepMax(cutoff));
        return Err(DateOverflow);
      }
      RecentStep(items, i, cutoff);
      if lastUpdate >= cutoff {
        updates := updates + [item];
      }
    }
    assert items[..|items|] == items;
    RecentRunsToEnd(items, cutoff, KeepMax(cutoff));
    return Ok(updates);
  }

  /** One iteration of the filter loop: a parsing item extends both the parsed prefix and
      the kept prefix. */
  lemma RecentStep(items: seq<Repository>, i: int, cutoff: int)
    requires 0 <= i < |items| && AllTimestampsParse(items[..i]) && TimestampsParse(items[i])
    ensures AllTimestampsParse(items[..i + 1])
    ensures Filter(items[..i + 1], KeepMax(cutoff)) ==
      Filter(items[..i], KeepMax(cutoff)) + (if KeptByMax(items[i], cutoff) then [items[i]] else [])
  {
    var prefix := items[..i + 1];
    assert prefix[..|prefix| - 1] == items[..i];
  }

  /** The filter keeps an order-preserving selection of the search results, unmodified, and
      an item is in it exactly when its later timestamp is at or after `now - pingRange`
      minutes: the boundary itself is kept. */
  lemma RecentKeepsTheWindow(items: seq<Repository>, now: int, pingRange: int)
    requires Recent(items, now, pingRange).Ok?
    ensures IsSubsequence(Recent(items, now, pingRange).value, items)
    ensures forall x :: x in Recent(items, now, pingRange).value <==>
      x in items && TimestampsParse(x) &&
      (UpdatedSeconds(x) >= now - pingRange * 60 || PushedSeconds(x) >= now - pingRange * 60)
  {
    var keep := KeepMax(PingCutoff(now, pingRange));
    FilterIsSubsequence(items, keep);
    forall x
      ensures x in Filter(items, keep) <==>
        x in items && TimestampsParse(x) &&
        (UpdatedSeconds(x) >= now - pingRange * 60 || PushedSeconds(x) >= now - pingRange * 60)
    {
      FilterMembership(items, keep, x);
    }
  }

  /** The filtering step of `getLatestRepositories`, as a function: the query (or the
      overflow building it), the search (or its failure), then the recency filter. */
  function Latest(language: string, searchRange: int, pingRange: int, now: int,
                  search: string -> Option<seq<Repository>>): Result<seq<Repository>, Error>
    requires InRange(now)
  {
    match SearchQuery(language, searchRange, now)
    case None => Err(DateOverflow)
    case Some(q) =>
      match search(q)
      case None => Err(SearchFailed)
      case Some(items) => Recent(items, now, pingRange)
  }

  /** `getLatestRepositories(language, searchRange, pingRange)` with the search request
      given as `search` (from query string to the `items` of the response). */
  method GetLatestRepositories(language: string, searchRange: int, pingRange: int, now: int,
                               search: string -> Option<seq<Repository>>)
    returns (r: Result<seq<Repository>, Error>)
    requires InRange(now)
    ensures r == Latest(language, searchRange, pingRange, now, search)
    ensures r.Ok? ==> IsSubsequence(r.value, search(SearchQuery(language, searchRange, now).value).value)
  {
    var query := SearchQuery(language, searchRange, now);
    if query.None? {
      return Err(DateOverflow);
    }
    var results := search(query.value);
    if results.None? {
      return Err(SearchFailed);
    }
    r := FilterRecent(results.value, now, pingRange);
    if r.Ok? {
      RecentKeepsTheWindow(results.value, now, pingRange);
    }
  }

  // ---------------------------------------------------------------- owner and commit lookups

  /** A lookup that either produced the data or fell back to the all-empty placeholder. */
  datatype Lookup<T> = Fetched(value: T) | Placeholder

  datatype Profile = Profile(
    login: string,
    id: int,
    avatarUrl: string,
    htmlUrl: string,
    followers: int,
    following: int,
    bio: Option<string>,
    publicRepos: int,
    createdAt: DateTime,
    updatedAt: DateTime)

  predicate ValidOwner(o: Lookup<Profile>)
  {
    o.Fetched? ==> Valid(o.value.createdAt) && Valid(o.value.updatedAt)
  }

  /** `getUserInfo(url)` given the response to `url`: any failed request or missing key
      (`None`) or an unparsable timestamp yields the placeholder. */
  function GetUserInfo(response: Option<UserResponse>): (r: Lookup<Profile>)
    ensures ValidOwner(r)
    ensures r.Fetched? <==>
      response.Some? && ParseTimestamp(response.value.createdAt).Some? && ParseTimestamp(response.value.updatedAt).Some?
  {
    match response
    case None => Placeholder
    case Some(u) =>
      var created := ParseTimestamp(u.createdAt);
      var updated := ParseTimestamp(u.updatedAt);
      if created.Some? && updated.Some? then
        Fetched(Profile(u.login, u.id, u.avatarUrl, u.htmlUrl, u.followers, u.following,
                        u.bio, u.publicRepos, created.value, updated.value))
      else Placeholder
  }

  /** A fetched profile carries the response's fields, and its timestamps are the
      response's strings read back exactly. */
  lemma UserInfoCopiesResponse(response: Option<UserResponse>)
    requires GetUserInfo(response).Fetched?
    ensures var p := GetUserInfo(response).value; var u := response.value;
      p.login == u.login && p.id == u.id && p.avatarUrl == u.avatarUrl && p.htmlUrl == u.htmlUrl &&
      p.followers == u.followers && p.following == u.following && p.bio == u.bio &&
      p.publicRepos == u.publicRepos &&
      FormatTimestamp(p.createdAt) == u.createdAt && FormatTimestamp(p.updatedAt) == u.updatedAt
  {
    ParsedTimestampIsCanonical(response.value.createdAt);
    ParsedTimestampIsCanonical(response.value.updatedAt);
  }

  /** `getlastCommit(url)` given the response to `url`: the first commit of the list, or the
      placeholder when the request failed or the list is empty (`response[0]` raises). */
  function GetLastCommit(response: Option<seq<CommitInfo>>): (r: Lookup<CommitInfo>)
    ensures r.Fetched? <==> response.Some? && |response.value| > 0
    ensures r.Fetched? ==> r.value == response.value[0]
  {
    if response.Some? && |response.value| > 0 then Fetched(response.value[0]) else Placeholder
  }

  /** The values a dictionary of the source holds: a string, an int, `None` or a datetime. */
  datatype Value = Str(s: string) | Int(i: int) | Null | Time(t: DateTime)

  /** Python's `str()` of a value, as an f-string renders it. */
  function PyStr(v: Value): string
    requires v.Time? ==> Valid(v.t)
  {
    match v
    case Str(s) => s
    case Int(i) => IntToString(i)
    case Null => "None"
    case Time(t) => Render(t)
  }

  const OWNER_KEYS: set<string> :=
    {"login", "id", "avatar_url", "html_url", "followers", "following", "bio", "public_repos",
     "created_at", "updated_at"}

  const COMMIT_KEYS: set<string> := {"sha", "node_id", "author", "message"}

  /** The dictionary `getUserInfo` returns. */
  function OwnerFields(o: Lookup<Profile>): (d: map<string, Value>)
    ensures "login" in d && "followers" in d && "bio" in d
    ensures !d["login"].Time? && !d["followers"].Time?
    ensures d["bio"].Str? || d["bio"].Null?
  {
    match o
    case Placeholder =>
      map k | k in OWNER_KEYS :: Str("")
    case Fetched(p) =>
      map[
        "login" := Str(p.login), "id" := Int(p.id), "avatar_url" := Str(p.avatarUrl),
        "html_url" := Str(p.htmlUrl), "followers" := Int(p.followers),
        "following" := Int(p.following),
        "bio" := (if p.bio.Some? then Str(p.bio.value) else Null),
        "public_repos" := Int(p.publicRepos), "created_at" := Time(p.createdAt),
        "updated_at" := Time(p.updatedAt)]
  }

  /** The owner dictionary has the same ten keys whether the lookup succeeded or not, and
      every value is `""` exactly for the placeholder (a real profile's `id` is an int). */
  lemma OwnerFieldsShape(o: Lookup<Profile>)
    ensures OwnerFields(o).Keys == OWNER_KEYS
    ensures o.Placeholder? <==> forall k :: k in OwnerFields(o) ==> OwnerFields(o)[k] == Str("")
  {
    if o.Fetched? {
      assert OwnerFields(o)["id"] != Str("");
    }
  }

  /** The dictionary `getlastCommit` returns: the first commit's fields when there is one. */
  function CommitFields(c: Lookup<CommitInfo>): (d: map<string, Value>)
    ensures "sha" in d && "node_id" in d && "message" in d && "author" in d
    ensures d["message"].Str? && d["author"].Str?
    ensures c.Fetched? ==> d["sha"] == Str(c.value.sha) && d["node_id"] == Str(c.value.nodeId) &&
                           d["author"] == Str(c.value.author) && d["message"] == Str(c.value.message)
  {
    match c
    case Placeholder => map k | k in COMMIT_KEYS :: Str("")
    case Fetched(x) =>
      map["sha" := Str(x.sha), "node_id" := Str(x.nodeId), "author" := Str(x.author),
          "message" := Str(x.message)]
  }

  /** The commit dictionary has the same four string keys either way, all `""` for the
      placeholder. */
  lemma CommitFieldsShape(c: Lookup<CommitInfo>)
    ensures CommitFields(c).Keys == COMMIT_KEYS
    ensures forall k :: k in CommitFields(c) ==> CommitFields(c)[k].Str?
    ensures c.Placeholder? ==> forall k :: k in CommitFields(c) ==> CommitFields(c)[k] == Str("")
  {
  }

  // ---------------------------------------------------------------- formatUpdates

  /** The dictionary `tmp` that `formatUpdates` builds for one repository. */
  datatype Record = Record(
    id: int,
    fullName: string,
    htmlUrl: string,
    description: Option<string>,
    owner: Lookup<Profile>,
    createdAt: DateTime,
    updatedAt: DateTime,
    pushedAt: DateTime,
    stargazersCount: int,
    watchersCount: int,
    forksCount: int,
    openIssuesCount: int,
    lastCommit: Lookup<CommitInfo>)

  predicate ValidRecord(r: Record)
  {
    Valid(r.createdAt) && Valid(r.updatedAt) && Valid(r.pushedAt) && ValidOwner(r.owner)
  }

  /** `item["commits_url"][:-6]`: the commits URL without its `{/sha}` template suffix. */
  function CommitsListUrl(commitsUrl: string): string
  {
    SliceTo(commitsUrl, -6)
  }

  lemma CommitsListUrlDropsTemplate(base: string)
    ensures CommitsListUrl(base + "{/sha}") == base
    ensures |CommitsListUrl(base)| == if |base| >= 6 then |base| - 6 else 0
  {
    assert (base + "{/sha}")[..|base|] == base;
  }

  predicate RecordTimestampsParse(item: Repository)
  {
    ParseTimestamp(item.createdAt).Some? && TimestampsParse(item)
  }

  /** `record` is what `formatUpdates` builds from `item`, the owner looked up at the item's
      owner URL and the last commit at its commits URL cut by 6 characters. */
  predicate Enriches(record: Record, item: Repository,
                     fetchUser: string -> Option<UserResponse>,
                     fetchCommits: string -> Option<seq<CommitInfo>>)
  {
    RecordTimestampsParse(item) &&
    record.id == item.id && record.fullName == item.fullName && record.htmlUrl == item.htmlUrl &&
    record.description == item.description &&
    record.owner == GetUserInfo(fetchUser(item.ownerUrl)) &&
    Some(record.createdAt) == ParseTimestamp(item.createdAt) &&
    Some(record.updatedAt) == ParseTimestamp(item.updatedAt) &&
    Some(record.pushedAt) == ParseTimestamp(item.pushedAt) &&
    record.stargazersCount == item.stargazersCount && record.watchersCount == item.watchersCount &&
    record.forksCount == item.forksCount && record.openIssuesCount == item.openIssuesCount &&
    record.lastCommit == GetLastCommit(fetchCommits(CommitsListUrl(item.commitsUrl)))
  }

  /** `formatUpdates(updates)`: one record per item, in order, or the `ValueError` of the
      first item whose timestamps do not parse. */
  method FormatUpdates(updates: seq<Repository>,
                       fetchUser: string -> Option<UserResponse>,
                       fetchCommits: string -> Option<seq<CommitInfo>>)
    returns (r: Result<seq<Record>, Error>)
    ensures r.Ok? <==> forall i :: 0 <= i < |updates| ==> RecordTimestampsParse(updates[i])
    ensures r.Err? ==> r.error == MalformedTimestamp
    ensures r.Ok? ==> |r.value| == |updates|
    ensures r.Ok? ==> forall i :: 0 <= i < |updates| ==>
      Enriches(r.value[i], updates[i], fetchUser, fetchCommits) && ValidRecord(r.value[i])
  {
    var formattedUpdates: seq<Record> := [];
    for i := 0 to |updates|
      invariant |formattedUpdates| == i
      invariant forall j :: 0 <= j < i ==>
        Enriches(formattedUpdates[j], updates[j], fetchUser, fetchCommits) && ValidRecord(formattedUpdates[j])
    {
      var item := updates[i];
      var owner := GetUserInfo(fetchUser(item.ownerUrl));
      var createdAt := ParseTimestamp(item.createdAt);
      var updatedAt := ParseTimestamp(item.updatedAt);
      var pushedAt := ParseTimestamp(item.pushedAt);
      if createdAt.None? || updatedAt.None? || pushedAt.None? {
        return Err(MalformedTimestamp);
      }
      var lastCommit := GetLastCommit(fetchCommits(CommitsListUrl(item.commitsUrl)));
      var tmp := Record(item.id, item.fullName, item.htmlUrl, item.description, owner,
                        createdAt.value, updatedAt.value, pushedAt.value,
                        item.stargazersCount, item.watchersCount, item.forksCount,
                        item.openIssuesCount, lastCommit);
      formattedUpdates := formattedUpdates + [tmp];
    }
    return Ok(formattedUpdates);
  }

  // ---------------------------------------------------------------- checkStringLength

  const CONTINUATION := "...(continue)"

  /** The characters `s[:maxLen]` keeps of a string of length `n`. */
  function KeptLength(n: nat, maxLen: int): nat
  {
    if maxLen >= 0 then (if maxLen < n then maxLen else n) else (if n + maxLen > 0 then n + maxLen else 0)
  }

  /** `string and len(string) >= maxLen`: `None` and `""` are falsy. */
  predicate Truncates(s: Option<string>, maxLen: int)
  {
    s.Some? && s.value != "" && |s.value| >= maxLen
  }

  /** `checkStringLength(string, maxLen)`. */
  function CheckStringLength(s: Option<string>, maxLen: int): Option<string>
  {
    if Truncates(s, maxLen) then Some(SliceTo(s.value, maxLen) + CONTINUATION) else s
  }

  /** A string shorter than the limit (or `None`, or empty) is returned as it is; a longer
      one is cut to the first `maxLen` characters (Python's `[:maxLen]`, so a negative limit
      counts from the end) and marked with the continuation suffix. */
  lemma CheckStringLengthSpec(s: Option<string>, maxLen: int)
    ensures var r := CheckStringLength(s, maxLen);
      (!Truncates(s, maxLen) ==> r == s) &&
      (Truncates(s, maxLen) ==>
        r.Some? && r.value == s.value[..KeptLength(|s.value|, maxLen)] + CONTINUATION) &&
      (Truncates(s, maxLen) && maxLen >= 0 ==>
        |r.value| == maxLen + |CONTINUATION| && r.value[..maxLen] == s.value[..maxLen] &&
        r.value[maxLen..] == CONTINUATION)
  {
  }

  /** Truncating an already truncated string changes nothing (for a non-negative limit). */
  lemma CheckStringLengthIdempotent(s: Option<string>, maxLen: int)
    requires maxLen >= 0
    ensures CheckStringLength(CheckStringLength(s, maxLen), maxLen) == CheckStringLength(s, maxLen)
  {
    CheckStringLengthSpec(s, maxLen);
    if Truncates(s, maxLen) {
      var once := CheckStringLength(s, maxLen).value;
      CheckStringLengthSpec(Some(once), maxLen);
      assert once[..maxLen] + CONTINUATION == once;
    }
  }

  // ---------------------------------------------------------------- the two text formats

  /** `hours, minutes, seconds` of `(now - lastUpdate).seconds` split by `divmod`: the
      `.seconds` component drops whole days and is never negative. */
  function AgeBreakdown(elapsed: int): (int, int, int)
  {
    var seconds := elapsed % 86400;
    var hours, remainder := seconds / 3600, seconds % 3600;
    (hours, remainder / 60, remainder % 60)
  }

  /** The three parts are a clock reading, and together they are the elapsed time modulo a
      day: a whole number of days is dropped, never added. */
  lemma AgeBreakdownBounds(elapsed: int)
    ensures var r := AgeBreakdown(elapsed);
      0 <= r.0 <= 23 && 0 <= r.1 <= 59 && 0 <= r.2 <= 59 &&
      r.0 * 3600 + r.1 * 60 + r.2 == elapsed % 86400 &&
      (elapsed - (r.0 * 3600 + r.1 * 60 + r.2)) % 86400 == 0
  {
  }

  /** An age under a day is shown exactly, and a timestamp one second in the future shows
      as 23h 59m 59s. */
  lemma AgeBreakdownWithinADay(elapsed: int)
    ensures 0 <= elapsed < 86400 ==>
      var r := AgeBreakdown(elapsed); r.0 * 3600 + r.1 * 60 + r.2 == elapsed
    ensures AgeBreakdown(-1) == (23, 59, 59)
  {
  }

  /** Whole days vanish from the age. */
  lemma AgeBreakdownDropsDays(elapsed: int, days: nat)
    ensures AgeBreakdown(elapsed + days * 86400) == AgeBreakdown(elapsed)
  {
    assert (elapsed + days * 86400) % 86400 == elapsed % 86400;
  }

  /** `max(commit["updated_at"], commit["pushed_at"])`. */
  function LastUpdate(rec: Record): (t: DateTime)
    requires ValidRecord(rec)
    ensures Valid(t) && (t == rec.updatedAt || t == rec.pushedAt)
  {
    if Seconds(rec.pushedAt) > Seconds(rec.updatedAt) then rec.pushedAt else rec.updatedAt
  }

  /** The timestamp shown as "Last Updated" is the later of the two, the updated one on a
      tie. */
  lemma LastUpdateIsLater(rec: Record)
    requires ValidRecord(rec)
    ensures Seconds(LastUpdate(rec)) >= Seconds(rec.updatedAt)
    ensures Seconds(LastUpdate(rec)) >= Seconds(rec.pushedAt)
    ensures LastUpdate(rec) == rec.pushedAt ==> Seconds(rec.pushedAt) > Seconds(rec.updatedAt) || rec.pushedAt == rec.updatedAt
  {
  }

  /** `str()` of a string that may be `None`. */
  function PyText(s: Option<string>): string
  {
    if s.Some? then s.value else "None"
  }

  function OptionalText(v: Value): Option<string>
    requires v.Str? || v.Null?
  {
    if v.Str? then Some(v.s) else None
  }

  // Each line of the two formats is an f-string; the functions below are those templates,
  // taking the `str()` of each substituted value.

  function UpdatedLine(lastUpdate: string, hours: string, minutes: string, seconds: string): string
  {
    "Last Updated: " + lastUpdate + " (" + hours + "h " + minutes + "m " + seconds + "s ago)\n"
  }

  function CreatedLine(createdAt: string): string
  {
    "Created At: " + createdAt + "\n\n"
  }

  function NameLine(name: string): string
  {
    "Name: " + name + "\n"
  }

  function DescriptionLine(description: string): string
  {
    "Description: " + description + "\n\n"
  }

  function OwnerLine(owner: string, followers: string): string
  {
    "Owner: " + owner + " (followers: " + followers + ")\n"
  }

  function BioLine(bio: string): string
  {
    "Bio: " + bio + "\n\n"
  }

  function CommitLine(message: string): string
  {
    "Last Commit: " + message + "\n"
  }

  function AuthorLine(author: string): string
  {
    "Author: " + author + "\n\n"
  }

  function StargazersLine(stargazers: string): string
  {
    "Stargazers: " + stargazers + "\n"
  }

  function WatchersLine(watchers: string): string
  {
    "Watchers: " + watchers + "\n"
  }

  function ForksLine(forks: string): string
  {
    "Forks: " + forks + "\n\n"
  }

  function UrlLine(url: string): string
  {
    "URL: " + url + "\n"
  }

  /** "Last Updated" and "Created At" lines for the shown timestamp `last`, its age
      `(hours, minutes, seconds)` and the creation time. */
  function AgeLines(last: DateTime, age: (int, int, int), createdAt: DateTime): string
    requires Valid(last) && Valid(createdAt)
  {
    UpdatedLine(Render(last), IntToString(age.0), IntToString(age.1), IntToString(age.2))
    + CreatedLine(Render(createdAt))
  }

  /** `AgeLines` written out, for callers whose context is too large to unfold it cheaply. */
  lemma AgeLinesParts(last: DateTime, age: (int, int, int), createdAt: DateTime)
    requires Valid(last) && Valid(createdAt)
    ensures AgeLines(last, age, createdAt) ==
      UpdatedLine(Render(last), IntToString(age.0), IntToString(age.1), IntToString(age.2))
      + CreatedLine(Render(createdAt))
  {
  }

  /** "Last Updated" and "Created At" lines: the later of the two timestamps, how long ago
      it was, and the creation time. */
  function AgeBlock(rec: Record, now: int): string
    requires ValidRecord(rec)
  {
    AgeLines(LastUpdate(rec), AgeBreakdown(now - Seconds(LastUpdate(rec))), rec.createdAt)
  }

  /** The age block in terms of the later timestamp and its breakdown. */
  lemma AgeBlockOf(rec: Record, now: int, last: DateTime, age: (int, int, int))
    requires ValidRecord(rec) && last == LastUpdate(rec) && age == AgeBreakdown(now - Seconds(last))
    ensures AgeBlock(rec, now) == AgeLines(last, age, rec.createdAt)
  {
  }

  /** "Name" and "Description" lines. */
  function NameBlock(rec: Record): string
  {
    NameLine(rec.fullName) + DescriptionLine(PyText(CheckStringLength(rec.description, 180)))
  }

  /** "Owner" and "Bio" lines. */
  function OwnerBlock(rec: Record): string
  {
    var owner := OwnerFields(rec.owner);
    OwnerLine(PyStr(owner["login"]), PyStr(owner["followers"]))
    + BioLine(PyText(CheckStringLength(OptionalText(owner["bio"]), 180)))
  }

  /** "Last Commit" and "Author" lines. */
  function CommitBlock(rec: Record): string
  {
    var commit := CommitFields(rec.lastCommit);
    CommitLine(PyStr(commit["message"])) + AuthorLine(PyStr(commit["author"]))
  }

  /** "Stargazers", "Watchers" and "Forks" lines. */
  function StatsBlock(rec: Record): string
  {
    StargazersLine(IntToString(rec.stargazersCount)) + WatchersLine(IntToString(rec.watchersCount))
    + ForksLine(IntToString(rec.forksCount))
  }

  function UrlBlock(rec: Record): string
  {
    UrlLine(rec.htmlUrl)
  }

  /** The text of `formatResponseString`, block by block. */
  function ResponseText(rec: Record, now: int): string
    requires ValidRecord(rec)
  {
    AgeBlock(rec, now) + NameBlock(rec) + OwnerBlock(rec) + CommitBlock(rec) + StatsBlock(rec) + UrlBlock(rec)
  }

  /** The text of `formatTwitterString`, block by block. */
  function TwitterText(rec: Record): string
  {
    NameBlock(rec) + CommitBlock(rec) + StatsBlock(rec) + UrlBlock(rec)
  }

  /** `formatResponseString(commit)`, growing `resstr` by one formatted line at a time. */
  method FormatResponseString(rec: Record, now: int) returns (resstr: string)
    requires ValidRecord(rec)
    ensures resstr == ResponseText(rec, now)
  {
    resstr := "";
    var lastUpdate := LastUpdate(rec);
    var createdAt := rec.createdAt;
    var age := AgeBreakdown(now - Seconds(lastUpdate));
    var hours, minutes, seconds := age.0, age.1, age.2;
    var name := rec.fullName;
    var url := rec.htmlUrl;
    var description := CheckStringLength(rec.description, 180);
    var owner := OwnerFields(rec.owner);
    var bio := CheckStringLength(OptionalText(owner["bio"]), 180);
    var lastCommit := CommitFields(rec.lastCommit);

    var line := UpdatedLine(Render(lastUpdate), IntToString(hours), IntToString(minutes), IntToString(seconds));
    resstr := resstr + line;
    AppendToEmpty(line);
    resstr := resstr + CreatedLine(Render(createdAt));
    AgeBlockOf(rec, now, lastUpdate, age);
    AgeLinesParts(lastUpdate, age, createdAt);

    ghost var prefix := resstr;
    resstr := resstr + NameLine(name);
    resstr := resstr + DescriptionLine(PyText(description));
    AppendAssociative(prefix, NameLine(name), DescriptionLine(PyText(description)));

    prefix := resstr;
    resstr := resstr + OwnerLine(PyStr(owner["login"]), PyStr(owner["followers"]));
    resstr := resstr + BioLine(PyText(bio));
    AppendAssociative(prefix, OwnerLine(PyStr(owner["login"]), PyStr(owner["followers"])), BioLine(PyText(bio)));

    prefix := resstr;
    resstr := resstr + CommitLine(PyStr(lastCommit["message"]));
    resstr := resstr + AuthorLine(PyStr(lastCommit["author"]));
    AppendAssociative(prefix, CommitLine(PyStr(lastCommit["message"])), AuthorLine(PyStr(lastCommit["author"])));

    prefix := resstr;
    var stargazers := StargazersLine(IntToString(rec.stargazersCount));
    var watchers := WatchersLine(IntToString(rec.watchersCount));
    resstr := resstr + stargazers;
    resstr := resstr + watchers;
    AppendAssociative(prefix, stargazers, watchers);
    var forks := ForksLine(IntToString(rec.forksCount));
    resstr := resstr + forks;
    AppendAssociative(prefix, stargazers + watchers, forks);

    resstr := resstr + UrlLine(url);
  }

  /** `formatTwitterString(commit)`, growing `resstr` by one formatted line at a time. */
  method FormatTwitterString(rec: Record) returns (resstr: string)
    ensures resstr == TwitterText(rec)
  {
    resstr := "";
    var name := rec.fullName;
    var url := rec.htmlUrl;
    var description := CheckStringLength(rec.description, 180);
    var lastCommit := CommitFields(rec.lastCommit);

    var line := NameLine(name);
    resstr := resstr + line;
    AppendToEmpty(line);
    resstr := resstr + DescriptionLine(PyText(description));

    ghost var prefix := resstr;
    resstr := resstr + CommitLine(PyStr(lastCommit["message"]));
    resstr := resstr + AuthorLine(PyStr(lastCommit["author"]));
    AppendAssociative(prefix, CommitLine(PyStr(lastCommit["message"])), AuthorLine(PyStr(lastCommit["author"])));

    prefix := resstr;
    var stargazers := StargazersLine(IntToString(rec.stargazersCount));
    var watchers := WatchersLine(IntToString(rec.watchersCount));
    resstr := resstr + stargazers;
    resstr := resstr + watchers;
    AppendAssociative(prefix, stargazers, watchers);
    var forks := ForksLine(IntToString(rec.forksCount));
    resstr := resstr + forks;
    AppendAssociative(prefix, stargazers + watchers, forks);

    resstr := resstr + UrlLine(url);
  }

  /** Six texts joined, and the same text without the first and third: the shorter is the
      longer with those two cut out, so it is an order-preserving subsequence of it. */
  lemma WithoutTwoBlocks(age: string, name: string, owner: string, commit: string, stats: string, url: string)
    ensures var long, short := age + name + owner + commit + stats + url, name + commit + stats + url;
      |name| <= |short| &&
      long == age + short[..|name|] + owner + short[|name|..] &&
      IsSubsequence(short, long)
  {
    var rest := commit + stats + url;
    var short := name + commit + stats + url;
    AppendAssociative(name, commit, stats);
    AppendAssociative(name, commit + stats, url);
    assert short == name + rest;
    assert short[..|name|] == name && short[|name|..] == rest;
    var front := age + name + owner;
    AppendAssociative(front, commit, stats);
    AppendAssociative(front, commit + stats, url);
    assert front + commit + stats + url == front + rest;
    SubsequenceReflexive(name);
    SubsequenceReflexive(rest);
    SubsequenceConcat([], age, name, name);
    AppendToEmpty(name);
    SubsequenceAppendRight(name, age + name, owner);
    SubsequenceConcat(name, front, rest, rest);
  }

  /** The short format is the long one with the "Last Updated/Created At" block and the
      "Owner/Bio" block deleted: the long text is the age block, the short text's first
      block, the owner block, then the rest of the short text; so the short text is an
      order-preserving subsequence of the long one. */
  lemma TwitterIsResponseWithoutTwoBlocks(rec: Record, now: int)
    requires ValidRecord(rec)
    ensures var long, short, k := ResponseText(rec, now), TwitterText(rec), |NameBlock(rec)|;
      k <= |short| &&
      long == AgeBlock(rec, now) + short[..k] + OwnerBlock(rec) + short[k..] &&
      IsSubsequence(short, long)
  {
    WithoutTwoBlocks(AgeBlock(rec, now), NameBlock(rec), OwnerBlock(rec), CommitBlock(rec), StatsBlock(rec), UrlBlock(rec));
  }

  /** The two blocks only the long format has are the "Last Updated" and "Owner" ones. */
  lemma RemovedBlocksHeadings(rec: Record, now: int)
    requires ValidRecord(rec)
    ensures |AgeBlock(rec, now)| >= 14 && AgeBlock(rec, now)[..14] == "Last Updated: "
    ensures |OwnerBlock(rec)| >= 7 && OwnerBlock(rec)[..7] == "Owner: "
  {
    var last := LastUpdate(rec);
    var age := AgeBreakdown(now - Seconds(last));
    StartsWith("Last Updated: ",
      Render(last) + " (" + IntToString(age.0) + "h " + IntToString(age.1) + "m " + IntToString(age.2) + "s ago)\n",
      CreatedLine(Render(rec.createdAt)));
    var owner := OwnerFields(rec.owner);
    StartsWith("Owner: ", PyStr(owner["login"]) + " (followers: " + PyStr(owner["followers"]) + ")\n",
      BioLine(PyText(CheckStringLength(OptionalText(owner["bio"]), 180))));
  }

  /** Both formats end with the repository's URL line. */
  lemma BothFormatsEndWithUrl(rec: Record, now: int)
    requires ValidRecord(rec)
    ensures var tail := "URL: " + rec.htmlUrl + "\n";
      var long, short := ResponseText(rec, now), TwitterText(rec);
      |tail| <= |short| <= |long| &&
      long[|long| - |tail|..] == tail && short[|short| - |tail|..] == tail
  {
  }
}
