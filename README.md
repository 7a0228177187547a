# github-push-notification: a Dafny model of the notification pipeline

The modelled program polls GitHub's repository search for recently pushed repositories in
one language. It keeps the ones whose timestamps fall inside a recent window. For each kept
repository it looks up the owner's profile and the last commit, and it renders a text
message (a long Telegram form and a short Twitter form).

The project models both connectors:

- `connectors/GithubConnector.py` is the current connector. It keeps an item when the later
  of `updated_at`/`pushed_at` is within the last `pingRange` minutes. It enriches each item
  into a record and formats records as text.
- `connector.py` is the earlier connector. It keeps an item when the earlier of the two
  timestamps is within the last `timeRange` hours. Its `getFormattedUpdates` builds
  per-item dictionaries, drops them and returns `None`.

Modules:

- `Wrappers`: `Option` and `Result`.
- `Sequences`: a generic order-preserving `Filter`, the subsequence relation and Python's
  `s[:k]` slice.
- `Decimal`: zero-padded digit fields as `strptime`/`strftime` read and write them, and
  Python's `str()` of an integer.
- `Calendar`: Python's proleptic Gregorian `datetime`. It covers:
  - ordinal days and seconds since 0001-01-01T00:00:00;
  - `strptime(s, "%Y-%m-%dT%H:%M:%SZ")`;
  - `strftime('%Y-%m-%d')`;
  - `str(datetime)`.
- `GithubApi`: the JSON records the endpoints return, the exceptions that escape, and
  `RecentBy`, the specification both filter loops are proved against.
- `GithubConnector`: `connectors/GithubConnector.py`.
- `Connector`: `connector.py`.

Inputs the program reads from the outside become parameters:

- "now" is whole seconds since 0001-01-01T00:00:00 UTC.
- The search request is a function from the query string to `Option<seq<Repository>>`.
- The users and commits requests are functions from a URL to an `Option` of the decoded
  JSON.

`None` stands for any failed request or missing key. The exceptions that escape become the
`Error` cases of a `Result`:

- `ValueError` from `strptime` becomes `MalformedTimestamp`.
- `OverflowError` from datetime arithmetic becomes `DateOverflow`.
- A failed search, or a payload without `items`, becomes `SearchFailed`.

Loops that append to a list are methods with loop invariants, and the formatters grow
their string with a sequence of `+=`. Each filter loop, and each formatter's sequence of
`+=`, is proved equal to a function, and lemmas state what the source promises about
that function. `FormatUpdates` is specified item by item instead: each
record is tied to its item by the predicate `Enriches`.

## Model

| member | source | states |
|---|---|---|
| GithubConnector.SearchQuery | connectors/GithubConnector.py:25-31 | the query exists exactly when `now - searchRange days` stays inside the datetime range (otherwise `OverflowError`) |
| GithubConnector.SearchQueryDates | connectors/GithubConnector.py:25-31 | the query is `pushed:` + the `YYYY-MM-DD` date `searchRange` days before now + `..` + today's date + ` language:` + the language; the first date's day number plus `searchRange` is today's |
| GithubApi.RecentBy | connectors/GithubConnector.py:48-54 | the loop succeeds iff there are no items, or every item's two timestamps parse and the cutoff is in range; `OverflowError` exactly when the first item parses but the cutoff is out of range; on success the result is the items the keep-test accepts, in order |
| GithubConnector.FilterRecent | connectors/GithubConnector.py:48-56 | the append loop returns exactly what `RecentBy` specifies for the max/minutes keep-test, the errors included |
| GithubConnector.RecentKeepsTheWindow | connectors/GithubConnector.py:48-56 | the kept items are an order-preserving subsequence of the results, unmodified; an item is kept iff its timestamps parse and `updated_at` or `pushed_at` is at or after `now - pingRange` minutes (inclusive boundary) |
| GithubConnector.GetLatestRepositories | connectors/GithubConnector.py:15-56 | query overflow, failed search or the filter's outcome, in that order; on success the result is a subsequence of the search results |
| GithubConnector.GetUserInfo | connectors/GithubConnector.py:64-95 | the profile is fetched iff the response exists and both its timestamps parse, otherwise the placeholder; fetched timestamps are valid datetimes |
| GithubConnector.UserInfoCopiesResponse | connectors/GithubConnector.py:70-81 | a fetched profile carries the response's fields, and its two datetimes format back to the response's exact strings |
| GithubConnector.OwnerFieldsShape | connectors/GithubConnector.py:70-95 | of the function `OwnerFields`: the owner dictionary has the same ten keys on success and on failure, and all values are `""` exactly for the placeholder |
| GithubConnector.GetLastCommit | connectors/GithubConnector.py:103-123 | the commit is fetched iff the response exists and the list is non-empty (an empty list fails at `response[0]`); the fetched commit is the first element |
| GithubConnector.CommitFields | connectors/GithubConnector.py:110-115 | the commit dictionary of a fetched commit holds its sha, node id, author name and message |
| GithubConnector.CommitFieldsShape | connectors/GithubConnector.py:110-123 | the commit dictionary has the same four string keys either way, all `""` for the placeholder |
| GithubConnector.FormatUpdates | connectors/GithubConnector.py:131-159 | succeeds iff every item's three timestamps parse (else `ValueError`); on success exactly one record per item, in order, each copying the item's fields, with the owner looked up at the owner URL and the last commit at the commits URL cut by 6 characters |
| GithubConnector.CommitsListUrlDropsTemplate | connectors/GithubConnector.py:154-155 | of the function `CommitsListUrl`: `[:-6]` removes the `{/sha}` template suffix, and shortens any URL by 6 characters (to empty when shorter) |
| GithubConnector.CheckStringLengthSpec | connectors/GithubConnector.py:168-171 | of the function `CheckStringLength`: `None`, `""` and strings shorter than the limit are returned unchanged; otherwise (length exactly `maxLen` included) the result is `s[:maxLen] + "...(continue)"`, with length `maxLen + 13` for a non-negative limit |
| GithubConnector.CheckStringLengthIdempotent | connectors/GithubConnector.py:168-171 | applying it twice with a non-negative limit equals applying it once |
| GithubConnector.AgeBreakdownBounds | connectors/GithubConnector.py:184-186 | of the function `AgeBreakdown`: hours in 0..23, minutes and seconds in 0..59; together they are the elapsed seconds modulo a day (`timedelta.seconds`) |
| GithubConnector.AgeBreakdownWithinADay | connectors/GithubConnector.py:184-186 | an age under a day is shown exactly; a timestamp one second in the future shows as 23h 59m 59s |
| GithubConnector.AgeBreakdownDropsDays | connectors/GithubConnector.py:184-186 | adding whole days to the age does not change what is shown |
| GithubConnector.LastUpdate | connectors/GithubConnector.py:181 | `max(updated_at, pushed_at)` is one of the two datetimes |
| GithubConnector.LastUpdateIsLater | connectors/GithubConnector.py:181 | the shown timestamp is at or after both, and is `pushed_at` only when that is strictly later, or when the two are the same datetime |
| GithubConnector.FormatResponseString | connectors/GithubConnector.py:179-222 | the text grown line by line is the age, name, owner, commit, stats and URL blocks in that order |
| GithubConnector.FormatTwitterString | connectors/GithubConnector.py:230-260 | the text grown line by line is the name, commit, stats and URL blocks in that order |
| GithubConnector.TwitterIsResponseWithoutTwoBlocks | connectors/GithubConnector.py:204-220 | the long text is the short text with the age block inserted before it and the owner block inserted after its first block; the short text is a subsequence of the long one |
| GithubConnector.RemovedBlocksHeadings | connectors/GithubConnector.py:204-211 | the two blocks only the long form has start with `Last Updated: ` and `Owner: ` |
| GithubConnector.BothFormatsEndWithUrl | connectors/GithubConnector.py:220 | both texts end with the `URL: ` line of the repository |
| Calendar.ParseTimestamp | connectors/GithubConnector.py:49-50 | a timestamp that parses is a valid datetime (real month and day, clock in range); only the canonical `YYYY-MM-DDTHH:MM:SSZ` spelling parses, and other spellings `strptime` tolerates are rejected (see "## Left out") |
| Calendar.ParseFormattedTimestamp | connectors/GithubConnector.py:49-50 | parsing the API form of a valid datetime gives it back |
| Calendar.ParsedTimestampIsCanonical | connectors/GithubConnector.py:79-80 | the model's parser accepts only the canonical form: formatting the parsed value gives the input string back (Python's `strptime` also tolerates other spellings; see "## Left out") |
| Calendar.FromSeconds | connectors/GithubConnector.py:25-29 | the datetime at a number of seconds is valid and lies exactly that many seconds after 0001-01-01 |
| Calendar.SecondsRoundTrip | connectors/GithubConnector.py:25-29 | every valid datetime is in range and comes back from its seconds |
| Calendar.SecondsOrderIsChronological | connectors/GithubConnector.py:52-53 | comparing datetimes field by field agrees with comparing their seconds, so `max` and `>=` on seconds are Python's datetime comparisons |
| Decimal.ReadNatToString | connectors/GithubConnector.py:216-218 | the decimal text of a count reads back to the count |
| Connector.FilterRecent | connector.py:31-39 | the append loop returns exactly what `RecentBy` specifies for the min/hours keep-test, the errors included |
| Connector.RecentKeepsTheWindow | connector.py:31-39 | the kept items are an order-preserving subsequence of the results, unmodified; an item is kept iff both timestamps parse and are at or after `now - timeRange` hours (inclusive boundary) |
| Connector.MinFilterWithinMaxFilter | connector.py:35-36 | with equal window lengths in seconds, the min-based filter fails exactly when the max-based one does, and otherwise keeps a subsequence of what the max-based one keeps |
| Connector.GetLatestRepositories | connector.py:9-39 | query overflow, failed search or the filter's outcome, in that order; on success the result is a subsequence of the search results |
| Connector.GetFormattedUpdates | connector.py:41-48 | returns no value whenever the fetch succeeds and re-raises its error otherwise; the per-item dictionaries are not returned |

## Left out

- HTTP: `requests.get`/`requests.post`, basic authentication and `settings` are parameters, or absent.
- The terminal `print` method, the `pingTelegram` delivery loop and the debug `print` of the query string are output side effects. `base_url` is read only to build the search URL, which the `search` parameter stands for. The other instance fields (`language`, `searchRange`, `pingRange`) are read only by those two methods, so the model has no class.
- Responses are fixed per URL: the users and commits requests are functions of the URL, so two kept repositories with the same owner URL always get the same lookup outcome. In the source each `requests.get` is a separate call, and a later one can fail (a rate limit, say) and fall back to the placeholder after an earlier one succeeded.
- The clock: `dt.utcnow()` is one "now" parameter in whole seconds. The source reads the clock twice per query, and once more in `formatResponseString`.
- The microseconds of `utcnow()`: with a non-zero fraction, an item exactly at the cutoff second is dropped by Python but kept by the model.
- `strftime('%Y')` for years below 1000 is platform-dependent; the model pads to four digits, as `str(datetime)` does.
- Calendar.ParseTimestamp: accepts only the canonical spelling, so it returns `None` on four kinds of strings that Python's `strptime` accepts. The API never sends any of them:
  - one-digit fields such as `2024-1-5T3:04:05Z`;
  - space-padded fields such as `2024-01- 5T03:04:05Z`;
  - lower-case `t` and `z`, because the pattern is matched case-insensitively;
  - non-ASCII decimal digits.
- `KeyError`, `TypeError` and JSON decoding errors inside the `try` blocks are collapsed into one `None` input per lookup. A `KeyError` on a search item's own fields cannot happen with the typed `Repository` record.
- `public_repos`, `following`, `avatar_url` and the other profile fields are carried but never printed; `publicRepos` in the formatters is unused in the source as well.
- connector.py's query is the same string as the newer connector's, so `Connector.Latest` reuses `GithubConnector.SearchQuery` rather than restating it.
- Connector.GetFormattedUpdates: the dictionaries it builds are dropped, as in the source, so its contract says nothing about them.
