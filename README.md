# Discord RSS bot service, modelled in Dafny

`bot_service.py` is a long-running service that polls a table of RSS feeds,
formats every entry it has not posted before as a bordered Discord message,
sends it to a webhook and records its fingerprint in an SQLite table so it is
never posted twice. This project models the sequential logic of that service
and proves properties of it. The network, feedparser, html2text, SHA-256,
SQLite and the clock are outside the model and enter as parameters.

Modules, one per concern of the service:

- `Maybe` — the `Option` type.
- `Text` — the Python `str` operations the service relies on: `strip()` with
  the whitespace set of `str.isspace`, `strip(chars)`, `split(sep)`,
  `split()[0]`, substring `in`, `replace(pat, '')`, and ASCII `lower()` and
  `title()`.
- `ConfigFile` — the start-up loader that copies `key=value` lines from the
  config file into the environment, and the webhook lookup around it.
- `Feeds` — the feed table built from `RSS_FEEDS_*` variables, with the
  default table, and the two lookups `get_source_name` and
  `get_category_emoji`.
- `FeedEntry` — the entry fields the service reads and `hash_entry`.
- `Formatter` — `clean_html` (its two blank-line substitutions) and
  `format_post` (excerpt, bordered block, rebuilt block, minimalist form).
- `Delivery` — the decision of `post_to_discord` on a given webhook response.
- `SeenStore` — the `posted` table: a class `Store` holding its rows and
  columns, with `init_db`'s migration, `has_posted`, `mark_posted` and
  `cleanup_old_entries`.
- `Poll` — `check_feeds`, as a specification over states plus three nested
  loop methods that update a `Store` and are proved equal to it.
- `Service` — the cycle logic of `main`: webhook check, one pass per cycle,
  cleanup on every 24th cycle, and the sleep in slices of at most 10 seconds.

Some behaviours of the code are easy to misread; the model follows the code as written:

- The content of a post is `content[0].value` whenever the entry's content
  list is non-empty, even when that value is empty. Otherwise it is the
  summary if that field exists, then the description. It is the first
  *present* field, not the first non-empty one (`Formatter.ContentOfFirstPresent`).
- `post_to_discord` reports success for every status outside 400-599. That
  includes 1xx and 3xx, not only 2xx (`Delivery.NonErrorStatusesSucceed`).
- The minimalist form of `format_post` has no length bound. It can be longer
  than `MAX_POST_LENGTH` (`Formatter.MinimalCanExceedLimit`).
- A config file that sets `DISCORD_WEBHOOK_URL` and later holds a line without
  `=` leaves the webhook in the environment, but the module-level webhook is
  not read again (`ConfigFile.WebhookLostOnLaterError`).

## Model

| member | source | states |
|---|---|---|
| Text.StripEmptyIff | bot_service.py:35 | `s.strip()` is empty exactly when every character of `s` is whitespace |
| Text.Strip | bot_service.py:35 | `s.strip()`: the string without its leading and trailing `str.isspace` characters; its meaning is stated by `StripEmptyIff` |
| Text.FirstToken | bot_service.py:294 | `split()[0]` is absent exactly for an all-whitespace string; otherwise it is the non-empty run of non-whitespace that starts right after the leading whitespace of `s` and ends at whitespace or at the end of `s` |
| Text.SplitOn | bot_service.py:69 | `split(sep)` gives at least one piece and no piece holds the separator; `JoinSplitOn` shows nothing else is lost |
| Text.JoinSplitOn | bot_service.py:69 | splitting on a separator and joining back gives the original string, so no character is lost when URLs are split on commas |
| Text.LowerTitle | bot_service.py:52-56 | lower-casing a title-cased name gives the same as lower-casing the name |
| ConfigFile.ClassifyLine | bot_service.py:35-37 | what one config line does: nothing, a failed unpacking, or one assignment; its meaning is stated by `ClassifyLineMeaning` |
| ConfigFile.ClassifyLineMeaning | bot_service.py:35-37 | a line is skipped iff it is blank or its raw text starts with `#`; otherwise it is malformed iff its stripped text has no `=`; an assignment's key is the stripped text before the first `=` and its value is the rest with only quote characters stripped |
| ConfigFile.QuotesNotSpacesStripped | bot_service.py:36-37 | for the line ` K= "v" \n`, the key is `K` and the value keeps its leading space: ` "v` |
| ConfigFile.RunMeaning | bot_service.py:33-40 | the load aborts iff some line is malformed, and the assignments made are exactly those of the lines before the first malformed one, in order |
| ConfigFile.AbortIsFinal | bot_service.py:33-40 | once a malformed line has aborted the load, later lines change nothing |
| ConfigFile.ApplyAllLookup | bot_service.py:37 | after the assignments a key holds the value of its last assignment; keys never assigned keep their presence and value |
| ConfigFile.LastValueSomeIff | bot_service.py:37 | a key gets a value exactly when some assignment sets it |
| ConfigFile.LoadFile | bot_service.py:33-37 | the loop reports failure iff a malformed line exists, and the environment it leaves is the original one updated by the assignments before the first malformed line |
| ConfigFile.LoadConfig | bot_service.py:27-40 | the file is read only when the environment has no truthy webhook and the file exists; the webhook is read again only when the whole file loaded |
| ConfigFile.WebhookLostOnLaterError | bot_service.py:33-40 | a webhook assigned before the first malformed line is in the environment afterwards, although the load aborted |
| Feeds.FirstMatchingGroup | bot_service.py:55-66 | the index found is the first keyword group at or after the start whose keywords occur in the text |
| Feeds.EmojiFor | bot_service.py:55-66 | the emoji given to a category name is always one of the six |
| Feeds.EmojiForMeaning | bot_service.py:55-66 | the emoji is 📢 iff no keyword group matches the lowered name; a group's emoji is given only when that group matches and no earlier group does |
| Feeds.EarliestGroupWins | bot_service.py:55-66 | a name matching several groups gets the earliest matching group's emoji |
| Feeds.TechNewsIsNews | bot_service.py:55-58 | "Tech News" gets 📰, because news is tried before tech |
| Feeds.CleanUrls | bot_service.py:69 | every kept URL is non-empty with no surrounding whitespace |
| Feeds.CleanUrlsMembers | bot_service.py:69 | the kept URLs are exactly the non-empty stripped pieces |
| Feeds.Put | bot_service.py:70-71 | assigning a category keeps an existing category in place with the new URL list, appends a new one at the end, and keeps categories distinct |
| Feeds.Collect | bot_service.py:49-71 | the table built by the loop never holds a category twice |
| Feeds.FeedsFromEnv | bot_service.py:42-110 | `parse_feeds_from_env`: the table collected from the `RSS_FEEDS_*` pairs in order, or the default table when none yields a URL; its meaning is stated by `CollectOrigin`, `CollectCovers`, `NoCategoryMeansDefaults` and `FeedsFromEnvShape` |
| Feeds.ParseFeedsFromEnv | bot_service.py:42-110 | the loop over the environment pairs, followed by the fallback, yields `FeedsFromEnv(env)` |
| Feeds.CollectOrigin | bot_service.py:49-71 | every category in the built table comes from a `RSS_FEEDS_` variable whose value yields at least one URL; its list is that of the last such variable with the same label |
| Feeds.CollectCovers | bot_service.py:49-71 | every `RSS_FEEDS_` variable whose value yields a URL has its category in the table |
| Feeds.NoCategoryMeansDefaults | bot_service.py:74-108 | when no variable declares a category with a URL, the table is exactly the three default groups |
| Feeds.FirstTokenOfLabel | bot_service.py:66 | the first whitespace-separated token of "emoji name" is the emoji |
| Feeds.LabelForIsLabelled | bot_service.py:52-66 | every built category starts with one of the six emojis as its first token |
| Feeds.DefaultFeedsShape | bot_service.py:75-108 | the default table has distinct categories, each starting with an emoji token, and non-empty lists of trimmed URLs |
| Feeds.FeedsFromEnvShape | bot_service.py:42-110 | whatever the environment, the table is non-empty, its categories are distinct and start with an emoji token, and every URL list is non-empty and trimmed |
| Feeds.GroupOf | bot_service.py:292-293 | the index found is the first category whose URL list holds the URL, or the table's length when none does |
| Feeds.CategoryEmoji | bot_service.py:290-295 | `get_category_emoji`: the first token of the first category listing the URL, the default emoji for an unlisted URL, and no result where `split()[0]` raises; its meaning is stated by `CategoryEmojiMeaning` |
| Feeds.CategoryEmojiMeaning | bot_service.py:290-295 | on a table built by the service the lookup never raises; it gives the first token of the first category listing the URL, and 📢 for an unlisted URL |
| Feeds.FirstDomainMatch | bot_service.py:278-280 | the entry found is the first of the 26 domain entries that occurs anywhere in the URL |
| Feeds.SourceName | bot_service.py:247-288 | the name is that of the first domain entry occurring in the URL, else the name derived from the host |
| Feeds.HostName | bot_service.py:283-288 | the fallback name: the host without `www.`, cut at its first dot and title-cased, or `Source` when `urlparse` fails; `HostNameExample` shows a case |
| Feeds.HostNameExample | bot_service.py:283-288 | host `www.ab.cd` gives `Ab`; a failing `urlparse` gives `Source` |
| FeedEntry.HashEntry | bot_service.py:225-229 | `hash_entry`: the digest (a parameter) of the title followed by the link; its meaning is stated by `HashInputSplits`, `SameInputSameHash`, `MissingFieldIsEmpty` and `BoundaryCollision` |
| FeedEntry.HashInputSplits | bot_service.py:225-229 | the hashed text is the title followed by the link, a missing field read as empty |
| FeedEntry.SameInputSameHash | bot_service.py:225-229 | entries with equal title-then-link texts get the same fingerprint, whatever their content |
| FeedEntry.MissingFieldIsEmpty | bot_service.py:227 | a missing title or link hashes like an empty one |
| FeedEntry.BoundaryCollision | bot_service.py:227 | ("ab", "c") and ("a", "bc") get the same fingerprint |
| Formatter.LastNewlineEnd | bot_service.py:242 | the position found is just past the last line break within the given prefix |
| Formatter.CollapseBlankLines | bot_service.py:242 | the first substitution keeps the first character and never leaves three consecutive line breaks |
| Formatter.CollapseBlankLinesKeepsText | bot_service.py:242 | the first substitution deletes only whitespace: its result has the same non-whitespace characters as its input, in the same order |
| Formatter.CollapseBlankLinesMeaning | bot_service.py:242 | after the first substitution, two line breaks that are not adjacent always have a non-whitespace character between them (no blank line keeps whitespace on it) |
| Formatter.BlankRunBecomesPair | bot_service.py:242 | a line break, a run of whitespace, a line break and then a visible character or the end: the whole run becomes a bare pair of line breaks, and the rest is substituted on its own |
| Formatter.CollapsedUnchanged | bot_service.py:242 | a text with no whitespace-carrying blank line comes back unchanged, so the substitution touches blank lines only |
| Formatter.SquashIdentity | bot_service.py:243 | on text without three consecutive line breaks the second substitution changes nothing |
| Formatter.CleanHtml | bot_service.py:231-245 | `clean_html`: empty for empty HTML, else the converter's text stripped and passed through the two substitutions; its meaning is stated by `CleanHtmlMeaning` |
| Formatter.StripKeepsText | bot_service.py:239 | `strip()` deletes only whitespace, so the non-whitespace characters survive in order |
| Formatter.CleanHtmlMeaning | bot_service.py:231-245 | the cleaned text has no three consecutive line breaks and no blank line with whitespace on it, keeps every non-whitespace character of the converted text in order, and for non-empty HTML it is the first substitution applied to the stripped converted text |
| Formatter.ContentOfFirstPresent | bot_service.py:302-309 | the content list wins over summary and description even when its first value is empty; summary wins over description |
| Formatter.ExcerptMeaning | bot_service.py:313-315 | text within the limit is kept; longer text becomes exactly its first `MAX_CONTENT_LENGTH` characters plus "..." (length limit + 3); a negative limit drops characters from the end as Python slicing does |
| Formatter.BlockLength | bot_service.py:318-332 | the bordered block is 126 characters plus emoji, title, link and source, plus 39 more around non-empty text |
| Formatter.FormatPost | bot_service.py:297-354 | `format_post`: the full block when it fits, else the rebuilt block when more than 50 characters of excerpt fit, else the minimalist form; its meaning is stated by `FormatPostLength` and `FormatPostNotBlank` |
| Formatter.FormatPostLength | bot_service.py:333-352 | the full block is returned iff it fits; a block that does not fit is rebuilt exactly when `MAX_POST_LENGTH - len(block) + len(text) - 20 > 50`, and the rebuilt block is then exactly `MAX_POST_LENGTH - 17` long and holds a prefix of more than 50 excerpt characters; otherwise the minimalist form is returned |
| Formatter.MinimalCanExceedLimit | bot_service.py:346-351 | with a 200-character link and a limit of 100 the minimalist form is returned and is longer than the limit |
| Formatter.BlockNotBlank | bot_service.py:318-332 | a bordered block always holds a non-whitespace character |
| Formatter.MinimalNotBlank | bot_service.py:347-351 | the minimalist form always holds a non-whitespace character |
| Formatter.FormatPostNotBlank | bot_service.py:297-354 | no formatted post is blank, so `post_to_discord` never refuses one as empty |
| Delivery.PostToDiscord | bot_service.py:356-373 | `post_to_discord` on a given response: blank text refused without a request, a rate limit cools down, success for a status outside 400-599; its meaning is stated by `PostToDiscordMeaning` |
| Delivery.PostToDiscordMeaning | bot_service.py:356-373 | a request is made iff the text is not blank; success iff it is not blank and the response is a status outside 400-599; the cooldown happens iff the status is 429; success and cooldown never coincide |
| Delivery.NonErrorStatusesSucceed | bot_service.py:366-368 | statuses 200 and 302 count as success, 404 and 503 as failure |
| SeenStore.Posted | bot_service.py:212-215 | a hash is found iff some row holds it |
| SeenStore.Kept | bot_service.py:455-461 | the surviving rows are exactly the rows posted at or after the cutoff |
| SeenStore.KeptMeaning | bot_service.py:455-464 | deleting works row by row, so the survivors keep their order, and survivors plus deleted rows make up the table |
| SeenStore.KeptCount | bot_service.py:460-461 | the deleted count is the table size minus the survivors |
| SeenStore.KeptDistinct | bot_service.py:455-461 | deleting keeps the hashes distinct |
| SeenStore.KeptAllRecent | bot_service.py:458-460 | when every row is recent, nothing is deleted |
| SeenStore.Migrate | bot_service.py:189-204 | `init_db`'s schema step: create the four columns, or add `title` and `source` when missing; its meaning is stated by `MigrateMeaning` |
| SeenStore.MigrateMeaning | bot_service.py:189-204 | after migration `title` and `source` are columns; an existing table keeps its columns in place and gains at most two; migrating again changes nothing |
| SeenStore.Store.Open | bot_service.py:179-210 | opening keeps the stored rows and migrates the columns |
| SeenStore.Store.HasPosted | bot_service.py:212-215 | true iff some stored row has the hash |
| SeenStore.Store.MarkPosted | bot_service.py:217-223 | appends one row with the hash, title, source and time; the hash must be new (the primary key), and hashes stay distinct |
| SeenStore.Store.CleanupOldEntries | bot_service.py:455-464 | the rows become `Kept(rows, now - days * 86400)` and the result is the number of older rows |
| Poll.EntryStep | bot_service.py:433-443 | one entry: skipped when its hash is stored, else formatted, delivered with the webhook's next response, and stored on success; its meaning is stated by `EntryStepMeaning` |
| Poll.EntryStepMeaning | bot_service.py:433-443 | an entry whose hash is stored changes nothing; an unseen entry adds exactly one attempt with its hash, and its row (hash, time, title, source) is appended exactly when the webhook answered with a status outside 400-599 |
| Poll.EntryStepFollows | bot_service.py:432-443 | one entry keeps the pass invariant and costs at most one delivery |
| Poll.FollowsTransitive | bot_service.py:403-453 | the pass invariant composes over consecutive steps |
| Poll.RunEntriesFollows | bot_service.py:432-443 | over a feed's entries, stored rows are kept, the new rows are the successful deliveries in order, no stored hash is delivered again, and each entry costs at most one delivery |
| Poll.FeedStepFollows | bot_service.py:410-447 | one feed keeps the invariant and tries at most five deliveries |
| Poll.RunFeedsFollows | bot_service.py:410-447 | one category keeps the invariant and tries at most five deliveries per feed |
| Poll.RunGroupsFollows | bot_service.py:406-447 | all categories keep the invariant and try at most five deliveries per feed |
| Poll.CheckFeedsSpec | bot_service.py:403-453 | `check_feeds`: the categories in table order, the feeds of each in order, the first five entries of each fetched feed; its meaning is stated by `CheckFeedsMeaning` and `CheckFeedsCovers` |
| Poll.FollowsKeepsCovered | bot_service.py:434-443 | once a hash is stored or attempted, it stays so for the rest of the pass |
| Poll.EntryStepCovers | bot_service.py:433-443 | after its step, an entry's hash is stored or attempted |
| Poll.RunEntriesCovers | bot_service.py:432-443 | after a feed's entries, each of their hashes is stored or attempted |
| Poll.FeedStepCovers | bot_service.py:410-447 | after a fetched feed with an emoji, each of its first five entries' hashes is stored or attempted |
| Poll.RunFeedsCovers | bot_service.py:410-447 | the same over the feeds of one category |
| Poll.RunGroupsCovers | bot_service.py:406-447 | the same over all categories |
| Poll.CheckFeedsCovers | bot_service.py:403-453 | nothing is silently dropped: on a labelled table every entry among the first five of a fetched feed ends the pass stored, or with a delivery of it tried |
| Poll.CheckFeedsMeaning | bot_service.py:403-453 | a pass keeps the stored rows, adds exactly the successful deliveries in order, so the returned count equals the rows added; it never delivers a stored entry again, never stores a hash twice, and tries at most five deliveries per feed |
| Poll.HashesLength | bot_service.py:438-440 | there is one hash per row, so counting delivered hashes counts rows |
| Poll.SeenEntriesChangeNothing | bot_service.py:434 | a feed whose entries were all posted before changes nothing and sends nothing |
| Poll.RunFeedsAppend | bot_service.py:410 | processing two runs of feeds one after the other is the same as processing their concatenation |
| Poll.FailedFeedIsSkipped | bot_service.py:417-423 | a feed that fails to fetch or has no entries leaves the pass exactly as if it were not in the table |
| Poll.ProcessEntry | bot_service.py:433-443 | one entry changes the store and the delivery log exactly as `EntryStep` says, and the post count grows by one exactly on a successful delivery |
| Poll.ProcessEntries | bot_service.py:432-443 | the entry loop changes the store and counts posts exactly as `RunEntries` says |
| Poll.ProcessFeed | bot_service.py:411-447 | one feed changes the store and the delivery log exactly as `FeedStep` says |
| Poll.ProcessCategory | bot_service.py:410-447 | the feed loop of one category changes the store and counts posts exactly as `RunFeeds` says |
| Poll.CheckFeeds | bot_service.py:403-453 | the store ends as `CheckFeedsSpec` says, and the result is the number of successful deliveries |
| Service.Slices | bot_service.py:503-506 | the sleeps of a cycle that is never stopped: slices of 10 seconds, the last one at most 10 seconds; its meaning is stated by `SlicesMeaning` |
| Service.SlicesMeaning | bot_service.py:503-506 | each slice lasts 1 to 10 seconds; the slices add up to the interval (zero for a non-positive one) and there are `ceil(interval / 10)` of them |
| Service.SleepInSlices | bot_service.py:503-506 | the slices slept are a prefix of the full schedule, all taken while running; the loop stops early only when it reads a cleared stop flag |
| Service.PruneCycles | bot_service.py:490-497 | the cycle numbers up to `n` on which cleanup runs; its meaning is stated by `PruneCyclesMeaning` |
| Service.PruneCyclesMeaning | bot_service.py:490-497 | cleanup runs exactly on the cycles that are multiples of 24, so `n / 24` times in `n` cycles |
| Service.ServeRowsDistinct | bot_service.py:489-506 | across any number of cycles the table never holds a hash twice |
| Service.RunCycle | bot_service.py:490-497 | one cycle leaves the rows `CycleRows` gives and reports whether its number is due for cleanup |
| Service.ServeLoop | bot_service.py:489-506 | the cycle loop leaves the rows `ServeRows` gives, cleans up on exactly the multiples of 24, and sleeps in each cycle a prefix of the slice schedule |
| Service.Serve | bot_service.py:466-519 | without a truthy webhook the service returns 1 and touches nothing; otherwise it returns 0 after running every cycle, with the rows `ServeRows` gives, cleanup on exactly the multiples of 24, and each cycle's sleep a prefix of the slice schedule |

## Left out

- Network I/O: the webhook request, feed fetching with its socket timeout, and the User-Agent header. Their outcomes are inputs (`Response`, `FetchResult`).
- feedparser: entries arrive already parsed. The `bozo` warning is only logged.
- html2text is a function parameter `convert`. `\s` of the regular expressions is taken as the `str.isspace` set.
- SHA-256, UTF-8 encoding and hex formatting form one function parameter `sha`.
- SQLite: the engine, the SQL text, the connection and `rowcount` are not modelled. The table is a sequence of rows, and a table that does not exist yet has no rows.
- Wall-clock time is a parameter `now` in whole seconds. One value serves a whole pass, so rows added in the same pass share a timestamp.
- The `time.sleep(POST_DELAY)` after each delivery attempt is not modelled. The `COOLDOWN_DELAY` sleep after a 429 appears only as the `cooledDown` flag of a delivery, and the `CHECK_INTERVAL` sleep as the list of slices each cycle sleeps.
- Signal handling, the PID file, `os.makedirs`, logging and the per-category counter that is only logged are not modelled.
- Exceptions are modelled only where their effect is defined by the code: the failed unpacking of a config line, the IndexError of `get_category_emoji`, and a failing `urlparse`. Database or converter errors in the middle of a feed are not modelled.
- `main`'s stop flag is read through the list of cycles that start and each cycle's `running` oracle for its sleep. KeyboardInterrupt and the fatal-error exit code 1 are not modelled.
- `str.title()` and `str.lower()` are modelled on ASCII letters only; other characters pass unchanged. `Title` also treats every non-ASCII letter as uncased when it decides the case of the next letter: Python turns "ÉA" into "Éa", the model keeps "ÉA".
- The order of `os.environ` is an input: `ParseFeedsFromEnv` takes the environment as a sequence of pairs. The config loader's effect on that order is not modelled.
- An empty key in a config line, which `os.environ` rejects, is not modelled.
- The integer settings (`CHECK_INTERVAL`, `MAX_POST_LENGTH`, `MAX_CONTENT_LENGTH`) are inputs; their parsing from the environment with `int()` is not modelled.
- Windows path defaults and the path settings are not modelled.
- `SeenStore.Store.CleanupOldEntries`: `days` is a natural number; the SQL text the code builds from a negative value is not modelled.
- `SeenStore.Store.CleanupOldEntries`: the source returns nothing and only logs the number of deleted rows; the returned `deleted` stands for that log line.
- Each cycle's stop flag is its own oracle, unrelated to the list of cycles. So the model admits a cycle that starts after an earlier cycle's flag was cleared, which the source cannot do, because once `running` is false it never becomes true again. The model over-approximates the runs here.
