/**
 * `check_feeds` (bot_service.py:403-453): one pass over every feed of the
 * table, delivering each unseen entry among a feed's first five and
 * recording it once delivered.
 */
module Poll {
  import opened Maybe
  import opened Feeds
  import opened FeedEntry
  import opened Formatter
  import opened Delivery
  import opened SeenStore

  /** What fetching a feed gave: a network error, data without entries, or the parsed entries. */
  datatype FetchResult = FetchError | InvalidFeed | Fetched(entries: seq<Entry>)

  /**
   * What a pass takes from outside: the feed table, the post limits, the
   * hash, the HTML converter, the host part `urlparse` gives for a URL, the
   * webhook's response to the n-th delivery of the pass, and the time.
   */
  datatype Context = Context(
    table: FeedTable,
    limits: Limits,
    sha: string -> string,
    convert: string -> string,
    netloc: string -> Option<string>,
    respond: nat -> Response,
    now: int)

  /** One call of `post_to_discord`: the entry's hash and whether it reported success. */
  datatype Attempt = Attempt(hash: string, delivered: bool)

  /** The table's rows, and every delivery tried so far in the pass. */
  datatype PollState = PollState(rows: seq<Row>, log: seq<Attempt>)

  /** How many entries of a feed are looked at (`feed.entries[:5]`). */
  const EntriesPerFeed := 5

  function Recent(entries: seq<Entry>): seq<Entry> {
    if |entries| <= EntriesPerFeed then entries else entries[..EntriesPerFeed]
  }

  /** The hashes of some rows, in order. */
  function Hashes(rows: seq<Row>): seq<string> {
    if rows == [] then [] else Hashes(rows[..|rows| - 1]) + [rows[|rows| - 1].hash]
  }

  /** The hashes of the successful deliveries, in order. */
  function DeliveredHashes(log: seq<Attempt>): seq<string> {
    if log == [] then []
    else DeliveredHashes(log[..|log| - 1]) + (if log[|log| - 1].delivered then [log[|log| - 1].hash] else [])
  }

  /** The number of successful deliveries. */
  function Delivered(log: seq<Attempt>): nat {
    |DeliveredHashes(log)|
  }

  /** One entry (bot_service.py:433-443): skip it if seen, else deliver it and record it on success. */
  function EntryStep(ctx: Context, st: PollState, source: string, emoji: string, e: Entry): PollState {
    var h := HashEntry(ctx.sha, e);
    if Posted(st.rows, h) then st
    else
      var outcome := PostToDiscord(FormatPost(ctx.limits, ctx.convert, e, source, emoji), ctx.respond(|st.log|));
      PollState(
        if outcome.delivered then st.rows + [Row(h, ctx.now, e.title.GetOr(""), source)] else st.rows,
        st.log + [Attempt(h, outcome.delivered)])
  }

  /** The entries of one feed, in order. */
  function RunEntries(ctx: Context, st: PollState, source: string, emoji: string, es: seq<Entry>): PollState {
    if es == [] then st
    else EntryStep(ctx, RunEntries(ctx, st, source, emoji, es[..|es| - 1]), source, emoji, es[|es| - 1])
  }

  /**
   * One feed (bot_service.py:410-447): a fetch error or invalid data skips
   * it, and so does a category with no emoji token (the IndexError of
   * `get_category_emoji`, caught by the loop).
   */
  function FeedStep(ctx: Context, st: PollState, url: string, result: FetchResult): PollState {
    match result
    case Fetched(entries) =>
      (match CategoryEmoji(ctx.table, url)
       case None => st
       case Some(emoji) => RunEntries(ctx, st, SourceName(url, ctx.netloc(url)), emoji, Recent(entries)))
    case _ => st
  }

  /** The feeds of one category, with their fetch results. */
  function RunFeeds(ctx: Context, st: PollState, urls: seq<string>, results: seq<FetchResult>): PollState
    requires |urls| == |results|
  {
    if urls == [] then st
    else
      var n := |urls| - 1;
      FeedStep(ctx, RunFeeds(ctx, st, urls[..n], results[..n]), urls[n], results[n])
  }

  /** One fetch result per URL of each category. */
  predicate Shaped(groups: FeedTable, results: seq<seq<FetchResult>>) {
    |groups| == |results| && forall g :: 0 <= g < |groups| ==> |results[g]| == |groups[g].urls|
  }

  /** The categories in table order. */
  function RunGroups(ctx: Context, st: PollState, groups: FeedTable, results: seq<seq<FetchResult>>): PollState
    requires Shaped(groups, results)
  {
    if groups == [] then st
    else
      var n := |groups| - 1;
      RunFeeds(ctx, RunGroups(ctx, st, groups[..n], results[..n]), groups[n].urls, results[n])
  }

  /** The pass over the whole table, from the stored rows and no deliveries yet. */
  function CheckFeedsSpec(ctx: Context, rows: seq<Row>, results: seq<seq<FetchResult>>): PollState
    requires Shaped(ctx.table, results)
  {
    RunGroups(ctx, PollState(rows, []), ctx.table, results)
  }

  /**
   * `b` is `a` after some steps: rows and log only grow, the new rows are
   * exactly the successful deliveries, nothing already stored was delivered
   * again, and hashes stay distinct.
   */
  predicate Follows(a: PollState, b: PollState) {
    && |a.rows| <= |b.rows| && b.rows[..|a.rows|] == a.rows
    && |a.log| <= |b.log| && b.log[..|a.log|] == a.log
    && Hashes(b.rows[|a.rows|..]) == DeliveredHashes(b.log[|a.log|..])
    && (forall k :: |a.log| <= k < |b.log| ==> !Posted(a.rows, b.log[k].hash))
    && (DistinctHashes(a.rows) ==> DistinctHashes(b.rows))
  }

  lemma {:induction false} HashesAppend(a: seq<Row>, b: seq<Row>)
    ensures Hashes(a + b) == Hashes(a) + Hashes(b)
    decreases |b|
  {
    if b == [] {
      assert a + b == a;
    } else {
      var n := |b| - 1;
      assert (a + b)[..|a + b| - 1] == a + b[..n];
      HashesAppend(a, b[..n]);
    }
  }

  lemma {:induction false} DeliveredHashesAppend(a: seq<Attempt>, b: seq<Attempt>)
    ensures DeliveredHashes(a + b) == DeliveredHashes(a) + DeliveredHashes(b)
    decreases |b|
  {
    if b == [] {
      assert a + b == a;
    } else {
      var n := |b| - 1;
      assert (a + b)[..|a + b| - 1] == a + b[..n];
      DeliveredHashesAppend(a, b[..n]);
    }
  }

  lemma FollowsReflexive(a: PollState)
    ensures Follows(a, a)
  {
    assert a.rows[|a.rows|..] == [] && a.log[|a.log|..] == [];
  }

  lemma FollowsTransitive(a: PollState, b: PollState, c: PollState)
    requires Follows(a, b) && Follows(b, c)
    ensures Follows(a, c)
  {
    assert c.rows[..|a.rows|] == c.rows[..|b.rows|][..|a.rows|];
    assert c.log[..|a.log|] == c.log[..|b.log|][..|a.log|];
    assert c.rows[|a.rows|..] == b.rows[|a.rows|..] + c.rows[|b.rows|..];
    assert c.log[|a.log|..] == b.log[|a.log|..] + c.log[|b.log|..];
    HashesAppend(b.rows[|a.rows|..], c.rows[|b.rows|..]);
    DeliveredHashesAppend(b.log[|a.log|..], c.log[|b.log|..]);
    forall k | |a.log| <= k < |c.log|
      ensures !Posted(a.rows, c.log[k].hash)
    {
      if k < |b.log| {
        assert c.log[k] == b.log[k];
      } else {
        PostedPrefix(a.rows, b.rows, c.log[k].hash);
      }
    }
  }

  /** A hash stored among some rows is still stored once rows are appended. */
  lemma PostedPrefix(a: seq<Row>, b: seq<Row>, h: string)
    requires |a| <= |b| && b[..|a|] == a
    ensures Posted(a, h) ==> Posted(b, h)
  {
    if Posted(a, h) {
      var i :| 0 <= i < |a| && a[i].hash == h;
      assert b[i] == a[i];
    }
  }

  lemma EntryStepFollows(ctx: Context, st: PollState, source: string, emoji: string, e: Entry)
    ensures Follows(st, EntryStep(ctx, st, source, emoji, e))
    ensures |EntryStep(ctx, st, source, emoji, e).log| <= |st.log| + 1
  {
    var h := HashEntry(ctx.sha, e);
    if Posted(st.rows, h) {
      FollowsReflexive(st);
    } else {
      var outcome := PostToDiscord(FormatPost(ctx.limits, ctx.convert, e, source, emoji), ctx.respond(|st.log|));
      AttemptFollows(st, Row(h, ctx.now, e.title.GetOr(""), source), outcome.delivered);
    }
  }

  /**
   * One entry, by its hash: an entry already stored changes nothing; an
   * unseen one costs exactly one attempt, and is stored (with the pass's
   * time, its title and the source) exactly when the webhook answered with a
   * status outside 400-599.
   */
  lemma EntryStepMeaning(ctx: Context, st: PollState, source: string, emoji: string, e: Entry)
    ensures var h := HashEntry(ctx.sha, e);
      Posted(st.rows, h) ==> EntryStep(ctx, st, source, emoji, e) == st
    ensures var h := HashEntry(ctx.sha, e);
      var r := EntryStep(ctx, st, source, emoji, e);
      var response := ctx.respond(|st.log|);
      var ok := response.Status? && !IsHttpError(response.code);
      !Posted(st.rows, h) ==>
        && r.log == st.log + [Attempt(h, ok)]
        && r.rows == st.rows + (if ok then [Row(h, ctx.now, e.title.GetOr(""), source)] else [])
  {
    var text := FormatPost(ctx.limits, ctx.convert, e, source, emoji);
    FormatPostNotBlank(ctx.limits, ctx.convert, e, source, emoji);
    PostToDiscordMeaning(text, ctx.respond(|st.log|));
  }

  /** The hash is stored, or a delivery of it was tried. */
  predicate Covered(st: PollState, h: string) {
    Posted(st.rows, h) || exists k :: 0 <= k < |st.log| && st.log[k].hash == h
  }

  /** Later states keep every hash covered. */
  lemma FollowsKeepsCovered(a: PollState, b: PollState, h: string)
    requires Follows(a, b) && Covered(a, h)
    ensures Covered(b, h)
  {
    PostedPrefix(a.rows, b.rows, h);
    if !Posted(a.rows, h) {
      var k :| 0 <= k < |a.log| && a.log[k].hash == h;
      assert b.log[k] == a.log[k];
    }
  }

  /** After its step, an entry's hash is covered. */
  lemma EntryStepCovers(ctx: Context, st: PollState, source: string, emoji: string, e: Entry)
    ensures Covered(EntryStep(ctx, st, source, emoji, e), HashEntry(ctx.sha, e))
  {
    var h := HashEntry(ctx.sha, e);
    var r := EntryStep(ctx, st, source, emoji, e);
    if !Posted(st.rows, h) {
      assert r.log[|st.log|].hash == h;
    }
  }

  /** Every entry of a feed ends up covered. */
  lemma {:induction false} RunEntriesCovers(ctx: Context, st: PollState, source: string, emoji: string, es: seq<Entry>, m: nat)
    requires m < |es|
    ensures Covered(RunEntries(ctx, st, source, emoji, es), HashEntry(ctx.sha, es[m]))
    decreases |es|
  {
    var n := |es| - 1;
    var mid := RunEntries(ctx, st, source, emoji, es[..n]);
    if m == n {
      EntryStepCovers(ctx, mid, source, emoji, es[n]);
    } else {
      assert es[..n][m] == es[m];
      RunEntriesCovers(ctx, st, source, emoji, es[..n], m);
      EntryStepFollows(ctx, mid, source, emoji, es[n]);
      FollowsKeepsCovered(mid, RunEntries(ctx, st, source, emoji, es), HashEntry(ctx.sha, es[m]));
    }
  }

  /** The entry at `(g, f, m)`: among the first five of feed `f` of group `g`, which was fetched. */
  predicate FetchedEntry(groups: FeedTable, results: seq<seq<FetchResult>>, g: nat, f: nat, m: nat) {
    && g < |groups| && g < |results| && f < |groups[g].urls| && f < |results[g]|
    && results[g][f].Fetched? && m < |results[g][f].entries| && m < EntriesPerFeed
  }

  /** Every entry among the first five of a fetched feed with an emoji ends up covered. */
  lemma FeedStepCovers(ctx: Context, st: PollState, url: string, result: FetchResult, m: nat)
    requires result.Fetched? && m < |result.entries| && m < EntriesPerFeed
    requires CategoryEmoji(ctx.table, url).Some?
    ensures Covered(FeedStep(ctx, st, url, result), HashEntry(ctx.sha, result.entries[m]))
  {
    var recent := Recent(result.entries);
    assert recent[m] == result.entries[m];
    FeedStepCases(ctx, st, url, result);
    RunEntriesCovers(ctx, st, SourceName(url, ctx.netloc(url)), CategoryEmoji(ctx.table, url).value, recent, m);
  }

  lemma {:induction false} RunFeedsCovers(ctx: Context, st: PollState, urls: seq<string>, results: seq<FetchResult>, f: nat, m: nat)
    requires |urls| == |results| && f < |urls|
    requires results[f].Fetched? && m < |results[f].entries| && m < EntriesPerFeed
    requires CategoryEmoji(ctx.table, urls[f]).Some?
    ensures Covered(RunFeeds(ctx, st, urls, results), HashEntry(ctx.sha, results[f].entries[m]))
    decreases |urls|
  {
    var n := |urls| - 1;
    var mid := RunFeeds(ctx, st, urls[..n], results[..n]);
    if f == n {
      FeedStepCovers(ctx, mid, urls[n], results[n], m);
    } else {
      assert urls[..n][f] == urls[f] && results[..n][f] == results[f];
      RunFeedsCovers(ctx, st, urls[..n], results[..n], f, m);
      FeedStepFollows(ctx, mid, urls[n], results[n]);
      FollowsKeepsCovered(mid, RunFeeds(ctx, st, urls, results), HashEntry(ctx.sha, results[f].entries[m]));
    }
  }

  lemma {:induction false} RunGroupsCovers(ctx: Context, st: PollState, groups: FeedTable, results: seq<seq<FetchResult>>,
                                           g: nat, f: nat, m: nat)
    requires Shaped(groups, results) && FetchedEntry(groups, results, g, f, m)
    requires CategoryEmoji(ctx.table, groups[g].urls[f]).Some?
    ensures Covered(RunGroups(ctx, st, groups, results), HashEntry(ctx.sha, results[g][f].entries[m]))
    decreases |groups|
  {
    var n := |groups| - 1;
    var mid := RunGroups(ctx, st, groups[..n], results[..n]);
    if g == n {
      RunFeedsCovers(ctx, mid, groups[n].urls, results[n], f, m);
    } else {
      assert groups[..n][g] == groups[g] && results[..n][g] == results[g];
      RunGroupsCovers(ctx, st, groups[..n], results[..n], g, f, m);
      RunFeedsFollows(ctx, mid, groups[n].urls, results[n]);
      FollowsKeepsCovered(mid, RunGroups(ctx, st, groups, results), HashEntry(ctx.sha, results[g][f].entries[m]));
    }
  }

  /**
   * Nothing is silently dropped: on a labelled table (every table the
   * service builds is one), each entry among the first five of a feed that
   * was fetched ends the pass stored, or with a delivery of it tried.
   */
  lemma CheckFeedsCovers(ctx: Context, rows: seq<Row>, results: seq<seq<FetchResult>>, g: nat, f: nat, m: nat)
    requires Shaped(ctx.table, results) && Labelled(ctx.table)
    requires FetchedEntry(ctx.table, results, g, f, m)
    ensures Covered(CheckFeedsSpec(ctx, rows, results), HashEntry(ctx.sha, results[g][f].entries[m]))
  {
    CategoryEmojiMeaning(ctx.table, ctx.table[g].urls[f]);
    RunGroupsCovers(ctx, PollState(rows, []), ctx.table, results, g, f, m);
  }

  /** One delivery tried for an unseen hash, its row added exactly when it succeeded. */
  lemma AttemptFollows(st: PollState, row: Row, delivered: bool)
    requires !Posted(st.rows, row.hash)
    ensures Follows(st, PollState(if delivered then st.rows + [row] else st.rows, st.log + [Attempt(row.hash, delivered)]))
  {
    var rows := if delivered then st.rows + [row] else st.rows;
    var log := st.log + [Attempt(row.hash, delivered)];
    assert log[|st.log|..] == [Attempt(row.hash, delivered)];
    assert log[..|st.log|] == st.log;
    assert rows[..|st.rows|] == st.rows;
    assert DeliveredHashes([Attempt(row.hash, delivered)]) == if delivered then [row.hash] else [];
    if delivered {
      assert rows[|st.rows|..] == [row];
      assert Hashes([row]) == [row.hash];
    } else {
      assert rows[|st.rows|..] == [];
    }
  }

  /** A feed's entries: the invariant holds, and each entry costs at most one delivery. */
  lemma {:induction false} RunEntriesFollows(ctx: Context, st: PollState, source: string, emoji: string, es: seq<Entry>)
    ensures Follows(st, RunEntries(ctx, st, source, emoji, es))
    ensures |RunEntries(ctx, st, source, emoji, es).log| <= |st.log| + |es|
  {
    if es == [] {
      FollowsReflexive(st);
    } else {
      var mid := RunEntries(ctx, st, source, emoji, es[..|es| - 1]);
      RunEntriesFollows(ctx, st, source, emoji, es[..|es| - 1]);
      EntryStepFollows(ctx, mid, source, emoji, es[|es| - 1]);
      FollowsTransitive(st, mid, RunEntries(ctx, st, source, emoji, es));
    }
  }

  /** The two outcomes of a feed: its first entries processed, or nothing at all. */
  lemma FeedStepCases(ctx: Context, st: PollState, url: string, result: FetchResult)
    ensures var emoji := CategoryEmoji(ctx.table, url);
      FeedStep(ctx, st, url, result) ==
        if result.Fetched? && emoji.Some?
        then RunEntries(ctx, st, SourceName(url, ctx.netloc(url)), emoji.value, Recent(result.entries))
        else st
  {
  }

  /** One feed: the invariant holds, and at most five deliveries are tried. */
  lemma FeedStepFollows(ctx: Context, st: PollState, url: string, result: FetchResult)
    ensures Follows(st, FeedStep(ctx, st, url, result))
    ensures |FeedStep(ctx, st, url, result).log| <= |st.log| + EntriesPerFeed
  {
    var emoji := CategoryEmoji(ctx.table, url);
    if result.Fetched? && emoji.Some? {
      RunEntriesFollows(ctx, st, SourceName(url, ctx.netloc(url)), emoji.value, Recent(result.entries));
    } else {
      FollowsReflexive(st);
    }
  }

  lemma {:induction false} RunFeedsFollows(ctx: Context, st: PollState, urls: seq<string>, results: seq<FetchResult>)
    requires |urls| == |results|
    ensures Follows(st, RunFeeds(ctx, st, urls, results))
    ensures |RunFeeds(ctx, st, urls, results).log| <= |st.log| + EntriesPerFeed * |urls|
  {
    if urls == [] {
      FollowsReflexive(st);
    } else {
      var n := |urls| - 1;
      var mid := RunFeeds(ctx, st, urls[..n], results[..n]);
      RunFeedsFollows(ctx, st, urls[..n], results[..n]);
      FeedStepFollows(ctx, mid, urls[n], results[n]);
      FollowsTransitive(st, mid, RunFeeds(ctx, st, urls, results));
    }
  }

  /** The number of feed URLs in a table. */
  function FeedCount(groups: FeedTable): nat {
    if groups == [] then 0 else FeedCount(groups[..|groups| - 1]) + |groups[|groups| - 1].urls|
  }

  lemma {:induction false} RunGroupsFollows(ctx: Context, st: PollState, groups: FeedTable, results: seq<seq<FetchResult>>)
    requires Shaped(groups, results)
    ensures Follows(st, RunGroups(ctx, st, groups, results))
    ensures |RunGroups(ctx, st, groups, results).log| <= |st.log| + EntriesPerFeed * FeedCount(groups)
  {
    if groups != [] {
      var n := |groups| - 1;
      var mid := RunGroups(ctx, st, groups[..n], results[..n]);
      RunGroupsFollows(ctx, st, groups[..n], results[..n]);
      RunFeedsFollows(ctx, mid, groups[n].urls, results[n]);
      FollowsTransitive(st, mid, RunGroups(ctx, st, groups, results));
    } else {
      FollowsReflexive(st);
    }
  }

  /**
   * What a pass guarantees: stored rows are kept, the new rows are exactly the
   * successful deliveries in order (so the count of new posts equals the rows
   * added), no stored entry is delivered again, no hash is stored twice, and
   * at most five deliveries are tried per feed.
   */
  lemma CheckFeedsMeaning(ctx: Context, rows: seq<Row>, results: seq<seq<FetchResult>>)
    requires Shaped(ctx.table, results)
    ensures var st := CheckFeedsSpec(ctx, rows, results);
      && |rows| <= |st.rows| && st.rows[..|rows|] == rows
      && Hashes(st.rows[|rows|..]) == DeliveredHashes(st.log)
      && |st.rows| - |rows| == Delivered(st.log)
      && (forall k :: 0 <= k < |st.log| ==> !Posted(rows, st.log[k].hash))
      && (DistinctHashes(rows) ==> DistinctHashes(st.rows))
      && |st.log| <= EntriesPerFeed * FeedCount(ctx.table)
  {
    var st0 := PollState(rows, []);
    RunGroupsFollows(ctx, st0, ctx.table, results);
    var st := CheckFeedsSpec(ctx, rows, results);
    assert st.log[0..] == st.log;
    HashesLength(st.rows[|rows|..]);
  }

  lemma {:induction false} HashesLength(rows: seq<Row>)
    ensures |Hashes(rows)| == |rows|
  {
    if rows != [] {
      HashesLength(rows[..|rows| - 1]);
    }
  }

  /** A feed whose entries were all posted before changes nothing and sends nothing. */
  lemma {:induction false} SeenEntriesChangeNothing(ctx: Context, st: PollState, source: string, emoji: string, es: seq<Entry>)
    requires forall k :: 0 <= k < |es| ==> Posted(st.rows, HashEntry(ctx.sha, es[k]))
    ensures RunEntries(ctx, st, source, emoji, es) == st
  {
    if es != [] {
      SeenEntriesChangeNothing(ctx, st, source, emoji, es[..|es| - 1]);
    }
  }

  lemma {:induction false} RunFeedsAppend(ctx: Context, st: PollState, u1: seq<string>, u2: seq<string>, r1: seq<FetchResult>, r2: seq<FetchResult>)
    requires |u1| == |r1| && |u2| == |r2|
    ensures RunFeeds(ctx, st, u1 + u2, r1 + r2) == RunFeeds(ctx, RunFeeds(ctx, st, u1, r1), u2, r2)
    decreases |u2|
  {
    if u2 == [] {
      assert u1 + u2 == u1 && r1 + r2 == r1;
    } else {
      var n := |u2| - 1;
      assert (u1 + u2)[..|u1 + u2| - 1] == u1 + u2[..n];
      assert (r1 + r2)[..|r1 + r2| - 1] == r1 + r2[..n];
      assert (u1 + u2)[|u1 + u2| - 1] == u2[n] && (r1 + r2)[|r1 + r2| - 1] == r2[n];
      var mid := RunFeeds(ctx, st, u1, r1);
      RunFeedsAppend(ctx, st, u1, u2[..n], r1, r2[..n]);
      calc {
        RunFeeds(ctx, st, u1 + u2, r1 + r2);
        FeedStep(ctx, RunFeeds(ctx, st, u1 + u2[..n], r1 + r2[..n]), u2[n], r2[n]);
        FeedStep(ctx, RunFeeds(ctx, mid, u2[..n], r2[..n]), u2[n], r2[n]);
        RunFeeds(ctx, mid, u2, r2);
      }
    }
  }

  /**
   * A feed that fails to fetch or yields no entries is skipped without
   * affecting the feeds after it: the pass is the same as without it.
   */
  lemma FailedFeedIsSkipped(ctx: Context, st: PollState, u1: seq<string>, url: string, u2: seq<string>,
                            r1: seq<FetchResult>, failure: FetchResult, r2: seq<FetchResult>)
    requires |u1| == |r1| && |u2| == |r2|
    requires failure == FetchError || failure == InvalidFeed
    ensures RunFeeds(ctx, st, u1 + [url] + u2, r1 + [failure] + r2) == RunFeeds(ctx, st, u1 + u2, r1 + r2)
  {
    RunFeedsAppend(ctx, st, u1 + [url], u2, r1 + [failure], r2);
    RunFeedsAppend(ctx, st, u1, [url], r1, [failure]);
    RunFeedsAppend(ctx, st, u1, u2, r1, r2);
    assert [url][..0] == [] && [failure][..0] == [];
  }

  /** One entry of a feed (bot_service.py:433-443): skipped if seen, else delivered and recorded on success. */
  method ProcessEntry(store: Store, ctx: Context, source: string, emoji: string, e: Entry,
                      ghost log0: seq<Attempt>, attempts0: nat, total0: nat)
    returns (ghost log: seq<Attempt>, attempts: nat, totalNew: nat)
    requires store.Valid() && attempts0 == |log0| && total0 == Delivered(log0)
    modifies store
    ensures PollState(store.rows, log) == EntryStep(ctx, PollState(old(store.rows), log0), source, emoji, e)
    ensures attempts == |log| && totalNew == Delivered(log)
    ensures store.Valid() && store.columns == old(store.columns)
  {
    log, attempts, totalNew := log0, attempts0, total0;
    var h := HashEntry(ctx.sha, e);
    if !store.HasPosted(h) {
      var text := FormatPost(ctx.limits, ctx.convert, e, source, emoji);
      var outcome := PostToDiscord(text, ctx.respond(attempts));
      if outcome.delivered {
        store.MarkPosted(h, e.title.GetOr(""), source, ctx.now);
        totalNew := totalNew + 1;
      }
      DeliveredSnoc(log, Attempt(h, outcome.delivered));
      log := log + [Attempt(h, outcome.delivered)];
      attempts := attempts + 1;
    }
  }

  /** One more attempt counts once more exactly when it was delivered. */
  lemma DeliveredSnoc(log: seq<Attempt>, a: Attempt)
    ensures Delivered(log + [a]) == Delivered(log) + (if a.delivered then 1 else 0)
  {
    assert (log + [a])[..|log|] == log;
  }

  /** The loop of bot_service.py:432-443 over one feed's first entries. */
  method ProcessEntries(store: Store, ctx: Context, source: string, emoji: string, recent: seq<Entry>,
                        ghost log0: seq<Attempt>, attempts0: nat, total0: nat)
    returns (ghost log: seq<Attempt>, attempts: nat, totalNew: nat)
    requires store.Valid() && attempts0 == |log0| && total0 == Delivered(log0)
    modifies store
    ensures PollState(store.rows, log) == RunEntries(ctx, PollState(old(store.rows), log0), source, emoji, recent)
    ensures attempts == |log| && totalNew == Delivered(log)
    ensures store.Valid() && store.columns == old(store.columns)
  {
    ghost var start := PollState(store.rows, log0);
    log, attempts, totalNew := log0, attempts0, total0;
    var k := 0;
    while k < |recent|
      invariant 0 <= k <= |recent|
      invariant store.Valid() && store.columns == old(store.columns)
      invariant PollState(store.rows, log) == RunEntries(ctx, start, source, emoji, recent[..k])
      invariant attempts == |log| && totalNew == Delivered(log)
    {
      assert recent[..k + 1][..k] == recent[..k];
      log, attempts, totalNew := ProcessEntry(store, ctx, source, emoji, recent[k], log, attempts, totalNew);
      k := k + 1;
    }
    assert recent[..k] == recent;
  }

  /** One feed of a category (bot_service.py:411-447): fetched, given an emoji, its first entries processed. */
  method ProcessFeed(store: Store, ctx: Context, url: string, result: FetchResult,
                     ghost log0: seq<Attempt>, attempts0: nat, total0: nat)
    returns (ghost log: seq<Attempt>, attempts: nat, totalNew: nat)
    requires store.Valid() && attempts0 == |log0| && total0 == Delivered(log0)
    modifies store
    ensures PollState(store.rows, log) == FeedStep(ctx, PollState(old(store.rows), log0), url, result)
    ensures attempts == |log| && totalNew == Delivered(log)
    ensures store.Valid() && store.columns == old(store.columns)
  {
    log, attempts, totalNew := log0, attempts0, total0;
    FeedStepCases(ctx, PollState(store.rows, log0), url, result);
    if result.Fetched? {
      var emoji := CategoryEmoji(ctx.table, url);
      if emoji.Some? {
        var source := SourceName(url, ctx.netloc(url));
        log, attempts, totalNew := ProcessEntries(store, ctx, source, emoji.value, Recent(result.entries), log, attempts, totalNew);
      }
    }
  }

  /** The loop of bot_service.py:410-447 over the feeds of one category. */
  method ProcessCategory(store: Store, ctx: Context, urls: seq<string>, results: seq<FetchResult>,
                         ghost log0: seq<Attempt>, attempts0: nat, total0: nat)
    returns (ghost log: seq<Attempt>, attempts: nat, totalNew: nat)
    requires |urls| == |results|
    requires store.Valid() && attempts0 == |log0| && total0 == Delivered(log0)
    modifies store
    ensures PollState(store.rows, log) == RunFeeds(ctx, PollState(old(store.rows), log0), urls, results)
    ensures attempts == |log| && totalNew == Delivered(log)
    ensures store.Valid() && store.columns == old(store.columns)
  {
    ghost var start := PollState(store.rows, log0);
    log, attempts, totalNew := log0, attempts0, total0;
    var f := 0;
    while f < |urls|
      invariant 0 <= f <= |urls|
      invariant store.Valid() && store.columns == old(store.columns)
      invariant PollState(store.rows, log) == RunFeeds(ctx, start, urls[..f], results[..f])
      invariant attempts == |log| && totalNew == Delivered(log)
    {
      assert urls[..f + 1][..f] == urls[..f];
      assert results[..f + 1][..f] == results[..f];
      log, attempts, totalNew := ProcessFeed(store, ctx, urls[f], results[f], log, attempts, totalNew);
      f := f + 1;
    }
    assert urls[..f] == urls && results[..f] == results;
  }

  /**
   * `check_feeds(conn)` over the stored table: the feeds are visited in table
   * order, each one's fetch result taken from `results`; returns the number
   * of new posts.
   */
  method CheckFeeds(store: Store, ctx: Context, results: seq<seq<FetchResult>>) returns (totalNew: nat)
    requires store.Valid() && Shaped(ctx.table, results)
    modifies store
    ensures store.rows == CheckFeedsSpec(ctx, old(store.rows), results).rows
    ensures totalNew == Delivered(CheckFeedsSpec(ctx, old(store.rows), results).log)
    ensures store.columns == old(store.columns) && store.Valid()
  {
    var st0 := PollState(store.rows, []);
    ghost var log: seq<Attempt> := [];
    var attempts := 0;
    totalNew := 0;
    var g := 0;
    while g < |ctx.table|
      invariant 0 <= g <= |ctx.table|
      invariant store.Valid() && store.columns == old(store.columns)
      invariant PollState(store.rows, log) == RunGroups(ctx, st0, ctx.table[..g], results[..g])
      invariant attempts == |log| && totalNew == Delivered(log)
    {
      log, attempts, totalNew := ProcessCategory(store, ctx, ctx.table[g].urls, results[g], log, attempts, totalNew);
      assert ctx.table[..g + 1][..g] == ctx.table[..g];
      assert results[..g + 1][..g] == results[..g];
      g := g + 1;
    }
    assert ctx.table[..g] == ctx.table && results[..g] == results;
  }
}
