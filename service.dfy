/**
 * The cycle logic of `main` (bot_service.py:466-519): the webhook check,
 * one pass over the feeds per cycle, cleanup on every 24th cycle, and the
 * sleep split into slices of at most ten seconds so that a stop request is
 * noticed quickly.
 */
module Service {
  import opened Maybe
  import opened ConfigFile
  import opened SeenStore
  import opened Poll

  /** The longest single sleep (bot_service.py:505). */
  const SliceLength := 10

  /** Cleanup runs on every cycle whose number is a multiple of this (bot_service.py:496). */
  const PruneEvery := 24

  /** `cleanup_old_entries`'s default age limit, in days. */
  const RetentionDays := 30

  function Min(a: int, b: int): int {
    if a <= b then a else b
  }

  /** The sleeps of the loop of bot_service.py:503-506 when it is never stopped. */
  function Slices(remaining: int): seq<int>
    decreases remaining
  {
    if remaining <= 0 then [] else [Min(SliceLength, remaining)] + Slices(remaining - SliceLength)
  }

  function Sum(xs: seq<int>): int {
    if xs == [] then 0 else xs[0] + Sum(xs[1..])
  }

  /**
   * Every slice lasts between 1 and 10 seconds, the slices add up to the
   * interval (nothing for an interval of zero or less), and there are
   * `ceil(interval / 10)` of them.
   */
  lemma {:induction false} SlicesMeaning(interval: int)
    ensures forall k :: 0 <= k < |Slices(interval)| ==> 0 < Slices(interval)[k] <= SliceLength
    ensures Sum(Slices(interval)) == if interval > 0 then interval else 0
    ensures |Slices(interval)| == if interval > 0 then (interval + SliceLength - 1) / SliceLength else 0
    decreases interval
  {
    if interval > 0 {
      SlicesMeaning(interval - SliceLength);
      var s := Slices(interval);
      assert s[1..] == Slices(interval - SliceLength);
    }
  }

  /**
   * The sleep loop; `running(k)` is the stop flag as read before the k-th
   * slice. The slices taken are the first ones of `Slices(interval)`, all
   * taken while running; the loop ends early only on a cleared flag.
   */
  method SleepInSlices(interval: int, running: nat -> bool) returns (slices: seq<int>)
    ensures |slices| <= |Slices(interval)| && slices == Slices(interval)[..|slices|]
    ensures forall k :: 0 <= k < |slices| ==> running(k)
    ensures |slices| < |Slices(interval)| ==> !running(|slices|)
  {
    var sleepTime := interval;
    slices := [];
    while sleepTime > 0 && running(|slices|)
      invariant Slices(interval) == slices + Slices(sleepTime)
      invariant forall k :: 0 <= k < |slices| ==> running(k)
      decreases sleepTime
    {
      slices := slices + [Min(SliceLength, sleepTime)];
      sleepTime := sleepTime - SliceLength;
    }
    assert Slices(interval)[..|slices|] == slices;
  }

  /** Whether cycle `loopCount` (counted from 1) prunes the table. */
  predicate PruneDue(loopCount: nat) {
    loopCount % PruneEvery == 0
  }

  /** The cycle numbers from 1 to `n` that prune, in order. */
  function PruneCycles(n: nat): seq<nat> {
    if n == 0 then [] else PruneCycles(n - 1) + (if PruneDue(n) then [n] else [])
  }

  /** Exactly the multiples of 24 prune: one cycle in 24. */
  lemma {:induction false} PruneCyclesMeaning(n: nat)
    ensures forall k :: k in PruneCycles(n) <==> 1 <= k <= n && k % PruneEvery == 0
    ensures |PruneCycles(n)| == n / PruneEvery
  {
    if n > 0 {
      PruneCyclesMeaning(n - 1);
    }
  }

  /** What one cycle is given from outside: the pass's context, the fetch results and the stop flag during its sleep. */
  datatype Cycle = Cycle(ctx: Context, results: seq<seq<FetchResult>>, running: nat -> bool)

  predicate WellShaped(cycles: seq<Cycle>) {
    forall k :: 0 <= k < |cycles| ==> Shaped(cycles[k].ctx.table, cycles[k].results)
  }

  /** One cycle: the pass over the feeds, then the cleanup when the cycle number is due. */
  function CycleRows(rows: seq<Row>, loopCount: nat, c: Cycle): seq<Row>
    requires Shaped(c.ctx.table, c.results)
  {
    var r := CheckFeedsSpec(c.ctx, rows, c.results).rows;
    if PruneDue(loopCount) then Kept(r, Cutoff(c.ctx.now, RetentionDays)) else r
  }

  /** The rows after the given cycles, numbered from 1. */
  function ServeRows(rows: seq<Row>, cycles: seq<Cycle>): seq<Row>
    requires WellShaped(cycles)
  {
    if cycles == [] then rows
    else CycleRows(ServeRows(rows, cycles[..|cycles| - 1]), |cycles|, cycles[|cycles| - 1])
  }

  /** Each cycle keeps the table's hashes distinct. */
  lemma {:induction false} ServeRowsDistinct(rows: seq<Row>, cycles: seq<Cycle>)
    requires WellShaped(cycles) && DistinctHashes(rows)
    ensures DistinctHashes(ServeRows(rows, cycles))
  {
    if cycles != [] {
      var n := |cycles| - 1;
      var before := ServeRows(rows, cycles[..n]);
      ServeRowsDistinct(rows, cycles[..n]);
      CheckFeedsMeaning(cycles[n].ctx, before, cycles[n].results);
      KeptDistinct(CheckFeedsSpec(cycles[n].ctx, before, cycles[n].results).rows, Cutoff(cycles[n].ctx.now, RetentionDays));
    }
  }

  /** The body of the main loop before its sleep (bot_service.py:490-497): the pass, then the cleanup when due. */
  method RunCycle(store: Store, loopCount: nat, cycle: Cycle) returns (due: bool)
    requires store.Valid() && Shaped(cycle.ctx.table, cycle.results)
    modifies store
    ensures due == PruneDue(loopCount)
    ensures store.rows == CycleRows(old(store.rows), loopCount, cycle)
    ensures store.columns == old(store.columns) && store.Valid()
  {
    var newPosts := CheckFeeds(store, cycle.ctx, cycle.results);
    due := loopCount % PruneEvery == 0;
    if due {
      var deleted := store.CleanupOldEntries(cycle.ctx.now, RetentionDays);
    }
  }

  /** The sleeps of one cycle: a prefix of the full slice schedule. */
  predicate SchedulePrefix(interval: int, slept: seq<int>) {
    |slept| <= |Slices(interval)| && slept == Slices(interval)[..|slept|]
  }

  /**
   * The loop of bot_service.py:489-506 over the given cycles on an open
   * table: the rows `ServeRows` gives, the cycle numbers that pruned and
   * each cycle's sleeps.
   */
  method ServeLoop(store: Store, interval: int, cycles: seq<Cycle>) returns (pruned: seq<nat>, sleeps: seq<seq<int>>)
    requires store.Valid() && WellShaped(cycles)
    modifies store
    ensures store.rows == ServeRows(old(store.rows), cycles)
    ensures store.columns == old(store.columns) && store.Valid()
    ensures pruned == PruneCycles(|cycles|)
    ensures |sleeps| == |cycles| && forall k :: 0 <= k < |sleeps| ==> SchedulePrefix(interval, sleeps[k])
  {
    ghost var start := store.rows;
    pruned, sleeps := [], [];
    var loopCount := 0;
    while loopCount < |cycles|
      invariant 0 <= loopCount <= |cycles|
      invariant store.Valid() && store.columns == old(store.columns)
      invariant store.rows == ServeRows(start, cycles[..loopCount])
      invariant pruned == PruneCycles(loopCount)
      invariant |sleeps| == loopCount
      invariant forall k :: 0 <= k < loopCount ==> SchedulePrefix(interval, sleeps[k])
    {
      var cycle := cycles[loopCount];
      assert cycles[..loopCount + 1][..loopCount] == cycles[..loopCount];
      assert ServeRows(start, cycles[..loopCount + 1]) == CycleRows(store.rows, loopCount + 1, cycle);
      loopCount := loopCount + 1;
      var due := RunCycle(store, loopCount, cycle);
      if due {
        pruned := pruned + [loopCount];
      }
      var slept := SleepInSlices(interval, cycle.running);
      sleeps := sleeps + [slept];
    }
    assert cycles[..loopCount] == cycles;
  }

  /**
   * `main()` over the cycles that start before a stop is seen. Without a
   * webhook it returns 1 and touches nothing; otherwise it opens the table
   * (`existing` rows with `existingColumns`), runs every cycle, and returns 0
   * with the final rows, the cycle numbers that pruned and each cycle's sleeps.
   */
  method Serve(webhook: Option<string>, existing: seq<Row>, existingColumns: seq<string>,
               interval: int, cycles: seq<Cycle>)
    returns (code: int, rows: seq<Row>, pruned: seq<nat>, sleeps: seq<seq<int>>)
    requires DistinctHashes(existing) && (existingColumns == [] ==> existing == [])
    requires WellShaped(cycles)
    ensures !Truthy(webhook) ==> code == 1 && rows == existing && pruned == [] && sleeps == []
    ensures Truthy(webhook) ==> code == 0 && rows == ServeRows(existing, cycles) && pruned == PruneCycles(|cycles|)
    ensures Truthy(webhook) ==> |sleeps| == |cycles| && forall k :: 0 <= k < |sleeps| ==> SchedulePrefix(interval, sleeps[k])
    ensures DistinctHashes(rows)
  {
    if !Truthy(webhook) {
      return 1, existing, [], [];
    }
    var store := new Store.Open(existing, existingColumns);
    pruned, sleeps := ServeLoop(store, interval, cycles);
    return 0, store.rows, pruned, sleeps;
  }
}
