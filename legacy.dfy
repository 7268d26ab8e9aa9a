/**
 * The older `bot/` package. Its duration and timestamp parsers, its `download`
 * dispatch, its `scheduled-download` and `df` commands and its availability
 * classifier behave as the newer package's do and are modelled by the same members
 * (module Commands and module Downloading). What differs is the polling loop: it runs
 * the scheduler tick and never sweeps the store. The downloader it drives is the
 * newer package's `Downloader`, since the older downloader module defines none.
 */
module LegacyBot {
  import opened Prelude
  import opened Store
  import opened Downloading

  /** The store after ticks at each of `times` in turn, with no sweep between them. */
  function TicksWithoutSweep(rows: FutureTable, times: seq<int>): FutureTable
    decreases |times|
  {
    if times == [] then rows
    else TicksWithoutSweep(rows - Due(rows, GraceWindow, times[0]), times[1..])
  }

  /**
   * A disabled entry is never due, and without the sweep nothing else removes it:
   * it stays in the store, unchanged, however many ticks run.
   */
  lemma {:induction false} DisabledEntryOutlivesTicks(rows: FutureTable, times: seq<int>, url: string)
    requires url in rows && !rows[url].valid
    ensures url in TicksWithoutSweep(rows, times) && TicksWithoutSweep(rows, times)[url] == rows[url]
    decreases |times|
  {
    if times != [] {
      var next := rows - Due(rows, GraceWindow, times[0]);
      DueIsStrictAndValid(rows, GraceWindow, times[0]);
      assert url in next && next[url] == rows[url];
      DisabledEntryOutlivesTicks(next, times[1..], url);
    }
  }

  /**
   * The difference between the two polling loops: a disabled entry more than a day
   * old is gone after one newer tick-and-sweep, and still present after an older tick.
   */
  lemma SweepIsWhatDiffers(rows: FutureTable, now: int, later: int, url: string)
    requires url in rows && !rows[url].valid && rows[url].utcepoch < later - StalenessWindow
    ensures url in rows - Due(rows, GraceWindow, now)
    ensures url !in Sweep(rows - Due(rows, GraceWindow, now), later)
  {
    DueIsStrictAndValid(rows, GraceWindow, now);
  }

  /** The older `YtDl` cog, reduced to its polling loop. */
  class LegacyYtDl {
    const downloader: Downloader

    constructor (db: Database)
      ensures fresh(downloader) && downloader.db == db && downloader.currentDownloads == map[]
    {
      downloader := new Downloader(db);
    }

    /**
     * One run of the older polling loop: only the scheduler tick at `now`. The due
     * entries leave the store and nothing else does; in particular every disabled
     * entry is kept, whatever its age.
     */
    method CheckTasks(pollingIntervalS: int, now: int, finished: set<string>)
      modifies downloader, downloader.db
      ensures var due := Due(old(downloader.db.futureDownloads), GraceWindow, now);
        && downloader.db.futureDownloads == old(downloader.db.futureDownloads) - due
        && downloader.currentDownloads.Keys == old(downloader.currentDownloads).Keys + due - finished
        && (forall u | u in downloader.currentDownloads && u in due ::
              fresh(downloader.currentDownloads[u]) && !downloader.currentDownloads[u].cancelRequested
              && downloader.currentDownloads[u].waitForVideo == Some(WaitForVideo))
        && (forall u | u in downloader.currentDownloads && u !in due ::
              downloader.currentDownloads[u] == old(downloader.currentDownloads)[u]
              && downloader.currentDownloads[u].cancelRequested == old(downloader.currentDownloads[u].cancelRequested))
      ensures forall u | u in old(downloader.db.futureDownloads) && !old(downloader.db.futureDownloads)[u].valid ::
        u in downloader.db.futureDownloads && downloader.db.futureDownloads[u] == old(downloader.db.futureDownloads)[u]
      ensures downloader.db.completionChannels == old(downloader.db.completionChannels)
      ensures downloader.db.subscribedChannels == old(downloader.db.subscribedChannels)
    {
      var _ := downloader.ScheduleDeferredDownloads(pollingIntervalS, now, finished);
      DueIsStrictAndValid(old(downloader.db.futureDownloads), GraceWindow, now);
    }
  }
}
