/**
 * The download manager (yt_dlp_bot/downloader/downloader.py): the three-way
 * availability verdict and the bookkeeping of running download tasks.
 *
 * yt-dlp itself is outside the model: a metadata probe is its answer (a record, or
 * the text of the exception it raised), and a running download is a task object
 * whose only state is its cancellation flag. Which tasks have completed when the
 * scheduler's bounded wait returns is an input of the tick.
 */
module Downloading {
  import opened Prelude
  import opened Store

  /** The verdict of a probe: downloadable now, at a future instant, or an error message. */
  datatype Availability = AvailableFuture(epoch: int) | AvailableNow | AvailabilityError(errorstr: string)

  /**
   * The fields of yt-dlp's info record the classifier reads. `liveStatus` is the
   * value under `live_status` if that key is present (any value other than the text
   * `is_upcoming` counts as live now); `releaseTimestamp` is what `int()` makes of
   * the value under `release_timestamp` if that key is present, or what it raised.
   */
  datatype VideoInfo = VideoInfo(liveStatus: Option<string>, releaseTimestamp: Option<Result<int>>)

  const UpcomingStatus: string := "is_upcoming"
  const NoLiveStatus: string := "No live status found in video info"
  const NoTimestamp: string := "No timestamp found in video info, cannot schedule a download"

  /** Deferred entries are pulled this many seconds before they fall due. */
  const GraceWindow: int := 120

  /** The `wait_for_video` retry bounds given to yt-dlp for deferred downloads. */
  const WaitForVideo: (int, int) := (15, 60)

  /**
   * `get_availability` on the probe's outcome. It never raises: a failed probe, a
   * missing status and an upcoming item without a usable timestamp are errors, and so
   * is a timestamp `fromtimestamp` rejects (outside the years 1 to 9999), since that
   * raise happens inside the `try`; an upcoming item with a timestamp in range is due
   * at that instant; anything else is live now.
   */
  function GetAvailability(probe: Result<VideoInfo>): (a: Availability)
    ensures probe.Err? ==> a == AvailabilityError(probe.message)
    ensures probe.Ok? && probe.value.liveStatus.None? ==> a == AvailabilityError(NoLiveStatus)
    ensures a.AvailableFuture? ==>
      && probe.Ok? && probe.value.liveStatus == Some(UpcomingStatus) && probe.value.releaseTimestamp == Some(Ok(a.epoch))
      && MinEpoch <= a.epoch <= MaxEpoch
    ensures probe.Ok? && probe.value.liveStatus == Some(UpcomingStatus) && probe.value.releaseTimestamp.Some?
            && probe.value.releaseTimestamp.value.Ok? ==>
      var t := probe.value.releaseTimestamp.value.value;
      a == if MinEpoch <= t <= MaxEpoch then AvailableFuture(t) else AvailabilityError(YearOutOfRange)
    ensures a.AvailableNow? <==>
      probe.Ok? && probe.value.liveStatus.Some? && probe.value.liveStatus.value != UpcomingStatus
    ensures probe.Ok? && probe.value.liveStatus == Some(UpcomingStatus) && probe.value.releaseTimestamp.None? ==>
      a == AvailabilityError(NoTimestamp)
    ensures probe.Ok? && probe.value.liveStatus == Some(UpcomingStatus) && probe.value.releaseTimestamp.Some?
            && probe.value.releaseTimestamp.value.Err? ==>
      a == AvailabilityError(probe.value.releaseTimestamp.value.message)
  {
    match probe
    case Err(e) => AvailabilityError(e)
    case Ok(info) =>
      if info.liveStatus.None? then AvailabilityError(NoLiveStatus)
      else if info.liveStatus.value == UpcomingStatus then
        match info.releaseTimestamp
        case None => AvailabilityError(NoTimestamp)
        case Some(Err(e)) => AvailabilityError(e)
        case Some(Ok(timestamp)) =>
          match FromTimestamp(timestamp)
          case Ok(time) => AvailableFuture(time)
          case Err(e) => AvailabilityError(e)
      else AvailableNow
  }

  /** A launched download: the `threading.Event` its progress hook polls, and its yt-dlp options. */
  class DownloadTask {
    var cancelRequested: bool
    const waitForVideo: Option<(int, int)>

    constructor (waitForVideo: Option<(int, int)>)
      ensures !cancelRequested && this.waitForVideo == waitForVideo
    {
      cancelRequested := false;
      this.waitForVideo := waitForVideo;
    }
  }

  class Downloader {
    /** The module-level `db` the downloader writes through. */
    const db: Database
    /** `current_downloads`: the task running for each url. */
    var currentDownloads: map<string, DownloadTask>

    constructor (db: Database)
      ensures this.db == db && currentDownloads == map[]
    {
      this.db := db;
      currentDownloads := map[];
    }

    /**
     * `download_async`: registers the destination when both ids are truthy, then
     * starts a task and records it under `url`, replacing any task recorded there.
     * Its one-second wait prunes nothing.
     */
    method DownloadAsync(url: string, guildId: Option<int>, channelId: Option<int>)
      modifies this, db
      ensures db.completionChannels ==
        if Truthy(guildId) && Truthy(channelId)
        then old(db.completionChannels) + {Completion(guildId.value, channelId.value, url)}
        else old(db.completionChannels)
      ensures db.futureDownloads == old(db.futureDownloads) && db.subscribedChannels == old(db.subscribedChannels)
      ensures url in currentDownloads && fresh(currentDownloads[url])
      ensures !currentDownloads[url].cancelRequested && currentDownloads[url].waitForVideo.None?
      ensures currentDownloads == old(currentDownloads)[url := currentDownloads[url]]
    {
      if Truthy(guildId) && Truthy(channelId) {
        db.AddCompletionForUrl(guildId.value, channelId.value, url);
      }
      var task := new DownloadTask(None);
      currentDownloads := currentDownloads[url := task];
    }

    /**
     * `defer_download_until_time`: upserts the deferred entry, re-arming a disabled
     * one, and registers the destination when both ids are truthy.
     */
    method DeferDownloadUntilTime(url: string, time: int, guildId: Option<int>, channelId: Option<int>)
      modifies db
      ensures db.futureDownloads == Upsert(old(db.futureDownloads), url, time)
      ensures db.completionChannels ==
        if Truthy(guildId) && Truthy(channelId)
        then old(db.completionChannels) + {Completion(guildId.value, channelId.value, url)}
        else old(db.completionChannels)
      ensures db.subscribedChannels == old(db.subscribedChannels)
    {
      db.AddFutureDownload(url, time);
      if Truthy(guildId) && Truthy(channelId) {
        db.AddCompletionForUrl(guildId.value, channelId.value, url);
      }
    }

    /**
     * One scheduler tick at instant `now`. The urls due within the grace window are
     * deleted from the store, then each gets a fresh task (with `wait_for_video`)
     * that replaces any task recorded under it. Unless no task is recorded at all,
     * the tick waits at most `loopIntervalS` seconds; `finished` is the set of urls
     * whose task had completed when that wait returned, and exactly those entries are
     * dropped. A task still running stays recorded, with its flag untouched.
     */
    method ScheduleDeferredDownloads(loopIntervalS: int, now: int, finished: set<string>) returns (waited: bool)
      modifies this, db
      ensures var due := Due(old(db.futureDownloads), GraceWindow, now);
        && db.futureDownloads == old(db.futureDownloads) - due
        && waited == (old(currentDownloads).Keys + due != {})
        && currentDownloads.Keys == old(currentDownloads).Keys + due - finished
        && (forall u | u in currentDownloads && u in due ::
              fresh(currentDownloads[u]) && !currentDownloads[u].cancelRequested
              && currentDownloads[u].waitForVideo == Some(WaitForVideo))
        && (forall u | u in currentDownloads && u !in due ::
              currentDownloads[u] == old(currentDownloads)[u]
              && currentDownloads[u].cancelRequested == old(currentDownloads[u].cancelRequested))
      ensures db.completionChannels == old(db.completionChannels) && db.subscribedChannels == old(db.subscribedChannels)
    {
      var urls := db.GetDownloadsNow(GraceWindow, now);
      DeleteEntries(urls);
      var tasks := StartDeferredTasks(urls);
      currentDownloads := currentDownloads + tasks;
      if currentDownloads == map[] {
        waited := false;
        return;
      }
      waited := true;
      // The bounded wait has returned; the finished entries are popped.
      var toDelete := FinishedEntries(finished);
      currentDownloads := currentDownloads - toDelete;
    }

    /** The tick's first loop: every selected entry is deleted before any task is created. */
    method DeleteEntries(urls: set<string>)
      modifies db
      ensures db.futureDownloads == old(db.futureDownloads) - urls
      ensures db.completionChannels == old(db.completionChannels) && db.subscribedChannels == old(db.subscribedChannels)
    {
      var pending := urls;
      while pending != {}
        invariant pending <= urls
        invariant db.futureDownloads == old(db.futureDownloads) - (urls - pending)
        invariant db.completionChannels == old(db.completionChannels)
        invariant db.subscribedChannels == old(db.subscribedChannels)
        decreases pending
      {
        var url :| url in pending;
        db.DeleteFutureDownload(url);
        pending := pending - {url};
      }
    }

    /** The tick's second loop: one fresh task, waiting for the video, per selected url. */
    method StartDeferredTasks(urls: set<string>) returns (tasks: map<string, DownloadTask>)
      ensures tasks.Keys == urls
      ensures forall u | u in tasks :: fresh(tasks[u]) && !tasks[u].cancelRequested && tasks[u].waitForVideo == Some(WaitForVideo)
    {
      tasks := map[];
      var pending := urls;
      while pending != {}
        invariant pending <= urls
        invariant tasks.Keys == urls - pending
        invariant forall u | u in tasks :: fresh(tasks[u]) && !tasks[u].cancelRequested && tasks[u].waitForVideo == Some(WaitForVideo)
        decreases pending
      {
        var url :| url in pending;
        var task := new DownloadTask(Some(WaitForVideo));
        tasks := tasks[url := task];
        pending := pending - {url};
      }
    }

    /** The tick's last loop: the recorded urls whose task had completed when the wait returned. */
    method FinishedEntries(finished: set<string>) returns (toDelete: set<string>)
      ensures toDelete == currentDownloads.Keys * finished
    {
      toDelete := {};
      var unvisited := currentDownloads.Keys;
      while unvisited != {}
        invariant unvisited <= currentDownloads.Keys
        invariant toDelete == (currentDownloads.Keys - unvisited) * finished
        decreases unvisited
      {
        var url :| url in unvisited;
        if url in finished {
          toDelete := toDelete + {url};
        }
        unvisited := unvisited - {url};
      }
    }

    /** `get_running_downloads`: the urls with a recorded task. */
    function GetRunningDownloads(): set<string>
      reads this
    {
      currentDownloads.Keys
    }

    /** `get_scheduled_downloads`: the valid deferred entries with their instants. */
    function GetScheduledDownloads(): map<string, int>
      reads this, db
    {
      db.GetAllScheduledDownloads()
    }

    /**
     * `cancel_download`: a running url gets its flag set, and nothing else changes;
     * otherwise a valid deferred entry is disabled; otherwise nothing changes. The
     * result says whether either happened.
     */
    method CancelDownload(url: string) returns (cancelled: bool)
      modifies db, if url in currentDownloads then {currentDownloads[url]} else {}
      ensures cancelled <==> url in currentDownloads || url in Scheduled(old(db.futureDownloads))
      ensures url in currentDownloads ==> currentDownloads[url].cancelRequested && unchanged(db)
      ensures url !in currentDownloads ==>
        db.futureDownloads == if cancelled then Disable(old(db.futureDownloads), url) else old(db.futureDownloads)
      ensures db.completionChannels == old(db.completionChannels) && db.subscribedChannels == old(db.subscribedChannels)
    {
      if url in currentDownloads {
        currentDownloads[url].cancelRequested := true;
        return true;
      }
      var scheduledDownloads := db.GetAllScheduledDownloads();
      if url in scheduledDownloads {
        db.DisableFutureDownload(url);
        return true;
      }
      return false;
    }
  }
}
