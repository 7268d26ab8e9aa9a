/**
 * The bot's sqlite store (yt_dlp_bot/database.py) as in-memory tables.
 *
 * `future_downloads` is unique per url, so it is a map from url to its row;
 * `completion_channels` and `subscribed_channels` carry UNIQUE constraints over
 * all their columns, so they are sets of rows. sqlite's `unixepoch()` is the
 * parameter `now`. Every SQL statement is first given as a pure function on the
 * table it changes; the `Database` methods apply those functions to their fields.
 */
module Store {
  import opened Prelude
  import opened Text

  /** The two kinds of YouTube waiting room; `Value` is the text stored in `room_kind`. */
  datatype RoomKind = Stream | Premiere {
    function Value(): string {
      match this
      case Stream => "streams"
      case Premiere => "videos"
    }
  }

  /** A waiting-room notification as the event feed reports it. */
  datatype WaitingRoom = WaitingRoom(channelId: string, videoId: string, title: string, kind: RoomKind, utcepoch: int)

  /** A row of `completion_channels`. */
  datatype Completion = Completion(guildId: int, channelId: int, url: string)

  /** The non-key columns of a `future_downloads` row. */
  datatype FutureDownload = FutureDownload(utcepoch: int, valid: bool)

  /** A row of `subscribed_channels`: the lower-cased channel id and the room kind's text. */
  datatype Subscription = Subscription(channelId: string, roomKind: string)

  type FutureTable = map<string, FutureDownload>

  /** Rows whose instant lies more than this many seconds in the past are swept. */
  const StalenessWindow: int := 86400

  const WatchUrlPrefix: string := "https://www.youtube.com/watch?v="

  // ---------------------------------------------------------------------------
  // The statements, as functions on table values
  // ---------------------------------------------------------------------------

  /** `INSERT ... ON CONFLICT(url) DO UPDATE SET utcepoch, valid`: the row for `url` becomes (`epoch`, valid). */
  function Upsert(rows: FutureTable, url: string, epoch: int): FutureTable {
    rows[url := FutureDownload(epoch, true)]
  }

  /** `DELETE ... WHERE (utcepoch - unixepoch()) < -86400`. */
  function Sweep(rows: FutureTable, now: int): FutureTable {
    map u | u in rows && !(rows[u].utcepoch - now < -StalenessWindow) :: rows[u]
  }

  /** `SELECT url ... WHERE utcepoch < (unixepoch() + offset) AND valid <> 0`. */
  function Due(rows: FutureTable, timeOffset: int, now: int): set<string> {
    set u | u in rows && rows[u].utcepoch < now + timeOffset && rows[u].valid
  }

  /** `UPDATE future_downloads SET valid=0 WHERE url=?`. */
  function Disable(rows: FutureTable, url: string): FutureTable {
    if url in rows then rows[url := rows[url].(valid := false)] else rows
  }

  /** `SELECT url, utcepoch ... WHERE valid <> 0`, keyed by url. */
  function Scheduled(rows: FutureTable): map<string, int> {
    map u | u in rows && rows[u].valid :: rows[u].utcepoch
  }

  /** The url a waiting room is downloaded from. */
  function WatchUrl(videoId: string): string {
    WatchUrlPrefix + videoId
  }

  /** The subscription row a waiting room is matched against. */
  function RoomSubscription(room: WaitingRoom): Subscription {
    Subscription(Lower(room.channelId), room.kind.Value())
  }

  /**
   * `INSERT OR IGNORE INTO future_downloads (url, utcepoch) SELECT ?, ? WHERE EXISTS
   * (subscription)`: a new valid row only when the room's channel and kind are
   * subscribed and the url has no row yet.
   */
  function InsertWaitingRoom(rows: FutureTable, subs: set<Subscription>, room: WaitingRoom): FutureTable {
    var url := WatchUrl(room.videoId);
    if RoomSubscription(room) in subs && url !in rows then rows[url := FutureDownload(room.utcepoch, true)]
    else rows
  }

  /** `DELETE FROM completion_channels WHERE url = ?`. */
  function DeleteCompletions(rows: set<Completion>, url: string): set<Completion> {
    set c | c in rows && c.url != url
  }

  /** `INSERT OR IGNORE INTO subscribed_channels VALUES (lower(channel), kind.value)`. */
  function Subscribe(subs: set<Subscription>, channelId: string, kind: RoomKind): set<Subscription> {
    subs + {Subscription(Lower(channelId), kind.Value())}
  }

  /**
   * What `unsubscribe_from_channel` is meant to do: with a kind, delete that one
   * (channel, kind) row; without one, delete every row of the channel.
   */
  function Unsubscribe(subs: set<Subscription>, channelId: string, kind: Option<RoomKind>): set<Subscription> {
    match kind
    case Some(k) => set s | s in subs && !(s.channelId == Lower(channelId) && s.roomKind == k.Value())
    case None => set s | s in subs && s.channelId != Lower(channelId)
  }

  /**
   * What `unsubscribe_from_channel` does as written. Without a kind it passes the
   * lower-cased id itself, a string, as the parameter sequence, so sqlite binds one
   * parameter per character: the statement with its single placeholder runs only for
   * a one-character id and raises "Incorrect number of bindings" otherwise, and the
   * enclosing transaction then leaves the table as it was.
   */
  function UnsubscribeAsWritten(subs: set<Subscription>, channelId: string, kind: Option<RoomKind>): Result<set<Subscription>> {
    if kind.None? && |Lower(channelId)| != 1 then Err("Incorrect number of bindings supplied")
    else Ok(Unsubscribe(subs, channelId, kind))
  }

  // ---------------------------------------------------------------------------
  // Properties of the statements
  // ---------------------------------------------------------------------------

  /**
   * After an upsert there is one row for the url, armed at the new instant, even if
   * the previous row had been disabled; it is due exactly when that instant is
   * strictly before `now + timeOffset`. No other row changes.
   */
  lemma UpsertRearms(rows: FutureTable, url: string, epoch: int, timeOffset: int, now: int)
    ensures url in Upsert(rows, url, epoch) && Upsert(rows, url, epoch)[url] == FutureDownload(epoch, true)
    ensures url in Due(Upsert(rows, url, epoch), timeOffset, now) <==> epoch < now + timeOffset
    ensures Scheduled(Upsert(rows, url, epoch)) == Scheduled(rows)[url := epoch]
    ensures forall u | u != url :: (u in rows <==> u in Upsert(rows, url, epoch))
    ensures forall u | u != url && u in rows :: Upsert(rows, url, epoch)[u] == rows[u]
  {
  }

  /**
   * The due query selects exactly the valid rows strictly before `now + timeOffset`:
   * a row at exactly that instant is not yet due, a disabled row never is, and every
   * due url is also listed as scheduled.
   */
  // The first ensures is the statement's WHERE clause itself, stated once as the
  // meaning of the query; the others follow from it and tie `Due` to `Scheduled`.
  lemma DueIsStrictAndValid(rows: FutureTable, timeOffset: int, now: int)
    ensures forall u :: u in Due(rows, timeOffset, now) <==> u in rows && rows[u].valid && rows[u].utcepoch < now + timeOffset
    ensures forall u | u in rows && rows[u].utcepoch == now + timeOffset :: u !in Due(rows, timeOffset, now)
    ensures forall u | u in rows && !rows[u].valid :: u !in Due(rows, timeOffset, now)
    ensures forall u | u in Due(rows, timeOffset, now) :: u in Scheduled(rows) && Scheduled(rows)[u] < now + timeOffset
  {
  }

  /**
   * The sweep deletes exactly the rows more than 24 hours old, whether valid or
   * disabled; a row exactly 86400 seconds old survives, and survivors are unchanged.
   */
  lemma SweepRemovesExactlyStale(rows: FutureTable, now: int)
    ensures forall u :: u in Sweep(rows, now) <==> u in rows && rows[u].utcepoch >= now - 86400
    ensures forall u | u in Sweep(rows, now) :: Sweep(rows, now)[u] == rows[u]
    ensures forall u | u in rows && rows[u].utcepoch == now - 86400 :: u in Sweep(rows, now)
  {
  }

  /**
   * Disabling keeps the url's row and instant but takes it out of both the listing
   * and the due query; nothing else changes.
   */
  lemma DisableHidesEntry(rows: FutureTable, url: string, timeOffset: int, now: int)
    ensures Disable(rows, url).Keys == rows.Keys
    ensures url in rows ==> Disable(rows, url)[url] == FutureDownload(rows[url].utcepoch, false)
    ensures url !in Scheduled(Disable(rows, url)) && url !in Due(Disable(rows, url), timeOffset, now)
    ensures Scheduled(Disable(rows, url)) == Scheduled(rows) - {url}
    ensures forall u | u in rows && u != url :: Disable(rows, url)[u] == rows[u]
  {
  }

  /**
   * A waiting room creates a valid row at its instant exactly when its channel (in
   * any letter case) and kind are subscribed and its url has no row; an existing row,
   * even a disabled one, is left as it was.
   */
  lemma WaitingRoomInsertsOnlyWhenSubscribed(rows: FutureTable, subs: set<Subscription>, room: WaitingRoom)
    ensures var url := WatchUrl(room.videoId);
      && (url in rows ==> InsertWaitingRoom(rows, subs, room) == rows)
      && (url !in rows && Subscription(Lower(room.channelId), room.kind.Value()) !in subs ==>
            InsertWaitingRoom(rows, subs, room) == rows)
      && (url !in rows && Subscription(Lower(room.channelId), room.kind.Value()) in subs ==>
            InsertWaitingRoom(rows, subs, room) == rows[url := FutureDownload(room.utcepoch, true)])
  {
  }

  /**
   * Subscribing to a channel makes a later waiting room of that channel and kind
   * schedule its download, whatever the letter case of either channel id.
   */
  lemma {:induction false} SubscribeThenRoomSchedules(rows: FutureTable, subs: set<Subscription>, channelId: string, room: WaitingRoom)
    requires Lower(room.channelId) == Lower(channelId)
    requires WatchUrl(room.videoId) !in rows
    ensures var after := InsertWaitingRoom(rows, Subscribe(subs, channelId, room.kind), room);
      WatchUrl(room.videoId) in after && after[WatchUrl(room.videoId)] == FutureDownload(room.utcepoch, true)
  {
    assert RoomSubscription(room) in Subscribe(subs, channelId, room.kind);
  }

  /** Subscribing is idempotent, and it is undone by unsubscribing from the same kind. */
  lemma SubscribeIdempotentAndUndone(subs: set<Subscription>, channelId: string, kind: RoomKind)
    ensures Subscribe(Subscribe(subs, channelId, kind), channelId, kind) == Subscribe(subs, channelId, kind)
    ensures Subscription(Lower(channelId), kind.Value()) !in subs ==>
      Unsubscribe(Subscribe(subs, channelId, kind), channelId, Some(kind)) == subs
  {
  }

  /**
   * Channel ids are compared without regard to ASCII letter case: subscribing or
   * unsubscribing with an id gives the same table as with its lower-cased form.
   */
  lemma {:induction false} ChannelIdCaseIgnored(subs: set<Subscription>, channelId: string, kind: RoomKind)
    ensures Subscribe(subs, Lower(channelId), kind) == Subscribe(subs, channelId, kind)
    ensures Unsubscribe(subs, Lower(channelId), Some(kind)) == Unsubscribe(subs, channelId, Some(kind))
    ensures Unsubscribe(subs, Lower(channelId), None) == Unsubscribe(subs, channelId, None)
  {
    LowerIdempotent(channelId);
  }

  /**
   * Unsubscribing with a kind removes only that (channel, kind) row; without a kind
   * it removes every kind of that channel and nothing of other channels.
   */
  lemma UnsubscribeRemovesExactly(subs: set<Subscription>, channelId: string, kind: Option<RoomKind>)
    ensures Unsubscribe(subs, channelId, kind) <= subs
    ensures forall s | s in subs && s.channelId != Lower(channelId) :: s in Unsubscribe(subs, channelId, kind)
    ensures kind.None? ==> forall s | s in Unsubscribe(subs, channelId, kind) :: s.channelId != Lower(channelId)
    ensures kind.Some? ==> Unsubscribe(subs, channelId, kind) == subs - {Subscription(Lower(channelId), kind.value.Value())}
  {
  }

  /**
   * As written, unsubscribing from every kind of a channel whose id is not exactly one
   * character long raises and leaves its subscriptions in place, while the intended
   * statement removes them.
   */
  lemma {:induction false} UnsubscribeAllKindsRejected(subs: set<Subscription>, channelId: string)
    requires |channelId| != 1
    requires Subscription(Lower(channelId), RoomKind.Stream.Value()) in subs
    ensures UnsubscribeAsWritten(subs, channelId, None).Err?
    ensures Subscription(Lower(channelId), RoomKind.Stream.Value()) !in Unsubscribe(subs, channelId, None)
  {
  }

  /** Adding a completion destination is idempotent; deleting by url removes it and no row of another url. */
  lemma CompletionAddDelete(rows: set<Completion>, guildId: int, channelId: int, url: string)
    ensures var added := rows + {Completion(guildId, channelId, url)};
      && added + {Completion(guildId, channelId, url)} == added
      && DeleteCompletions(added, url) == DeleteCompletions(rows, url)
      && (forall c | c in DeleteCompletions(rows, url) :: c.url != url)
      && (forall c | c in rows && c.url != url :: c in DeleteCompletions(rows, url))
  {
  }

  // ---------------------------------------------------------------------------
  // The store object
  // ---------------------------------------------------------------------------

  /** The `Database` object: one field per table. */
  class Database {
    var completionChannels: set<Completion>
    var futureDownloads: FutureTable
    var subscribedChannels: set<Subscription>

    /** `setup_tables` on a fresh database file: three empty tables. */
    constructor ()
      ensures completionChannels == {} && futureDownloads == map[] && subscribedChannels == {}
    {
      completionChannels := {};
      futureDownloads := map[];
      subscribedChannels := {};
    }

    method AddCompletionForUrl(guildId: int, channelId: int, url: string)
      modifies this
      ensures completionChannels == old(completionChannels) + {Completion(guildId, channelId, url)}
      ensures futureDownloads == old(futureDownloads) && subscribedChannels == old(subscribedChannels)
    {
      completionChannels := completionChannels + {Completion(guildId, channelId, url)};
    }

    /**
     * `fetchone` over the rows of `url`: one (guild, channel) destination registered for
     * it, or `None` when it has none. Which row comes first is up to sqlite.
     */
    method GetCompletionChannelForUrl(url: string) returns (r: Option<(int, int)>)
      ensures r.None? <==> forall c | c in completionChannels :: c.url != url
      ensures r.Some? ==> Completion(r.value.0, r.value.1, url) in completionChannels
    {
      if c :| c in completionChannels && c.url == url {
        r := Some((c.guildId, c.channelId));
      } else {
        r := None;
      }
    }

    method DeleteCompletionForUrl(url: string)
      modifies this
      ensures completionChannels == DeleteCompletions(old(completionChannels), url)
      ensures futureDownloads == old(futureDownloads) && subscribedChannels == old(subscribedChannels)
    {
      completionChannels := DeleteCompletions(completionChannels, url);
    }

    method AddFutureDownload(url: string, utcepoch: int)
      modifies this
      ensures futureDownloads == Upsert(old(futureDownloads), url, utcepoch)
      ensures completionChannels == old(completionChannels) && subscribedChannels == old(subscribedChannels)
    {
      futureDownloads := Upsert(futureDownloads, url, utcepoch);
    }

    method CleanupFutureDownloads(now: int)
      modifies this
      ensures futureDownloads == Sweep(old(futureDownloads), now)
      ensures completionChannels == old(completionChannels) && subscribedChannels == old(subscribedChannels)
    {
      futureDownloads := Sweep(futureDownloads, now);
    }

    /** The urls `get_downloads_now(timeOffset)` returns at instant `now`. */
    function GetDownloadsNow(timeOffset: int, now: int): set<string>
      reads this
    {
      Due(futureDownloads, timeOffset, now)
    }

    method DeleteFutureDownload(url: string)
      modifies this
      ensures futureDownloads == old(futureDownloads) - {url}
      ensures completionChannels == old(completionChannels) && subscribedChannels == old(subscribedChannels)
    {
      futureDownloads := futureDownloads - {url};
    }

    method DisableFutureDownload(url: string)
      modifies this
      ensures futureDownloads == Disable(old(futureDownloads), url)
      ensures completionChannels == old(completionChannels) && subscribedChannels == old(subscribedChannels)
    {
      futureDownloads := Disable(futureDownloads, url);
    }

    /** The (url, utcepoch) rows `get_all_scheduled_downloads` returns. */
    function GetAllScheduledDownloads(): map<string, int>
      reads this
    {
      Scheduled(futureDownloads)
    }

    method AddSubscribedWaitingRoom(room: WaitingRoom)
      modifies this
      ensures futureDownloads == InsertWaitingRoom(old(futureDownloads), subscribedChannels, room)
      ensures completionChannels == old(completionChannels) && subscribedChannels == old(subscribedChannels)
    {
      futureDownloads := InsertWaitingRoom(futureDownloads, subscribedChannels, room);
    }

    method SubscribeToChannel(channelId: string, kind: RoomKind)
      modifies this
      ensures subscribedChannels == Subscribe(old(subscribedChannels), channelId, kind)
      ensures completionChannels == old(completionChannels) && futureDownloads == old(futureDownloads)
    {
      subscribedChannels := Subscribe(subscribedChannels, channelId, kind);
    }

    /**
     * `unsubscribe_from_channel` as written: succeeds and applies the intended deletion
     * except without a kind on an id of length other than one, where it raises and
     * changes nothing.
     */
    method UnsubscribeFromChannel(channelId: string, kind: Option<RoomKind>) returns (r: Result<()>)
      modifies this
      ensures var written := UnsubscribeAsWritten(old(subscribedChannels), channelId, kind);
        && (r.Ok? <==> written.Ok?)
        && subscribedChannels == (if written.Ok? then written.value else old(subscribedChannels))
      ensures completionChannels == old(completionChannels) && futureDownloads == old(futureDownloads)
    {
      if kind.Some? {
        subscribedChannels := Unsubscribe(subscribedChannels, channelId, kind);
        r := Ok(());
      } else if |Lower(channelId)| == 1 {
        subscribedChannels := Unsubscribe(subscribedChannels, channelId, kind);
        r := Ok(());
      } else {
        r := Err("Incorrect number of bindings supplied");
      }
    }
  }
}
