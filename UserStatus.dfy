/** src/hooks/useUserStatus.js: watching another user's `/status/{userId}`
    record and mapping it to `{ isOnline, lastSeen }`, with the loading flag. */
module UserStatus {
  import opened Wrappers
  import opened Presence

  datatype StatusView = StatusView(isOnline: bool, lastSeen: Option<int>)

  /** `handleStatusChange`: a present record is online exactly when its state is
      'online' and was last seen at `last_changed`; no record reads as offline,
      never seen. */
  function ToView(data: Option<StatusRecord>): (v: StatusView)
    ensures data.Some? ==> (v.isOnline <==> data.value.state == Online)
    ensures data.Some? ==> v.lastSeen == Some(data.value.lastChanged)
    ensures data.None? ==> !v.isOnline && v.lastSeen.None?
  {
    match data
    case Some(rec) => StatusView(rec.state == Online, Some(rec.lastChanged))
    case None => StatusView(false, None)
  }

  function Lookup(records: map<string, StatusRecord>, path: string): (r: Option<StatusRecord>)
    ensures r.Some? <==> path in records
    ensures r.Some? ==> r.value == records[path]
  {
    if path in records then Some(records[path]) else None
  }

  /** The hook's state for one watched user. */
  class StatusWatcher {
    const userId: string
    var isOnline: bool
    var lastSeen: Option<int>
    var loading: bool
    var handler: Option<Handler>

    constructor (userId: string)
      ensures this.userId == userId
      ensures !isOnline && lastSeen.None? && loading && handler.None?
    {
      this.userId := userId;
      isOnline := false;
      lastSeen := None;
      loading := true;
      handler := None;
    }

    function View(): StatusView
      reads this
    {
      StatusView(isOnline, lastSeen)
    }

    /** The effect body: with no userId or no database it only ends loading;
        otherwise it registers one handler on the user's status record. */
    method Mount(db: RealtimeDb, dbReady: bool)
      requires handler.None?
      modifies this, db
      ensures isOnline == old(isOnline) && lastSeen == old(lastSeen)
      ensures userId == "" || !dbReady ==>
        !loading && handler.None? && db.handlers == old(db.handlers) && db.nextToken == old(db.nextToken)
      ensures userId != "" && dbReady ==>
        loading == old(loading) && handler == Some(Handler(StatusPath(userId), old(db.nextToken)))
        && db.handlers == old(db.handlers) + multiset{handler.value}
      ensures db.records == old(db.records) && db.deferred == old(db.deferred) && db.log == old(db.log)
    {
      if userId == "" || !dbReady {
        loading := false;
        return;
      }
      var h := db.Listen(StatusPath(userId));
      handler := Some(h);
    }

    /** The handler runs on a snapshot of the record. */
    method OnValue(data: Option<StatusRecord>)
      modifies this
      ensures View() == ToView(data)
      ensures !loading && handler == old(handler)
    {
      match data {
        case Some(rec) =>
          isOnline := rec.state == Online;
          lastSeen := Some(rec.lastChanged);
        case None =>
          isOnline := false;
          lastSeen := None;
      }
      loading := false;
    }

    /** The snapshot delivered to a registered handler: the record as it is now. */
    method Deliver(db: RealtimeDb)
      requires handler.Some?
      modifies this
      ensures View() == ToView(Lookup(db.records, StatusPath(userId)))
      ensures StatusPath(userId) in db.records ==>
        isOnline == (db.records[StatusPath(userId)].state == Online) && lastSeen == Some(db.records[StatusPath(userId)].lastChanged)
      ensures StatusPath(userId) !in db.records ==> !isOnline && lastSeen.None?
      ensures !loading && handler == old(handler)
    {
      OnValue(Lookup(db.records, StatusPath(userId)));
    }

    /** The listener's error callback only ends loading. */
    method OnError()
      modifies this
      ensures !loading
      ensures isOnline == old(isOnline) && lastSeen == old(lastSeen) && handler == old(handler)
    {
      loading := false;
    }

    /** The cleanup removes exactly the handler this hook registered. */
    method Teardown(db: RealtimeDb)
      requires handler.Some?
      modifies this, db
      ensures db.handlers == old(db.handlers) - multiset{old(handler).value}
      ensures handler.None?
      ensures db.records == old(db.records) && db.deferred == old(db.deferred) && db.log == old(db.log)
    {
      db.Unlisten(handler.value);
      handler := None;
    }
  }

  /** A user whose page registered presence drops off abruptly: a watcher sees
      them online at their last connect, and offline at the disconnect time after it. */
  method AbruptDisconnectIsSeen(uid: string, connectedAt: int, droppedAt: int) returns (before: StatusView, after: StatusView)
    requires uid != ""
    ensures before == StatusView(true, Some(connectedAt))
    ensures after == StatusView(false, Some(droppedAt))
  {
    var db := new RealtimeDb();
    var tracker := new PresenceTracker();
    tracker.Mount(db, true, Some(uid), true);
    tracker.OnConnected(db, true, connectedAt, false, false);
    var watcher := new StatusWatcher(uid);
    watcher.Mount(db, true);
    watcher.Deliver(db);
    before := watcher.View();
    DeferredOfflineWins(db.records, db.deferred, uid, droppedAt);
    db.AbruptDisconnect(droppedAt);
    watcher.Deliver(db);
    after := watcher.View();
    watcher.Teardown(db);
  }
}
