/** src/hooks/usePresence.js: the presence protocol. While a signed-in user's
    page is mounted, every "connected" event registers the deferred offline
    write and then writes the online record at `/status/{userId}`; teardown
    unsubscribes and writes the offline record.

    The Realtime Database is a class holding the status records, the deferred
    on-disconnect writes and, for stating the protocol, the log of the effects
    that took place in order. */
module Presence {
  import opened Wrappers

  datatype PresenceState = Online | Offline

  /** `{ state, last_changed }`; `serverTimestamp()` resolves to the server's
      time when the write is applied, here the `now` of that write. */
  datatype StatusRecord = StatusRecord(state: PresenceState, lastChanged: int)

  /** An effect on the database that took place. */
  datatype Effect =
    | Subscribe(path: string)
    | Unsubscribe(path: string)
    | RegisterOnDisconnect(path: string, state: PresenceState)
    | Write(path: string, rec: StatusRecord)

  /** A value listener registered with `onValue(ref, handler)`. */
  datatype Handler = Handler(path: string, token: nat)

  const ConnectedPath: string := ".info/connected"

  function StatusPath(userId: string): (p: string)
    ensures |p| == 8 + |userId|
    ensures p[..8] == "/status/" && p[8..] == userId
  {
    "/status/" + userId
  }

  /** The records after an abrupt disconnect: every deferred write applied. */
  function ApplyDeferred(records: map<string, StatusRecord>, deferred: map<string, PresenceState>, now: int): (r: map<string, StatusRecord>)
    ensures r.Keys == records.Keys + deferred.Keys
    ensures forall p :: p in deferred ==> r[p] == StatusRecord(deferred[p], now)
    ensures forall p :: p in records && p !in deferred ==> r[p] == records[p]
  {
    map p | p in records.Keys + deferred.Keys :: if p in deferred then StatusRecord(deferred[p], now) else records[p]
  }

  class RealtimeDb {
    var records: map<string, StatusRecord>
    var deferred: map<string, PresenceState>
    var log: seq<Effect>
    var handlers: multiset<Handler>
    var nextToken: nat

    constructor ()
      ensures records == map[] && deferred == map[] && log == []
      ensures handlers == multiset{} && nextToken == 0
    {
      records := map[];
      deferred := map[];
      log := [];
      handlers := multiset{};
      nextToken := 0;
    }

    /** `onValue(ref, handler)` for a record: registers a new handler. */
    method Listen(path: string) returns (h: Handler)
      modifies this
      ensures h == Handler(path, old(nextToken)) && nextToken == old(nextToken) + 1
      ensures handlers == old(handlers) + multiset{h}
      ensures records == old(records) && deferred == old(deferred) && log == old(log)
    {
      h := Handler(path, nextToken);
      nextToken := nextToken + 1;
      handlers := handlers + multiset{h};
    }

    /** `off(ref, 'value', handler)`: removes that one handler. */
    method Unlisten(h: Handler)
      modifies this
      ensures handlers == old(handlers) - multiset{h}
      ensures nextToken == old(nextToken)
      ensures records == old(records) && deferred == old(deferred) && log == old(log)
    {
      handlers := handlers - multiset{h};
    }

    /** `onValue(connectedRef, ...)` as the presence tracker uses it. Only the
        order of its effects matters there (subscribe, and at teardown
        unsubscribe before the offline write), so the call is recorded in the
        log; a watcher that must later remove exactly its own handler uses
        `Listen`, which hands out a token. */
    method OnValue(path: string)
      modifies this
      ensures handlers == old(handlers) && nextToken == old(nextToken)
      ensures records == old(records) && deferred == old(deferred)
      ensures log == old(log) + [Subscribe(path)]
    {
      log := log + [Subscribe(path)];
    }

    /** The unsubscribe function `onValue` returned, called by the presence
        tracker's teardown; recorded in the log like `OnValue`. */
    method Off(path: string)
      modifies this
      ensures handlers == old(handlers) && nextToken == old(nextToken)
      ensures records == old(records) && deferred == old(deferred)
      ensures log == old(log) + [Unsubscribe(path)]
    {
      log := log + [Unsubscribe(path)];
    }

    /** `onDisconnect(ref).set(...)`: registers the deferred write, or fails. */
    method SetOnDisconnect(path: string, state: PresenceState, fails: bool) returns (ok: bool)
      modifies this
      ensures handlers == old(handlers) && nextToken == old(nextToken)
      ensures ok == !fails
      ensures records == old(records)
      ensures deferred == if ok then old(deferred)[path := state] else old(deferred)
      ensures log == if ok then old(log) + [RegisterOnDisconnect(path, state)] else old(log)
    {
      ok := !fails;
      if ok {
        deferred := deferred[path := state];
        log := log + [RegisterOnDisconnect(path, state)];
      }
    }

    /** `set(ref, value)`, or a failure that changes nothing. */
    method Set(path: string, rec: StatusRecord, fails: bool) returns (ok: bool)
      modifies this
      ensures handlers == old(handlers) && nextToken == old(nextToken)
      ensures ok == !fails
      ensures deferred == old(deferred)
      ensures records == if ok then old(records)[path := rec] else old(records)
      ensures log == if ok then old(log) + [Write(path, rec)] else old(log)
    {
      ok := !fails;
      if ok {
        records := records[path := rec];
        log := log + [Write(path, rec)];
      }
    }

    /** The connection drops without a teardown: the server applies the deferred writes. */
    method AbruptDisconnect(now: int)
      modifies this
      ensures handlers == old(handlers) && nextToken == old(nextToken)
      ensures records == ApplyDeferred(old(records), old(deferred), now)
      ensures deferred == map[]
      ensures log == old(log)
    {
      records := ApplyDeferred(records, deferred, now);
      deferred := map[];
    }
  }

  /** The protocol's ordering: every online write is immediately preceded by the
      registration of the deferred offline write for the same record. */
  predicate OnlineGuarded(log: seq<Effect>)
  {
    forall i :: 0 <= i < |log| && log[i].Write? && log[i].rec.state == Online ==>
      i > 0 && log[i - 1] == RegisterOnDisconnect(log[i].path, Offline)
  }

  /** A guarded log stays guarded when a guarded log that does not start with an
      online write is appended to it. */
  lemma OnlineGuardedAppend(a: seq<Effect>, b: seq<Effect>)
    requires OnlineGuarded(a) && OnlineGuarded(b)
    requires b != [] ==> !(b[0].Write? && b[0].rec.state == Online)
    ensures OnlineGuarded(a + b)
  {
    var l := a + b;
    forall i | 0 <= i < |l| && l[i].Write? && l[i].rec.state == Online
      ensures i > 0 && l[i - 1] == RegisterOnDisconnect(l[i].path, Offline)
    {
      if i >= |a| {
        assert l[i] == b[i - |a|];
        if i - |a| > 0 {
          assert l[i - 1] == b[i - |a| - 1];
        }
      }
    }
  }

  /** The effects of one `.info/connected` event. */
  function ConnectedEffects(userId: string, connected: bool, now: int, registerFails: bool, setFails: bool): (e: seq<Effect>)
    ensures !connected ==> e == []
    ensures forall i :: 0 <= i < |e| ==> (e[i].RegisterOnDisconnect? || e[i].Write?) && e[i].path == StatusPath(userId)
    ensures forall i :: 0 <= i < |e| && e[i].Write? ==> e[i].rec == StatusRecord(Online, now)
    ensures OnlineGuarded(e)
    ensures e != [] ==> e[0] == RegisterOnDisconnect(StatusPath(userId), Offline)
    ensures (exists i :: 0 <= i < |e| && e[i].Write?) <==> connected && !registerFails && !setFails
  {
    if !connected || registerFails then []
    else if setFails then [RegisterOnDisconnect(StatusPath(userId), Offline)]
    else
      var e := [RegisterOnDisconnect(StatusPath(userId), Offline), Write(StatusPath(userId), StatusRecord(Online, now))];
      assert e[1].Write?;
      e
  }

  /** The effects of the cleanup: unsubscribe from `.info/connected`, then the offline write. */
  function TeardownEffects(userId: string, now: int, setFails: bool): (e: seq<Effect>)
    ensures e != [] && e[0] == Unsubscribe(ConnectedPath)
    ensures forall i :: 0 < i < |e| ==> e[i] == Write(StatusPath(userId), StatusRecord(Offline, now))
    ensures |e| == if setFails then 1 else 2
    ensures OnlineGuarded(e)
  {
    [Unsubscribe(ConnectedPath)] + if setFails then [] else [Write(StatusPath(userId), StatusRecord(Offline, now))]
  }

  /** Once the offline record is registered, an abrupt disconnect leaves the user offline. */
  lemma DeferredOfflineWins(db: map<string, StatusRecord>, deferred: map<string, PresenceState>, userId: string, now: int)
    requires StatusPath(userId) in deferred && deferred[StatusPath(userId)] == Offline
    ensures StatusPath(userId) in ApplyDeferred(db, deferred, now)
    ensures ApplyDeferred(db, deferred, now)[StatusPath(userId)] == StatusRecord(Offline, now)
  {
  }

  /** One mounted `usePresence` effect. */
  class PresenceTracker {
    var subscribed: bool
    var userId: string

    constructor ()
      ensures !subscribed
    {
      subscribed := false;
      userId := "";
    }

    /** The effect body: nothing happens unless the user is signed in, present
        and the database is configured; otherwise it subscribes to `.info/connected`. */
    method Mount(db: RealtimeDb, isSignedIn: bool, user: Option<string>, dbReady: bool)
      modifies this, db
      ensures subscribed <==> isSignedIn && user.Some? && dbReady
      ensures subscribed ==> userId == user.value
      ensures db.records == old(db.records) && db.deferred == old(db.deferred)
      ensures db.handlers == old(db.handlers) && db.nextToken == old(db.nextToken)
      ensures db.log == old(db.log) + if subscribed then [Subscribe(ConnectedPath)] else []
    {
      if !isSignedIn || user.None? || !dbReady {
        subscribed := false;
        return;
      }
      userId := user.value;
      db.OnValue(ConnectedPath);
      subscribed := true;
    }

    /** The `.info/connected` handler: register, then write online; a failed
        registration stops the sequence, and the error is caught. */
    method OnConnected(db: RealtimeDb, connected: bool, now: int, registerFails: bool, setFails: bool)
      requires subscribed
      modifies db
      ensures db.log == old(db.log) + ConnectedEffects(userId, connected, now, registerFails, setFails)
      ensures db.handlers == old(db.handlers) && db.nextToken == old(db.nextToken)
      ensures db.deferred == if connected && !registerFails then old(db.deferred)[StatusPath(userId) := Offline] else old(db.deferred)
      ensures db.records == if connected && !registerFails && !setFails
                            then old(db.records)[StatusPath(userId) := StatusRecord(Online, now)] else old(db.records)
      ensures OnlineGuarded(old(db.log)) ==> OnlineGuarded(db.log)
    {
      if !connected {
        return;
      }
      var path := StatusPath(userId);
      var registered := db.SetOnDisconnect(path, Offline, registerFails);
      if registered {
        var _ := db.Set(path, StatusRecord(Online, now), setFails);
      }
      if OnlineGuarded(old(db.log)) {
        OnlineGuardedAppend(old(db.log), ConnectedEffects(userId, connected, now, registerFails, setFails));
      }
    }

    /** The cleanup: unsubscribe, then write offline; a failed write is caught. */
    method Teardown(db: RealtimeDb, now: int, setFails: bool)
      requires subscribed
      modifies this, db
      ensures !subscribed && userId == old(userId)
      ensures db.log == old(db.log) + TeardownEffects(userId, now, setFails)
      ensures db.deferred == old(db.deferred)
      ensures db.handlers == old(db.handlers) && db.nextToken == old(db.nextToken)
      ensures db.records == if setFails then old(db.records) else old(db.records)[StatusPath(userId) := StatusRecord(Offline, now)]
      ensures OnlineGuarded(old(db.log)) ==> OnlineGuarded(db.log)
    {
      db.Off(ConnectedPath);
      var _ := db.Set(StatusPath(userId), StatusRecord(Offline, now), setFails);
      subscribed := false;
      if OnlineGuarded(old(db.log)) {
        OnlineGuardedAppend(old(db.log), TeardownEffects(userId, now, setFails));
      }
    }
  }
}
