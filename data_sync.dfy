/**
 * The `dataSync` object of data-sync.js: one authoritative state, kept in
 * `localStorage` and reconciled with the remote store by last-write-wins on
 * timestamps, with a `dataUpdated` event whenever the state is replaced by
 * the server's or committed after a successful push.
 *
 * The clock (`Date.now()`) and the outcome of every HTTP exchange are
 * parameters; the effects the object causes are appended to the window's
 * trace in the order they happen.
 */
module DataSync {
  import opened JsValues
  import opened Records
  import opened SyncModel
  import opened Browser

  // ---------------------------------------------------------------------
  // What each operation does, as functions of the state before it

  /** `loadFromLocalStorage`: the cached state, or nothing when missing or unparseable. */
  function LoadFromLocalStorage(st: Storage): (r: Option<SyncState>)
    ensures r.Some? <==> st.schoolData.Some? && st.schoolData.value.Json?
    ensures r.Some? ==> st.schoolData == Some(Json(r.value))
  {
    match st.schoolData
    case Some(Json(s)) => Some(s)
    case _ => None
  }

  /** Saving a state and loading it back gives that state. */
  lemma SaveLoadRoundTrip(st: Storage, s: SyncState)
    ensures LoadFromLocalStorage(st.(schoolData := Some(Json(s)))) == Some(s)
  {
  }

  /** `this.data.timestamp = result.timestamp` after an acknowledged push. */
  function Pushed(s: SyncState, ack: Ack): (r: SyncState)
    ensures r.timestamp == ack.timestamp
    ensures r.students == s.students && r.classes == s.classes && r.systemMode == s.systemMode
  {
    s.(timestamp := ack.timestamp)
  }

  /** The effects of `pushToServer`: the POST, then the cache write if acknowledged. */
  function PushEffects(s: SyncState, reply: Reply<Ack>): seq<Effect> {
    [Posted(s)] + (if reply.Success? then [SavedState(Pushed(s, reply.payload))] else [])
  }

  /** The state after `fetchFromServer` receives `server`. */
  function Fetched(d: SyncState, server: SyncState): SyncState {
    if Decide(d.timestamp, server.timestamp) == Adopt then server else d
  }

  /**
   * The effects of `fetchFromServer` receiving `server`. When local data is
   * newer the push is started without being awaited: its request is issued,
   * its reply is not part of the fetch.
   */
  function FetchEffects(d: SyncState, server: SyncState): seq<Effect> {
    match Decide(d.timestamp, server.timestamp)
    case Adopt => [SavedState(server), DataUpdated(server)]
    case PushLocal => [Posted(d)]
    case Keep => []
  }

  /** The state after `updateData(p)` at clock `now` with push outcome `reply`. */
  function Updated(d: SyncState, p: Patch, now: nat, reply: Reply<Ack>): SyncState {
    var merged := Merge(d, p, now);
    if reply.Success? then Pushed(merged, reply.payload) else merged
  }

  /** The effects of `updateData`: cache write, push, and the event if the push succeeded. */
  function UpdateEffects(d: SyncState, p: Patch, now: nat, reply: Reply<Ack>): seq<Effect> {
    var merged := Merge(d, p, now);
    [SavedState(merged)] + PushEffects(merged, reply)
    + (if reply.Success? then [DataUpdated(Updated(d, p, now, reply))] else [])
  }

  function StudentsPatch(students: seq<Record>): Patch {
    Patch(Some(students), None, None)
  }

  function ClassesPatch(classes: seq<Record>): Patch {
    Patch(None, Some(classes), None)
  }

  /** `if (!r.id) r.id = prefix + Date.now()` */
  function WithId(r: Record, prefix: string, clock: nat): (x: Record)
    ensures !Falsy(Get(x, "id"))
    ensures Falsy(Get(r, "id")) ==> x == r["id" := Str(prefix + NumberToString(clock))]
    ensures !Falsy(Get(r, "id")) ==> x == r
  {
    if Falsy(Get(r, "id")) then r["id" := Str(prefix + NumberToString(clock))] else r
  }

  // ---------------------------------------------------------------------
  // Properties of reconciliation and of updates

  /**
   * A falsy local timestamp or a newer server one: the server's state is
   * taken wholesale, cached, and exactly one `dataUpdated` fires; no push.
   */
  lemma FetchAdoptsServer(d: SyncState, server: SyncState)
    requires d.timestamp == 0 || server.timestamp > d.timestamp
    ensures Fetched(d, server) == server
    ensures FetchEffects(d, server) == [SavedState(server), DataUpdated(server)]
    ensures Events(FetchEffects(d, server)) == 1 && Posts(FetchEffects(d, server)) == 0
  {
    var t := FetchEffects(d, server);
    assert t[1..] == [DataUpdated(server)] && t[1..][1..] == [];
    assert Events(t[1..]) == 1 && Posts(t[1..]) == 0;
  }

  /**
   * Otherwise the local state stays and no event fires; a push is issued
   * exactly when the local timestamp is strictly newer.
   */
  lemma FetchKeepsLocal(d: SyncState, server: SyncState)
    requires d.timestamp != 0 && server.timestamp <= d.timestamp
    ensures Fetched(d, server) == d
    ensures Events(FetchEffects(d, server)) == 0
    ensures Posts(FetchEffects(d, server)) == (if d.timestamp > server.timestamp then 1 else 0)
    ensures d.timestamp == server.timestamp ==> FetchEffects(d, server) == []
  {
    var t := FetchEffects(d, server);
    if t != [] {
      assert t[1..] == [];
    }
  }

  /**
   * Fetching the same non-zero-timestamped server state again fires no
   * further event, leaves the state as the first fetch made it, and does
   * nothing at all unless the first fetch pushed.
   */
  lemma FetchTwiceQuiet(d: SyncState, server: SyncState)
    requires server.timestamp != 0
    ensures Fetched(Fetched(d, server), server) == Fetched(d, server)
    ensures Events(FetchEffects(Fetched(d, server), server)) == 0
    ensures Decide(d.timestamp, server.timestamp) != PushLocal
            ==> FetchEffects(Fetched(d, server), server) == []
  {
    var d1 := Fetched(d, server);
    if Decide(d.timestamp, server.timestamp) == Adopt {
      FetchKeepsLocal(server, server);
    } else {
      FetchKeepsLocal(d, server);
    }
  }

  /**
   * With a zero server timestamp the adopted state has a falsy timestamp
   * again, so every later fetch re-adopts it and fires another event.
   */
  lemma FetchZeroTimestampRefires(d: SyncState, server: SyncState)
    requires server.timestamp == 0 && d.timestamp == 0
    ensures Fetched(d, server) == server
    ensures Events(FetchEffects(Fetched(d, server), server)) == 1
  {
    FetchAdoptsServer(d, server);
    FetchAdoptsServer(server, server);
  }

  /**
   * `updateData`: the merged state is cached before the single POST, and
   * the result is the merge stamped with `now`, or with the server's
   * acknowledged time and one event when the push succeeded.
   */
  lemma UpdateOutcome(d: SyncState, p: Patch, now: nat, reply: Reply<Ack>)
    ensures var t := UpdateEffects(d, p, now, reply);
      && t[0] == SavedState(Merge(d, p, now))
      && t[1] == Posted(Merge(d, p, now))
      && Posts(t) == 1
      && Events(t) == (if reply.Success? then 1 else 0)
    ensures var u := Updated(d, p, now, reply);
      && u.students == p.students.GetOr(d.students)
      && u.classes == p.classes.GetOr(d.classes)
      && u.timestamp == (if reply.Success? then reply.payload.timestamp else now)
  {
    var m := Merge(d, p, now);
    var ev: seq<Effect> := if reply.Success? then [DataUpdated(Updated(d, p, now, reply))] else [];
    var post: seq<Effect> := if reply.Success? then [SavedState(Pushed(m, reply.payload))] else [];
    CountsAppend([SavedState(m)], PushEffects(m, reply));
    CountsAppend([Posted(m)], post);
    CountsAppend([SavedState(m)] + PushEffects(m, reply), ev);
  }

  /**
   * `addStudent`/`addClass`: one record more, appended at the end, every
   * earlier record as it was; the appended record has a truthy id, the
   * generated `<prefix><digits>` one when it had none.
   */
  lemma AddAppends(d: SyncState, r: Record, prefix: string, idClock: nat, now: nat, reply: Reply<Ack>)
    ensures var u := Updated(d, StudentsPatch(d.students + [WithId(r, prefix, idClock)]), now, reply);
      && |u.students| == |d.students| + 1
      && u.students[..|d.students|] == d.students
      && u.students[|d.students|] == WithId(r, prefix, idClock)
      && u.classes == d.classes
    ensures var u := Updated(d, ClassesPatch(d.classes + [WithId(r, prefix, idClock)]), now, reply);
      && |u.classes| == |d.classes| + 1
      && u.classes[..|d.classes|] == d.classes
      && u.classes[|d.classes|] == WithId(r, prefix, idClock)
      && u.students == d.students
    ensures Falsy(Get(r, "id")) ==> Get(WithId(r, prefix, idClock), "id") == Str(prefix + NumberToString(idClock))
  {
    var x := WithId(r, prefix, idClock);
    assert (d.students + [x])[..|d.students|] == d.students;
    assert (d.classes + [x])[..|d.classes|] == d.classes;
  }

  /**
   * `addStudent`, then `updateStudent` on the id the added record ends up
   * with (its own, or the generated one): when no earlier student had that
   * id, the collection is the old one plus the added record with the
   * updates laid over it.
   */
  lemma AddThenUpdate(d: SyncState, r: Record, updates: Record, idClock: nat, now: nat, reply: Reply<Ack>)
    requires NoMatch(d.students, Get(WithId(r, "student_", idClock), "id"), Strict)
    ensures var x := WithId(r, "student_", idClock);
      var added := Updated(d, StudentsPatch(d.students + [x]), now, reply);
      UpdateFirst(added.students, Get(x, "id"), updates, Strict) == Some(d.students + [Spread(x, updates)])
  {
    var x := WithId(r, "student_", idClock);
    UpdateAfterAppend(d.students, x, Get(x, "id"), updates, Strict);
  }

  // ---------------------------------------------------------------------
  // The store

  class SyncStore {
    var data: SyncState
    const win: Window

    /**
     * The state is in the cache, unless it is still the initial default:
     * every change is written to `localStorage` before anything else, so a
     * reload never finds the cache behind memory.
     */
    ghost predicate Valid()
      reads this, win
    {
      data == Default || win.storage.schoolData == Some(Json(data))
    }

    /** `updateData(p)` happened, from the state before the call. */
    twostate predicate DidUpdate(p: Patch, now: nat, reply: Reply<Ack>)
      reads this, win
    {
      && data == Updated(old(data), p, now, reply)
      && win.trace == old(win.trace) + UpdateEffects(old(data), p, now, reply)
      && win.storage == old(win.storage).(schoolData := Some(Json(data)))
    }

    constructor(win: Window)
      ensures this.win == win && data == Default && Valid()
    {
      this.win := win;
      this.data := Default;
    }

    /** `saveToLocalStorage` */
    method SaveToLocalStorage()
      modifies win`storage, win`trace
      ensures win.storage == old(win.storage).(schoolData := Some(Json(data)))
      ensures win.trace == old(win.trace) + [SavedState(data)]
      ensures Valid()
    {
      win.storage := win.storage.(schoolData := Some(Json(data)));
      win.trace := win.trace + [SavedState(data)];
    }

    /**
     * `init`: start from the cache when it holds a state, then fetch once;
     * a failed fetch is swallowed.
     */
    method Init(server: Reply<SyncState>) returns (r: SyncState)
      requires Valid()
      modifies this, win`storage, win`trace
      ensures Valid() && r == data
      ensures var start := LoadFromLocalStorage(old(win.storage)).GetOr(old(data));
        && data == (if server.Success? then Fetched(start, server.payload) else start)
        && win.trace == old(win.trace) + (if server.Success? then FetchEffects(start, server.payload) else [])
        && win.storage == (if server.Success? && Decide(start.timestamp, server.payload.timestamp) == Adopt
                           then old(win.storage).(schoolData := Some(Json(data)))
                           else old(win.storage))
    {
      var local := LoadFromLocalStorage(win.storage);
      if local.Some? {
        data := local.value;
      }
      var _ := FetchFromServer(server);
      r := data;
    }

    /** `fetchFromServer` */
    method FetchFromServer(server: Reply<SyncState>) returns (r: Result<SyncState, SyncError>)
      requires Valid()
      modifies this, win`storage, win`trace
      ensures Valid()
      ensures server.Failure? ==> (r == Err(RemoteUnavailable) && data == old(data)
        && win.storage == old(win.storage) && win.trace == old(win.trace))
      ensures server.Success? ==> (r == Ok(data)
        && data == Fetched(old(data), server.payload)
        && win.trace == old(win.trace) + FetchEffects(old(data), server.payload)
        && win.storage == if Decide(old(data).timestamp, server.payload.timestamp) == Adopt
                          then old(win.storage).(schoolData := Some(Json(data)))
                          else old(win.storage))
    {
      if server.Failure? {
        return Err(RemoteUnavailable);
      }
      var serverData := server.payload;
      if data.timestamp == 0 || serverData.timestamp > data.timestamp {
        data := serverData;
        SaveToLocalStorage();
        win.trace := win.trace + [DataUpdated(data)];
      } else if data.timestamp > serverData.timestamp {
        win.trace := win.trace + [Posted(data)];
      }
      r := Ok(data);
    }

    /** `pushToServer`: the server's acknowledgement sets the timestamp. */
    method PushToServer(reply: Reply<Ack>) returns (r: Result<Ack, SyncError>)
      requires Valid()
      modifies this, win`storage, win`trace
      ensures Valid()
      ensures win.trace == old(win.trace) + PushEffects(old(data), reply)
      ensures reply.Success? ==> (r == Ok(reply.payload) && data == Pushed(old(data), reply.payload)
        && win.storage == old(win.storage).(schoolData := Some(Json(data))))
      ensures reply.Failure? ==> (r == Err(RemoteUnavailable) && data == old(data)
        && win.storage == old(win.storage))
    {
      win.trace := win.trace + [Posted(data)];
      if reply.Failure? {
        return Err(RemoteUnavailable);
      }
      data := data.(timestamp := reply.payload.timestamp);
      SaveToLocalStorage();
      r := Ok(reply.payload);
    }

    /**
     * `updateData`: merge, stamp, cache, then push; a failed push is
     * swallowed and the merged state stands. It needs no invariant on entry:
     * the cache write comes first (addStudent and the others call it with
     * the collection already changed in memory).
     */
    method UpdateData(patch: Patch, now: nat, reply: Reply<Ack>) returns (r: SyncState)
      modifies this, win`storage, win`trace
      ensures Valid() && r == data
      ensures DidUpdate(patch, now, reply)
    {
      data := Merge(data, patch, now);
      SaveToLocalStorage();
      var pushed := PushToServer(reply);
      if pushed.Ok? {
        win.trace := win.trace + [DataUpdated(data)];
      }
      r := data;
    }

    /** `addStudent`: `idClock` is the reading used for a missing id, `now` the one `updateData` takes. */
    method AddStudent(student: Record, idClock: nat, now: nat, reply: Reply<Ack>) returns (r: SyncState)
      requires Valid()
      modifies this, win`storage, win`trace
      ensures Valid() && r == data
      ensures DidUpdate(StudentsPatch(old(data).students + [WithId(student, "student_", idClock)]), now, reply)
    {
      var added := WithId(student, "student_", idClock);
      var students := data.students + [added];
      data := data.(students := students);
      r := UpdateData(StudentsPatch(students), now, reply);
    }

    /** `updateStudent`: the first student whose id is `=== id`, or NotFound. */
    method UpdateStudent(id: Value, updates: Record, now: nat, reply: Reply<Ack>) returns (r: Result<SyncState, SyncError>)
      requires Valid()
      modifies this, win`storage, win`trace
      ensures Valid()
      ensures match UpdateFirst(old(data).students, id, updates, Strict)
        case None => r == Err(NotFound(id)) && data == old(data)
          && win.storage == old(win.storage) && win.trace == old(win.trace)
        case Some(students) => DidUpdate(StudentsPatch(students), now, reply) && r == Ok(data)
    {
      var students := UpdateFirst(data.students, id, updates, Strict);
      if students.None? {
        return Err(NotFound(id));
      }
      data := data.(students := students.value);
      var s := UpdateData(StudentsPatch(students.value), now, reply);
      r := Ok(s);
    }

    /** `addClass` */
    method AddClass(classData: Record, idClock: nat, now: nat, reply: Reply<Ack>) returns (r: SyncState)
      requires Valid()
      modifies this, win`storage, win`trace
      ensures Valid() && r == data
      ensures DidUpdate(ClassesPatch(old(data).classes + [WithId(classData, "class_", idClock)]), now, reply)
    {
      var added := WithId(classData, "class_", idClock);
      var classes := data.classes + [added];
      data := data.(classes := classes);
      r := UpdateData(ClassesPatch(classes), now, reply);
    }

    /** `updateClass` */
    method UpdateClass(id: Value, updates: Record, now: nat, reply: Reply<Ack>) returns (r: Result<SyncState, SyncError>)
      requires Valid()
      modifies this, win`storage, win`trace
      ensures Valid()
      ensures match UpdateFirst(old(data).classes, id, updates, Strict)
        case None => r == Err(NotFound(id)) && data == old(data)
          && win.storage == old(win.storage) && win.trace == old(win.trace)
        case Some(classes) => DidUpdate(ClassesPatch(classes), now, reply) && r == Ok(data)
    {
      var classes := UpdateFirst(data.classes, id, updates, Strict);
      if classes.None? {
        return Err(NotFound(id));
      }
      data := data.(classes := classes.value);
      var s := UpdateData(ClassesPatch(classes.value), now, reply);
      r := Ok(s);
    }
  }
}
