/**
 * The value side of the sync store: the state it owns, the partial
 * updates merged into it, the replies of the remote store, the
 * last-write-wins decision, and the plain-object view of a state that is
 * what the client serialises and the serverless function receives.
 */
module SyncModel {
  import opened JsValues

  /**
   * `dataSync.data`: the students, the class groups, the last-write time
   * and the system mode once a save has put one there.
   */
  datatype SyncState = SyncState(
    students: seq<Record>,
    classes: seq<Record>,
    timestamp: int,
    systemMode: Option<string>)

  /** `{ students: [], classes: [], timestamp: 0 }` */
  const Default := SyncState([], [], 0, None)

  /** The `newData` object passed to `updateData`: the properties it carries. */
  datatype Patch = Patch(
    students: Option<seq<Record>>,
    classes: Option<seq<Record>>,
    systemMode: Option<string>)

  /** The acknowledgement of a POST: the only property the client reads. */
  datatype Ack = Ack(timestamp: int)

  /** What a fetch delivers: the parsed body of an OK reply, or a failure. */
  datatype Reply<T> = Success(payload: T) | Failure

  datatype SyncError = RemoteUnavailable | NotFound(id: Value) | CacheCorrupt

  /** `{...s, ...p, timestamp: now}` */
  function Merge(s: SyncState, p: Patch, now: nat): (r: SyncState)
    ensures r.timestamp == now
    ensures r.students == p.students.GetOr(s.students)
    ensures r.classes == p.classes.GetOr(s.classes)
    ensures r.systemMode == (if p.systemMode.Some? then p.systemMode else s.systemMode)
  {
    SyncState(
      p.students.GetOr(s.students),
      p.classes.GetOr(s.classes),
      now,
      if p.systemMode.Some? then p.systemMode else s.systemMode)
  }

  /** Merging is idempotent for a fixed clock reading. */
  lemma MergeIdempotent(s: SyncState, p: Patch, now: nat)
    ensures Merge(Merge(s, p, now), p, now) == Merge(s, p, now)
  {
  }

  /** What `fetchFromServer` does with a reply carrying a server timestamp. */
  datatype Decision = Adopt | PushLocal | Keep

  /**
   * `!local || server > local` adopts, `local > server` pushes, otherwise
   * nothing. A zero (falsy) local timestamp adopts whatever the server has.
   */
  function Decide(local: int, server: int): (d: Decision)
    ensures d == Adopt <==> local == 0 || server > local
    ensures d == PushLocal <==> local != 0 && local > server
    ensures d == Keep <==> local != 0 && local == server
  {
    if local == 0 || server > local then Adopt
    else if local > server then PushLocal
    else Keep
  }

  /**
   * Adopting only when the server's data is newer (`server > local`), as the
   * comment above the comparison intends, agrees with `Decide` everywhere
   * except at a zero local timestamp.
   */
  lemma DecideIsLastWriteWinsAwayFromZero(local: int, server: int)
    requires local != 0
    ensures Decide(local, server) == Adopt <==> server > local
  {
  }

  // ---------------------------------------------------------------------
  // The plain-object view of a state

  function RecordsValue(rs: seq<Record>): (v: Value)
    ensures v.List? && |v.items| == |rs|
    ensures forall i :: 0 <= i < |rs| ==> v.items[i] == Object(rs[i])
  {
    List(seq(|rs|, i requires 0 <= i < |rs| => Object(rs[i])))
  }

  /** Reads a list of plain objects back; None when `v` is anything else. */
  function ValueRecords(v: Value): (r: Option<seq<Record>>)
    ensures r.Some? ==> (v.List? && |r.value| == |v.items|
      && forall i :: 0 <= i < |v.items| ==> v.items[i] == Object(r.value[i]))
  {
    if v.List? && forall i :: 0 <= i < |v.items| ==> v.items[i].Object? then
      Some(seq(|v.items|, i requires 0 <= i < |v.items| => v.items[i].fields))
    else None
  }

  function ModeObject(m: Option<string>): Record {
    if m.Some? then map["systemMode" := Str(m.value)] else map[]
  }

  /** The object `dataSync.data` is, property by property. */
  function ToObject(s: SyncState): Record {
    map["students" := RecordsValue(s.students),
        "classes" := RecordsValue(s.classes),
        "timestamp" := Num(s.timestamp)] + ModeObject(s.systemMode)
  }

  /** The object `newData` is. */
  function PatchObject(p: Patch): Record {
    (if p.students.Some? then map["students" := RecordsValue(p.students.value)] else map[])
    + (if p.classes.Some? then map["classes" := RecordsValue(p.classes.value)] else map[])
    + ModeObject(p.systemMode)
  }

  /**
   * Reads a state back from an object; None when a property has the wrong
   * shape, a case the client does not check for and the model leaves out.
   */
  function FromObject(o: Record): (r: Option<SyncState>)
    ensures r.Some? <==>
      && ValueRecords(Get(o, "students")).Some?
      && ValueRecords(Get(o, "classes")).Some?
      && Get(o, "timestamp").Num?
      && (Get(o, "systemMode").Undefined? || Get(o, "systemMode").Str?)
    ensures r.Some? ==>
      && Some(r.value.students) == ValueRecords(Get(o, "students"))
      && Some(r.value.classes) == ValueRecords(Get(o, "classes"))
      && Get(o, "timestamp") == Num(r.value.timestamp)
      && r.value.systemMode == (if Get(o, "systemMode").Str? then Some(Get(o, "systemMode").s) else None)
  {
    var students := ValueRecords(Get(o, "students"));
    var classes := ValueRecords(Get(o, "classes"));
    var ts := Get(o, "timestamp");
    var mode := Get(o, "systemMode");
    if students.Some? && classes.Some? && ts.Num? && (mode.Undefined? || mode.Str?) then
      Some(SyncState(students.value, classes.value, ts.n, if mode.Str? then Some(mode.s) else None))
    else None
  }

  lemma RecordsRoundTrip(rs: seq<Record>)
    ensures ValueRecords(RecordsValue(rs)) == Some(rs)
  {
    var v := RecordsValue(rs);
    assert forall i :: 0 <= i < |v.items| ==> v.items[i].Object?;
    var back := ValueRecords(v).value;
    assert |back| == |rs|;
    forall i | 0 <= i < |rs| ensures back[i] == rs[i] {
      assert v.items[i] == Object(back[i]) == Object(rs[i]);
    }
    assert back == rs;
  }

  /** Reading back the object view of a state gives the state. */
  lemma ObjectRoundTrip(s: SyncState)
    ensures FromObject(ToObject(s)) == Some(s)
  {
    var o := ToObject(s);
    assert Get(o, "students") == RecordsValue(s.students);
    assert Get(o, "classes") == RecordsValue(s.classes);
    assert Get(o, "timestamp") == Num(s.timestamp);
    RecordsRoundTrip(s.students);
    RecordsRoundTrip(s.classes);
    if s.systemMode.Some? {
      assert Get(o, "systemMode") == Str(s.systemMode.value);
    } else {
      assert "systemMode" !in o;
    }
  }

  /**
   * Merge is the object spread `updateData` writes:
   * `{...this.data, ...newData, timestamp: Date.now()}`.
   */
  lemma MergeIsSpread(s: SyncState, p: Patch, now: nat)
    ensures ToObject(Merge(s, p, now))
         == Spread(Spread(ToObject(s), PatchObject(p)), map["timestamp" := Num(now)])
  {
    var lhs := ToObject(Merge(s, p, now));
    var rhs := Spread(Spread(ToObject(s), PatchObject(p)), map["timestamp" := Num(now)]);
    MergeSpreadKeys(s, p, now);
    MergeSpreadReads(s, p, now);
    SameByGet(lhs, rhs);
  }

  lemma MergeSpreadKeys(s: SyncState, p: Patch, now: nat)
    ensures var lhs := ToObject(Merge(s, p, now));
      && lhs.Keys == Spread(Spread(ToObject(s), PatchObject(p)), map["timestamp" := Num(now)]).Keys
      && lhs.Keys <= {"students", "classes", "timestamp", "systemMode"}
  {
    PatchObjectAt(p);
    ToObjectAt(s);
    ToObjectAt(Merge(s, p, now));
  }

  lemma MergeSpreadReads(s: SyncState, p: Patch, now: nat)
    ensures var lhs := ToObject(Merge(s, p, now));
      var rhs := Spread(Spread(ToObject(s), PatchObject(p)), map["timestamp" := Num(now)]);
      && Get(lhs, "students") == Get(rhs, "students")
      && Get(lhs, "classes") == Get(rhs, "classes")
      && Get(lhs, "timestamp") == Get(rhs, "timestamp")
      && Get(lhs, "systemMode") == Get(rhs, "systemMode")
  {
    PatchObjectAt(p);
    ToObjectAt(s);
    ToObjectAt(Merge(s, p, now));
  }

  /** Two state-shaped objects that read alike at the four properties are equal. */
  lemma SameByGet(a: Record, b: Record)
    requires a.Keys == b.Keys && a.Keys <= {"students", "classes", "timestamp", "systemMode"}
    requires Get(a, "students") == Get(b, "students") && Get(a, "classes") == Get(b, "classes")
    requires Get(a, "timestamp") == Get(b, "timestamp") && Get(a, "systemMode") == Get(b, "systemMode")
    ensures a == b
  {
    forall k | k in a ensures a[k] == b[k] {
      assert Get(a, k) == Get(b, k);
    }
  }

  lemma ToObjectAt(s: SyncState)
    ensures ToObject(s).Keys == {"students", "classes", "timestamp"} + ModeObject(s.systemMode).Keys
    ensures Get(ToObject(s), "students") == RecordsValue(s.students)
    ensures Get(ToObject(s), "classes") == RecordsValue(s.classes)
    ensures Get(ToObject(s), "timestamp") == Num(s.timestamp)
    ensures Get(ToObject(s), "systemMode") == Get(ModeObject(s.systemMode), "systemMode")
  {
  }

  lemma PatchObjectAt(p: Patch)
    ensures "timestamp" !in PatchObject(p)
    ensures PatchObject(p).Keys <= {"students", "classes", "systemMode"}
    ensures "students" in PatchObject(p) <==> p.students.Some?
    ensures p.students.Some? ==> PatchObject(p)["students"] == RecordsValue(p.students.value)
    ensures "classes" in PatchObject(p) <==> p.classes.Some?
    ensures p.classes.Some? ==> PatchObject(p)["classes"] == RecordsValue(p.classes.value)
    ensures Get(PatchObject(p), "systemMode") == Get(ModeObject(p.systemMode), "systemMode")
  {
  }
}
