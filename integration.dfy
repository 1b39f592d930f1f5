/**
 * data-sync-integration.js: the wrappers the page calls to edit students
 * and class groups. Each reads the current list (from `dataSync` when it
 * exists, else from the cached copy), transforms it, and saves it: first
 * the `window.*` global and the cache key, then `dataSync.updateData`,
 * whose failures it swallows.
 */
module Integration {
  import opened JsValues
  import opened Records
  import opened SyncModel
  import opened Browser
  import opened DataSync

  // ---------------------------------------------------------------------
  // Reading the current lists

  /** `JSON.parse(localStorage.getItem(key) || '[]')`: throws on a corrupt entry. */
  function ReadList(e: Option<Entry<seq<Record>>>): (r: Result<seq<Record>, SyncError>)
    ensures e.None? ==> r == Ok([])
    ensures r.Err? <==> e == Some(Malformed)
    ensures r.Ok? && e.Some? ==> e == Some(Json(r.value))
  {
    match e
    case None => Ok([])
    case Some(Json(xs)) => Ok(xs)
    case Some(Malformed) => Err(CacheCorrupt)
  }

  /** The list a student wrapper starts from: `[...dataSync.data.students]` or the cached one. */
  function CurrentStudents(sync: SyncStore?, win: Window): (r: Result<seq<Record>, SyncError>)
    reads sync, win
    ensures sync != null ==> r == Ok(sync.data.students)
    ensures sync == null && win.storage.students.None? ==> r == Ok([])
    ensures r.Err? <==> sync == null && win.storage.students == Some(Malformed)
    ensures sync == null && r.Ok? && win.storage.students.Some? ==> win.storage.students == Some(Json(r.value))
  {
    if sync != null then Ok(sync.data.students) else ReadList(win.storage.students)
  }

  /** The list a class wrapper starts from. */
  function CurrentClasses(sync: SyncStore?, win: Window): (r: Result<seq<Record>, SyncError>)
    reads sync, win
    ensures sync != null ==> r == Ok(sync.data.classes)
    ensures sync == null && win.storage.classesData.None? ==> r == Ok([])
    ensures r.Err? <==> sync == null && win.storage.classesData == Some(Malformed)
    ensures sync == null && r.Ok? && win.storage.classesData.Some? ==> win.storage.classesData == Some(Json(r.value))
  {
    if sync != null then Ok(sync.data.classes) else ReadList(win.storage.classesData)
  }

  // ---------------------------------------------------------------------
  // The list transforms

  /** `rs.filter(r => r.id != id)` */
  function RemoveMatching(rs: seq<Record>, id: Value): (r: seq<Record>)
    ensures |r| <= |rs|
    ensures forall x :: x in r <==> x in rs && !IdMatches(x, id, Loose)
  {
    if rs == [] then []
    else (if IdMatches(rs[0], id, Loose) then [] else [rs[0]]) + RemoveMatching(rs[1..], id)
  }

  /** Filtering splits over concatenation, so the survivors keep their order. */
  lemma {:induction false} RemoveMatchingAppend(a: seq<Record>, b: seq<Record>, id: Value)
    ensures RemoveMatching(a + b, id) == RemoveMatching(a, id) + RemoveMatching(b, id)
  {
    if a == [] {
      assert a + b == b;
    } else {
      assert (a + b)[0] == a[0];
      assert (a + b)[1..] == a[1..] + b;
      RemoveMatchingAppend(a[1..], b, id);
    }
  }

  /** When no id matches, the list comes back as it was. */
  lemma {:induction false} RemoveMatchingNone(rs: seq<Record>, id: Value)
    requires NoMatch(rs, id, Loose)
    ensures RemoveMatching(rs, id) == rs
  {
    if rs != [] {
      assert !IdMatches(rs[0], id, Loose);
      RemoveMatchingNone(rs[1..], id);
      assert [rs[0]] + rs[1..] == rs;
    }
  }

  /** The properties `resetAllStudentStatuses` writes over every student. */
  const ResetFields: Record := map["status" := Str("waiting"), "exitGate" := Null, "statusReason" := Str("")]

  /** `{...student, status: "waiting", exitGate: null, statusReason: ""}` */
  function ResetStatus(s: Record): (r: Record)
    ensures Get(r, "status") == Str("waiting") && Get(r, "exitGate") == Null
    ensures Get(r, "statusReason") == Str("")
    ensures forall k :: k !in ResetFields ==> Get(r, k) == Get(s, k)
    ensures r.Keys == s.Keys + ResetFields.Keys
  {
    Spread(s, ResetFields)
  }

  /** `students.map(ResetStatus)` */
  function ResetStatuses(rs: seq<Record>): (r: seq<Record>)
    ensures |r| == |rs|
    ensures forall j :: 0 <= j < |rs| ==> r[j] == ResetStatus(rs[j])
  {
    if rs == [] then [] else [ResetStatus(rs[0])] + ResetStatuses(rs[1..])
  }

  /** Resetting twice is resetting once. */
  lemma ResetStatusesIdempotent(rs: seq<Record>)
    ensures ResetStatuses(ResetStatuses(rs)) == ResetStatuses(rs)
  {
    var once := ResetStatuses(rs);
    forall j | 0 <= j < |rs| ensures ResetStatus(once[j]) == once[j] {
      assert once[j] == Spread(rs[j], ResetFields);
    }
  }

  // ---------------------------------------------------------------------
  // Backups

  /** What `createDataBackup` returns. */
  datatype Backup = Backup(students: seq<Record>, classes: seq<Record>, systemMode: string, timestamp: int)

  /** A backup as `restoreDataFromBackup` receives it: any property may be missing. */
  datatype BackupFile = BackupFile(students: Option<seq<Record>>, classes: Option<seq<Record>>, systemMode: Option<string>)

  /** `mode || 'morning'` */
  function ModeOr(m: Option<string>): (r: string)
    ensures r != ""
    ensures m.Some? && m.value != "" ==> r == m.value
    ensures m.None? || m.value == "" ==> r == "morning"
  {
    if m.Some? && m.value != "" then m.value else "morning"
  }

  /**
   * `createDataBackupWrapper`: `data` is `dataSync.data` when dataSync
   * exists; otherwise the cached lists are parsed, which throws on a
   * corrupt entry.
   */
  function CreateDataBackup(data: Option<SyncState>, st: Storage, now: nat): (r: Result<Backup, SyncError>)
    ensures r.Ok? ==> r.value.timestamp == now && r.value.systemMode != ""
    ensures data.Some? ==>
      r == Ok(Backup(data.value.students, data.value.classes, ModeOr(data.value.systemMode), now))
    ensures data.None? ==> (r.Err? <==> st.students == Some(Malformed) || st.classesData == Some(Malformed))
    ensures data.None? && r.Ok? ==>
      && r.value.students == ReadList(st.students).value
      && r.value.classes == ReadList(st.classesData).value
      && r.value.systemMode == ModeOr(st.systemMode)
  {
    if data.Some? then
      Ok(Backup(data.value.students, data.value.classes, ModeOr(data.value.systemMode), now))
    else
      match (ReadList(st.students), ReadList(st.classesData))
      case (Ok(students), Ok(classes)) => Ok(Backup(students, classes, ModeOr(st.systemMode), now))
      case _ => Err(CacheCorrupt)
  }

  /** A backup written out in full. */
  function ToFile(b: Backup): BackupFile {
    BackupFile(Some(b.students), Some(b.classes), Some(b.systemMode))
  }

  /** What restoring a backup puts in place, defaults filled in. */
  function RestoredStudents(b: BackupFile): seq<Record> { b.students.GetOr([]) }
  function RestoredClasses(b: BackupFile): seq<Record> { b.classes.GetOr([]) }

  /** Restoring a backup made from dataSync gives back its lists and mode. */
  lemma BackupRestoreRoundTrip(d: SyncState, st: Storage, now: nat)
    ensures var f := ToFile(CreateDataBackup(Some(d), st, now).value);
      && RestoredStudents(f) == d.students
      && RestoredClasses(f) == d.classes
      && ModeOr(f.systemMode) == ModeOr(d.systemMode)
  {
  }

  // ---------------------------------------------------------------------
  // Saving: local first, then the sync store

  /**
   * The `dataSync.updateData(patch)` part of a save, after the `local`
   * cache writes; nothing more when there is no dataSync.
   */
  twostate predicate Synced(sync: SyncStore?, win: Window, local: seq<Effect>, patch: Patch, now: nat, reply: Reply<Ack>)
    reads sync, win
  {
    && win.trace == old(win.trace) + local
                    + (if sync != null then UpdateEffects(old(sync.data), patch, now, reply) else [])
    && (sync != null ==> sync.data == Updated(old(sync.data), patch, now, reply))
    && win.storage.schoolData == (if sync != null then Some(Json(sync.data)) else old(win.storage.schoolData))
  }

  /** `saveStudentData(students)` happened. */
  twostate predicate StudentsSaved(sync: SyncStore?, win: Window, students: seq<Record>, now: nat, reply: Reply<Ack>)
    reads sync, win
  {
    && win.students == students
    && win.classesData == old(win.classesData) && win.systemMode == old(win.systemMode)
    && win.storage.students == Some(Json(students))
    && win.storage.classesData == old(win.storage.classesData)
    && win.storage.systemMode == old(win.storage.systemMode)
    && Synced(sync, win, [SavedStudents(students)], StudentsPatch(students), now, reply)
  }

  /** `saveClassData(classes)` happened. */
  twostate predicate ClassesSaved(sync: SyncStore?, win: Window, classes: seq<Record>, now: nat, reply: Reply<Ack>)
    reads sync, win
  {
    && win.classesData == classes
    && win.students == old(win.students) && win.systemMode == old(win.systemMode)
    && win.storage.classesData == Some(Json(classes))
    && win.storage.students == old(win.storage.students)
    && win.storage.systemMode == old(win.storage.systemMode)
    && Synced(sync, win, [SavedClasses(classes)], ClassesPatch(classes), now, reply)
  }

  method SaveStudentData(sync: SyncStore?, win: Window, students: seq<Record>, now: nat, reply: Reply<Ack>)
    requires sync != null ==> sync.win == win && sync.Valid()
    modifies win, sync
    ensures sync != null ==> sync.Valid()
    ensures StudentsSaved(sync, win, students, now, reply)
  {
    win.students := students;
    win.storage := win.storage.(students := Some(Json(students)));
    win.trace := win.trace + [SavedStudents(students)];
    if sync != null {
      var _ := sync.UpdateData(StudentsPatch(students), now, reply);
    }
  }

  method SaveClassData(sync: SyncStore?, win: Window, classes: seq<Record>, now: nat, reply: Reply<Ack>)
    requires sync != null ==> sync.win == win && sync.Valid()
    modifies win, sync
    ensures sync != null ==> sync.Valid()
    ensures ClassesSaved(sync, win, classes, now, reply)
  {
    win.classesData := classes;
    win.storage := win.storage.(classesData := Some(Json(classes)));
    win.trace := win.trace + [SavedClasses(classes)];
    if sync != null {
      var _ := sync.UpdateData(ClassesPatch(classes), now, reply);
    }
  }

  method SaveSystemMode(sync: SyncStore?, win: Window, mode: string, now: nat, reply: Reply<Ack>)
    requires sync != null ==> sync.win == win && sync.Valid()
    modifies win, sync
    ensures sync != null ==> sync.Valid()
    ensures win.systemMode == mode
    ensures win.students == old(win.students) && win.classesData == old(win.classesData)
    ensures win.storage.systemMode == Some(mode)
    ensures win.storage.students == old(win.storage.students)
    ensures win.storage.classesData == old(win.storage.classesData)
    ensures Synced(sync, win, [SavedMode(mode)], Patch(None, None, Some(mode)), now, reply)
  {
    win.systemMode := mode;
    win.storage := win.storage.(systemMode := Some(mode));
    win.trace := win.trace + [SavedMode(mode)];
    if sync != null {
      var _ := sync.UpdateData(Patch(None, None, Some(mode)), now, reply);
    }
  }

  /**
   * `updateLocalDataFromSync`, run on every `dataUpdated` event: copies the
   * store's lists (arrays are always truthy) and its mode, when it has a
   * non-empty one, into the globals.
   */
  method UpdateLocalDataFromSync(sync: SyncStore?, win: Window)
    modifies win`students, win`classesData, win`systemMode
    ensures sync == null ==> unchanged(win)
    ensures sync != null ==> win.students == sync.data.students && win.classesData == sync.data.classes
    ensures win.systemMode
         == (if sync != null && sync.data.systemMode.Some? && sync.data.systemMode.value != ""
             then sync.data.systemMode.value else old(win.systemMode))
  {
    if sync != null {
      win.students := sync.data.students;
      win.classesData := sync.data.classes;
      if sync.data.systemMode.Some? && sync.data.systemMode.value != "" {
        win.systemMode := sync.data.systemMode.value;
      }
    }
  }

  // ---------------------------------------------------------------------
  // The wrappers

  method AddStudentWrapper(sync: SyncStore?, win: Window, studentData: Record, now: nat, reply: Reply<Ack>)
    returns (r: Result<(), SyncError>)
    requires sync != null ==> sync.win == win && sync.Valid()
    modifies win, sync
    ensures sync != null ==> sync.Valid()
    ensures match old(CurrentStudents(sync, win))
      case Err(e) => r == Err(e) && unchanged(win)
      case Ok(current) => r == Ok(()) && StudentsSaved(sync, win, current + [studentData], now, reply)
  {
    var current := CurrentStudents(sync, win);
    if current.Err? {
      return Err(current.error);
    }
    SaveStudentData(sync, win, current.value + [studentData], now, reply);
    r := Ok(());
  }

  method UpdateStudentWrapper(sync: SyncStore?, win: Window, studentId: Value, updatedData: Record, now: nat, reply: Reply<Ack>)
    returns (r: Result<(), SyncError>)
    requires sync != null ==> sync.win == win && sync.Valid()
    modifies win, sync
    ensures sync != null ==> sync.Valid()
    ensures match old(CurrentStudents(sync, win))
      case Err(e) => r == Err(e) && unchanged(win)
      case Ok(current) =>
        && r == Ok(())
        && (match UpdateFirst(current, studentId, updatedData, Loose)
            case None => unchanged(win) && (sync != null ==> unchanged(sync))
            case Some(students) => StudentsSaved(sync, win, students, now, reply))
  {
    var current := CurrentStudents(sync, win);
    if current.Err? {
      return Err(current.error);
    }
    var students := UpdateFirst(current.value, studentId, updatedData, Loose);
    if students.Some? {
      SaveStudentData(sync, win, students.value, now, reply);
    }
    r := Ok(());
  }

  method DeleteStudentWrapper(sync: SyncStore?, win: Window, studentId: Value, now: nat, reply: Reply<Ack>)
    returns (r: Result<(), SyncError>)
    requires sync != null ==> sync.win == win && sync.Valid()
    modifies win, sync
    ensures sync != null ==> sync.Valid()
    ensures match old(CurrentStudents(sync, win))
      case Err(e) => r == Err(e) && unchanged(win)
      case Ok(current) => r == Ok(()) && StudentsSaved(sync, win, RemoveMatching(current, studentId), now, reply)
  {
    var current := CurrentStudents(sync, win);
    if current.Err? {
      return Err(current.error);
    }
    SaveStudentData(sync, win, RemoveMatching(current.value, studentId), now, reply);
    r := Ok(());
  }

  method AddClassWrapper(sync: SyncStore?, win: Window, classData: Record, now: nat, reply: Reply<Ack>)
    returns (r: Result<(), SyncError>)
    requires sync != null ==> sync.win == win && sync.Valid()
    modifies win, sync
    ensures sync != null ==> sync.Valid()
    ensures match old(CurrentClasses(sync, win))
      case Err(e) => r == Err(e) && unchanged(win)
      case Ok(current) => r == Ok(()) && ClassesSaved(sync, win, current + [classData], now, reply)
  {
    var current := CurrentClasses(sync, win);
    if current.Err? {
      return Err(current.error);
    }
    SaveClassData(sync, win, current.value + [classData], now, reply);
    r := Ok(());
  }

  method UpdateClassWrapper(sync: SyncStore?, win: Window, classId: Value, updatedData: Record, now: nat, reply: Reply<Ack>)
    returns (r: Result<(), SyncError>)
    requires sync != null ==> sync.win == win && sync.Valid()
    modifies win, sync
    ensures sync != null ==> sync.Valid()
    ensures match old(CurrentClasses(sync, win))
      case Err(e) => r == Err(e) && unchanged(win)
      case Ok(current) =>
        && r == Ok(())
        && (match UpdateFirst(current, classId, updatedData, Loose)
            case None => unchanged(win) && (sync != null ==> unchanged(sync))
            case Some(classes) => ClassesSaved(sync, win, classes, now, reply))
  {
    var current := CurrentClasses(sync, win);
    if current.Err? {
      return Err(current.error);
    }
    var classes := UpdateFirst(current.value, classId, updatedData, Loose);
    if classes.Some? {
      SaveClassData(sync, win, classes.value, now, reply);
    }
    r := Ok(());
  }

  method DeleteClassWrapper(sync: SyncStore?, win: Window, classId: Value, now: nat, reply: Reply<Ack>)
    returns (r: Result<(), SyncError>)
    requires sync != null ==> sync.win == win && sync.Valid()
    modifies win, sync
    ensures sync != null ==> sync.Valid()
    ensures match old(CurrentClasses(sync, win))
      case Err(e) => r == Err(e) && unchanged(win)
      case Ok(current) => r == Ok(()) && ClassesSaved(sync, win, RemoveMatching(current, classId), now, reply)
  {
    var current := CurrentClasses(sync, win);
    if current.Err? {
      return Err(current.error);
    }
    SaveClassData(sync, win, RemoveMatching(current.value, classId), now, reply);
    r := Ok(());
  }

  method BulkImportStudentsWrapper(sync: SyncStore?, win: Window, studentsToImport: seq<Record>, now: nat, reply: Reply<Ack>)
    returns (r: Result<(), SyncError>)
    requires sync != null ==> sync.win == win && sync.Valid()
    modifies win, sync
    ensures sync != null ==> sync.Valid()
    ensures match old(CurrentStudents(sync, win))
      case Err(e) => r == Err(e) && unchanged(win)
      case Ok(current) => r == Ok(()) && StudentsSaved(sync, win, current + studentsToImport, now, reply)
  {
    var current := CurrentStudents(sync, win);
    if current.Err? {
      return Err(current.error);
    }
    SaveStudentData(sync, win, current.value + studentsToImport, now, reply);
    r := Ok(());
  }

  method ResetAllStudentStatusesWrapper(sync: SyncStore?, win: Window, now: nat, reply: Reply<Ack>)
    returns (r: Result<(), SyncError>)
    requires sync != null ==> sync.win == win && sync.Valid()
    modifies win, sync
    ensures sync != null ==> sync.Valid()
    ensures match old(CurrentStudents(sync, win))
      case Err(e) => r == Err(e) && unchanged(win)
      case Ok(current) => r == Ok(()) && StudentsSaved(sync, win, ResetStatuses(current), now, reply)
  {
    var current := CurrentStudents(sync, win);
    if current.Err? {
      return Err(current.error);
    }
    SaveStudentData(sync, win, ResetStatuses(current.value), now, reply);
    r := Ok(());
  }

  method RestoreDataFromBackupWrapper(sync: SyncStore?, win: Window, backupData: BackupFile, now: nat, reply: Reply<Ack>)
    requires sync != null ==> sync.win == win && sync.Valid()
    modifies win, sync
    ensures sync != null ==> sync.Valid()
    ensures var students := RestoredStudents(backupData);
      var classes := RestoredClasses(backupData);
      var mode := ModeOr(backupData.systemMode);
      && win.students == students && win.classesData == classes && win.systemMode == mode
      && win.storage.students == Some(Json(students))
      && win.storage.classesData == Some(Json(classes))
      && win.storage.systemMode == Some(mode)
      && Synced(sync, win, [SavedStudents(students), SavedClasses(classes), SavedMode(mode)],
                Patch(Some(students), Some(classes), Some(mode)), now, reply)
  {
    win.students := RestoredStudents(backupData);
    win.classesData := RestoredClasses(backupData);
    win.systemMode := ModeOr(backupData.systemMode);
    win.storage := win.storage.(students := Some(Json(win.students)));
    win.trace := win.trace + [SavedStudents(win.students)];
    win.storage := win.storage.(classesData := Some(Json(win.classesData)));
    win.trace := win.trace + [SavedClasses(win.classesData)];
    win.storage := win.storage.(systemMode := Some(win.systemMode));
    win.trace := win.trace + [SavedMode(win.systemMode)];
    if sync != null {
      var _ := sync.UpdateData(Patch(Some(win.students), Some(win.classesData), Some(win.systemMode)), now, reply);
    }
  }
}
