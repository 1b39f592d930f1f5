/**
 * The browser environment the sync layer runs in: `localStorage` with the
 * four keys the program uses, the `window.*` globals the integration glue
 * assigns, and an ordered trace of the effects other parties can observe
 * (cache writes, POSTs to the remote store, `dataUpdated` events).
 */
module Browser {
  import opened JsValues
  import opened SyncModel

  /** A cached JSON text: one that parses to a `T`, or one that does not. */
  datatype Entry<T> = Json(value: T) | Malformed

  /**
   * `localStorage`. Under the three JSON keys a missing entry and a stored
   * empty string read alike everywhere in the program (`if (dataStr)`,
   * `getItem(k) || '[]'`), so both are None. The mode is kept as stored;
   * its readers treat "" as missing (`|| 'morning'`).
   */
  datatype Storage = Storage(
    schoolData: Option<Entry<SyncState>>,
    students: Option<Entry<seq<Record>>>,
    classesData: Option<Entry<seq<Record>>>,
    systemMode: Option<string>)

  /** One observable effect, in the order it happens. */
  datatype Effect =
    | SavedState(state: SyncState)           // setItem('schoolData', ...)
    | SavedStudents(students: seq<Record>)   // setItem('students', ...)
    | SavedClasses(classes: seq<Record>)     // setItem('classesData', ...)
    | SavedMode(mode: string)                // setItem('systemMode', ...)
    | Posted(body: SyncState)                // POST /.netlify/functions/studentData
    | DataUpdated(detail: SyncState)         // document.dispatchEvent('dataUpdated')

  /** The number of `dataUpdated` events in a trace. */
  function Events(t: seq<Effect>): nat {
    if t == [] then 0 else (if t[0].DataUpdated? then 1 else 0) + Events(t[1..])
  }

  /** The number of POSTs in a trace. */
  function Posts(t: seq<Effect>): nat {
    if t == [] then 0 else (if t[0].Posted? then 1 else 0) + Posts(t[1..])
  }

  /** Counting distributes over concatenation of traces. */
  lemma {:induction false} CountsAppend(a: seq<Effect>, b: seq<Effect>)
    ensures Events(a + b) == Events(a) + Events(b)
    ensures Posts(a + b) == Posts(a) + Posts(b)
  {
    if a != [] {
      assert (a + b)[0] == a[0];
      assert (a + b)[1..] == a[1..] + b;
      CountsAppend(a[1..], b);
      assert Events(a + b) == (if a[0].DataUpdated? then 1 else 0) + Events(a[1..] + b);
      assert Posts(a + b) == (if a[0].Posted? then 1 else 0) + Posts(a[1..] + b);
    } else {
      assert a + b == b;
    }
  }

  class Window {
    var storage: Storage
    var trace: seq<Effect>
    var students: seq<Record>      // window.students
    var classesData: seq<Record>   // window.classesData
    var systemMode: string         // window.systemMode

    constructor(storage: Storage, students: seq<Record>, classesData: seq<Record>, systemMode: string)
      ensures this.storage == storage && trace == []
      ensures this.students == students && this.classesData == classesData
      ensures this.systemMode == systemMode
    {
      this.storage := storage;
      this.trace := [];
      this.students := students;
      this.classesData := classesData;
      this.systemMode := systemMode;
    }
  }
}
