/**
 * Task loading: walk the directory listing, keep only `.json` names, skip
 * files that escape the directory, oversized files and files that fail to
 * parse or normalise, then sort newest-first by `createdAt`.
 *
 * The filesystem is an input: a missing directory is None, and each entry
 * carries its resolved path, its size and the result of reading and parsing
 * it (None when the read or `JSON.parse` throws).
 */
module Loader {
  import opened Wrappers
  import opened Json
  import opened Normalize
  import Text
  import Sorting

  /** Files larger than this many bytes are skipped. */
  const MaxTaskFileSize: int := 1048576

  datatype Entry = Entry(name: string, resolvedPath: string, size: int, content: Option<Json>)

  /** `resolve(TASKS_DIR)` and `readdirSync(TASKS_DIR)`, in listing order. */
  datatype TaskDir = TaskDir(resolved: string, entries: seq<Entry>)

  /** `readdirSync(TASKS_DIR).filter(f => f.endsWith('.json'))` */
  function JsonEntries(entries: seq<Entry>): (r: seq<Entry>)
    ensures forall e :: e in r <==> e in entries && Text.EndsWith(e.name, ".json")
  {
    if entries == [] then []
    else
      var last := entries[|entries| - 1];
      JsonEntries(entries[..|entries| - 1]) + if Text.EndsWith(last.name, ".json") then [last] else []
  }

  /** The path-traversal guard: the resolved path starts with the resolved directory and a slash. */
  predicate Contained(resolvedDir: string, e: Entry) {
    Text.StartsWith(e.resolvedPath, resolvedDir + "/")
  }

  predicate WithinSize(e: Entry) {
    e.size <= MaxTaskFileSize
  }

  /** What one listed file contributes to the load: its task, or None when it is skipped. */
  function Accept(resolvedDir: string, e: Entry, rt: Runtime): (r: Option<Task>)
    ensures r.Some? ==> Contained(resolvedDir, e) && WithinSize(e) && e.content.Some?
    ensures r.Some? ==> Normalise(e.content.value, e.name, rt) == r
  {
    if Contained(resolvedDir, e) && WithinSize(e) && e.content.Some? then Normalise(e.content.value, e.name, rt)
    else None
  }

  /** The tasks of the accepted files, in listing order (before sorting). */
  function Accepted(resolvedDir: string, files: seq<Entry>, rt: Runtime): seq<Task>
  {
    if files == [] then []
    else
      var last := files[|files| - 1];
      var t := Accept(resolvedDir, last, rt);
      Accepted(resolvedDir, files[..|files| - 1], rt) + if t.Some? then [t.value] else []
  }

  /** The multiset of tasks `loadTasks` returns. */
  function Loaded(dir: Option<TaskDir>, rt: Runtime): seq<Task> {
    match dir
    case None => []
    case Some(d) => Accepted(d.resolved, JsonEntries(d.entries), rt)
  }

  /** Every accepted task comes from a file that passed all the guards. */
  lemma {:induction false} AcceptedSound(resolvedDir: string, files: seq<Entry>, rt: Runtime, t: Task)
    requires t in Accepted(resolvedDir, files, rt)
    ensures exists e :: e in files && Accept(resolvedDir, e, rt) == Some(t)
  {
    var init := files[..|files| - 1];
    if t in Accepted(resolvedDir, init, rt) {
      AcceptedSound(resolvedDir, init, rt, t);
      var e :| e in init && Accept(resolvedDir, e, rt) == Some(t);
      assert e in files;
    } else {
      assert Accept(resolvedDir, files[|files| - 1], rt) == Some(t);
    }
  }

  /** Every file that passes the guards and normalises contributes its task. */
  lemma {:induction false} AcceptedComplete(resolvedDir: string, files: seq<Entry>, rt: Runtime, e: Entry)
    requires e in files && Accept(resolvedDir, e, rt).Some?
    ensures Accept(resolvedDir, e, rt).value in Accepted(resolvedDir, files, rt)
  {
    var init := files[..|files| - 1];
    if e != files[|files| - 1] {
      assert e in init;
      AcceptedComplete(resolvedDir, init, rt, e);
    }
  }

  /** Newest first: `createdAt` never increases along the list. */
  predicate NewestFirst(tasks: seq<Task>) {
    forall i, j :: 0 <= i < j < |tasks| ==> tasks[i].createdAt >= tasks[j].createdAt
  }

  /**
   * `t` is the task of a listed `.json` file that lies inside the directory,
   * is within the size limit, parsed, and normalised to `t`.
   */
  predicate LoadedFrom(d: TaskDir, e: Entry, rt: Runtime, t: Task) {
    e in d.entries && Text.EndsWith(e.name, ".json") &&
    Contained(d.resolved, e) && WithinSize(e) && e.content.Some? &&
    Normalise(e.content.value, e.name, rt) == Some(t)
  }

  /** `loadTasks()` */
  method LoadTasks(dir: Option<TaskDir>, rt: Runtime) returns (tasks: seq<Task>)
    ensures dir.None? ==> tasks == []
    ensures NewestFirst(tasks)
    ensures multiset(tasks) == multiset(Loaded(dir, rt))
    ensures dir.Some? ==> forall t :: t in tasks ==> exists e :: LoadedFrom(dir.value, e, rt, t)
  {
    if dir.None? {
      return [];
    }
    var acc := AcceptAll(dir.value.resolved, JsonEntries(dir.value.entries), rt);
    tasks := SortNewestFirst(acc);
    LoadedTraced(dir.value, rt, tasks);
  }

  /** The loop over the listed `.json` files, pushing the task of each accepted one. */
  method AcceptAll(resolvedDir: string, files: seq<Entry>, rt: Runtime) returns (acc: seq<Task>)
    ensures acc == Accepted(resolvedDir, files, rt)
  {
    acc := [];
    var i := 0;
    while i < |files|
      invariant 0 <= i <= |files|
      invariant acc == Accepted(resolvedDir, files[..i], rt)
    {
      AcceptedStep(resolvedDir, files, i, rt);
      var task := AcceptFile(resolvedDir, files[i], rt);
      if task.Some? {
        acc := acc + [task.value];
      }
      i := i + 1;
    }
    assert files[..i] == files;
  }

  lemma AcceptedStep(resolvedDir: string, files: seq<Entry>, i: int, rt: Runtime)
    requires 0 <= i < |files|
    ensures var t := Accept(resolvedDir, files[i], rt);
      Accepted(resolvedDir, files[..i + 1], rt) == Accepted(resolvedDir, files[..i], rt) + if t.Some? then [t.value] else []
  {
    assert files[..i + 1][..i] == files[..i];
  }

  /**
   * The body of that loop for one file: the traversal guard, the size
   * guard, then parsing and normalising; None where the source skips the
   * file or its `try` block throws.
   */
  method AcceptFile(resolvedDir: string, file: Entry, rt: Runtime) returns (task: Option<Task>)
    ensures task == Accept(resolvedDir, file, rt)
  {
    if !Contained(resolvedDir, file) {
      return None;
    }
    if !WithinSize(file) {
      return None;
    }
    if file.content.None? || file.content.value.JNull? {
      return None;
    }
    var raw := file.content.value;
    var usage := ParseUsage(Get(raw, "usage"), rt);
    task := BuildTask(raw, file.name, usage, rt);
  }

  /** `tasks.sort((a, b) => b.createdAt - a.createdAt)` */
  method SortNewestFirst(acc: seq<Task>) returns (tasks: seq<Task>)
    ensures NewestFirst(tasks)
    ensures multiset(tasks) == multiset(acc)
  {
    var a := new Task[|acc|](k requires 0 <= k < |acc| => acc[k]);
    assert a[..] == acc;
    Sorting.SortBy(a, (x: Task, y: Task) => x.createdAt >= y.createdAt);
    tasks := a[..];
  }

  /** Every loaded task, in whatever order, traces back to the file it came from. */
  lemma LoadedTraced(d: TaskDir, rt: Runtime, tasks: seq<Task>)
    requires multiset(tasks) == multiset(Loaded(Some(d), rt))
    ensures forall t :: t in tasks ==> exists e :: LoadedFrom(d, e, rt, t)
  {
    var files := JsonEntries(d.entries);
    forall t | t in tasks
      ensures exists e :: LoadedFrom(d, e, rt, t)
    {
      assert t in multiset(Loaded(Some(d), rt));
      AcceptedSound(d.resolved, files, rt, t);
      var e :| e in files && Accept(d.resolved, e, rt) == Some(t);
      assert LoadedFrom(d, e, rt, t);
    }
  }

  /** A missing directory loads nothing. */
  lemma MissingDirectory(rt: Runtime)
    ensures Loaded(None, rt) == []
  {
  }

  /**
   * A file that escapes the directory, is larger than the limit, does not
   * parse or does not normalise is never loaded, whatever it contains.
   */
  lemma RejectedNeverLoaded(d: TaskDir, rt: Runtime, e: Entry)
    requires !Contained(d.resolved, e) || !WithinSize(e) || e.content.None?
    ensures Accept(d.resolved, e, rt).None?
  {
  }

  /** Every listed `.json` file that passes the guards and normalises is loaded. */
  lemma LoadedComplete(d: TaskDir, rt: Runtime, e: Entry)
    requires e in d.entries && Text.EndsWith(e.name, ".json")
    requires Contained(d.resolved, e) && WithinSize(e) && e.content.Some?
    requires Normalise(e.content.value, e.name, rt).Some?
    ensures Normalise(e.content.value, e.name, rt).value in Loaded(Some(d), rt)
  {
    AcceptedComplete(d.resolved, JsonEntries(d.entries), rt, e);
  }
}
