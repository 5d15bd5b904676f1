/**
 * Record normalisation: one schema-free JSON object read from a task file
 * becomes a typed Task. Every field has a fallback; the only ways to fail
 * are a null document and a `status` or `priority` whose value has no
 * `toLowerCase` method (the source throws there and the loader drops the
 * file).
 */
module Normalize {
  import opened Wrappers
  import opened Json
  import Text

  datatype Status = Inbox | Assigned | InProgress | Review | Waiting | Done

  /** 0 = urgent, 1 = high, 2 = normal. */
  type Priority = p: int | 0 <= p <= 2

  datatype TokenUsage = TokenUsage(
    inputTokens: int,
    outputTokens: int,
    cacheReadTokens: Option<int>,
    cacheWriteTokens: Option<int>,
    model: Option<string>,
    provider: Option<string>,
    timestamp: Option<int>)

  datatype Task = Task(
    id: string,
    title: string,
    description: string,
    status: Status,
    priority: Priority,
    assigneeId: Option<string>,
    tags: seq<string>,
    createdAt: int,
    updatedAt: int,
    usage: Option<seq<TokenUsage>>)

  // ------------------------------------------------------------- status

  const DoneWords: set<string> := {"complete", "completed", "done", "approved"}
  const InProgressWords: set<string> := {"in-progress", "in_progress", "active", "working"}
  const ReviewWords: set<string> := {"review", "submitted", "pending_review"}
  const AssignedWords: set<string> := {"assigned", "claimed"}
  const WaitingWords: set<string> := {"waiting", "blocked", "paused"}

  /** The synonym tables, tried in the source's order; anything else is the inbox. */
  function StatusOfWord(w: string): Status {
    if w in DoneWords then Done
    else if w in InProgressWords then InProgress
    else if w in ReviewWords then Review
    else if w in AssignedWords then Assigned
    else if w in WaitingWords then Waiting
    else Inbox
  }

  /**
   * `mapStatus(raw.status)`. None stands for the TypeError thrown when the
   * value is neither nullish nor a string.
   */
  function MapStatus(raw: Option<Json>): (r: Option<Status>)
    ensures r.None? <==> !Nullish(raw) && !raw.value.JStr?
    ensures Nullish(raw) ==> r == Some(Inbox)
  {
    match raw
    case None => Some(Inbox)
    case Some(JNull) => Some(Inbox)
    case Some(JStr(s)) =>
      var w := Text.Lower(s);
      Some(StatusOfWord(if w == "" then "inbox" else w))
    case Some(_) => None
  }

  /** The five synonym tables are pairwise disjoint and none names the inbox. */
  lemma SynonymTablesDisjoint()
    ensures DoneWords !! InProgressWords && DoneWords !! ReviewWords && DoneWords !! AssignedWords
    ensures DoneWords !! WaitingWords && InProgressWords !! ReviewWords && InProgressWords !! AssignedWords
    ensures InProgressWords !! WaitingWords && ReviewWords !! AssignedWords && ReviewWords !! WaitingWords
    ensures AssignedWords !! WaitingWords
  {
  }

  /** A string status maps to a canonical status exactly when its lower-case form is in that status's table. */
  lemma MapStatusSynonyms(s: string)
    ensures MapStatus(Some(JStr(s))) == Some(Done) <==> Text.Lower(s) in DoneWords
    ensures MapStatus(Some(JStr(s))) == Some(InProgress) <==> Text.Lower(s) in InProgressWords
    ensures MapStatus(Some(JStr(s))) == Some(Review) <==> Text.Lower(s) in ReviewWords
    ensures MapStatus(Some(JStr(s))) == Some(Assigned) <==> Text.Lower(s) in AssignedWords
    ensures MapStatus(Some(JStr(s))) == Some(Waiting) <==> Text.Lower(s) in WaitingWords
    ensures MapStatus(Some(JStr(s))) == Some(Inbox) <==>
      Text.Lower(s) !in DoneWords + InProgressWords + ReviewWords + AssignedWords + WaitingWords
  {
    SynonymTablesDisjoint();
  }

  /** Matching ignores ASCII case: a string and its lower-case form map alike. */
  lemma MapStatusIgnoresCase(s: string)
    ensures MapStatus(Some(JStr(s))) == MapStatus(Some(JStr(Text.Lower(s))))
  {
    Text.LowerIdempotent(s);
  }

  // ----------------------------------------------------------- priority

  const UrgentWords: set<string> := {"urgent", "p0", "critical"}
  const HighWords: set<string> := {"high", "p1"}

  /** `mapPriority(raw.priority)`; None stands for the TypeError on a non-string value. */
  function MapPriority(raw: Option<Json>): (r: Option<Priority>)
    ensures r.None? <==> !Nullish(raw) && !raw.value.JStr?
    ensures Nullish(raw) ==> r == Some(2)
  {
    match raw
    case None => Some(2)
    case Some(JNull) => Some(2)
    case Some(JStr(s)) =>
      var w := Text.Lower(s);
      var p := if w == "" then "normal" else w;
      Some(if p in UrgentWords then 0 else if p in HighWords then 1 else 2)
    case Some(_) => None
  }

  /** A string priority is 0 for urgent/p0/critical and 1 for high/p1 in any case, 2 otherwise. */
  lemma MapPriorityLevels(s: string)
    ensures MapPriority(Some(JStr(s))) == Some(0) <==> Text.Lower(s) in UrgentWords
    ensures MapPriority(Some(JStr(s))) == Some(1) <==> Text.Lower(s) in HighWords
    ensures MapPriority(Some(JStr(s))) == Some(2) <==> Text.Lower(s) !in UrgentWords + HighWords
  {
  }

  // ----------------------------------------------------------- assignee

  /** `x > 0` for the `length` of a deliverables value; undefined compares false. */
  predicate LengthPositive(length: Option<Json>, rt: Runtime) {
    length.Some? && ToNumber(length.value, rt) > 0
  }

  /** `deliverables && deliverables.length > 0 ? deliverables[0]?.assignee : undefined` */
  function FirstDeliverableAssignee(d: Option<Json>, rt: Runtime): (r: Option<Json>)
    ensures d.Some? && d.value.JArr? && |d.value.items| > 0 ==> r == Get(d.value.items[0], "assignee")
    ensures !Truthy(d) ==> r.None?
  {
    if !Truthy(d) then None
    else match d.value
      case JArr(items) => if |items| > 0 then Get(items[0], "assignee") else None
      case JObj(m) =>
        if LengthPositive(Get(d.value, "length"), rt) && "0" in m then Get(m["0"], "assignee") else None
      case _ => None
  }

  /** `extractAssignee(raw)`: the first truthy of `claimed_by`, `assignee`, `deliverables[0].assignee`. */
  function ExtractAssignee(raw: Json, rt: Runtime): (r: Option<string>)
    ensures Truthy(Get(raw, "claimed_by")) ==> r == Some(ToStr(Get(raw, "claimed_by").value))
    ensures !Truthy(Get(raw, "claimed_by")) && Truthy(Get(raw, "assignee")) ==>
      r == Some(ToStr(Get(raw, "assignee").value))
    ensures !Truthy(Get(raw, "claimed_by")) && !Truthy(Get(raw, "assignee")) ==>
      var first := FirstDeliverableAssignee(Get(raw, "deliverables"), rt);
      r == (if Truthy(first) then Some(ToStr(first.value)) else None)
  {
    var claimed := Get(raw, "claimed_by");
    var assignee := Get(raw, "assignee");
    if Truthy(claimed) then Some(ToStr(claimed.value))
    else if Truthy(assignee) then Some(ToStr(assignee.value))
    else
      var first := FirstDeliverableAssignee(Get(raw, "deliverables"), rt);
      if Truthy(first) then Some(ToStr(first.value)) else None
  }

  /** With no truthy claimant and no truthy assignee, a deliverables array's first entry names the assignee. */
  lemma AssigneeFromDeliverables(raw: Json, items: seq<Json>, rt: Runtime)
    requires !Truthy(Get(raw, "claimed_by")) && !Truthy(Get(raw, "assignee"))
    requires Get(raw, "deliverables") == Some(JArr(items)) && |items| > 0
    ensures Truthy(Get(items[0], "assignee")) ==> ExtractAssignee(raw, rt) == Some(ToStr(Get(items[0], "assignee").value))
    ensures !Truthy(Get(items[0], "assignee")) ==> ExtractAssignee(raw, rt).None?
  {
  }

  // --------------------------------------------------------------- tags

  /** `extractTags(raw)` */
  function ExtractTags(raw: Json): (r: seq<string>)
    ensures Get(raw, "tags").Some? && Get(raw, "tags").value.JArr? ==>
      var items := Get(raw, "tags").value.items;
      |r| == |items| && forall i :: 0 <= i < |items| ==> r[i] == ToStr(items[i])
    ensures !(Get(raw, "tags").Some? && Get(raw, "tags").value.JArr?) ==>
      r == (if Truthy(Get(raw, "type")) then [ToStr(Get(raw, "type").value)] else [])
  {
    var tags := Get(raw, "tags");
    if tags.Some? && tags.value.JArr? then
      var items := tags.value.items;
      seq(|items|, i requires 0 <= i < |items| => ToStr(items[i]))
    else
      var kind := Get(raw, "type");
      if Truthy(kind) then [ToStr(kind.value)] else []
  }

  // -------------------------------------------------------------- usage

  /** `Number(a ?? b ?? 0)` */
  function CountOf(a: Option<Json>, b: Option<Json>, rt: Runtime): int {
    ToNumber(Coalesce(Coalesce(a, b), Some(JNum(0))).value, rt)
  }

  /** `a != null ? Number(a) : (b != null ? Number(b) : undefined)` */
  function OptionalCount(a: Option<Json>, b: Option<Json>, rt: Runtime): Option<int> {
    if !Nullish(a) then Some(ToNumber(a.value, rt))
    else if !Nullish(b) then Some(ToNumber(b.value, rt))
    else None
  }

  /** `a != null ? String(a) : undefined` */
  function OptionalText(a: Option<Json>): Option<string> {
    if Nullish(a) then None else Some(ToStr(a.value))
  }

  /** The TokenUsage record built from one usage element. */
  function DecodeUsage(item: Json, rt: Runtime): TokenUsage {
    TokenUsage(
      CountOf(Get(item, "inputTokens"), Get(item, "input_tokens"), rt),
      CountOf(Get(item, "outputTokens"), Get(item, "output_tokens"), rt),
      OptionalCount(Get(item, "cacheReadTokens"), Get(item, "cache_read_tokens"), rt),
      OptionalCount(Get(item, "cacheWriteTokens"), Get(item, "cache_write_tokens"), rt),
      OptionalText(Get(item, "model")),
      OptionalText(Get(item, "provider")),
      OptionalCount(Get(item, "timestamp"), None, rt))
  }

  /** `typeof item === 'object' && item !== null`: objects and arrays. */
  predicate IsObjectLike(item: Json) {
    item.JObj? || item.JArr?
  }

  /** An element survives when it is object-like and not both of its counts are zero. */
  predicate KeepsUsage(item: Json, rt: Runtime) {
    IsObjectLike(item) &&
    var u := DecodeUsage(item, rt);
    !(u.inputTokens == 0 && u.outputTokens == 0)
  }

  /** The surviving usage records of `items`, in order. */
  function KeptUsage(items: seq<Json>, rt: Runtime): seq<TokenUsage>
  {
    if items == [] then []
    else
      var last := items[|items| - 1];
      KeptUsage(items[..|items| - 1], rt) + if KeepsUsage(last, rt) then [DecodeUsage(last, rt)] else []
  }

  /** `parseUsage(raw.usage)` as a value: undefined for a non-array, and undefined rather than `[]`. */
  function UsageOf(raw: Option<Json>, rt: Runtime): (r: Option<seq<TokenUsage>>)
    ensures r.Some? ==> |r.value| > 0
    ensures !(raw.Some? && raw.value.JArr?) ==> r.None?
    ensures raw.Some? && raw.value.JArr? && |KeptUsage(raw.value.items, rt)| > 0 ==>
      r == Some(KeptUsage(raw.value.items, rt))
  {
    if raw.Some? && raw.value.JArr? then
      var kept := KeptUsage(raw.value.items, rt);
      if |kept| > 0 then Some(kept) else None
    else None
  }

  /** Filtering distributes over concatenation, so surviving entries keep their input order. */
  lemma {:induction false} KeptUsageAppend(a: seq<Json>, b: seq<Json>, rt: Runtime)
    ensures KeptUsage(a + b, rt) == KeptUsage(a, rt) + KeptUsage(b, rt)
    decreases |b|
  {
    if b != [] {
      var b' := b[..|b| - 1];
      assert (a + b)[..|a + b| - 1] == a + b';
      KeptUsageAppend(a, b', rt);
    } else {
      assert a + b == a;
    }
  }

  /** A record survives exactly when it decodes an object-like element with a non-zero count. */
  lemma {:induction false} KeptUsageMembers(items: seq<Json>, rt: Runtime, u: TokenUsage)
    ensures u in KeptUsage(items, rt) <==>
      exists i :: 0 <= i < |items| && KeepsUsage(items[i], rt) && DecodeUsage(items[i], rt) == u
  {
    if items != [] {
      var init := items[..|items| - 1];
      KeptUsageMembers(init, rt, u);
      if u in KeptUsage(items, rt) && u !in KeptUsage(init, rt) {
        assert KeepsUsage(items[|items| - 1], rt) && DecodeUsage(items[|items| - 1], rt) == u;
      }
      if exists i :: 0 <= i < |items| && KeepsUsage(items[i], rt) && DecodeUsage(items[i], rt) == u {
        var i :| 0 <= i < |items| && KeepsUsage(items[i], rt) && DecodeUsage(items[i], rt) == u;
        if i < |init| {
          assert init[i] == items[i];
        }
      }
    }
  }

  /** No surviving record has both counts zero. */
  lemma {:induction false} KeptUsageNonZero(items: seq<Json>, rt: Runtime)
    ensures forall u :: u in KeptUsage(items, rt) ==> u.inputTokens != 0 || u.outputTokens != 0
  {
    if items != [] {
      KeptUsageNonZero(items[..|items| - 1], rt);
    }
  }

  /** `parseUsage`: the loop that pushes each surviving element onto `result`. */
  method ParseUsage(raw: Option<Json>, rt: Runtime) returns (r: Option<seq<TokenUsage>>)
    ensures r == UsageOf(raw, rt)
    ensures r.Some? ==> |r.value| > 0 && forall u :: u in r.value ==> u.inputTokens != 0 || u.outputTokens != 0
  {
    if !(raw.Some? && raw.value.JArr?) {
      return None;
    }
    var items := raw.value.items;
    var result: seq<TokenUsage> := [];
    var i := 0;
    while i < |items|
      invariant 0 <= i <= |items|
      invariant result == KeptUsage(items[..i], rt)
    {
      var item := items[i];
      assert items[..i + 1][..i] == items[..i];
      if IsObjectLike(item) {
        var u := DecodeUsage(item, rt);
        if !(u.inputTokens == 0 && u.outputTokens == 0) {
          result := result + [u];
        }
      }
      i := i + 1;
    }
    assert items[..i] == items;
    KeptUsageNonZero(items, rt);
    r := if |result| > 0 then Some(result) else None;
  }

  // -------------------------------------------------------------- dates

  /** `parseDate(v)`: a falsy value or an unparseable date gives the current instant. */
  function ParseDate(v: Option<Json>, rt: Runtime): (r: int)
    ensures !Truthy(v) ==> r == rt.now
    ensures Truthy(v) ==> r == rt.parseDate(v.value).GetOr(rt.now)
  {
    if !Truthy(v) then rt.now
    else match rt.parseDate(v.value)
      case Some(ms) => ms
      case None => rt.now
  }

  /**
   * The date a task record takes from the fields `keys`, tried in order:
   * the first truthy one, parsed; the current instant when none is truthy
   * or the first truthy one does not parse.
   */
  function DateField(raw: Json, keys: seq<string>, rt: Runtime): int {
    if keys == [] then rt.now
    else if Truthy(Get(raw, keys[0])) then rt.parseDate(Get(raw, keys[0]).value).GetOr(rt.now)
    else DateField(raw, keys[1..], rt)
  }

  // --------------------------------------------------------------- task

  /** `file.replace('.json', '')`: the first occurrence only. */
  function FileStem(file: string): string {
    Text.ReplaceFirst(file, ".json", "")
  }

  /** The object literal of `loadTasks`, given the already-parsed usage. */
  function BuildTask(raw: Json, file: string, usage: Option<seq<TokenUsage>>, rt: Runtime): Option<Task> {
    var status := MapStatus(Get(raw, "status"));
    var priority := MapPriority(Get(raw, "priority"));
    if status.None? || priority.None? then None
    else Some(Task(
      ToStr(Or(Get(raw, "id"), Some(JStr(FileStem(file)))).value),
      ToStr(Or(Get(raw, "title"), Some(JStr("Untitled"))).value),
      ToStr(Or(Get(raw, "description"), Some(JStr(""))).value),
      status.value,
      priority.value,
      ExtractAssignee(raw, rt),
      ExtractTags(raw),
      ParseDate(Or(Get(raw, "created_at"), Get(raw, "created")), rt),
      ParseDate(Or(Or(Get(raw, "completed_at"), Get(raw, "completed")), Get(raw, "updated_at")), rt),
      usage))
  }

  /**
   * Normalising one parsed task file. None when the source throws: a null
   * document (reading `raw.usage` fails) or a non-string status or priority.
   */
  function Normalise(raw: Json, file: string, rt: Runtime): (r: Option<Task>)
    ensures r.None? <==>
      raw.JNull? || MapStatus(Get(raw, "status")).None? || MapPriority(Get(raw, "priority")).None?
    ensures r.Some? ==> r.value.usage == UsageOf(Get(raw, "usage"), rt) && r.value.usage != Some([])
    ensures r.Some? ==> r.value.id == (if Truthy(Get(raw, "id")) then ToStr(Get(raw, "id").value) else FileStem(file))
    ensures r.Some? ==> r.value.title == (if Truthy(Get(raw, "title")) then ToStr(Get(raw, "title").value) else "Untitled")
    ensures r.Some? ==> r.value.status == MapStatus(Get(raw, "status")).value
    ensures r.Some? ==> r.value.priority == MapPriority(Get(raw, "priority")).value
    ensures r.Some? ==> r.value.description == (if Truthy(Get(raw, "description")) then ToStr(Get(raw, "description").value) else "")
    ensures r.Some? ==> r.value.assigneeId == ExtractAssignee(raw, rt) && r.value.tags == ExtractTags(raw)
    ensures r.Some? ==> r.value.createdAt == DateField(raw, ["created_at", "created"], rt)
    ensures r.Some? ==> r.value.updatedAt == DateField(raw, ["completed_at", "completed", "updated_at"], rt)
  {
    TaskDates(raw, rt);
    if raw.JNull? then None else BuildTask(raw, file, UsageOf(Get(raw, "usage"), rt), rt)
  }

  /** The `||` chains of `loadTasks` followed by `parseDate` pick the first truthy date field. */
  lemma TaskDates(raw: Json, rt: Runtime)
    ensures ParseDate(Or(Get(raw, "created_at"), Get(raw, "created")), rt) == DateField(raw, ["created_at", "created"], rt)
    ensures ParseDate(Or(Or(Get(raw, "completed_at"), Get(raw, "completed")), Get(raw, "updated_at")), rt)
      == DateField(raw, ["completed_at", "completed", "updated_at"], rt)
  {
    var created: seq<string> := ["created_at", "created"];
    assert created[1..] == ["created"] && created[1..][1..] == [];
    assert DateField(raw, ["created"], rt) == ParseDate(Get(raw, "created"), rt);
    var updated: seq<string> := ["completed_at", "completed", "updated_at"];
    assert updated[1..] == ["completed", "updated_at"] && updated[1..][1..] == ["updated_at"];
    assert ["updated_at"][1..] == [];
    assert DateField(raw, ["updated_at"], rt) == ParseDate(Get(raw, "updated_at"), rt);
    assert DateField(raw, ["completed", "updated_at"], rt) == ParseDate(Or(Get(raw, "completed"), Get(raw, "updated_at")), rt);
  }

  /** The record of the end-to-end example: a done, urgent task with its two dates. */
  lemma ExampleRecord(rt: Runtime, created: int, completed: int, raw: Json)
    requires rt.parseDate(JStr("2023-12-31T00:00:00Z")) == Some(created)
    requires rt.parseDate(JStr("2024-01-01T00:00:00Z")) == Some(completed)
    requires raw == JObj(map[
      "id" := JStr("t1"), "status" := JStr("done"), "priority" := JStr("urgent"),
      "completed_at" := JStr("2024-01-01T00:00:00Z"), "created_at" := JStr("2023-12-31T00:00:00Z")])
    ensures Normalise(raw, "t1.json", rt) == Some(Task("t1", "Untitled", "", Done, 0, None, [], created, completed, None))
  {
    ExamplePresent(raw);
    ExampleAbsent(rt, raw);
    DoneUrgent(Get(raw, "status"), Get(raw, "priority"));
    assert BuildTask(raw, "t1.json", None, rt) == Some(Task("t1", "Untitled", "", Done, 0, None, [], created, completed, None));
  }

  lemma ExamplePresent(raw: Json)
    requires raw == JObj(map[
      "id" := JStr("t1"), "status" := JStr("done"), "priority" := JStr("urgent"),
      "completed_at" := JStr("2024-01-01T00:00:00Z"), "created_at" := JStr("2023-12-31T00:00:00Z")])
    ensures Get(raw, "status") == Some(JStr("done")) && Get(raw, "priority") == Some(JStr("urgent"))
    ensures Or(Get(raw, "id"), Some(JStr(FileStem("t1.json")))) == Some(JStr("t1"))
    ensures Or(Get(raw, "created_at"), Get(raw, "created")) == Some(JStr("2023-12-31T00:00:00Z"))
    ensures Or(Or(Get(raw, "completed_at"), Get(raw, "completed")), Get(raw, "updated_at"))
      == Some(JStr("2024-01-01T00:00:00Z"))
  {
  }

  lemma ExampleAbsent(rt: Runtime, raw: Json)
    requires raw == JObj(map[
      "id" := JStr("t1"), "status" := JStr("done"), "priority" := JStr("urgent"),
      "completed_at" := JStr("2024-01-01T00:00:00Z"), "created_at" := JStr("2023-12-31T00:00:00Z")])
    ensures ExtractAssignee(raw, rt) == None && ExtractTags(raw) == [] && UsageOf(Get(raw, "usage"), rt) == None
    ensures Get(raw, "title") == None && Get(raw, "description") == None
  {
  }

  lemma DoneUrgent(status: Option<Json>, priority: Option<Json>)
    requires status == Some(JStr("done")) && priority == Some(JStr("urgent"))
    ensures MapStatus(status) == Some(Done) && MapPriority(priority) == Some(0)
  {
    assert Text.Lower("done") == "done";
    assert Text.Lower("urgent") == "urgent";
    assert "done" in DoneWords && StatusOfWord("done") == Done;
    assert "urgent" in UrgentWords;
  }

  /** Upper-case synonyms are recognised: "APPROVED" is done and "P0" is urgent. */
  lemma UpperCaseSynonyms()
    ensures MapStatus(Some(JStr("APPROVED"))) == Some(Done)
    ensures MapPriority(Some(JStr("P0"))) == Some(0)
  {
    assert Text.Lower("APPROVED") == "approved";
    assert "approved" in DoneWords && StatusOfWord("approved") == Done;
    assert Text.Lower("P0") == "p0";
    assert "p0" in UrgentWords;
  }
}
