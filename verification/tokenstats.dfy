/**
 * `getTokenStats`: token usage of the tasks folded into totals and into
 * per-agent, per-model and per-day buckets, the days sorted by key.
 */
module TokenStats {
  import opened Wrappers
  import opened Normalize
  import opened Buckets
  import Json
  import Text
  import Calendar
  import Sorting

  datatype TokenStats = TokenStats(
    totalInputTokens: int,
    totalOutputTokens: int,
    tokensByAgent: seq<Bucket>,
    tokensByModel: seq<Bucket>,
    dailyTokens: seq<Bucket>)

  /** What `new Date(ms).toISOString()` throws for an out-of-range time value. */
  const InvalidTimeValue: string := "RangeError: Invalid time value"

  /** `t.usage && t.usage.length > 0` */
  predicate HasUsage(t: Task) {
    t.usage.Some? && |t.usage.value| > 0
  }

  /** The task's usage entries (none when it has no usage). */
  function Entries(t: Task): seq<TokenUsage> {
    if t.usage.Some? then t.usage.value else []
  }

  /** `tasks.filter(t => t.usage && t.usage.length > 0)` */
  function WithUsage(tasks: seq<Task>): (ws: seq<Task>)
    ensures forall t :: t in ws <==> t in tasks && HasUsage(t)
  {
    if tasks == [] then []
    else
      var last := tasks[|tasks| - 1];
      WithUsage(tasks[..|tasks| - 1]) + if HasUsage(last) then [last] else []
  }

  /** `s || 'unknown'` for an optional string: absent and empty both become `unknown`. */
  function OrUnknown(s: Option<string>): (r: string)
    ensures r != ""
    ensures s.Some? && s.value != "" ==> r == s.value
  {
    if s.Some? && s.value != "" then s.value else "unknown"
  }

  function AgentKey(t: Task): string {
    OrUnknown(t.assigneeId)
  }

  function ModelKey(u: TokenUsage): string {
    OrUnknown(u.model)
  }

  /** The time value whose day the usage is booked on: its own timestamp when truthy, else the task's creation time. */
  function DayMs(t: Task, u: TokenUsage): int {
    if u.timestamp.Some? && u.timestamp.value != 0 then u.timestamp.value else t.createdAt
  }

  // ---------------------------------------------------------- totals

  function UsageIn(us: seq<TokenUsage>): int {
    if us == [] then 0 else UsageIn(us[..|us| - 1]) + us[|us| - 1].inputTokens
  }

  function UsageOut(us: seq<TokenUsage>): int {
    if us == [] then 0 else UsageOut(us[..|us| - 1]) + us[|us| - 1].outputTokens
  }

  /** Input tokens over every usage entry of the tasks. */
  function TotalIn(ws: seq<Task>): int
  {
    if ws == [] then 0 else TotalIn(ws[..|ws| - 1]) + UsageIn(Entries(ws[|ws| - 1]))
  }

  function TotalOut(ws: seq<Task>): int
  {
    if ws == [] then 0 else TotalOut(ws[..|ws| - 1]) + UsageOut(Entries(ws[|ws| - 1]))
  }

  // --------------------------------------------------------- by agent

  /** Credits every usage entry to the bucket of agent `k`. */
  function CreditAll(bs: seq<Bucket>, k: string, us: seq<TokenUsage>): seq<Bucket> {
    if us == [] then bs
    else
      var last := us[|us| - 1];
      Credit(CreditAll(bs, k, us[..|us| - 1]), k, last.inputTokens, last.outputTokens)
  }

  /**
   * `byAgent`: per task, the agent's bucket is created if missing, then
   * every usage entry is credited to it.
   */
  function AgentTally(ws: seq<Task>): seq<Bucket> {
    if ws == [] then []
    else
      var last := ws[|ws| - 1];
      CreditAll(Ensure(AgentTally(ws[..|ws| - 1]), AgentKey(last)), AgentKey(last), Entries(last))
  }

  // --------------------------------------------------------- by model

  /** Adds every usage entry to the bucket of its model. */
  function ModelFold(bs: seq<Bucket>, us: seq<TokenUsage>): seq<Bucket> {
    if us == [] then bs
    else
      var last := us[|us| - 1];
      Add(ModelFold(bs, us[..|us| - 1]), ModelKey(last), last.inputTokens, last.outputTokens)
  }

  function ModelTally(ws: seq<Task>): seq<Bucket> {
    if ws == [] then [] else ModelFold(ModelTally(ws[..|ws| - 1]), Entries(ws[|ws| - 1]))
  }

  // ----------------------------------------------------------- by day

  /** Adds every usage entry of task `t` to the bucket of its day; `None` once a day key throws. */
  function DayFold(bs: seq<Bucket>, t: Task, us: seq<TokenUsage>, dayKey: int -> Option<string>): Option<seq<Bucket>> {
    if us == [] then Some(bs)
    else
      var last := us[|us| - 1];
      match DayFold(bs, t, us[..|us| - 1], dayKey)
      case None => None
      case Some(prev) =>
        match dayKey(DayMs(t, last))
        case None => None
        case Some(k) => Some(Add(prev, k, last.inputTokens, last.outputTokens))
  }

  function DayTally(ws: seq<Task>, dayKey: int -> Option<string>): Option<seq<Bucket>> {
    if ws == [] then Some([])
    else
      match DayTally(ws[..|ws| - 1], dayKey)
      case None => None
      case Some(prev) => DayFold(prev, ws[|ws| - 1], Entries(ws[|ws| - 1]), dayKey)
  }

  /** `dailyTokens` is sorted with `localeCompare` on the keys. */
  function KeyLe(a: Bucket, b: Bucket): bool {
    Text.CollateLe(a.key, b.key)
  }

  /** Strictly ascending keys: sorted, and no day twice. */
  predicate Ascending(bs: seq<Bucket>) {
    forall i, j :: 0 <= i < j < |bs| ==> Text.CollateLe(bs[i].key, bs[j].key) && bs[i].key != bs[j].key
  }

  /** Each breakdown adds up to the totals, and none lists a key twice. */
  predicate Balanced(s: TokenStats) {
    && SumIn(s.tokensByAgent) == s.totalInputTokens && SumOut(s.tokensByAgent) == s.totalOutputTokens
    && SumIn(s.tokensByModel) == s.totalInputTokens && SumOut(s.tokensByModel) == s.totalOutputTokens
    && SumIn(s.dailyTokens) == s.totalInputTokens && SumOut(s.dailyTokens) == s.totalOutputTokens
    && UniqueKeys(s.tokensByAgent) && UniqueKeys(s.tokensByModel) && UniqueKeys(s.dailyTokens)
  }

  // ----------------------------------------------------------- method

  /**
   * `getTokenStats(tasks)`: `Success(None)` is the source's `null`,
   * `Failure` the RangeError a day key throws. Days are keyed by
   * `new Date(ms).toISOString().slice(0, 10)`.
   */
  method GetTokenStats(tasks: seq<Task>) returns (r: Result<Option<TokenStats>, string>)
    ensures r == Success(None) <==> WithUsage(tasks) == []
    ensures r.Failure? <==> WithUsage(tasks) != [] && DayTally(WithUsage(tasks), Calendar.DayKey).None?
    ensures r.Success? && r.value.Some? ==>
      var ws, s := WithUsage(tasks), r.value.value;
      s.totalInputTokens == TotalIn(ws) && s.totalOutputTokens == TotalOut(ws) &&
      s.tokensByAgent == AgentTally(ws) && s.tokensByModel == ModelTally(ws) &&
      DayTally(ws, Calendar.DayKey).Some? && multiset(s.dailyTokens) == multiset(DayTally(ws, Calendar.DayKey).value) &&
      Ascending(s.dailyTokens)
    ensures r.Success? && r.value.Some? ==> Balanced(r.value.value)
  {
    r := Aggregate(tasks, Calendar.DayKey);
  }

  /** The aggregation of `getTokenStats`, for any day-key function. */
  method Aggregate(tasks: seq<Task>, dayKey: int -> Option<string>) returns (r: Result<Option<TokenStats>, string>)
    ensures r == Success(None) <==> WithUsage(tasks) == []
    ensures r.Failure? <==> WithUsage(tasks) != [] && DayTally(WithUsage(tasks), dayKey).None?
    ensures r.Success? && r.value.Some? ==>
      var ws, s := WithUsage(tasks), r.value.value;
      s.totalInputTokens == TotalIn(ws) && s.totalOutputTokens == TotalOut(ws) &&
      s.tokensByAgent == AgentTally(ws) && s.tokensByModel == ModelTally(ws) &&
      DayTally(ws, dayKey).Some? && multiset(s.dailyTokens) == multiset(DayTally(ws, dayKey).value) &&
      Ascending(s.dailyTokens)
    ensures r.Success? && r.value.Some? ==> Balanced(r.value.value)
  {
    var ws := WithUsage(tasks);
    if |ws| == 0 {
      return Success(None);
    }
    var ok, tally := TallyTasks(ws, dayKey);
    if !ok {
      return Failure(InvalidTimeValue);
    }
    DayTallyConserves(ws, dayKey);
    var daily := SortDays(tally.byDate);
    AgentTallyConserves(ws);
    ModelTallyConserves(ws);
    SumsPermutation(daily, tally.byDate);
    return Success(Some(TokenStats(tally.totalIn, tally.totalOut, tally.byAgent, tally.byModel, daily)));
  }

  /** The five accumulators of the loop: the two totals and the agent, model and day buckets. */
  datatype Tally = Tally(totalIn: int, totalOut: int, byAgent: seq<Bucket>, byModel: seq<Bucket>, byDate: seq<Bucket>)

  /** The accumulators hold the tallies of the first `i` tasks. */
  predicate TasksSoFar(ws: seq<Task>, i: nat, dayKey: int -> Option<string>, cur: Tally)
    requires i <= |ws|
  {
    cur.totalIn == TotalIn(ws[..i]) && cur.totalOut == TotalOut(ws[..i]) &&
    cur.byAgent == AgentTally(ws[..i]) && cur.byModel == ModelTally(ws[..i]) &&
    DayTally(ws[..i], dayKey) == Some(cur.byDate)
  }

  /** The loop over the tasks with usage; `ok` is false where a day key throws. */
  method TallyTasks(ws: seq<Task>, dayKey: int -> Option<string>) returns (ok: bool, tally: Tally)
    ensures ok <==> DayTally(ws, dayKey).Some?
    ensures ok ==> tally == Tally(TotalIn(ws), TotalOut(ws), AgentTally(ws), ModelTally(ws), DayTally(ws, dayKey).value)
  {
    tally := Tally(0, 0, [], [], []);
    var i := 0;
    while i < |ws|
      invariant 0 <= i <= |ws|
      invariant TasksSoFar(ws, i, dayKey, tally)
    {
      ok, tally := AddTask(ws, i, dayKey, tally);
      if !ok {
        DayTallyStopped(ws, dayKey, i + 1);
        return;
      }
      i := i + 1;
    }
    assert ws[..|ws|] == ws;
    ok := true;
  }

  /**
   * The body of the loop over tasks, for task `i`: creates the agent's
   * bucket, then credits every usage entry to the totals, the agent, the
   * model and the day. `ok` is false where a day key throws.
   */
  method AddTask(ws: seq<Task>, i: nat, dayKey: int -> Option<string>, cur: Tally) returns (ok: bool, next: Tally)
    requires i < |ws| && TasksSoFar(ws, i, dayKey, cur)
    ensures ok ==> TasksSoFar(ws, i + 1, dayKey, next)
    ensures !ok ==> DayTally(ws[..i + 1], dayKey).None?
  {
    var task := ws[i];
    var us := Entries(task);
    var start := cur.(byAgent := Ensure(cur.byAgent, AgentKey(task)));
    next := start;
    var j := 0;
    while j < |us|
      invariant 0 <= j <= |us|
      invariant UsageSoFar(start, task, us, j, dayKey, next)
    {
      ok, next := AddUsage(start, task, us, j, dayKey, next);
      if !ok {
        DayFoldStopped(cur.byDate, task, us, dayKey, j + 1);
        TaskStopped(ws, i, dayKey, cur);
        return;
      }
      j := j + 1;
    }
    TaskDone(ws, i, dayKey, cur, next);
    ok := true;
  }

  /** The accumulators hold the task's first `j` usage entries on top of `start`. */
  predicate UsageSoFar(start: Tally, t: Task, us: seq<TokenUsage>, j: nat, dayKey: int -> Option<string>, cur: Tally)
    requires j <= |us|
  {
    cur.totalIn == start.totalIn + UsageIn(us[..j]) && cur.totalOut == start.totalOut + UsageOut(us[..j]) &&
    cur.byAgent == CreditAll(start.byAgent, AgentKey(t), us[..j]) && cur.byModel == ModelFold(start.byModel, us[..j]) &&
    DayFold(start.byDate, t, us[..j], dayKey) == Some(cur.byDate)
  }

  /**
   * The body of the loop over one task's usage entries, for entry `j`: it
   * is credited to the totals, the agent, the model and its day; `ok` is
   * false where the day key throws.
   */
  method AddUsage(start: Tally, t: Task, us: seq<TokenUsage>, j: nat, dayKey: int -> Option<string>, cur: Tally)
    returns (ok: bool, next: Tally)
    requires j < |us| && UsageSoFar(start, t, us, j, dayKey, cur)
    ensures ok ==> UsageSoFar(start, t, us, j + 1, dayKey, next)
    ensures !ok ==> DayFold(start.byDate, t, us[..j + 1], dayKey).None?
  {
    var u := us[j];
    FoldsStep(start.byAgent, AgentKey(t), start.byModel, start.byDate, t, us, j, dayKey);
    var dateKey := dayKey(DayMs(t, u));
    next := Tally(cur.totalIn + u.inputTokens, cur.totalOut + u.outputTokens,
                  Credit(cur.byAgent, AgentKey(t), u.inputTokens, u.outputTokens),
                  Add(cur.byModel, ModelKey(u), u.inputTokens, u.outputTokens),
                  cur.byDate);
    if dateKey.None? {
      return false, next;
    }
    next := next.(byDate := Add(cur.byDate, dateKey.value, u.inputTokens, u.outputTokens));
    ok := true;
  }

  /** The folds over one task's usage, one entry further. */
  lemma FoldsStep(byAgent: seq<Bucket>, agent: string, byModel: seq<Bucket>, byDate: seq<Bucket>, t: Task,
                  us: seq<TokenUsage>, j: int, dayKey: int -> Option<string>)
    requires 0 <= j < |us|
    ensures UsageIn(us[..j + 1]) == UsageIn(us[..j]) + us[j].inputTokens
    ensures UsageOut(us[..j + 1]) == UsageOut(us[..j]) + us[j].outputTokens
    ensures CreditAll(byAgent, agent, us[..j + 1]) == Credit(CreditAll(byAgent, agent, us[..j]), agent, us[j].inputTokens, us[j].outputTokens)
    ensures ModelFold(byModel, us[..j + 1]) == Add(ModelFold(byModel, us[..j]), ModelKey(us[j]), us[j].inputTokens, us[j].outputTokens)
    ensures DayFold(byDate, t, us[..j + 1], dayKey) ==
      match DayFold(byDate, t, us[..j], dayKey)
      case None => None
      case Some(prev) =>
        match dayKey(DayMs(t, us[j]))
        case None => None
        case Some(k) => Some(Add(prev, k, us[j].inputTokens, us[j].outputTokens))
  {
    assert us[..j + 1][..j] == us[..j];
  }

  /** A task whose day fold fails makes the tally up to it fail. */
  lemma TaskStopped(ws: seq<Task>, i: nat, dayKey: int -> Option<string>, cur: Tally)
    requires i < |ws| && TasksSoFar(ws, i, dayKey, cur)
    requires DayFold(cur.byDate, ws[i], Entries(ws[i]), dayKey).None?
    ensures DayTally(ws[..i + 1], dayKey).None?
  {
    assert ws[..i + 1][..i] == ws[..i];
  }

  /** A task folded completely extends the tallies by one task. */
  lemma TaskDone(ws: seq<Task>, i: nat, dayKey: int -> Option<string>, cur: Tally, next: Tally)
    requires i < |ws| && TasksSoFar(ws, i, dayKey, cur)
    requires UsageSoFar(cur.(byAgent := Ensure(cur.byAgent, AgentKey(ws[i]))), ws[i], Entries(ws[i]), |Entries(ws[i])|, dayKey, next)
    ensures TasksSoFar(ws, i + 1, dayKey, next)
  {
    var p := ws[..i + 1];
    assert p[..|p| - 1] == ws[..i] && p[|p| - 1] == ws[i];
    var us := Entries(ws[i]);
    assert us[..|us|] == us;
  }

  /** Folding one task's usage by model keeps model keys unique and adds the task's tokens. */
  lemma {:induction false} ModelFoldConserves(bs: seq<Bucket>, us: seq<TokenUsage>)
    requires UniqueKeys(bs)
    ensures UniqueKeys(ModelFold(bs, us))
    ensures SumIn(ModelFold(bs, us)) == SumIn(bs) + UsageIn(us)
    ensures SumOut(ModelFold(bs, us)) == SumOut(bs) + UsageOut(us)
  {
    if us != [] {
      var last := us[|us| - 1];
      ModelFoldConserves(bs, us[..|us| - 1]);
      AddFacts(ModelFold(bs, us[..|us| - 1]), ModelKey(last), last.inputTokens, last.outputTokens);
    }
  }

  /** Per-model buckets have unique keys and hold exactly the total tokens. */
  lemma {:induction false} ModelTallyConserves(ws: seq<Task>)
    ensures UniqueKeys(ModelTally(ws))
    ensures SumIn(ModelTally(ws)) == TotalIn(ws) && SumOut(ModelTally(ws)) == TotalOut(ws)
  {
    if ws != [] {
      ModelTallyConserves(ws[..|ws| - 1]);
      ModelFoldConserves(ModelTally(ws[..|ws| - 1]), Entries(ws[|ws| - 1]));
    }
  }

  /** Crediting one task's usage to an agent that has a bucket adds the task's tokens. */
  lemma {:induction false} CreditAllConserves(bs: seq<Bucket>, k: string, us: seq<TokenUsage>)
    requires UniqueKeys(bs) && HasKey(bs, k)
    ensures UniqueKeys(CreditAll(bs, k, us)) && HasKey(CreditAll(bs, k, us), k)
    ensures forall x :: HasKey(CreditAll(bs, k, us), x) <==> HasKey(bs, x)
    ensures SumIn(CreditAll(bs, k, us)) == SumIn(bs) + UsageIn(us)
    ensures SumOut(CreditAll(bs, k, us)) == SumOut(bs) + UsageOut(us)
  {
    if us != [] {
      var last := us[|us| - 1];
      CreditAllConserves(bs, k, us[..|us| - 1]);
      CreditFacts(CreditAll(bs, k, us[..|us| - 1]), k, last.inputTokens, last.outputTokens);
    }
  }

  /** Per-agent buckets have unique keys and hold exactly the total tokens. */
  lemma {:induction false} AgentTallyConserves(ws: seq<Task>)
    ensures UniqueKeys(AgentTally(ws))
    ensures SumIn(AgentTally(ws)) == TotalIn(ws) && SumOut(AgentTally(ws)) == TotalOut(ws)
  {
    if ws != [] {
      var last := ws[|ws| - 1];
      var prev := AgentTally(ws[..|ws| - 1]);
      AgentTallyConserves(ws[..|ws| - 1]);
      EnsureFacts(prev, AgentKey(last));
      CreditAllConserves(Ensure(prev, AgentKey(last)), AgentKey(last), Entries(last));
    }
  }

  /** Folding one task's usage by day keeps day keys unique and adds the task's tokens. */
  lemma {:induction false} DayFoldConserves(bs: seq<Bucket>, t: Task, us: seq<TokenUsage>, dayKey: int -> Option<string>)
    requires UniqueKeys(bs) && DayFold(bs, t, us, dayKey).Some?
    ensures UniqueKeys(DayFold(bs, t, us, dayKey).value)
    ensures SumIn(DayFold(bs, t, us, dayKey).value) == SumIn(bs) + UsageIn(us)
    ensures SumOut(DayFold(bs, t, us, dayKey).value) == SumOut(bs) + UsageOut(us)
  {
    if us != [] {
      var last := us[|us| - 1];
      DayFoldConserves(bs, t, us[..|us| - 1], dayKey);
      var prev := DayFold(bs, t, us[..|us| - 1], dayKey).value;
      AddFacts(prev, dayKey(DayMs(t, last)).value, last.inputTokens, last.outputTokens);
    }
  }

  /** Per-day buckets, when no day key throws, have unique keys and hold exactly the total tokens. */
  lemma {:induction false} DayTallyConserves(ws: seq<Task>, dayKey: int -> Option<string>)
    requires DayTally(ws, dayKey).Some?
    ensures UniqueKeys(DayTally(ws, dayKey).value)
    ensures SumIn(DayTally(ws, dayKey).value) == TotalIn(ws) && SumOut(DayTally(ws, dayKey).value) == TotalOut(ws)
  {
    if ws != [] {
      DayTallyConserves(ws[..|ws| - 1], dayKey);
      DayFoldConserves(DayTally(ws[..|ws| - 1], dayKey).value, ws[|ws| - 1], Entries(ws[|ws| - 1]), dayKey);
    }
  }

  /** Sorts the day buckets by key; keys unique before are strictly ascending after. */
  method SortDays(byDate: seq<Bucket>) returns (daily: seq<Bucket>)
    ensures multiset(daily) == multiset(byDate)
    ensures UniqueKeys(byDate) ==> Ascending(daily)
  {
    var a := new Bucket[|byDate|](n requires 0 <= n < |byDate| => byDate[n]);
    assert a[..] == byDate;
    KeyLeIsPreorder();
    Sorting.SortBy(a, KeyLe);
    daily := a[..];
    if UniqueKeys(byDate) {
      PermutationKeepsUniqueKeys(daily, byDate);
    }
  }

  lemma KeyLeIsPreorder()
    ensures Sorting.Total(KeyLe) && Sorting.Transitive(KeyLe)
  {
    forall x: Bucket, y: Bucket ensures KeyLe(x, y) || KeyLe(y, x) {
      Text.CollateLeTotal(x.key, y.key);
    }
    forall x: Bucket, y: Bucket, z: Bucket | KeyLe(x, y) && KeyLe(y, z) ensures KeyLe(x, z) {
      Text.CollateLeTransitive(x.key, y.key, z.key);
    }
  }

  /**
   * In years 0..9999 the collation of day keys is their code-unit order,
   * so `dailyTokens` comes out in calendar order.
   */
  lemma DayKeysCollateByDay(a: int, b: int)
    requires Calendar.InFourDigitYears(a) && Calendar.InFourDigitYears(b)
    ensures Calendar.DayKey(a).Some? && Calendar.DayKey(b).Some?
    ensures Text.CollateLe(Calendar.DayKey(a).value, Calendar.DayKey(b).value) <==> Calendar.DayOf(a) <= Calendar.DayOf(b)
  {
    Calendar.DayKeyOrder(a, b);
    Calendar.FourDigitKeyChars(a);
    Calendar.FourDigitKeyChars(b);
    Text.CollateIsLexOnDigitsAndDashes(Calendar.DayKey(a).value, Calendar.DayKey(b).value);
  }

  /** Once a day key throws partway through a task's usage, the whole fold fails. */
  lemma {:induction false} DayFoldStopped(bs: seq<Bucket>, t: Task, us: seq<TokenUsage>, dayKey: int -> Option<string>, n: nat)
    requires n <= |us| && DayFold(bs, t, us[..n], dayKey).None?
    ensures DayFold(bs, t, us, dayKey).None?
    decreases |us| - n
  {
    if n < |us| {
      assert us[..n + 1][..n] == us[..n];
      DayFoldStopped(bs, t, us, dayKey, n + 1);
    } else {
      assert us[..n] == us;
    }
  }

  /** Once a task's day fold fails, the tally over all tasks fails. */
  lemma {:induction false} DayTallyStopped(ws: seq<Task>, dayKey: int -> Option<string>, n: nat)
    requires n <= |ws| && DayTally(ws[..n], dayKey).None?
    ensures DayTally(ws, dayKey).None?
    decreases |ws| - n
  {
    if n < |ws| {
      assert ws[..n + 1][..n] == ws[..n];
      DayTallyStopped(ws, dayKey, n + 1);
    } else {
      assert ws[..n] == ws;
    }
  }

  // ------------------------------------------- inherited agent names

  /**
   * `if (!byAgent[agentId]) byAgent[agentId] = ...` as the code reads it
   * on a plain `{}`: a name that `Object.prototype` already defines
   * (`constructor`, `toString`, ...) reads as truthy, so no bucket of its
   * own is created and the credits go to the inherited value instead.
   */
  function EnsureAsWritten(bs: seq<Bucket>, k: string): (r: seq<Bucket>)
    ensures k in Json.ObjectPrototypeNames ==> r == bs
    ensures k !in Json.ObjectPrototypeNames ==> r == Ensure(bs, k)
  {
    if k in Json.ObjectPrototypeNames || HasKey(bs, k) then bs else bs + [Bucket(k, 0, 0)]
  }

  /** `byAgent` as the code computes it, inherited names included. */
  function AgentTallyAsWritten(ws: seq<Task>): seq<Bucket> {
    if ws == [] then []
    else
      var last := ws[|ws| - 1];
      CreditAll(EnsureAsWritten(AgentTallyAsWritten(ws[..|ws| - 1]), AgentKey(last)), AgentKey(last), Entries(last))
  }

  /** Without inherited names among the agents, the code computes the intended tally. */
  lemma {:induction false} AgentTallyAsWrittenAgrees(ws: seq<Task>)
    requires forall t :: t in ws ==> AgentKey(t) !in Json.ObjectPrototypeNames
    ensures AgentTallyAsWritten(ws) == AgentTally(ws)
  {
    if ws != [] {
      AgentTallyAsWrittenAgrees(ws[..|ws| - 1]);
    }
  }

  /**
   * A task assigned to `constructor` with five input tokens: the totals
   * count them, yet no agent bucket holds them.
   */
  lemma ConstructorAgentLosesTokens(t: Task)
    requires t.assigneeId == Some("constructor")
    requires t.usage.Some? && |t.usage.value| == 1 && t.usage.value[0].inputTokens == 5
    ensures TotalIn([t]) == 5
    ensures AgentTallyAsWritten([t]) == [] && SumIn(AgentTallyAsWritten([t])) == 0
    ensures SumIn(AgentTally([t])) == 5
  {
    var us := Entries(t);
    assert [t][..0] == [];
    assert us[..0] == [];
    assert UsageIn(us) == 5;
    assert AgentKey(t) == "constructor";
    assert EnsureAsWritten([], AgentKey(t)) == [];
    assert CreditAll([], "constructor", us[..0]) == [];
    AgentTallyConserves([t]);
  }
}
