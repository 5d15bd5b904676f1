/**
 * Feed synthesis: a bounded, newest-first activity list built from the
 * most recent tasks, the first events of the feed-items file and one
 * synthetic status item.
 */
module Feed {
  import opened Wrappers
  import opened Json
  import opened Normalize
  import Roster
  import Text
  import Sorting

  datatype FeedKind = TaskActivity | Decision | Comment | StatusReport
  datatype Severity = Info | Success

  datatype FeedItem = FeedItem(
    id: string,
    kind: FeedKind,
    severity: Severity,
    title: string,
    agentId: Option<string>,
    timestamp: int)

  /** One element of the feed-items file, in the shape the source declares for it. */
  datatype FeedEvent = FeedEvent(id: string, kind: string, title: string, agentId: Option<string>, timestamp: string)

  /** Only this many tasks, from the front of the list, produce feed items. */
  const MaxFeedTasks: nat := 20
  /** Only this many events, from the front of the file, are merged. */
  const MaxFeedEvents: nat := 10
  /** The feed is cut to this many items. */
  const MaxFeedItems: nat := 15

  function Min(a: nat, b: nat): nat {
    if a < b then a else b
  }

  /** `capitalize(s)`: the first character upper-cased (ASCII), the rest unchanged. */
  function Capitalize(s: string): (r: string)
    ensures |r| == |s|
    ensures s != [] ==> r[0] == Text.UpperChar(s[0]) && r[1..] == s[1..]
  {
    if s == [] then [] else [Text.UpperChar(s[0])] + s[1..]
  }

  /** `task.assigneeId ? capitalize(task.assigneeId) : 'Someone'` */
  function Actor(assignee: Option<string>): string {
    if assignee.Some? && assignee.value != "" then Capitalize(assignee.value) else "Someone"
  }

  /** The item a task contributes, if any: completed, started or submitted for review. */
  function TaskItem(t: Task): (r: Option<FeedItem>)
    ensures r.Some? ==> r.value.kind == TaskActivity && r.value.agentId == t.assigneeId
    ensures r.Some? <==> (t.status == Done && t.updatedAt != 0) || t.status == InProgress || t.status == Review
  {
    if t.status == Done && t.updatedAt != 0 then
      Some(FeedItem(t.id + "-complete", TaskActivity, Severity.Success,
        Actor(t.assigneeId) + " completed \"" + t.title + "\"", t.assigneeId, t.updatedAt))
    else if t.status == InProgress then
      Some(FeedItem(t.id + "-progress", TaskActivity, Info,
        Actor(t.assigneeId) + " started \"" + t.title + "\"", t.assigneeId, t.createdAt))
    else if t.status == Review then
      Some(FeedItem(t.id + "-review", TaskActivity, Info,
        "\"" + t.title + "\" submitted for review", t.assigneeId,
        if t.updatedAt != 0 then t.updatedAt else t.createdAt))
    else None
  }

  /** The item an event of the feed-items file becomes; None when its timestamp does not parse. */
  function EventItem(e: FeedEvent, rt: Runtime): (r: Option<FeedItem>)
    ensures r.Some? ==> r.value.severity == Info && r.value.id == e.id
    ensures r.Some? ==> (r.value.kind == Decision <==> e.kind == "memory") && r.value.kind != StatusReport
  {
    match rt.parseDate(JStr(e.timestamp))
    case None => None
    case Some(ms) => Some(FeedItem(e.id, if e.kind == "memory" then Decision else Comment, Info, e.title, e.agentId, ms))
  }

  function StatusTitle(working: nat): string {
    "Squad active \U{2014} " + Text.NatToString(working) + " " + (if working == 1 then "project" else "projects") + " online"
  }

  /** The synthetic status item, stamped with the current instant. */
  function StatusItem(now: int, working: nat): FeedItem {
    FeedItem("status-now", StatusReport, Severity.Success, StatusTitle(working), None, now)
  }

  function TaskItems(tasks: seq<Task>): seq<FeedItem> {
    if tasks == [] then []
    else
      var t := TaskItem(tasks[|tasks| - 1]);
      TaskItems(tasks[..|tasks| - 1]) + if t.Some? then [t.value] else []
  }

  function EventItems(events: seq<FeedEvent>, rt: Runtime): seq<FeedItem> {
    if events == [] then []
    else
      var x := EventItem(events[|events| - 1], rt);
      EventItems(events[..|events| - 1], rt) + if x.Some? then [x.value] else []
  }

  /** The events merged from the feed-items file: its first ten, or none when it is missing or malformed. */
  function MergedEvents(events: Option<seq<FeedEvent>>, rt: Runtime): seq<FeedItem> {
    match events
    case None => []
    case Some(evs) => EventItems(evs[..Min(MaxFeedEvents, |evs|)], rt)
  }

  /** Everything the feed is chosen from, in the order the source assembles it before sorting. */
  function Candidates(tasks: seq<Task>, events: Option<seq<FeedEvent>>, working: nat, rt: Runtime): seq<FeedItem> {
    [StatusItem(rt.now, working)] + TaskItems(tasks[..Min(MaxFeedTasks, |tasks|)]) + MergedEvents(events, rt)
  }

  predicate NewestFirst(feed: seq<FeedItem>) {
    forall i, j :: 0 <= i < j < |feed| ==> feed[i].timestamp >= feed[j].timestamp
  }

  /**
   * `feed` is the `n` newest of `cands`, newest first: as many as there are
   * up to `n`, drawn from `cands`, sorted, and none left out is newer than
   * one kept.
   */
  ghost predicate NewestOf(feed: seq<FeedItem>, cands: seq<FeedItem>, n: nat) {
    && |feed| == Min(n, |cands|)
    && multiset(feed) <= multiset(cands)
    && NewestFirst(feed)
    && forall x, y :: x in feed && y in multiset(cands) - multiset(feed) ==> x.timestamp >= y.timestamp
  }

  /** The loops of `generateFeed` that push task items and then file events. */
  method CollectItems(tasks: seq<Task>, events: Option<seq<FeedEvent>>, rt: Runtime) returns (items: seq<FeedItem>)
    ensures items == TaskItems(tasks[..Min(MaxFeedTasks, |tasks|)]) + MergedEvents(events, rt)
  {
    items := [];
    var recent := tasks[..Min(MaxFeedTasks, |tasks|)];
    var i := 0;
    while i < |recent|
      invariant 0 <= i <= |recent|
      invariant items == TaskItems(recent[..i])
    {
      assert recent[..i + 1][..i] == recent[..i];
      var item := TaskItem(recent[i]);
      if item.Some? {
        items := items + [item.value];
      }
      i := i + 1;
    }
    assert recent[..i] == recent;
    if events.Some? {
      var evs := events.value[..Min(MaxFeedEvents, |events.value|)];
      var j := 0;
      while j < |evs|
        invariant 0 <= j <= |evs|
        invariant items == TaskItems(recent) + EventItems(evs[..j], rt)
      {
        assert evs[..j + 1][..j] == evs[..j];
        var item := EventItem(evs[j], rt);
        if item.Some? {
          items := items + [item.value];
        }
        j := j + 1;
      }
      assert evs[..j] == evs;
    }
  }

  /** `feed.sort((a, b) => b.timestamp - a.timestamp)` followed by `feed.slice(0, n)`. */
  method TakeNewest(items: seq<FeedItem>, n: nat) returns (feed: seq<FeedItem>)
    ensures NewestOf(feed, items, n)
  {
    var a := new FeedItem[|items|](k requires 0 <= k < |items| => items[k]);
    assert a[..] == items;
    var le := (x: FeedItem, y: FeedItem) => x.timestamp >= y.timestamp;
    Sorting.SortBy(a, le);
    ghost var s := a[..];
    assert NewestFirst(s) by {
      assert Sorting.Ordered(s, le);
    }
    feed := a[..Min(n, a.Length)];
    PrefixIsNewest(s, items, n);
  }

  /** The first `n` items of a newest-first permutation of `items` are the `n` newest. */
  lemma PrefixIsNewest(s: seq<FeedItem>, items: seq<FeedItem>, n: nat)
    requires NewestFirst(s) && multiset(s) == multiset(items)
    ensures NewestOf(s[..Min(n, |s|)], items, n)
  {
    var m := Min(n, |s|);
    assert |items| == |s| by {
      assert |items| == |multiset(items)| == |multiset(s)| == |s|;
    }
    assert multiset(items) - multiset(s[..m]) == multiset(s[m..]) && multiset(s[..m]) <= multiset(items) by {
      assert s == s[..m] + s[m..];
    }
    assert NewestFirst(s[..m]);
    PrefixBeforeRest(s, m);
  }

  /** In a newest-first list, nothing after position `m` is newer than anything before it. */
  lemma PrefixBeforeRest(s: seq<FeedItem>, m: nat)
    requires NewestFirst(s) && m <= |s|
    ensures forall x, y :: x in s[..m] && y in multiset(s[m..]) ==> x.timestamp >= y.timestamp
  {
    forall x, y | x in s[..m] && y in multiset(s[m..])
      ensures x.timestamp >= y.timestamp
    {
      var p :| 0 <= p < m && s[p] == x;
      var q :| 0 <= q < |s| - m && s[m..][q] == y;
      assert s[m + q] == y;
    }
  }

  /**
   * `generateFeed(tasks)`. `events` is the parsed feed-items file (None when
   * it is missing or malformed) and `overlay` the agent status file.
   */
  method GenerateFeed(tasks: seq<Task>, events: Option<seq<FeedEvent>>, overlay: Option<Json>, rt: Runtime)
    returns (feed: seq<FeedItem>)
    ensures |feed| <= MaxFeedItems
    ensures NewestOf(feed, Candidates(tasks, events, Roster.WorkingCount(Roster.GetAgents(overlay)), rt), MaxFeedItems)
  {
    var items := CollectItems(tasks, events, rt);
    var working := Roster.WorkingCount(Roster.GetAgents(overlay));
    items := [StatusItem(rt.now, working)] + items;
    feed := TakeNewest(items, MaxFeedItems);
  }

  // ------------------------------------------------------------ properties

  /** Every task item comes from one of the given tasks. */
  lemma {:induction false} TaskItemsFrom(tasks: seq<Task>, x: FeedItem)
    requires x in TaskItems(tasks)
    ensures exists i :: 0 <= i < |tasks| && TaskItem(tasks[i]) == Some(x)
  {
    var init := tasks[..|tasks| - 1];
    if x in TaskItems(init) {
      TaskItemsFrom(init, x);
      var i :| 0 <= i < |init| && TaskItem(init[i]) == Some(x);
      assert tasks[i] == init[i];
    }
  }

  /** Every merged event comes from one of the given events. */
  lemma {:induction false} EventItemsFrom(events: seq<FeedEvent>, rt: Runtime, x: FeedItem)
    requires x in EventItems(events, rt)
    ensures exists j :: 0 <= j < |events| && EventItem(events[j], rt) == Some(x)
  {
    var init := events[..|events| - 1];
    if x in EventItems(init, rt) {
      EventItemsFrom(init, rt, x);
      var j :| 0 <= j < |init| && EventItem(init[j], rt) == Some(x);
      assert events[j] == init[j];
    }
  }

  /**
   * The feed draws only on the status item, the first twenty tasks and the
   * first ten events of the file.
   */
  lemma CandidatesFrom(tasks: seq<Task>, events: Option<seq<FeedEvent>>, working: nat, rt: Runtime, x: FeedItem)
    requires x in Candidates(tasks, events, working, rt)
    ensures || x == StatusItem(rt.now, working)
            || (exists i :: 0 <= i < Min(MaxFeedTasks, |tasks|) && TaskItem(tasks[i]) == Some(x))
            || (events.Some? && exists j :: 0 <= j < Min(MaxFeedEvents, |events.value|) && EventItem(events.value[j], rt) == Some(x))
  {
    var recent := tasks[..Min(MaxFeedTasks, |tasks|)];
    if x in TaskItems(recent) {
      TaskItemsFrom(recent, x);
      var i :| 0 <= i < |recent| && TaskItem(recent[i]) == Some(x);
      assert recent[i] == tasks[i];
    } else if x != StatusItem(rt.now, working) {
      assert x in MergedEvents(events, rt);
      var evs := events.value[..Min(MaxFeedEvents, |events.value|)];
      EventItemsFrom(evs, rt, x);
      var j :| 0 <= j < |evs| && EventItem(evs[j], rt) == Some(x);
      assert evs[j] == events.value[j];
    }
  }

  /** The status item is always among the candidates, ahead of the sort. */
  lemma StatusAlwaysCandidate(tasks: seq<Task>, events: Option<seq<FeedEvent>>, working: nat, rt: Runtime)
    ensures Candidates(tasks, events, working, rt)[0] == StatusItem(rt.now, working)
  {
  }

  /** When everything fits, nothing is cut: the feed holds every candidate. */
  lemma {:induction false} NothingCutWhenFits(feed: seq<FeedItem>, cands: seq<FeedItem>, n: nat)
    requires NewestOf(feed, cands, n) && |cands| <= n
    ensures multiset(feed) == multiset(cands)
  {
    var rest := multiset(cands) - multiset(feed);
    assert multiset(cands) == multiset(feed) + rest;
    assert |multiset(cands)| == |multiset(feed)| + |rest|;
    assert |rest| == 0;
  }

  /**
   * An item strictly newer than every other candidate leads the feed: the
   * status item comes first unless a real event is at least as recent.
   */
  lemma NewestLeads(feed: seq<FeedItem>, cands: seq<FeedItem>, n: nat, top: FeedItem)
    requires NewestOf(feed, cands, n) && n >= 1
    requires top in cands
    requires forall y :: y in cands && y != top ==> y.timestamp < top.timestamp
    ensures |feed| >= 1 && feed[0] == top
  {
    assert |feed| >= 1;
    assert feed[0] in multiset(cands);
    if top !in feed {
      assert top in multiset(cands) - multiset(feed);
      assert feed[0].timestamp >= top.timestamp;
    } else {
      var p :| 0 <= p < |feed| && feed[p] == top;
      assert feed[0].timestamp >= top.timestamp;
    }
  }

  /** The status title says "project" exactly when one agent is working. */
  lemma StatusWording(working: nat)
    ensures Text.EndsWith(StatusTitle(working), " project online") <==> working == 1
  {
    var head := "Squad active \U{2014} " + Text.NatToString(working) + " ";
    if working == 1 {
      assert StatusTitle(working) == head + " project online"[1..];
    } else {
      var t := StatusTitle(working);
      assert t == head + "projects online";
      assert t[|t| - 15..] == "projects online";
    }
  }
}
