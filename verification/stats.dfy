/** Status counts over the loaded tasks. */
module Stats {
  import opened Normalize

  /** The counters `getStats` returns; `assignedCount` is the source's `assigned` (a reserved word here). */
  datatype Stats = Stats(total: nat, done: nat, inProgress: nat, review: nat, assignedCount: nat, inbox: nat, waiting: nat)

  /** `tasks.filter(t => t.status === status).length` */
  function CountStatus(tasks: seq<Task>, status: Status): (n: nat)
    ensures n <= |tasks|
  {
    if tasks == [] then 0
    else CountStatus(tasks[..|tasks| - 1], status) + if tasks[|tasks| - 1].status == status then 1 else 0
  }

  /** `getStats(tasks)` */
  function GetStats(tasks: seq<Task>): (s: Stats)
    ensures s.total == |tasks|
    ensures s.done == |Positions(tasks, Done)| && s.inProgress == |Positions(tasks, InProgress)|
    ensures s.review == |Positions(tasks, Review)| && s.assignedCount == |Positions(tasks, Assigned)|
    ensures s.inbox == |Positions(tasks, Inbox)| && s.waiting == |Positions(tasks, Waiting)|
  {
    CountStatusIsMultiplicity(tasks, Done);
    CountStatusIsMultiplicity(tasks, InProgress);
    CountStatusIsMultiplicity(tasks, Review);
    CountStatusIsMultiplicity(tasks, Assigned);
    CountStatusIsMultiplicity(tasks, Inbox);
    CountStatusIsMultiplicity(tasks, Waiting);
    Stats(|tasks|,
      CountStatus(tasks, Done), CountStatus(tasks, InProgress), CountStatus(tasks, Review),
      CountStatus(tasks, Assigned), CountStatus(tasks, Inbox), CountStatus(tasks, Waiting))
  }

  /** Every task has one of the six statuses, so the six counts add up to the total. */
  lemma {:induction false} CountsAddUp(tasks: seq<Task>)
    ensures var s := GetStats(tasks);
      s.done + s.inProgress + s.review + s.assignedCount + s.inbox + s.waiting == s.total
  {
    if tasks != [] {
      CountsAddUp(tasks[..|tasks| - 1]);
    }
  }

  /** A count depends only on how many tasks have that status, not on their order. */
  lemma {:induction false} CountStatusAppend(a: seq<Task>, b: seq<Task>, status: Status)
    ensures CountStatus(a + b, status) == CountStatus(a, status) + CountStatus(b, status)
    decreases |b|
  {
    if b == [] {
      assert a + b == a;
    } else {
      assert (a + b)[..|a + b| - 1] == a + b[..|b| - 1];
      CountStatusAppend(a, b[..|b| - 1], status);
    }
  }

  /** The positions of the tasks that have the status. */
  ghost function Positions(tasks: seq<Task>, status: Status): set<int> {
    set i | 0 <= i < |tasks| && tasks[i].status == status
  }

  /** A count is the number of positions holding that status. */
  lemma {:induction false} CountStatusIsMultiplicity(tasks: seq<Task>, status: Status)
    ensures CountStatus(tasks, status) == |Positions(tasks, status)|
  {
    if tasks != [] {
      CountStatusIsMultiplicity(tasks[..|tasks| - 1], status);
      PositionsStep(tasks, status);
    }
  }

  lemma PositionsStep(tasks: seq<Task>, status: Status)
    requires tasks != []
    ensures |Positions(tasks, status)| ==
      |Positions(tasks[..|tasks| - 1], status)| + if tasks[|tasks| - 1].status == status then 1 else 0
  {
    var n := |tasks| - 1;
    PositionsSplit(tasks, status);
    assert n !in Positions(tasks[..n], status);
  }

  lemma PositionsSplit(tasks: seq<Task>, status: Status)
    requires tasks != []
    ensures Positions(tasks, status) ==
      Positions(tasks[..|tasks| - 1], status) + if tasks[|tasks| - 1].status == status then {|tasks| - 1} else {}
  {
    var n := |tasks| - 1;
    forall i ensures i in Positions(tasks, status) <==> i in Positions(tasks[..n], status) || (i == n && tasks[n].status == status) {
      if 0 <= i < n {
        assert tasks[..n][i] == tasks[i];
      }
    }
  }
}
