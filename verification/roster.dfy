/**
 * The agent roster: six fixed agents whose `status` is overlaid from the
 * agent status file, and the colour validation applied to each entry.
 */
module Roster {
  import opened Wrappers
  import opened Json

  datatype AgentStatus = Idle | Working
  datatype Badge = Lead | Spc

  datatype Agent = Agent(
    id: string,
    name: string,
    letter: string,
    color: string,
    role: string,
    status: AgentStatus,
    badge: Option<Badge>)

  /** The neutral gray an invalid colour is replaced with. */
  const Gray: string := "#697177"

  predicate IsHexDigit(c: char) {
    '0' <= c <= '9' || 'a' <= c <= 'f' || 'A' <= c <= 'F'
  }

  /** `/^#[0-9a-fA-F]{6}$/.test(s)` */
  predicate IsHexColor(s: string) {
    |s| == 7 && s[0] == '#' && forall i :: 1 <= i < 7 ==> IsHexDigit(s[i])
  }

  /** `sanitizeColor(color)`: the colour itself exactly when it is a six-digit hex colour. */
  function SanitizeColor(color: string): (r: string)
    ensures IsHexColor(r)
    ensures r == color <==> IsHexColor(color)
    ensures !IsHexColor(color) ==> r == Gray
  {
    if IsHexColor(color) then color else Gray
  }

  /** `AGENTS`: the default roster, every agent idle. */
  function DefaultAgents(): (r: seq<Agent>)
  {
    [
      Agent("neo", "Neo", "N", SanitizeColor("#46a758"), "Squad Lead", Idle, Some(Lead)),
      Agent("spark", "Spark", "S", SanitizeColor("#ffb224"), "Code & Writing", Idle, Some(Spc)),
      Agent("pixel", "Pixel", "P", SanitizeColor("#e879a4"), "Design & UI", Idle, Some(Spc)),
      Agent("scout", "Scout", "R", SanitizeColor("#3e63dd"), "Research", Idle, Some(Spc)),
      Agent("critic", "Critic", "C", SanitizeColor("#8e4ec6"), "Review & QA", Idle, None),
      Agent("sentinel", "Sentinel", "T", SanitizeColor("#00a2c7"), "Security", Idle, None)
    ]
  }

  /** The default roster has six agents with distinct ids, all idle, with valid colours. */
  lemma DefaultAgentsShape()
    ensures |DefaultAgents()| == 6
    ensures forall i :: 0 <= i < 6 ==> DefaultAgents()[i].status == Idle && IsHexColor(DefaultAgents()[i].color)
    ensures forall i, j :: 0 <= i < j < 6 ==> DefaultAgents()[i].id != DefaultAgents()[j].id
  {
  }

  /** `raw[id] === 'working'` for a parsed overlay that is not null. */
  predicate MarkedWorking(raw: Json, id: string) {
    Get(raw, id) == Some(JStr("working"))
  }

  /**
   * `getAgents()`. `overlay` is the parsed agent status file: None when the
   * file is missing or does not parse. A null document makes `raw[agent.id]`
   * throw, which also falls back to the defaults.
   */
  function GetAgents(overlay: Option<Json>): (r: seq<Agent>)
    ensures |r| == |DefaultAgents()|
    ensures overlay.None? || overlay == Some(JNull) ==> r == DefaultAgents()
    ensures forall i :: 0 <= i < |r| ==>
      r[i] == DefaultAgents()[i].(status := r[i].status)
    ensures overlay.Some? && !overlay.value.JNull? ==> forall i :: 0 <= i < |r| ==>
      (r[i].status == Working <==> MarkedWorking(overlay.value, r[i].id))
  {
    match overlay
    case None => DefaultAgents()
    case Some(JNull) => DefaultAgents()
    case Some(raw) =>
      var agents := DefaultAgents();
      seq(|agents|, i requires 0 <= i < |agents| =>
        agents[i].(status := if MarkedWorking(raw, agents[i].id) then Working else Idle))
  }

  /** The positions of a roster that hold a working agent. */
  ghost function WorkingPositions(agents: seq<Agent>): set<int> {
    set i | 0 <= i < |agents| && agents[i].status == Working
  }

  /** How many agents in a roster are working. */
  function WorkingCount(agents: seq<Agent>): (n: nat)
    ensures n <= |agents|
    ensures n == |WorkingPositions(agents)|
  {
    if agents == [] then 0
    else
      WorkingPositionsStep(agents);
      WorkingCount(agents[..|agents| - 1]) + if agents[|agents| - 1].status == Working then 1 else 0
  }

  /** The last agent adds its position exactly when it is working. */
  lemma WorkingPositionsStep(agents: seq<Agent>)
    requires agents != []
    ensures |WorkingPositions(agents)| ==
      |WorkingPositions(agents[..|agents| - 1])| + if agents[|agents| - 1].status == Working then 1 else 0
  {
    var n := |agents| - 1;
    var front := WorkingPositions(agents[..n]);
    forall i ensures i in WorkingPositions(agents) <==> i in front || (i == n && agents[n].status == Working) {
      if 0 <= i < n {
        assert agents[..n][i] == agents[i];
      }
    }
    assert WorkingPositions(agents) == front + if agents[n].status == Working then {n} else {};
    assert n !in front;
  }

  /** The overlay `{"spark": "working"}` makes exactly Spark work. */
  lemma SparkWorking(raw: Json)
    requires raw == JObj(map["spark" := JStr("working")])
    ensures WorkingCount(GetAgents(Some(raw))) == 1
    ensures forall a :: a in GetAgents(Some(raw)) ==> (a.status == Working <==> a.id == "spark")
  {
    var r := GetAgents(Some(raw));
    forall i | 0 <= i < |r| ensures r[i].status == Working <==> i == 1 {
      assert r[i].id == DefaultAgents()[i].id;
    }
    OnlySecondWorking(r);
  }

  /** A six-agent roster in which only the second agent works has one working agent. */
  lemma OnlySecondWorking(r: seq<Agent>)
    requires |r| == 6 && forall i :: 0 <= i < 6 ==> (r[i].status == Working <==> i == 1)
    ensures WorkingCount(r) == 1
  {
    assert r[..6] == r;
    assert r[..2][..1] == r[..1] && r[..3][..2] == r[..2] && r[..4][..3] == r[..3];
    assert r[..5][..4] == r[..4] && r[..6][..5] == r[..5];
    assert WorkingCount(r[..1]) == 0 && WorkingCount(r[..2]) == 1 && WorkingCount(r[..3]) == 1;
    assert WorkingCount(r[..4]) == 1 && WorkingCount(r[..5]) == 1;
  }
}
