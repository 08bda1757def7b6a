// Heartbeats and eviction, in every interleaving, with a clock that does not go back.
module RegistryHealth {
  import opened Wrappers
  import opened RegistryProtocol
  import opened RegistrySafety

  // `is_healthy`
  predicate IsHealthy(w: World, agent: AgentId, now: Time)
  {
    agent in w.agents && Elapsed(w.agents[agent].lastHeartbeat, now) < TIMEOUT
  }

  // Eviction and `is_healthy` agree at the same clock reading, and a reading that
  // is not behind the last heartbeat evicts exactly from 90 s on.
  lemma VisitEvictsExactlyTheUnhealthy(w: World, agent: AgentId, now: Time)
    requires Enabled(w, Visit(agent, now)) && agent in w.agents
    ensures
      var w' := Next(w, Visit(agent, now));
      && (agent in w'.agents <==> IsHealthy(w, agent, now))
      && w'.agents == (if IsHealthy(w, agent, now) then w.agents else w.agents - {agent})
      && (w.agents[agent].lastHeartbeat <= now ==>
            (agent !in w'.agents <==> now - w.agents[agent].lastHeartbeat >= 90_000_000_000))
  {
  }

  function Reading(step: Step): Option<Time>
  {
    match step
    case Fetch(_, _, now) => Some(now)
    case Heartbeat(_, now) => Some(now)
    case UpdateHealth(_, _, _, now) => Some(now)
    case Visit(_, now) => Some(now)
    case _ => None
  }

  predicate Monotone(steps: seq<Step>)
  {
    forall i, j :: 0 <= i < j < |steps| && Reading(steps[i]).Some? && Reading(steps[j]).Some? ==>
      Reading(steps[i]).value <= Reading(steps[j]).value
  }

  // Every recorded time was read earlier in the run.
  predicate Past(w: World, steps: seq<Step>, k: nat)
    requires k <= |steps|
  {
    && (forall agent :: agent in w.agents ==> WasRead(w.agents[agent].lastHeartbeat, steps, k))
    && (forall c :: c in w.pending ==> WasRead(w.pending[c].connection.lastHeartbeat, steps, k))
  }

  predicate WasRead(time: Time, steps: seq<Step>, k: nat)
    requires k <= |steps|
  {
    exists i :: 0 <= i < k && Reading(steps[i]) == Some(time)
  }

  lemma ReadStays(time: Time, steps: seq<Step>, k: nat)
    requires k < |steps| && WasRead(time, steps, k)
    ensures WasRead(time, steps, k + 1)
  {
    var i :| 0 <= i < k && Reading(steps[i]) == Some(time);
    assert i < k + 1;
  }

  lemma StepReads(w: World, steps: seq<Step>, k: nat)
    requires k < |steps| && Past(w, steps, k) && Enabled(w, steps[k])
    ensures Past(Next(w, steps[k]), steps, k + 1)
  {
    var w' := Next(w, steps[k]);
    assert Reading(steps[k]).Some? ==> WasRead(Reading(steps[k]).value, steps, k + 1);
    forall time | WasRead(time, steps, k) ensures WasRead(time, steps, k + 1) {
      ReadStays(time, steps, k);
    }
    forall agent | agent in w'.agents ensures WasRead(w'.agents[agent].lastHeartbeat, steps, k + 1) {
      assert agent in w.agents ==> WasRead(w.agents[agent].lastHeartbeat, steps, k);
      assert steps[k].Insert? ==> WasRead(w.pending[steps[k].channel].connection.lastHeartbeat, steps, k);
    }
  }

  lemma {:induction false} RecordedTimesWereRead(run: seq<World>, steps: seq<Step>, k: nat)
    requires IsRun(run, steps) && k < |run|
    ensures Past(run[k], steps, k)
  {
    if k > 0 {
      RecordedTimesWereRead(run, steps, k - 1);
      assert Next(run[k - 1], steps[k - 1]) == run[k - 1 + 1];
      StepReads(run[k - 1], steps, k - 1);
    }
  }

  // The time that step `i` gives to the agent's entry: a heartbeat or an accepted health
  // report that reaches the entry, or a registration that installs one.
  function Refresh(run: seq<World>, steps: seq<Step>, i: nat, agent: AgentId): Option<Time>
    requires |run| == |steps| + 1 && i < |steps|
  {
    match steps[i]
    case Heartbeat(a, now) => if a == agent && agent in run[i].agents then Some(now) else None
    case UpdateHealth(a, cluster, _, now) =>
      if a == agent && agent in run[i].agents && (cluster.Some? ==> run[i].agents[agent].cluster == cluster)
      then Some(now) else None
    case Insert(c) =>
      if c in run[i].pending && run[i].pending[c].agent == agent && !Refused(run[i], run[i].pending[c])
      then Some(run[i].pending[c].connection.lastHeartbeat) else None
    case _ => None
  }

  // Step `i` is the last refresh of the agent's entry before step `k`.
  predicate LastRefresh(run: seq<World>, steps: seq<Step>, i: nat, k: nat, agent: AgentId)
    requires |run| == |steps| + 1 && i < k <= |steps|
  {
    Refresh(run, steps, i, agent).Some? && forall m :: i < m < k ==> Refresh(run, steps, m, agent).None?
  }

  // The heartbeat of an entry is the time of its last refresh.
  lemma {:induction false} HeartbeatIsLastRefresh(run: seq<World>, steps: seq<Step>, k: nat, agent: AgentId) returns (i: nat)
    requires IsRun(run, steps) && k < |run| && agent in run[k].agents
    ensures i < k && LastRefresh(run, steps, i, k, agent)
    ensures Refresh(run, steps, i, agent) == Some(run[k].agents[agent].lastHeartbeat)
  {
    assert k > 0;
    var step := steps[k - 1];
    assert Next(run[k - 1], step) == run[k - 1 + 1];
    if Refresh(run, steps, k - 1, agent).Some? {
      i := k - 1;
    } else {
      i := HeartbeatIsLastRefresh(run, steps, k - 1, agent);
    }
  }

  lemma RefreshWasRead(run: seq<World>, steps: seq<Step>, i: nat, agent: AgentId)
    requires IsRun(run, steps) && i < |steps| && Refresh(run, steps, i, agent).Some?
    ensures WasRead(Refresh(run, steps, i, agent).value, steps, i + 1)
  {
    RecordedTimesWereRead(run, steps, i);
    if steps[i].Insert? {
      ReadStays(Refresh(run, steps, i, agent).value, steps, i);
    } else {
      assert Reading(steps[i]) == Refresh(run, steps, i, agent);
    }
  }

  // With a clock that does not go back, a visit evicts an agent if and only if the time
  // of its last refresh is 90 s old.
  lemma VisitEvictsExactlyWhenStale(run: seq<World>, steps: seq<Step>, k: nat, agent: AgentId, now: Time) returns (i: nat)
    requires IsRun(run, steps) && Monotone(steps) && k < |steps|
    requires steps[k] == Visit(agent, now) && agent in run[k].agents
    ensures i < k && LastRefresh(run, steps, i, k, agent)
    ensures Refresh(run, steps, i, agent).value <= now
    ensures agent !in run[k + 1].agents <==> now - Refresh(run, steps, i, agent).value >= 90_000_000_000
  {
    i := HeartbeatIsLastRefresh(run, steps, k, agent);
    RefreshWasRead(run, steps, i, agent);
    var r :| 0 <= r < i + 1 && Reading(steps[r]) == Refresh(run, steps, i, agent);
    assert Reading(steps[r]).value <= Reading(steps[k]).value;
    assert Next(run[k], steps[k]) == run[k + 1];
  }

  // A registration that is accepted at step `i` although it read the clock 90 s or more
  // before `now`.
  predicate Stalled(run: seq<World>, steps: seq<Step>, i: nat, agent: AgentId, now: Time)
    requires |run| == |steps| + 1 && i < |steps|
  {
    steps[i].Insert? && Refresh(run, steps, i, agent).Some? && now - Refresh(run, steps, i, agent).value >= TIMEOUT
  }

  lemma RefreshesAreRecent(run: seq<World>, steps: seq<Step>, j: nat, i: nat, agent: AgentId, now: Time)
    requires IsRun(run, steps) && Monotone(steps) && j <= i < |steps|
    requires Refresh(run, steps, j, agent).Some? && now - Refresh(run, steps, j, agent).value < TIMEOUT
    requires Refresh(run, steps, i, agent).Some? && (i > j ==> !Stalled(run, steps, i, agent, now))
    ensures now - Refresh(run, steps, i, agent).value < TIMEOUT
  {
    RefreshWasRead(run, steps, j, agent);
    if i > j && !steps[i].Insert? {
      var r :| 0 <= r < j + 1 && Reading(steps[r]) == Refresh(run, steps, j, agent);
      assert Reading(steps[r]).value <= Reading(steps[i]).value;
    }
  }

  // An agent that was refreshed less than 90 s before the visit is not evicted, whatever
  // else happens, unless a stalled registration replaces its entry in between.
  lemma LivelyAgentsAreKept(run: seq<World>, steps: seq<Step>, j: nat, k: nat, agent: AgentId, now: Time)
    requires IsRun(run, steps) && Monotone(steps) && j < k < |steps|
    requires Refresh(run, steps, j, agent).Some? && now - Refresh(run, steps, j, agent).value < TIMEOUT
    requires forall i :: j < i < k ==> !Stalled(run, steps, i, agent, now)
    requires steps[k] == Visit(agent, now) && agent in run[k].agents
    ensures agent in run[k + 1].agents
  {
    var i := VisitEvictsExactlyWhenStale(run, steps, k, agent, now);
    RefreshesAreRecent(run, steps, j, i, agent, now);
  }

  lemma RegisterTwice(agent: AgentId, cluster: ClusterId) returns (run: seq<World>, steps: seq<Step>)
    ensures IsRun(run, steps)
    ensures steps == [Fetch(agent, Some(cluster), 0), Fetch(agent, Some(cluster), 0), Insert(0)]
    ensures
      var waiting := Connection(1, Some(cluster), 1, None, 0);
      run[3] == World(
        map[agent := Connection(0, Some(cluster), 0, None, 0)], 2,
        [Channel([], true, true, [], []), Channel([], true, true, [], [])],
        map[1 := Pending(agent, waiting)], [], [])
  {
    run, steps := [World(map[], 0, [], map[], [], [])], [];
    run, steps := Extend(run, steps, Fetch(agent, Some(cluster), 0));
    run, steps := Extend(run, steps, Fetch(agent, Some(cluster), 0));
    run, steps := Extend(run, steps, Insert(0));
    assert run[3].pending == map[1 := Pending(agent, Connection(1, Some(cluster), 1, None, 0))];
  }

  lemma BeatThenReplace(agent: AgentId, cluster: ClusterId) returns (run: seq<World>, steps: seq<Step>)
    ensures IsRun(run, steps)
    ensures steps == [Fetch(agent, Some(cluster), 0), Fetch(agent, Some(cluster), 0), Insert(0),
                      Heartbeat(agent, TIMEOUT), Insert(1)]
    ensures agent in run[3].agents
    ensures run[5].agents == map[agent := Connection(1, Some(cluster), 1, None, 0)]
    ensures |run[5].channels| == 2 && run[5].pending == map[] && run[5].nextGeneration == 2
  {
    run, steps := RegisterTwice(agent, cluster);
    run, steps := Extend(run, steps, Heartbeat(agent, TIMEOUT));
    run, steps := Extend(run, steps, Insert(1));
  }

  // Such a registration does evict an agent in the very second of its heartbeat:
  // it read the clock, stalled for 90 s, and then replaced the entry.
  lemma StalledRegistrationEvicts(agent: AgentId, cluster: ClusterId)
    returns (run: seq<World>, steps: seq<Step>)
    ensures IsRun(run, steps) && Monotone(steps) && |steps| == 6
    ensures steps[3] == Heartbeat(agent, TIMEOUT) && Refresh(run, steps, 3, agent) == Some(TIMEOUT)
    ensures steps[5] == Visit(agent, TIMEOUT) && Stalled(run, steps, 4, agent, TIMEOUT)
    ensures agent in run[5].agents && agent !in run[6].agents
  {
    run, steps := BeatThenReplace(agent, cluster);
    run, steps := Extend(run, steps, Visit(agent, TIMEOUT));
  }
}
