// `AgentRegistry` as a class: its map, its generation counter and the channels it
// created. Each operation is proved against the protocol's step; `evict_stale_agents`
// is a loop that filters the map in place.
module AgentRegistry {
  import opened Wrappers
  import opened RegistryProtocol
  import opened RegistrySafety

  datatype Poll = Sent | Closed | Waiting

  datatype BindingError = NotRegistered | ClusterMismatch

  datatype ClusterRegistration = ClusterRegistration(commands: ChannelId, generation: nat)

  // The entries that have expired when the clock is read as `readings` says.
  ghost function Stale(agents: map<AgentId, Connection>, readings: map<AgentId, Time>): set<AgentId>
  {
    set agent | agent in readings && agent in agents && Expired(agents[agent].lastHeartbeat, readings[agent])
  }

  ghost predicate Partition(all: set<AgentId>, visited: set<AgentId>, unvisited: set<AgentId>)
  {
    visited !! unvisited && forall agent :: agent in all <==> agent in visited || agent in unvisited
  }

  lemma PartitionMoves(all: set<AgentId>, visited: set<AgentId>, unvisited: set<AgentId>, agent: AgentId)
    requires Partition(all, visited, unvisited) && agent in unvisited
    ensures agent in all && agent !in visited && Partition(all, visited + {agent}, unvisited - {agent})
  {
  }

  // What a pass over `start` has done once it has read the clock for the entries
  // that `readings` covers.
  ghost predicate Swept(start: map<AgentId, Connection>, since: Time, evicted: seq<AgentId>,
                        readings: map<AgentId, Time>, agents: map<AgentId, Connection>, clock: Time)
  {
    && since <= clock
    && (forall agent :: agent in readings ==> since <= readings[agent] <= clock)
    && multiset(evicted) == multiset(Stale(start, readings))
    && agents == start - Stale(start, readings)
  }

  lemma NothingSwept(agents: map<AgentId, Connection>, clock: Time)
    ensures Swept(agents, clock, [], map[], agents, clock)
  {
  }

  lemma StillThere(start: map<AgentId, Connection>, since: Time, evicted: seq<AgentId>, readings: map<AgentId, Time>,
                   agents: map<AgentId, Connection>, clock: Time, agent: AgentId)
    requires Swept(start, since, evicted, readings, agents, clock) && agent in start && agent !in readings
    ensures agent in agents && agents[agent] == start[agent]
  {
  }

  lemma StaleOneMore(agents: map<AgentId, Connection>, readings: map<AgentId, Time>, agent: AgentId, now: Time)
    requires agent in agents && agent !in readings
    ensures agent !in Stale(agents, readings)
    ensures Stale(agents, readings[agent := now])
      == Stale(agents, readings) + if Expired(agents[agent].lastHeartbeat, now) then {agent} else {}
  {
  }

  lemma SweptOneMore(start: map<AgentId, Connection>, since: Time, evicted: seq<AgentId>, readings: map<AgentId, Time>,
                     agents: map<AgentId, Connection>, clock: Time, agent: AgentId, now: Time)
    requires Swept(start, since, evicted, readings, agents, clock) && clock <= now
    requires agent in start && agent !in readings
    ensures Swept(start, since,
                  if Expired(start[agent].lastHeartbeat, now) then evicted + [agent] else evicted,
                  readings[agent := now],
                  if Expired(start[agent].lastHeartbeat, now) then agents - {agent} else agents, now)
  {
    StaleOneMore(start, readings, agent, now);
    if Expired(start[agent].lastHeartbeat, now) {
      assert agents - {agent} == start - (Stale(start, readings) + {agent});
    }
  }

  class Registry {
    var agents: map<AgentId, Connection>
    var nextGeneration: nat
    var channels: seq<Channel>
    var pending: map<ChannelId, Pending>
    var clock: Time
    ghost var routed: seq<Routed>
    ghost var log: seq<(ChannelId, Command)>

    ghost function View(): World
      reads this
    {
      World(agents, nextGeneration, channels, pending, routed, log)
    }

    ghost predicate Valid()
      reads this
    {
      Owned(View()) && Numbered(View()) && Conserved(View())
    }

    constructor ()
      ensures Valid() && View() == World(map[], 0, [], map[], [], [])
    {
      agents, nextGeneration, channels, pending, clock := map[], 0, [], map[], 0;
      routed, log := [], [];
    }

    // The receiver of this channel gets what is queued and then ends.
    predicate Ended(channel: ChannelId)
      reads this
    {
      channel < |channels| && !channels[channel].senderAlive
    }

    // `Utc::now()`
    method Now() returns (now: Time)
      modifies this`clock
      ensures old(clock) <= now == clock
    {
      now := *;
      if now < clock {
        now := clock;
      }
      clock := now;
    }

    ghost predicate Took(before: World, step: Step)
      reads this
    {
      Enabled(before, step) && View() == Next(before, step)
    }

    lemma Kept(before: World, step: Step)
      requires Owned(before) && Numbered(before) && Conserved(before) && Took(before, step)
      ensures Valid()
    {
      StepKeepsOwned(before, step);
      StepKeepsNumbered(before, step);
      StepConserves(before, step);
    }

    // The part of a registration before its map operation.
    method Fetch(agent: AgentId, cluster: Option<ClusterId>) returns (channel: ChannelId, generation: nat)
      requires Valid()
      modifies this
      ensures Valid() && Took(old(View()), Step.Fetch(agent, cluster, clock))
      ensures channel == |old(channels)| && generation == old(nextGeneration) && channel in pending
      ensures pending[channel] == Pending(agent, Connection(generation, cluster, channel, None, clock))
      ensures agents == old(agents)
    {
      var now := Now();
      channel := |channels|;
      channels := channels + [Channel([], true, true, [], [])];
      generation := nextGeneration;
      nextGeneration := (nextGeneration + 1) % GENERATIONS;
      pending := pending[channel := Pending(agent, Connection(generation, cluster, channel, None, now))];
      Kept(old(View()), Step.Fetch(agent, cluster, now));
    }

    // `agents.insert`: whatever entry was there loses its sender.
    method InsertUnbound(channel: ChannelId)
      requires Valid() && channel in pending && pending[channel].connection.cluster.None?
      modifies this
      ensures Valid() && Took(old(View()), Insert(channel))
      ensures clock == old(clock)
    {
      var p := pending[channel];
      pending := pending - {channel};
      if p.agent in agents {
        channels := DropSender(channels, agents[p.agent].channel);
      }
      agents := agents[p.agent := p.connection];
      Kept(old(View()), Insert(channel));
    }

    // The check of the cluster and the insertion are one map operation.
    method InsertBound(channel: ChannelId) returns (r: Result<(), BindingError>)
      requires Valid() && channel in pending && pending[channel].connection.cluster.Some?
      modifies this
      ensures Valid() && Took(old(View()), Insert(channel))
      ensures clock == old(clock)
      ensures r.Failure? <==> Refused(old(View()), old(pending)[channel])
      ensures r.Failure? ==> r.error == ClusterMismatch && agents == old(agents)
    {
      var p := pending[channel];
      pending := pending - {channel};
      if p.agent in agents {
        if agents[p.agent].cluster != p.connection.cluster {
          channels := DropReceiver(DropSender(channels, channel), channel);
          r := Failure(ClusterMismatch);
          Kept(old(View()), Insert(channel));
          return;
        }
        channels := DropSender(channels, agents[p.agent].channel);
      }
      agents := agents[p.agent := p.connection];
      r := Success(());
      Kept(old(View()), Insert(channel));
    }

    // Without other operations in between, the registration owns the entry and its
    // predecessor's receiver ends.
    method Register(agent: AgentId) returns (commands: ChannelId)
      requires Valid()
      modifies this
      ensures Valid()
      ensures agents == old(agents)[agent := Connection(old(nextGeneration), None, commands, None, clock)]
      ensures commands == |old(channels)|
      ensures agent in old(agents) ==> Ended(old(agents)[agent].channel)
    {
      var generation;
      commands, generation := Fetch(agent, None);
      InsertUnbound(commands);
    }

    method RegisterWithCluster(agent: AgentId, cluster: ClusterId)
      returns (r: Result<ClusterRegistration, BindingError>)
      requires Valid()
      modifies this
      ensures Valid()
      ensures r.Failure? <==> agent in old(agents) && old(agents)[agent].cluster != Some(cluster)
      ensures r.Failure? ==> r.error == ClusterMismatch && agents == old(agents)
      ensures r.Success? ==>
        && agents == old(agents)[agent := Connection(r.value.generation, Some(cluster), r.value.commands, None, clock)]
        && (agent in old(agents) ==> Ended(old(agents)[agent].channel))
    {
      var channel, generation := Fetch(agent, Some(cluster));
      var inserted := InsertBound(channel);
      r := if inserted.Success? then Success(ClusterRegistration(channel, generation)) else Failure(inserted.error);
    }

    method RemoveEntry(agent: AgentId)
      requires Valid() && agent in agents
      modifies this`agents, this`channels
      ensures View() == Remove(old(View()), agent)
    {
      channels := DropSender(channels, agents[agent].channel);
      agents := agents - {agent};
    }

    method UnregisterIf(agent: AgentId, generation: nat) returns (removed: bool)
      requires Valid()
      modifies this
      ensures Valid() && Took(old(View()), Step.UnregisterIf(agent, generation))
      ensures removed <==> agent in old(agents) && old(agents)[agent].generation == generation
      ensures agents == if removed then old(agents) - {agent} else old(agents)
      ensures removed ==> Ended(old(agents)[agent].channel)
    {
      removed := agent in agents && agents[agent].generation == generation;
      if removed {
        RemoveEntry(agent);
      }
      Kept(old(View()), Step.UnregisterIf(agent, generation));
    }

    method UpdateHealthForCluster(cluster: ClusterId, agent: AgentId, health: nat) returns (r: Result<(), BindingError>)
      requires Valid()
      modifies this
      ensures Valid() && Took(old(View()), UpdateHealth(agent, Some(cluster), health, clock))
      ensures r == if agent !in old(agents) then Failure(NotRegistered)
                   else if old(agents)[agent].cluster != Some(cluster) then Failure(ClusterMismatch)
                   else Success(())
      ensures r.Failure? ==> agents == old(agents)
      ensures r.Success? ==>
        agents == old(agents)[agent := old(agents)[agent].(health := Some(health), lastHeartbeat := clock)]
      ensures old(clock) <= clock
    {
      var now := Now();
      if agent !in agents {
        r := Failure(NotRegistered);
      } else if agents[agent].cluster != Some(cluster) {
        r := Failure(ClusterMismatch);
      } else {
        agents := agents[agent := agents[agent].(health := Some(health), lastHeartbeat := now)];
        r := Success(());
      }
      Kept(old(View()), UpdateHealth(agent, Some(cluster), health, now));
    }

    // `send_command`. While the channel is full the call waits, and nothing changes; a
    // closed channel and an unknown agent are errors.
    method SendCommand(agent: AgentId, command: Command) returns (r: Poll)
      requires Valid()
      modifies this
      ensures Valid()
      ensures r == if agent !in old(agents) || !old(channels)[old(agents)[agent].channel].receiverAlive then Closed
                   else if |old(channels)[old(agents)[agent].channel].queue| == 64 then Waiting
                   else Sent
      ensures agents == old(agents)
      ensures r.Sent? ==>
        var channel := agents[agent].channel;
        && |channels| == |old(channels)| && channels[channel].queue == old(channels)[channel].queue + [command]
        && forall other :: 0 <= other < |channels| && other != channel ==> channels[other] == old(channels)[other]
      ensures r.Waiting? ==> View() == old(View())
      ensures !r.Waiting? ==> Took(old(View()), Send(agent, command))
      ensures log == if r.Sent? then old(log) + [(old(agents)[agent].channel, command)] else old(log)
    {
      if agent !in agents || !channels[agents[agent].channel].receiverAlive {
        r := Closed;
      } else if |channels[agents[agent].channel].queue| == CAPACITY {
        return Waiting;
      } else {
        var channel := agents[agent].channel;
        var c := channels[channel];
        channels := channels[channel := c.(queue := c.queue + [command])];
        log := log + [(channel, command)];
        r := Sent;
      }
      Kept(old(View()), Send(agent, command));
    }

    method VisitEntry(agent: AgentId) returns (gone: bool)
      requires Valid() && agent in agents
      modifies this
      ensures Valid() && old(clock) <= clock
      ensures gone <==> Expired(old(agents)[agent].lastHeartbeat, clock)
      ensures agents == if gone then old(agents) - {agent} else old(agents)
    {
      var now := Now();
      gone := Expired(agents[agent].lastHeartbeat, now);
      if gone {
        RemoveEntry(agent);
      }
      Kept(old(View()), Visit(agent, now));
    }

    // The closure that the pass applies to one entry.
    method Sweep(ghost start: map<AgentId, Connection>, ghost since: Time, evicted: seq<AgentId>,
                 ghost readings: map<AgentId, Time>, agent: AgentId)
      returns (evicted': seq<AgentId>, ghost readings': map<AgentId, Time>)
      requires Valid() && Swept(start, since, evicted, readings, agents, clock)
      requires agent in start && agent !in readings
      modifies this
      ensures Valid() && readings'.Keys == readings.Keys + {agent}
      ensures Swept(start, since, evicted', readings', agents, clock)
    {
      StillThere(start, since, evicted, readings, agents, clock, agent);
      var gone := VisitEntry(agent);
      SweptOneMore(start, since, evicted, readings, old(agents), old(clock), agent, clock);
      readings' := readings[agent := clock];
      evicted' := if gone then evicted + [agent] else evicted;
    }

    // Filters the map in place, entry by entry, each at its own clock reading. Exactly
    // the entries that have expired at their reading are removed and reported, once
    // each; every other entry is untouched.
    method EvictStaleAgents() returns (evicted: seq<AgentId>, ghost readings: map<AgentId, Time>)
      requires Valid()
      modifies this
      ensures Valid()
      ensures readings.Keys == old(agents).Keys
      ensures Swept(old(agents), old(clock), evicted, readings, agents, clock)
    {
      evicted, readings := [], map[];
      var unvisited := agents.Keys;
      ghost var start := agents;
      NothingSwept(start, clock);
      while unvisited != {}
        invariant Valid() && start == old(agents)
        invariant Partition(start.Keys, readings.Keys, unvisited)
        invariant Swept(start, old(clock), evicted, readings, agents, clock)
        decreases unvisited
      {
        var agent :| agent in unvisited;
        PartitionMoves(start.Keys, readings.Keys, unvisited, agent);
        unvisited := unvisited - {agent};
        evicted, readings := Sweep(start, old(clock), evicted, readings, agent);
      }
    }

    method IsHealthy(agent: AgentId) returns (healthy: bool)
      requires Valid()
      modifies this`clock
      ensures healthy <==> agent in agents && !Expired(agents[agent].lastHeartbeat, clock)
      ensures old(clock) <= clock
    {
      var now := Now();
      healthy := agent in agents && Elapsed(agents[agent].lastHeartbeat, now) < TIMEOUT;
    }
  }
}
