// What every interleaving of registry operations keeps.
module RegistrySafety {
  import opened Wrappers
  import opened RegistryProtocol

  // A sender is alive exactly while an entry or a registration in progress holds
  // it, and no two of them share one.
  predicate Owned(w: World)
  {
    && WellFormed(w)
    && (forall channel :: 0 <= channel < |w.channels| ==>
          (w.channels[channel].senderAlive <==> channel in w.pending || Holder(w, channel)))
    && (forall a, b :: a in w.agents && b in w.agents && w.agents[a].channel == w.agents[b].channel ==> a == b)
    && (forall agent :: agent in w.agents ==> w.agents[agent].channel !in w.pending)
  }

  predicate Holder(w: World, channel: ChannelId)
  {
    exists agent :: agent in w.agents && w.agents[agent].channel == channel
  }

  // Generations number the channels until the counter wraps.
  predicate Numbered(w: World)
  {
    |w.channels| <= GENERATIONS ==>
      && w.nextGeneration == |w.channels| % GENERATIONS
      && (forall agent :: agent in w.agents ==> w.agents[agent].generation == w.agents[agent].channel)
      && (forall channel :: channel in w.pending ==> w.pending[channel].connection.generation == channel)
  }

  lemma RemoveKeepsOwned(w: World, agent: AgentId)
    requires Owned(w) && agent in w.agents
    ensures Owned(Remove(w, agent))
  {
    var w' := Remove(w, agent);
    var dropped := w.agents[agent].channel;
    forall channel | 0 <= channel < |w'.channels|
      ensures w'.channels[channel].senderAlive <==> channel in w'.pending || Holder(w', channel)
    {
      if Holder(w', channel) {
        var a :| a in w'.agents && w'.agents[a].channel == channel;
        assert a in w.agents;
      }
      if Holder(w, channel) && channel != dropped {
        var a :| a in w.agents && w.agents[a].channel == channel;
        assert a in w'.agents;
      }
    }
  }

  lemma RefuseKeepsOwned(w: World, channel: ChannelId)
    requires Owned(w) && channel in w.pending && Refused(w, w.pending[channel])
    ensures Owned(Install(w, channel))
  {
    var w' := Install(w, channel);
    forall c | 0 <= c < |w'.channels|
      ensures w'.channels[c].senderAlive <==> c in w'.pending || Holder(w', c)
    {
      assert Holder(w', c) == Holder(w, c) by {
        assert w'.agents == w.agents;
      }
    }
  }

  lemma InstallKeepsOwned(w: World, channel: ChannelId)
    requires Owned(w) && channel in w.pending && !Refused(w, w.pending[channel])
    ensures Owned(Install(w, channel))
  {
    var w' := Install(w, channel);
    var p := w.pending[channel];
    assert w'.agents[p.agent].channel == channel;
    forall c | 0 <= c < |w'.channels|
      ensures w'.channels[c].senderAlive <==> c in w'.pending || Holder(w', c)
    {
      if Holder(w', c) {
        var a :| a in w'.agents && w'.agents[a].channel == c;
        assert a != p.agent ==> a in w.agents;
      }
      if Holder(w, c) {
        var a :| a in w.agents && w.agents[a].channel == c;
        if a != p.agent {
          assert a in w'.agents && w'.agents[a].channel == c;
        }
      }
    }
  }

  lemma SameHoldersKeepOwned(w: World, w': World)
    requires Owned(w) && w'.nextGeneration < GENERATIONS
    requires |w'.channels| == |w.channels| && w'.pending == w.pending && w'.agents.Keys == w.agents.Keys
    requires forall c :: 0 <= c < |w.channels| ==> w'.channels[c].senderAlive == w.channels[c].senderAlive
    requires forall agent :: agent in w.agents ==> w'.agents[agent].channel == w.agents[agent].channel
    ensures Owned(w')
  {
    forall c | 0 <= c < |w'.channels| ensures Holder(w', c) == Holder(w, c) {
      if Holder(w, c) {
        var a :| a in w.agents && w.agents[a].channel == c;
        assert w'.agents[a].channel == c;
      }
      if Holder(w', c) {
        var a :| a in w'.agents && w'.agents[a].channel == c;
        assert w.agents[a].channel == c;
      }
    }
  }

  lemma FetchKeepsOwned(w: World, agent: AgentId, cluster: Option<ClusterId>, now: Time)
    requires Owned(w) && Enabled(w, Fetch(agent, cluster, now))
    ensures Owned(Next(w, Fetch(agent, cluster, now)))
  {
    var w' := Next(w, Fetch(agent, cluster, now));
    forall c | 0 <= c < |w'.channels| ensures Holder(w', c) == Holder(w, c) {
      assert w'.agents == w.agents;
    }
  }

  lemma OtherStepKeepsOwned(w: World, step: Step)
    requires Owned(w) && Enabled(w, step)
    requires step.Heartbeat? || step.UpdateHealth? || step.Send? || step.Lookup? || step.Receive? || step.CloseReceiver?
    ensures Owned(Next(w, step))
  {
    SameHoldersKeepOwned(w, Next(w, step));
  }

  lemma StepKeepsOwned(w: World, step: Step)
    requires Owned(w) && Enabled(w, step)
    ensures Owned(Next(w, step))
  {
    if step.Fetch? {
      FetchKeepsOwned(w, step.agent, step.cluster, step.now);
    } else if step.Insert? {
      if Refused(w, w.pending[step.channel]) {
        RefuseKeepsOwned(w, step.channel);
      } else {
        InstallKeepsOwned(w, step.channel);
      }
    } else if step.Unregister? || step.UnregisterIf? || step.Visit? {
      if step.agent in w.agents {
        RemoveKeepsOwned(w, step.agent);
      }
    } else {
      OtherStepKeepsOwned(w, step);
    }
  }

  lemma StepKeepsNumbered(w: World, step: Step)
    requires Owned(w) && Numbered(w) && Enabled(w, step)
    ensures Numbered(Next(w, step))
  {
    if step.Insert? {
      InstallKeepsNumbered(w, step.channel);
    }
  }

  lemma InstallKeepsNumbered(w: World, channel: ChannelId)
    requires Owned(w) && Numbered(w) && Enabled(w, Insert(channel))
    ensures Numbered(Install(w, channel))
  {
  }

  lemma {:induction false} RunsKeepOwned(run: seq<World>, steps: seq<Step>, k: nat)
    requires IsRun(run, steps) && k < |run|
    ensures Owned(run[k]) && Numbered(run[k])
  {
    if k > 0 {
      RunsKeepOwned(run, steps, k - 1);
      StepKeepsOwned(run[k - 1], steps[k - 1]);
      StepKeepsNumbered(run[k - 1], steps[k - 1]);
    }
  }

  // ---- Generations ----------------------------------------------------------------

  lemma {:induction false} ChannelsCountRegistrations(run: seq<World>, steps: seq<Step>, k: nat)
    requires IsRun(run, steps) && k < |run|
    ensures |run[k].channels| == Registrations(steps[..k])
  {
    if k > 0 {
      ChannelsCountRegistrations(run, steps, k - 1);
      assert steps[..k][..k - 1] == steps[..k - 1];
    }
  }

  // Live generations are pairwise distinct, among entries and among registrations
  // that have not reached the map yet, until 2^64 registrations have started.
  lemma GenerationsAreDistinct(run: seq<World>, steps: seq<Step>, k: nat)
    requires IsRun(run, steps) && k < |run| && Registrations(steps[..k]) <= GENERATIONS
    ensures
      var w := run[k];
      && (forall a, b :: a in w.agents && b in w.agents && w.agents[a].generation == w.agents[b].generation ==> a == b)
      && (forall a, c :: a in w.agents && c in w.pending ==> w.agents[a].generation != w.pending[c].connection.generation)
      && (forall c, d :: c in w.pending && d in w.pending && w.pending[c].connection.generation == w.pending[d].connection.generation ==> c == d)
  {
    RunsKeepOwned(run, steps, k);
    ChannelsCountRegistrations(run, steps, k);
  }

  // `unregister_if` with the generation of registration `channel` removes an entry
  // exactly when that registration still owns it; a replacement stays.
  lemma CleanupRemovesOwnEntryOnly(run: seq<World>, steps: seq<Step>, k: nat, agent: AgentId, channel: ChannelId)
    requires IsRun(run, steps) && k < |run| && Registrations(steps[..k]) <= GENERATIONS
    requires channel < |run[k].channels| < GENERATIONS
    ensures Enabled(run[k], UnregisterIf(agent, channel))
    ensures
      var w := run[k];
      var w' := Next(w, UnregisterIf(agent, channel));
      && (agent in w.agents && w.agents[agent].channel == channel <==> w'.agents != w.agents)
      && (w'.agents != w.agents ==> w'.agents == w.agents - {agent} && !w'.channels[channel].senderAlive)
  {
    RunsKeepOwned(run, steps, k);
    ChannelsCountRegistrations(run, steps, k);
    assert agent in run[k].agents ==> agent !in run[k].agents - {agent};
  }

  // A registration owns its entry, is still on its way to the map, or has lost its
  // sender, so its receiver ends.
  lemma RegistrationOwnsEntryOrLosesSender(run: seq<World>, steps: seq<Step>, k: nat, channel: ChannelId)
    requires IsRun(run, steps) && k < |run| && channel < |run[k].channels|
    ensures
      var w := run[k];
      w.channels[channel].senderAlive <==>
        (channel in w.pending || exists agent :: agent in w.agents && w.agents[agent].channel == channel)
  {
    RunsKeepOwned(run, steps, k);
  }

  // ---- Cluster binding -------------------------------------------------------------

  predicate Unbinds(w: World, step: Step, agent: AgentId)
  {
    step.Insert? && step.channel in w.pending && w.pending[step.channel].agent == agent
    && w.pending[step.channel].connection.cluster.None?
  }

  lemma StepKeepsCluster(w: World, step: Step, agent: AgentId)
    requires Enabled(w, step) && agent in w.agents && agent in Next(w, step).agents && !Unbinds(w, step, agent)
    ensures Next(w, step).agents[agent].cluster == w.agents[agent].cluster
  {
  }

  // An entry's cluster changes only through removal or an unbound `register`.
  lemma {:induction false} ClusterIsKept(run: seq<World>, steps: seq<Step>, from: nat, k: nat, agent: AgentId)
    requires IsRun(run, steps) && from <= k < |run|
    requires forall i :: from <= i <= k ==> agent in run[i].agents
    requires forall i :: from <= i < k ==> !Unbinds(run[i], steps[i], agent)
    ensures run[k].agents[agent].cluster == run[from].agents[agent].cluster
  {
    if from < k {
      ClusterIsKept(run, steps, from, k - 1, agent);
      assert Next(run[k - 1], steps[k - 1]) == run[k - 1 + 1] == run[k];
      StepKeepsCluster(run[k - 1], steps[k - 1], agent);
    }
  }

  // The entry of the agent belongs to another cluster, or to none.
  predicate Foreign(w: World, agent: AgentId, cluster: ClusterId)
  {
    agent in w.agents && w.agents[agent].cluster != Some(cluster)
  }

  // A registration of the agent is accepted that is not bound to the cluster.
  predicate Displaces(w: World, step: Step, agent: AgentId, cluster: ClusterId)
  {
    && step.Insert? && step.channel in w.pending && w.pending[step.channel].agent == agent
    && !Refused(w, w.pending[step.channel])
    && w.pending[step.channel].connection.cluster != Some(cluster)
  }

  // A registration of the agent is accepted that is bound to the cluster.
  predicate Binds(w: World, step: Step, agent: AgentId, cluster: ClusterId)
  {
    && step.Insert? && step.channel in w.pending && w.pending[step.channel].agent == agent
    && !Refused(w, w.pending[step.channel])
    && w.pending[step.channel].connection.cluster == Some(cluster)
  }

  // Since the displacement at `m` the entry was neither removed nor bound again.
  predicate DisplacedAt(run: seq<World>, steps: seq<Step>, m: nat, k: nat, agent: AgentId, cluster: ClusterId)
    requires |run| == |steps| + 1 && m < k <= |steps|
  {
    && Displaces(run[m], steps[m], agent, cluster)
    && (forall i :: m < i <= k ==> agent in run[i].agents)
    && (forall i :: m < i < k ==> !Binds(run[i], steps[i], agent, cluster))
  }

  predicate Displaced(run: seq<World>, steps: seq<Step>, from: nat, k: nat, agent: AgentId, cluster: ClusterId)
    requires |run| == |steps| + 1 && k <= |steps|
  {
    exists m :: from <= m < k && DisplacedAt(run, steps, m, k, agent, cluster)
  }

  lemma StepTurnsForeign(w: World, step: Step, agent: AgentId, cluster: ClusterId)
    requires Enabled(w, step)
    ensures Foreign(Next(w, step), agent, cluster) <==>
      || Displaces(w, step, agent, cluster)
      || (Foreign(w, agent, cluster) && agent in Next(w, step).agents && !Binds(w, step, agent, cluster))
    ensures Displaces(w, step, agent, cluster) ==> agent in Next(w, step).agents
  {
  }

  lemma DisplacementGoesOn(run: seq<World>, steps: seq<Step>, from: nat, k: nat, agent: AgentId, cluster: ClusterId)
    requires |run| == |steps| + 1 && from < k <= |steps|
    ensures Displaced(run, steps, from, k, agent, cluster) <==>
      && agent in run[k].agents
      && (|| Displaces(run[k - 1], steps[k - 1], agent, cluster)
          || (Displaced(run, steps, from, k - 1, agent, cluster) && !Binds(run[k - 1], steps[k - 1], agent, cluster)))
  {
    if Displaced(run, steps, from, k, agent, cluster) {
      var m :| from <= m < k && DisplacedAt(run, steps, m, k, agent, cluster);
      if m < k - 1 {
        assert DisplacedAt(run, steps, m, k - 1, agent, cluster);
      }
    }
    if agent in run[k].agents {
      if Displaces(run[k - 1], steps[k - 1], agent, cluster) {
        assert DisplacedAt(run, steps, k - 1, k, agent, cluster);
      } else if Displaced(run, steps, from, k - 1, agent, cluster) && !Binds(run[k - 1], steps[k - 1], agent, cluster) {
        var m :| from <= m < k - 1 && DisplacedAt(run, steps, m, k - 1, agent, cluster);
        assert DisplacedAt(run, steps, m, k, agent, cluster);
      }
    }
  }

  // From an entry that is not foreign, the entry is foreign later if and only if it was
  // displaced and neither removed nor bound to the cluster again since.
  lemma {:induction false} ForeignExactlyWhenDisplaced(run: seq<World>, steps: seq<Step>, from: nat, k: nat, agent: AgentId, cluster: ClusterId)
    requires IsRun(run, steps) && from <= k < |run| && !Foreign(run[from], agent, cluster)
    ensures Foreign(run[k], agent, cluster) <==> Displaced(run, steps, from, k, agent, cluster)
  {
    if from < k {
      ForeignExactlyWhenDisplaced(run, steps, from, k - 1, agent, cluster);
      DisplacementGoesOn(run, steps, from, k, agent, cluster);
      assert Next(run[k - 1], steps[k - 1]) == run[k - 1 + 1];
      StepTurnsForeign(run[k - 1], steps[k - 1], agent, cluster);
    }
  }

  // A command for a cluster that was looked up at `from` and is accepted at `k` enters
  // the channel of an entry bound to that cluster if and only if the selected entry is
  // not displaced in between.
  lemma ClusterSendStaysExactlyUnlessDisplaced(run: seq<World>, steps: seq<Step>, from: nat, k: nat, cluster: ClusterId, agent: AgentId, command: Command)
    requires IsRun(run, steps) && from < k < |steps|
    requires steps[from] == Lookup(cluster, agent) && steps[k] == Send(agent, command)
    requires run[k + 1].log != run[k].log
    ensures agent in run[k].agents
    ensures run[k + 1].log == run[k].log + [(run[k].agents[agent].channel, command)]
    ensures run[k].agents[agent].cluster == Some(cluster) <==> !Displaced(run, steps, from, k, agent, cluster)
  {
    assert Next(run[k], steps[k]) == run[k + 1] && Enabled(run[from], steps[from]);
    ForeignExactlyWhenDisplaced(run, steps, from, k, agent, cluster);
  }

  // In particular it does if the entry was neither removed nor registered unbound.
  lemma ClusterSendStaysInCluster(run: seq<World>, steps: seq<Step>, from: nat, k: nat, cluster: ClusterId, agent: AgentId, command: Command)
    requires IsRun(run, steps) && from < k < |steps|
    requires steps[from] == Lookup(cluster, agent) && steps[k] == Send(agent, command)
    requires forall i :: from <= i <= k ==> agent in run[i].agents
    requires forall i :: from <= i < k ==> !Unbinds(run[i], steps[i], agent)
    ensures run[k].agents[agent].cluster == Some(cluster) && !Displaced(run, steps, from, k, agent, cluster)
    ensures run[k + 1].log != run[k].log ==> run[k + 1].log == run[k].log + [(run[k].agents[agent].channel, command)]
  {
    assert Enabled(run[from], steps[from]) && Next(run[k], steps[k]) == run[k + 1];
    ClusterIsKept(run, steps, from, k, agent);
    ForeignExactlyWhenDisplaced(run, steps, from, k, agent, cluster);
  }

  lemma Extend(run: seq<World>, steps: seq<Step>, step: Step) returns (longer: seq<World>, more: seq<Step>)
    requires IsRun(run, steps) && Enabled(run[|steps|], step)
    ensures IsRun(longer, more) && more == steps + [step]
    ensures longer == run + [Next(run[|steps|], step)]
  {
    longer, more := run + [Next(run[|steps|], step)], steps + [step];
  }

  lemma RegisterBound(run: seq<World>, steps: seq<Step>, agent: AgentId, cluster: ClusterId)
    returns (longer: seq<World>, more: seq<Step>)
    requires IsRun(run, steps)
    requires
      var w := run[|steps|];
      WellFormed(w) && agent !in w.agents && w.nextGeneration + 1 < GENERATIONS
    ensures IsRun(longer, more) && |more| == |steps| + 2 && run <= longer && steps <= more
    ensures
      var w, w' := run[|steps|], longer[|more|];
      && WellFormed(w') && w'.agents.Keys == w.agents.Keys + {agent}
      && w'.agents[agent].cluster == Some(cluster) && w'.agents[agent].channel == |w.channels|
      && w'.channels == w.channels + [Channel([], true, true, [], [])]
      && w'.log == w.log && w'.nextGeneration == w.nextGeneration + 1
  {
    longer, more := Extend(run, steps, Fetch(agent, Some(cluster), 0));
    longer, more := Extend(longer, more, Insert(|run[|steps|].channels|));
  }

  // The exception is real: the entry can be gone and taken over by another cluster
  // when the command arrives.
  lemma RoutedCommandCanReachAnotherCluster(mine: ClusterId, other: ClusterId, agent: AgentId, command: Command)
    returns (run: seq<World>, steps: seq<Step>)
    requires mine != other
    ensures IsRun(run, steps) && |steps| == 7
    ensures steps[2] == Lookup(mine, agent) && steps[6] == Send(agent, command)
    ensures agent in run[6].agents && run[6].agents[agent].cluster == Some(other)
    ensures run[7].log == [(run[6].agents[agent].channel, command)]
  {
    run, steps := RegisterBound([World(map[], 0, [], map[], [], [])], [], agent, mine);
    run, steps := Extend(run, steps, Lookup(mine, agent));
    run, steps := Extend(run, steps, Unregister(agent));
    run, steps := RegisterBound(run, steps, agent, other);
    run, steps := Extend(run, steps, Send(agent, command));
  }

  // ---- Commands ----------------------------------------------------------------------

  // The accepted commands of one channel, in order.
  function Accepted(log: seq<(ChannelId, Command)>, channel: ChannelId): seq<Command>
  {
    if log == [] then []
    else Accepted(log[..|log| - 1], channel) + if log[|log| - 1].0 == channel then [log[|log| - 1].1] else []
  }

  predicate Conserved(w: World)
  {
    && (forall i :: 0 <= i < |w.log| ==> w.log[i].0 < |w.channels|)
    && (forall c :: 0 <= c < |w.channels| ==>
          && Accepted(w.log, c) == w.channels[c].received + w.channels[c].queue + w.channels[c].discarded
          && (w.channels[c].receiverAlive ==> w.channels[c].discarded == [])
          && (!w.channels[c].receiverAlive ==> w.channels[c].queue == [])
          && |w.channels[c].queue| <= CAPACITY)
  }

  lemma {:induction false} UnusedChannelAcceptsNothing(log: seq<(ChannelId, Command)>, channel: ChannelId)
    requires forall i :: 0 <= i < |log| ==> log[i].0 < channel
    ensures Accepted(log, channel) == []
  {
    if log != [] {
      UnusedChannelAcceptsNothing(log[..|log| - 1], channel);
    }
  }

  lemma SendConserves(w: World, agent: AgentId, command: Command)
    requires WellFormed(w) && Conserved(w) && Enabled(w, Send(agent, command))
    ensures Conserved(Next(w, Send(agent, command)))
  {
    var w' := Next(w, Send(agent, command));
    if w'.log != w.log {
      assert w'.log[..|w'.log| - 1] == w.log;
      forall c | 0 <= c < |w'.channels|
        ensures Accepted(w'.log, c) == w'.channels[c].received + w'.channels[c].queue + w'.channels[c].discarded
      {
        assert Accepted(w.log, c) == w.channels[c].received + w.channels[c].queue + w.channels[c].discarded;
      }
    }
  }

  lemma ReceiveConserves(w: World, channel: ChannelId)
    requires WellFormed(w) && Conserved(w) && Enabled(w, Receive(channel))
    ensures Conserved(Next(w, Receive(channel)))
  {
    var c := w.channels[channel];
    assert c.queue == [c.queue[0]] + c.queue[1..];
    assert c.received + c.queue == (c.received + [c.queue[0]]) + c.queue[1..];
  }

  lemma FetchConserves(w: World, agent: AgentId, cluster: Option<ClusterId>, now: Time)
    requires WellFormed(w) && Conserved(w) && Enabled(w, Fetch(agent, cluster, now))
    ensures Conserved(Next(w, Fetch(agent, cluster, now)))
  {
    UnusedChannelAcceptsNothing(w.log, |w.channels|);
  }

  // Closing receivers and dropping senders moves no command between channels.
  lemma DropsConserve(w: World, w': World)
    requires Conserved(w) && w'.log == w.log && |w'.channels| == |w.channels|
    requires forall c :: 0 <= c < |w.channels| ==>
      var before, after := w.channels[c], w'.channels[c];
      && after.received == before.received
      && (after.(senderAlive := before.senderAlive) == before
          || (!after.receiverAlive && after.queue == [] && after.discarded == before.discarded + before.queue))
    ensures Conserved(w')
  {
    forall c | 0 <= c < |w'.channels|
      ensures Accepted(w'.log, c) == w'.channels[c].received + w'.channels[c].queue + w'.channels[c].discarded
    {
      var before := w.channels[c];
      assert before.queue == [] || before.discarded == [];
    }
  }

  lemma InsertConserves(w: World, channel: ChannelId)
    requires WellFormed(w) && Conserved(w) && Enabled(w, Insert(channel))
    ensures Conserved(Install(w, channel))
  {
    DropsConserve(w, Install(w, channel));
  }

  lemma OtherStepConserves(w: World, step: Step)
    requires WellFormed(w) && Conserved(w) && Enabled(w, step)
    requires !step.Fetch? && !step.Send? && !step.Receive? && !step.Insert?
    ensures Conserved(Next(w, step))
  {
    DropsConserve(w, Next(w, step));
  }

  lemma StepConserves(w: World, step: Step)
    requires WellFormed(w) && Conserved(w) && Enabled(w, step)
    ensures Conserved(Next(w, step))
  {
    if step.Fetch? {
      FetchConserves(w, step.agent, step.cluster, step.now);
    } else if step.Send? {
      SendConserves(w, step.agent, step.command);
    } else if step.Receive? {
      ReceiveConserves(w, step.channel);
    } else if step.Insert? {
      InsertConserves(w, step.channel);
    } else {
      OtherStepConserves(w, step);
    }
  }

  // For every channel, what was accepted is what was received, then what is
  // queued, then what a closed receiver discarded: each command in one channel,
  // once, in order.
  lemma {:induction false} CommandsAreConserved(run: seq<World>, steps: seq<Step>, k: nat)
    requires IsRun(run, steps) && k < |run|
    ensures Conserved(run[k])
  {
    if k > 0 {
      CommandsAreConserved(run, steps, k - 1);
      RunsKeepOwned(run, steps, k - 1);
      StepConserves(run[k - 1], steps[k - 1]);
    }
  }

  function Total(channels: seq<Channel>): nat
  {
    if channels == [] then 0
    else
      var c := channels[|channels| - 1];
      Total(channels[..|channels| - 1]) + |c.received| + |c.queue| + |c.discarded|
  }

  function Count(log: seq<(ChannelId, Command)>, channels: nat): nat
  {
    if channels == 0 then 0 else Count(log, channels - 1) + |Accepted(log, channels - 1)|
  }

  lemma {:induction false} TotalIsCount(log: seq<(ChannelId, Command)>, channels: seq<Channel>)
    requires forall c :: 0 <= c < |channels| ==>
      Accepted(log, c) == channels[c].received + channels[c].queue + channels[c].discarded
    ensures Total(channels) == Count(log, |channels|)
  {
    if channels != [] {
      TotalIsCount(log, channels[..|channels| - 1]);
    }
  }

  lemma {:induction false} CountOfPrefix(log: seq<(ChannelId, Command)>, channels: nat)
    requires log != []
    ensures Count(log, channels) == Count(log[..|log| - 1], channels) + if log[|log| - 1].0 < channels then 1 else 0
  {
    if channels > 0 {
      CountOfPrefix(log, channels - 1);
    }
  }

  lemma {:induction false} CountIsLength(log: seq<(ChannelId, Command)>, channels: nat)
    requires forall i :: 0 <= i < |log| ==> log[i].0 < channels
    ensures Count(log, channels) == |log|
  {
    if log == [] {
      CountOfNothing(channels);
    } else {
      CountOfPrefix(log, channels);
      CountIsLength(log[..|log| - 1], channels);
    }
  }

  lemma {:induction false} CountOfNothing(channels: nat)
    ensures Count([], channels) == 0
  {
    if channels > 0 {
      CountOfNothing(channels - 1);
    }
  }

  // accepted == received + queued + discarded, over all channels.
  lemma NoCommandIsLost(run: seq<World>, steps: seq<Step>, k: nat)
    requires IsRun(run, steps) && k < |run|
    ensures |run[k].log| == Total(run[k].channels)
  {
    CommandsAreConserved(run, steps, k);
    TotalIsCount(run[k].log, run[k].channels);
    CountIsLength(run[k].log, |run[k].channels|);
  }
}
