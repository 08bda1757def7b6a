// The agent registry as a protocol of atomic steps. A registration takes its
// generation and clock reading before it locks its map entry, so these are two
// steps with anything in between; so are the lookup and the delivery of a command
// that is addressed to a cluster.
module RegistryProtocol {
  import opened Wrappers

  type AgentId = nat
  type ClusterId = nat
  type ChannelId = nat
  type Command = nat
  type Time = int  // nanoseconds

  const GENERATIONS: nat := 0x1_0000_0000_0000_0000  // AtomicU64
  const CAPACITY: nat := 64
  const TIMEOUT: Time := 3 * 30_000_000_000  // three heartbeat intervals

  datatype Connection = Connection(
    generation: nat,
    cluster: Option<ClusterId>,
    channel: ChannelId,
    health: Option<nat>,
    lastHeartbeat: Time)

  // A bounded command channel and what became of its commands.
  datatype Channel = Channel(
    queue: seq<Command>,
    senderAlive: bool,
    receiverAlive: bool,
    received: seq<Command>,
    discarded: seq<Command>)

  // A registration between its fetch_add and its map operation.
  datatype Pending = Pending(agent: AgentId, connection: Connection)

  // A cluster-addressed command between the lookup and the delivery.
  datatype Routed = Routed(cluster: ClusterId, agent: AgentId)

  datatype World = World(
    agents: map<AgentId, Connection>,
    nextGeneration: nat,
    channels: seq<Channel>,
    pending: map<ChannelId, Pending>,
    routed: seq<Routed>,
    log: seq<(ChannelId, Command)>)  // accepted commands, in order of acceptance

  datatype Step =
    | Fetch(agent: AgentId, cluster: Option<ClusterId>, now: Time)
    | Insert(channel: ChannelId)
    | Unregister(agent: AgentId)
    | UnregisterIf(agent: AgentId, generation: nat)
    | Heartbeat(agent: AgentId, now: Time)
    | UpdateHealth(agent: AgentId, cluster: Option<ClusterId>, health: nat, now: Time)
    | Send(agent: AgentId, command: Command)
    | Lookup(target: ClusterId, agent: AgentId)
    | Receive(channel: ChannelId)
    | CloseReceiver(channel: ChannelId)
    | Visit(agent: AgentId, now: Time)  // eviction looks at one entry

  // ---- The atomic operations -------------------------------------------------------

  function DropSender(channels: seq<Channel>, channel: ChannelId): seq<Channel>
    requires channel < |channels|
  {
    channels[channel := channels[channel].(senderAlive := false)]
  }

  function DropReceiver(channels: seq<Channel>, channel: ChannelId): seq<Channel>
    requires channel < |channels|
  {
    var c := channels[channel];
    channels[channel := c.(receiverAlive := false, queue := [], discarded := c.discarded + c.queue)]
  }

  function Remove(w: World, agent: AgentId): World
    requires agent in w.agents && w.agents[agent].channel < |w.channels|
  {
    w.(agents := w.agents - {agent}, channels := DropSender(w.channels, w.agents[agent].channel))
  }

  // `register_with_cluster` refuses an entry that is not bound to its cluster;
  // `register` replaces whatever is there.
  predicate Refused(w: World, p: Pending)
  {
    p.connection.cluster.Some? && p.agent in w.agents && w.agents[p.agent].cluster != p.connection.cluster
  }

  function Install(w: World, channel: ChannelId): World
    requires channel in w.pending && channel < |w.channels|
    requires forall agent :: agent in w.agents ==> w.agents[agent].channel < |w.channels|
  {
    var p := w.pending[channel];
    var w' := w.(pending := w.pending - {channel});
    if Refused(w, p) then
      w'.(channels := DropReceiver(DropSender(w.channels, channel), channel))
    else
      w'.(agents := w.agents[p.agent := p.connection],
          channels := if p.agent in w.agents then DropSender(w.channels, w.agents[p.agent].channel) else w.channels)
  }

  const DURATION_MAX: nat := 0x1_0000_0000_0000_0000 * 1_000_000_000 - 1

  // `signed_duration_since(..).to_std().unwrap_or(Duration::MAX)`: a clock that went
  // back gives a negative duration.
  function Elapsed(lastHeartbeat: Time, now: Time): nat
  {
    if now < lastHeartbeat then DURATION_MAX else now - lastHeartbeat
  }

  predicate Expired(lastHeartbeat: Time, now: Time)
  {
    Elapsed(lastHeartbeat, now) >= TIMEOUT
  }

  predicate WellFormed(w: World)
  {
    && (forall agent :: agent in w.agents ==> w.agents[agent].channel < |w.channels|)
    && (forall channel :: channel in w.pending ==> channel < |w.channels| && w.pending[channel].connection.channel == channel)
    && w.nextGeneration < GENERATIONS
  }

  predicate Enabled(w: World, step: Step)
  {
    && WellFormed(w)
    && match step
       case Insert(channel) => channel in w.pending
       // a full channel makes the sender wait, holding the entry
       case Send(agent, _) =>
         agent in w.agents ==>
           var c := w.channels[w.agents[agent].channel];
           !c.receiverAlive || |c.queue| < CAPACITY
       case Lookup(target, agent) => agent in w.agents && w.agents[agent].cluster == Some(target)
       case Receive(channel) =>
         channel < |w.channels| && w.channels[channel].receiverAlive && w.channels[channel].queue != []
       case CloseReceiver(channel) => channel < |w.channels|
       case _ => true
  }

  function Next(w: World, step: Step): World
    requires Enabled(w, step)
  {
    match step
    case Fetch(agent, cluster, now) =>
      var channel := |w.channels|;
      w.(nextGeneration := (w.nextGeneration + 1) % GENERATIONS,
         channels := w.channels + [Channel([], true, true, [], [])],
         pending := w.pending[channel := Pending(agent, Connection(w.nextGeneration, cluster, channel, None, now))])
    case Insert(channel) => Install(w, channel)
    case Unregister(agent) => if agent in w.agents then Remove(w, agent) else w
    case UnregisterIf(agent, generation) =>
      if agent in w.agents && w.agents[agent].generation == generation then Remove(w, agent) else w
    case Heartbeat(agent, now) =>
      if agent in w.agents then w.(agents := w.agents[agent := w.agents[agent].(lastHeartbeat := now)]) else w
    case UpdateHealth(agent, cluster, health, now) =>
      if agent in w.agents && (cluster.Some? ==> w.agents[agent].cluster == cluster)
      then w.(agents := w.agents[agent := w.agents[agent].(health := Some(health), lastHeartbeat := now)])
      else w
    case Send(agent, command) =>
      if agent in w.agents && w.channels[w.agents[agent].channel].receiverAlive then
        var channel := w.agents[agent].channel;
        var c := w.channels[channel];
        w.(channels := w.channels[channel := c.(queue := c.queue + [command])],
           log := w.log + [(channel, command)])
      else w
    case Lookup(target, agent) => w.(routed := w.routed + [Routed(target, agent)])
    case Receive(channel) =>
      var c := w.channels[channel];
      w.(channels := w.channels[channel := c.(queue := c.queue[1..], received := c.received + [c.queue[0]])])
    case CloseReceiver(channel) => w.(channels := DropReceiver(w.channels, channel))
    case Visit(agent, now) =>
      if agent in w.agents && Expired(w.agents[agent].lastHeartbeat, now) then Remove(w, agent) else w
  }

  predicate Init(w: World)
  {
    w == World(map[], 0, [], map[], [], [])
  }

  ghost predicate IsRun(run: seq<World>, steps: seq<Step>)
  {
    && |run| == |steps| + 1 && Init(run[0])
    && forall i :: 0 <= i < |steps| ==> Enabled(run[i], steps[i]) && Next(run[i], steps[i]) == run[i + 1]
  }

  // Registrations started so far. The counter has not wrapped below GENERATIONS.
  function Registrations(steps: seq<Step>): nat
  {
    if steps == [] then 0
    else Registrations(steps[..|steps| - 1]) + if steps[|steps| - 1].Fetch? then 1 else 0
  }
}
