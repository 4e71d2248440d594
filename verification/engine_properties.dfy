/** Properties that relate several engine transitions: the state invariant
    every input preserves, the send/receive round trips, idempotence of the
    simulated-peer population, and three simulation-mode scenarios: a public
    send, a direct message, and a reply delivered after switching to real
    mode. */
module EngineProperties {
  import opened Text
  import opened Codec
  import opened Registry
  import opened Telemetry
  import opened Engine

  /** The three simulation ids belong to simulated records only. */
  predicate SimIdsReserved(peers: seq<Peer>) {
    forall p :: p in peers && p.id in SimIds ==> p.isSimulated
  }

  /** Outside simulation mode there is no simulated peer and no telemetry
      loop. (Inside it, real peers may remain.) */
  predicate ModeExclusive(st: AppState) {
    !st.simulationMode ==> NoSimulated(st.peers) && !st.simJobActive
  }

  /** The state invariant: one record per endpoint id, the simulation ids
      reserved, every station stocked within its capacity, and real mode
      free of simulation. */
  predicate Valid(st: AppState) {
    && UniqueIds(st.peers)
    && SimIdsReserved(st.peers)
    && AllStocked(st.stations)
    && ModeExclusive(st)
  }

  /** Everything that can happen to the activity, in one ordered stream. */
  datatype Input =
    | UserSendPublic(text: string, d: Draws)
    | UserSendDm(peerId: string, text: string, d: Draws)
    | UserToggleMode(sim: bool, firstId: string, secondId: string)
    | UserStartReal(hasPermissions: bool, firstId: string, secondId: string)
    | UserStopReal(noticeId: string)
    | UserSetProximity(proximity: real)
    | Transport(ev: TransportEvent, noticeId: string)
    | ReplyDue(reply: PendingReply, choice: nat)
    | TelemetryDue(deltas: seq<int>)

  /** A tick needs one draw per station and, like `coerceIn`, a non-negative
      capacity wherever it clamps. The real network is started only outside
      simulation mode: its button is shown only then, and the permission
      callback checks the mode before starting it. */
  predicate Admissible(st: AppState, input: Input) {
    && (input.TelemetryDue? ==> |input.deltas| == |st.stations| && ClampableAt(st.stations, st.proximity))
    && (input.UserStartReal? ==> !st.simulationMode)
  }

  /** The state after one input; sends and scheduled replies are dropped. */
  function Apply(st: AppState, input: Input): (r: AppState)
    requires Admissible(st, input)
    ensures r.stations == st.stations || input.TelemetryDue?
    ensures r.peers == st.peers || input.UserToggleMode? || input.Transport?
  {
    match input
    case UserSendPublic(text, d) => SendPublic(st, text, d).state
    case UserSendDm(peerId, text, d) => SendDm(st, peerId, text, d).state
    case UserToggleMode(sim, a, b) => ToggleMode(st, sim, a, b)
    case UserStartReal(ok, a, b) => StartAutoNetwork(st, ok, a, b)
    case UserStopReal(n) => StopRealNetwork(st, n)
    case UserSetProximity(p) => SetProximity(st, p)
    case Transport(ev, n) => OnTransportEvent(st, ev, n)
    case ReplyDue(reply, choice) => DeliverReply(st, reply, choice)
    case TelemetryDue(deltas) => TelemetryTick(st, deltas)
  }

  /** Appending the simulated peers to a registry that holds none of their
      ids keeps ids unique and reserved. */
  lemma AddSimPeersValid(peers: seq<Peer>)
    requires UniqueIds(peers)
    requires forall p :: p in peers ==> p.id !in SimIds
    ensures UniqueIds(peers + SimPeers)
    ensures SimIdsReserved(peers + SimPeers)
  {
    var r := peers + SimPeers;
    forall i, j | 0 <= i < j < |r| ensures r[i].id != r[j].id {
      if j >= |peers| && i < |peers| {
        assert r[i] in peers;
        assert r[j].id in SimIds;
      }
    }
  }

  /** A transport event about a non-simulation id leaves the simulation ids'
      records alone. */
  lemma TransportKeepsReserved(before: seq<Peer>, after: seq<Peer>, id: string)
    requires UniqueIds(after)
    requires SimIdsReserved(before)
    requires id !in SimIds
    requires OthersUnchanged(before, after, id)
    ensures SimIdsReserved(after)
  {
    forall p | p in after && p.id in SimIds ensures p.isSimulated {
      var j :| 0 <= j < |after| && after[j] == p;
      assert Find(after, p.id) == Some(p);
      assert Find(before, p.id) == Some(p);
    }
  }

  /** The invariant holds after every input, given that the transport never
      reports one of the three simulation ids as a real endpoint. */
  lemma ApplyPreservesValid(st: AppState, input: Input)
    requires Valid(st)
    requires Admissible(st, input)
    requires input.Transport? ==> input.ev.id !in SimIds
    ensures Valid(Apply(st, input))
  {
    match input
    case UserToggleMode(sim, a, b) =>
      if sim {
        var stopped := StopRealNetwork(st.(simulationMode := sim), a);
        if NoSimulated(stopped.peers) {
          AddSimPeersValid(stopped.peers);
        }
      }
    case Transport(ev, n) =>
      var r := OnTransportEvent(st, ev, n);
      TransportKeepsReserved(st.peers, r.peers, ev.id);
    case _ =>
  }

  /** The start-up state satisfies the invariant. */
  lemma InitialStateValid(noticeId: string)
    ensures Valid(InitialState(noticeId))
  {
    AddSimPeersValid([]);
    assert [] + SimPeers == SimPeers;
  }

  /** The bytes a real-mode public send puts on the wire become, at any
      receiver, one public message with the sender's id and trimmed text,
      credited to the name the receiver knows the sending endpoint by. */
  lemma PublicSendReachesReceiver(sender: AppState, text: string, d: Draws, receiver: AppState, fromEndpoint: string)
    requires Delimiter !in d.msgId
    requires Trim(text) != [] && !sender.simulationMode && ConnectedRealIds(sender.peers) != []
    ensures var bytes := SendPublic(sender, text, d).send.value.bytes;
      var r := ReceivePayload(receiver, fromEndpoint, BytesPayload(bytes));
      && r.publicMessages == receiver.publicMessages + [Remote(d.msgId, PeerName(receiver.peers, fromEndpoint), Trim(text))]
      && r.dmMessages == receiver.dmMessages
  {
  }

  /** A real-mode direct send reaches the receiver's thread for the SENDING
      endpoint, whatever target it names, and nowhere else. */
  lemma DmSendReachesReceiver(sender: AppState, peerId: string, text: string, d: Draws, receiver: AppState, fromEndpoint: string)
    requires Delimiter !in peerId && Delimiter !in d.msgId
    requires Trim(text) != [] && !sender.simulationMode
    requires HasId(sender.peers, peerId) && Find(sender.peers, peerId).value.connected
    ensures var bytes := SendDm(sender, peerId, text, d).send.value.bytes;
      var r := ReceivePayload(receiver, fromEndpoint, BytesPayload(bytes));
      && r.dmMessages == AppendDm(receiver.dmMessages, fromEndpoint, Remote(d.msgId, PeerName(receiver.peers, fromEndpoint), Trim(text)))
      && r.publicMessages == receiver.publicMessages
  {
  }

  /** Starting the simulation twice adds the simulated peers and the notice
      once: the second call only restarts the telemetry loop. */
  lemma StartSimulationIdempotent(st: AppState, firstId: string, secondId: string)
    ensures StartSimulation(StartSimulation(st, firstId), secondId) == StartSimulation(st, firstId)
  {
  }

  /** Switching to simulation while already in it is not a no-op: the peers
      stay as they are, but another "real network stopped" notice is posted. */
  lemma ToggleToSimulationAgain(st: AppState, a: string, b: string, c: string, e: string)
    ensures var once := ToggleMode(st, true, a, b);
      var twice := ToggleMode(once, true, c, e);
      && twice.peers == once.peers
      && twice.publicMessages == once.publicMessages + [SystemMsg(c, RealStoppedNotice)]
  {
  }

  /** With exactly the three simulated peers present, a scheduled public
      reply comes from Laura, Nico or Sara. */
  lemma SimulatedReplyFrom(st: AppState, text: string, d: Draws)
    requires Trim(text) != [] && st.simulationMode
    requires SimulatedPeers(st.peers) == SimPeers
    ensures SendPublic(st, text, d).reply.Some?
    ensures SendPublic(st, text, d).reply.value.from in {"Laura", "Nico", "Sara"}
  {
    assert SimPeers[0] in SimulatedPeers(st.peers);
    var from := SendPublic(st, text, d).reply.value.from;
    var p :| p in st.peers && p.isSimulated && p.name == from;
    assert p in SimPeers;
  }

  /** Public send in simulation mode with the three simulated peers: the
      echo appears at once, and the delivered reply is one more message from
      Laura, Nico or Sara. */
  lemma SimulatedPublicScenario(st: AppState, d: Draws, choice: nat)
    requires st.simulationMode
    requires SimulatedPeers(st.peers) == SimPeers
    ensures var o := SendPublic(st, "hello", d);
      && o.state.publicMessages == st.publicMessages + [Mine(d.msgId, "hello")]
      && o.send.None?
      && o.reply.Some?
      && var after := DeliverReply(o.state, o.reply.value, choice);
         && |after.publicMessages| == |st.publicMessages| + 2
         && after.publicMessages[..|st.publicMessages| + 1] == o.state.publicMessages
         && after.publicMessages[|st.publicMessages| + 1].from in {"Laura", "Nico", "Sara"}
         && after.dmMessages == st.dmMessages
  {
    TrimKeeps("hello");
    assert SimPeers[0] in SimulatedPeers(st.peers);
    var o := SendPublic(st, "hello", d);
    assert o.state.publicMessages == st.publicMessages + [Mine(d.msgId, "hello")];
    assert o.reply.Some?;
    SimulatedReplyFrom(st, "hello", d);
  }

  /** Two messages appended to one thread in turn. */
  lemma AppendDmTwice(dm: map<string, seq<ChatMessage>>, peerId: string, first: ChatMessage, second: ChatMessage)
    ensures AppendDm(AppendDm(dm, peerId, first), peerId, second) == dm[peerId := Thread(dm, peerId) + [first, second]]
  {
    assert Thread(dm, peerId) + [first] + [second] == Thread(dm, peerId) + [first, second];
  }

  /** Direct message to SIM-A in simulation mode: the echo and, once
      delivered, one reply credited to Laura land in SIM-A's thread only. */
  lemma SimulatedDmScenario(st: AppState, d: Draws, choice: nat)
    requires st.simulationMode
    requires UniqueIds(st.peers)
    requires SimPeers[0] in st.peers
    ensures var o := SendDm(st, "SIM-A", "hi", d);
      && o.send.None?
      && o.reply == Some(DmReply("SIM-A", d.replyId, "Laura"))
      && var after := DeliverReply(o.state, o.reply.value, choice);
         && after.publicMessages == st.publicMessages
         && after.dmMessages == st.dmMessages["SIM-A" := Thread(st.dmMessages, "SIM-A")
              + [Mine(d.msgId, "hi"), Remote(d.replyId, "Laura", DmReplies[choice % |DmReplies|])]]
  {
    TrimKeeps("hi");
    var j :| 0 <= j < |st.peers| && st.peers[j] == SimPeers[0];
    assert Find(st.peers, "SIM-A") == Some(SimPeers[0]);
    AppendDmTwice(st.dmMessages, "SIM-A", Mine(d.msgId, "hi"), Remote(d.replyId, "Laura", DmReplies[choice % |DmReplies|]));
  }

  /** A simulated reply scheduled before a switch to real mode is still
      delivered after it: nothing ties the reply to the mode it was
      scheduled in. */
  lemma ReplyDeliveredAfterSwitchToReal(st: AppState, text: string, d: Draws, firstId: string, secondId: string, choice: nat)
    requires Trim(text) != [] && st.simulationMode && !NoSimulated(st.peers)
    ensures var o := SendPublic(st, text, d);
      var inReal := ToggleMode(o.state, false, firstId, secondId);
      var after := DeliverReply(inReal, o.reply.value, choice);
      && !after.simulationMode
      && NoSimulated(after.peers)
      && |after.publicMessages| == |inReal.publicMessages| + 1
      && after.publicMessages[|inReal.publicMessages|].from == o.reply.value.from
  {
  }
}
