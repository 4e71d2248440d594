/** The chat coordination logic of the activity as pure transitions over one
    state record: the two sends, routing of incoming payloads, the transport
    lifecycle callbacks, the simulated peers, the delayed simulated replies
    and the telemetry tick. Random ids and choices arrive as parameters; a
    delayed reply is a value a send returns and a later event delivers. */
module Engine {
  import opened Text
  import opened Codec
  import opened Registry
  import opened Telemetry

  datatype ChatMessage = ChatMessage(id: string, from: string, text: string, mine: bool, isSystem: bool)

  /** Sender shown on the user's own messages. */
  const SelfName: string := "Yo"
  /** Sender shown on system notices. */
  const SystemName: string := "Sistema"

  const NoPeersNotice: string := "\U{26A0}\U{FE0F} No hay peers conectados"
  const PeerNotConnectedNotice: string := "\U{26A0}\U{FE0F} Peer no conectado"
  const SimulationOnNotice: string := "\U{1F9EA} Simulation ON"
  const SimulationOffNotice: string := "\U{1F9EA} Simulation OFF"
  const RealStoppedNotice: string := "\U{23F9}\U{FE0F} Real network stopped"
  const MissingPermissionsNotice: string := "\U{26A0}\U{FE0F} Falta permisos. Dale al bot\U{F3}n de permisos."
  const AutoNetworkNotice: string := "\U{1F7E2} Auto-network: advertising + discovery"
  const ConnectedPrefix: string := "\U{2705} Connected: "
  const ConnFailedPrefix: string := "\U{274C} Conn failed: "
  const DisconnectedPrefix: string := "\U{1F50C} Disconnected: "

  /** Canned texts of the simulated replies. */
  const PublicReplies: seq<string> := ["ok!", "jajaja", "probando \U{1F604}", "hola!", "nice"]
  const DmReplies: seq<string> := ["dale", "te leo", "ok", "funciona"]

  /** The three peers the simulation populates. */
  const SimPeers: seq<Peer> := [
    Peer("SIM-A", "Laura", true, true),
    Peer("SIM-B", "Nico", true, true),
    Peer("SIM-C", "Sara", true, true)
  ]
  const SimIds: set<string> := {"SIM-A", "SIM-B", "SIM-C"}

  function Mine(id: string, text: string): ChatMessage {
    ChatMessage(id, SelfName, text, true, false)
  }

  function Remote(id: string, from: string, text: string): ChatMessage {
    ChatMessage(id, from, text, false, false)
  }

  function SystemMsg(id: string, text: string): ChatMessage {
    ChatMessage(id, SystemName, text, false, true)
  }

  /** Everything the activity keeps between events. `simJobActive` says
      whether the telemetry loop is still scheduled. */
  datatype AppState = AppState(
    peers: seq<Peer>,
    publicMessages: seq<ChatMessage>,
    dmMessages: map<string, seq<ChatMessage>>,
    stations: seq<BikeStation>,
    simulationMode: bool,
    runningRealNetwork: bool,
    proximity: real,
    simJobActive: bool)

  /** The random values a send draws: its message id (a UUID prefix), the id
      of a possible notice, the id of a simulated reply and which simulated
      peer answers a public message. */
  datatype Draws = Draws(msgId: string, noticeId: string, replyId: string, pick: nat)

  /** A `sendPayload(ids, bytes)` call. */
  datatype Transmission = Transmission(to: seq<string>, bytes: string)

  /** A simulated reply a send schedules; the reply text is drawn when it is
      delivered. */
  datatype PendingReply =
    | PublicReply(id: string, from: string)
    | DmReply(peerId: string, id: string, from: string)

  datatype Outcome = Outcome(state: AppState, send: Option<Transmission>, reply: Option<PendingReply>)

  /** `addSystemMsg`: system notices always go to the public list, as one
      more message from the system sender that is not the user's own. */
  function AddSystemMsg(st: AppState, id: string, text: string): (r: AppState)
    ensures r.(publicMessages := st.publicMessages) == st
    ensures |r.publicMessages| == |st.publicMessages| + 1
    ensures r.publicMessages[..|st.publicMessages|] == st.publicMessages
    ensures var m := r.publicMessages[|st.publicMessages|];
      m.id == id && m.text == text && m.from == SystemName && m.isSystem && !m.mine
  {
    assert (st.publicMessages + [SystemMsg(id, text)])[..|st.publicMessages|] == st.publicMessages;
    st.(publicMessages := st.publicMessages + [SystemMsg(id, text)])
  }

  /** A peer's direct thread, empty when it has none yet. */
  function Thread(dm: map<string, seq<ChatMessage>>, peerId: string): seq<ChatMessage> {
    if peerId in dm then dm[peerId] else []
  }

  /** `dmMessages.getOrPut(peerId) { mutableListOf() }.add(msg)`. */
  function AppendDm(dm: map<string, seq<ChatMessage>>, peerId: string, msg: ChatMessage): (r: map<string, seq<ChatMessage>>)
    ensures r.Keys == dm.Keys + {peerId}
    ensures r[peerId] == Thread(dm, peerId) + [msg]
    ensures forall k :: k in dm && k != peerId ==> r[k] == dm[k]
  {
    dm[peerId := Thread(dm, peerId) + [msg]]
  }

  /** `sendPublic`: echo the trimmed text locally, then either schedule a
      simulated reply, post a notice when no real peer is connected, or send
      the encoded message to every connected real peer. */
  function SendPublic(st: AppState, text: string, d: Draws): (r: Outcome)
    ensures r.state.(publicMessages := st.publicMessages) == st
    ensures Trim(text) == [] ==> r == Outcome(st, None, None)
    ensures Trim(text) != [] ==>
      r.state.publicMessages == st.publicMessages + [Mine(d.msgId, Trim(text))]
        + (if !st.simulationMode && ConnectedRealIds(st.peers) == [] then [SystemMsg(d.noticeId, NoPeersNotice)] else [])
    ensures r.send.Some? <==> Trim(text) != [] && !st.simulationMode && ConnectedRealIds(st.peers) != []
    ensures r.send.Some? ==>
      && (forall x :: x in r.send.value.to <==> exists p :: p in st.peers && p.id == x && p.connected && !p.isSimulated)
      && (Delimiter !in d.msgId ==> Decode(r.send.value.bytes) == Some(Wire(KindChat, ScopePublic, Wildcard, d.msgId, Trim(text))))
    ensures r.reply.Some? <==> Trim(text) != [] && st.simulationMode && !NoSimulated(st.peers)
    ensures r.reply.Some? ==>
      && r.reply.value.PublicReply?
      && r.reply.value.id == d.replyId
      && exists p :: p in st.peers && p.isSimulated && p.name == r.reply.value.from
  {
    var t := Trim(text);
    if t == [] then Outcome(st, None, None)
    else
      var echoed := st.(publicMessages := st.publicMessages + [Mine(d.msgId, t)]);
      if st.simulationMode then
        var sims := SimulatedPeers(st.peers);
        if sims == [] then
          assert NoSimulated(st.peers);
          Outcome(echoed, None, None)
        else
          var p := sims[d.pick % |sims|];
          assert p in sims;
          Outcome(echoed, None, Some(PublicReply(d.replyId, p.name)))
      else
        var ids := ConnectedRealIds(st.peers);
        if ids == [] then Outcome(AddSystemMsg(echoed, d.noticeId, NoPeersNotice), None, None)
        else
          var w := Wire(KindChat, ScopePublic, Wildcard, d.msgId, t);
          assert Delimiter !in d.msgId ==> Decode(Encode(w)) == Some(w) by {
            if Delimiter !in d.msgId { DecodeEncode(w); }
          }
          Outcome(echoed, Some(Transmission(ids, Encode(w))), None)
  }

  /** `sendDm`: nothing happens for blank text or an unknown peer; otherwise
      the trimmed text is echoed into that peer's thread, then a simulated
      reply is scheduled, a notice is posted when the peer is not connected,
      or the encoded message is sent to that peer alone. */
  function SendDm(st: AppState, peerId: string, text: string, d: Draws): (r: Outcome)
    ensures r.state.(publicMessages := st.publicMessages, dmMessages := st.dmMessages) == st
    ensures Trim(text) == [] || !HasId(st.peers, peerId) ==> r == Outcome(st, None, None)
    ensures Trim(text) != [] && HasId(st.peers, peerId) ==>
      && r.state.dmMessages == AppendDm(st.dmMessages, peerId, Mine(d.msgId, Trim(text)))
      && r.state.publicMessages == st.publicMessages
           + (if !st.simulationMode && !Find(st.peers, peerId).value.connected
              then [SystemMsg(d.noticeId, PeerNotConnectedNotice)] else [])
    ensures r.send.Some? <==>
      Trim(text) != [] && HasId(st.peers, peerId) && !st.simulationMode && Find(st.peers, peerId).value.connected
    ensures r.send.Some? ==>
      && r.send.value.to == [peerId]
      && (Delimiter !in peerId && Delimiter !in d.msgId ==>
            Decode(r.send.value.bytes) == Some(Wire(KindChat, ScopeDm, peerId, d.msgId, Trim(text))))
    ensures r.reply.Some? <==> Trim(text) != [] && HasId(st.peers, peerId) && st.simulationMode
    ensures r.reply.Some? ==> r.reply.value == DmReply(peerId, d.replyId, Find(st.peers, peerId).value.name)
  {
    var t := Trim(text);
    if t == [] then Outcome(st, None, None)
    else
      match Find(st.peers, peerId)
      case None => Outcome(st, None, None)
      case Some(peer) =>
        var echoed := st.(dmMessages := AppendDm(st.dmMessages, peerId, Mine(d.msgId, t)));
        if st.simulationMode then Outcome(echoed, None, Some(DmReply(peerId, d.replyId, peer.name)))
        else if !peer.connected then Outcome(AddSystemMsg(echoed, d.noticeId, PeerNotConnectedNotice), None, None)
        else
          var w := Wire(KindChat, ScopeDm, peerId, d.msgId, t);
          assert Delimiter !in peerId && Delimiter !in d.msgId ==> Decode(Encode(w)) == Some(w) by {
            if Delimiter !in peerId && Delimiter !in d.msgId { DecodeEncode(w); }
          }
          Outcome(echoed, Some(Transmission([peerId], Encode(w))), None)
  }

  /** What arrives in `onPayloadReceived`: only byte payloads are read. */
  datatype Payload = BytesPayload(text: string) | OtherPayload

  /** The message a routed payload becomes: credited to the registry name of
      the sending endpoint, never marked as the user's own. */
  function Received(peers: seq<Peer>, endpointId: string, w: Wire): ChatMessage {
    Remote(w.id, PeerName(peers, endpointId), w.body)
  }

  /** The body of `onPayloadReceived`: decode, then file CHAT/PUBLIC in the
      public list and CHAT/DM in the thread of the sending endpoint. */
  function ReceivePayload(st: AppState, endpointId: string, payload: Payload): (r: AppState)
    ensures r.(publicMessages := st.publicMessages, dmMessages := st.dmMessages) == st
    ensures payload.OtherPayload? || Count(payload.text, Delimiter) < FieldCount - 1 ==> r == st
    ensures payload.BytesPayload? && Decode(payload.text).Some? ==>
      var w := Decode(payload.text).value;
      && (w.kind == KindChat && w.scope == ScopePublic ==>
            r.publicMessages == st.publicMessages + [Received(st.peers, endpointId, w)] && r.dmMessages == st.dmMessages)
      && (w.kind == KindChat && w.scope == ScopeDm ==>
            r.dmMessages == AppendDm(st.dmMessages, endpointId, Received(st.peers, endpointId, w))
            && r.publicMessages == st.publicMessages)
      && (w.kind != KindChat || (w.scope != ScopePublic && w.scope != ScopeDm) ==> r == st)
  {
    match payload
    case OtherPayload => st
    case BytesPayload(raw) =>
      match Decode(raw)
      case None => st
      case Some(w) =>
        var msg := Received(st.peers, endpointId, w);
        if w.kind == KindChat && w.scope == ScopePublic then
          st.(publicMessages := st.publicMessages + [msg])
        else if w.kind == KindChat && w.scope == ScopeDm then
          st.(dmMessages := AppendDm(st.dmMessages, endpointId, msg))
        else st
  }

  /** Callbacks of the connection transport. */
  datatype TransportEvent =
    | EndpointFound(id: string, name: string)
    | EndpointLost(id: string)
    | ConnectionInitiated(id: string, name: string)
    | ConnectionResult(id: string, success: bool, status: string)
    | Disconnected(id: string)
    | PayloadReceived(id: string, payload: Payload)

  /** Every id other than `id` resolves in `after` as it did in `before`. */
  ghost predicate OthersUnchanged(before: seq<Peer>, after: seq<Peer>, id: string) {
    forall x :: x != id ==> Find(after, x) == Find(before, x)
  }

  /** `onEndpointFound` and `onConnectionInitiated`: record the endpoint as
      a real peer that is not connected yet. */
  function OnDiscovered(st: AppState, id: string, name: string): (r: AppState)
    ensures r == st.(peers := r.peers)
    ensures Find(r.peers, id) == Some(Peer(id, name, false, false))
    ensures OthersUnchanged(st.peers, r.peers, id)
    ensures SimulatedFrom(st.peers, r.peers)
    ensures NoSimulated(st.peers) ==> NoSimulated(r.peers)
    ensures UniqueIds(st.peers) ==> UniqueIds(r.peers)
  {
    var peers := Upsert(st.peers, id, name, false, false);
    assert OthersUnchanged(st.peers, peers, id) by {
      forall x | x != id { FindAfterUpsert(st.peers, id, name, false, false, x); }
    }
    FindAfterUpsert(st.peers, id, name, false, false, id);
    st.(peers := peers)
  }

  /** `onConnectionResult`: on success the peer is upserted as a connected
      real peer under its current display name and a notice names it; on
      failure only the status is reported. */
  function OnConnectionResult(st: AppState, id: string, success: bool, status: string, noticeId: string): (r: AppState)
    ensures r == st.(peers := r.peers, publicMessages := r.publicMessages)
    ensures success ==>
      && Find(r.peers, id) == Some(Peer(id, PeerName(st.peers, id), true, false))
      && r.publicMessages == st.publicMessages + [SystemMsg(noticeId, ConnectedPrefix + PeerName(st.peers, id))]
    ensures !success ==>
      r.peers == st.peers && r.publicMessages == st.publicMessages + [SystemMsg(noticeId, ConnFailedPrefix + status)]
    ensures OthersUnchanged(st.peers, r.peers, id)
    ensures SimulatedFrom(st.peers, r.peers)
    ensures NoSimulated(st.peers) ==> NoSimulated(r.peers)
    ensures UniqueIds(st.peers) ==> UniqueIds(r.peers)
  {
    if success then
      var name := PeerName(st.peers, id);
      var peers := Upsert(st.peers, id, name, true, false);
      assert OthersUnchanged(st.peers, peers, id) by {
        forall x | x != id { FindAfterUpsert(st.peers, id, name, true, false, x); }
      }
      FindAfterUpsert(st.peers, id, name, true, false, id);
      AddSystemMsg(st.(peers := peers), noticeId, ConnectedPrefix + name)
    else AddSystemMsg(st, noticeId, ConnFailedPrefix + status)
  }

  /** `onEndpointLost`: clear the connection flag only. */
  function OnEndpointLost(st: AppState, id: string): (r: AppState)
    ensures r == st.(peers := MarkDisconnected(st.peers, id))
    ensures OthersUnchanged(st.peers, r.peers, id)
    ensures SimulatedFrom(st.peers, r.peers)
    ensures NoSimulated(st.peers) ==> NoSimulated(r.peers)
    ensures HasId(st.peers, id) ==> Find(r.peers, id) == Some(Find(st.peers, id).value.(connected := false))
    ensures !HasId(st.peers, id) ==> r == st
  {
    var peers := MarkDisconnected(st.peers, id);
    assert OthersUnchanged(st.peers, peers, id) by {
      forall x | x != id { FindAfterMarkDisconnected(st.peers, id, x); }
    }
    FindAfterMarkDisconnected(st.peers, id, id);
    st.(peers := peers)
  }

  /** `onDisconnected`: clear the connection flag and post a notice naming
      the peer; the record and its name survive. */
  function OnDisconnected(st: AppState, id: string, noticeId: string): (r: AppState)
    ensures r.peers == MarkDisconnected(st.peers, id)
    ensures r == st.(peers := r.peers, publicMessages := r.publicMessages)
    ensures r.publicMessages == st.publicMessages + [SystemMsg(noticeId, DisconnectedPrefix + PeerName(st.peers, id))]
    ensures OthersUnchanged(st.peers, r.peers, id)
    ensures SimulatedFrom(st.peers, r.peers)
    ensures NoSimulated(st.peers) ==> NoSimulated(r.peers)
  {
    var lost := OnEndpointLost(st, id);
    // The name is read after the flag is cleared; clearing keeps names.
    FindAfterMarkDisconnected(st.peers, id, id);
    assert PeerName(lost.peers, id) == PeerName(st.peers, id);
    AddSystemMsg(lost, noticeId, DisconnectedPrefix + PeerName(lost.peers, id))
  }

  /** One dispatcher for all transport callbacks. The calls the handlers make
      back into the transport are not modelled. */
  function OnTransportEvent(st: AppState, ev: TransportEvent, noticeId: string): (r: AppState)
    ensures r.(peers := st.peers, publicMessages := st.publicMessages, dmMessages := st.dmMessages) == st
    ensures !ev.PayloadReceived? ==> r.dmMessages == st.dmMessages
    ensures ev.PayloadReceived? ==> r.peers == st.peers
    ensures OthersUnchanged(st.peers, r.peers, ev.id)
    ensures SimulatedFrom(st.peers, r.peers)
    ensures NoSimulated(st.peers) ==> NoSimulated(r.peers)
    ensures UniqueIds(st.peers) ==> UniqueIds(r.peers)
  {
    match ev
    case EndpointFound(id, name) => OnDiscovered(st, id, name)
    case ConnectionInitiated(id, name) => OnDiscovered(st, id, name)
    case ConnectionResult(id, success, status) => OnConnectionResult(st, id, success, status, noticeId)
    case Disconnected(id) => OnDisconnected(st, id, noticeId)
    case EndpointLost(id) => OnEndpointLost(st, id)
    case PayloadReceived(id, payload) => ReceivePayload(st, id, payload)
  }

  /** `startSimulation`: in simulation mode, add the three simulated peers
      unless some simulated peer is already present, and (re)start the
      telemetry loop. */
  function StartSimulation(st: AppState, noticeId: string): (r: AppState)
    ensures !st.simulationMode ==> r == st
    ensures st.simulationMode ==> r == st.(peers := r.peers, publicMessages := r.publicMessages, simJobActive := true)
    ensures st.simulationMode && NoSimulated(st.peers) ==>
      r.peers == st.peers + SimPeers && r.publicMessages == st.publicMessages + [SystemMsg(noticeId, SimulationOnNotice)]
    ensures st.simulationMode && !NoSimulated(st.peers) ==>
      r.peers == st.peers && r.publicMessages == st.publicMessages
    ensures st.simulationMode ==> !NoSimulated(r.peers)
  {
    if !st.simulationMode then st
    else if NoSimulated(st.peers) then
      assert SimPeers[0] in st.peers + SimPeers;
      AddSystemMsg(st.(peers := st.peers + SimPeers), noticeId, SimulationOnNotice).(simJobActive := true)
    else st.(simJobActive := true)
  }

  /** `stopSimulation`: cancel the telemetry loop and drop every simulated
      peer, keeping the real ones. */
  function StopSimulation(st: AppState, noticeId: string): (r: AppState)
    ensures r.(peers := st.peers, publicMessages := st.publicMessages, simJobActive := st.simJobActive) == st
    ensures !r.simJobActive
    ensures NoSimulated(r.peers)
    ensures forall p :: p in r.peers <==> p in st.peers && !p.isSimulated
    ensures UniqueIds(st.peers) ==> UniqueIds(r.peers)
    ensures r.publicMessages == st.publicMessages + [SystemMsg(noticeId, SimulationOffNotice)]
  {
    AddSystemMsg(st.(peers := RemoveSimulated(st.peers), simJobActive := false), noticeId, SimulationOffNotice)
  }

  /** `stopRealNetwork`: the transport is told to stop, which the model
      records only as the running flag and a notice. */
  function StopRealNetwork(st: AppState, noticeId: string): (r: AppState)
    ensures r.(runningRealNetwork := st.runningRealNetwork, publicMessages := st.publicMessages) == st
    ensures !r.runningRealNetwork
    ensures r.publicMessages == st.publicMessages + [SystemMsg(noticeId, RealStoppedNotice)]
  {
    AddSystemMsg(st.(runningRealNetwork := false), noticeId, RealStoppedNotice)
  }

  /** `startAutoNetwork`: without permissions only a notice is posted;
      otherwise the real network is restarted and the mode flag cleared. The
      peer list and the telemetry loop are left as they are. */
  function StartAutoNetwork(st: AppState, hasPermissions: bool, firstId: string, secondId: string): (r: AppState)
    ensures r == st.(simulationMode := r.simulationMode, runningRealNetwork := r.runningRealNetwork, publicMessages := r.publicMessages)
    ensures !hasPermissions ==>
      r == st.(publicMessages := st.publicMessages + [SystemMsg(firstId, MissingPermissionsNotice)])
    ensures hasPermissions ==>
      && !r.simulationMode && r.runningRealNetwork
      && r.publicMessages == st.publicMessages + [SystemMsg(firstId, RealStoppedNotice), SystemMsg(secondId, AutoNetworkNotice)]
  {
    if !hasPermissions then AddSystemMsg(st, firstId, MissingPermissionsNotice)
    else
      var stopped := StopRealNetwork(st, firstId);
      AddSystemMsg(stopped.(simulationMode := false, runningRealNetwork := true), secondId, AutoNetworkNotice)
  }

  /** The mode switch: to simulation it stops the real network and starts
      the simulation (real peers stay); to real it stops the simulation and
      leaves the permission request, whose answer may later start the real
      network, outside the model. */
  function ToggleMode(st: AppState, sim: bool, firstId: string, secondId: string): (r: AppState)
    ensures r.simulationMode == sim
    ensures r.dmMessages == st.dmMessages && r.stations == st.stations && r.proximity == st.proximity
    ensures sim ==> r.simJobActive && !r.runningRealNetwork && !NoSimulated(r.peers)
    ensures sim ==> r.peers == (if NoSimulated(st.peers) then st.peers + SimPeers else st.peers)
    ensures sim ==>
      r.publicMessages == st.publicMessages + [SystemMsg(firstId, RealStoppedNotice)]
        + (if NoSimulated(st.peers) then [SystemMsg(secondId, SimulationOnNotice)] else [])
    ensures !sim ==> !r.simJobActive && NoSimulated(r.peers) && r.runningRealNetwork == st.runningRealNetwork
    ensures !sim ==> forall p :: p in r.peers <==> p in st.peers && !p.isSimulated
    ensures !sim ==> r.publicMessages == st.publicMessages + [SystemMsg(firstId, SimulationOffNotice)]
  {
    var s0 := st.(simulationMode := sim);
    if sim then StartSimulation(StopRealNetwork(s0, firstId), secondId)
    else StopSimulation(s0, firstId)
  }

  /** A scheduled simulated reply arriving after its delay; `choice` picks
      the canned text. Nothing checks the mode at delivery. */
  function DeliverReply(st: AppState, reply: PendingReply, choice: nat): (r: AppState)
    ensures r.(publicMessages := st.publicMessages, dmMessages := st.dmMessages) == st
    ensures reply.PublicReply? ==>
      && r.dmMessages == st.dmMessages
      && |r.publicMessages| == |st.publicMessages| + 1
      && r.publicMessages[..|st.publicMessages|] == st.publicMessages
      && var m := r.publicMessages[|st.publicMessages|];
         m.id == reply.id && m.from == reply.from && m.text in PublicReplies && !m.mine && !m.isSystem
    ensures reply.DmReply? ==>
      && r.publicMessages == st.publicMessages
      && r.dmMessages.Keys == st.dmMessages.Keys + {reply.peerId}
      && (forall k :: k in st.dmMessages && k != reply.peerId ==> r.dmMessages[k] == st.dmMessages[k])
      && |r.dmMessages[reply.peerId]| == |Thread(st.dmMessages, reply.peerId)| + 1
      && r.dmMessages[reply.peerId][..|Thread(st.dmMessages, reply.peerId)|] == Thread(st.dmMessages, reply.peerId)
      && var m := r.dmMessages[reply.peerId][|Thread(st.dmMessages, reply.peerId)|];
         m.id == reply.id && m.from == reply.from && m.text in DmReplies && !m.mine && !m.isSystem
  {
    match reply
    case PublicReply(id, from) =>
      var m := Remote(id, from, PublicReplies[choice % |PublicReplies|]);
      var msgs := st.publicMessages + [m];
      assert msgs[..|st.publicMessages|] == st.publicMessages;
      st.(publicMessages := msgs)
    case DmReply(peerId, id, from) =>
      var m := Remote(id, from, DmReplies[choice % |DmReplies|]);
      var thread := Thread(st.dmMessages, peerId) + [m];
      assert thread[..|Thread(st.dmMessages, peerId)|] == Thread(st.dmMessages, peerId);
      st.(dmMessages := AppendDm(st.dmMessages, peerId, m))
  }

  /** One iteration of the telemetry loop, if it is still scheduled: apply
      the tick with the current proximity, then re-test the loop condition,
      which ends the loop once simulation mode is off. */
  function TelemetryTick(st: AppState, deltas: seq<int>): (r: AppState)
    requires |deltas| == |st.stations|
    requires ClampableAt(st.stations, st.proximity)
    ensures r.(stations := st.stations, simJobActive := st.simJobActive) == st
    ensures !st.simJobActive ==> r == st
    ensures st.simJobActive ==> r.stations == Tick(st.stations, st.proximity, deltas) && r.simJobActive == st.simulationMode
  {
    if !st.simJobActive then st
    else st.(stations := Tick(st.stations, st.proximity, deltas), simJobActive := st.simulationMode)
  }

  /** The slider callback: only the proximity value changes, so the next
      tick measures distances from the new value. */
  function SetProximity(st: AppState, proximity: real): (r: AppState)
    ensures r.proximity == proximity
    ensures r.(proximity := st.proximity) == st
  {
    st.(proximity := proximity)
  }

  /** `onCreate`: the three stations, then `startSimulation` in the initial
      simulation mode. */
  function InitialState(noticeId: string): (r: AppState)
    ensures r.simulationMode && !r.runningRealNetwork && r.simJobActive
    ensures r.peers == SimPeers
    ensures r.publicMessages == [SystemMsg(noticeId, SimulationOnNotice)]
    ensures r.dmMessages == map[]
    ensures r.stations == InitialStations() && r.proximity == InitialProximity
  {
    var empty := AppState([], [], map[], InitialStations(), true, false, InitialProximity, false);
    StartSimulation(empty, noticeId)
  }
}
