/** The peer-to-peer event loop: one task that owns the swarm, serves the commands the
    rest of the node sends it and reacts to the swarm's events. Answers go back through
    one-shot reply channels; a command whose answer depends on the network parks its
    reply channel in one of four pending maps, keyed by the dialled peer, the Kademlia
    query id or the outbound request id, until the matching event arrives.

    The swarm is modelled by the bookkeeping the loop relies on: the queries and
    requests it started (an id is the position in that log), routing entries, dial
    attempts, responses sent, connected peers and listen addresses. The swarm's answer to
    a call that can fail is a parameter. A reply channel is a number; `sent` logs every
    reply in order and `dropped` holds the channels whose receiving side has gone away.
    A panic of the task (an `expect` that fails, the catch-all event arm) sets `crashed`;
    no handler runs after that. The ghost `status` records, for every reply channel ever
    handed to the loop, whether it waits in a pending map, was answered or was dropped
    unanswered. */
module Network {
  import opened Common

  type PeerId = string
  type Multiaddr = string
  type QueryId = nat
  type RequestId = nat
  type ReplyId = nat
  type ChannelId = nat

  /** What the swarm answers to a call that can fail. */
  datatype SwarmAnswer = Accepted | Rejected(cause: string)

  /** A Kademlia query the loop started. */
  datatype Query = ProvideQuery(key: string) | ProvidersQuery(key: string) | ClosestPeersQuery(target: PeerId)

  /** An outbound request of the file protocol: ask `peer` about the chunk `key`. */
  datatype FileRequest = FileRequest(peer: PeerId, key: string)

  datatype Swarm = Swarm(
    queries: seq<Query>,                     // a query id is a position here
    finished: set<QueryId>,                  // queries the loop finished early
    requests: seq<FileRequest>,              // a request id is a position here
    responses: seq<(ChannelId, seq<Byte>)>,  // responses handed to inbound channels
    routing: set<(PeerId, Multiaddr)>,       // addresses added to the routing table
    dials: seq<Multiaddr>,                   // dial attempts
    connected: seq<PeerId>,                  // peers with at least one open connection
    listeners: seq<Multiaddr>)               // addresses the node listens on

  const EmptySwarm := Swarm([], {}, [], [], {}, [], [], [])

  /** The value sent back on a reply channel. */
  datatype ReplyValue =
    | Listening(listening: Result<PeerId>)
    | Peers(peers: Result<seq<PeerId>>)
    | Dialed(dialed: Result<()>)
    | ProvidingStarted
    | Providers(providers: set<PeerId>)
    | File(file: Result<seq<Byte>>)
    | ListenAddress(address: Result<Multiaddr>)

  datatype Reply = Reply(to: ReplyId, value: ReplyValue)

  /** What the loop forwards to the node: a file request from another peer. */
  datatype Event = InboundRequest(request: string, channel: ChannelId)

  datatype Command =
    | StartListening(addr: Multiaddr, sender: ReplyId)
    | GetPeers(sender: ReplyId)
    | GetAvailablePeers(sender: ReplyId)
    | StartProvidingRequest(peer: PeerId, key: string)
    | Dial(peer: PeerId, peerAddr: Multiaddr, sender: ReplyId)
    | StartProviding(key: string, sender: ReplyId)
    | GetProviders(key: string, sender: ReplyId)
    | RequestFile(key: string, peer: PeerId, sender: ReplyId)
    | RespondFile(file: seq<Byte>, channel: ChannelId)
    | FindPeers(target: PeerId)
    | GetActualListeningAddress(sender: ReplyId)

  /** The reply channel a command carries, if any. */
  function SenderOf(c: Command): (r: Option<ReplyId>)
    ensures r.None? <==> c.StartProvidingRequest? || c.RespondFile? || c.FindPeers?
  {
    match c
    case StartProvidingRequest(_, _) => None
    case RespondFile(_, _) => None
    case FindPeers(_) => None
    case _ => Some(c.sender)
  }

  /** A command panics the loop only when the swarm rejects a call the loop `expect`s. */
  predicate CommandPanics(c: Command, answer: SwarmAnswer)
  {
    (c.StartProviding? || c.RespondFile?) && answer.Rejected?
  }

  /** The elements of a sequence, as a set. */
  function Elements<T(!new)>(s: seq<T>): (r: set<T>)
    ensures forall x :: x in r <==> x in s
  {
    if s == [] then {} else Elements(s[..|s| - 1]) + {s[|s| - 1]}
  }

  /** The swarm events the loop distinguishes. */
  datatype SwarmEvent =
    | StartProvidingProgressed(query: QueryId)
    | RoutingUpdated(peer: PeerId, first: Multiaddr)  // the first of its addresses, a list the library never leaves empty
    | MdnsDiscovered(found: seq<(PeerId, Multiaddr)>)
    | MdnsExpired(expired: seq<(PeerId, Multiaddr)>)
    | FoundProviders(query: QueryId, providers: set<PeerId>)
    | FinishedWithNoAdditionalRecord(query: QueryId)
    | OtherKademliaEvent
    | InboundRequestReceived(request: string, channel: ChannelId)
    | ResponseReceived(requestId: RequestId, response: seq<Byte>)
    | OutboundFailure(requestId: RequestId, error: string)
    | InboundFailure
    | ResponseSent
    | NewListenAddr(address: Multiaddr)
    | IncomingConnection
    | ConnectionEstablished(peer: PeerId, dialer: bool)
    | ConnectionClosed(peer: PeerId, remaining: nat)
    | OutgoingConnectionError(failedPeer: Option<PeerId>, error: string)
    | IncomingConnectionError
    | Dialing(dialed: Option<PeerId>)
    | OtherSwarmEvent

  /** Where a reply channel waits. */
  datatype Slot =
    | DialSlot(peer: PeerId)
    | StartProvidingSlot(query: QueryId)
    | GetProvidersSlot(query: QueryId)
    | RequestFileSlot(request: RequestId)

  datatype Status = Awaiting(slot: Slot) | Answered | Dropped

  class EventLoop {
    const localPeerId: PeerId
    var swarm: Swarm
    var pendingDial: map<PeerId, ReplyId>
    var pendingStartProviding: map<QueryId, ReplyId>
    var pendingGetProviders: map<QueryId, ReplyId>
    var pendingRequestFile: map<RequestId, ReplyId>
    var sent: seq<Reply>
    var dropped: set<ReplyId>
    var events: seq<Event>
    var crashed: bool
    ghost var status: map<ReplyId, Status>

    /** Reply channel `r` is the one parked in slot `s`. */
    ghost predicate Holds(s: Slot, r: ReplyId)
      reads this
    {
      match s
      case DialSlot(p) => p in pendingDial && pendingDial[p] == r
      case StartProvidingSlot(q) => q in pendingStartProviding && pendingStartProviding[q] == r
      case GetProvidersSlot(q) => q in pendingGetProviders && pendingGetProviders[q] == r
      case RequestFileSlot(q) => q in pendingRequestFile && pendingRequestFile[q] == r
    }

    /** Every pending dial waits on its own reply channel. */
    ghost predicate DialsBooked()
      reads this
    {
      forall p :: p in pendingDial ==>
        pendingDial[p] in status && status[pendingDial[p]] == Awaiting(DialSlot(p))
    }

    /** Pending queries were started by the loop, with the kind their map says. */
    ghost predicate QueriesBooked()
      reads this
    {
      && (forall q :: q in pendingStartProviding ==>
            && q < |swarm.queries| && swarm.queries[q].ProvideQuery?
            && pendingStartProviding[q] in status
            && status[pendingStartProviding[q]] == Awaiting(StartProvidingSlot(q)))
      && (forall q :: q in pendingGetProviders ==>
            && q < |swarm.queries| && swarm.queries[q].ProvidersQuery?
            && pendingGetProviders[q] in status
            && status[pendingGetProviders[q]] == Awaiting(GetProvidersSlot(q)))
    }

    /** Pending requests were sent by the loop. */
    ghost predicate RequestsBooked()
      reads this
    {
      forall q :: q in pendingRequestFile ==>
        && q < |swarm.requests|
        && pendingRequestFile[q] in status
        && status[pendingRequestFile[q]] == Awaiting(RequestFileSlot(q))
    }

    /** A channel recorded as waiting is where its status says. */
    ghost predicate SlotsHeld()
      reads this
    {
      && (forall r :: r in status && status[r].Awaiting? && status[r].slot.DialSlot? ==>
            status[r].slot.peer in pendingDial && pendingDial[status[r].slot.peer] == r)
      && (forall r :: r in status && status[r].Awaiting? && status[r].slot.StartProvidingSlot? ==>
            status[r].slot.query in pendingStartProviding && pendingStartProviding[status[r].slot.query] == r)
      && (forall r :: r in status && status[r].Awaiting? && status[r].slot.GetProvidersSlot? ==>
            status[r].slot.query in pendingGetProviders && pendingGetProviders[status[r].slot.query] == r)
      && (forall r :: r in status && status[r].Awaiting? && status[r].slot.RequestFileSlot? ==>
            status[r].slot.request in pendingRequestFile && pendingRequestFile[status[r].slot.request] == r)
    }

    /** Every reply went to a channel now marked answered, and no channel got two. */
    ghost predicate AnsweredOnce()
      reads this
    {
      && (forall i :: 0 <= i < |sent| ==> sent[i].to in status && status[sent[i].to] == Answered)
      && (forall i, j :: 0 <= i < j < |sent| ==> sent[i].to != sent[j].to)
    }

    ghost predicate Valid()
      reads this
    {
      && DialsBooked() && QueriesBooked() && RequestsBooked() && SlotsHeld() && AnsweredOnce()
      && NoDuplicates(swarm.connected)
    }

    /** The events on which `handle_event` panics, in the current state. */
    predicate EventPanics(e: SwarmEvent)
      reads this
    {
      match e
      case StartProvidingProgressed(q) => q !in pendingStartProviding
      case FoundProviders(q, _) => q in pendingGetProviders && pendingGetProviders[q] in dropped
      case ResponseReceived(id, _) => id !in pendingRequestFile
      case OutboundFailure(id, _) => id !in pendingRequestFile
      case MdnsExpired(_) => true
      case InboundFailure => true
      case Dialing(p) => p.None?
      case OtherSwarmEvent => true
      case _ => false
    }

    /** The events on which `handle_event` only logs, or does nothing at all. */
    static predicate Ignored(e: SwarmEvent)
    {
      || e.FinishedWithNoAdditionalRecord? || e.OtherKademliaEvent?
      || e.ResponseSent? || e.IncomingConnection? || e.IncomingConnectionError?
      || (e.Dialing? && e.dialed.Some?)
    }

    constructor(localPeerId: PeerId)
      ensures Valid() && !crashed
      ensures this.localPeerId == localPeerId && swarm == EmptySwarm
      ensures pendingDial == map[] && pendingStartProviding == map[]
      ensures pendingGetProviders == map[] && pendingRequestFile == map[]
      ensures sent == [] && dropped == {} && events == [] && status == map[]
    {
      this.localPeerId := localPeerId;
      swarm := EmptySwarm;
      pendingDial := map[];
      pendingStartProviding := map[];
      pendingGetProviders := map[];
      pendingRequestFile := map[];
      sent := [];
      dropped := {};
      events := [];
      crashed := false;
      status := map[];
    }

    /** A channel waits in at most one slot. */
    lemma OneSlotPerReply(s1: Slot, s2: Slot, r: ReplyId)
      requires Valid() && Holds(s1, r) && Holds(s2, r)
      ensures s1 == s2
    {
    }

    /** A channel still waiting in a slot has not been answered. */
    lemma {:induction false} WaitingIsUnanswered(s: Slot, r: ReplyId)
      requires Valid() && Holds(s, r)
      ensures forall i :: 0 <= i < |sent| ==> sent[i].to != r
    {
      assert status[r] == Awaiting(s) by {
        match s
        case DialSlot(p) =>
        case StartProvidingSlot(q) =>
        case GetProvidersSlot(q) =>
        case RequestFileSlot(q) =>
      }
    }

    /** The receiving side of reply channel `r` goes away. */
    method ReceiverDropped(r: ReplyId)
      requires Valid()
      modifies this`dropped
      ensures Valid()
      ensures dropped == old(dropped) + {r}
    {
      dropped := dropped + {r};
    }

    // ---- resolving a parked reply channel ---------------------------------------

    /** Remove the pending dial of `peer` and answer its channel with `v`. */
    method AnswerDial(peer: PeerId, v: ReplyValue)
      requires Valid() && peer in pendingDial
      modifies this`pendingDial, this`sent, this`status
      ensures Valid()
      ensures pendingDial == old(pendingDial) - {peer}
      ensures sent == old(sent) + [Reply(old(pendingDial)[peer], v)]
      ensures status == old(status)[old(pendingDial)[peer] := Answered]
    {
      var r := pendingDial[peer];
      pendingDial := pendingDial - {peer};
      sent := sent + [Reply(r, v)];
      status := status[r := Answered];
    }

    /** Remove the pending start-providing query `q` and answer its channel with `v`. */
    method AnswerStartProviding(q: QueryId, v: ReplyValue)
      requires Valid() && q in pendingStartProviding
      modifies this`pendingStartProviding, this`sent, this`status
      ensures Valid()
      ensures pendingStartProviding == old(pendingStartProviding) - {q}
      ensures sent == old(sent) + [Reply(old(pendingStartProviding)[q], v)]
      ensures status == old(status)[old(pendingStartProviding)[q] := Answered]
    {
      var r := pendingStartProviding[q];
      pendingStartProviding := pendingStartProviding - {q};
      sent := sent + [Reply(r, v)];
      status := status[r := Answered];
    }

    /** Remove the pending providers query `q` and answer its channel with `v`. */
    method AnswerGetProviders(q: QueryId, v: ReplyValue)
      requires Valid() && q in pendingGetProviders
      modifies this`pendingGetProviders, this`sent, this`status
      ensures Valid()
      ensures pendingGetProviders == old(pendingGetProviders) - {q}
      ensures sent == old(sent) + [Reply(old(pendingGetProviders)[q], v)]
      ensures status == old(status)[old(pendingGetProviders)[q] := Answered]
    {
      var r := pendingGetProviders[q];
      pendingGetProviders := pendingGetProviders - {q};
      sent := sent + [Reply(r, v)];
      status := status[r := Answered];
    }

    /** Remove the pending request `id` and answer its channel with `v`. */
    method AnswerRequestFile(id: RequestId, v: ReplyValue)
      requires Valid() && id in pendingRequestFile
      modifies this`pendingRequestFile, this`sent, this`status
      ensures Valid()
      ensures pendingRequestFile == old(pendingRequestFile) - {id}
      ensures sent == old(sent) + [Reply(old(pendingRequestFile)[id], v)]
      ensures status == old(status)[old(pendingRequestFile)[id] := Answered]
    {
      var r := pendingRequestFile[id];
      pendingRequestFile := pendingRequestFile - {id};
      sent := sent + [Reply(r, v)];
      status := status[r := Answered];
    }

    /** Answer a channel the loop was just handed. */
    method AnswerFresh(sender: ReplyId, v: ReplyValue)
      requires Valid() && sender !in status
      modifies this`sent, this`status
      ensures Valid()
      ensures sent == old(sent) + [Reply(sender, v)]
      ensures status == old(status)[sender := Answered]
    {
      sent := sent + [Reply(sender, v)];
      status := status[sender := Answered];
    }

    // ---- commands -------------------------------------------------------------

    /** Add the address to the routing table under the local peer id, then listen on
        it; on success the reply carries the local peer id. */
    method HandleStartListening(addr: Multiaddr, sender: ReplyId, answer: SwarmAnswer)
      requires Valid() && !crashed && sender !in status
      modifies this`swarm, this`sent, this`status
      ensures Valid()
      ensures swarm == old(swarm).(routing := old(swarm.routing) + {(localPeerId, addr)})
      ensures sent == old(sent) + [Reply(sender, Listening(
        if answer.Accepted? then Ok(localPeerId) else Err(answer.cause)))]
      ensures status == old(status)[sender := Answered]
    {
      swarm := swarm.(routing := swarm.routing + {(localPeerId, addr)});
      var result := if answer.Accepted? then Ok(localPeerId) else Err(answer.cause);
      AnswerFresh(sender, Listening(result));
    }

    /** Reply with the connected peers. */
    method HandleGetPeers(sender: ReplyId)
      requires Valid() && !crashed && sender !in status
      modifies this`sent, this`status
      ensures Valid()
      ensures sent == old(sent) + [Reply(sender, Peers(Ok(swarm.connected)))]
      ensures NoDuplicates(sent[|sent| - 1].value.peers.value)
      ensures status == old(status)[sender := Answered]
    {
      AnswerFresh(sender, Peers(Ok(swarm.connected)));
    }

    /** Copy the connected peers one by one and reply with the copy: the same answer as
        `HandleGetPeers`. */
    method HandleGetAvailablePeers(sender: ReplyId)
      requires Valid() && !crashed && sender !in status
      modifies this`sent, this`status
      ensures Valid()
      ensures sent == old(sent) + [Reply(sender, Peers(Ok(swarm.connected)))]
      ensures status == old(status)[sender := Answered]
    {
      var available: seq<PeerId> := [];
      var peers := swarm.connected;
      for i := 0 to |peers|
        invariant available == peers[..i]
      {
        available := available + [peers[i]];
      }
      assert peers[..|peers|] == peers;
      AnswerFresh(sender, Peers(Ok(available)));
    }

    /** Send a file-protocol request that nobody waits for: no pending entry is made. */
    method HandleStartProvidingRequest(peer: PeerId, key: string)
      requires Valid() && !crashed
      modifies this`swarm
      ensures Valid()
      ensures swarm == old(swarm).(requests := old(swarm.requests) + [FileRequest(peer, key)])
    {
      var _ := SendRequest(FileRequest(peer, key));
    }

    /** At most one dial per peer is pending. A second dial of the same peer drops its
        reply channel and changes nothing else. Otherwise the address goes into the
        routing table and the swarm dials it; an accepted dial parks the channel, a
        rejected one is answered with the error. */
    method HandleDial(peer: PeerId, peerAddr: Multiaddr, sender: ReplyId, answer: SwarmAnswer)
      requires Valid() && !crashed && sender !in status
      modifies this`swarm, this`pendingDial, this`sent, this`status
      ensures Valid()
      ensures peer in old(pendingDial) ==>
        && swarm == old(swarm) && pendingDial == old(pendingDial) && sent == old(sent)
        && status == old(status)[sender := Dropped]
      ensures peer !in old(pendingDial) ==>
        swarm == old(swarm).(routing := old(swarm.routing) + {(peer, peerAddr)},
                             dials := old(swarm.dials) + [peerAddr + "/p2p/" + peer])
      ensures peer !in old(pendingDial) && answer.Accepted? ==>
        && pendingDial == old(pendingDial)[peer := sender] && sent == old(sent)
        && status == old(status)[sender := Awaiting(DialSlot(peer))]
      ensures peer !in old(pendingDial) && answer.Rejected? ==>
        && pendingDial == old(pendingDial)
        && sent == old(sent) + [Reply(sender, Dialed(Err(answer.cause)))]
        && status == old(status)[sender := Answered]
    {
      if peer !in pendingDial {
        RouteAndDial(peer, peerAddr);
        if answer.Accepted? {
          ParkDial(peer, sender);
        } else {
          AnswerFresh(sender, Dialed(Err(answer.cause)));
        }
      } else {
        status := status[sender := Dropped];
      }
    }

    /** The two swarm calls of a new dial: route the address, then dial it with the
        peer id appended. */
    method RouteAndDial(peer: PeerId, peerAddr: Multiaddr)
      requires Valid()
      modifies this`swarm
      ensures Valid()
      ensures swarm == old(swarm).(routing := old(swarm.routing) + {(peer, peerAddr)},
                                   dials := old(swarm.dials) + [peerAddr + "/p2p/" + peer])
    {
      swarm := swarm.(routing := swarm.routing + {(peer, peerAddr)},
                      dials := swarm.dials + [peerAddr + "/p2p/" + peer]);
    }

    /** Park a fresh channel as the pending dial of `peer`. */
    method ParkDial(peer: PeerId, sender: ReplyId)
      requires Valid() && peer !in pendingDial && sender !in status
      modifies this`pendingDial, this`status
      ensures Valid()
      ensures pendingDial == old(pendingDial)[peer := sender]
      ensures status == old(status)[sender := Awaiting(DialSlot(peer))]
    {
      pendingDial := pendingDial[peer := sender];
      status := status[sender := Awaiting(DialSlot(peer))];
    }

    /** Start a Kademlia query; its id is fresh: no pending map holds it yet. */
    method StartQuery(query: Query) returns (q: QueryId)
      requires Valid()
      modifies this`swarm
      ensures Valid()
      ensures q == |old(swarm.queries)|
      ensures swarm == old(swarm).(queries := old(swarm.queries) + [query])
      ensures q !in pendingStartProviding && q !in pendingGetProviders
    {
      q := |swarm.queries|;
      swarm := swarm.(queries := swarm.queries + [query]);
    }

    /** Send a file-protocol request; its id is fresh: no pending entry holds it yet. */
    method SendRequest(request: FileRequest) returns (id: RequestId)
      requires Valid()
      modifies this`swarm
      ensures Valid()
      ensures id == |old(swarm.requests)|
      ensures swarm == old(swarm).(requests := old(swarm.requests) + [request])
      ensures id !in pendingRequestFile
    {
      id := |swarm.requests|;
      swarm := swarm.(requests := swarm.requests + [request]);
    }

    /** Park a fresh channel under the start-providing query `q`. */
    method ParkStartProviding(q: QueryId, sender: ReplyId)
      requires Valid() && sender !in status && q !in pendingStartProviding
      requires q < |swarm.queries| && swarm.queries[q].ProvideQuery?
      modifies this`pendingStartProviding, this`status
      ensures Valid()
      ensures pendingStartProviding == old(pendingStartProviding)[q := sender]
      ensures status == old(status)[sender := Awaiting(StartProvidingSlot(q))]
    {
      pendingStartProviding := pendingStartProviding[q := sender];
      status := status[sender := Awaiting(StartProvidingSlot(q))];
    }

    /** Park a fresh channel under the providers query `q`. */
    method ParkGetProviders(q: QueryId, sender: ReplyId)
      requires Valid() && sender !in status && q !in pendingGetProviders
      requires q < |swarm.queries| && swarm.queries[q].ProvidersQuery?
      modifies this`pendingGetProviders, this`status
      ensures Valid()
      ensures pendingGetProviders == old(pendingGetProviders)[q := sender]
      ensures status == old(status)[sender := Awaiting(GetProvidersSlot(q))]
    {
      pendingGetProviders := pendingGetProviders[q := sender];
      status := status[sender := Awaiting(GetProvidersSlot(q))];
    }

    /** Park a fresh channel under the request `id`. */
    method ParkRequestFile(id: RequestId, sender: ReplyId)
      requires Valid() && sender !in status && id !in pendingRequestFile
      requires id < |swarm.requests|
      modifies this`pendingRequestFile, this`status
      ensures Valid()
      ensures pendingRequestFile == old(pendingRequestFile)[id := sender]
      ensures status == old(status)[sender := Awaiting(RequestFileSlot(id))]
    {
      pendingRequestFile := pendingRequestFile[id := sender];
      status := status[sender := Awaiting(RequestFileSlot(id))];
    }

    /** Start providing `key`: the new query's id maps to the reply channel. A store
        error panics. */
    method HandleStartProviding(key: string, sender: ReplyId, answer: SwarmAnswer)
      requires Valid() && !crashed && sender !in status
      modifies this`swarm, this`pendingStartProviding, this`status, this`crashed
      ensures Valid()
      ensures crashed <==> answer.Rejected?
      ensures answer.Rejected? ==>
        swarm == old(swarm) && pendingStartProviding == old(pendingStartProviding) && status == old(status)
      ensures answer.Accepted? ==>
        && swarm == old(swarm).(queries := old(swarm.queries) + [ProvideQuery(key)])
        && pendingStartProviding == old(pendingStartProviding)[|old(swarm.queries)| := sender]
        && status == old(status)[sender := Awaiting(StartProvidingSlot(|old(swarm.queries)|))]
    {
      if answer.Rejected? {
        crashed := true;
      } else {
        var q := StartQuery(ProvideQuery(key));
        ParkStartProviding(q, sender);
      }
    }

    /** Look for providers of `key`: the new query's id maps to the reply channel. */
    method HandleGetProviders(key: string, sender: ReplyId)
      requires Valid() && !crashed && sender !in status
      modifies this`swarm, this`pendingGetProviders, this`status
      ensures Valid()
      ensures swarm == old(swarm).(queries := old(swarm.queries) + [ProvidersQuery(key)])
      ensures pendingGetProviders == old(pendingGetProviders)[|old(swarm.queries)| := sender]
      ensures status == old(status)[sender := Awaiting(GetProvidersSlot(|old(swarm.queries)|))]
    {
      var q := StartQuery(ProvidersQuery(key));
      ParkGetProviders(q, sender);
    }

    /** Ask `peer` for the chunk `key`: the new request's id maps to the reply channel. */
    method HandleRequestFile(key: string, peer: PeerId, sender: ReplyId)
      requires Valid() && !crashed && sender !in status
      modifies this`swarm, this`pendingRequestFile, this`status
      ensures Valid()
      ensures swarm == old(swarm).(requests := old(swarm.requests) + [FileRequest(peer, key)])
      ensures pendingRequestFile == old(pendingRequestFile)[|old(swarm.requests)| := sender]
      ensures status == old(status)[sender := Awaiting(RequestFileSlot(|old(swarm.requests)|))]
    {
      var id := SendRequest(FileRequest(peer, key));
      ParkRequestFile(id, sender);
    }

    /** Answer an inbound request; a closed connection panics. */
    method HandleRespondFile(file: seq<Byte>, channel: ChannelId, answer: SwarmAnswer)
      requires Valid() && !crashed
      modifies this`swarm, this`crashed
      ensures Valid()
      ensures crashed <==> answer.Rejected?
      ensures swarm == if answer.Rejected? then old(swarm)
                       else old(swarm).(responses := old(swarm.responses) + [(channel, file)])
    {
      if answer.Rejected? {
        crashed := true;
      } else {
        swarm := swarm.(responses := swarm.responses + [(channel, file)]);
      }
    }

    /** Start a closest-peers query; nobody waits for its result. */
    method HandleFindPeers(target: PeerId)
      requires Valid() && !crashed
      modifies this`swarm
      ensures Valid()
      ensures swarm == old(swarm).(queries := old(swarm.queries) + [ClosestPeersQuery(target)])
    {
      var _ := StartQuery(ClosestPeersQuery(target));
    }

    /** Reply with a listen address, or an error when the node listens nowhere. */
    method HandleGetActualListeningAddress(sender: ReplyId)
      requires Valid() && !crashed && sender !in status
      modifies this`sent, this`status
      ensures Valid()
      ensures |sent| == |old(sent)| + 1 && sent[..|old(sent)|] == old(sent)
      ensures sent[|sent| - 1].to == sender && sent[|sent| - 1].value.ListenAddress?
      ensures sent[|sent| - 1].value.address.Ok? ==> sent[|sent| - 1].value.address.value in swarm.listeners
      ensures swarm.listeners == [] <==> sent[|sent| - 1].value.address == Err("No listening address found")
      ensures status == old(status)[sender := Answered]
    {
      var result := if swarm.listeners != [] then Ok(swarm.listeners[0]) else Err("No listening address found");
      AnswerFresh(sender, ListenAddress(result));
    }

    /** `handle_command`: dispatch a command; `answer` is the swarm's answer to the one
        call of that arm that can fail, when there is one. */
    method HandleCommand(c: Command, answer: SwarmAnswer)
      requires Valid() && !crashed
      requires SenderOf(c).Some? ==> SenderOf(c).value !in status
      modifies this
      ensures Valid()
      ensures crashed <==> CommandPanics(c, answer)
    {
      match c
      case StartListening(addr, sender) => HandleStartListening(addr, sender, answer);
      case GetPeers(sender) => HandleGetPeers(sender);
      case GetAvailablePeers(sender) => HandleGetAvailablePeers(sender);
      case StartProvidingRequest(peer, key) => HandleStartProvidingRequest(peer, key);
      case Dial(peer, peerAddr, sender) => HandleDial(peer, peerAddr, sender, answer);
      case StartProviding(key, sender) => HandleStartProviding(key, sender, answer);
      case GetProviders(key, sender) => HandleGetProviders(key, sender);
      case RequestFile(key, peer, sender) => HandleRequestFile(key, peer, sender);
      case RespondFile(file, channel) => HandleRespondFile(file, channel, answer);
      case FindPeers(target) => HandleFindPeers(target);
      case GetActualListeningAddress(sender) => HandleGetActualListeningAddress(sender);
    }

    // ---- events ---------------------------------------------------------------

    /** A start-providing query progressed: its entry must be pending; it is removed and
        its channel told. A query id that is not pending panics. */
    method OnStartProvidingProgressed(q: QueryId)
      requires Valid() && !crashed
      modifies this`pendingStartProviding, this`sent, this`status, this`crashed
      ensures Valid()
      ensures crashed <==> q !in old(pendingStartProviding)
      ensures crashed ==>
        pendingStartProviding == old(pendingStartProviding) && sent == old(sent) && status == old(status)
      ensures !crashed ==>
        && pendingStartProviding == old(pendingStartProviding) - {q}
        && sent == old(sent) + [Reply(old(pendingStartProviding)[q], ProvidingStarted)]
        && status == old(status)[old(pendingStartProviding)[q] := Answered]
    {
      if q in pendingStartProviding {
        AnswerStartProviding(q, ProvidingStarted);
      } else {
        crashed := true;
      }
    }

    /** A peer seen by Kademlia is dialled at its first address; the outcome is only
        logged, so no reply channel is involved. */
    method OnRoutingUpdated(first: Multiaddr)
      requires Valid() && !crashed
      modifies this`swarm
      ensures Valid()
      ensures swarm == old(swarm).(dials := old(swarm.dials) + [first])
    {
      swarm := swarm.(dials := swarm.dials + [first]);
    }

    /** mDNS found peers: every (peer, address) pair goes into the routing table. */
    method OnMdnsDiscovered(found: seq<(PeerId, Multiaddr)>)
      requires Valid() && !crashed
      modifies this`swarm
      ensures Valid()
      ensures swarm == old(swarm).(routing := old(swarm.routing) + Elements(found))
    {
      var routing := swarm.routing;
      for i := 0 to |found|
        invariant routing == old(swarm.routing) + Elements(found[..i])
      {
        assert found[..i + 1][..i] == found[..i];
        routing := routing + {found[i]};
      }
      assert found[..|found|] == found;
      swarm := swarm.(routing := routing);
    }

    /** Providers were found. If the query is pending, its entry is removed and the
        providers are sent; the send fails and panics when the receiver was dropped,
        otherwise the query is finished. A query that is not pending is ignored. */
    method OnFoundProviders(q: QueryId, providers: set<PeerId>)
      requires Valid() && !crashed
      modifies this`swarm, this`pendingGetProviders, this`sent, this`status, this`crashed
      ensures Valid()
      ensures crashed <==> q in old(pendingGetProviders) && old(pendingGetProviders)[q] in dropped
      ensures q !in old(pendingGetProviders) ==>
        swarm == old(swarm) && pendingGetProviders == old(pendingGetProviders) && sent == old(sent)
        && status == old(status)
      ensures q in old(pendingGetProviders) ==>
        && pendingGetProviders == old(pendingGetProviders) - {q}
        && sent == old(sent) + [Reply(old(pendingGetProviders)[q], Providers(providers))]
        && status == old(status)[old(pendingGetProviders)[q] := Answered]
        && swarm == if crashed then old(swarm) else old(swarm).(finished := old(swarm.finished) + {q})
    {
      if q in pendingGetProviders {
        var r := pendingGetProviders[q];
        AnswerGetProviders(q, Providers(providers));
        if r in dropped {
          crashed := true;
        } else {
          swarm := swarm.(finished := swarm.finished + {q});
        }
      }
    }

    /** An inbound file request is forwarded to the node. */
    method OnInboundRequest(request: string, channel: ChannelId)
      requires Valid() && !crashed
      modifies this`events
      ensures Valid()
      ensures events == old(events) + [InboundRequest(request, channel)]
    {
      events := events + [InboundRequest(request, channel)];
    }

    /** Settle the outcome of outbound request `id` without panicking: a pending request's
        entry is removed and its channel receives `result`; an id nobody waits for is
        reported and changes nothing. */
    method ResolveRequestFile(id: RequestId, result: Result<seq<Byte>>) returns (unknown: bool)
      requires Valid()
      modifies this`pendingRequestFile, this`sent, this`status
      ensures Valid()
      ensures unknown <==> id !in old(pendingRequestFile)
      ensures unknown ==>
        pendingRequestFile == old(pendingRequestFile) && sent == old(sent) && status == old(status)
      ensures !unknown ==>
        && pendingRequestFile == old(pendingRequestFile) - {id}
        && sent == old(sent) + [Reply(old(pendingRequestFile)[id], File(result))]
        && status == old(status)[old(pendingRequestFile)[id] := Answered]
    {
      unknown := id !in pendingRequestFile;
      if !unknown {
        AnswerRequestFile(id, File(result));
      }
    }

    /** A response arrived: the request must be pending, else the loop panics. */
    method OnResponseReceived(id: RequestId, response: seq<Byte>)
      requires Valid() && !crashed
      modifies this`pendingRequestFile, this`sent, this`status, this`crashed
      ensures Valid()
      ensures crashed <==> id !in old(pendingRequestFile)
      ensures crashed ==>
        pendingRequestFile == old(pendingRequestFile) && sent == old(sent) && status == old(status)
      ensures !crashed ==>
        && pendingRequestFile == old(pendingRequestFile) - {id}
        && sent == old(sent) + [Reply(old(pendingRequestFile)[id], File(Ok(response)))]
        && status == old(status)[old(pendingRequestFile)[id] := Answered]
    {
      var unknown := ResolveRequestFile(id, Ok(response));
      if unknown {
        crashed := true;
      }
    }

    /** An outbound request failed: the request must be pending, else the loop panics. */
    method OnOutboundFailure(id: RequestId, error: string)
      requires Valid() && !crashed
      modifies this`pendingRequestFile, this`sent, this`status, this`crashed
      ensures Valid()
      ensures crashed <==> id !in old(pendingRequestFile)
      ensures crashed ==>
        pendingRequestFile == old(pendingRequestFile) && sent == old(sent) && status == old(status)
      ensures !crashed ==>
        && pendingRequestFile == old(pendingRequestFile) - {id}
        && sent == old(sent) + [Reply(old(pendingRequestFile)[id], File(Err(error)))]
        && status == old(status)[old(pendingRequestFile)[id] := Answered]
    {
      var unknown := ResolveRequestFile(id, Err(error));
      if unknown {
        crashed := true;
      }
    }

    /** The swarm listens on a new address. */
    method OnNewListenAddr(address: Multiaddr)
      requires Valid() && !crashed
      modifies this`swarm
      ensures Valid()
      ensures swarm == old(swarm).(listeners := old(swarm.listeners) + [address])
    {
      swarm := swarm.(listeners := swarm.listeners + [address]);
    }

    /** A connection is up. On the dialing side a pending dial of that peer is removed
        and answered with success; on the listening side nothing is resolved. */
    method OnConnectionEstablished(peer: PeerId, dialer: bool)
      requires Valid() && !crashed
      modifies this`swarm, this`pendingDial, this`sent, this`status
      ensures Valid()
      ensures peer in swarm.connected
      ensures swarm == old(swarm).(connected :=
        if peer in old(swarm.connected) then old(swarm.connected) else old(swarm.connected) + [peer])
      ensures dialer && peer in old(pendingDial) ==>
        && pendingDial == old(pendingDial) - {peer}
        && sent == old(sent) + [Reply(old(pendingDial)[peer], Dialed(Ok(())))]
        && status == old(status)[old(pendingDial)[peer] := Answered]
      ensures !(dialer && peer in old(pendingDial)) ==>
        pendingDial == old(pendingDial) && sent == old(sent) && status == old(status)
    {
      if peer !in swarm.connected {
        swarm := swarm.(connected := swarm.connected + [peer]);
      }
      if dialer && peer in pendingDial {
        AnswerDial(peer, Dialed(Ok(())));
      }
    }

    /** A connection closed; the peer stays connected while others remain open. */
    method OnConnectionClosed(peer: PeerId, remaining: nat)
      requires Valid() && !crashed
      modifies this`swarm
      ensures Valid()
      ensures remaining == 0 ==> peer !in swarm.connected
      ensures remaining > 0 ==> swarm == old(swarm)
      ensures forall p :: p != peer ==> (p in swarm.connected <==> p in old(swarm.connected))
      ensures swarm == old(swarm).(connected := swarm.connected)
    {
      if remaining == 0 {
        FilterKeepsNoDuplicates(swarm.connected, (p: PeerId) => p != peer);
        swarm := swarm.(connected := Filter(swarm.connected, (p: PeerId) => p != peer));
      }
    }

    /** An outgoing connection failed: a pending dial of that peer is removed and
        answered with the error. */
    method OnOutgoingConnectionError(failedPeer: Option<PeerId>, error: string)
      requires Valid() && !crashed
      modifies this`pendingDial, this`sent, this`status
      ensures Valid()
      ensures failedPeer.Some? && failedPeer.value in old(pendingDial) ==>
        && pendingDial == old(pendingDial) - {failedPeer.value}
        && sent == old(sent) + [Reply(old(pendingDial)[failedPeer.value], Dialed(Err(error)))]
        && status == old(status)[old(pendingDial)[failedPeer.value] := Answered]
      ensures !(failedPeer.Some? && failedPeer.value in old(pendingDial)) ==>
        pendingDial == old(pendingDial) && sent == old(sent) && status == old(status)
    {
      if failedPeer.Some? && failedPeer.value in pendingDial {
        AnswerDial(failedPeer.value, Dialed(Err(error)));
      }
    }

    /** The events the Kademlia behaviour raises. */
    static predicate FromKademlia(e: SwarmEvent)
    {
      || e.StartProvidingProgressed? || e.RoutingUpdated? || e.FoundProviders?
      || e.FinishedWithNoAdditionalRecord? || e.OtherKademliaEvent?
    }

    /** The events the request-response behaviour raises. */
    static predicate FromRequestResponse(e: SwarmEvent)
    {
      || e.InboundRequestReceived? || e.ResponseReceived? || e.OutboundFailure?
      || e.InboundFailure? || e.ResponseSent?
    }

    /** `handle_event`: dispatch a swarm event. */
    method HandleEvent(e: SwarmEvent)
      requires Valid() && !crashed
      modifies this
      ensures Valid()
      ensures crashed <==> old(EventPanics(e))
      ensures Ignored(e) ==> unchanged(this)
    {
      if FromKademlia(e) {
        HandleKademliaEvent(e);
      } else if FromRequestResponse(e) {
        HandleRequestResponseEvent(e);
      } else if e.MdnsDiscovered? {
        OnMdnsDiscovered(e.found);
      } else if e.MdnsExpired? {
        crashed := true;
      } else {
        HandleConnectionEvent(e);
      }
    }

    /** The Kademlia arms of `handle_event`. */
    method HandleKademliaEvent(e: SwarmEvent)
      requires Valid() && !crashed && FromKademlia(e)
      modifies this
      ensures Valid()
      ensures crashed <==> old(EventPanics(e))
      ensures Ignored(e) ==> unchanged(this)
    {
      match e
      case StartProvidingProgressed(q) => OnStartProvidingProgressed(q);
      case RoutingUpdated(_, first) => OnRoutingUpdated(first);
      case FoundProviders(q, providers) => OnFoundProviders(q, providers);
      case FinishedWithNoAdditionalRecord(_) =>
      case OtherKademliaEvent =>
    }

    /** The request-response arms of `handle_event`. */
    method HandleRequestResponseEvent(e: SwarmEvent)
      requires Valid() && !crashed && FromRequestResponse(e)
      modifies this
      ensures Valid()
      ensures crashed <==> old(EventPanics(e))
      ensures Ignored(e) ==> unchanged(this)
    {
      match e
      case InboundRequestReceived(request, channel) => OnInboundRequest(request, channel);
      case ResponseReceived(id, response) => OnResponseReceived(id, response);
      case OutboundFailure(id, error) => OnOutboundFailure(id, error);
      case InboundFailure => crashed := true;
      case ResponseSent =>
    }

    /** The arms of `handle_event` for connection and listener events. */
    method HandleConnectionEvent(e: SwarmEvent)
      requires Valid() && !crashed
      requires !FromKademlia(e) && !FromRequestResponse(e) && !e.MdnsDiscovered? && !e.MdnsExpired?
      modifies this
      ensures Valid()
      ensures crashed <==> old(EventPanics(e))
      ensures Ignored(e) ==> unchanged(this)
    {
      match e
      case NewListenAddr(address) => OnNewListenAddr(address);
      case IncomingConnection =>
      case ConnectionEstablished(peer, dialer) => OnConnectionEstablished(peer, dialer);
      case ConnectionClosed(peer, remaining) => OnConnectionClosed(peer, remaining);
      case OutgoingConnectionError(failedPeer, error) => OnOutgoingConnectionError(failedPeer, error);
      case IncomingConnectionError =>
      case Dialing(p) => if p.None? { crashed := true; }
      case OtherSwarmEvent => crashed := true;
    }
  }

  // ---- scenarios ----------------------------------------------------------------

  /** A file request answered by the peer resolves the requester's channel with the data. */
  method RequestFileAnswered(local: PeerId, peer: PeerId, key: string, data: seq<Byte>)
    returns (replies: seq<Reply>, running: bool)
    ensures running && replies == [Reply(0, File(Ok(data)))]
  {
    var node := new EventLoop(local);
    node.HandleRequestFile(key, peer, 0);
    node.OnResponseReceived(0, data);
    replies, running := node.sent, !node.crashed;
  }

  /** A dial succeeds when the connection comes up on the dialing side; a connection on
      the listening side leaves the dial pending. */
  method DialResolvedByDialerOnly(local: PeerId, peer: PeerId, addr: Multiaddr)
    returns (afterListener: seq<Reply>, afterDialer: seq<Reply>, stillPending: bool)
    ensures afterListener == [] && stillPending
    ensures afterDialer == [Reply(0, Dialed(Ok(())))]
  {
    var node := new EventLoop(local);
    node.HandleDial(peer, addr, 0, Accepted);
    node.OnConnectionEstablished(peer, false);
    afterListener, stillPending := node.sent, peer in node.pendingDial;
    node.OnConnectionEstablished(peer, true);
    afterDialer := node.sent;
  }

  /** Dialing a peer twice keeps only the first reply channel; the second is dropped. */
  method DialTwice(local: PeerId, peer: PeerId, addr: Multiaddr)
    returns (pending: map<PeerId, ReplyId>, dials: nat)
    ensures pending == map[peer := 0] && dials == 1
  {
    var node := new EventLoop(local);
    node.HandleDial(peer, addr, 0, Accepted);
    node.HandleDial(peer, addr, 1, Accepted);
    pending, dials := node.pendingDial, |node.swarm.dials|;
  }

  /** A providers query that ends without finding any provider is never answered: its
      channel stays pending. */
  method GetProvidersWithoutProviders(local: PeerId, key: string)
    returns (replies: seq<Reply>, pending: map<QueryId, ReplyId>)
    ensures replies == [] && pending == map[0 := 0]
  {
    var node := new EventLoop(local);
    node.HandleGetProviders(key, 0);
    node.HandleEvent(FinishedWithNoAdditionalRecord(0));
    replies, pending := node.sent, node.pendingGetProviders;
  }

  /** As written: the response to a start-providing request has no pending entry, so
      the `expect` on the response arm panics and the event loop stops. */
  method StartProvidingRequestAnswered(local: PeerId, peer: PeerId, key: string, data: seq<Byte>)
    returns (crashed: bool)
    ensures crashed
  {
    var node := new EventLoop(local);
    node.HandleStartProvidingRequest(peer, key);
    node.HandleEvent(ResponseReceived(0, data));
    crashed := node.crashed;
  }

  /** Corrected: settling the same response with `ResolveRequestFile` reports it as
      unknown, answers nobody and leaves the loop running with its state intact. */
  method StartProvidingRequestAnsweredTolerated(local: PeerId, peer: PeerId, key: string, data: seq<Byte>)
    returns (unknown: bool, running: bool, replies: seq<Reply>)
    ensures unknown && running && replies == []
  {
    var node := new EventLoop(local);
    node.HandleStartProvidingRequest(peer, key);
    unknown := node.ResolveRequestFile(0, Ok(data));
    running, replies := !node.crashed, node.sent;
  }
}
