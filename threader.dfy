/** The state the network thread owns and the operations on it: one iteration of the send
    loop, the connection state machine, and the transport callbacks that feed the
    application's queues. The Riptide endpoints are replaced by `transportLog`, the calls
    made on them in order; the endpoints' events are methods the environment invokes. */
module Threader {
  import opened Transport
  import opened SendLoop
  import opened Dispatch
  import opened Address

  /** A handler subscribed to the client's `Connected` event: the one `StartServer`
      subscribes, or the one `ConnectToServer` subscribes. */
  datatype Handler = HostHandler | JoinHandler

  /** The action each handler enqueues when it runs. */
  function HandlerAction(h: Handler): (a: Action)
    ensures a.HostConnected? <==> h.HostHandler?
    ensures a.JoinConnected? <==> h.JoinHandler?
  {
    match h
    case HostHandler => HostConnected
    case JoinHandler => JoinConnected
  }

  /** The actions a sequence of handlers enqueues when run in order. */
  function HandlerActions(hs: seq<Handler>): seq<Action>
  {
    if hs == [] then [] else HandlerActions(hs[..|hs| - 1]) + [HandlerAction(hs[|hs| - 1])]
  }

  /** Running handlers in order enqueues one action per handler, in the same order. */
  lemma {:induction false} HandlerActionsPointwise(hs: seq<Handler>)
    ensures |HandlerActions(hs)| == |hs|
    ensures forall i :: 0 <= i < |hs| ==> HandlerActions(hs)[i] == HandlerAction(hs[i])
  {
    if hs != [] {
      var init := hs[..|hs| - 1];
      HandlerActionsPointwise(init);
      assert forall i :: 0 <= i < |init| ==> hs[i] == init[i];
    }
  }

  /** How many times `h` is subscribed in `hs`. */
  function Occurrences(hs: seq<Handler>, h: Handler): nat
  {
    if hs == [] then 0
    else Occurrences(hs[..|hs| - 1], h) + (if hs[|hs| - 1] == h then 1 else 0)
  }

  lemma {:induction false} OccurrencesIn(hs: seq<Handler>, h: Handler)
    ensures h in hs <==> Occurrences(hs, h) > 0
  {
    if hs != [] {
      assert hs == hs[..|hs| - 1] + [hs[|hs| - 1]];
      OccurrencesIn(hs[..|hs| - 1], h);
    }
  }

  lemma {:induction false} OccurrencesFront(h: Handler, hs: seq<Handler>, g: Handler)
    ensures Occurrences([h] + hs, g) == (if h == g then 1 else 0) + Occurrences(hs, g)
  {
    if hs != [] {
      assert ([h] + hs)[..|hs|] == [h] + hs[..|hs| - 1];
      OccurrencesFront(h, hs[..|hs| - 1], g);
    } else {
      assert [h] + hs == [h];
    }
  }

  /** A subscription list after `-=`: one occurrence of `h` (the last) is removed, every
      other handler keeps its count, and the list is unchanged when `h` is not subscribed. */
  function RemoveLast(hs: seq<Handler>, h: Handler): (r: seq<Handler>)
    ensures h in hs ==> Occurrences(r, h) == Occurrences(hs, h) - 1
    ensures forall g :: g != h ==> Occurrences(r, g) == Occurrences(hs, g)
    ensures h !in hs ==> r == hs
  {
    if hs == [] then []
    else
      assert hs == hs[..|hs| - 1] + [hs[|hs| - 1]];
      if hs[|hs| - 1] == h then hs[..|hs| - 1]
      else
        var r := RemoveLast(hs[..|hs| - 1], h) + [hs[|hs| - 1]];
        assert r[..|r| - 1] == RemoveLast(hs[..|hs| - 1], h);
        r
  }

  /** The transport calls `Disconnect` makes from a given pair of flags: stop the server
      if it is running, then disconnect the client if it is connected. */
  function DisconnectCalls(serverRunning: bool, clientConnected: bool): (r: seq<Call>)
    ensures ServerStop in r <==> serverRunning
    ensures ClientDisconnect in r <==> clientConnected
    ensures |r| == (if serverRunning then 1 else 0) + (if clientConnected then 1 else 0)
    ensures serverRunning && clientConnected ==> r == [ServerStop, ClientDisconnect]
  {
    (if serverRunning then [ServerStop] else []) + (if clientConnected then [ClientDisconnect] else [])
  }

  /** The FIFO relation between a transport log, the two outbound queues and what was ever
      enqueued on them: what the endpoint was asked to send, followed by what is still
      queued, is exactly what was enqueued, in enqueue order. */
  ghost predicate Fifo(log: seq<Call>, clientQueue: seq<ClientEntry>, clientEnqueued: seq<ClientEntry>,
                       serverQueue: seq<ServerEntry>, serverEnqueued: seq<ServerEntry>,
                       serverDequeued: seq<ServerEntry>)
  {
    ClientFifo(log, clientQueue, clientEnqueued) && ServerFifo(log, serverQueue, serverEnqueued, serverDequeued)
  }

  ghost predicate ClientFifo(log: seq<Call>, clientQueue: seq<ClientEntry>, clientEnqueued: seq<ClientEntry>)
  {
    ClientSent(log) + clientQueue == clientEnqueued
  }

  ghost predicate ServerFifo(log: seq<Call>, serverQueue: seq<ServerEntry>, serverEnqueued: seq<ServerEntry>,
                             serverDequeued: seq<ServerEntry>)
  {
    serverDequeued + serverQueue == serverEnqueued && ServerSent(log) == ServerCalls(serverDequeued)
  }

  /** Sending the client queue's head keeps the FIFO relation, the head moving from the
      queue into the log. */
  lemma ClientHeadKeepsFifo(log: seq<Call>, clientQueue: seq<ClientEntry>, clientEnqueued: seq<ClientEntry>,
                            serverQueue: seq<ServerEntry>, serverEnqueued: seq<ServerEntry>,
                            serverDequeued: seq<ServerEntry>)
    requires Fifo(log, clientQueue, clientEnqueued, serverQueue, serverEnqueued, serverDequeued)
    ensures Fifo(log + ClientPart(clientQueue), Drop(clientQueue, 1), clientEnqueued,
                 serverQueue, serverEnqueued, serverDequeued)
  {
    var part := ClientPart(clientQueue);
    ClientPartSent(clientQueue);
    ClientSentAppend(log, part);
    ServerSentAppend(log, part);
    TakeDrop(clientQueue, 1);
    AppendAssoc(ClientSent(log), Take(clientQueue, 1), Drop(clientQueue, 1));
  }

  /** Sending the server queue's head keeps the FIFO relation, the head moving from the
      queue to the dequeued entries. */
  lemma ServerHeadKeepsFifo(log: seq<Call>, clientQueue: seq<ClientEntry>, clientEnqueued: seq<ClientEntry>,
                            serverQueue: seq<ServerEntry>, serverEnqueued: seq<ServerEntry>,
                            serverDequeued: seq<ServerEntry>)
    requires Fifo(log, clientQueue, clientEnqueued, serverQueue, serverEnqueued, serverDequeued)
    ensures Fifo(log + ServerPart(serverQueue), clientQueue, clientEnqueued,
                 Drop(serverQueue, 1), serverEnqueued, serverDequeued + Take(serverQueue, 1))
  {
    var part := ServerPart(serverQueue);
    ServerPartSent(serverQueue);
    ClientSentAppend(log, part);
    ServerSentAppend(log, part);
    ServerCallsAppend(serverDequeued, Take(serverQueue, 1));
    TakeDrop(serverQueue, 1);
    AppendAssoc(serverDequeued, Take(serverQueue, 1), Drop(serverQueue, 1));
  }

  /** Appending calls that make no send keeps the FIFO relation. */
  lemma SilentKeepsFifo(log: seq<Call>, extra: seq<Call>, clientQueue: seq<ClientEntry>,
                        clientEnqueued: seq<ClientEntry>, serverQueue: seq<ServerEntry>,
                        serverEnqueued: seq<ServerEntry>, serverDequeued: seq<ServerEntry>)
    requires Fifo(log, clientQueue, clientEnqueued, serverQueue, serverEnqueued, serverDequeued)
    requires forall c :: c in extra ==> !c.ClientSend? && !IsServerSend(c)
    ensures Fifo(log + extra, clientQueue, clientEnqueued, serverQueue, serverEnqueued, serverDequeued)
  {
    SilentCalls(log, extra);
    assert ClientSent(log + extra) == ClientSent(log);
    assert ServerSent(log + extra) == ServerSent(log);
  }

  class RiptideThreader {
    var clientSendQueue: seq<ClientEntry>
    var serverSendQueue: seq<ServerEntry>
    /** The calls made on the client and server endpoints, oldest first. */
    var transportLog: seq<Call>
    var isServerRunning: bool
    var isClientConnected: bool
    /** The handlers subscribed to the client's `Connected` event, in subscription order. */
    var connectedHandlers: seq<Handler>
    /** The application's message queue. */
    var messageQueue: seq<Received>
    /** The application's action queue (only what this component enqueues). */
    var actionQueue: seq<Action>

    /** Every client entry ever enqueued, and every server entry ever enqueued or dequeued. */
    ghost var clientEnqueued: seq<ClientEntry>
    ghost var serverEnqueued: seq<ServerEntry>
    ghost var serverDequeued: seq<ServerEntry>

    /** The object invariant. The server is never marked running without the client being
        marked connected. Each outbound queue is FIFO without loss or duplication: what the
        endpoint was asked to send, followed by what is still queued, is exactly what was
        enqueued, in enqueue order. */
    ghost predicate Valid()
      reads this
    {
      (isServerRunning ==> isClientConnected) && QueuesValid()
    }

    ghost predicate QueuesValid()
      reads this`transportLog, this`clientSendQueue, this`clientEnqueued
      reads this`serverSendQueue, this`serverEnqueued, this`serverDequeued
    {
      Fifo(transportLog, clientSendQueue, clientEnqueued, serverSendQueue, serverEnqueued, serverDequeued)
    }

    /** The state before any operation: empty queues, nothing called, both flags false. */
    constructor ()
      ensures Valid()
      ensures clientSendQueue == [] && serverSendQueue == [] && transportLog == []
      ensures !isServerRunning && !isClientConnected && connectedHandlers == []
      ensures messageQueue == [] && actionQueue == []
      ensures clientEnqueued == [] && serverEnqueued == []
    {
      clientSendQueue, serverSendQueue, transportLog := [], [], [];
      isServerRunning, isClientConnected, connectedHandlers := false, false, [];
      messageQueue, actionQueue := [], [];
      clientEnqueued, serverEnqueued, serverDequeued := [], [], [];
    }

    /** A producer thread adds a message for the client endpoint to send. */
    method EnqueueClient(e: ClientEntry)
      requires Valid()
      modifies this`clientSendQueue, this`clientEnqueued
      ensures Valid()
      ensures clientSendQueue == old(clientSendQueue) + [e]
      ensures clientEnqueued == old(clientEnqueued) + [e]
    {
      clientSendQueue := clientSendQueue + [e];
      clientEnqueued := clientEnqueued + [e];
    }

    /** A producer thread adds a message for the server endpoint to send. */
    method EnqueueServer(e: ServerEntry)
      requires Valid()
      modifies this`serverSendQueue, this`serverEnqueued
      ensures Valid()
      ensures serverSendQueue == old(serverSendQueue) + [e]
      ensures serverEnqueued == old(serverEnqueued) + [e]
    {
      serverSendQueue := serverSendQueue + [e];
      serverEnqueued := serverEnqueued + [e];
    }

    /** The first half of a loop iteration: pop the client queue's head, if any, and send
        it through the client with its own mode. */
    method SendClientHead()
      requires Valid()
      modifies this`clientSendQueue, this`transportLog
      ensures Valid()
      ensures clientSendQueue == Drop(old(clientSendQueue), 1)
      ensures transportLog == old(transportLog) + ClientPart(old(clientSendQueue))
    {
      ghost var cq, log := clientSendQueue, transportLog;
      if |clientSendQueue| > 0 {
        var entry := clientSendQueue[0];
        clientSendQueue := clientSendQueue[1..];
        transportLog := transportLog + [ClientSend(entry.mode, entry.payload)];
      }
      ClientHeadKeepsFifo(log, cq, clientEnqueued, serverSendQueue, serverEnqueued, serverDequeued);
    }

    /** The second half: pop the server queue's head, if any, and broadcast it or send it
        to its target id, as its flag says. */
    method SendServerHead()
      requires Valid()
      modifies this`serverSendQueue, this`transportLog, this`serverDequeued
      ensures Valid()
      ensures serverSendQueue == Drop(old(serverSendQueue), 1)
      ensures transportLog == old(transportLog) + ServerPart(old(serverSendQueue))
      ensures serverDequeued == old(serverDequeued) + Take(old(serverSendQueue), 1)
    {
      ghost var sq, log := serverSendQueue, transportLog;
      if |serverSendQueue| > 0 {
        var entry := serverSendQueue[0];
        serverSendQueue := serverSendQueue[1..];
        if entry.broadcast {
          transportLog := transportLog + [ServerSendToAll(entry.mode, entry.payload)];
        } else {
          transportLog := transportLog + [ServerSend(entry.mode, entry.payload, entry.id)];
        }
        serverDequeued := serverDequeued + [entry];
        assert Take(sq, 1) == [entry];
      }
      ServerHeadKeepsFifo(log, clientSendQueue, clientEnqueued, sq, serverEnqueued, old(serverDequeued));
    }

    /** The end of an iteration: poll the client, then the server. */
    method PollEndpoints()
      requires Valid()
      modifies this`transportLog
      ensures Valid()
      ensures transportLog == old(transportLog) + [ClientUpdate, ServerUpdate]
    {
      transportLog := transportLog + [ClientUpdate];
      transportLog := transportLog + [ServerUpdate];
      assert transportLog == old(transportLog) + [ClientUpdate, ServerUpdate];
      SilentKeepsFifo(old(transportLog), [ClientUpdate, ServerUpdate],
                      clientSendQueue, clientEnqueued, serverSendQueue, serverEnqueued, serverDequeued);
    }

    /** One iteration of the network loop: send the client queue's head, send the server
        queue's head, poll both endpoints. */
    method Step()
      requires Valid()
      modifies this`clientSendQueue, this`serverSendQueue, this`transportLog, this`serverDequeued
      ensures Valid()
      ensures clientSendQueue == Drop(old(clientSendQueue), 1)
      ensures serverSendQueue == Drop(old(serverSendQueue), 1)
      ensures transportLog == old(transportLog) + StepCalls(old(clientSendQueue), old(serverSendQueue))
      ensures serverDequeued == old(serverDequeued) + Take(old(serverSendQueue), 1)
    {
      ghost var cq, sq, log := clientSendQueue, serverSendQueue, transportLog;
      SendClientHead();
      SendServerHead();
      PollEndpoints();
      assert transportLog == log + StepCalls(cq, sq) by {
        var c, s, p := ClientPart(cq), ServerPart(sq), [ClientUpdate, ServerUpdate];
        assert transportLog == log + c + s + p;
        AppendAssoc(log, c, s);
        AppendAssoc(log, c + s, p);
      }
    }

    /** `n` iterations of the network loop with no producer running meanwhile. */
    method RunSteps(n: nat)
      requires Valid()
      modifies this`clientSendQueue, this`serverSendQueue, this`transportLog, this`serverDequeued
      ensures Valid()
      ensures clientSendQueue == Drop(old(clientSendQueue), n)
      ensures serverSendQueue == Drop(old(serverSendQueue), n)
      ensures transportLog == old(transportLog) + RunCalls(old(clientSendQueue), old(serverSendQueue), n)
    {
      ghost var cq, sq, log := clientSendQueue, serverSendQueue, transportLog;
      var i := 0;
      while i < n
        invariant 0 <= i <= n
        invariant Valid()
        invariant clientSendQueue == Drop(cq, i)
        invariant serverSendQueue == Drop(sq, i)
        invariant transportLog == log + RunCalls(cq, sq, i)
      {
        ghost var before := transportLog;
        Step();
        assert clientSendQueue == Drop(cq, i + 1) by { DropDrop(cq, i); }
        assert serverSendQueue == Drop(sq, i + 1) by { DropDrop(sq, i); }
        assert transportLog == log + RunCalls(cq, sq, i + 1) by {
          var step := StepCalls(Drop(cq, i), Drop(sq, i));
          assert transportLog == before + step;
          assert RunCalls(cq, sq, i + 1) == RunCalls(cq, sq, i) + step;
          AppendAssoc(log, RunCalls(cq, sq, i), step);
        }
        i := i + 1;
      }
    }

    /** Start listening on port 7777 for up to 256 clients, subscribe the host handler to
        the client's `Connected` event, and connect the local client to the loopback
        address. */
    method StartServer()
      requires Valid()
      modifies this`transportLog, this`connectedHandlers
      ensures Valid()
      ensures transportLog == old(transportLog)
                              + [ServerStart(PORT, MAX_CLIENT_COUNT), ClientConnect(LOOPBACK, CONNECT_ATTEMPTS)]
      ensures connectedHandlers == old(connectedHandlers) + [HostHandler]
    {
      transportLog := transportLog + [ServerStart(PORT, MAX_CLIENT_COUNT)];
      connectedHandlers := connectedHandlers + [HostHandler];
      transportLog := transportLog + [ClientConnect(LOOPBACK, CONNECT_ATTEMPTS)];
      assert transportLog == old(transportLog) + [ServerStart(PORT, MAX_CLIENT_COUNT), ClientConnect(LOOPBACK, CONNECT_ATTEMPTS)];
      SilentKeepsFifo(old(transportLog), [ServerStart(PORT, MAX_CLIENT_COUNT), ClientConnect(LOOPBACK, CONNECT_ATTEMPTS)],
                     clientSendQueue, clientEnqueued, serverSendQueue, serverEnqueued, serverDequeued);
    }

    /** Subscribe the join handler and connect the client to the address chosen from
        `serverCode` (see `ConnectAddress`); `ipString` is computed and never used. */
    method ConnectToServer(serverCode: string, tryParse: string -> Option<string>, decode: string -> string)
      requires Valid()
      modifies this`transportLog, this`connectedHandlers
      ensures Valid()
      ensures transportLog == old(transportLog)
                              + [ClientConnect(ConnectAddress(serverCode, tryParse), CONNECT_ATTEMPTS)]
      ensures connectedHandlers == old(connectedHandlers) + [JoinHandler]
    {
      var ipString := IpString(serverCode, tryParse, decode);
      connectedHandlers := connectedHandlers + [JoinHandler];
      transportLog := transportLog + [ClientConnect(ConnectAddress(serverCode, tryParse), CONNECT_ATTEMPTS)];
      assert transportLog == old(transportLog) + [ClientConnect(ConnectAddress(serverCode, tryParse), CONNECT_ATTEMPTS)];
      SilentKeepsFifo(old(transportLog), [ClientConnect(ConnectAddress(serverCode, tryParse), CONNECT_ATTEMPTS)],
                     clientSendQueue, clientEnqueued, serverSendQueue, serverEnqueued, serverDequeued);
    }

    /** One subscribed handler runs: it unsubscribes itself, marks the client connected
        (and, for the host handler, the server running), and enqueues its action. */
    method RunHandler(h: Handler)
      requires Valid()
      requires h in connectedHandlers
      modifies this`connectedHandlers, this`isServerRunning, this`isClientConnected, this`actionQueue
      ensures Valid()
      ensures Occurrences(connectedHandlers, h) == Occurrences(old(connectedHandlers), h) - 1
      ensures forall g :: g != h ==> Occurrences(connectedHandlers, g) == Occurrences(old(connectedHandlers), g)
      ensures isServerRunning == (old(isServerRunning) || h == HostHandler)
      ensures isClientConnected
      ensures actionQueue == old(actionQueue) + [HandlerAction(h)]
    {
      connectedHandlers := RemoveLast(connectedHandlers, h);
      match h {
        case HostHandler =>
          isServerRunning := true;
          isClientConnected := true;
          actionQueue := actionQueue + [HostConnected];
        case JoinHandler =>
          isClientConnected := true;
          actionQueue := actionQueue + [JoinConnected];
      }
    }

    /** The client's `Connected` event fires: every subscribed handler runs once, in
        subscription order, and unsubscribes itself. */
    method OnConnected()
      requires Valid()
      modifies this`connectedHandlers, this`isServerRunning, this`isClientConnected, this`actionQueue
      ensures Valid()
      ensures connectedHandlers == []
      ensures isServerRunning == (old(isServerRunning) || HostHandler in old(connectedHandlers))
      ensures isClientConnected == (old(isClientConnected) || old(connectedHandlers) != [])
      ensures actionQueue == old(actionQueue) + HandlerActions(old(connectedHandlers))
    {
      var pending := connectedHandlers;
      ghost var done: seq<Handler> := [];
      while pending != []
        invariant Valid()
        invariant old(connectedHandlers) == done + pending
        invariant forall g :: Occurrences(connectedHandlers, g) == Occurrences(pending, g)
        invariant isServerRunning == (old(isServerRunning) || HostHandler in done)
        invariant isClientConnected == (old(isClientConnected) || done != [])
        invariant actionQueue == old(actionQueue) + HandlerActions(done)
        decreases |pending|
      {
        var h := pending[0];
        assert pending == [h] + pending[1..];
        assert forall g :: Occurrences(pending, g) == (if h == g then 1 else 0) + Occurrences(pending[1..], g) by {
          forall g { OccurrencesFront(h, pending[1..], g); }
        }
        assert h in connectedHandlers by {
          OccurrencesIn(connectedHandlers, h);
        }
        RunHandler(h);
        assert HostHandler in done + [h] <==> HostHandler in done || h == HostHandler;
        assert actionQueue == old(actionQueue) + HandlerActions(done + [h]) by {
          assert (done + [h])[..|done|] == done;
        }
        AppendAssoc(done, [h], pending[1..]);
        done, pending := done + [h], pending[1..];
      }
      assert done == done + pending == old(connectedHandlers);
      if connectedHandlers != [] {
        var g := connectedHandlers[|connectedHandlers| - 1];
        OccurrencesIn(connectedHandlers, g);
        assert false;
      }
    }

    /** Stop the server endpoint, whatever its state, and clear both flags. */
    method StopServer()
      requires Valid()
      modifies this`transportLog, this`isServerRunning, this`isClientConnected
      ensures Valid()
      ensures transportLog == old(transportLog) + [ServerStop]
      ensures !isServerRunning && !isClientConnected
    {
      transportLog := transportLog + [ServerStop];
      isServerRunning := false;
      isClientConnected := false;
      assert transportLog == old(transportLog) + [ServerStop];
      SilentKeepsFifo(old(transportLog), [ServerStop],
                     clientSendQueue, clientEnqueued, serverSendQueue, serverEnqueued, serverDequeued);
    }

    /** Stop the server only if it is marked running, disconnect the client only if it is
        marked connected, then clear both flags. */
    method Disconnect()
      requires Valid()
      modifies this`transportLog, this`isServerRunning, this`isClientConnected
      ensures Valid()
      ensures transportLog == old(transportLog) + DisconnectCalls(old(isServerRunning), old(isClientConnected))
      ensures !isServerRunning && !isClientConnected
    {
      if isServerRunning {
        transportLog := transportLog + [ServerStop];
      }
      if isClientConnected {
        transportLog := transportLog + [ClientDisconnect];
      }
      isClientConnected := false;
      isServerRunning := false;
      assert transportLog == old(transportLog) + DisconnectCalls(old(isServerRunning), old(isClientConnected));
      SilentKeepsFifo(old(transportLog), DisconnectCalls(old(isServerRunning), old(isClientConnected)),
                     clientSendQueue, clientEnqueued, serverSendQueue, serverEnqueued, serverDequeued);
    }

    /** The server endpoint received a message: its bytes go to the message queue marked
        as received by the server. */
    method OnServerReceives(payload: seq<byte>)
      requires Valid()
      modifies this`messageQueue
      ensures Valid()
      ensures messageQueue == old(messageQueue) + [Received(payload, true)]
    {
      messageQueue := messageQueue + [Received(payload, true)];
    }

    /** The client endpoint received a message: its bytes go to the message queue marked
        as received by the client. */
    method OnClientReceives(payload: seq<byte>)
      requires Valid()
      modifies this`messageQueue
      ensures Valid()
      ensures messageQueue == old(messageQueue) + [Received(payload, false)]
    {
      messageQueue := messageQueue + [Received(payload, false)];
    }

    /** The server endpoint saw connection `id` disconnect: the leave check is deferred to
        the application's action queue. */
    method OnClientDisconnected(id: ushort)
      requires Valid()
      modifies this`actionQueue
      ensures Valid()
      ensures actionQueue == old(actionQueue) + [PeerLeft(id)]
    {
      actionQueue := actionQueue + [PeerLeft(id)];
    }

    /** The client endpoint was disconnected: the application is told on its action queue. */
    method OnDisconnected()
      requires Valid()
      modifies this`actionQueue
      ensures Valid()
      ensures actionQueue == old(actionQueue) + [LocalDisconnected]
    {
      actionQueue := actionQueue + [LocalDisconnected];
    }
  }

  /** Three client messages with modes Unreliable, Reliable, Unreliable are enqueued before
      the loop runs; three iterations send all three, in order, with their modes. */
  method ThreeMessagesInOrder(p1: seq<byte>, p2: seq<byte>, p3: seq<byte>) returns (sent: seq<ClientEntry>)
    ensures sent == [ClientEntry(p1, Unreliable), ClientEntry(p2, Reliable), ClientEntry(p3, Unreliable)]
  {
    var t := new RiptideThreader();
    t.EnqueueClient(ClientEntry(p1, Unreliable));
    t.EnqueueClient(ClientEntry(p2, Reliable));
    t.EnqueueClient(ClientEntry(p3, Unreliable));
    ghost var queued := t.clientSendQueue;
    assert queued == [ClientEntry(p1, Unreliable), ClientEntry(p2, Reliable), ClientEntry(p3, Unreliable)];
    t.RunSteps(3);
    assert t.transportLog == RunCalls(queued, [], 3);
    ClientDelivery(queued, [], 3);
    sent := ClientSent(t.transportLog);
  }

  /** From any state with no handler subscribed: starting a server, completing the local
      connection and stopping it again makes exactly the start, connect and stop calls,
      leaves both flags false and no handler subscribed, and leaves both queues alone. */
  method StartThenStop(t: RiptideThreader)
    requires t.Valid() && t.connectedHandlers == []
    modifies t`transportLog, t`connectedHandlers, t`isServerRunning, t`isClientConnected, t`actionQueue
    ensures t.Valid()
    ensures !t.isServerRunning && !t.isClientConnected && t.connectedHandlers == []
    ensures t.actionQueue == old(t.actionQueue) + [HostConnected]
    ensures t.transportLog == old(t.transportLog)
                              + [ServerStart(PORT, MAX_CLIENT_COUNT), ClientConnect(LOOPBACK, CONNECT_ATTEMPTS), ServerStop]
    ensures t.clientSendQueue == old(t.clientSendQueue) && t.serverSendQueue == old(t.serverSendQueue)
  {
    ghost var log := t.transportLog;
    t.StartServer();
    assert HandlerActions([HostHandler]) == [HostConnected] by {
      assert [HostHandler][..0] == [];
    }
    t.OnConnected();
    t.StopServer();
    AppendAssoc(log, [ServerStart(PORT, MAX_CLIENT_COUNT), ClientConnect(LOOPBACK, CONNECT_ATTEMPTS)], [ServerStop]);
  }

  /** `Disconnect` is idempotent: from any state, a second call makes no transport call,
      because the first one cleared both flags. */
  method DisconnectTwice(t: RiptideThreader)
    requires t.Valid()
    modifies t`transportLog, t`isServerRunning, t`isClientConnected
    ensures t.Valid()
    ensures !t.isServerRunning && !t.isClientConnected
    ensures t.transportLog == old(t.transportLog) + DisconnectCalls(old(t.isServerRunning), old(t.isClientConnected))
  {
    t.Disconnect();
    ghost var once := t.transportLog;
    t.Disconnect();
    assert t.transportLog == once + [];
  }

  /** The join handler runs once: from any state with no handler subscribed and no server
      running, the first `Connected` event enqueues the join action and marks the client
      connected, and a second one finds nothing subscribed. */
  method JoinHandlerFiresOnce(t: RiptideThreader, serverCode: string,
                              tryParse: string -> Option<string>, decode: string -> string)
    requires t.Valid() && t.connectedHandlers == [] && !t.isServerRunning
    modifies t`transportLog, t`connectedHandlers, t`isServerRunning, t`isClientConnected, t`actionQueue
    ensures t.Valid()
    ensures t.transportLog == old(t.transportLog) + [ClientConnect(ConnectAddress(serverCode, tryParse), CONNECT_ATTEMPTS)]
    ensures t.actionQueue == old(t.actionQueue) + [JoinConnected]
    ensures !t.isServerRunning && t.isClientConnected && t.connectedHandlers == []
  {
    t.ConnectToServer(serverCode, tryParse, decode);
    assert HandlerActions([JoinHandler]) == [JoinConnected] by {
      assert [JoinHandler][..0] == [];
    }
    t.OnConnected();
    t.OnConnected();
  }

  /** A burst of server-side disconnect reports, one `ClientDisconnected` event per id in
      `ids`, queues one leave action per report, in report order, and nothing else.
      `Dispatch.QueuedLeaveNotifiedOnce` then says what running that queue tells the
      application. */
  method ReportDisconnects(t: RiptideThreader, ids: seq<ushort>)
    requires t.Valid()
    modifies t`actionQueue
    ensures t.Valid()
    ensures t.actionQueue == old(t.actionQueue) + LeaveActions(ids)
  {
    var i := 0;
    while i < |ids|
      invariant 0 <= i <= |ids|
      invariant t.Valid()
      invariant t.actionQueue == old(t.actionQueue) + LeaveActions(ids[..i])
    {
      assert LeaveActions(ids[..i + 1]) == LeaveActions(ids[..i]) + [PeerLeft(ids[i])];
      AppendAssoc(old(t.actionQueue), LeaveActions(ids[..i]), [PeerLeft(ids[i])]);
      t.OnClientDisconnected(ids[i]);
      i := i + 1;
    }
    assert ids[..i] == ids;
  }
}
