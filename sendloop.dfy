/** The specification of the send half of the network loop: which transport calls one
    iteration makes for given queue contents, what n iterations make, and what the calls
    deliver to each endpoint. */
module SendLoop {
  import opened Transport

  /** The first `k` entries of a queue, or all of it when it is shorter. */
  function Take<T>(q: seq<T>, k: nat): seq<T>
  {
    if k <= |q| then q[..k] else q
  }

  /** What is left of a queue once its first `k` entries have been popped. */
  function Drop<T>(q: seq<T>, k: nat): seq<T>
  {
    if k <= |q| then q[k..] else []
  }

  lemma AppendAssoc<T>(a: seq<T>, b: seq<T>, c: seq<T>)
    ensures (a + b) + c == a + (b + c)
  {
  }

  /** Popping `k` entries splits a queue into the popped prefix and the rest. */
  lemma TakeDrop<T>(q: seq<T>, k: nat)
    ensures Take(q, k) + Drop(q, k) == q
  {
  }

  lemma DropDrop<T>(q: seq<T>, k: nat)
    ensures Drop(Drop(q, k), 1) == Drop(q, k + 1)
  {
  }

  lemma TakeStep<T>(q: seq<T>, k: nat)
    ensures Take(q, k) + Take(Drop(q, k), 1) == Take(q, k + 1)
  {
    if k < |q| {
      assert q[..k + 1] == q[..k] + [q[k]];
    }
  }

  /** The server call a dequeued server entry becomes. */
  function ServerCall(e: ServerEntry): (c: Call)
    ensures c.ServerSendToAll? <==> e.broadcast
    ensures c.ServerSend? <==> !e.broadcast
    ensures c.ServerSend? ==> c.to == e.id
    ensures c.mode == e.mode && c.payload == e.payload
  {
    if e.broadcast then ServerSendToAll(e.mode, e.payload) else ServerSend(e.mode, e.payload, e.id)
  }

  /** The server calls a sequence of dequeued server entries becomes, in order. */
  function ServerCalls(es: seq<ServerEntry>): (cs: seq<Call>)
    ensures |cs| == |es|
  {
    if es == [] then [] else [ServerCall(es[0])] + ServerCalls(es[1..])
  }

  lemma {:induction false} ServerCallsAppend(a: seq<ServerEntry>, b: seq<ServerEntry>)
    ensures ServerCalls(a + b) == ServerCalls(a) + ServerCalls(b)
  {
    if a == [] {
      assert a + b == b;
    } else {
      assert (a + b)[0] == a[0] && (a + b)[1..] == a[1..] + b;
      ServerCallsAppend(a[1..], b);
    }
  }

  lemma ServerCallsTakeStep(q: seq<ServerEntry>, k: nat)
    ensures ServerCalls(Take(q, k)) + ServerCalls(Take(Drop(q, k), 1)) == ServerCalls(Take(q, k + 1))
  {
    TakeStep(q, k);
    ServerCallsAppend(Take(q, k), Take(Drop(q, k), 1));
  }

  predicate IsServerSend(c: Call) { c.ServerSendToAll? || c.ServerSend? }

  predicate IsUpdate(c: Call) { c.ClientUpdate? || c.ServerUpdate? }

  /** The entries the client endpoint was asked to send, recovered from a transport log. */
  function ClientSent(calls: seq<Call>): (r: seq<ClientEntry>)
  {
    if calls == [] then []
    else
      (if calls[0].ClientSend? then [ClientEntry(calls[0].payload, calls[0].mode)] else [])
      + ClientSent(calls[1..])
  }

  lemma {:induction false} ClientSentAppend(a: seq<Call>, b: seq<Call>)
    ensures ClientSent(a + b) == ClientSent(a) + ClientSent(b)
  {
    if a == [] {
      assert a + b == b;
    } else {
      assert (a + b)[0] == a[0] && (a + b)[1..] == a[1..] + b;
      ClientSentAppend(a[1..], b);
    }
  }

  /** The sends made through the server endpoint, recovered from a transport log. */
  function ServerSent(calls: seq<Call>): (r: seq<Call>)
  {
    if calls == [] then []
    else (if IsServerSend(calls[0]) then [calls[0]] else []) + ServerSent(calls[1..])
  }

  lemma {:induction false} ServerSentAppend(a: seq<Call>, b: seq<Call>)
    ensures ServerSent(a + b) == ServerSent(a) + ServerSent(b)
  {
    if a == [] {
      assert a + b == b;
    } else {
      var head := if IsServerSend(a[0]) then [a[0]] else [];
      assert (a + b)[0] == a[0] && (a + b)[1..] == a[1..] + b;
      assert ServerSent(a + b) == head + ServerSent(a[1..] + b);
      ServerSentAppend(a[1..], b);
      assert ServerSent(a) == head + ServerSent(a[1..]);
    }
  }

  /** The polls of either endpoint, recovered from a transport log. */
  function Polls(calls: seq<Call>): (r: seq<Call>)
  {
    if calls == [] then []
    else (if IsUpdate(calls[0]) then [calls[0]] else []) + Polls(calls[1..])
  }

  lemma {:induction false} PollsAppend(a: seq<Call>, b: seq<Call>)
    ensures Polls(a + b) == Polls(a) + Polls(b)
  {
    if a == [] {
      assert a + b == b;
    } else {
      var head := if IsUpdate(a[0]) then [a[0]] else [];
      assert (a + b)[0] == a[0] && (a + b)[1..] == a[1..] + b;
      assert Polls(a + b) == head + Polls(a[1..] + b);
      PollsAppend(a[1..], b);
      assert Polls(a) == head + Polls(a[1..]);
    }
  }

  /** A log segment that makes no send leaves both send projections unchanged. */
  lemma SilentCalls(log: seq<Call>, extra: seq<Call>)
    requires forall c :: c in extra ==> !c.ClientSend? && !IsServerSend(c)
    ensures ClientSent(log + extra) == ClientSent(log)
    ensures ServerSent(log + extra) == ServerSent(log)
  {
    ClientSentAppend(log, extra);
    ServerSentAppend(log, extra);
    SilentProjections(extra);
  }

  lemma {:induction false} SilentProjections(extra: seq<Call>)
    requires forall c :: c in extra ==> !c.ClientSend? && !IsServerSend(c)
    ensures ClientSent(extra) == [] && ServerSent(extra) == []
  {
    if extra != [] {
      assert forall c :: c in extra[1..] ==> c in extra;
      SilentProjections(extra[1..]);
    }
  }

  /** The call that sends the client queue's head, if there is one. */
  function ClientPart(clientQueue: seq<ClientEntry>): seq<Call>
  {
    if clientQueue == [] then [] else [ClientSend(clientQueue[0].mode, clientQueue[0].payload)]
  }

  /** The call that sends the server queue's head, if there is one. */
  function ServerPart(serverQueue: seq<ServerEntry>): seq<Call>
  {
    if serverQueue == [] then [] else [ServerCall(serverQueue[0])]
  }

  /** The client half sends exactly the client queue's head through the client, and
      nothing through the server. */
  lemma ClientPartSent(clientQueue: seq<ClientEntry>)
    ensures ClientSent(ClientPart(clientQueue)) == Take(clientQueue, 1)
    ensures ServerSent(ClientPart(clientQueue)) == []
    ensures Polls(ClientPart(clientQueue)) == []
  {
    if clientQueue != [] {
      assert clientQueue[..1] == [clientQueue[0]];
    }
  }

  /** The server half sends exactly the server queue's head through the server, and
      nothing through the client. */
  lemma ServerPartSent(serverQueue: seq<ServerEntry>)
    ensures ServerSent(ServerPart(serverQueue)) == ServerCalls(Take(serverQueue, 1))
    ensures ClientSent(ServerPart(serverQueue)) == []
    ensures Polls(ServerPart(serverQueue)) == []
  {
    if serverQueue != [] {
      assert serverQueue[..1] == [serverQueue[0]];
    }
  }

  /** The calls one iteration of the network loop makes, given the two outbound queues:
      one client send for the client queue's head, one server send for the server
      queue's head, then a poll of the client and a poll of the server. */
  function StepCalls(clientQueue: seq<ClientEntry>, serverQueue: seq<ServerEntry>): seq<Call>
  {
    ClientPart(clientQueue) + ServerPart(serverQueue) + [ClientUpdate, ServerUpdate]
  }

  /** One iteration sends through the client exactly the client queue's head, if any. */
  lemma StepClientSent(clientQueue: seq<ClientEntry>, serverQueue: seq<ServerEntry>)
    ensures ClientSent(StepCalls(clientQueue, serverQueue)) == Take(clientQueue, 1)
  {
    var c, s, p := ClientPart(clientQueue), ServerPart(serverQueue), [ClientUpdate, ServerUpdate];
    assert ClientSent(c) == Take(clientQueue, 1) by { ClientPartSent(clientQueue); }
    assert ClientSent(s) == [] by { ServerPartSent(serverQueue); }
    assert ClientSent(p) == [];
    assert ClientSent(c + s) == ClientSent(c) + ClientSent(s) by { ClientSentAppend(c, s); }
    assert ClientSent(c + s + p) == ClientSent(c + s) + ClientSent(p) by { ClientSentAppend(c + s, p); }
  }

  /** One iteration sends through the server exactly the server queue's head, if any,
      as a broadcast or a targeted send according to its flag. */
  lemma StepServerSent(clientQueue: seq<ClientEntry>, serverQueue: seq<ServerEntry>)
    ensures ServerSent(StepCalls(clientQueue, serverQueue)) == ServerCalls(Take(serverQueue, 1))
  {
    var c, s, p := ClientPart(clientQueue), ServerPart(serverQueue), [ClientUpdate, ServerUpdate];
    assert ServerSent(s) == ServerCalls(Take(serverQueue, 1)) by { ServerPartSent(serverQueue); }
    assert ServerSent(c) == [] by { ClientPartSent(clientQueue); }
    assert ServerSent(p) == [];
    assert ServerSent(c + s) == ServerSent(c) + ServerSent(s) by { ServerSentAppend(c, s); }
    assert ServerSent(c + s + p) == ServerSent(c + s) + ServerSent(p) by { ServerSentAppend(c + s, p); }
  }

  /** One iteration polls the client once and then the server once, and both polls come
      after the sends. */
  lemma StepPolls(clientQueue: seq<ClientEntry>, serverQueue: seq<ServerEntry>)
    ensures Polls(StepCalls(clientQueue, serverQueue)) == [ClientUpdate, ServerUpdate]
    ensures var r := StepCalls(clientQueue, serverQueue);
            |r| >= 2 && r[|r| - 2] == ClientUpdate && r[|r| - 1] == ServerUpdate
  {
    var c, s, p := ClientPart(clientQueue), ServerPart(serverQueue), [ClientUpdate, ServerUpdate];
    assert Polls(c) == [] by { ClientPartSent(clientQueue); }
    assert Polls(s) == [] by { ServerPartSent(serverQueue); }
    assert Polls(p) == p;
    assert Polls(c + s) == Polls(c) + Polls(s) by { PollsAppend(c, s); }
    assert Polls(c + s + p) == Polls(c + s) + Polls(p) by { PollsAppend(c + s, p); }
  }

  /** The calls `n` iterations of the loop make when nothing is enqueued meanwhile. */
  function RunCalls(clientQueue: seq<ClientEntry>, serverQueue: seq<ServerEntry>, n: nat): seq<Call>
  {
    if n == 0 then []
    else RunCalls(clientQueue, serverQueue, n - 1)
         + StepCalls(Drop(clientQueue, n - 1), Drop(serverQueue, n - 1))
  }

  /** FIFO, no loss, no duplication on the client side: `n` iterations send exactly the
      first `n` client entries (all of them if there are fewer), in order, each with its
      own payload and delivery mode. */
  lemma {:induction false} ClientDelivery(clientQueue: seq<ClientEntry>, serverQueue: seq<ServerEntry>, n: nat)
    ensures ClientSent(RunCalls(clientQueue, serverQueue, n)) == Take(clientQueue, n)
  {
    if n > 0 {
      var before := RunCalls(clientQueue, serverQueue, n - 1);
      var step := StepCalls(Drop(clientQueue, n - 1), Drop(serverQueue, n - 1));
      assert ClientSent(before) == Take(clientQueue, n - 1) by {
        ClientDelivery(clientQueue, serverQueue, n - 1);
      }
      assert ClientSent(step) == Take(Drop(clientQueue, n - 1), 1) by {
        StepClientSent(Drop(clientQueue, n - 1), Drop(serverQueue, n - 1));
      }
      assert ClientSent(before + step) == ClientSent(before) + ClientSent(step) by {
        ClientSentAppend(before, step);
      }
      assert Take(clientQueue, n - 1) + Take(Drop(clientQueue, n - 1), 1) == Take(clientQueue, n) by {
        TakeStep(clientQueue, n - 1);
      }
    }
  }

  /** The same on the server side: `n` iterations make, in order, the server calls of the
      first `n` server entries, each a broadcast or a send to its own id as its flag says. */
  lemma {:induction false} ServerDelivery(clientQueue: seq<ClientEntry>, serverQueue: seq<ServerEntry>, n: nat)
    ensures ServerSent(RunCalls(clientQueue, serverQueue, n)) == ServerCalls(Take(serverQueue, n))
  {
    if n > 0 {
      var before := RunCalls(clientQueue, serverQueue, n - 1);
      var step := StepCalls(Drop(clientQueue, n - 1), Drop(serverQueue, n - 1));
      ServerDelivery(clientQueue, serverQueue, n - 1);
      assert ServerSent(step) == ServerCalls(Take(Drop(serverQueue, n - 1), 1)) by {
        StepServerSent(Drop(clientQueue, n - 1), Drop(serverQueue, n - 1));
      }
      assert ServerSent(before + step) == ServerSent(before) + ServerSent(step) by {
        ServerSentAppend(before, step);
      }
      assert ServerCalls(Take(serverQueue, n - 1)) + ServerCalls(Take(Drop(serverQueue, n - 1), 1))
          == ServerCalls(Take(serverQueue, n)) by {
        ServerCallsTakeStep(serverQueue, n - 1);
      }
    }
  }

  /** `n` rounds of polling: the client, then the server, `n` times. */
  function PollRounds(n: nat): (r: seq<Call>)
    ensures |r| == 2 * n
  {
    if n == 0 then [] else PollRounds(n - 1) + [ClientUpdate, ServerUpdate]
  }

  /** `n` iterations poll each endpoint exactly `n` times, alternating client and server,
      whether or not the queues held anything. */
  lemma {:induction false} PollDelivery(clientQueue: seq<ClientEntry>, serverQueue: seq<ServerEntry>, n: nat)
    ensures Polls(RunCalls(clientQueue, serverQueue, n)) == PollRounds(n)
  {
    if n > 0 {
      var before := RunCalls(clientQueue, serverQueue, n - 1);
      var step := StepCalls(Drop(clientQueue, n - 1), Drop(serverQueue, n - 1));
      PollDelivery(clientQueue, serverQueue, n - 1);
      assert Polls(step) == [ClientUpdate, ServerUpdate] by {
        StepPolls(Drop(clientQueue, n - 1), Drop(serverQueue, n - 1));
      }
      assert Polls(before + step) == Polls(before) + Polls(step) by { PollsAppend(before, step); }
    }
  }
}
