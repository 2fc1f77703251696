/** What the network thread hands to the application: received payloads on the message
    queue, and deferred actions on the action queue. The application drains both on its
    own thread; an action reads the application's player registry only when it runs. */
module Dispatch {
  import opened Transport

  /** An entry of the application's message queue: the payload and whether it arrived at
      the server endpoint (true) or at the client endpoint (false). */
  datatype Received = Received(payload: seq<byte>, fromServer: bool)

  /** A closure the network thread puts on the application's action queue. */
  datatype Action =
    | PeerLeft(id: ushort)     // the server saw connection `id` disconnect
    | LocalDisconnected        // the client endpoint was disconnected
    | HostConnected            // the local client of a started server finished connecting
    | JoinConnected            // the client finished connecting to a remote server

  /** What running an action asks of the application. `SetLocalId` is the registration of
      the client's transport-assigned id as the local long id; `SetUsername` copies the
      player's name into the local player. */
  datatype Effect =
    | OnUserLeave(id: ushort)
    | SendDisconnect(id: ushort)
    | OnDisconnect
    | SetLocalId
    | SetUsername
    | OnStartServer
    | SendConnectionRequest

  /** The peer-leave filter: a disconnect of the local id, or of an id the registry no
      longer knows, is ignored; any other id makes the application drop the user and then
      tell everyone about the disconnect. */
  function LeaveEffects(id: ushort, localId: int, knownIds: set<int>): (r: seq<Effect>)
    ensures r == [] <==> (id as int == localId || id as int !in knownIds)
    ensures r != [] ==> r == [OnUserLeave(id), SendDisconnect(id)]
  {
    if id as int == localId then []
    else if id as int in knownIds then [OnUserLeave(id), SendDisconnect(id)]
    else []
  }

  /** The body of each closure the network thread enqueues, run against the registry's
      local id and known ids at the time the application runs it. */
  function ActionEffects(a: Action, localId: int, knownIds: set<int>): (r: seq<Effect>)
    ensures a.PeerLeft? ==> r == LeaveEffects(a.id, localId, knownIds)
    ensures a.HostConnected? ==> r == [SetLocalId, SetUsername, OnStartServer]
    ensures a.JoinConnected? ==> r == [SetLocalId, SetUsername, SendConnectionRequest]
    ensures a.LocalDisconnected? ==> r == [OnDisconnect]
  {
    match a
    case PeerLeft(id) => LeaveEffects(id, localId, knownIds)
    case LocalDisconnected => [OnDisconnect]
    case HostConnected => [SetLocalId, SetUsername, OnStartServer]
    case JoinConnected => [SetLocalId, SetUsername, SendConnectionRequest]
  }

  /** The known ids after a leave action ran: the application's `OnUserLeave` removes the
      departed user from the registry. */
  function KnownAfter(id: ushort, localId: int, knownIds: set<int>): (k: set<int>)
    ensures k <= knownIds
    ensures LeaveEffects(id, localId, knownIds) != [] ==> id as int !in k
    ensures forall x :: x in knownIds && x != id as int ==> x in k
  {
    if LeaveEffects(id, localId, knownIds) == [] then knownIds else knownIds - {id as int}
  }

  /** The effects of running, in order, the leave actions for a sequence of server-side
      disconnects. */
  function ProcessLeaves(ids: seq<ushort>, localId: int, knownIds: set<int>): seq<Effect>
  {
    if ids == [] then []
    else LeaveEffects(ids[0], localId, knownIds)
         + ProcessLeaves(ids[1..], localId, KnownAfter(ids[0], localId, knownIds))
  }

  /** How many times `e` occurs in `es`. */
  function Count(es: seq<Effect>, e: Effect): nat
  {
    if es == [] then 0 else (if es[0] == e then 1 else 0) + Count(es[1..], e)
  }

  lemma {:induction false} CountAppend(a: seq<Effect>, b: seq<Effect>, e: Effect)
    ensures Count(a + b, e) == Count(a, e) + Count(b, e)
  {
    if a == [] {
      assert a + b == b;
    } else {
      assert (a + b)[0] == a[0] && (a + b)[1..] == a[1..] + b;
      CountAppend(a[1..], b, e);
    }
  }

  lemma {:induction false} CountAbsent(es: seq<Effect>, e: Effect)
    requires e !in es
    ensures Count(es, e) == 0
  {
    if es != [] {
      assert forall i :: 0 <= i < |es[1..]| ==> es[1..][i] == es[i + 1];
      CountAbsent(es[1..], e);
    }
  }

  /** No duplicate leave notifications: however often connection `x` is reported as
      disconnected, the application is told that user `x` left once if `x` was a known id
      other than the local one and was reported at all, and never otherwise. */
  lemma {:induction false} LeaveNotifiedOnce(ids: seq<ushort>, localId: int, knownIds: set<int>, x: ushort)
    ensures Count(ProcessLeaves(ids, localId, knownIds), OnUserLeave(x))
            == if x as int != localId && x as int in knownIds && x in ids then 1 else 0
  {
    if ids != [] {
      var first := LeaveEffects(ids[0], localId, knownIds);
      var known' := KnownAfter(ids[0], localId, knownIds);
      CountAppend(first, ProcessLeaves(ids[1..], localId, known'), OnUserLeave(x));
      LeaveNotifiedOnce(ids[1..], localId, known', x);
      assert x in ids <==> x == ids[0] || x in ids[1..];
      if first != [] {
        assert Count(first, OnUserLeave(x)) == if ids[0] == x then 1 else 0 by {
          assert first == [OnUserLeave(ids[0]), SendDisconnect(ids[0])];
        }
      }
    }
  }

  /** The leave actions the server-side disconnect callback enqueues for a sequence of
      reported connection ids, in report order. */
  function LeaveActions(ids: seq<ushort>): (r: seq<Action>)
    ensures |r| == |ids|
    ensures forall i :: 0 <= i < |ids| ==> r[i] == PeerLeft(ids[i])
  {
    if ids == [] then [] else [PeerLeft(ids[0])] + LeaveActions(ids[1..])
  }

  /** The effects of the application running the closures of an action queue in order.
      A leave that took effect removes the departed id from the known ids before the next
      closure runs; every other closure is taken to leave the registry alone. */
  function RunActions(actions: seq<Action>, localId: int, knownIds: set<int>): seq<Effect>
  {
    if actions == [] then []
    else
      var a := actions[0];
      var known' := if a.PeerLeft? then KnownAfter(a.id, localId, knownIds) else knownIds;
      ActionEffects(a, localId, knownIds) + RunActions(actions[1..], localId, known')
  }

  /** Running the queued leave actions gives exactly the effects of processing their ids. */
  lemma {:induction false} RunLeaveActions(ids: seq<ushort>, localId: int, knownIds: set<int>)
    ensures RunActions(LeaveActions(ids), localId, knownIds) == ProcessLeaves(ids, localId, knownIds)
  {
    if ids != [] {
      var actions := LeaveActions(ids);
      assert actions[0] == PeerLeft(ids[0]);
      assert actions[1..] == LeaveActions(ids[1..]);
      RunLeaveActions(ids[1..], localId, KnownAfter(ids[0], localId, knownIds));
    }
  }

  /** A queue holding no leave action, such as the client-side disconnect notifications and
      the connect actions, never reports a peer as having left. */
  lemma {:induction false} NoLeaveWithoutPeerLeft(actions: seq<Action>, localId: int, knownIds: set<int>, x: ushort)
    requires forall i :: 0 <= i < |actions| ==> !actions[i].PeerLeft?
    ensures Count(RunActions(actions, localId, knownIds), OnUserLeave(x)) == 0
    ensures Count(RunActions(actions, localId, knownIds), SendDisconnect(x)) == 0
  {
    if actions != [] {
      var first := ActionEffects(actions[0], localId, knownIds);
      var rest := RunActions(actions[1..], localId, knownIds);
      assert forall i :: 0 <= i < |actions[1..]| ==> actions[1..][i] == actions[i + 1];
      NoLeaveWithoutPeerLeft(actions[1..], localId, knownIds, x);
      CountAbsent(first, OnUserLeave(x));
      CountAbsent(first, SendDisconnect(x));
      CountAppend(first, rest, OnUserLeave(x));
      CountAppend(first, rest, SendDisconnect(x));
    }
  }

  /** No duplicate leave notifications, stated on the action queue: however often the
      server reports connection `x` as disconnected, running the queued leave actions tells
      the application once that user `x` left if `x` was known and not local, and never
      otherwise. */
  lemma QueuedLeaveNotifiedOnce(ids: seq<ushort>, localId: int, knownIds: set<int>, x: ushort)
    ensures Count(RunActions(LeaveActions(ids), localId, knownIds), OnUserLeave(x))
            == if x as int != localId && x as int in knownIds && x in ids then 1 else 0
  {
    RunLeaveActions(ids, localId, knownIds);
    LeaveNotifiedOnce(ids, localId, knownIds, x);
  }
}
