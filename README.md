# RiptideThreader, modelled in Dafny

`RiptideThreader` is the network thread of a Riptide-based multiplayer layer. It owns a
Riptide client and a Riptide server. It drains two outbound queues, one for each endpoint,
and polls both endpoints in a loop. It starts and stops a local server and connects to a
remote one. It runs a one-shot handler when the client's `Connected` event fires. It also
turns the transport's callbacks into entries on the application's message queue and
action queue.

The Riptide library is not modelled. Every call the thread makes on an endpoint (a send, a
poll, a start, a stop, a connect, a disconnect) is appended as one `Transport.Call` to an
abstract transport log. The endpoints' events (`Connected`, `MessageReceived`,
`ClientDisconnected`, `Disconnected`) are methods that the environment invokes.

Modules:

- `Transport`: queue entries, the `Call` log alphabet, and the constants `7777`, `256`,
  `5` and `"127.0.0.1:7777"`.
- `SendLoop`: the specification of the send loop.
  - `StepCalls` gives the calls of one iteration; `RunCalls` gives the calls of `n`
    iterations.
  - The projections `ClientSent`, `ServerSent` and `Polls` recover what each endpoint was
    asked to do.
  - The delivery lemmas prove FIFO order, no loss, no duplication, mode preservation and
    polling.
- `Dispatch`: the closures put on the action queue, what running them asks of the
  application (`Effect`), and the peer-leave filter.
- `Address`: the connect address that `ConnectToServer` builds.
- `Threader`: the class `RiptideThreader` with all mutable state.
  - Its invariant `Valid()` says that the server flag implies the client flag, and that
    each outbound queue is FIFO against ghost records of everything ever enqueued.
  - The module ends with scenario methods.

The connect address is modelled as the code builds it. When the server code is not a
literal IP address, `ConnectToServer` decodes it into `ipString`
(`RiptideThreader.cs:193-196`), but `ipString` is never used afterwards. Line 199 formats
the out-variable of `IPAddress.TryParse` instead. That variable is null when parsing fails,
so the client then connects to `":7777"`. `Address.ConnectAddress` models the string line
199 builds, and `Address.CodesShareTarget` states the consequence: any two codes that do
not parse connect to the same address.

## Model

| member | source | states |
|---|---|---|
| SendLoop.ServerCall | Network/Riptide/RiptideThreader.cs:70-83 | a dequeued server entry becomes `SendToAll` exactly when its broadcast flag is set, and otherwise a `Send` to exactly the entry's id; mode and payload are preserved |
| SendLoop.StepClientSent | Network/Riptide/RiptideThreader.cs:59-67 | one iteration sends through the client exactly the client queue's head, and nothing when that queue is empty |
| SendLoop.StepServerSent | Network/Riptide/RiptideThreader.cs:70-84 | one iteration sends through the server exactly the server call for the server queue's head, and nothing when that queue is empty |
| SendLoop.StepPolls | Network/Riptide/RiptideThreader.cs:86-87 | every iteration polls the client and then the server exactly once, as its last two calls, whether or not anything was dequeued |
| SendLoop.ClientDelivery | Network/Riptide/RiptideThreader.cs:59-67 | `n` iterations send through the client exactly the first `n` client entries (all of them if fewer), in order, each once, with its own mode |
| SendLoop.ServerDelivery | Network/Riptide/RiptideThreader.cs:70-84 | `n` iterations make, in order, the server calls of exactly the first `n` server entries |
| SendLoop.PollDelivery | Network/Riptide/RiptideThreader.cs:86-87 | `n` iterations poll client then server, `n` times alternating |
| Threader.RiptideThreader.EnqueueClient | Network/Riptide/RiptideThreader.cs:49 | a producer appends an entry at the tail of the client queue; the FIFO invariant is kept |
| Threader.RiptideThreader.EnqueueServer | Network/Riptide/RiptideThreader.cs:50 | a producer appends an entry at the tail of the server queue; the FIFO invariant is kept |
| Threader.RiptideThreader.SendClientHead | Network/Riptide/RiptideThreader.cs:59-68 | pops at most the client queue's head and logs its send; the rest of the queue is unchanged |
| Threader.RiptideThreader.SendServerHead | Network/Riptide/RiptideThreader.cs:70-84 | pops at most the server queue's head and logs its broadcast or targeted send; the rest of the queue is unchanged |
| Threader.RiptideThreader.PollEndpoints | Network/Riptide/RiptideThreader.cs:86-87 | polls the client, then the server |
| Threader.RiptideThreader.Step | Network/Riptide/RiptideThreader.cs:59-87 | one loop iteration: each queue loses at most its head, the log grows by `StepCalls` of the old queues, and the FIFO invariant is kept |
| Threader.RiptideThreader.RunSteps | Network/Riptide/RiptideThreader.cs:57-88 | `n` iterations with no producer running: each queue loses its first `n` entries, the log grows by `RunCalls`, and the FIFO invariant is kept |
| Threader.RemoveLast | Network/Riptide/RiptideThreader.cs:159 | `Connected -= OnConnect` removes one occurrence of the handler and leaves every other handler's count unchanged; it does nothing when the handler is not subscribed |
| Threader.HandlerAction | Network/Riptide/RiptideThreader.cs:164-170 | the host handler enqueues the host action and the join handler the join action |
| Threader.HandlerActionsPointwise | Network/Riptide/RiptideThreader.cs:157-171 | running the subscribed handlers in order enqueues one action per handler, in the same order |
| Threader.RiptideThreader.StartServer | Network/Riptide/RiptideThreader.cs:144-174 | starts the server on port 7777 for 256 clients, subscribes the host handler, then connects the client to `127.0.0.1:7777` with 5 attempts |
| Threader.RiptideThreader.ConnectToServer | Network/Riptide/RiptideThreader.cs:187-216 | subscribes the join handler and connects with 5 attempts to the address `ConnectAddress` builds, which does not depend on the decoder |
| Threader.RiptideThreader.RunHandler | Network/Riptide/RiptideThreader.cs:157-214 | a handler unsubscribes itself, sets the client flag (and the server flag for the host handler, leaving it unchanged otherwise), and enqueues its action |
| Threader.RiptideThreader.OnConnected | Network/Riptide/RiptideThreader.cs:201-214 | a `Connected` event runs every subscribed handler once, in order: afterwards nothing is subscribed, the server flag is set exactly when a host handler was, the client flag exactly when any handler was, and their actions are enqueued in order |
| Threader.RiptideThreader.StopServer | Network/Riptide/RiptideThreader.cs:176-185 | always logs a server `Stop`; afterwards both flags are false |
| Threader.DisconnectCalls | Network/Riptide/RiptideThreader.cs:224-227 | `Disconnect` stops the server exactly when the server flag is set and disconnects the client exactly when the client flag is set, in that order |
| Threader.RiptideThreader.Disconnect | Network/Riptide/RiptideThreader.cs:218-233 | makes the calls `DisconnectCalls` gives for the old flags; afterwards both flags are false from any state |
| Threader.DisconnectTwice | Network/Riptide/RiptideThreader.cs:218-233 | `Disconnect` is idempotent: a second call makes no transport call |
| Threader.StartThenStop | Network/Riptide/RiptideThreader.cs:144-185 | start, connect event, stop: exactly the start, connect and stop calls, the host action once, both flags false, nothing subscribed, queues untouched |
| Threader.JoinHandlerFiresOnce | Network/Riptide/RiptideThreader.cs:198-214 | the join handler fires once: after two `Connected` events the join action is enqueued once, the client flag is set and the server flag is still clear |
| Threader.ThreeMessagesInOrder | Network/Riptide/RiptideThreader.cs:59-67 | three client messages queued with modes Unreliable, Reliable, Unreliable are sent in that order with those modes by three iterations |
| Threader.RiptideThreader.OnServerReceives | Network/Riptide/RiptideThreader.cs:235-238 | a payload received by the server is appended at the tail of the message queue with origin `true` |
| Threader.RiptideThreader.OnClientReceives | Network/Riptide/RiptideThreader.cs:240-243 | a payload received by the client is appended at the tail of the message queue with origin `false` |
| Threader.RiptideThreader.OnClientDisconnected | Network/Riptide/RiptideThreader.cs:109-128 | a server-side disconnect enqueues the deferred leave check for that id |
| Threader.RiptideThreader.OnDisconnected | Network/Riptide/RiptideThreader.cs:130-133 | a client-side disconnect enqueues the deferred `OnDisconnect` notification |
| Dispatch.LeaveEffects | Network/Riptide/RiptideThreader.cs:115-126 | a leave for the local id, or for an id the registry does not know, has no effect; any other id gives exactly `OnUserLeave(id)` followed by `SendDisconnect(id)` |
| Dispatch.ActionEffects | Network/Riptide/RiptideThreader.cs:113-213 | the closures' effects: the leave check (113-126), `OnDisconnect` (130-133), and set id, set name, then start the server (164-170) or request the connection (207-213) |
| Dispatch.KnownAfter | Network/Riptide/RiptideThreader.cs:119-122 | encodes the assumed registry effect of `OnUserLeave`: a leave that took effect removes that id from the known ids and keeps every other id |
| Dispatch.LeaveNotifiedOnce | Network/Riptide/RiptideThreader.cs:113-126 | however many disconnects are reported for an id, the application is told once that the user left when the id is known and not local, and never otherwise |
| Dispatch.RunLeaveActions | Network/Riptide/RiptideThreader.cs:109-128 | running the leave actions that `ClientDisconnected` events queue gives exactly the effects of processing their ids in order |
| Dispatch.NoLeaveWithoutPeerLeft | Network/Riptide/RiptideThreader.cs:130-133 | a queue without leave actions, such as the client-side disconnect notifications and the connect actions, never tells the application that a user left and never sends a disconnect |
| Dispatch.QueuedLeaveNotifiedOnce | Network/Riptide/RiptideThreader.cs:109-128 | running the queued leave actions for any burst of reports tells the application once that a known, non-local user left, and never otherwise |
| Threader.ReportDisconnects | Network/Riptide/RiptideThreader.cs:109-128 | one `ClientDisconnected` event per reported id appends exactly one leave action per report to the action queue, in report order |
| Address.IpString | Network/Riptide/RiptideThreader.cs:191-196 | `ipString` is the code itself when it parses as an address, otherwise the decoder's result |
| Address.ConnectAddress | Network/Riptide/RiptideThreader.cs:193-199 | the connect string is the parsed address followed by `:7777` when the code parses, and `":7777"` otherwise |
| Address.CodesShareTarget | Network/Riptide/RiptideThreader.cs:193-199 | any two server codes that do not parse as addresses make the client connect to the same address, whatever they decode to |

## Left out

- The thread itself is not modelled: `StartThread`, `KillThread`, the `_isThreadAlive` run
  flag and the unbounded `while` loop. `RunSteps` iterates the loop body a given number of
  times with no producer running in between. Interleaving with producers is covered only
  because `EnqueueClient`/`EnqueueServer` and `Step` each keep the FIFO invariant.
- The `lock` statements, and locking on an endpoint that `DeinitializeRiptide` has set to
  null, are not modelled. They are concurrency concerns, and the model is sequential.
- `InitalizeRiptide` (creating the endpoints, subscribing the callbacks) and
  `DeinitializeRiptide` are not modelled. The callbacks are methods of the class, always
  subscribed.
- Riptide internals are not modelled: `Message.Create(mode, 0)` and `AddBytes`, the extra
  arguments of `Start` and `Connect`, connection retries and timeouts, and what `Update`
  does. Each call is one log entry carrying the arguments the thread chooses.
- `Transport.SendMode` has only the two modes the application uses, `Unreliable` and
  `Reliable`.
- `IPAddress.TryParse` and `IPUtils.DecodeIPAddress` are foreign code. They are passed in as
  functions: `tryParse` returns the textual form of the parsed address.
- Logging (`MelonLogger`, `RiptideLogger`) is not modelled.
- The application's collaborators are not modelled: `PlayerIdManager`, `LocalPlayer`,
  `InternalServerHelpers` and `ConnectionSender`. The closures on the action queue are
  modelled by the effects they request (`Dispatch.ActionEffects`). The registry's local id
  and known ids are parameters of the closure body, not fields of the class. This is
  because the closure reads them when the application runs it, not when the transport
  callback fires.
- The application's own loop over the action queue is not modelled. `Dispatch.RunActions`
  runs queued closures in order under assumptions about `OnUserLeave`, whose code is not
  part of this model. It is assumed to remove the departed id from the registry and no
  other id (`Dispatch.KnownAfter`). Nothing else is assumed to change the registry between
  the closures: no join, no `OnDisconnect`, and no new local id from the connect closures.
- The network loop (lines 57-88) has no `try`/`catch`. An exception from `Message.Create`,
  `AddBytes`, `Send`, `SendToAll` or `Update` ends the thread and stops all sending and
  polling. The model's `Step` cannot fail, so that outcome is not represented.
- Queue payloads are `byte[]` references shared with the producer (lines 49-50, 61, 72). A
  producer that changes the array after enqueueing changes what is later sent. The model's
  payload is a `seq<byte>` value, fixed when the entry is enqueued, so that aliasing is
  not captured.
- Whether the client flag is set is not tied to the transport's real connection state.
  Like the code, the model trusts the flags.
