/** Values exchanged between the network thread and the Riptide transport library.
    The library itself is not modelled: every call the thread makes on the client or the
    server endpoint becomes one `Call` appended to an abstract transport log. */
module Transport {

  newtype byte = x: int | 0 <= x < 0x100

  /** C#'s `ushort`, the type of Riptide's connection ids. */
  newtype ushort = x: int | 0 <= x < 0x1_0000

  datatype Option<T> = None | Some(value: T)

  /** Riptide's `MessageSendMode`, restricted to the two modes the application uses. */
  datatype SendMode = Unreliable | Reliable

  /** An entry of `ClientSendQueue`: payload bytes and the delivery mode. */
  datatype ClientEntry = ClientEntry(payload: seq<byte>, mode: SendMode)

  /** An entry of `ServerSendQueue`: payload, mode, target connection id, broadcast flag. */
  datatype ServerEntry = ServerEntry(payload: seq<byte>, mode: SendMode, id: ushort, broadcast: bool)

  /** The port the server listens on and the local client connects to. */
  const PORT: ushort := 7777
  /** The maximum number of clients passed to `Server.Start`. */
  const MAX_CLIENT_COUNT: ushort := 256
  /** The number of connection attempts passed to `Client.Connect`. */
  const CONNECT_ATTEMPTS: nat := 5
  /** The loopback address `StartServer` connects its own client to. */
  const LOOPBACK: string := "127.0.0.1:7777"

  /** One call made by the network thread on a Riptide endpoint. */
  datatype Call =
    | ClientSend(mode: SendMode, payload: seq<byte>)
    | ServerSendToAll(mode: SendMode, payload: seq<byte>)
    | ServerSend(mode: SendMode, payload: seq<byte>, to: ushort)
    | ClientUpdate
    | ServerUpdate
    | ServerStart(port: ushort, maxClientCount: ushort)
    | ServerStop
    | ClientConnect(hostAddress: string, maxConnectionAttempts: nat)
    | ClientDisconnect
}
