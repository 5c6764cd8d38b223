/**
 * The gateway as the source runs it: the sshConnections map and the
 * effects performed so far are fields, and every WebSocket or ssh2 event is
 * a method that updates them in place. Each method leaves exactly the state
 * that the matching function of module Sessions computes from the old one,
 * and keeps the invariant Sessions.Valid.
 */
module Server {
  import opened Wrappers
  import opened Target
  import opened Router
  import Sanitizer
  import opened Sessions

  class Gateway {
    /** sshConnections: channel to {client, stream}. */
    var registry: map<Channel, Entry>
    /** The channel, user and host each ssh2 client's handlers were created with. */
    var clients: map<ClientId, Session>
    /** The client each shell stream came from. */
    var streams: map<StreamId, ClientId>
    /** The number of the next ssh2 object. */
    var nextId: nat
    /** Every ws.send and every call into ssh2, in order. */
    var trace: seq<Effect>

    ghost function Snapshot(): State
      reads this
    {
      State(registry, clients, streams, nextId, trace)
    }

    ghost predicate Valid()
      reads this
    {
      Sessions.Valid(Snapshot())
    }

    constructor ()
      ensures Valid() && Snapshot() == Init()
    {
      registry, clients, streams, nextId, trace := map[], map[], map[], 0, [];
    }

    /** ws.send on channel `ch`. */
    method Send(ch: Channel, text: string)
      requires Valid()
      modifies this
      ensures Valid() && Snapshot() == Emit(old(Snapshot()), Sent(ch, text))
    {
      EmitPreservesValid(Snapshot(), Sent(ch, text));
      trace := trace + [Sent(ch, text)];
    }

    /** disconnectSSH. */
    method DisconnectSSH(ch: Channel)
      requires Valid()
      modifies this
      ensures Valid() && Snapshot() == Disconnect(old(Snapshot()), ch)
    {
      DisconnectPreservesValid(Snapshot(), ch);
      if ch in registry {
        var connection := registry[ch];
        trace := trace + [StreamEnd(connection.stream)];
        trace := trace + [ClientEnd(connection.client)];
        registry := registry - {ch};
      }
    }

    /**
     * connectSSH. A missing hostname makes `hostname.includes` throw after
     * the teardown; `threw` reports that to the message handler.
     */
    method ConnectSSH(ch: Channel, hostname: Option<string>, password: Option<string>) returns (threw: bool)
      requires Valid()
      modifies this
      ensures Valid()
      ensures threw <==> hostname.None?
      ensures Snapshot() == if hostname.Some? then Connect(old(Snapshot()), ch, hostname.value, password)
                            else Disconnect(old(Snapshot()), ch)
    {
      ghost var st := Snapshot();
      DisconnectSSH(ch);
      if hostname.None? {
        return true;
      }
      var target := SplitTarget(hostname.value);
      Send(ch, ConnectingBanner(target));
      var client := ClientId(nextId);
      nextId := nextId + 1;
      clients := clients[client := Session(ch, target.username, target.host)];
      var config := MakeConfig(target, password);
      trace := trace + [ClientConnect(client, config)];
      threw := false;
      ConnectPreservesValid(st, ch, hostname.value, password);
    }

    /** sendSSHInput. */
    method SendSSHInput(ch: Channel, command: Option<string>)
      requires Valid()
      modifies this
      ensures Valid() && Snapshot() == Input(old(Snapshot()), ch, command)
    {
      if ch in registry {
        var connection := registry[ch];
        EmitPreservesValid(Snapshot(), StreamWrite(connection.stream, CommandLine(command)));
        trace := trace + [StreamWrite(connection.stream, CommandLine(command))];
      } else {
        Send(ch, NoConnection);
      }
    }

    /** The WebSocket `message` handler, its try and its catch. */
    method OnMessage(ch: Channel, raw: string, rawIsString: bool, parsed: ParseResult)
      requires Valid()
      modifies this
      ensures Valid() && Snapshot() == Sessions.OnMessage(old(Snapshot()), ch, raw, rawIsString, parsed)
    {
      var route := RouteMessage(raw, rawIsString, parsed);
      match route
      case DoConnect(hostname, password) =>
        var threw := ConnectSSH(ch, hostname, password);
        if threw {
          threw := ConnectSSH(ch, Some(raw), None);
        }
      case DoInput(command) =>
        SendSSHInput(ch, command);
      case DoDisconnect =>
        DisconnectSSH(ch);
      case DoFallbackConnect(text) =>
        var _ := ConnectSSH(ch, Some(text), None);
      case DoUnknown =>
        Send(ch, UnknownAction);
    }

    /** The WebSocket `close` handler. */
    method OnWsClose(ch: Channel)
      requires Valid()
      modifies this
      ensures Valid() && Snapshot() == Step(old(Snapshot()), WsClose(ch))
    {
      DisconnectSSH(ch);
    }

    /** The WebSocket `error` handler. */
    method OnWsError(ch: Channel)
      requires Valid()
      modifies this
      ensures Valid() && Snapshot() == Step(old(Snapshot()), WsError(ch))
    {
      DisconnectSSH(ch);
    }

    /** The client's `ready` handler. */
    method OnReady(c: ClientId)
      requires Valid() && c in clients
      modifies this
      ensures Valid() && Snapshot() == Sessions.OnReady(old(Snapshot()), c)
    {
      var session := clients[c];
      Send(session.channel, ConnectedBanner(session));
      EmitPreservesValid(Snapshot(), ShellRequest(c));
      trace := trace + [ShellRequest(c)];
    }

    /** The callback `sshClient.shell` was given. */
    method OnShell(c: ClientId, result: ShellResult)
      requires Valid() && c in clients
      modifies this
      ensures Valid() && Snapshot() == Sessions.OnShell(old(Snapshot()), c, result)
    {
      var ch := clients[c].channel;
      match result
      case ShellFailed(msg) =>
        Send(ch, "Shell error: " + msg + "\n");
      case ShellOpened =>
        ShellPreservesValid(Snapshot(), c, result);
        var stream := StreamId(nextId);
        nextId := nextId + 1;
        streams := streams[stream := c];
        registry := registry[ch := Entry(c, stream)];
    }

    /** The stream's `data` handler. */
    method OnStreamData(t: StreamId, chunk: string)
      requires Valid() && t in streams
      modifies this
      ensures Valid() && Snapshot() == Sessions.OnStreamData(old(Snapshot()), t, chunk)
    {
      var ch := clients[streams[t]].channel;
      Send(ch, Sanitizer.Clean(chunk));
    }

    /** The handler of the stream's stderr `data`. */
    method OnStderrData(t: StreamId, chunk: string)
      requires Valid() && t in streams
      modifies this
      ensures Valid() && Snapshot() == Sessions.OnStderrData(old(Snapshot()), t, chunk)
    {
      var ch := clients[streams[t]].channel;
      Send(ch, "ERROR: " + Sanitizer.Clean(chunk));
    }

    /** The stream's `close` handler. */
    method OnStreamClose(t: StreamId)
      requires Valid() && t in streams
      modifies this
      ensures Valid() && Snapshot() == Sessions.OnStreamClose(old(Snapshot()), t)
    {
      var ch := clients[streams[t]].channel;
      Send(ch, ConnectionClosed);
      DisconnectSSH(ch);
    }

    /** The client's `error` handler. */
    method OnClientError(c: ClientId, msg: string)
      requires Valid() && c in clients
      modifies this
      ensures Valid() && Snapshot() == Sessions.OnClientError(old(Snapshot()), c, msg)
    {
      var ch := clients[c].channel;
      Send(ch, "Connection failed: " + msg + "\n");
      DisconnectSSH(ch);
    }

    /** The client's `close` handler. */
    method OnClientClose(c: ClientId)
      requires Valid() && c in clients
      modifies this
      ensures Valid() && Snapshot() == Sessions.OnClientClose(old(Snapshot()), c)
    {
      DisconnectSSH(clients[c].channel);
    }
  }
}
