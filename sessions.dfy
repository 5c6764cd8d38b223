/**
 * The gateway's state as a value and one transition function per handler:
 * the operations connectSSH, sendSSHInput and disconnectSSH, the message
 * handler, the WebSocket close and error handlers, and the ssh2 client and
 * shell-stream callbacks. The class in module Server follows these exactly.
 */
module Sessions {
  import opened Wrappers
  import Sanitizer
  import opened Target
  import opened Router

  /** A WebSocket connection; its identity is all that matters. */
  datatype Channel = Channel(id: nat)
  /** One ssh2 Client object, made by one connectSSH call. */
  datatype ClientId = ClientId(id: nat)
  /** One shell stream, handed over by a successful `shell` callback. */
  datatype StreamId = StreamId(id: nat)

  /** What the handlers of one client captured: its channel, user and host. */
  datatype Session = Session(channel: Channel, username: string, host: string)

  /** A value of the sshConnections map. */
  datatype Entry = Entry(client: ClientId, stream: StreamId)

  /** One observable effect, in the order the gateway performs them. */
  datatype Effect =
    | Sent(channel: Channel, text: string)                  // ws.send
    | ClientConnect(client: ClientId, config: ConnectConfig) // sshClient.connect
    | ShellRequest(client: ClientId)                        // sshClient.shell
    | StreamWrite(stream: StreamId, data: string)           // stream.write
    | StreamEnd(stream: StreamId)                           // stream.end
    | ClientEnd(client: ClientId)                           // client.end

  /** The outcome ssh2 reports to the `shell` callback. */
  datatype ShellResult = ShellOpened | ShellFailed(message: string)

  /**
   * registry is sshConnections; clients and streams record, for each ssh2
   * object made so far, whose handlers it runs; nextId numbers new objects;
   * trace is everything sent or done so far.
   */
  datatype State = State(
    registry: map<Channel, Entry>,
    clients: map<ClientId, Session>,
    streams: map<StreamId, ClientId>,
    nextId: nat,
    trace: seq<Effect>)

  function Init(): State {
    State(map[], map[], map[], 0, [])
  }

  /** The entry of `ch` belongs to a client made for `ch`, and its stream to that client. */
  ghost predicate RegisteredBy(st: State, ch: Channel)
    requires ch in st.registry
  {
    var e := st.registry[ch];
    && e.client in st.clients && st.clients[e.client].channel == ch
    && e.stream in st.streams && st.streams[e.stream] == e.client
  }

  /** The gateway's invariant. */
  ghost predicate Valid(st: State) {
    && (forall c | c in st.clients :: c.id < st.nextId)
    && (forall t | t in st.streams :: t.id < st.nextId && st.streams[t] in st.clients)
    && (forall ch | ch in st.registry :: RegisteredBy(st, ch))
  }

  function Emit(st: State, e: Effect): State {
    st.(trace := st.trace + [e])
  }

  function ConnectingBanner(t: Target): string {
    "Connecting to " + t.username + "@" + t.host + "...\n"
  }

  function ConnectedBanner(s: Session): string {
    "Connected to " + s.username + "@" + s.host + "\n"
  }

  const NoConnection: string := "ERROR: No active SSH connection\n"
  const ConnectionClosed: string := "Connection closed\n"
  const UnknownAction: string := "Unknown action"

  /** disconnectSSH: end the stream, then the client, then forget the entry. */
  function Disconnect(st: State, ch: Channel): State {
    if ch in st.registry then
      var e := st.registry[ch];
      st.(registry := st.registry - {ch},
          trace := st.trace + [StreamEnd(e.stream), ClientEnd(e.client)])
    else
      st
  }

  /**
   * connectSSH with a hostname string: tear down, announce, make a client
   * whose handlers report to `ch`, and start connecting. Nothing is
   * registered yet.
   */
  function Connect(st: State, ch: Channel, hostname: string, password: Option<string>): State {
    var s1 := Disconnect(st, ch);
    var t := SplitTarget(hostname);
    var c := ClientId(s1.nextId);
    var s2 := Emit(s1, Sent(ch, ConnectingBanner(t)));
    s2.(clients := s2.clients[c := Session(ch, t.username, t.host)],
        nextId := s2.nextId + 1,
        trace := s2.trace + [ClientConnect(c, MakeConfig(t, password))])
  }

  /** `command + '\n'` where an absent command reads as "undefined". */
  function CommandLine(command: Option<string>): string {
    (if command.Some? then command.value else "undefined") + "\n"
  }

  /** sendSSHInput. */
  function Input(st: State, ch: Channel, command: Option<string>): State {
    if ch in st.registry then
      Emit(st, StreamWrite(st.registry[ch].stream, CommandLine(command)))
    else
      Emit(st, Sent(ch, NoConnection))
  }

  /**
   * The message handler. A "connect" without a hostname throws inside
   * connectSSH after its disconnectSSH, and the catch connects to the raw text.
   */
  function OnMessage(st: State, ch: Channel, raw: string, rawIsString: bool, parsed: ParseResult): State {
    match RouteMessage(raw, rawIsString, parsed)
    case DoConnect(hostname, password) =>
      if hostname.Some? then Connect(st, ch, hostname.value, password)
      else Connect(Disconnect(st, ch), ch, raw, None)
    case DoInput(command) => Input(st, ch, command)
    case DoDisconnect => Disconnect(st, ch)
    case DoFallbackConnect(text) => Connect(st, ch, text, None)
    case DoUnknown => Emit(st, Sent(ch, UnknownAction))
  }

  /** The client's `ready` handler: announce, then ask for a shell. */
  function OnReady(st: State, c: ClientId): State
    requires c in st.clients
  {
    var s := st.clients[c];
    Emit(Emit(st, Sent(s.channel, ConnectedBanner(s))), ShellRequest(c))
  }

  /** The `shell` callback: report the error, or register the new stream. */
  function OnShell(st: State, c: ClientId, result: ShellResult): State
    requires c in st.clients
  {
    var ch := st.clients[c].channel;
    match result
    case ShellFailed(msg) => Emit(st, Sent(ch, "Shell error: " + msg + "\n"))
    case ShellOpened =>
      var t := StreamId(st.nextId);
      st.(registry := st.registry[ch := Entry(c, t)],
          streams := st.streams[t := c],
          nextId := st.nextId + 1)
  }

  /** The channel a stream's handlers report to. */
  function StreamChannel(st: State, t: StreamId): Channel
    requires t in st.streams && st.streams[t] in st.clients
  {
    st.clients[st.streams[t]].channel
  }

  /** The stream's `data` handler. */
  function OnStreamData(st: State, t: StreamId, chunk: string): State
    requires t in st.streams && st.streams[t] in st.clients
  {
    Emit(st, Sent(StreamChannel(st, t), Sanitizer.Clean(chunk)))
  }

  /** The handler of the stream's stderr `data`. */
  function OnStderrData(st: State, t: StreamId, chunk: string): State
    requires t in st.streams && st.streams[t] in st.clients
  {
    Emit(st, Sent(StreamChannel(st, t), "ERROR: " + Sanitizer.Clean(chunk)))
  }

  /** The stream's `close` handler. */
  function OnStreamClose(st: State, t: StreamId): State
    requires t in st.streams && st.streams[t] in st.clients
  {
    var ch := StreamChannel(st, t);
    Disconnect(Emit(st, Sent(ch, ConnectionClosed)), ch)
  }

  /** The client's `error` handler. */
  function OnClientError(st: State, c: ClientId, msg: string): State
    requires c in st.clients
  {
    var ch := st.clients[c].channel;
    Disconnect(Emit(st, Sent(ch, "Connection failed: " + msg + "\n")), ch)
  }

  /** The client's `close` handler. */
  function OnClientClose(st: State, c: ClientId): State
    requires c in st.clients
  {
    Disconnect(st, st.clients[c].channel)
  }

  /** Everything that can happen to the gateway. */
  datatype Event =
    | Message(ch: Channel, raw: string, rawIsString: bool, parsed: ParseResult)
    | WsClose(ch: Channel)
    | WsError(ch: Channel)
    | Ready(client: ClientId)
    | Shell(client: ClientId, result: ShellResult)
    | StreamData(stream: StreamId, chunk: string)
    | StderrData(stream: StreamId, chunk: string)
    | StreamClose(stream: StreamId)
    | ClientError(client: ClientId, message: string)
    | ClientClose(client: ClientId)

  /** Only objects the gateway made can call back into it. */
  predicate Enabled(st: State, ev: Event) {
    match ev
    case Ready(c) => c in st.clients
    case Shell(c, _) => c in st.clients
    case ClientError(c, _) => c in st.clients
    case ClientClose(c) => c in st.clients
    case StreamData(t, _) => t in st.streams && st.streams[t] in st.clients
    case StderrData(t, _) => t in st.streams && st.streams[t] in st.clients
    case StreamClose(t) => t in st.streams && st.streams[t] in st.clients
    case _ => true
  }

  function Step(st: State, ev: Event): State
    requires Enabled(st, ev)
  {
    match ev
    case Message(ch, raw, isString, parsed) => OnMessage(st, ch, raw, isString, parsed)
    case WsClose(ch) => Disconnect(st, ch)
    case WsError(ch) => Disconnect(st, ch)
    case Ready(c) => OnReady(st, c)
    case Shell(c, result) => OnShell(st, c, result)
    case StreamData(t, chunk) => OnStreamData(st, t, chunk)
    case StderrData(t, chunk) => OnStderrData(st, t, chunk)
    case StreamClose(t) => OnStreamClose(st, t)
    case ClientError(c, msg) => OnClientError(st, c, msg)
    case ClientClose(c) => OnClientClose(st, c)
  }

  // ---------------------------------------------------------------------
  // The invariant
  // ---------------------------------------------------------------------

  lemma InitValid()
    ensures Valid(Init())
  {
  }

  lemma DisconnectPreservesValid(st: State, ch: Channel)
    requires Valid(st)
    ensures Valid(Disconnect(st, ch))
  {
    var r := Disconnect(st, ch);
    forall ch' | ch' in r.registry
      ensures RegisteredBy(r, ch')
    {
      assert RegisteredBy(st, ch');
    }
  }

  lemma EmitPreservesValid(st: State, e: Effect)
    requires Valid(st)
    ensures Valid(Emit(st, e))
  {
    var r := Emit(st, e);
    forall ch | ch in r.registry
      ensures RegisteredBy(r, ch)
    {
      assert RegisteredBy(st, ch);
    }
  }

  lemma ConnectPreservesValid(st: State, ch: Channel, hostname: string, password: Option<string>)
    requires Valid(st)
    ensures Valid(Connect(st, ch, hostname, password))
  {
    DisconnectPreservesValid(st, ch);
    var s1 := Disconnect(st, ch);
    var r := Connect(st, ch, hostname, password);
    assert ClientId(s1.nextId) !in s1.clients;
    forall ch' | ch' in r.registry
      ensures RegisteredBy(r, ch')
    {
      assert RegisteredBy(s1, ch');
    }
  }

  lemma ShellPreservesValid(st: State, c: ClientId, result: ShellResult)
    requires Valid(st) && c in st.clients
    ensures Valid(OnShell(st, c, result))
  {
    var r := OnShell(st, c, result);
    if result.ShellOpened? {
      var t := StreamId(st.nextId);
      assert t !in st.streams;
      forall ch | ch in r.registry
        ensures RegisteredBy(r, ch)
      {
        if ch != st.clients[c].channel {
          assert RegisteredBy(st, ch);
        }
      }
    } else {
      EmitPreservesValid(st, Sent(st.clients[c].channel, "Shell error: " + result.message + "\n"));
    }
  }

  /** Every handler keeps the invariant. */
  lemma StepPreservesValid(st: State, ev: Event)
    requires Valid(st) && Enabled(st, ev)
    ensures Valid(Step(st, ev))
  {
    match ev
    case Message(ch, raw, isString, parsed) =>
      match RouteMessage(raw, isString, parsed) {
      case DoConnect(hostname, password) =>
        if hostname.Some? {
          ConnectPreservesValid(st, ch, hostname.value, password);
        } else {
          DisconnectPreservesValid(st, ch);
          ConnectPreservesValid(Disconnect(st, ch), ch, raw, None);
        }
      case DoInput(command) =>
        if ch in st.registry {
          EmitPreservesValid(st, StreamWrite(st.registry[ch].stream, CommandLine(command)));
        } else {
          EmitPreservesValid(st, Sent(ch, NoConnection));
        }
      case DoDisconnect => DisconnectPreservesValid(st, ch);
      case DoFallbackConnect(text) => ConnectPreservesValid(st, ch, text, None);
      case DoUnknown => EmitPreservesValid(st, Sent(ch, UnknownAction));
      }
    case WsClose(ch) => DisconnectPreservesValid(st, ch);
    case WsError(ch) => DisconnectPreservesValid(st, ch);
    case Ready(c) =>
      var s := st.clients[c];
      EmitPreservesValid(st, Sent(s.channel, ConnectedBanner(s)));
      EmitPreservesValid(Emit(st, Sent(s.channel, ConnectedBanner(s))), ShellRequest(c));
    case Shell(c, result) => ShellPreservesValid(st, c, result);
    case StreamData(t, chunk) =>
      EmitPreservesValid(st, Sent(StreamChannel(st, t), Sanitizer.Clean(chunk)));
    case StderrData(t, chunk) =>
      EmitPreservesValid(st, Sent(StreamChannel(st, t), "ERROR: " + Sanitizer.Clean(chunk)));
    case StreamClose(t) =>
      var ch := StreamChannel(st, t);
      EmitPreservesValid(st, Sent(ch, ConnectionClosed));
      DisconnectPreservesValid(Emit(st, Sent(ch, ConnectionClosed)), ch);
    case ClientError(c, msg) =>
      var ch := st.clients[c].channel;
      EmitPreservesValid(st, Sent(ch, "Connection failed: " + msg + "\n"));
      DisconnectPreservesValid(Emit(st, Sent(ch, "Connection failed: " + msg + "\n")), ch);
    case ClientClose(c) => DisconnectPreservesValid(st, st.clients[c].channel);
  }

  /** No backend session is shared between two channels. */
  lemma NoSharedSession(st: State, ch1: Channel, ch2: Channel)
    requires Valid(st) && ch1 in st.registry && ch2 in st.registry && ch1 != ch2
    ensures st.registry[ch1].client != st.registry[ch2].client
    ensures st.registry[ch1].stream != st.registry[ch2].stream
  {
    assert RegisteredBy(st, ch1) && RegisteredBy(st, ch2);
  }

  lemma DisconnectExtendsTrace(st: State, ch: Channel)
    ensures st.trace <= Disconnect(st, ch).trace
    ensures Disconnect(st, ch).registry.Keys <= st.registry.Keys
    ensures forall k | k in Disconnect(st, ch).registry :: Disconnect(st, ch).registry[k] == st.registry[k]
  {
  }

  lemma ConnectExtendsTrace(st: State, ch: Channel, hostname: string, password: Option<string>)
    ensures st.trace <= Connect(st, ch, hostname, password).trace
    ensures Connect(st, ch, hostname, password).registry == Disconnect(st, ch).registry
  {
    DisconnectExtendsTrace(st, ch);
  }

  /** The message handler only appends, and only connect or disconnect remove entries. */
  lemma MessageExtendsTrace(st: State, ch: Channel, raw: string, rawIsString: bool, parsed: ParseResult)
    ensures var r := OnMessage(st, ch, raw, rawIsString, parsed);
      && st.trace <= r.trace
      && r.registry.Keys <= st.registry.Keys
      && forall k | k in r.registry :: r.registry[k] == st.registry[k]
  {
    DisconnectExtendsTrace(st, ch);
    match RouteMessage(raw, rawIsString, parsed)
    case DoConnect(hostname, password) =>
      if hostname.Some? {
        ConnectExtendsTrace(st, ch, hostname.value, password);
      } else {
        ConnectExtendsTrace(Disconnect(st, ch), ch, raw, None);
        DisconnectExtendsTrace(Disconnect(st, ch), ch);
      }
    case DoInput(command) =>
    case DoDisconnect =>
    case DoFallbackConnect(text) => ConnectExtendsTrace(st, ch, text, None);
    case DoUnknown =>
  }

  /** Handlers only ever append to what has been sent and done. */
  lemma StepExtendsTrace(st: State, ev: Event)
    requires Enabled(st, ev)
    ensures st.trace <= Step(st, ev).trace
  {
    match ev
    case Message(ch, raw, isString, parsed) => MessageExtendsTrace(st, ch, raw, isString, parsed);
    case StreamClose(t) =>
      var ch := StreamChannel(st, t);
      DisconnectExtendsTrace(Emit(st, Sent(ch, ConnectionClosed)), ch);
    case ClientError(c, msg) =>
      var ch := st.clients[c].channel;
      DisconnectExtendsTrace(Emit(st, Sent(ch, "Connection failed: " + msg + "\n")), ch);
    case _ =>
  }

  /**
   * A registry entry appears or changes only when a shell opens; every other
   * event keeps or deletes entries.
   */
  lemma OnlyShellOpenRegisters(st: State, ev: Event)
    requires Enabled(st, ev)
    requires !(ev.Shell? && ev.result.ShellOpened?)
    ensures Step(st, ev).registry.Keys <= st.registry.Keys
    ensures forall ch | ch in Step(st, ev).registry :: Step(st, ev).registry[ch] == st.registry[ch]
  {
    match ev
    case Message(ch, raw, isString, parsed) => MessageExtendsTrace(st, ch, raw, isString, parsed);
    case WsClose(ch) => DisconnectExtendsTrace(st, ch);
    case WsError(ch) => DisconnectExtendsTrace(st, ch);
    case StreamClose(t) =>
      var ch := StreamChannel(st, t);
      DisconnectExtendsTrace(Emit(st, Sent(ch, ConnectionClosed)), ch);
    case ClientError(c, msg) =>
      var ch := st.clients[c].channel;
      DisconnectExtendsTrace(Emit(st, Sent(ch, "Connection failed: " + msg + "\n")), ch);
    case ClientClose(c) => DisconnectExtendsTrace(st, st.clients[c].channel);
    case _ =>
  }

  // ---------------------------------------------------------------------
  // What each operation does
  // ---------------------------------------------------------------------

  /**
   * disconnectSSH removes the channel's entry and nothing else; with an entry
   * it ends the stream and then the client, without one it changes nothing.
   */
  lemma DisconnectEffects(st: State, ch: Channel)
    ensures var r := Disconnect(st, ch);
      && ch !in r.registry
      && r.registry == st.registry - {ch}
      && r.clients == st.clients && r.streams == st.streams && r.nextId == st.nextId
      && (ch !in st.registry ==> r == st)
      && (ch in st.registry ==>
            r.trace == st.trace + [StreamEnd(st.registry[ch].stream), ClientEnd(st.registry[ch].client)])
  {
  }

  /** Disconnecting twice is disconnecting once. */
  lemma DisconnectIdempotent(st: State, ch: Channel)
    ensures Disconnect(Disconnect(st, ch), ch) == Disconnect(st, ch)
  {
  }

  /**
   * connectSSH first tears down the channel's session (its stream and client
   * are ended), then sends the banner, then starts a fresh client for the
   * channel; it registers nothing.
   */
  lemma ConnectSupersedes(st: State, ch: Channel, hostname: string, password: Option<string>)
    requires Valid(st)
    ensures var r := Connect(st, ch, hostname, password);
      var t := SplitTarget(hostname);
      var c := ClientId(st.nextId);
      && ch !in r.registry
      && r.registry == st.registry - {ch}
      && c !in st.clients
      && r.clients == st.clients[c := Session(ch, t.username, t.host)]
      && r.streams == st.streams
      && r.trace == st.trace
           + (if ch in st.registry
              then [StreamEnd(st.registry[ch].stream), ClientEnd(st.registry[ch].client)]
              else [])
           + [Sent(ch, "Connecting to " + t.username + "@" + t.host + "...\n"),
              ClientConnect(c, MakeConfig(t, password))]
  {
  }

  /** A "connect" message without a hostname ends up connecting to the raw text. */
  lemma ConnectWithoutHostname(st: State, ch: Channel, raw: string, rawIsString: bool,
                                password: Option<string>, command: Option<string>)
    ensures OnMessage(st, ch, raw, rawIsString, Parsed(Some("connect"), None, password, command))
         == Connect(st, ch, raw, None)
  {
    DisconnectIdempotent(st, ch);
  }

  /** A message that is not JSON, or is JSON null, connects to its raw text without a password. */
  lemma UnparsedMessageConnects(st: State, ch: Channel, raw: string, rawIsString: bool, parsed: ParseResult)
    requires !parsed.Parsed?
    ensures OnMessage(st, ch, raw, rawIsString, parsed) == Connect(st, ch, raw, None)
  {
  }

  /**
   * A parsed message whose action is none of the three connects, without a
   * password, to its non-empty hostname, else to the raw text when that came
   * as a string; otherwise it is answered with "Unknown action" alone.
   */
  lemma OtherActionEffects(st: State, ch: Channel, raw: string, rawIsString: bool, parsed: ParseResult)
    requires parsed.Parsed?
    requires parsed.action !in {Some("connect"), Some("input"), Some("disconnect")}
    ensures var r := OnMessage(st, ch, raw, rawIsString, parsed);
      && (Truthy(parsed.hostname) ==> r == Connect(st, ch, parsed.hostname.value, None))
      && (!Truthy(parsed.hostname) && rawIsString ==> r == Connect(st, ch, raw, None))
      && (!Truthy(parsed.hostname) && !rawIsString ==>
            r == st.(trace := st.trace + [Sent(ch, UnknownAction)]))
  {
  }

  /** `ready` announces the target and asks for a shell; the registry is untouched. */
  lemma ReadyAnnounces(st: State, c: ClientId)
    requires c in st.clients
    ensures var r := OnReady(st, c);
      var s := st.clients[c];
      && r.registry == st.registry
      && r.trace == st.trace + [Sent(s.channel, "Connected to " + s.username + "@" + s.host + "\n"),
                                ShellRequest(c)]
  {
  }

  /**
   * A shell that opens is registered under the client's channel with a new
   * stream, overwriting any entry there without ending it.
   */
  lemma ShellOpenRegisters(st: State, c: ClientId)
    requires Valid(st) && c in st.clients
    ensures var r := OnShell(st, c, ShellOpened);
      var t := StreamId(st.nextId);
      && t !in st.streams
      && r.registry == st.registry[st.clients[c].channel := Entry(c, t)]
      && r.streams == st.streams[t := c]
      && r.trace == st.trace
  {
  }

  /** A shell that fails is reported and nothing is registered. */
  lemma ShellFailureReported(st: State, c: ClientId, msg: string)
    requires c in st.clients
    ensures var r := OnShell(st, c, ShellFailed(msg));
      && r.registry == st.registry
      && r.trace == st.trace + [Sent(st.clients[c].channel, "Shell error: " + msg + "\n")]
  {
  }

  /**
   * Shell output goes to the stream's channel after cleaning, stderr with an
   * "ERROR: " prefix, whether or not the stream is still registered.
   */
  lemma StreamOutputForwarded(st: State, t: StreamId, chunk: string)
    requires t in st.streams && st.streams[t] in st.clients
    ensures var ch := st.clients[st.streams[t]].channel;
      && OnStreamData(st, t, chunk).registry == st.registry
      && OnStreamData(st, t, chunk).trace == st.trace + [Sent(ch, Sanitizer.Clean(chunk))]
      && OnStderrData(st, t, chunk).registry == st.registry
      && OnStderrData(st, t, chunk).trace == st.trace + [Sent(ch, "ERROR: " + Sanitizer.Clean(chunk))]
  {
  }

  /**
   * Input reaches the registered stream as one line and sends nothing; with
   * no entry it is reported and changes nothing else.
   */
  lemma InputEffects(st: State, ch: Channel, command: Option<string>)
    ensures var r := Input(st, ch, command);
      && r.registry == st.registry && r.clients == st.clients && r.streams == st.streams
      && (ch in st.registry ==>
            r.trace == st.trace + [StreamWrite(st.registry[ch].stream, CommandLine(command))])
      && (ch !in st.registry ==> r.trace == st.trace + [Sent(ch, NoConnection)])
  {
  }

  /** The text written for an input command is the command and a newline. */
  lemma CommandLineOfCommand(command: string)
    ensures CommandLine(Some(command)) == command + "\n"
    ensures CommandLine(None) == "undefined\n"
  {
  }

  /** Input before any connection is answered with the error alone. */
  lemma InputBeforeConnect(ch: Channel, command: Option<string>)
    ensures Input(Init(), ch, command) == Init().(trace := [Sent(ch, NoConnection)])
  {
  }

  /**
   * A client's `close` ends the stream and client of its channel's current
   * entry, if there is one, and removes it; other channels keep theirs.
   */
  lemma ClientCloseEffects(st: State, c: ClientId)
    requires c in st.clients
    ensures var ch := st.clients[c].channel;
      var r := OnClientClose(st, c);
      && r.registry == st.registry - {ch}
      && r.trace == st.trace
           + (if ch in st.registry
              then [StreamEnd(st.registry[ch].stream), ClientEnd(st.registry[ch].client)]
              else [])
  {
  }

  /**
   * A stream's `close` sends "Connection closed\n" to its channel, then ends
   * and removes the channel's current entry, if there is one.
   */
  lemma StreamCloseEffects(st: State, t: StreamId)
    requires t in st.streams && st.streams[t] in st.clients
    ensures var ch := StreamChannel(st, t);
      var r := OnStreamClose(st, t);
      && r.registry == st.registry - {ch}
      && r.trace == st.trace + [Sent(ch, ConnectionClosed)]
           + (if ch in st.registry
              then [StreamEnd(st.registry[ch].stream), ClientEnd(st.registry[ch].client)]
              else [])
  {
  }

  /**
   * Teardown is keyed by the channel: a `close` from a superseded client
   * ends and removes whatever entry the channel has now.
   */
  lemma StaleClientCloseTearsDownCurrent(st: State, c: ClientId)
    requires Valid(st) && c in st.clients
    requires st.clients[c].channel in st.registry
    requires st.registry[st.clients[c].channel].client != c
    ensures var ch := st.clients[c].channel;
      var cur := st.registry[ch];
      var r := OnClientClose(st, c);
      && r.registry == st.registry - {ch}
      && r.trace == st.trace + [StreamEnd(cur.stream), ClientEnd(cur.client)]
  {
  }

  /** Likewise a stale stream's `close` reports and tears down the channel's current entry. */
  lemma StaleStreamCloseTearsDownCurrent(st: State, t: StreamId)
    requires Valid(st) && t in st.streams
    requires StreamChannel(st, t) in st.registry
    requires st.registry[StreamChannel(st, t)].stream != t
    ensures var ch := StreamChannel(st, t);
      var cur := st.registry[ch];
      var r := OnStreamClose(st, t);
      && r.registry == st.registry - {ch}
      && r.trace == st.trace + [Sent(ch, ConnectionClosed), StreamEnd(cur.stream), ClientEnd(cur.client)]
  {
  }

  /** A client error is reported, then the channel's entry is torn down. */
  lemma ClientErrorReported(st: State, c: ClientId, msg: string)
    requires c in st.clients
    ensures var ch := st.clients[c].channel;
      var r := OnClientError(st, c, msg);
      && r.registry == st.registry - {ch}
      && r.trace == st.trace + [Sent(ch, "Connection failed: " + msg + "\n")]
           + (if ch in st.registry
              then [StreamEnd(st.registry[ch].stream), ClientEnd(st.registry[ch].client)]
              else [])
  {
  }

  /**
   * Closing (or an error on) the WebSocket while it has a session ends the
   * session's stream, then its client, removes the session, and sends nothing.
   */
  lemma ChannelGoneTearsDown(st: State, ch: Channel)
    requires ch in st.registry
    ensures var r := Step(st, WsClose(ch));
      && r == Step(st, WsError(ch))
      && r.registry == st.registry - {ch}
      && r.trace == st.trace + [StreamEnd(st.registry[ch].stream), ClientEnd(st.registry[ch].client)]
  {
  }

  /**
   * The window the channel-keyed teardown misses: a WebSocket that closes
   * after `connect` (or `ready`) but before the shell opens finds no entry,
   * so its client is not ended; when the shell then opens, an entry is
   * registered under the closed channel, and nothing is ended.
   */
  lemma CloseBeforeShellLeavesSession(st: State, c: ClientId)
    requires c in st.clients && st.clients[c].channel !in st.registry
    ensures var ch := st.clients[c].channel;
      var s1 := Step(st, WsClose(ch));
      && s1 == st
      && var s2 := OnShell(s1, c, ShellOpened);
      && s2.registry == st.registry[ch := Entry(c, StreamId(st.nextId))]
      && s2.trace == st.trace
  {
  }

  /**
   * The same window from a fresh gateway: connect, handshake, the WebSocket
   * closes, then the shell opens. The client is never ended and the closed
   * channel stays registered.
   */
  lemma CloseBeforeShellScenario(ch: Channel, hostname: string, password: Option<string>)
    ensures
      var c := ClientId(0);
      var s1 := Connect(Init(), ch, hostname, password);
      c in s1.clients &&
      var s2 := OnReady(s1, c);
      var s3 := Step(s2, WsClose(ch));
      c in s3.clients &&
      var s4 := OnShell(s3, c, ShellOpened);
      && s4.registry == map[ch := Entry(c, StreamId(1))]
      && ClientEnd(c) !in s4.trace
  {
    var c := ClientId(0);
    var s1 := Connect(Init(), ch, hostname, password);
    var s2 := OnReady(s1, c);
    CloseBeforeShellLeavesSession(s2, c);
  }

  /**
   * A whole session on a fresh gateway, for example alice@10.0.0.5 typing
   * "echo hi" and receiving "hi\n": a "connect" message for `user@host`, a
   * successful handshake, the shell opens, one "input" message, and one
   * chunk of output without control sequences, which arrives verbatim.
   */
  lemma EndToEnd(ch: Channel, raw1: string, raw2: string,
                 user: string, host: string, command: string, chunk: string)
    requires '@' !in user && '@' !in host && Sanitizer.ESC !in chunk
    ensures
      var s1 := OnMessage(Init(), ch, raw1, false, Parsed(Some("connect"), Some(user + "@" + host), None, None));
      var c := ClientId(0);
      c in s1.clients &&
      var s2 := OnReady(s1, c);
      var s3 := OnShell(s2, c, ShellOpened);
      var t := StreamId(1);
      var s4 := OnMessage(s3, ch, raw2, false, Parsed(Some("input"), None, None, Some(command)));
      t in s4.streams && s4.streams[t] in s4.clients &&
      var s5 := OnStreamData(s4, t, chunk);
      && s5.registry == map[ch := Entry(c, t)]
      && s5.trace == [
           Sent(ch, "Connecting to " + user + "@" + host + "...\n"),
           ClientConnect(c, ConnectConfig(host, 22, user, 30000, None)),
           Sent(ch, "Connected to " + user + "@" + host + "\n"),
           ShellRequest(c),
           StreamWrite(t, command + "\n"),
           Sent(ch, chunk)]
  {
    var parts := [user, host];
    assert Join(parts, '@') == user + "@" + host;
    SplitTargetRoundTrip(parts);
    Sanitizer.CleanWithoutEscape(chunk);
  }
}
