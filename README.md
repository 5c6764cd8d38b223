# SSH WebSocket gateway: a Dafny model

This project models the session gateway of an SSH client. Each browser
WebSocket ("channel") sends JSON messages that ask to `connect` to
`user@host`, to send `input` to the remote shell, or to `disconnect`. The
gateway keeps one map, `sshConnections`, from each channel to its ssh2
client and shell stream. It forwards shell output back to the channel
after stripping terminal control sequences.

The model has five modules:

- `Sanitizer` (`sanitizer.dfy`) models `cleanAnsiSequences`. It is a
  left-to-right scanner that removes every `ESC [ [0-9;?]* letter`. Its
  lemmas tie it to an independent reading of a global regex replace: the
  text is cut into pieces, and each piece is either one kept character or
  one removed control sequence.
- `Target` (`target.dfy`) models the `user@host` split done with
  `includes`/`split`, JavaScript `trim`, and the configuration passed to
  `sshClient.connect`.
- `Router` (`router.dfy`) models the `switch (data.action)` of the message
  handler. It works on an abstract JSON parse result.
- `Sessions` (`sessions.dfy`) holds the gateway's whole state as a value:
  the registry, the ssh2 objects created so far, and one ordered trace of
  every `ws.send` and every call into ssh2. It has one transition function
  per handler, the invariant `Valid`, and the lemmas.
- `Server` (`server.dfy`) holds the class `Gateway`. Its fields are the
  same state. It has one method per WebSocket or ssh2 event, and each
  method updates the fields in place. Every method is proved to leave
  exactly the state that the matching `Sessions` function gives, and to
  keep `Valid`. An interleaving of events is any sequence of method calls.

ssh2 clients and streams are numbered handles. The gateway records which
channel each client's handlers report to, and which client each stream
came from. The source's closures capture exactly that.

Two facts of the code are kept as they are, and stated as lemmas:

- **Late registration.** A channel's entry is written only when its shell
  opens (server.js:96). A shell that opens late overwrites the newer entry
  and does not end it.
- **Close before the shell opens.** A WebSocket that closes after
  `connect` but before its shell opens finds no entry (server.js:60,
  155-156), so its client is not ended. When the shell opens, an entry is
  registered under the closed channel (server.js:96); only a later
  `close` or `error` from the ssh2 client or its stream removes it.
- **Channel-keyed teardown.** Every teardown looks up the channel's
  current entry. A `close` from a client or stream that has already been
  replaced tears down the replacement (server.js:98-102, 126-129).

Some behaviours of the code a reader might not expect, which the model
keeps:

- The entry is registered when the shell opens, not when `connect` runs.
- A shell that fails to open is never registered. So `disconnect` cannot
  end its client: only the client's own `error`/`close` events remain.
- A parsed message with an unrecognised action falls back to a connect
  only when it has a non-empty `hostname` (which is then used) or when it
  arrived as a string. Otherwise the reply is `"Unknown action"`.
- Late `close` events are not ignored (see above). Late `data` events from
  a replaced stream are still forwarded to the channel.
- A `connect` message without a hostname first tears the session down.
  The line that reads the hostname then throws, and the `catch` connects
  to the raw message text (server.js:70, 75, 50-54).

## Model

| member | source | states |
|---|---|---|
| `Sanitizer.ParamRun` | src/process/server.js:21 | the `[0-9;?]*` run at the front is maximal: all characters before it are parameter characters and the next one is not |
| `Sanitizer.MatchLen` | src/process/server.js:21 | a prefix of the text is a control sequence exactly when it is the reported match, so at most one prefix matches |
| `Sanitizer.Clean` | src/process/server.js:19-22 | cleaning never makes a chunk longer |
| `Sanitizer.Segments` | src/process/server.js:21 | every text has a left-to-right, non-overlapping segmentation into kept characters and control sequences |
| `Sanitizer.LeftmostParseCovers` | src/process/server.js:21 | such a segmentation is made of exactly the characters of the text |
| `Sanitizer.LeftmostParseUnique` | src/process/server.js:21 | the segmentation is unique |
| `Sanitizer.CleanIsKeptText` | src/process/server.js:19-22 | the result is exactly the kept characters, in order: every match is removed and nothing else is |
| `Sanitizer.CleanWithoutEscape` | src/process/server.js:21 | a chunk without ESC is returned unchanged |
| `Sanitizer.CleanEscapeFreePrefix` | src/process/server.js:21 | ESC-free text in front of a chunk is kept and leaves the cleaning of the rest unchanged |
| `Sanitizer.CleanControlSequence` | src/process/server.js:21 | a chunk that is one control sequence becomes empty |
| `Sanitizer.CleanColouredLine` | src/process/server.js:21 | `"\x1b[32mHello\x1b[0m\n"` becomes `"Hello\n"` |
| `Sanitizer.CleanBracketedPaste` | src/process/server.js:20-21 | `"\x1b[?2004h"` becomes `""` |
| `Sanitizer.CleanNotIdempotent` | src/process/server.js:21 | one pass is not idempotent: `"\x1b\x1b[A[B"` gives `"\x1b[B"`, which a second pass would empty |
| `Sanitizer.CleanSplitSequence` | src/process/server.js:106-113 | chunks are cleaned separately, so a sequence split across two chunks survives |
| `Target.Split` | src/process/server.js:76 | `split` gives at least one part, no part contains the separator, and there are two or more parts exactly when the separator occurs |
| `Target.JoinSplit` | src/process/server.js:76 | joining the parts of a split gives back the text |
| `Target.SplitJoin` | src/process/server.js:76 | splitting a join of separator-free parts gives back the parts |
| `Target.SplitTarget` | src/process/server.js:72-79 | without `@` the user is `root` and the host is the whole text; with `@` neither part contains `@` |
| `Target.SplitTargetWithAt` | src/process/server.js:75-78 | the user is the text before the first `@`; the host is the text after it, up to the second `@` or the end |
| `Target.SplitTargetRoundTrip` | src/process/server.js:75-78 | `u@h@...` with `@`-free parts names user `u` and host `h`, and anything after a second `@` is dropped |
| `Target.TrimStart` | src/process/server.js:138 | only whitespace is cut from the front, and the result is a suffix that is empty or starts with a non-whitespace character |
| `Target.TrimEnd` | src/process/server.js:138 | only whitespace is cut from the back, and the result is a prefix that is empty or ends with a non-whitespace character |
| `Target.Trim` | src/process/server.js:138 | `trim()` gives a slice of the text that neither starts nor ends with whitespace, with only whitespace cut off either side |
| `Target.TrimEmpty` | src/process/server.js:138 | `trim()` gives the empty string exactly when every character is JavaScript whitespace |
| `Target.MakeConfig` | src/process/server.js:131-140 | the config has the split host and user, port 22 and readyTimeout 30000; it carries the password, untrimmed, exactly when the password has a non-whitespace character |
| `Router.RouteMessage` | src/process/server.js:28-55 | `connect`/`input`/`disconnect` select their operation with the message's fields; a parse failure or `null` falls back to the raw text; any other value connects to its non-empty hostname, else to the raw text if that was a string, else is an unknown action |
| `Sessions.Disconnect` | src/process/server.js:154-165 | the model of disconnectSSH; no contract of its own, its behaviour is stated by `DisconnectEffects`, `DisconnectIdempotent` and `DisconnectPreservesValid` |
| `Sessions.Connect` | src/process/server.js:69-143 | the model of connectSSH with a hostname; stated by `ConnectSupersedes` and `ConnectPreservesValid` |
| `Sessions.Input` | src/process/server.js:145-152 | the model of sendSSHInput; stated by `InputEffects` and `InputBeforeConnect` |
| `Sessions.OnMessage` | src/process/server.js:27-56 | the model of the `message` handler; stated by `ConnectWithoutHostname`, `UnparsedMessageConnects` and `OtherActionEffects` |
| `Sessions.OnReady` | src/process/server.js:86-90 | the model of the client's `ready` handler; stated by `ReadyAnnounces` |
| `Sessions.OnShell` | src/process/server.js:90-96 | the model of the `shell` callback; stated by `ShellOpenRegisters`, `ShellFailureReported` and `ShellPreservesValid` |
| `Sessions.OnStreamData` | src/process/server.js:104-109 | the model of the stream's `data` handler; stated by `StreamOutputForwarded` |
| `Sessions.OnStderrData` | src/process/server.js:111-116 | the model of the stderr `data` handler; stated by `StreamOutputForwarded` |
| `Sessions.OnStreamClose` | src/process/server.js:98-102 | the model of the stream's `close` handler; stated by `StreamCloseEffects` |
| `Sessions.OnClientError` | src/process/server.js:120-124 | the model of the client's `error` handler; stated by `ClientErrorReported` |
| `Sessions.OnClientClose` | src/process/server.js:126-129 | the model of the client's `close` handler; stated by `ClientCloseEffects` |
| `Sessions.Step` | src/process/server.js:27-165 | every handler as one event; stated by `StepPreservesValid`, `StepExtendsTrace`, `OnlyShellOpenRegisters` and `ChannelGoneTearsDown` |
| `Sessions.InitValid` | src/process/server.js:16 | the empty gateway satisfies the invariant |
| `Sessions.DisconnectPreservesValid` | src/process/server.js:154-165 | disconnectSSH keeps the invariant |
| `Sessions.EmitPreservesValid` | src/process/server.js:82 | sending or calling into ssh2 keeps the invariant |
| `Sessions.ConnectPreservesValid` | src/process/server.js:69-143 | connectSSH keeps the invariant |
| `Sessions.ShellPreservesValid` | src/process/server.js:90-96 | the shell callback keeps the invariant |
| `Sessions.StepPreservesValid` | src/process/server.js:27-165 | every handler keeps the invariant: each entry belongs to a client made for that channel, and its stream to that client |
| `Sessions.NoSharedSession` | src/process/server.js:96 | two channels never share a client or a stream |
| `Sessions.StepExtendsTrace` | src/process/server.js:27-165 | handlers only append to what has been sent and done |
| `Sessions.OnlyShellOpenRegisters` | src/process/server.js:96 | no event other than a successful shell open adds or changes an entry |
| `Sessions.DisconnectEffects` | src/process/server.js:154-165 | disconnectSSH ends the stream, then the client, then deletes the entry; without an entry it changes nothing |
| `Sessions.DisconnectIdempotent` | src/process/server.js:154-165 | disconnecting twice equals disconnecting once |
| `Sessions.ConnectSupersedes` | src/process/server.js:69-142 | connect first tears down the channel's session, then sends `"Connecting to <user>@<host>...\n"`, then starts a new client with the config; nothing is registered |
| `Sessions.ConnectWithoutHostname` | src/process/server.js:33-75 | a `connect` without a hostname ends by connecting to the raw message text with no password |
| `Sessions.UnparsedMessageConnects` | src/process/server.js:29-54 | a message that does not parse, or parses to `null`, connects to its raw text with no password |
| `Sessions.OtherActionEffects` | src/process/server.js:42-48 | another action connects to a non-empty hostname, else to the raw string, else only sends `"Unknown action"` |
| `Sessions.ReadyAnnounces` | src/process/server.js:86-90 | `ready` sends `"Connected to <user>@<host>\n"` and then requests a shell; the registry is untouched |
| `Sessions.ShellOpenRegisters` | src/process/server.js:96 | an opened shell is registered under the client's channel with a fresh stream, overwriting any entry without ending it |
| `Sessions.ShellFailureReported` | src/process/server.js:91-94 | a shell error sends `"Shell error: <msg>\n"` and registers nothing |
| `Sessions.StreamOutputForwarded` | src/process/server.js:104-116 | stdout is sent as the cleaned chunk and stderr as `"ERROR: "` plus the cleaned chunk, to the stream's channel |
| `Sessions.InputEffects` | src/process/server.js:145-152 | with an entry, the command line is written to its stream and nothing is sent; without one, `"ERROR: No active SSH connection\n"` is sent; the registry never changes |
| `Sessions.CommandLineOfCommand` | src/process/server.js:148 | the written text is the command plus `"\n"`, and `"undefined\n"` for a missing command |
| `Sessions.InputBeforeConnect` | src/process/server.js:145-152 | input on a fresh gateway yields exactly the error message and no other change |
| `Sessions.ClientCloseEffects` | src/process/server.js:126-129 | a client's `close` ends the stream and client of its channel's current entry, if there is one, and removes only that entry |
| `Sessions.StreamCloseEffects` | src/process/server.js:98-102 | a stream's `close` sends `"Connection closed\n"`, then ends the channel's stream and client if it has an entry, and removes only that entry; after the entry is gone only the message is sent |
| `Sessions.StaleClientCloseTearsDownCurrent` | src/process/server.js:126-129 | a `close` from a replaced client ends and removes the channel's current entry, and no other |
| `Sessions.StaleStreamCloseTearsDownCurrent` | src/process/server.js:98-102 | a `close` from a replaced stream sends `"Connection closed\n"` and tears down the channel's current entry, and no other |
| `Sessions.ClientErrorReported` | src/process/server.js:120-124 | a client error sends `"Connection failed: <msg>\n"`, then ends the channel's stream and client if it has an entry, and removes only that entry |
| `Sessions.ChannelGoneTearsDown` | src/process/server.js:58-66 | WebSocket close and error act the same: they remove the session, and no other, and append exactly its stream end, then its client end |
| `Sessions.CloseBeforeShellLeavesSession` | src/process/server.js:58-66 | a WebSocket close while the channel's client has not yet opened a shell changes nothing; the later shell open registers the closed channel and ends nothing |
| `Sessions.CloseBeforeShellScenario` | src/process/server.js:69-96 | connect, ready, WebSocket close, shell open: the closed channel stays registered and its client is never ended |
| `Sessions.EndToEnd` | src/process/server.js:27-116 | connect to `user@host`, ready, shell open, input and output give exactly the banners, the connect call, the shell request, the written line and the verbatim output |
| `Server.Gateway.constructor` | src/process/server.js:16 | the gateway starts empty and valid |
| `Server.Gateway.Send` | src/process/server.js:82 | one `ws.send` is appended |
| `Server.Gateway.DisconnectSSH` | src/process/server.js:154-165 | the new state is `Sessions.Disconnect` of the old |
| `Server.Gateway.ConnectSSH` | src/process/server.js:69-143 | it throws exactly when the hostname is missing, leaving the state after the teardown; otherwise the new state is `Sessions.Connect` of the old |
| `Server.Gateway.SendSSHInput` | src/process/server.js:145-152 | the new state is `Sessions.Input` of the old |
| `Server.Gateway.OnMessage` | src/process/server.js:27-56 | the new state is `Sessions.OnMessage` of the old, the catch included |
| `Server.Gateway.OnWsClose` | src/process/server.js:58-61 | the channel's session is torn down |
| `Server.Gateway.OnWsError` | src/process/server.js:63-66 | the channel's session is torn down |
| `Server.Gateway.OnReady` | src/process/server.js:86-90 | the new state is `Sessions.OnReady` of the old |
| `Server.Gateway.OnShell` | src/process/server.js:90-96 | the new state is `Sessions.OnShell` of the old |
| `Server.Gateway.OnStreamData` | src/process/server.js:104-109 | the new state is `Sessions.OnStreamData` of the old |
| `Server.Gateway.OnStderrData` | src/process/server.js:111-116 | the new state is `Sessions.OnStderrData` of the old |
| `Server.Gateway.OnStreamClose` | src/process/server.js:98-102 | the new state is `Sessions.OnStreamClose` of the old |
| `Server.Gateway.OnClientError` | src/process/server.js:120-124 | the new state is `Sessions.OnClientError` of the old |
| `Server.Gateway.OnClientClose` | src/process/server.js:126-129 | the new state is `Sessions.OnClientClose` of the old |

## Left out

- The Express app, the HTTP server, the `WebSocketServer`, the liveness route on `/` and `server.listen` (server.js:1-14, 167-169) are I/O setup with no logic.
- The ssh2 library itself is not modelled: handshake, authentication, the ready timeout firing, and shell allocation. Its callbacks are events that may arrive in any order, even orders ssh2 would never produce. Only objects the gateway created can deliver them.
- `JSON.parse` is given as its result. Fields are either absent or strings. A field holding another JSON type (a number, `null`, an object) is not modelled. For example, a numeric `hostname` would also throw at `includes`.
- Whether the transport delivered the message as a string is an input flag. Decoding messages and output chunks from Buffers (`toString`) is not modelled: chunks arrive as text.
- `console.log` and `console.error` have no observable effect.
- Concurrency and timing: the single event loop is a sequence of method calls.
- `ws.send` on a channel that is already closed is still recorded in the trace. What the ws library then does is not modelled.
- `sshClient.connect` throwing synchronously on a bad configuration is not modelled.
- The checks `if (connection.stream)` and `if (connection.client)` in disconnectSSH, and `connection.stream` in sendSSHInput, are always true: entries are only made with both.
- src/process/main.ts (plugin scaffolding and process spawning), src/renderer/react-wrapper/src/App.tsx (the UI), server.ts (an older gateway that spawns `ssh`) and electron.ts (a launcher) are not part of this model.
