/**
 * The `ws.on("message")` switch: which gateway operation an inbound message
 * selects. JSON parsing itself is abstracted as a ParseResult.
 */
module Router {
  import opened Wrappers

  /**
   * The outcome of JSON.parse on the message text: a failure, the value
   * `null` (reading `.action` from it throws), or any other value, seen
   * through the string fields the handler reads (absent when missing).
   */
  datatype ParseResult =
    | ParseFailed
    | ParsedNull
    | Parsed(action: Option<string>, hostname: Option<string>,
             password: Option<string>, command: Option<string>)

  /** The operation a message selects. */
  datatype Route =
    | DoConnect(hostname: Option<string>, password: Option<string>)  // action "connect"
    | DoInput(command: Option<string>)                               // action "input"
    | DoDisconnect                                                   // action "disconnect"
    | DoFallbackConnect(text: string)                                // any other: connect without password
    | DoUnknown                                                      // reply "Unknown action"

  /** A JavaScript string is truthy when it is not empty. */
  predicate Truthy(s: Option<string>) {
    s.Some? && s.value != []
  }

  /**
   * The branch the handler takes for raw text `raw`; `rawIsString` says
   * whether the transport delivered the message as a string.
   */
  function RouteMessage(raw: string, rawIsString: bool, parsed: ParseResult): (r: Route)
    ensures r.DoConnect? <==> parsed.Parsed? && parsed.action == Some("connect")
    ensures r.DoConnect? ==> r == DoConnect(parsed.hostname, parsed.password)
    ensures r.DoInput? <==> parsed.Parsed? && parsed.action == Some("input")
    ensures r.DoInput? ==> r.command == parsed.command
    ensures r.DoDisconnect? <==> parsed.Parsed? && parsed.action == Some("disconnect")
    ensures !parsed.Parsed? ==> r == DoFallbackConnect(raw)
    ensures r.DoUnknown? <==>
      && parsed.Parsed?
      && parsed.action !in {Some("connect"), Some("input"), Some("disconnect")}
      && !rawIsString && !Truthy(parsed.hostname)
    ensures parsed.Parsed? && r.DoFallbackConnect? ==>
      r.text == if Truthy(parsed.hostname) then parsed.hostname.value else raw
  {
    match parsed
    case ParseFailed => DoFallbackConnect(raw)
    case ParsedNull => DoFallbackConnect(raw)
    case Parsed(action, hostname, password, command) =>
      if action == Some("connect") then DoConnect(hostname, password)
      else if action == Some("input") then DoInput(command)
      else if action == Some("disconnect") then DoDisconnect
      else if rawIsString || Truthy(hostname) then
        DoFallbackConnect(if Truthy(hostname) then hostname.value else raw)
      else DoUnknown
  }
}
