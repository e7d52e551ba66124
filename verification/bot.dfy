/** What the bot does with one inbound message: the HTTP request it issues,
    if any, and the chat message it sends, if any (bot.js). */
module Bot {
  import opened Wrappers
  import opened Commands
  import opened StatusReply

  /** Process-wide settings read from the environment at startup. */
  datatype Config = Config(hostname: string, startEndpoint: string, stopEndpoint: string, apiKey: string)

  /** An outbound GET request with its headers as name/value pairs. */
  datatype HttpRequest = HttpGet(url: string, headers: seq<(string, string)>)

  /** Why a fetch chain rejected: the request failed, or the body was not JSON. */
  datatype FetchError = NetworkError | InvalidJson

  /** What each endpoint's fetch chain would settle to for this message. The
      management endpoints' bodies are parsed but never read, so only success
      or failure is kept. */
  datatype Responses = Responses(
    status: Result<Payload, FetchError>,
    start: Result<(), FetchError>,
    stop: Result<(), FetchError>)

  /** An outbound chat message. `ReplyToSender` is `msg.reply`: posted in the
      command's channel with a mention of the sender in front. `SendToChannel`
      is `msg.channel.send`: posted in that channel with no mention. */
  datatype Action = ReplyToSender(text: string) | SendToChannel(text: string)

  /** Everything one message causes. */
  datatype Effects = Effects(request: Option<HttpRequest>, action: Option<Action>)

  const StatusApi: string := "https://api.mcsrvstat.us/2/"
  const ApiKeyHeader: string := "x-api-key"

  const HelpReply: string :=
    "Commands: \n"
    + "!help - Prints this message.\n"
    + "!po3 status - Checks the status of the PO3 Minecraft Server to see if it is running.  If anyone is playing, it also lists their usernames.\n"
    + "!po3 start server - Starts the PO3 Minecraft Server if it is not already running.\n"
    + "!po3 stop server - Stops the PO3 Minecraft Server if it is running.  Please use !po3 status to check if anyone is playing before you do this."

  const StartAck: string := "Starting server... Use !po3 status in a few minutes to see if the server is running."
  const StopAck: string := "Stopping server... Thanks for playing!"

  /** The request a command issues; help issues none. */
  function RequestFor(c: Command, cfg: Config): (r: Option<HttpRequest>)
    ensures r.None? <==> c == Help
    ensures c == Status ==> r == Some(HttpGet(StatusApi + cfg.hostname, []))
    ensures (c == StartServer || c == StopServer) ==> r.Some? && r.value.headers == [(ApiKeyHeader, cfg.apiKey)]
  {
    match c
    case Help => None
    case Status => Some(HttpGet(StatusApi + cfg.hostname, []))
    case StartServer => Some(HttpGet(cfg.startEndpoint, [(ApiKeyHeader, cfg.apiKey)]))
    case StopServer => Some(HttpGet(cfg.stopEndpoint, [(ApiKeyHeader, cfg.apiKey)]))
  }

  /** The status handler: posts the rendered reply with `msg.channel.send`; a rejected
      fetch chain, or a handler that throws, posts nothing. */
  function ReportStatus(hostname: string, fetched: Result<Payload, FetchError>): (r: Option<Action>)
    ensures r.Some? <==> fetched.Success? && !(fetched.value.online && fetched.value.players.None?)
    ensures r.Some? ==> r.value.SendToChannel? && IsPrefix(ServerLabel + hostname + StatusLabel, r.value.text)
  {
    match fetched
    case Failure(_) => None
    case Success(data) =>
      match Render(hostname, data)
      case None => None
      case Some(reply) => Some(SendToChannel(reply))
  }

  /** The start and stop handlers: the fixed acknowledgement as a `msg.reply` once
      the chain succeeds, nothing when it rejects. `fetch` resolves on any HTTP
      status, so a refusal from the management API that still carries a JSON
      body settles to `Success` and is acknowledged all the same. */
  function Acknowledge(fetched: Result<(), FetchError>, ack: string): (r: Option<Action>)
    ensures r.Some? <==> fetched.Success?
    ensures r.Some? ==> r.value == ReplyToSender(ack)
  {
    match fetched
    case Failure(_) => None
    case Success(_) => Some(ReplyToSender(ack))
  }

  /** The chat message a command leads to, given the endpoints' outcomes. */
  function Respond(c: Command, hostname: string, responses: Responses): (r: Option<Action>)
    ensures c == Help ==> r == Some(ReplyToSender(HelpReply))
    ensures r.Some? && r.value.SendToChannel? ==> c == Status
    ensures c == StartServer ==> (r.Some? <==> responses.start.Success?) && (r.Some? ==> r.value == ReplyToSender(StartAck))
    ensures c == StopServer ==> (r.Some? <==> responses.stop.Success?) && (r.Some? ==> r.value == ReplyToSender(StopAck))
  {
    match c
    case Help => Some(ReplyToSender(HelpReply))
    case Status => ReportStatus(hostname, responses.status)
    case StartServer => Acknowledge(responses.start, StartAck)
    case StopServer => Acknowledge(responses.stop, StopAck)
  }

  /** The whole listener for one message. */
  function OnMessage(text: string, cfg: Config, responses: Responses): (e: Effects)
    ensures Classify(text).None? ==> e == Effects(None, None)
    ensures e.request.Some? ==> Classify(text).Some? && Classify(text).value != Help
    ensures e.action.Some? ==> Classify(text).Some?
  {
    match Classify(text)
    case None => Effects(None, None)
    case Some(c) => Effects(RequestFor(c, cfg), Respond(c, cfg.hostname, responses))
  }

  /** Routing per command: help text as a `msg.reply` without any request; the
      status reply through `msg.channel.send`; the fixed acknowledgements as a `msg.reply`
      exactly when their chains succeed. */
  lemma Routing(text: string, cfg: Config, responses: Responses)
    ensures text == HelpCommand ==>
      OnMessage(text, cfg, responses) == Effects(None, Some(ReplyToSender(HelpReply)))
    ensures text == StatusCommand ==>
      var e := OnMessage(text, cfg, responses);
      && e.request == Some(HttpGet(StatusApi + cfg.hostname, []))
      && (e.action.Some? <==> responses.status.Success? && Render(cfg.hostname, responses.status.value).Some?)
      && (e.action.Some? ==> e.action.value == SendToChannel(Render(cfg.hostname, responses.status.value).value))
    ensures text == StartCommand ==>
      var e := OnMessage(text, cfg, responses);
      && e.request == Some(HttpGet(cfg.startEndpoint, [(ApiKeyHeader, cfg.apiKey)]))
      && e.action == (if responses.start.Success? then Some(ReplyToSender(StartAck)) else None)
    ensures text == StopCommand ==>
      var e := OnMessage(text, cfg, responses);
      && e.request == Some(HttpGet(cfg.stopEndpoint, [(ApiKeyHeader, cfg.apiKey)]))
      && e.action == (if responses.stop.Success? then Some(ReplyToSender(StopAck)) else None)
  {
    ClassifyExact(text, Help);
    ClassifyExact(text, Status);
    ClassifyExact(text, StartServer);
    ClassifyExact(text, StopServer);
  }

  /** Only the status command posts through `msg.channel.send`; help and the
      acknowledgements go through `msg.reply`. */
  lemma ChannelOnlyForStatus(text: string, cfg: Config, responses: Responses)
    requires OnMessage(text, cfg, responses).action.Some?
    ensures OnMessage(text, cfg, responses).action.value.SendToChannel? <==> text == StatusCommand
  {
    ClassifyExact(text, Status);
  }

  /** A rejected fetch chain is silent: the message is answered by nothing. */
  lemma FailureIsSilent(text: string, cfg: Config, responses: Responses)
    requires text != HelpCommand
    requires responses.status.Failure? && responses.start.Failure? && responses.stop.Failure?
    ensures OnMessage(text, cfg, responses).action == None
  {
  }

  /** The outcome of the endpoint a command does not call has no influence on
      what the bot says. */
  lemma OnlyCalledEndpointMatters(text: string, cfg: Config, a: Responses, b: Responses)
    requires text == StatusCommand ==> a.status == b.status
    requires text == StartCommand ==> a.start == b.start
    requires text == StopCommand ==> a.stop == b.stop
    ensures OnMessage(text, cfg, a) == OnMessage(text, cfg, b)
  {
  }

  /** No message the bot sends is itself a command, so the bot, which also
      hears its own messages, never triggers itself. */
  lemma NoSelfTrigger(text: string, cfg: Config, responses: Responses)
    requires OnMessage(text, cfg, responses).action.Some?
    ensures Classify(OnMessage(text, cfg, responses).action.value.text) == None
  {
    var said := OnMessage(text, cfg, responses).action.value.text;
    if said != HelpReply && said != StartAck && said != StopAck {
      assert said[0] == 'S';
    } else if said == HelpReply {
      assert said[0] == 'C';
    } else {
      assert |said| > 20;
    }
  }
}
