# Hootenanny Watchdog — a Dafny model of the bot's decision logic

Hootenanny Watchdog is a Discord bot. It answers four chat commands. It reports a
Minecraft server's status from the mcsrvstat.us API, and it asks a management API
to start or stop the server. This project models the pure decisions inside
`bot.js` and proves properties about them:

- **Commands** models the `message` listener. `Classify` maps message text to at
  most one command. `HandlersRun` models the listener as written: a help `if`,
  an early return for messages without `!po3`, then three independent `if`s.
  The two are proved to agree, so no message runs two handlers.
- **StatusReply** models the body of the status handler's second `.then`.
  `Render` builds the reply from the hostname and the parsed payload.
  `BuildReply` and `AppendNames` are the same steps as statements, with the
  name loop. `ParseReply` reads a reply back into the facts it shows. It is
  proved to invert the renderer whenever no player name contains a space.
- **Decimal** renders player counts as decimal text. A parser reads them back.
- **Bot** models routing. Help is sent with `msg.reply` and issues no request.
  The status reply is sent with `msg.channel.send`. The start and stop
  acknowledgements are sent with `msg.reply`, and only when the request chain
  succeeds. Both kinds of message appear in the channel the command came from;
  `msg.reply` also puts a mention of the sender in front. A rejected chain sends
  nothing. No message the bot sends is itself a command.

The hostname, endpoints and API key come from the environment in the program.
Here they are parameters (`Config`). Each fetch chain is represented by the
value it settles to (`Responses`): the parsed payload for status, or success
or failure for start and stop.

At these points the code behaves as follows, and the model follows it:
- the players line is `Players: n / m`, with spaces around the slash;
- `Currently Playing: ` appears whenever the payload has a `players.list`, even
  an empty one;
- every name is followed by one space, including the last;
- a payload that is online but has no `players` makes the handler throw, so
  nothing is posted.

A natural question is whether `!help` and a `!po3` command
both fire for one message. They cannot, because every test is an exact
equality and `!help` does not contain `!po3`. `Commands.AtMostOneHandler`
proves this.

## Model

| member | source | states |
|---|---|---|
| Commands.Includes | bot.js:35 | `includes` is true exactly when the pattern occurs at some offset of the message |
| Commands.Classify | bot.js:31-45 | a classified message is exactly that command's text; an unclassified message equals no command text |
| Commands.ClassifyExact | bot.js:31-45 | `Classify(text) == Some(c)` if and only if `text` is exactly `c`'s command string, so a trailing space or a case change triggers nothing |
| Commands.PrefixedCommandsPassGate | bot.js:35-44 | each of the three `!po3` command strings passes the prefix gate, so the gate never blocks them |
| Commands.HelpFailsGate | bot.js:31-35 | `!help` does not contain `!po3`, so the listener returns at the gate after help |
| Commands.GateDropsUnprefixed | bot.js:35 | a message that is not `!help` and lacks `!po3` runs no handler |
| Commands.HandlersRun | bot.js:31-45 | a handler runs only when the message is exactly its command string; none runs for text that is not `!help` and lacks `!po3` |
| Commands.AtMostOneHandler | bot.js:31-45 | the as-written sequence of `if`s runs at most one handler, and it is the classified command |
| Decimal.NatToString | bot.js:103 | a count renders as non-empty decimal digits with no leading zero that denote the count again |
| Decimal.ParseNatToString | bot.js:103 | the rendered count, followed by a non-digit, parses back to the count and the rest |
| StatusReply.Render | bot.js:94-112 | no reply exactly when online with `players` missing; every reply starts with the server line and the status word; offline gives exactly two lines |
| StatusReply.TerminatedSnoc | bot.js:107-109 | one more loop step appends that name and one space |
| StatusReply.AppendNames | bot.js:105-109 | the loop appends each name plus one space, in list order |
| StatusReply.BuildReply | bot.js:94-115 | the statement version posts exactly when `Render` yields a reply, and posts that same text |
| StatusReply.RenderShowsSummary | bot.js:94-112 | the reply depends on the payload only through a summary: offline, or counts plus an optional name list |
| StatusReply.OfflineIgnoresPlayers | bot.js:99-102 | an offline reply is the same for any player data and has no Players or Currently Playing line |
| StatusReply.OnlineLayout | bot.js:102-111 | online with player data gives `Players: n / m`; with a list it ends with the playing header and each name plus a space; without a list it ends after the counts |
| StatusReply.ParseTerminatedRoundTrip | bot.js:106-109 | the name text reads back to the same list when no name contains a space |
| StatusReply.ParsePlayingShow | bot.js:105-109 | the optional playing line reads back to the optional list |
| StatusReply.ParseCountsShow | bot.js:103-109 | the counts line and the playing line read back to the two counts and the list |
| StatusReply.ParseShow | bot.js:98-111 | round trip: reading a rendered reply recovers its summary, for space-free names |
| StatusReply.RenderInjective | bot.js:98-111 | two payloads with the same reply show the same facts, for space-free names |
| Bot.RequestFor | bot.js:86-140 | help issues no request; status GETs the mcsrvstat.us URL for the hostname; start and stop send the `x-api-key` header |
| Bot.ReportStatus | bot.js:89-117 | a `msg.channel.send` post exactly when the chain succeeds and the handler does not throw; the post begins with the server line |
| Bot.Acknowledge | bot.js:140-147 | the fixed acknowledgement is sent with `msg.reply` exactly when the chain succeeds |
| Bot.Respond | bot.js:32-44 | help is answered with the help text through `msg.reply`; only status can post through `msg.channel.send`; start and stop send their fixed acknowledgements through `msg.reply` exactly on success |
| Bot.OnMessage | bot.js:28-47 | an unrecognised message has no effect; only `!po3` commands issue requests |
| Bot.Routing | bot.js:28-177 | per command: help text through `msg.reply` with no request; the rendered status through `msg.channel.send`; each acknowledgement through `msg.reply` exactly on success |
| Bot.ChannelOnlyForStatus | bot.js:67-175 | only `!po3 status` posts through `msg.channel.send`; help and the acknowledgements go through `msg.reply` |
| Bot.FailureIsSilent | bot.js:117-177 | when every fetch chain rejects, only `!help` gets an answer |
| Bot.OnlyCalledEndpointMatters | bot.js:37-45 | the outcome of an endpoint the command does not call has no influence on the effects |
| Bot.NoSelfTrigger | bot.js:28-177 | no text the bot sends classifies as a command, so its own messages never trigger it |

## Left out

- Discord client construction, the `ready` listener and `client.login` are platform I/O.
- discord.js posts `msg.reply` text in the command's channel with a mention of the sender in front, so `ReplyToSender` is not a private message. It carries only the text the bot supplies; the mention is not modelled.
- Strings are sequences of Unicode characters rather than UTF-16 code units; text with unpaired surrogates is not modelled.
- `fetch`, `response.json()`, HTTP headers on the wire and the API key value are network calls. Each chain is represented by the value it settles to. No effect depends on why a chain rejected.
- `process.env` configuration is passed in as `Config`. An unset variable, which JavaScript would turn into the text `undefined`, is not modelled.
- `console.log` and `console.error` are logging only.
- Concurrent messages and promise interleaving are not modelled. Each message is handled on its own.
- JavaScript truthiness is modelled only as the payload's shape: `online` is a boolean, and `players` and `players.list` may each be missing. Other JSON shapes are not modelled.
- Decimal.NatToString: covers non-negative whole counts only. JavaScript's rendering of negative, fractional or very large numbers (1e21 and above use exponent notation) is not modelled.
- StatusReply.ParseShow: the round trip holds only when no player name contains a space. A name with a space renders the same as two names, so the reply text is ambiguous then.
