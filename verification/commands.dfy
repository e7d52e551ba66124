/** Classification of an inbound chat message into at most one bot command
    (the `message` listener of bot.js). */
module Commands {
  import opened Wrappers

  datatype Command = Help | Status | StartServer | StopServer

  const HelpCommand: string := "!help"
  /** Messages that do not contain this substring are dropped after the help check. */
  const CommandPrefix: string := "!po3"
  const StatusCommand: string := "!po3 status"
  const StartCommand: string := "!po3 start server"
  const StopCommand: string := "!po3 stop server"

  /** The one message text that triggers `c`. */
  function CommandText(c: Command): string {
    match c
    case Help => HelpCommand
    case Status => StatusCommand
    case StartServer => StartCommand
    case StopServer => StopCommand
  }

  /** `pat` occurs in `s` at offset `i`. */
  ghost predicate OccursAt(s: string, pat: string, i: int) {
    0 <= i && i + |pat| <= |s| && s[i..i + |pat|] == pat
  }

  /** JavaScript's `String.prototype.includes`: `pat` is a substring of `s`. */
  function Includes(s: string, pat: string): (r: bool)
    ensures r <==> exists i :: OccursAt(s, pat, i)
  {
    if |s| < |pat| then false
    else if s[..|pat|] == pat then
      assert OccursAt(s, pat, 0);
      true
    else
      var r := Includes(s[1..], pat);
      assert r <==> exists i :: OccursAt(s, pat, i) by {
        OccursShift(s, pat);
      }
      r
  }

  /** Once `pat` is not at the front of `s`, it occurs in `s` exactly when it
      occurs in `s` without its first character. */
  lemma OccursShift(s: string, pat: string)
    requires |pat| <= |s| && s[..|pat|] != pat
    ensures (exists i :: OccursAt(s, pat, i)) <==> exists j :: OccursAt(s[1..], pat, j)
  {
    forall i | OccursAt(s, pat, i)
      ensures OccursAt(s[1..], pat, i - 1)
    {
      assert s[1..][i - 1..i - 1 + |pat|] == s[i..i + |pat|];
    }
    forall j | OccursAt(s[1..], pat, j)
      ensures OccursAt(s, pat, j + 1)
    {
      assert s[1..][j..j + |pat|] == s[j + 1..j + 1 + |pat|];
    }
  }

  /** The listener as written: an `if` for help, an early return when the
      message lacks the command prefix, then three independent `if`s. Each
      entry is a handler that runs for `text`, in program order. */
  function HandlersRun(text: string): (r: seq<Command>)
    ensures text != HelpCommand && !Includes(text, CommandPrefix) ==> r == []
    ensures forall i :: 0 <= i < |r| ==> text == CommandText(r[i])
  {
    var help := if text == HelpCommand then [Help] else [];
    if !Includes(text, CommandPrefix) then help
    else
      help
      + (if text == StatusCommand then [Status] else [])
      + (if text == StartCommand then [StartServer] else [])
      + (if text == StopCommand then [StopServer] else [])
  }

  /** The listener as a single decision: the command `text` triggers, if any. */
  function Classify(text: string): (r: Option<Command>)
    ensures r.Some? ==> text == CommandText(r.value)
    ensures r.None? ==> forall c: Command :: text != CommandText(c)
  {
    if text == HelpCommand then Some(Help)
    else if !Includes(text, CommandPrefix) then
      assert text != StatusCommand && text != StartCommand && text != StopCommand by {
        PrefixedCommandsPassGate(Status);
        PrefixedCommandsPassGate(StartServer);
        PrefixedCommandsPassGate(StopServer);
      }
      None
    else if text == StatusCommand then Some(Status)
    else if text == StartCommand then Some(StartServer)
    else if text == StopCommand then Some(StopServer)
    else None
  }

  /** Every `!po3` command text passes the prefix gate. */
  lemma PrefixedCommandsPassGate(c: Command)
    requires c != Help
    ensures Includes(CommandText(c), CommandPrefix)
  {
    assert OccursAt(CommandText(c), CommandPrefix, 0);
  }

  /** The help command does not contain the prefix. */
  lemma HelpFailsGate()
    ensures !Includes(HelpCommand, CommandPrefix)
  {
    var s := HelpCommand;
    assert s[..4][1] == 'h' != CommandPrefix[1];
    assert s[1..][..4][0] == 'h' != CommandPrefix[0];
    assert !Includes(s[1..][1..], CommandPrefix);
  }

  /** Exactly the four command texts trigger a command, each its own one:
      a trailing space, a different case or extra words trigger nothing. */
  lemma ClassifyExact(text: string, c: Command)
    ensures Classify(text) == Some(c) <==> text == CommandText(c)
  {
    if text == CommandText(c) && c != Help {
      PrefixedCommandsPassGate(c);
    }
  }

  /** A message that neither is `!help` nor contains `!po3` is ignored. */
  lemma GateDropsUnprefixed(text: string)
    requires text != HelpCommand && !Includes(text, CommandPrefix)
    ensures Classify(text) == None
    ensures HandlersRun(text) == []
  {
  }

  /** At most one handler runs per message, and it is the classified command:
      `!help` never also reaches a `!po3` branch. */
  lemma AtMostOneHandler(text: string)
    ensures |HandlersRun(text)| <= 1
    ensures HandlersRun(text) == (if Classify(text).Some? then [Classify(text).value] else [])
  {
    if text == HelpCommand {
      HelpFailsGate();
    }
  }
}
