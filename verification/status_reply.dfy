/** The reply to `!po3 status`: rendering of the hostname and the parsed
    mcsrvstat.us payload into chat text (`ReportMinecraftServerStatus` in
    bot.js), and a reader that recovers the facts the text shows. */
module StatusReply {
  import opened Wrappers
  import opened Decimal

  /** The `players` object of the status payload; `list` may be missing. */
  datatype Players = Players(online: nat, max: nat, list: Option<seq<string>>)

  /** The parsed status payload; `players` may be missing. */
  datatype Payload = Payload(online: bool, players: Option<Players>)

  /** What a reply shows: the server is offline, or online with a player
      count, a capacity and (when the payload had one) a list of names. */
  datatype Summary = Offline | Online(playing: nat, capacity: nat, names: Option<seq<string>>)

  const ServerLabel: string := "Server: "
  const StatusLabel: string := "\nStatus: "
  const OnlineWord: string := "Online!"
  const OfflineWord: string := "Offline"
  const PlayersLabel: string := "\nPlayers: "
  const CountSeparator: string := " / "
  const PlayingLabel: string := "\nCurrently Playing: "

  /** The first two lines, up to and including the status word. */
  function Header(hostname: string, online: bool): string {
    ServerLabel + hostname + StatusLabel + (if online then OnlineWord else OfflineWord)
  }

  /** Each name followed by one space, in list order. */
  function Terminated(names: seq<string>): string {
    if names == [] then "" else names[0] + " " + Terminated(names[1..])
  }

  /** The reply the `.then` handler posts, or `None` when it throws before
      posting: the server is online but the payload has no `players`, so the
      players line dereferences a missing object and `.catch` swallows it. */
  function Render(hostname: string, data: Payload): (r: Option<string>)
    ensures r.None? <==> data.online && data.players.None?
    ensures r.Some? ==> IsPrefix(Header(hostname, data.online), r.value)
    ensures !data.online ==> r == Some(ServerLabel + hostname + StatusLabel + OfflineWord)
  {
    var isServerOnline := data.online;
    var arePlayersOnline := data.players.Some? && data.players.value.list.Some?;
    var reply := ServerLabel + hostname + StatusLabel + (if isServerOnline then OnlineWord else OfflineWord);
    if !isServerOnline then Some(reply)
    else if data.players.None? then None
    else
      var players := data.players.value;
      var reply := reply + PlayersLabel + NatToString(players.online) + CountSeparator + NatToString(players.max);
      if arePlayersOnline then Some(reply + PlayingLabel + Terminated(players.list.value))
      else Some(reply)
  }

  predicate IsPrefix(p: string, s: string) {
    |p| <= |s| && s[..|p|] == p
  }

  /** Appending one more name to the list text appends that name and a space. */
  lemma {:induction false} TerminatedSnoc(names: seq<string>, name: string)
    ensures Terminated(names + [name]) == Terminated(names) + name + " "
  {
    if names == [] {
      assert [] + [name] == [name];
    } else {
      assert (names + [name])[1..] == names[1..] + [name];
      TerminatedSnoc(names[1..], name);
    }
  }

  /** The handler's `for` loop: appends each name and a trailing space to
      `reply`, in list order. */
  method AppendNames(reply: string, names: seq<string>) returns (r: string)
    ensures r == reply + Terminated(names)
    ensures |r| == |reply| + |Terminated(names)|
  {
    r := reply;
    var i := 0;
    while i < |names|
      invariant 0 <= i <= |names|
      invariant r == reply + Terminated(names[..i])
    {
      TerminatedSnoc(names[..i], names[i]);
      assert names[..i + 1] == names[..i] + [names[i]];
      r := r + names[i] + " ";
      i := i + 1;
    }
    assert names[..i] == names;
  }

  /** The handler body as statements: `posted` is false exactly when the
      handler throws, and otherwise `reply` is the text posted. */
  method BuildReply(hostname: string, data: Payload) returns (posted: bool, reply: string)
    ensures posted <==> !(data.online && data.players.None?)
    ensures posted ==> Some(reply) == Render(hostname, data)
  {
    var isServerOnline := data.online;
    var arePlayersOnline := data.players.Some? && data.players.value.list.Some?;
    reply := ServerLabel + hostname;
    reply := reply + StatusLabel + (if isServerOnline then OnlineWord else OfflineWord);
    if isServerOnline {
      if data.players.None? {
        return false, reply;
      }
      var players := data.players.value;
      reply := reply + PlayersLabel + NatToString(players.online) + CountSeparator + NatToString(players.max);
      if arePlayersOnline {
        reply := reply + PlayingLabel;
        reply := AppendNames(reply, players.list.value);
      }
    }
    posted := true;
  }

  /** The facts a payload shows, or `None` when the handler throws. */
  function Summarize(data: Payload): Option<Summary> {
    if !data.online then Some(Offline)
    else match data.players
      case None => None
      case Some(p) => Some(Online(p.online, p.max, p.list))
  }

  /** The reply text for a summary. */
  function Show(hostname: string, s: Summary): string {
    match s
    case Offline => Header(hostname, false)
    case Online(n, m, names) =>
      Header(hostname, true) + PlayersLabel + NatToString(n) + CountSeparator + NatToString(m)
      + PlayingText(names)
  }

  /** Rendering depends on the payload only through its summary. */
  lemma RenderShowsSummary(hostname: string, data: Payload)
    ensures Render(hostname, data).None? <==> Summarize(data).None?
    ensures Summarize(data).Some? ==> Render(hostname, data) == Some(Show(hostname, Summarize(data).value))
  {
    if data.online && data.players.Some? {
      var p := data.players.value;
      var counts := Header(hostname, true) + PlayersLabel + NatToString(p.online) + CountSeparator + NatToString(p.max);
      if p.list.Some? {
        assert counts + PlayingLabel + Terminated(p.list.value) == counts + PlayingText(p.list);
      } else {
        assert counts + PlayingText(p.list) == counts;
      }
    }
  }

  /** An offline reply is the same whatever player data the payload carries. */
  lemma OfflineIgnoresPlayers(hostname: string, a: Option<Players>, b: Option<Players>)
    ensures Render(hostname, Payload(false, a)) == Render(hostname, Payload(false, b))
    ensures Render(hostname, Payload(false, a)) == Some(Header(hostname, false))
  {
  }

  /** Online with player data: the third line is the count, a spaced slash and
      the capacity; it ends the reply when the list is missing, and otherwise
      the reply ends with the playing header and each name plus a space (the
      header appears even for an empty list). */
  lemma OnlineLayout(hostname: string, p: Players)
    ensures var r := Render(hostname, Payload(true, Some(p)));
      var counts := Header(hostname, true) + PlayersLabel + NatToString(p.online) + CountSeparator + NatToString(p.max);
      && r.Some?
      && (p.list.None? ==> r.value == counts)
      && (p.list.Some? ==> r.value == counts + PlayingLabel + Terminated(p.list.value))
  {
  }

  predicate NoSpaces(names: seq<string>) {
    forall i, j :: 0 <= i < |names| && 0 <= j < |names[i]| ==> names[i][j] != ' '
  }

  /** Index of the first `c` in `s`, or `|s|` when there is none. */
  function IndexOf(s: string, c: char): (k: nat)
    ensures k <= |s|
    ensures forall i :: 0 <= i < k ==> s[i] != c
    ensures k < |s| ==> s[k] == c
  {
    if s == [] then 0 else if s[0] == c then 0 else 1 + IndexOf(s[1..], c)
  }

  /** Reads space-terminated names; `None` when text is left after the last space. */
  function ParseTerminated(s: string): Option<seq<string>>
    decreases |s|
  {
    if s == [] then Some([])
    else
      var k := IndexOf(s, ' ');
      if k == |s| then None
      else match ParseTerminated(s[k + 1..])
        case None => None
        case Some(rest) => Some([s[..k]] + rest)
  }

  lemma {:induction false} IndexOfAfter(a: string, c: char, t: string)
    requires forall i :: 0 <= i < |a| ==> a[i] != c
    ensures IndexOf(a + [c] + t, c) == |a|
  {
    if a != [] {
      assert (a + [c] + t)[1..] == a[1..] + [c] + t;
      IndexOfAfter(a[1..], c, t);
    }
  }

  /** Round trip for the list text when no name contains a space. */
  lemma {:induction false} ParseTerminatedRoundTrip(names: seq<string>)
    requires NoSpaces(names)
    ensures ParseTerminated(Terminated(names)) == Some(names)
  {
    if names != [] {
      var s := Terminated(names);
      var t := Terminated(names[1..]);
      assert s == names[0] + [' '] + t;
      assert forall j :: 0 <= j < |names[0]| ==> names[0][j] != ' ' by {
        forall j | 0 <= j < |names[0]| ensures names[0][j] != ' ' {
          assert 0 < |names|;
        }
      }
      IndexOfAfter(names[0], ' ', t);
      assert s[|names[0]| + 1..] == t;
      assert s[..|names[0]|] == names[0];
      assert NoSpaces(names[1..]) by {
        forall i, j | 0 <= i < |names[1..]| && 0 <= j < |names[1..][i]|
          ensures names[1..][i][j] != ' '
        {
          assert names[1..][i] == names[i + 1];
        }
      }
      ParseTerminatedRoundTrip(names[1..]);
      assert [names[0]] + names[1..] == names;
    }
  }

  /** Reads a status reply for `hostname` back into the facts it shows. */
  function ParseReply(hostname: string, reply: string): Option<Summary> {
    var head := ServerLabel + hostname + StatusLabel;
    if !IsPrefix(head, reply) then None
    else
      var rest := reply[|head|..];
      if rest == OfflineWord then Some(Offline)
      else if !IsPrefix(OnlineWord + PlayersLabel, rest) then None
      else ParseCounts(rest[|OnlineWord + PlayersLabel|..])
  }

  /** Reads `n / m`, then the optional playing line, after the players label. */
  function ParseCounts(s: string): Option<Summary> {
    match ParseNat(s)
    case None => None
    case Some((n, rest)) =>
      if !IsPrefix(CountSeparator, rest) then None
      else match ParseNat(rest[|CountSeparator|..])
        case None => None
        case Some((m, rest)) =>
          match ParsePlaying(rest)
          case None => None
          case Some(names) => Some(Online(n, m, names))
  }

  /** Reads the optional playing line: nothing, or the header and a name list. */
  function ParsePlaying(s: string): Option<Option<seq<string>>> {
    if s == [] then Some(None)
    else if !IsPrefix(PlayingLabel, s) then None
    else match ParseTerminated(s[|PlayingLabel|..])
      case None => None
      case Some(names) => Some(Some(names))
  }

  /** The text after the capacity: empty, or the playing line. */
  function PlayingText(names: Option<seq<string>>): string {
    match names
    case None => ""
    case Some(ns) => PlayingLabel + Terminated(ns)
  }

  predicate SpaceFree(s: Summary) {
    s.Online? && s.names.Some? ==> NoSpaces(s.names.value)
  }

  lemma ParsePlayingShow(names: Option<seq<string>>)
    requires names.Some? ==> NoSpaces(names.value)
    ensures ParsePlaying(PlayingText(names)) == Some(names)
  {
    if names.Some? {
      var t := PlayingText(names);
      assert t[..|PlayingLabel|] == PlayingLabel;
      assert t[|PlayingLabel|..] == Terminated(names.value);
      ParseTerminatedRoundTrip(names.value);
    }
  }

  lemma ParseCountsShow(n: nat, m: nat, names: Option<seq<string>>)
    requires names.Some? ==> NoSpaces(names.value)
    ensures ParseCounts(NatToString(n) + CountSeparator + NatToString(m) + PlayingText(names))
      == Some(Online(n, m, names))
  {
    PlayingTextStart(names);
    ParsePlayingShow(names);
    ParseCountsOf(n, m, PlayingText(names), names);
  }

  /** The playing text is empty or starts a new line. */
  lemma PlayingTextStart(names: Option<seq<string>>)
    ensures PlayingText(names) == [] || PlayingText(names)[0] == '\n'
  {
  }

  lemma ParseCountsOf(n: nat, m: nat, afterM: string, names: Option<seq<string>>)
    requires afterM == [] || afterM[0] == '\n'
    requires ParsePlaying(afterM) == Some(names)
    ensures ParseCounts(NatToString(n) + CountSeparator + NatToString(m) + afterM) == Some(Online(n, m, names))
  {
    var afterSep := NatToString(m) + afterM;
    ParseNatToString(m, afterM);
    var afterN := CountSeparator + afterSep;
    ParseNatToString(n, afterN);
    ConcatAssoc(NatToString(n), CountSeparator, NatToString(m), afterM);
    ParseCountsSteps(NatToString(n) + afterN, n, afterN, afterSep, m, afterM, names);
  }

  lemma ConcatAssoc(a: string, b: string, c: string, d: string)
    ensures a + b + c + d == a + (b + (c + d))
  {
  }

  /** `ParseCounts` succeeds when each of its three readers succeeds in turn. */
  lemma ParseCountsSteps(s: string, n: nat, afterN: string, afterSep: string, m: nat, afterM: string,
                         names: Option<seq<string>>)
    requires ParseNat(s) == Some((n, afterN))
    requires afterN == CountSeparator + afterSep
    requires ParseNat(afterSep) == Some((m, afterM))
    requires ParsePlaying(afterM) == Some(names)
    ensures ParseCounts(s) == Some(Online(n, m, names))
  {
    assert IsPrefix(CountSeparator, afterN);
    assert afterN[|CountSeparator|..] == afterSep;
  }

  /** Round trip: a reply shows its summary unambiguously, provided no player
      name contains a space (Minecraft names never do). */
  lemma ParseShow(hostname: string, s: Summary)
    requires SpaceFree(s)
    ensures ParseReply(hostname, Show(hostname, s)) == Some(s)
  {
    match s
    case Offline =>
      ParseReplyOffline(hostname);
    case Online(n, m, names) =>
      var counts := NatToString(n) + CountSeparator + NatToString(m) + PlayingText(names);
      ShowOnline(hostname, n, m, names);
      ParseReplyOnline(hostname, counts);
      ParseCountsShow(n, m, names);
  }

  /** The online reply is the header, the players label and the counts text. */
  lemma ShowOnline(hostname: string, n: nat, m: nat, names: Option<seq<string>>)
    ensures Show(hostname, Online(n, m, names))
      == ServerLabel + hostname + StatusLabel + (OnlineWord + PlayersLabel)
         + (NatToString(n) + CountSeparator + NatToString(m) + PlayingText(names))
  {
    OnlineRegroup(ServerLabel + hostname + StatusLabel, NatToString(n), NatToString(m), PlayingText(names));
  }

  lemma OnlineRegroup(head: string, a: string, b: string, t: string)
    ensures head + OnlineWord + PlayersLabel + a + CountSeparator + b + t
      == head + (OnlineWord + PlayersLabel) + (a + CountSeparator + b + t)
  {
  }

  /** The offline reply reads back as offline. */
  lemma ParseReplyOffline(hostname: string)
    ensures ParseReply(hostname, Show(hostname, Offline)) == Some(Offline)
  {
    var head := ServerLabel + hostname + StatusLabel;
    assert Show(hostname, Offline) == head + OfflineWord;
    assert (head + OfflineWord)[|head|..] == OfflineWord;
  }

  /** After the header, the online word and the players label, `ParseReply`
      hands whatever follows to `ParseCounts`. */
  lemma ParseReplyOnline(hostname: string, counts: string)
    ensures ParseReply(hostname, ServerLabel + hostname + StatusLabel + (OnlineWord + PlayersLabel) + counts)
      == ParseCounts(counts)
  {
    var head := ServerLabel + hostname + StatusLabel;
    var reply := head + (OnlineWord + PlayersLabel) + counts;
    assert reply[..|head|] == head;
    var rest := reply[|head|..];
    assert rest == OnlineWord + PlayersLabel + counts;
    assert rest != OfflineWord by {
      assert rest[1] == 'n' != OfflineWord[1];
    }
    assert rest[..|OnlineWord + PlayersLabel|] == OnlineWord + PlayersLabel;
    assert rest[|OnlineWord + PlayersLabel|..] == counts;
  }

  /** Two payloads whose replies coincide show the same facts, when their
      player names contain no spaces. */
  lemma RenderInjective(hostname: string, a: Payload, b: Payload)
    requires Render(hostname, a).Some? && Render(hostname, a) == Render(hostname, b)
    requires SpaceFree(Summarize(a).value) && SpaceFree(Summarize(b).value)
    ensures Summarize(a) == Summarize(b)
  {
    RenderShowsSummary(hostname, a);
    RenderShowsSummary(hostname, b);
    ParseShow(hostname, Summarize(a).value);
    ParseShow(hostname, Summarize(b).value);
  }
}
