/**
 * What EchoServer promises, stated over the ServerProtocol functions that
 * the methods of Server.EchoServer are proved to implement: the login
 * handshake and the single-login rule, exact-match session ends, chat
 * broadcast, the preconditions of #setport and #start, and, over whole runs
 * of events, that #setport is refused until the transport reports the server
 * closed and that a stored loginId never changes.
 */
module ServerProperties {
  import opened JavaText
  import opened ServerProtocol

  // ---------------------------------------------------------------------------
  // One message from a client
  // ---------------------------------------------------------------------------

  /** The first login stores the second token and greets only the sender. */
  lemma FirstLoginStoresId(s: ServerState, msg: string, client: ConnId, ioOk: bool)
    requires IsLoginMessage(msg) && |Split(msg)| >= 2
    requires client !in s.loginIds
    ensures var t := OnClientMessage(s, msg, client, ioOk);
            var id := Split(msg)[1];
            && t.loginIds == s.loginIds[client := id]
            && t.calls == s.calls + (if ioOk then [SentToClient(client, "<" + id + "> has logged on")] else [])
            && t.serverClosed == s.serverClosed && t.listening == s.listening
            && t.port == s.port && t.terminated == s.terminated
  {
  }

  /** A second login closes the connection: the stored id stays, nothing is sent. */
  lemma RepeatedLoginClosesConnection(s: ServerState, msg: string, client: ConnId, ioOk: bool)
    requires IsLoginMessage(msg) && |Split(msg)| >= 2
    requires client in s.loginIds
    ensures var t := OnClientMessage(s, msg, client, ioOk);
            && t.loginIds == s.loginIds
            && t.calls == s.calls + (if ioOk then [ClosedClient(client)] else [])
            && t.serverClosed == s.serverClosed && t.listening == s.listening
            && t.port == s.port && t.terminated == s.terminated
  {
  }

  /** Exactly "#logoff" or "#quit" closes the sender and broadcasts nothing. */
  lemma SessionEndClosesSender(s: ServerState, msg: string, client: ConnId, ioOk: bool)
    requires IsSessionEnd(msg)
    ensures !IsLoginMessage(msg)
    ensures var t := OnClientMessage(s, msg, client, ioOk);
            && t.loginIds == s.loginIds
            && t.calls == s.calls + (if ioOk then [ClosedClient(client)] else [])
            && t.serverClosed == s.serverClosed && t.listening == s.listening
            && t.port == s.port && t.terminated == s.terminated
  {
    if msg == "#logoff" {
      assert msg[..6][5] == 'f';
    }
  }

  /** Anything else is broadcast once, prefixed with the sender's id ("null" before login). */
  lemma ChatIsBroadcastOnce(s: ServerState, msg: string, client: ConnId, ioOk: bool)
    requires !IsLoginMessage(msg) && !IsSessionEnd(msg)
    ensures var t := OnClientMessage(s, msg, client, ioOk);
            && t.calls == s.calls + [SentToAll(Render(LoginIdOf(s, client)) + "> " + msg)]
            && (client in s.loginIds ==> t.calls == s.calls + [SentToAll(s.loginIds[client] + "> " + msg)])
            && (client !in s.loginIds ==> t.calls == s.calls + [SentToAll("null> " + msg)])
            && t.loginIds == s.loginIds
            && t.serverClosed == s.serverClosed && t.listening == s.listening
            && t.port == s.port && t.terminated == s.terminated
  {
    assert "null" + "> " + msg == "null> " + msg;
  }

  /** The session-end match is exact: "#logoff " followed by anything, even nothing, is relayed as chat. */
  lemma LogoffWithArgumentIsChat(s: ServerState, arg: string, client: ConnId, ioOk: bool)
    ensures !IsLoginMessage("#logoff " + arg) && !IsSessionEnd("#logoff " + arg)
    ensures OnClientMessage(s, "#logoff " + arg, client, ioOk).calls
            == s.calls + [SentToAll(Render(LoginIdOf(s, client)) + "> #logoff " + arg)]
  {
    assert ("#logoff " + arg)[5] == 'f';
    var sender := Render(LoginIdOf(s, client));
    assert sender + "> " + ("#logoff " + arg) == sender + "> #logoff " + arg;
  }

  /**
   * Every message leads to at most one transport call: a broadcast exactly
   * for chat, a reply to the sender exactly for a first login, and the
   * registry changes only on a first login.
   */
  lemma MessageKinds(s: ServerState, msg: string, client: ConnId, ioOk: bool)
    requires CanHandle(msg)
    ensures var t := OnClientMessage(s, msg, client, ioOk);
            var n := |s.calls|;
            && s.calls <= t.calls && |t.calls| <= n + 1
            && ((|t.calls| == n + 1 && t.calls[n].SentToAll?) <==> !IsLoginMessage(msg) && !IsSessionEnd(msg))
            && ((|t.calls| == n + 1 && t.calls[n].SentToClient?) <==> IsLoginMessage(msg) && client !in s.loginIds && ioOk)
            && (t.loginIds != s.loginIds <==> IsLoginMessage(msg) && client !in s.loginIds)
            && t.serverClosed == s.serverClosed && t.listening == s.listening
            && t.port == s.port && t.terminated == s.terminated
  {
    var t := OnClientMessage(s, msg, client, ioOk);
    if IsLoginMessage(msg) && client !in s.loginIds {
      assert client in t.loginIds;
    }
  }

  // ---------------------------------------------------------------------------
  // Operator commands
  // ---------------------------------------------------------------------------

  /** #setport on a server that is not closed is refused and changes nothing else. */
  lemma SetPortNeedsClosedServer(s: ServerState, message: string, ioOk: bool)
    requires Names(message, "#setport") && !s.serverClosed
    ensures OnCommand(s, message, ioOk)
            == (s.(console := s.console + [MustBeClosedToSetPort]), Completed)
  {
  }

  /** On a closed server #setport distinguishes a missing from a malformed port. */
  lemma SetPortOnClosedServer(s: ServerState, message: string, ioOk: bool)
    requires Names(message, "#setport") && s.serverClosed
    ensures var (t, outcome) := OnCommand(s, message, ioOk);
            var parts := Split(message);
            && outcome == Completed
            && t == s.(port := t.port, console := t.console)
            && (|parts| < 2 ==>
                  t.port == s.port && t.console == s.console + [PortNotSpecified])
            && (|parts| >= 2 && ParseInt(parts[1]).None? ==>
                  t.port == s.port && t.console == s.console + [PortNotValidNumber])
            && (|parts| >= 2 && ParseInt(parts[1]).Some? ==>
                  t.port == ParseInt(parts[1]).value && t.console == s.console + [PortSetTo(parts[1])])
  {
  }

  /** #start while listening is refused and changes nothing else. */
  lemma StartNeedsStoppedServer(s: ServerState, message: string, ioOk: bool)
    requires Names(message, "#start") && s.listening
    ensures OnCommand(s, message, ioOk)
            == (s.(console := s.console + [MustBeStoppedToStart]), Completed)
  {
  }

  /** An unknown command name is reported and changes nothing else. */
  lemma UnrecognizedCommandIsReported(s: ServerState, message: string, ioOk: bool)
    requires Split(message) != []
    requires Split(message)[0] !in {"#quit", "#stop", "#close", "#setport", "#start", "#getport"}
    ensures OnCommand(s, message, ioOk) == (s.(console := s.console + [CommandNotRecognized]), Completed)
  {
  }

  /**
   * Commands never touch the sessions or the closed flag, and the process
   * terminates exactly on a #quit whose close() succeeds.
   */
  lemma CommandFrame(s: ServerState, message: string, ioOk: bool)
    requires Split(message) != []
    ensures var (t, outcome) := OnCommand(s, message, ioOk);
            && t.loginIds == s.loginIds
            && t.serverClosed == s.serverClosed
            && (t.terminated != s.terminated <==> !s.terminated && Names(message, "#quit") && ioOk)
            && (outcome == IOFailure ==> t == s)
  {
    ApplyCommandFrame(s, ParseCommand(message), ioOk);
  }

  lemma ApplyCommandFrame(s: ServerState, cmd: Command, ioOk: bool)
    ensures var (t, outcome) := ApplyCommand(s, cmd, ioOk);
            && s.calls <= t.calls
            && t.loginIds == s.loginIds
            && t.serverClosed == s.serverClosed
            && (t.terminated != s.terminated <==> !s.terminated && cmd.Quit? && ioOk)
            && (outcome == IOFailure ==> t == s)
  {
    if cmd.SetPort? {
      var t := OnSetPort(s, cmd.arg);
      assert t.loginIds == s.loginIds && t.serverClosed == s.serverClosed && t.terminated == s.terminated;
    }
  }

  /** The listening-started hook always clears the closed flag. */
  lemma StartedHookReopens(s: ServerState)
    ensures var t := OnServerStarted(s);
            && !t.serverClosed
            && t.console == s.console + [ListeningOnPort(s.port)]
            && t == s.(serverClosed := false, console := t.console)
  {
  }

  /** When listening stops, every client is warned. */
  lemma StoppedHookWarnsClients(s: ServerState)
    ensures var t := OnServerStopped(s);
            && t.calls == s.calls + [SentToAll("WARNING - server has stopped listening to connections")]
            && t.console == s.console + [StoppedListeningNotice]
            && t == s.(calls := t.calls, console := t.console)
  {
  }

  /** The server-closed hook sets the closed flag, which is what lets #setport through. */
  lemma ClosedHookClosesServer(s: ServerState)
    ensures var t := OnServerClosed(s);
            && t.serverClosed
            && t.console == s.console + [ServerHasBeenClosed]
            && t == s.(serverClosed := true, console := t.console)
  {
  }

  /** A disconnect is announced to every client with the departing id. */
  lemma DisconnectIsAnnounced(s: ServerState, client: ConnId)
    ensures var t := OnClientDisconnected(s, client);
            && t.calls == s.calls + [SentToAll("<" + Render(LoginIdOf(s, client)) + "> has disconnected")]
            && t.console == s.console + [DisconnectNotice(LoginIdOf(s, client))]
            && t == s.(calls := t.calls, console := t.console)
  {
  }

  // ---------------------------------------------------------------------------
  // Runs of events
  // ---------------------------------------------------------------------------

  /** Everything that can happen to the server, with the outcome of its transport calls. */
  datatype Event =
    | FromClient(client: ConnId, msg: string, ioOk: bool)
    | FromConsole(message: string, ioOk: bool)
    | Started
    | Stopped
    | Closed
    | Connected(client: ConnId)
    | Disconnected(client: ConnId)

  /** Inputs on which the Java code does not throw an unchecked exception. */
  predicate Admissible(e: Event)
  {
    match e
    case FromClient(_, msg, _) => CanHandle(msg)
    case FromConsole(message, _) => Split(message) != []
    case _ => true
  }

  predicate AllAdmissible(evs: seq<Event>)
  {
    forall i :: 0 <= i < |evs| ==> Admissible(evs[i])
  }

  function Step(s: ServerState, e: Event): ServerState
    requires Admissible(e)
  {
    match e
    case FromClient(client, msg, ioOk) => OnClientMessage(s, msg, client, ioOk)
    case FromConsole(message, ioOk) => OnCommand(s, message, ioOk).0
    case Started => OnServerStarted(s)
    case Stopped => OnServerStopped(s)
    case Closed => OnServerClosed(s)
    case Connected(client) => OnClientConnected(s, client)
    case Disconnected(client) => OnClientDisconnected(s, client)
  }

  function Run(s: ServerState, evs: seq<Event>): ServerState
    requires AllAdmissible(evs)
    decreases |evs|
  {
    if evs == [] then s else Run(Step(s, evs[0]), evs[1..])
  }

  /** What one event can do: the log only grows, stored ids stay, and only the closed hook sets the flag. */
  lemma StepFrame(s: ServerState, e: Event)
    requires Admissible(e)
    ensures var t := Step(s, e);
            && s.calls <= t.calls
            && (forall c :: c in s.loginIds ==> c in t.loginIds && t.loginIds[c] == s.loginIds[c])
            && (!e.Closed? && !s.serverClosed ==> !t.serverClosed)
  {
    match e {
      case FromClient(client, msg, ioOk) =>
        MessageKinds(s, msg, client, ioOk);
        if IsLoginMessage(msg) && client !in s.loginIds {
          FirstLoginStoresId(s, msg, client, ioOk);
        }
      case FromConsole(message, ioOk) =>
        ApplyCommandFrame(s, ParseCommand(message), ioOk);
      case _ =>
    }
  }

  /** Only the transport's server-closed hook ever sets the closed flag. */
  lemma {:induction false} ClosedFlagNeedsHook(s: ServerState, evs: seq<Event>)
    requires AllAdmissible(evs)
    requires !s.serverClosed
    requires forall i :: 0 <= i < |evs| ==> !evs[i].Closed?
    ensures !Run(s, evs).serverClosed
    decreases |evs|
  {
    if evs != [] {
      StepFrame(s, evs[0]);
      ClosedFlagNeedsHook(Step(s, evs[0]), evs[1..]);
    }
  }

  /** Until the server-closed hook has run, every #setport is refused. */
  lemma SetPortRefusedBeforeClose(port: int32, evs: seq<Event>, message: string, ioOk: bool)
    requires AllAdmissible(evs)
    requires forall i :: 0 <= i < |evs| ==> !evs[i].Closed?
    requires Names(message, "#setport")
    ensures var s := Run(Initial(port), evs);
            OnCommand(s, message, ioOk) == (s.(console := s.console + [MustBeClosedToSetPort]), Completed)
  {
    ClosedFlagNeedsHook(Initial(port), evs);
    SetPortNeedsClosedServer(Run(Initial(port), evs), message, ioOk);
  }

  /** Once a connection has a loginId, no run of events changes or removes it. */
  lemma {:induction false} LoginIdSetOnce(s: ServerState, evs: seq<Event>, client: ConnId)
    requires AllAdmissible(evs)
    requires client in s.loginIds
    ensures var t := Run(s, evs);
            client in t.loginIds && t.loginIds[client] == s.loginIds[client]
    decreases |evs|
  {
    if evs != [] {
      StepFrame(s, evs[0]);
      LoginIdSetOnce(Step(s, evs[0]), evs[1..], client);
    }
  }

  /** The transport log is append-only. */
  lemma {:induction false} CallsOnlyGrow(s: ServerState, evs: seq<Event>)
    requires AllAdmissible(evs)
    ensures s.calls <= Run(s, evs).calls
    decreases |evs|
  {
    if evs != [] {
      StepFrame(s, evs[0]);
      CallsOnlyGrow(Step(s, evs[0]), evs[1..]);
    }
  }

  // ---------------------------------------------------------------------------
  // Scenarios
  // ---------------------------------------------------------------------------

  lemma SplitTwoWords(a: string, b: string)
    requires ' ' !in a && ' ' !in b && b != ""
    ensures Split(a + " " + b) == [a, b]
  {
    SplitJoin([a, b]);
  }

  lemma ParseSixThousand()
    ensures ParseInt("6000") == Some(6000)
  {
    assert DigitsValue("6000") == DigitsValue("600") * 10 by { assert "6000"[..3] == "600"; }
    assert DigitsValue("600") == DigitsValue("60") * 10 by { assert "600"[..2] == "60"; }
    assert DigitsValue("60") == DigitsValue("6") * 10 by { assert "60"[..1] == "6"; }
    assert DigitsValue("6") == 6 by { assert "6"[..0] == ""; }
  }

  lemma SplitOneWord(name: string)
    requires name != "" && ' ' !in name
    ensures Split(name) == [name]
  {
  }

  lemma ParseStartAndClose()
    ensures ParseCommand("#start") == Start
    ensures ParseCommand("#close") == Close
  {
    SplitOneWord("#start");
    SplitOneWord("#close");
  }

  lemma ParseSetPortSixThousand()
    ensures ParseCommand("#setport 6000") == SetPort(Some("6000"))
  {
    SplitTwoWords("#setport", "6000");
    assert "#setport" + " " + "6000" == "#setport 6000";
  }

  /**
   * Started on port 5555, "#setport 6000" is refused; after "#close" and the
   * server-closed hook it sets the port to 6000.
   */
  lemma SetPortAfterClose()
    ensures var started := Step(Step(Initial(5555), FromConsole("#start", true)), Started);
            var refused := Step(started, FromConsole("#setport 6000", true));
            var closed := Step(Step(refused, FromConsole("#close", true)), Closed);
            && started.listening && !started.serverClosed
            && refused.port == 5555
            && Step(closed, FromConsole("#setport 6000", true)).port == 6000
  {
    ParseStartAndClose();
    ParseSetPortSixThousand();
    ParseSixThousand();
    var s0 := Initial(5555);
    var s1 := Step(s0, FromConsole("#start", true));
    assert s1 == ApplyCommand(s0, Start, true).0;
    var started := Step(s1, Started);
    assert started.listening && !started.serverClosed;
    var refused := Step(started, FromConsole("#setport 6000", true));
    assert refused == ApplyCommand(started, SetPort(Some("6000")), true).0;
    var s3 := Step(refused, FromConsole("#close", true));
    assert s3 == ApplyCommand(refused, Close, true).0;
    var closed := Step(s3, Closed);
    assert closed.serverClosed;
    var last := Step(closed, FromConsole("#setport 6000", true));
    assert last == ApplyCommand(closed, SetPort(Some("6000")), true).0;
  }

  lemma ParseSetPortWord()
    ensures ParseCommand("#setport abc") == SetPort(Some("abc"))
  {
    SplitTwoWords("#setport", "abc");
    assert "#setport" + " " + "abc" == "#setport abc";
  }

  lemma ParseBareSetPort()
    ensures ParseCommand("#setport") == SetPort(None)
  {
    SplitOneWord("#setport");
  }

  lemma ParseSetPortDoubleSpace()
    ensures ParseCommand("#setport  6000") == SetPort(Some(""))
  {
    assert Join(["#setport", "", "6000"]) == "#setport  6000";
    SplitJoin(["#setport", "", "6000"]);
  }

  /** "#setport abc" and "#setport  6000" (two spaces) are malformed; a bare "#setport" lacks the port. */
  lemma SetPortMalformed(s: ServerState)
    requires s.serverClosed
    ensures OnCommand(s, "#setport abc", true).0.console == s.console + [PortNotValidNumber]
    ensures OnCommand(s, "#setport  6000", true).0.console == s.console + [PortNotValidNumber]
    ensures OnCommand(s, "#setport", true).0.console == s.console + [PortNotSpecified]
  {
    ParseSetPortWord();
    ParseSetPortDoubleSpace();
    ParseBareSetPort();
    assert ParseInt("abc") == None by { assert !IsDigit("abc"[0]); }
  }

  /** The client's handshake for a one-word id, on a fresh connection, stores exactly that id. */
  lemma HandshakeStoresId(s: ServerState, id: string, client: ConnId, ioOk: bool)
    requires id != "" && ' ' !in id
    requires client !in s.loginIds
    ensures CanHandle("#login " + id)
    ensures var t := OnClientMessage(s, "#login " + id, client, ioOk);
            && t.loginIds == s.loginIds[client := id]
            && t.calls == s.calls + (if ioOk then [SentToClient(client, "<" + id + "> has logged on")] else [])
  {
    SplitTwoWords("#login", id);
    assert "#login" + " " + id == "#login " + id;
    assert ("#login " + id)[..6] == "#login";
    FirstLoginStoresId(s, "#login " + id, client, ioOk);
  }
}
