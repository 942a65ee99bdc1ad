/**
 * What ChatClient promises, stated over the functions of ClientProtocol:
 * the construction handshake, the split between commands and chat, the
 * refusals that the switch fall-through produces while connected, each
 * command's effect while disconnected, and a protocol invariant of every
 * run: the client only ever sends chat lines, "#quit", "#logoff" and its
 * own handshake, and the handshake always directly follows an opened
 * connection.
 */
module ClientProperties {
  import opened JavaText
  import opened ClientProtocol

  /** A line whose first token is a command name starts with that name's '#'. */
  lemma NamedLineIsCommand(line: string, name: string)
    requires Names(line, name) && |name| > 0 && name[0] == '#'
    ensures |line| > 0 && line[0] == '#'
  {
  }

  // ---------------------------------------------------------------------------
  // Construction
  // ---------------------------------------------------------------------------

  /**
   * Construction opens the connection and then sends "#login <id>" as the
   * first message; if opening fails nothing is sent, and if either call
   * fails the client says so and waits, unterminated.
   */
  lemma HandshakeOnConstruction(loginId: string, host: string, port: int32, f: Faults)
    ensures var s := Construct(loginId, host, port, f);
            && s.loginId == loginId && s.host == host && s.port == port
            && s.connected == f.openOk
            && s.calls == (if !f.openOk then [] else if !f.sendOk then [OpenedConnection]
                           else [OpenedConnection, SentToServer("#login " + loginId)])
            && (s.console == [] <==> f.openOk && f.sendOk)
            && (s.console != [] ==> s.console == [CannotOpenConnection])
            && s.display == [] && !s.terminated
  {
  }

  // ---------------------------------------------------------------------------
  // Lines from the UI
  // ---------------------------------------------------------------------------

  /** What a command line may put on the wire: only these three messages. */
  predicate IsCommandText(m: string, loginId: string)
  {
    m == "#quit" || m == "#logoff" || m == LoginMessage(loginId)
  }

  /**
   * A line starting with '#' is never sent as it is: whatever the handler
   * sends is "#quit", "#logoff" or the client's own handshake.
   */
  lemma CommandLineNeverSentRaw(s: ClientState, line: string, f: Faults)
    requires |line| > 0 && line[0] == '#'
    ensures var t := OnUILine(s, line, f);
            && s.calls <= t.calls
            && forall c :: c in t.calls[|s.calls|..] && c.SentToServer? ==> IsCommandText(c.text, s.loginId)
  {
    var t := OnUILine(s, line, f);
    AppendedCalls(s, line, f);
    assert t.calls[|s.calls|..] == NewCalls(s, line, f);
  }

  /** The calls one UI line appends, case by case, as the handler makes them. */
  function NewCalls(s: ClientState, line: string, f: Faults): seq<ClientCall>
    requires |line| > 0
  {
    if line[0] != '#' then
      if f.sendOk then [SentToServer(line)] else if f.closeOk then [ClosedConnection] else []
    else CommandCalls(s, ParseCommand(line), f)
  }

  /** The calls a command appends; #sethost and #setport reach #login only while connected, where it refuses. */
  function CommandCalls(s: ClientState, cmd: ClientCommand, f: Faults): seq<ClientCall>
  {
    match cmd
    case QuitCmd =>
      if !f.sendOk then [] else [SentToServer("#quit")] + (if f.closeOk then [ClosedConnection] else [])
    case LogoffCmd =>
      if !f.sendOk then [] else [SentToServer("#logoff")] + (if f.closeOk then [ClosedConnection] else [])
    case LoginCmd =>
      if s.connected || !f.openOk then []
      else if !f.sendOk then [OpenedConnection]
      else [OpenedConnection, SentToServer(LoginMessage(s.loginId))]
    case _ => []
  }

  lemma CommandCallsAppended(s: ClientState, cmd: ClientCommand, f: Faults)
    ensures ApplyCommand(s, cmd, f).0.calls == s.calls + CommandCalls(s, cmd, f)
    ensures ApplyCommand(s, cmd, f).0.loginId == s.loginId
  {
    match cmd
    case SetHostCmd(h) =>
      if !s.connected {
        match h
        case None =>
        case Some(_) =>
      }
    case SetPortCmd(p) =>
      if !s.connected {
        match p
        case None =>
        case Some(a) =>
          match ParseInt(a)
          case None =>
          case Some(_) =>
      }
    case _ =>
  }

  lemma AppendedCalls(s: ClientState, line: string, f: Faults)
    requires |line| > 0
    ensures OnUILine(s, line, f).calls == s.calls + NewCalls(s, line, f)
    ensures OnUILine(s, line, f).loginId == s.loginId
  {
    if line[0] == '#' {
      CommandCallsAppended(s, ParseCommand(line), f);
    }
  }

  /** A chat line is sent verbatim and nothing else changes; if the send fails the client quits. */
  lemma ChatLineSentVerbatim(s: ClientState, line: string, f: Faults)
    requires |line| > 0 && line[0] != '#'
    ensures f.sendOk ==> OnUILine(s, line, f) == s.(calls := s.calls + [SentToServer(line)])
    ensures !f.sendOk ==>
              var t := OnUILine(s, line, f);
              && t.terminated
              && t.display == s.display + [SendFailureNotice]
              && t.calls == s.calls + (if f.closeOk then [ClosedConnection] else [])
              && t.console == s.console && t.host == s.host && t.port == s.port
  {
  }

  // ---------------------------------------------------------------------------
  // Commands while connected: the fall-through refusals
  // ---------------------------------------------------------------------------

  /** While connected, #sethost falls through #setport into #login: three refusals, nothing else. */
  lemma SetHostWhileConnected(s: ClientState, line: string, f: Faults)
    requires s.connected && Names(line, "#sethost")
    ensures |line| > 0
    ensures OnUILine(s, line, f) == s.(console := s.console + [CantSetHost, CantSetPort, CantLogin])
  {
    NamedLineIsCommand(line, "#sethost");
  }

  /** While connected, #setport falls through into #login: two refusals, nothing else. */
  lemma SetPortWhileConnected(s: ClientState, line: string, f: Faults)
    requires s.connected && Names(line, "#setport")
    ensures |line| > 0
    ensures OnUILine(s, line, f) == s.(console := s.console + [CantSetPort, CantLogin])
  {
    NamedLineIsCommand(line, "#setport");
  }

  /** While connected, #login is refused and nothing else happens. */
  lemma LoginWhileConnected(s: ClientState, line: string, f: Faults)
    requires s.connected && Names(line, "#login")
    ensures |line| > 0
    ensures OnUILine(s, line, f) == s.(console := s.console + [CantLogin])
  {
    NamedLineIsCommand(line, "#login");
  }

  // ---------------------------------------------------------------------------
  // Commands while disconnected
  // ---------------------------------------------------------------------------

  /** #sethost without a host is reported and changes nothing; otherwise the host is the second token. */
  lemma SetHostWhileDisconnected(s: ClientState, line: string, f: Faults)
    requires !s.connected && Names(line, "#sethost")
    ensures |line| > 0
    ensures var parts := Split(line);
            var t := OnUILine(s, line, f);
            && (|parts| < 2 ==> t == s.(console := s.console + [HostNotSpecified]))
            && (|parts| >= 2 ==> t == s.(host := parts[1], console := s.console + [HostSetTo(parts[1])]))
  {
    NamedLineIsCommand(line, "#sethost");
  }

  /**
   * #setport without a port, or with one that is not an int, is reported
   * (in the client's own wording) and changes nothing; otherwise the port
   * becomes that number.
   */
  lemma SetPortWhileDisconnected(s: ClientState, line: string, f: Faults)
    requires !s.connected && Names(line, "#setport")
    ensures |line| > 0
    ensures var parts := Split(line);
            var t := OnUILine(s, line, f);
            && (|parts| < 2 ==> t == s.(console := s.console + [PortNotSpecified]))
            && (|parts| >= 2 && ParseInt(parts[1]).None? ==> t == s.(console := s.console + [PortNotANumber]))
            && (|parts| >= 2 && ParseInt(parts[1]).Some? ==>
                  t == s.(port := ParseInt(parts[1]).value, console := s.console + [PortSetTo(parts[1])]))
  {
    NamedLineIsCommand(line, "#setport");
  }

  /** #setport with a printed int sets exactly that port. */
  lemma SetPortToNumber(s: ClientState, n: int32, f: Faults)
    requires !s.connected
    ensures |"#setport " + IntToString(n)| > 0
    ensures OnUILine(s, "#setport " + IntToString(n), f).port == n
  {
    var digits := IntToString(n);
    assert digits[0] == '-' || IsDigit(digits[0]);
    assert ' ' !in digits by {
      if n < 0 {
        assert digits == "-" + NatToDigits(-(n as int));
      }
    }
    SplitJoin(["#setport", digits]);
    assert Join(["#setport", digits]) == "#setport " + digits;
    ParseIntToString(n);
  }

  /**
   * #login while disconnected opens the connection and then sends the
   * handshake with the construction-time id; a failure of either call is
   * reported.
   */
  lemma LoginWhileDisconnected(s: ClientState, line: string, f: Faults)
    requires !s.connected && Names(line, "#login")
    ensures |line| > 0
    ensures var t := OnUILine(s, line, f);
            && (f.openOk && f.sendOk ==>
                  t == s.(connected := true, calls := s.calls + [OpenedConnection, SentToServer("#login " + s.loginId)]))
            && (f.openOk && !f.sendOk ==>
                  t == s.(connected := true, calls := s.calls + [OpenedConnection], console := s.console + [ErrorHandlingCommand]))
            && (!f.openOk ==> t == s.(console := s.console + [ErrorHandlingCommand]))
  {
    NamedLineIsCommand(line, "#login");
  }

  // ---------------------------------------------------------------------------
  // Ending a session
  // ---------------------------------------------------------------------------

  /**
   * #logoff sends the bare command, whatever follows it on the line, then
   * closes the connection; it never terminates the client.
   */
  lemma LogoffDropsArguments(s: ClientState, line: string, f: Faults)
    requires Names(line, "#logoff")
    ensures |line| > 0
    ensures OnUILine(s, line, f).terminated == s.terminated
    ensures var t := OnUILine(s, line, f);
            && (f.sendOk && f.closeOk ==>
                  t == s.(connected := false, calls := s.calls + [SentToServer("#logoff"), ClosedConnection]))
            && (f.sendOk && !f.closeOk ==>
                  t == s.(calls := s.calls + [SentToServer("#logoff")], console := s.console + [ErrorHandlingCommand]))
            && (!f.sendOk ==> t == s.(console := s.console + [ErrorHandlingCommand]))
  {
    NamedLineIsCommand(line, "#logoff");
  }

  /**
   * #quit sends the bare command, closes the connection (a failure to close
   * is ignored) and terminates; if the send fails the error is reported and
   * the client goes on running.
   */
  lemma QuitTerminates(s: ClientState, line: string, f: Faults)
    requires Names(line, "#quit")
    ensures |line| > 0
    ensures var t := OnUILine(s, line, f);
            && (f.sendOk ==> t.terminated && t.calls == s.calls + [SentToServer("#quit")]
                                                   + (if f.closeOk then [ClosedConnection] else []))
            && (!f.sendOk ==> t == s.(console := s.console + [ErrorHandlingCommand]))
  {
    NamedLineIsCommand(line, "#quit");
  }

  // ---------------------------------------------------------------------------
  // Messages from the server, unknown commands, queries
  // ---------------------------------------------------------------------------

  /** A server message is shown as it is; even a '#' line from the server is not interpreted. */
  lemma ServerMessageShownVerbatim(s: ClientState, msg: string)
    ensures OnServerMessage(s, msg) == s.(display := s.display + [msg])
  {
  }

  /** An unknown command name is reported and changes nothing else. */
  lemma UnknownCommandChangesNothing(s: ClientState, line: string, f: Faults)
    requires |line| > 0 && line[0] == '#'
    requires Split(line)[0] !in {"#quit", "#logoff", "#sethost", "#setport", "#login", "#gethost", "#getport"}
    ensures OnUILine(s, line, f) == s.(console := s.console + [CommandNotRecognized])
  {
  }

  /** #gethost and #getport print the current host and port and change nothing else. */
  lemma QueriesChangeNothing(s: ClientState, line: string, f: Faults)
    requires |line| > 0 && line[0] == '#'
    ensures Names(line, "#gethost") ==> OnUILine(s, line, f) == s.(console := s.console + [HostIs(s.host)])
    ensures Names(line, "#getport") ==> OnUILine(s, line, f) == s.(console := s.console + [PortIs(s.port)])
  {
  }

  // ---------------------------------------------------------------------------
  // Runs
  // ---------------------------------------------------------------------------

  /**
   * Something that can happen to a client after construction. The two
   * transport events are the connection going away, closed or broken; the
   * transport then reports it through connectionClosed or connectionException.
   */
  datatype ClientEvent =
    | UILine(line: string, f: Faults)
    | FromServer(msg: string)
    | TransportClosed
    | TransportException

  predicate Admissible(e: ClientEvent)
  {
    e.UILine? ==> |e.line| > 0
  }

  predicate AllAdmissible(evs: seq<ClientEvent>)
  {
    forall i :: 0 <= i < |evs| ==> Admissible(evs[i])
  }

  function Step(s: ClientState, e: ClientEvent): ClientState
    requires Admissible(e)
  {
    match e
    case UILine(line, f) => OnUILine(s, line, f)
    case FromServer(msg) => OnServerMessage(s, msg)
    case TransportClosed => OnConnectionClosed(s.(connected := false))
    case TransportException => OnConnectionException(s.(connected := false))
  }

  /**
   * After the connection breaks the client is disconnected, so a #login
   * reconnects: it opens and sends the handshake again.
   */
  lemma ReconnectAfterDrop(s: ClientState, line: string, f: Faults)
    requires Names(line, "#login") && f.openOk && f.sendOk
    ensures |line| > 0
    ensures var t := Step(Step(s, TransportException), UILine(line, f));
            && t.connected
            && t.calls == s.calls + [OpenedConnection, SentToServer("#login " + s.loginId)]
            && t.console == s.console + [ServerShuttingDown]
  {
    var dropped := Step(s, TransportException);
    assert !dropped.connected;
    LoginWhileDisconnected(dropped, line, f);
  }

  function Run(s: ClientState, evs: seq<ClientEvent>): ClientState
    requires AllAdmissible(evs)
    decreases |evs|
  {
    if evs == [] then s else Run(Step(s, evs[0]), evs[1..])
  }

  /**
   * The call at position i is in order: a message sent is never empty, a
   * '#' message is one of the three command messages, and the handshake
   * directly follows an opened connection.
   */
  predicate WellPlaced(calls: seq<ClientCall>, i: nat, loginId: string)
    requires i < |calls|
  {
    match calls[i]
    case SentToServer(m) =>
      && m != ""
      && (m[0] == '#' ==> IsCommandText(m, loginId))
      && (m == LoginMessage(loginId) ==> i > 0 && calls[i - 1] == OpenedConnection)
    case _ => true
  }

  predicate ProtocolLog(calls: seq<ClientCall>, loginId: string)
  {
    forall i :: 0 <= i < |calls| ==> WellPlaced(calls, i, loginId)
  }

  lemma AppendCall(calls: seq<ClientCall>, c: ClientCall, loginId: string)
    requires ProtocolLog(calls, loginId)
    requires WellPlaced(calls + [c], |calls|, loginId)
    ensures ProtocolLog(calls + [c], loginId)
  {
    var calls' := calls + [c];
    forall i | 0 <= i < |calls'|
      ensures WellPlaced(calls', i, loginId)
    {
      if i < |calls| {
        assert WellPlaced(calls, i, loginId);
        assert calls'[i] == calls[i];
        assert i > 0 ==> calls'[i - 1] == calls[i - 1];
      }
    }
  }

  lemma CommandTexts(loginId: string)
    ensures "#quit"[0] == '#' && IsCommandText("#quit", loginId) && "#quit" != LoginMessage(loginId)
    ensures "#logoff"[0] == '#' && IsCommandText("#logoff", loginId) && "#logoff" != LoginMessage(loginId)
    ensures LoginMessage(loginId) != "" && LoginMessage(loginId)[0] == '#'
  {
    assert LoginMessage(loginId)[4] == 'i';
  }

  /** Appending what one UI line sends keeps the log in order. */
  lemma ProtocolLogAppendNew(s: ClientState, line: string, f: Faults)
    requires |line| > 0
    requires ProtocolLog(s.calls, s.loginId)
    ensures ProtocolLog(s.calls + NewCalls(s, line, f), s.loginId)
  {
    var id := s.loginId;
    CommandTexts(id);
    var d := NewCalls(s, line, f);
    if d == [] {
      assert s.calls + d == s.calls;
    } else if line[0] != '#' {
      if f.sendOk {
        assert line != LoginMessage(id) by { assert LoginMessage(id)[0] == '#'; }
        AppendCall(s.calls, SentToServer(line), id);
      } else {
        AppendCall(s.calls, ClosedConnection, id);
      }
    } else {
      var first := d[0];
      AppendCall(s.calls, first, id);
      if |d| == 2 {
        AppendCall(s.calls + [first], d[1], id);
        assert s.calls + d == s.calls + [first] + [d[1]];
      } else {
        assert d == [first];
      }
    }
  }

  /** One event keeps the log in order and leaves the login id alone. */
  lemma StepKeepsProtocol(s: ClientState, e: ClientEvent)
    requires Admissible(e)
    requires ProtocolLog(s.calls, s.loginId)
    ensures Step(s, e).loginId == s.loginId
    ensures ProtocolLog(Step(s, e).calls, s.loginId)
  {
    if e.UILine? {
      AppendedCalls(s, e.line, e.f);
      ProtocolLogAppendNew(s, e.line, e.f);
    }
  }

  lemma {:induction false} RunKeepsProtocol(s: ClientState, evs: seq<ClientEvent>)
    requires AllAdmissible(evs)
    requires ProtocolLog(s.calls, s.loginId)
    ensures Run(s, evs).loginId == s.loginId
    ensures ProtocolLog(Run(s, evs).calls, s.loginId)
    decreases |evs|
  {
    if evs != [] {
      StepKeepsProtocol(s, evs[0]);
      RunKeepsProtocol(Step(s, evs[0]), evs[1..]);
    }
  }

  /**
   * Over any run after construction, the login id stays the one the client
   * was built with, and the log of transport calls stays in order.
   */
  lemma ClientProtocolInvariant(loginId: string, host: string, port: int32, f: Faults, evs: seq<ClientEvent>)
    requires AllAdmissible(evs)
    ensures Run(Construct(loginId, host, port, f), evs).loginId == loginId
    ensures ProtocolLog(Run(Construct(loginId, host, port, f), evs).calls, loginId)
  {
    var s := Construct(loginId, host, port, f);
    CommandTexts(loginId);
    if f.openOk && f.sendOk {
      AppendCall([], OpenedConnection, loginId);
      AppendCall([OpenedConnection], SentToServer(LoginMessage(loginId)), loginId);
      assert s.calls == [OpenedConnection] + [SentToServer(LoginMessage(loginId))];
    }
    RunKeepsProtocol(s, evs);
  }
}
