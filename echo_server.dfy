/**
 * EchoServer as a class: the `serverClosed` field, the state it inherits from
 * its transport (listening flag, port, each connection's "loginId" info), and
 * the logs of transport calls and console lines (each printed line is kept
 * as the ServerLine it is; ServerProtocol.Text spells it). Every handler follows the
 * Java statement by statement and is proved to produce the state the
 * corresponding function of ServerProtocol describes.
 */
module Server {
  import opened JavaText
  import opened ServerProtocol

  class EchoServer {
    var serverClosed: bool
    var listening: bool
    var port: int32
    var loginIds: map<ConnId, string>
    var calls: seq<Call>
    var console: seq<ServerLine>
    var terminated: bool

    function State(): ServerState
      reads this
    {
      ServerState(serverClosed, listening, port, loginIds, calls, console, terminated)
    }

    constructor (port: int32)
      ensures State() == Initial(port)
    {
      serverClosed := false;
      listening := false;
      this.port := port;
      loginIds := map[];
      calls := [];
      console := [];
      terminated := false;
    }

    // -- the transport, as abstract state --------------------------------------

    function GetInfo(client: ConnId): Option<string>
      reads this
    {
      LoginIdOf(State(), client)
    }

    method SetInfo(client: ConnId, id: string)
      modifies this
      ensures State() == old(State()).(loginIds := old(loginIds)[client := id])
    {
      loginIds := loginIds[client := id];
    }

    function IsListening(): bool
      reads this
    {
      listening
    }

    function GetPort(): int32
      reads this
    {
      port
    }

    method SetPort(p: int32)
      modifies this
      ensures State() == old(State()).(port := p)
    {
      port := p;
    }

    method Println(line: ServerLine)
      modifies this
      ensures State() == Print(old(State()), line)
    {
      console := console + [line];
    }

    method SendToAllClients(text: string)
      modifies this
      ensures State() == Log(old(State()), SentToAll(text))
    {
      calls := calls + [SentToAll(text)];
    }

    /** `client.sendToClient(text)`, which fails with an IOException unless `ok`. */
    method SendToClient(client: ConnId, text: string, ok: bool) returns (outcome: Outcome)
      modifies this
      ensures outcome == (if ok then Completed else IOFailure)
      ensures State() == if ok then Log(old(State()), SentToClient(client, text)) else old(State())
    {
      if ok {
        calls := calls + [SentToClient(client, text)];
        outcome := Completed;
      } else {
        outcome := IOFailure;
      }
    }

    /** `client.close()`, which fails with an IOException unless `ok`. */
    method CloseClient(client: ConnId, ok: bool) returns (outcome: Outcome)
      modifies this
      ensures outcome == (if ok then Completed else IOFailure)
      ensures State() == if ok then Log(old(State()), ClosedClient(client)) else old(State())
    {
      if ok {
        calls := calls + [ClosedClient(client)];
        outcome := Completed;
      } else {
        outcome := IOFailure;
      }
    }

    method Listen(ok: bool) returns (outcome: Outcome)
      modifies this
      ensures outcome == (if ok then Completed else IOFailure)
      ensures State() == if ok then Log(old(State()), Listened).(listening := true) else old(State())
    {
      if ok {
        calls := calls + [Listened];
        listening := true;
        outcome := Completed;
      } else {
        outcome := IOFailure;
      }
    }

    method StopListening()
      modifies this
      ensures State() == Log(old(State()), StoppedListening).(listening := false)
    {
      calls := calls + [StoppedListening];
      listening := false;
    }

    method Close(ok: bool) returns (outcome: Outcome)
      modifies this
      ensures outcome == (if ok then Completed else IOFailure)
      ensures State() == if ok then Log(old(State()), ClosedServer).(listening := false) else old(State())
    {
      if ok {
        calls := calls + [ClosedServer];
        listening := false;
        outcome := Completed;
      } else {
        outcome := IOFailure;
      }
    }

    // -- EchoServer's own methods ---------------------------------------------

    method HandleMessageFromClient(msg: string, client: ConnId, ioOk: bool)
      requires CanHandle(msg)
      modifies this
      ensures State() == OnClientMessage(old(State()), msg, client, ioOk)
    {
      Println(MessageReceived(msg, GetInfo(client)));
      if StartsWith(msg, "#login") {
        HandleLogin(msg, client, ioOk);
      } else if msg == "#logoff" || msg == "#quit" {
        var ignored := CloseClient(client, ioOk);
      } else {
        SendToAllClients(Render(GetInfo(client)) + "> " + msg);
      }
    }

    method HandleLogin(str: string, client: ConnId, ioOk: bool)
      requires |Split(str)| >= 2
      modifies this
      ensures State() == OnLogin(old(State()), str, client, ioOk)
    {
      var loginId := Split(str)[1];
      if GetInfo(client) != None {
        Println(AlreadyLoggedIn);
        var outcome := CloseClient(client, ioOk);
        if outcome == IOFailure {
          Println(ErrorClosingClient);
        }
      } else {
        SetInfo(client, loginId);
        Println(LoggedOn(loginId));
        var ignored := SendToClient(client, "<" + loginId + "> has logged on", ioOk);
      }
    }

    /** `ioOk` says whether this command's close() or listen() succeeds. */
    method HandleCommand(message: string, ioOk: bool) returns (outcome: Outcome)
      requires Split(message) != []
      modifies this
      ensures (State(), outcome) == OnCommand(old(State()), message, ioOk)
    {
      var commandParts := Split(message);
      var command := commandParts[0];
      outcome := Completed;
      if command == "#quit" {
        outcome := Close(ioOk);
        if outcome == Completed {
          terminated := true;
        }
      } else if command == "#stop" {
        StopListening();
      } else if command == "#close" {
        outcome := Close(ioOk);
      } else if command == "#setport" {
        if !serverClosed {
          Println(MustBeClosedToSetPort);
          return;
        }
        if |commandParts| < 2 {
          Println(PortNotSpecified);
        } else {
          var p := commandParts[1];
          var parsed := ParseInt(p);
          if parsed.None? {
            Println(PortNotValidNumber);
          } else {
            SetPort(parsed.value);
            Println(PortSetTo(p));
          }
        }
      } else if command == "#start" {
        if IsListening() {
          Println(MustBeStoppedToStart);
          return;
        }
        outcome := Listen(ioOk);
      } else if command == "#getport" {
        Println(PortIs(GetPort()));
      } else {
        Println(CommandNotRecognized);
      }
    }

    method ServerStarted()
      modifies this
      ensures State() == OnServerStarted(old(State()))
    {
      serverClosed := false;
      Println(ListeningOnPort(GetPort()));
    }

    method ServerStopped()
      modifies this
      ensures State() == OnServerStopped(old(State()))
    {
      Println(StoppedListeningNotice);
      SendToAllClients(StopWarning);
    }

    method ServerClosed()
      modifies this
      ensures State() == OnServerClosed(old(State()))
    {
      serverClosed := true;
      Println(ServerHasBeenClosed);
    }

    method ClientConnected(client: ConnId)
      modifies this
      ensures State() == OnClientConnected(old(State()), client)
    {
      Println(ClientAttemptingToConnect);
    }

    method ClientDisconnected(client: ConnId)
      modifies this
      ensures State() == OnClientDisconnected(old(State()), client)
    {
      Println(DisconnectNotice(GetInfo(client)));
      SendToAllClients("<" + Render(GetInfo(client)) + "> has disconnected");
    }
  }
}
