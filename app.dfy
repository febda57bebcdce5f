/** The App component's state as an object: one field per state slot, one
    method per socket handler and per user action. Every method is proved to
    move the object exactly as the matching transition of module Store does. */
module App {
  import opened Protocol
  import opened Derivation
  import Store

  class Session {
    var page: Page
    var games: seq<GameSummary>
    var color: string
    var game: Detail
    var gameId: Option<GameId>
    var showModal: bool
    var modalTitle: string
    var modalText: string
    /** Every socket emission, in order. */
    var outbox: seq<Emission>
    /** Every `alert` text, in order. */
    var notices: seq<string>
    /** The socket exists; it is null until the mount effect has run. */
    var socketReady: bool

    function Snapshot(): Store.State
      reads this
    {
      Store.State(page, games, color, game, gameId, showModal, modalTitle, modalText, outbox, notices)
    }

    /** The state of the first render: every slot at its initial value, no
        socket yet. */
    constructor ()
      ensures Snapshot() == Store.Initial() && !socketReady
    {
      page := Lobby;
      games := [];
      color := "";
      game := InitialDetail;
      gameId := None;
      showModal := false;
      modalTitle := "";
      modalText := "";
      outbox := [];
      notices := [];
      socketReady := false;
    }

    /** The two mount effects, in declaration order: the derive effect, then
        the socket is opened and its handlers registered. */
    method Mount()
      requires !socketReady
      modifies this
      ensures socketReady
      ensures Snapshot() == Store.Mounted(old(Snapshot()))
    {
      game := Derive(games, gameId);
      socketReady := true;
    }

    /** The derive effect after the handler that may have changed the id. */
    method DeriveEffect(previousId: Option<GameId>)
      modifies this`game
      ensures game == if gameId != previousId then Derive(games, gameId) else old(game)
    {
      if gameId != previousId {
        game := Derive(games, gameId);
      }
    }

    // -------------------------------------------------------------------
    // Socket handlers

    method OnGames(payload: seq<GameSummary>)
      requires socketReady
      modifies this
      ensures socketReady
      ensures Snapshot() == Store.OnGames(old(Snapshot()), payload)
    {
      games := payload;
      game := Derive(games, gameId);
    }

    method OnYourGameCreated(id: GameId)
      requires socketReady
      modifies this
      ensures socketReady
      ensures Snapshot() == Store.OnYourGameCreated(old(Snapshot()), id)
    {
      var previousId := gameId;
      gameId := Some(id);
      DeriveEffect(previousId);
    }

    method OnColor(c: string)
      requires socketReady
      modifies this
      ensures socketReady
      ensures Snapshot() == Store.OnColor(old(Snapshot()), c)
    {
      color := c;
    }

    method OnEndGame()
      requires socketReady
      modifies this
      ensures socketReady
      ensures Snapshot() == Store.OnEndGame(old(Snapshot()))
    {
      var previousId := gameId;
      gameId := None;
      color := "";
      page := Lobby;
      showModal := true;
      modalText := OpponentLeftText;
      modalTitle := GameOverTitle;
      DeriveEffect(previousId);
    }

    method OnWinner(winner: string)
      requires socketReady
      modifies this
      ensures socketReady
      ensures Snapshot() == Store.OnWinner(old(Snapshot()), winner)
    {
      notices := notices + [WinnerNotice(winner)];
    }

    method OnDisconnect()
      requires socketReady
      modifies this
      ensures socketReady
      ensures Snapshot() == Store.OnDisconnect(old(Snapshot()))
    {
      var previousId := gameId;
      gameId := None;
      color := "";
      page := Lobby;
      notices := notices + [ServerCrashed];
      DeriveEffect(previousId);
    }

    // -------------------------------------------------------------------
    // Actions handed to the views

    method JoinGame(id: GameId)
      requires socketReady
      modifies this
      ensures socketReady
      ensures Snapshot() == Store.OnJoin(old(Snapshot()), id)
    {
      var previousId := gameId;
      outbox := outbox + [JoinGameEvent(id)];
      page := Game;
      gameId := Some(id);
      DeriveEffect(previousId);
    }

    method MovePiece(move: PieceMove)
      requires socketReady
      modifies this
      ensures socketReady
      ensures Snapshot() == Store.OnMove(old(Snapshot()), move)
    {
      outbox := outbox + [MovePieceEvent(PieceMove(move.selectedPiece, move.destination))];
    }

    method LeaveGame()
      requires socketReady
      modifies this
      ensures socketReady
      ensures Snapshot() == Store.OnLeave(old(Snapshot()))
    {
      game := Text(PageName(Lobby));
      outbox := outbox + [LeaveGameEvent];
    }

    method CreateGame(name: string)
      requires socketReady
      modifies this
      ensures socketReady
      ensures Snapshot() == Store.OnCreate(old(Snapshot()), name)
    {
      outbox := outbox + [CreateGameEvent(name)];
      page := Game;
    }

    method SendChat(message: string)
      requires socketReady
      modifies this
      ensures socketReady
      ensures Snapshot() == Store.OnChat(old(Snapshot()), message)
    {
      outbox := outbox + [ChatMessageEvent(message)];
    }

    method CloseModal()
      modifies this
      ensures socketReady == old(socketReady)
      ensures Snapshot() == Store.OnCloseModal(old(Snapshot()))
    {
      showModal := false;
    }

    /** The page setter, as the navbar "Lobby" link and the Lobby view use it. */
    method SetPage(target: Page)
      modifies this
      ensures socketReady == old(socketReady)
      ensures Snapshot() == Store.OnSetPage(old(Snapshot()), target)
    {
      page := target;
    }
  }

  /** A client run: join "g1" from the lobby, a broadcast lists it, the
      opponent leaves. What is asserted follows from the contracts alone. */
  method JoinThenOpponentLeaves(g: GameSummary) returns (s: Session)
    requires g.id == "g1"
    ensures s.page == Lobby && s.showModal && s.modalText == OpponentLeftText
    ensures s.outbox == [JoinGameEvent("g1")] && s.game == EmptyBoard
  {
    s := new Session();
    s.Mount();
    s.JoinGame("g1");
    assert s.page == Game && s.outbox == [JoinGameEvent("g1")];
    s.OnGames([g]);
    assert Matches(g, Some("g1"));
    assert s.game == Found(g);
    s.OnEndGame();
  }
}
