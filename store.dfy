/** The session state of the client as a value, and one transition function
    per inbound handler and per user action. Each transition is atomic: the
    setters of one handler are applied in order, then the derive effect runs
    if its inputs changed. The `Session` class in module App is proved
    against these functions; the lemmas here are about what they promise. */
module Store {
  import opened Protocol
  import opened Derivation
  import opened Router

  /** The state slots, plus the socket emissions (`outbox`) and the `alert`
      texts (`notices`) in the order they happened. */
  datatype State = State(
    page: Page,
    games: seq<GameSummary>,
    color: string,
    game: Detail,
    gameId: Option<GameId>,
    showModal: bool,
    modalTitle: string,
    modalText: string,
    outbox: seq<Emission>,
    notices: seq<string>)

  /** The initial value of every slot. */
  function Initial(): State {
    State(Lobby, [], "", InitialDetail, None, false, "", "", [], [])
  }

  /** The derive effect after a setter of the game id: it runs only when the
      id changed value, since its dependencies are compared, not its calls. */
  function Resync(before: State, after: State): State {
    if after.gameId != before.gameId
    then after.(game := Derive(after.games, after.gameId))
    else after
  }

  /** The mount effects: the derive effect runs once whatever its inputs, and
      the socket handlers are registered (the latter is `socketReady` in
      class App.Session). */
  function Mounted(s: State): (r: State)
    ensures r.game == Derive(s.games, s.gameId)
    ensures r == s.(game := r.game)
  {
    s.(game := Derive(s.games, s.gameId))
  }

  // ---------------------------------------------------------------------
  // Inbound handlers

  /** `games`: the list is replaced verbatim (no merge) and, being a new
      list, always re-runs the derive effect. */
  function OnGames(s: State, payload: seq<GameSummary>): (r: State)
    ensures r.games == payload
    ensures r.game == Derive(payload, s.gameId)
    ensures r == s.(games := r.games, game := r.game)
  {
    s.(games := payload, game := Derive(payload, s.gameId))
  }

  /** `your-game-created`: records the id; the page is left alone. */
  function OnYourGameCreated(s: State, id: GameId): (r: State)
    ensures r.gameId == Some(id) && r.page == s.page
    ensures r.game == if s.gameId == Some(id) then s.game else Derive(s.games, Some(id))
    ensures r == s.(gameId := r.gameId, game := r.game)
  {
    Resync(s, s.(gameId := Some(id)))
  }

  /** `color`: stores the payload as is. */
  function OnColor(s: State, color: string): (r: State)
    ensures r.color == color
    ensures r == s.(color := r.color)
  {
    s.(color := color)
  }

  /** `end-game`: back to the lobby with the id and color cleared, and the
      modal shown with its fixed title and text. A second one before the
      modal is closed overwrites rather than queues. */
  function OnEndGame(s: State): (r: State)
    ensures r.gameId == None && r.color == "" && r.page == Lobby
    ensures r.showModal && r.modalTitle == GameOverTitle && r.modalText == OpponentLeftText
    ensures r.game == if s.gameId.Some? then EmptyBoard else s.game
    ensures r.games == s.games && r.outbox == s.outbox && r.notices == s.notices
  {
    Resync(s, s.(gameId := None, color := "", page := Lobby, showModal := true,
                 modalText := OpponentLeftText, modalTitle := GameOverTitle))
  }

  /** `winner`: one alert naming the winner; no slot changes. */
  function OnWinner(s: State, winner: string): (r: State)
    ensures r.notices == s.notices + [WinnerNotice(winner)]
    ensures r == s.(notices := r.notices)
  {
    s.(notices := s.notices + [WinnerNotice(winner)])
  }

  /** `disconnect`: back to the lobby with the id and color cleared and one
      alert; the games list and the modal are left alone. */
  function OnDisconnect(s: State): (r: State)
    ensures r.gameId == None && r.color == "" && r.page == Lobby
    ensures r.notices == s.notices + [ServerCrashed]
    ensures r.game == if s.gameId.Some? then EmptyBoard else s.game
    ensures r.games == s.games && r.outbox == s.outbox
    ensures r.showModal == s.showModal && r.modalTitle == s.modalTitle && r.modalText == s.modalText
  {
    Resync(s, s.(gameId := None, color := "", page := Lobby,
                 notices := s.notices + [ServerCrashed]))
  }

  // ---------------------------------------------------------------------
  // User actions

  /** `joinGame(id)`: one `join-game`, then the Game page and the id, at
      once (before any reply). */
  function OnJoin(s: State, id: GameId): (r: State)
    ensures r.outbox == s.outbox + [JoinGameEvent(id)]
    ensures r.page == Game && r.gameId == Some(id)
    ensures r.game == if s.gameId == Some(id) then s.game else Derive(s.games, Some(id))
    ensures r == s.(outbox := r.outbox, page := r.page, gameId := r.gameId, game := r.game)
  {
    Resync(s, s.(outbox := s.outbox + [JoinGameEvent(id)], page := Game, gameId := Some(id)))
  }

  /** `movePiece`: one `move-piece` with both fields; no slot changes. */
  function OnMove(s: State, move: PieceMove): (r: State)
    ensures r.outbox == s.outbox + [MovePieceEvent(move)]
    ensures r.outbox[|s.outbox|].move.selectedPiece == move.selectedPiece
    ensures r.outbox[|s.outbox|].move.destination == move.destination
    ensures r == s.(outbox := r.outbox)
  {
    s.(outbox := s.outbox + [MovePieceEvent(move)])
  }

  /** `leaveGame`, as written: the `game` slot gets the Lobby page string and
      one `leave-game` is sent; page, id and color stay. */
  function OnLeave(s: State): (r: State)
    ensures r.game == Text(PageName(Lobby))
    ensures r.outbox == s.outbox + [LeaveGameEvent]
    ensures r == s.(game := r.game, outbox := r.outbox)
  {
    s.(game := Text(PageName(Lobby)), outbox := s.outbox + [LeaveGameEvent])
  }

  /** `createGame(name)`: one `create-game`, then the Game page at once; the
      id arrives later by `your-game-created`. */
  function OnCreate(s: State, name: string): (r: State)
    ensures r.outbox == s.outbox + [CreateGameEvent(name)]
    ensures r.page == Game && r.gameId == s.gameId
    ensures r == s.(outbox := r.outbox, page := r.page)
  {
    s.(outbox := s.outbox + [CreateGameEvent(name)], page := Game)
  }

  /** `sendChat(message)`: one `chat-message`; no slot changes. */
  function OnChat(s: State, message: string): (r: State)
    ensures r.outbox == s.outbox + [ChatMessageEvent(message)]
    ensures r == s.(outbox := r.outbox)
  {
    s.(outbox := s.outbox + [ChatMessageEvent(message)])
  }

  /** Closing the modal hides it; title and text stay. */
  function OnCloseModal(s: State): (r: State)
    ensures !r.showModal
    ensures r.modalTitle == s.modalTitle && r.modalText == s.modalText
    ensures r == s.(showModal := false)
  {
    s.(showModal := false)
  }

  /** `setPage`, as the navbar "Lobby" link and the Lobby view call it. */
  function OnSetPage(s: State, target: Page): (r: State)
    ensures r.page == target
    ensures r == s.(page := r.page)
  {
    s.(page := target)
  }

  // ---------------------------------------------------------------------
  // Traces

  /** Everything that can happen to the session after mount. */
  datatype Input =
    | GamesReceived(payload: seq<GameSummary>)
    | YourGameCreated(id: GameId)
    | ColorAssigned(color: string)
    | EndGame
    | WinnerAnnounced(winner: string)
    | Disconnected
    | Join(joinId: GameId)
    | Move(move: PieceMove)
    | Leave
    | Create(name: string)
    | Chat(message: string)
    | CloseModal
    | Navigate(target: Page)

  function Step(s: State, e: Input): State {
    match e
    case GamesReceived(gs) => OnGames(s, gs)
    case YourGameCreated(id) => OnYourGameCreated(s, id)
    case ColorAssigned(c) => OnColor(s, c)
    case EndGame => OnEndGame(s)
    case WinnerAnnounced(w) => OnWinner(s, w)
    case Disconnected => OnDisconnect(s)
    case Join(id) => OnJoin(s, id)
    case Move(m) => OnMove(s, m)
    case Leave => OnLeave(s)
    case Create(name) => OnCreate(s, name)
    case Chat(m) => OnChat(s, m)
    case CloseModal => OnCloseModal(s)
    case Navigate(p) => OnSetPage(s, p)
  }

  function Run(s: State, es: seq<Input>): State
    decreases |es|
  {
    if es == [] then s else Run(Step(s, es[0]), es[1..])
  }

  /** The socket event an input sends, read off the wire table. */
  function EmissionOf(e: Input): seq<Emission> {
    match e
    case Join(id) => [JoinGameEvent(id)]
    case Move(m) => [MovePieceEvent(m)]
    case Leave => [LeaveGameEvent]
    case Create(name) => [CreateGameEvent(name)]
    case Chat(m) => [ChatMessageEvent(m)]
    case _ => []
  }

  /** The alert an input raises. */
  function NoticeOf(e: Input): seq<string> {
    match e
    case Disconnected => [ServerCrashed]
    case WinnerAnnounced(w) => [WinnerNotice(w)]
    case _ => []
  }

  function Emissions(es: seq<Input>): seq<Emission>
    decreases |es|
  {
    if es == [] then [] else EmissionOf(es[0]) + Emissions(es[1..])
  }

  function Notices(es: seq<Input>): seq<string>
    decreases |es|
  {
    if es == [] then [] else NoticeOf(es[0]) + Notices(es[1..])
  }

  /** The payload of the last `games` broadcast of `es`, or `current` when
      there is none. */
  function LastGames(es: seq<Input>, current: seq<GameSummary>): seq<GameSummary>
    decreases |es|
  {
    if es == [] then current
    else if es[|es| - 1].GamesReceived? then es[|es| - 1].payload
    else LastGames(es[..|es| - 1], current)
  }

  /** One step records exactly the emission and the alert its input calls for. */
  lemma StepRecords(s: State, e: Input)
    ensures Step(s, e).outbox == s.outbox + EmissionOf(e)
    ensures Step(s, e).notices == s.notices + NoticeOf(e)
  {
  }

  /** The outbox is exactly the actions' events in order, and the alerts are
      exactly the handlers' alerts in order: nothing is dropped, reordered or
      sent twice, and server events send nothing. */
  lemma {:induction false} Transcript(s: State, es: seq<Input>)
    ensures Run(s, es).outbox == s.outbox + Emissions(es)
    ensures Run(s, es).notices == s.notices + Notices(es)
    decreases |es|
  {
    if es != [] {
      StepRecords(s, es[0]);
      Transcript(Step(s, es[0]), es[1..]);
      assert s.outbox + EmissionOf(es[0]) + Emissions(es[1..])
          == s.outbox + (EmissionOf(es[0]) + Emissions(es[1..]));
      assert s.notices + NoticeOf(es[0]) + Notices(es[1..])
          == s.notices + (NoticeOf(es[0]) + Notices(es[1..]));
    }
  }

  lemma {:induction false} RunSnoc(s: State, es: seq<Input>, e: Input)
    ensures Run(s, es + [e]) == Step(Run(s, es), e)
    decreases |es|
  {
    if es == [] {
      assert Run(Step(s, e), []) == Step(s, e);
      assert ([] + [e])[1..] == [];
    } else {
      assert (es + [e])[0] == es[0];
      assert (es + [e])[1..] == es[1..] + [e];
      RunSnoc(Step(s, es[0]), es[1..], e);
    }
  }

  /** Last broadcast wins: after any run, the games list is the payload of
      the last `games` event, or the list from before if there was none. */
  lemma {:induction false} LastBroadcastWins(s: State, es: seq<Input>)
    ensures Run(s, es).games == LastGames(es, s.games)
    decreases |es|
  {
    if es != [] {
      var init := es[..|es| - 1];
      var last := es[|es| - 1];
      assert es == init + [last];
      RunSnoc(s, init, last);
      LastBroadcastWins(s, init);
    }
  }

  // ---------------------------------------------------------------------
  // The derived game is never stale

  /** Between handlers, the `game` slot is what the derive effect gives for
      the current list and id, or the Lobby string that `leaveGame` left
      there. (The render that precedes the effect is not modelled.) */
  predicate Coherent(s: State) {
    s.game == Derive(s.games, s.gameId) || s.game == Text(PageName(Lobby))
  }

  lemma MountedCoherent(s: State)
    ensures Coherent(Mounted(s))
    ensures Mounted(Initial()).game == EmptyBoard
  {
  }

  lemma StepKeepsCoherent(s: State, e: Input)
    requires Coherent(s)
    ensures Coherent(Step(s, e))
  {
  }

  /** From mount on, every state reached between handlers is coherent. */
  lemma {:induction false} RunKeepsCoherent(s: State, es: seq<Input>)
    requires Coherent(s)
    ensures Coherent(Run(s, es))
    decreases |es|
  {
    if es != [] {
      StepKeepsCoherent(s, es[0]);
      RunKeepsCoherent(Step(s, es[0]), es[1..]);
    }
  }

  /** In a coherent state the page always renders a view, and the Game view
      gets the broadcast entry, the placeholder or the Lobby string. */
  lemma CoherentRendersView(s: State)
    requires Coherent(s)
    ensures ViewOf(s.page, s.games, s.color, s.game) != NoView
    ensures s.game != InitialDetail
  {
  }

  // ---------------------------------------------------------------------
  // Properties relating several events

  /** The same broadcast twice gives the same state as once. */
  lemma BroadcastIdempotent(s: State, payload: seq<GameSummary>)
    ensures OnGames(OnGames(s, payload), payload) == OnGames(s, payload)
  {
  }

  /** A broadcast does not merge: what the list held before is irrelevant. */
  lemma BroadcastForgetsPrevious(s: State, before: seq<GameSummary>, payload: seq<GameSummary>)
    ensures OnGames(s.(games := before), payload) == OnGames(s, payload)
  {
  }

  /** After any broadcast the derived game is the first entry with the
      current id, or the placeholder when none has it. */
  lemma BroadcastDerivesFirstMatch(s: State, payload: seq<GameSummary>, k: nat)
    requires k <= |payload|
    requires k < |payload| ==> Matches(payload[k], s.gameId)
    requires forall j :: 0 <= j < k ==> !Matches(payload[j], s.gameId)
    ensures k < |payload| ==> OnGames(s, payload).game == Found(payload[k])
    ensures k == |payload| ==> OnGames(s, payload).game == EmptyBoard
  {
  }

  /** A second `end-game` before the modal is closed changes nothing. */
  lemma EndGameOverwrites(s: State)
    ensures OnEndGame(OnEndGame(s)) == OnEndGame(s)
  {
  }

  /** `createGame` switches to the Game page before the id is known; the
      later `your-game-created` only fills in the id (and the game derived
      from it). This holds from any state, including one where the navbar
      link left a stale id behind. */
  lemma CreateThenCreated(s: State, name: string, id: GameId)
    ensures OnCreate(s, name).page == Game && OnCreate(s, name).gameId == s.gameId
    ensures OnYourGameCreated(OnCreate(s, name), id)
            == s.(page := Game, outbox := s.outbox + [CreateGameEvent(name)], gameId := Some(id),
                  game := if s.gameId == Some(id) then s.game else Derive(s.games, Some(id)))
  {
  }

  /** Join "g1" from the lobby, receive a broadcast listing it, then the
      opponent leaves. */
  lemma JoinBroadcastEndGame(g: GameSummary, others: seq<GameSummary>)
    requires g.id == "g1"
    ensures var s1 := Step(Mounted(Initial()), Join("g1"));
            s1.page == Game && s1.outbox == [JoinGameEvent("g1")] &&
            var s2 := Step(s1, GamesReceived([g] + others));
            s2.game == Found(g) &&
            var s3 := Step(s2, EndGame);
            s3.page == Lobby && s3.showModal && s3.modalText == OpponentLeftText &&
            s3.modalTitle == GameOverTitle && s3.game == EmptyBoard
  {
  }

  // ---------------------------------------------------------------------
  // Leaving a game: as written and as intended

  /** As written, leaving from the Game page keeps the Game page, and the Game
      view is handed the string "Lobby" in place of a game. */
  lemma LeaveKeepsGamePage(s: State)
    requires s.page == Game
    ensures OnLeave(s).page == Game
    ensures ViewOf(OnLeave(s).page, OnLeave(s).games, OnLeave(s).color, OnLeave(s).game)
            == GameView(s.color, Text("Lobby"))
  {
  }

  /** `leaveGame` with the page setter it evidently meant: one `leave-game`
      and the Lobby page. */
  function OnLeaveIntended(s: State): (r: State)
    ensures r.page == Lobby
    ensures r.outbox == s.outbox + [LeaveGameEvent]
    ensures r == s.(page := r.page, outbox := r.outbox)
  {
    s.(page := Lobby, outbox := s.outbox + [LeaveGameEvent])
  }

  /** The intended leave shows the Lobby view with the current list, and keeps
      the derived game coherent. */
  lemma LeaveIntendedShowsLobby(s: State)
    requires Coherent(s)
    ensures var r := OnLeaveIntended(s);
            ViewOf(r.page, r.games, r.color, r.game) == LobbyView(s.games) && Coherent(r)
  {
  }
}
