# Checkers client session model

A Dafny model of the session layer of the React Online Checkers client: the
`App` component that keeps the page, the games list broadcast by the server,
the player's color, the current game, the current game id and the modal
state, reacts to the socket events `games`, `your-game-created`, `color`,
`end-game`, `winner` and `disconnect`, and turns the user's join, create,
move, chat and leave actions into socket emissions.

Layout:

- `protocol.dfy` (module `Protocol`): the wire values, the `Page` enumeration,
  the outbound events and the fixed notice texts.
- `derivation.dfy` (module `Derivation`): the contents of the `game` slot and
  the derived lookup `games.find(g => g.id === gameId)` with its placeholder.
- `router.dfy` (module `Router`): which view the page body renders.
- `store.dfy` (module `Store`): the session state as a value, one transition
  function per handler and action, traces of events, and the lemmas.
- `app.dfy` (module `App`): class `Session` with one field per state slot and
  one method per handler and action; each method is proved to change the
  object exactly as the matching `Store` transition.

Modelling choices:

- Each handler is atomic: its setters apply in order, then the derive effect
  runs if one of its inputs changed. A `games` broadcast always re-runs it
  (the payload is a new list every time). A game-id setter re-runs it only
  when the id changes value, because the effect compares its dependencies.
  So the string `'Lobby'` that `leaveGame` stores stays in the `game` slot
  until the list or the id changes; `Store.Coherent` states exactly this.
- The `game` slot has four forms: the initial `{board: [], chat: []}`
  (`InitialDetail`), a broadcast entry (`Found`), the not-found placeholder
  `{board: []}` without chat (`EmptyBoard`), and a string (`Text`).
- A null game id is `None`; it matches no broadcast entry.
- Alerts are appended to `notices`; socket emissions are appended to `outbox`.
- `Session.Mount` is the two mount effects. The derive effect runs first and
  turns the initial value into the placeholder. Then the socket exists
  (`socketReady`). The socket actions and handlers require `socketReady`.

Three behaviours of the code are easy to miss. `leaveGame` does not return
to the Lobby page: it stores the Lobby page string in the `game` slot (see
Findings). The color is whatever string the server sends. The navbar "Lobby"
link keeps the color and the game id.

## Model

| member | source | states |
|---|---|---|
| Protocol.PageName | src/App.js:18-20 | every page constant is a non-empty string, so storing one in the `game` slot is truthy |
| Protocol.WinnerNotice | src/App.js:98 | the winner alert is the winner's name followed by " has won the game!" |
| Derivation.FirstIndex | src/App.js:47 | the index found is the first entry whose id equals the game id, or the list length when none does |
| Derivation.Derive | src/App.js:46-55 | the derived game is the first entry with the current id; it is the placeholder exactly when no entry has that id; a null id finds nothing |
| Derivation.DeriveAppend | src/App.js:47 | entries after the first match never influence the derived game |
| Router.ViewOf | src/App.js:120-138 | Lobby view with the list exactly on the Lobby page, creation view exactly on CreateNewGame, Game view with color and game exactly on the Game page with a truthy game |
| Store.Mounted | src/App.js:46-55 | the mount run of the derive effect sets only the game slot, to the derived game |
| Store.OnGames | src/App.js:82-84 | the list is replaced verbatim, the game is re-derived from the new list, nothing else changes |
| Store.OnYourGameCreated | src/App.js:85-87 | only the id (and the game derived from it, when the id changed) change; the page stays |
| Store.OnColor | src/App.js:88 | only the color changes, to the payload |
| Store.OnEndGame | src/App.js:89-96 | id cleared, color empty, Lobby page, modal shown with "Game Over" and the opponent-left text; list, outbox and alerts untouched |
| Store.OnWinner | src/App.js:97-99 | exactly one alert naming the winner is added and no slot changes |
| Store.OnDisconnect | src/App.js:75-81 | id cleared, color empty, Lobby page, exactly one "server crashed" alert; list, modal and outbox untouched |
| Store.OnJoin | src/App.js:33-37 | exactly one join-game with the id is sent; Game page and the id are set at once; color, modal, list and alerts untouched |
| Store.OnMove | src/App.js:39-44 | exactly one move-piece carrying both fields is sent and no slot changes |
| Store.OnLeave | src/App.js:57-60 | exactly one leave-game is sent and the game slot holds the Lobby string; page, id and color stay |
| Store.OnCreate | src/App.js:62-65 | exactly one create-game with the name is sent and the Game page is set; the id stays |
| Store.OnChat | src/App.js:67-69 | exactly one chat-message with the text is sent and no slot changes |
| Store.OnCloseModal | src/App.js:103 | only the modal's visibility changes, to hidden |
| Store.OnSetPage | src/App.js:112 | only the page changes, to the target |
| Store.StepRecords | src/App.js:33-99 | each step adds exactly the emission and the alert its input calls for |
| Store.Transcript | src/App.js:33-99 | after any sequence of events, the outbox is the actions' emissions in order and the alerts are the handlers' alerts in order |
| Store.LastBroadcastWins | src/App.js:82-84 | after any sequence of events, the games list is the last broadcast's payload, or the earlier list if there was none |
| Store.MountedCoherent | src/App.js:23-31 | after mount the game slot is the derived game; from the initial state it is the placeholder |
| Store.StepKeepsCoherent | src/App.js:46-55 | every handler and action keeps the game slot equal to the derived game or the Lobby string |
| Store.RunKeepsCoherent | src/App.js:46-55 | between handlers, the game slot is never stale along any run of events |
| Store.CoherentRendersView | src/App.js:120-138 | in every reachable state some view is rendered and the initial game value is gone |
| Store.BroadcastIdempotent | src/App.js:82-84 | the same broadcast twice gives the same state as once |
| Store.BroadcastForgetsPrevious | src/App.js:82-84 | the result of a broadcast does not depend on the list held before |
| Store.BroadcastDerivesFirstMatch | src/App.js:46-55 | after a broadcast, the game is the entry at the first index with the current id, or the placeholder when no entry has it |
| Store.EndGameOverwrites | src/App.js:89-96 | a second end-game before closing the modal changes nothing |
| Store.CreateThenCreated | src/App.js:62-65 | create switches to the Game page and sends one create-game; the later game-created event fills in only the id and the game derived from it; every other slot stays, from any prior state |
| Store.JoinBroadcastEndGame | src/App.js:33-37 | join "g1", a broadcast listing it, then end-game: Game page with one join-game, then that entry as game, then the Lobby page with the Game Over modal and the placeholder |
| Store.LeaveKeepsGamePage | src/App.js:57-60 | as written, leaving from the Game page keeps the Game page and hands the Game view the string "Lobby" |
| Store.OnLeaveIntended | src/App.js:57-60 | the evidently intended leave: one leave-game and the Lobby page, nothing else changes |
| Store.LeaveIntendedShowsLobby | src/App.js:57-60 | the intended leave shows the Lobby view with the current list and keeps the game slot coherent |
| App.Session.constructor | src/App.js:23-31 | every slot starts at its initial value and there is no socket |
| App.Session.Mount | src/App.js:71-101 | the mount effects: the game is derived, then the socket is ready |
| App.Session.DeriveEffect | src/App.js:46-55 | the game is re-derived exactly when the id changed |
| App.Session.OnGames | src/App.js:82-84 | the object moves as Store.OnGames |
| App.Session.OnYourGameCreated | src/App.js:85-87 | the object moves as Store.OnYourGameCreated |
| App.Session.OnColor | src/App.js:88 | the object moves as Store.OnColor |
| App.Session.OnEndGame | src/App.js:89-96 | the object moves as Store.OnEndGame |
| App.Session.OnWinner | src/App.js:97-99 | the object moves as Store.OnWinner |
| App.Session.OnDisconnect | src/App.js:75-81 | the object moves as Store.OnDisconnect |
| App.Session.JoinGame | src/App.js:33-37 | the object moves as Store.OnJoin |
| App.Session.MovePiece | src/App.js:39-44 | the object moves as Store.OnMove |
| App.Session.LeaveGame | src/App.js:57-60 | the object moves as Store.OnLeave |
| App.Session.CreateGame | src/App.js:62-65 | the object moves as Store.OnCreate |
| App.Session.SendChat | src/App.js:67-69 | the object moves as Store.OnChat |
| App.Session.CloseModal | src/App.js:103 | the object moves as Store.OnCloseModal |
| App.Session.SetPage | src/App.js:112 | the object moves as Store.OnSetPage |
| App.JoinThenOpponentLeaves | src/App.js:89-96 | a client of the class alone can conclude: after join, broadcast and end-game, Lobby page, modal shown, one join-game sent, placeholder game |

## Left out

- Opening the socket to `http://localhost:4000` with its transport options: network I/O. The socket is the `outbox` of emitted events.
- A call of an action before the socket exists: the code would fail on a null socket; the model makes `socketReady` a precondition instead.
- `alert` as a blocking browser call: only its text is recorded, in `notices`.
- React rendering, JSX, react-bootstrap components and styles. The page body's choice of view is `Router.ViewOf`; the navbar and the modal markup are not modelled.
- React's effect scheduling and batching of state updates: every handler is one atomic update followed by the derive effect.
- The Lobby, CreateNewGame and Game views: they are not part of this model. Board, chat and move rules live there or on the server; boards, chat logs and move coordinates are carried as opaque values.
- Reconnection is the socket client library's default behaviour, not code in App; whatever arrives after it is just more inbound events, which `Store.Run` already accepts.
- Payload types: game ids are strings and the color is a string; JavaScript would accept any value the server sends.

## Findings

| source | as written | input that shows it | evidently intended | confidence | as-written member | corrected member |
|---|---|---|---|---|---|---|
| src/App.js:58 | `leaveGame` calls `setGame(PAGE_LOBBY)`: the Lobby page string goes into the game slot and the page stays Game | on the Game page, call `leaveGame()`: the Game view is still shown, now given the string "Lobby" as its game | `setPage(PAGE_LOBBY)`: return to the Lobby page, as for end-game and disconnect | high; not executed | Store.LeaveKeepsGamePage | Store.LeaveIntendedShowsLobby |

The `Session` class keeps the behaviour as written, because it models the
code; `Store.OnLeaveIntended` is the corrected transition.
