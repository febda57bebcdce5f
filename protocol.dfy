/** Values exchanged with the game server and the constants of the client
    session: the page enumeration, the game summaries the server broadcasts
    and the outbound events the client emits. */
module Protocol {

  datatype Option<+T> = None | Some(value: T)

  /** A game identifier as the server hands it out (`join-game`,
      `your-game-created`, the `id` of a broadcast entry). */
  type GameId = string

  /** Board and chat belong to the server and the Game view; this layer only
      carries them unchanged. */
  type Board = seq<seq<int>>

  /** One entry of the server's `games` broadcast. */
  datatype GameSummary = GameSummary(id: GameId, board: Board, chat: seq<string>)

  /** The argument of `movePiece`, forwarded verbatim. */
  datatype PieceMove = PieceMove(selectedPiece: seq<int>, destination: seq<int>)

  /** The three pages; the client starts on Lobby. */
  datatype Page = Lobby | CreateNewGame | Game

  /** The page constants as strings (`PAGE_LOBBY` and friends). The Lobby
      string is also what `leaveGame` stores as the current game. */
  function PageName(p: Page): (name: string)
    ensures name != ""
  {
    match p
    case Lobby => "Lobby"
    case CreateNewGame => "CreateNewGame"
    case Game => "Game"
  }

  /** Outbound socket events, one constructor per wire name. */
  datatype Emission =
    | JoinGameEvent(gameId: GameId)          // "join-game"
    | MovePieceEvent(move: PieceMove)        // "move-piece"
    | LeaveGameEvent                         // "leave-game"
    | CreateGameEvent(name: string)          // "create-game"
    | ChatMessageEvent(message: string)      // "chat-message"

  const ServerCrashed: string := "The server crashed or restarted"
  const GameOverTitle: string := "Game Over"
  const OpponentLeftText: string := "Your opponent has left the game"

  /** The alert text of the `winner` handler. */
  function WinnerNotice(winner: string): (notice: string)
    ensures |notice| == |winner| + 18
    ensures notice[..|winner|] == winner
    ensures notice[|winner|..] == " has won the game!"
  {
    winner + " has won the game!"
  }
}
