/** Page-to-view selection: which collaborator view is shown for a page, and
    what it is given. */
module Router {
  import opened Protocol
  import opened Derivation

  datatype View =
    | LobbyView(games: seq<GameSummary>)          // Lobby, given the games list
    | CreateNewGameView                           // CreateNewGame
    | GameView(color: string, game: Detail)       // Game, given color and current game
    | NoView                                      // nothing rendered

  /** The three guarded alternatives of the page body. */
  function ViewOf(page: Page, games: seq<GameSummary>, color: string, game: Detail): (v: View)
    ensures v.LobbyView? <==> page == Lobby
    ensures v.LobbyView? ==> v.games == games
    ensures v.CreateNewGameView? <==> page == CreateNewGame
    ensures v.GameView? <==> page == Game && Truthy(game)
    ensures v.GameView? ==> v.color == color && v.game == game
  {
    if page == Lobby then LobbyView(games)
    else if page == CreateNewGame then CreateNewGameView
    else if page == Game && Truthy(game) then GameView(color, game)
    else NoView
  }
}
