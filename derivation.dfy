/** The "current game" the Game view is given. It is not stored on its own
    account: it is recomputed from the broadcast list and the current game id
    whenever either changes. */
module Derivation {
  import opened Protocol

  /** What the `game` slot can hold. */
  datatype Detail =
    | InitialDetail               // the initial value {board: [], chat: []}
    | Found(summary: GameSummary) // the broadcast entry whose id matched
    | EmptyBoard                  // the not-found placeholder {board: []}, without chat
    | Text(text: string)          // a string, as stored by leaveGame

  /** `g.id === gameId`: a null game id matches no entry. */
  predicate Matches(g: GameSummary, id: Option<GameId>) {
    id.Some? && g.id == id.value
  }

  /** Index of the first entry of `games` that matches `id`, or `|games|`
      when none does. */
  function FirstIndex(games: seq<GameSummary>, id: Option<GameId>): (k: nat)
    ensures k <= |games|
    ensures k < |games| ==> Matches(games[k], id)
    ensures forall j :: 0 <= j < k ==> !Matches(games[j], id)
  {
    if games == [] then 0
    else if Matches(games[0], id) then 0
    else 1 + FirstIndex(games[1..], id)
  }

  /** `games.find(g => g.id === gameId)`, with the placeholder when nothing
      is found. */
  function Derive(games: seq<GameSummary>, id: Option<GameId>): (r: Detail)
    ensures r.Found? || r == EmptyBoard
    ensures r == EmptyBoard <==> (forall g :: g in games ==> !Matches(g, id))
    ensures r.Found? ==> exists k :: 0 <= k < |games| && games[k] == r.summary
                                   && Matches(games[k], id)
                                   && (forall j :: 0 <= j < k ==> !Matches(games[j], id))
  {
    var k := FirstIndex(games, id);
    if k < |games| then Found(games[k]) else EmptyBoard
  }

  /** The entries that follow the first match never influence the result:
      the server's order decides, and the client does not sort. */
  lemma {:induction false} DeriveAppend(a: seq<GameSummary>, b: seq<GameSummary>, id: Option<GameId>)
    ensures Derive(a + b, id) == if Derive(a, id).Found? then Derive(a, id) else Derive(b, id)
  {
    FirstIndexAppend(a, b, id);
  }

  lemma {:induction false} FirstIndexAppend(a: seq<GameSummary>, b: seq<GameSummary>, id: Option<GameId>)
    ensures FirstIndex(a + b, id) == if FirstIndex(a, id) < |a| then FirstIndex(a, id)
                                     else |a| + FirstIndex(b, id)
  {
    if a == [] {
      assert a + b == b;
    } else {
      assert (a + b)[0] == a[0];
      assert (a + b)[1..] == a[1..] + b;
      FirstIndexAppend(a[1..], b, id);
    }
  }

  /** JavaScript truthiness of the `game` slot: objects are truthy, a
      string is truthy when it is not empty. */
  predicate Truthy(d: Detail) {
    match d
    case Text(s) => s != ""
    case _ => true
  }
}
