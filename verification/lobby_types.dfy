/** The passive records of a lobby: guesses, players, the lobby itself and
    the context the lobby state machine carries. */
module LobbyTypes {
  import opened Wrappers

  /** A guess of one player about one movie. The source's scores are
      JavaScript numbers; they are modelled as integers. */
  datatype Guess = Guess(movieId: string, scoreGuess: int, actualScore: int)

  /** A participant; `guesses` is chronological. */
  datatype Player = Player(id: string, name: string, guesses: seq<Guess>)

  /** A lobby: its code, its roster in turn order, and the id of the player
      whose turn it is (`null` before the game starts). The active id is a
      weak reference: nothing forces it to name a player of the roster. */
  datatype Lobby = Lobby(code: string, players: seq<Player>, activePlayer: Option<string>)

  /** The machine's context: the lobby plus the id of the participant the
      evaluating process acts as. */
  datatype Context = Context(lobby: Lobby, currentPlayerId: string)

  /** The context the machine is created with. */
  const DefaultContext := Context(Lobby("", [], None), "")

  /** Some player of `ps` has id `id`. */
  predicate HasPlayer(ps: seq<Player>, id: string)
  {
    exists i :: 0 <= i < |ps| && ps[i].id == id
  }

  /** No two players of `ps` share an id. */
  predicate UniqueIds(ps: seq<Player>)
  {
    forall i, j :: 0 <= i < j < |ps| ==> ps[i].id != ps[j].id
  }
}
