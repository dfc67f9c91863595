/** The lobby's turn-taking state machine: a round-robin turn policy, the
    phase/transition table, the context-updating actions and the guards,
    with the eager `spectating` -> `guessing` check run after every event. */
module LobbyMachine {
  import opened Wrappers
  import opened LobbyTypes

  // ---------------------------------------------------------------------
  // Turn-order policy
  // ---------------------------------------------------------------------

  /** `i` is the first position of `ps` whose player has id `id`. */
  predicate IsFirstIndexOf(ps: seq<Player>, id: string, i: int)
  {
    0 <= i < |ps| && ps[i].id == id && forall j :: 0 <= j < i ==> ps[j].id != id
  }

  /** `players.findIndex(p => p.id === id)`: the first position whose id is
      `id`, or -1. A `null` id is strictly unequal to every string id. */
  function FindIndex(ps: seq<Player>, id: Option<string>): (k: int)
    ensures -1 <= k < |ps|
    ensures k == -1 <==> id.None? || !HasPlayer(ps, id.value)
    ensures k != -1 ==> id.Some? && IsFirstIndexOf(ps, id.value, k)
  {
    if id.None? || |ps| == 0 then -1
    else if ps[0].id == id.value then 0
    else
      var k := FindIndex(ps[1..], id);
      if k == -1 then -1 else k + 1
  }

  /** `getNextPlayer`: the id of the player after the active one, wrapping to
      the first player when the active player is last, absent or `null`.
      On an empty roster the source reads `players[0].id` of `undefined` and
      throws; callers of this function must rule that out first. */
  function GetNextPlayer(lobby: Lobby): (r: string)
    requires |lobby.players| > 0
    ensures HasPlayer(lobby.players, r)
  {
    var ps := lobby.players;
    var activeIndex := FindIndex(ps, lobby.activePlayer);
    var newIndex := if activeIndex == -1 || activeIndex + 1 >= |ps| then 0 else activeIndex + 1;
    ps[newIndex].id
  }

  // ---------------------------------------------------------------------
  // Phases, events, snapshots
  // ---------------------------------------------------------------------

  /** The child states of `in progress`. */
  datatype SubPhase = Spectating | Guessing | HitOrStay

  /** The top-level states: `pregame` (initial), `in progress` and the final
      state `done`. */
  datatype Phase = Pregame | InProgress(sub: SubPhase) | Done

  /** The events of the machine's schema, plus `Other` for any event type
      the schema does not declare (the lobby route sends `JOIN_GAME`). */
  datatype Event =
    | PlayerJoined(player: Player)
    | PlayerLeft(playerId: string)
    | StartGame
    | Guess(score: Option<int>)
    | Hit
    | Stay
    | GameFinished
    | Other(name: string)

  /** A snapshot: the current phase and context. */
  datatype State = State(phase: Phase, context: Context)

  /** The result of sending an event: the settled snapshot, or the
      TypeError thrown when `getNextPlayer` runs on an empty roster. */
  datatype Outcome = Ok(state: State) | TypeError

  /** The machine's initial snapshot. */
  const Initial := State(Pregame, DefaultContext)

  // ---------------------------------------------------------------------
  // Actions and guards
  // ---------------------------------------------------------------------

  /** Removes every player with id `id`, keeping the others in order
      (`players.filter(p => p.id !== id)`). */
  function RemovePlayer(ps: seq<Player>, id: string): (r: seq<Player>)
    ensures |r| <= |ps|
    ensures forall p :: p in r <==> p in ps && p.id != id
  {
    if |ps| == 0 then []
    else if ps[0].id == id then RemovePlayer(ps[1..], id)
    else [ps[0]] + RemovePlayer(ps[1..], id)
  }

  /** Action `playerJoined`. */
  function AssignPlayerJoined(ctx: Context, p: Player): (r: Context)
    ensures |r.lobby.players| == |ctx.lobby.players| + 1
    ensures r.lobby.players[..|ctx.lobby.players|] == ctx.lobby.players
    ensures r.lobby.players[|ctx.lobby.players|] == p
    ensures r.lobby.activePlayer == ctx.lobby.activePlayer && r.lobby.code == ctx.lobby.code
    ensures r.currentPlayerId == ctx.currentPlayerId
  {
    ctx.(lobby := ctx.lobby.(players := ctx.lobby.players + [p]))
  }

  /** Action `advanceActivePlayer`; throws on an empty roster. */
  function AssignAdvanceActivePlayer(ctx: Context): (r: Context)
    requires |ctx.lobby.players| > 0
    ensures r.lobby.activePlayer.Some? && HasPlayer(ctx.lobby.players, r.lobby.activePlayer.value)
    ensures r.lobby.players == ctx.lobby.players && r.lobby.code == ctx.lobby.code
    ensures r.currentPlayerId == ctx.currentPlayerId
  {
    ctx.(lobby := ctx.lobby.(activePlayer := Some(GetNextPlayer(ctx.lobby))))
  }

  /** Action `playerLeft`: the successor of a leaving active player is taken
      from the roster BEFORE the removal. `None` when that computation
      throws (the active player leaves an empty roster). */
  function AssignPlayerLeft(ctx: Context, leaving: string): (r: Option<Context>)
    ensures r.None? <==> ctx.lobby.activePlayer == Some(leaving) && ctx.lobby.players == []
    ensures r.Some? ==> r.value.lobby.players == RemovePlayer(ctx.lobby.players, leaving)
    ensures r.Some? ==> !HasPlayer(r.value.lobby.players, leaving)
    ensures r.Some? && ctx.lobby.activePlayer != Some(leaving) ==> r.value.lobby.activePlayer == ctx.lobby.activePlayer
    ensures r.Some? && ctx.lobby.activePlayer == Some(leaving) ==>
              r.value.lobby.activePlayer.Some? && HasPlayer(ctx.lobby.players, r.value.lobby.activePlayer.value)
    ensures r.Some? ==> r.value.lobby.code == ctx.lobby.code && r.value.currentPlayerId == ctx.currentPlayerId
  {
    var newPlayers := RemovePlayer(ctx.lobby.players, leaving);
    if ctx.lobby.activePlayer == Some(leaving) then
      if |ctx.lobby.players| == 0 then None
      else Some(ctx.(lobby := ctx.lobby.(players := newPlayers, activePlayer := Some(GetNextPlayer(ctx.lobby)))))
    else
      Some(ctx.(lobby := ctx.lobby.(players := newPlayers)))
  }

  /** Action `calculateWinner`: an empty hook. */
  function CalculateWinner(ctx: Context): (r: Context)
    ensures r == ctx
  {
    ctx
  }

  /** Guard `currentPlayerIsActive`. */
  predicate CurrentPlayerIsActive(ctx: Context)
    ensures ctx.lobby.activePlayer.None? ==> !CurrentPlayerIsActive(ctx)
    ensures CurrentPlayerIsActive(ctx) ==> ctx.lobby.activePlayer.value == ctx.currentPlayerId
    ensures ctx.lobby.activePlayer.Some? && ctx.lobby.activePlayer.value == ctx.currentPlayerId ==>
              CurrentPlayerIsActive(ctx)
  {
    ctx.lobby.activePlayer == Some(ctx.currentPlayerId)
  }

  /** Guard `isLastGuess`: the last roster entry's id is the active id; on
      an empty roster `undefined !== activePlayer`. */
  predicate IsLastGuess(ctx: Context)
    ensures IsLastGuess(ctx) ==> ctx.lobby.activePlayer.Some? && HasPlayer(ctx.lobby.players, ctx.lobby.activePlayer.value)
    ensures forall i :: UniqueIds(ctx.lobby.players) && 0 <= i < |ctx.lobby.players| &&
                        ctx.lobby.activePlayer == Some(ctx.lobby.players[i].id) ==>
              (IsLastGuess(ctx) <==> i == |ctx.lobby.players| - 1)
  {
    |ctx.lobby.players| > 0 && ctx.lobby.activePlayer == Some(ctx.lobby.players[|ctx.lobby.players| - 1].id)
  }

  // ---------------------------------------------------------------------
  // Transition table
  // ---------------------------------------------------------------------

  /** Entering `in progress` runs `advanceActivePlayer`, then starts in
      `spectating`. */
  function EnterInProgress(ctx: Context): Outcome
  {
    if |ctx.lobby.players| == 0 then TypeError
    else Ok(State(InProgress(Spectating), AssignAdvanceActivePlayer(ctx)))
  }

  /** Entering the final state `done` runs `calculateWinner`. */
  function EnterDone(ctx: Context): Outcome
  {
    Ok(State(Done, CalculateWinner(ctx)))
  }

  /** One event, before eager transitions. Events a phase does not list
      are ignored; the final phase ignores everything. */
  function Transition(s: State, e: Event): (r: Outcome)
    ensures s.phase.Done? ==> r == Ok(s)
    ensures r.TypeError? ==> s.context.lobby.players == []
    ensures r.Ok? ==> r.state.context.lobby.code == s.context.lobby.code
    ensures r.Ok? ==> r.state.context.currentPlayerId == s.context.currentPlayerId
    ensures r.Ok? && r.state.phase == Pregame ==> s.phase == Pregame
  {
    if s.phase.Done? then Ok(s)
    else
      match e
      case PlayerLeft(id) =>
        (match AssignPlayerLeft(s.context, id)
         case None => TypeError
         case Some(c) => Ok(s.(context := c)))
      case PlayerJoined(p) =>
        if s.phase.Pregame? then Ok(s.(context := AssignPlayerJoined(s.context, p))) else Ok(s)
      case StartGame =>
        if s.phase.Pregame? then EnterInProgress(s.context) else Ok(s)
      case Guess(_) =>
        if s.phase == InProgress(Guessing) then Ok(s.(phase := InProgress(HitOrStay))) else Ok(s)
      case Hit =>
        if s.phase == InProgress(HitOrStay) then Ok(s.(phase := InProgress(Guessing))) else Ok(s)
      case Stay =>
        if s.phase != InProgress(HitOrStay) then Ok(s)
        else if IsLastGuess(s.context) then EnterDone(s.context)
        else if |s.context.lobby.players| == 0 then TypeError
        else Ok(State(InProgress(Spectating), AssignAdvanceActivePlayer(s.context)))
      case GameFinished =>
        if s.phase.InProgress? then EnterDone(s.context) else Ok(s)
      case Other(_) => Ok(s)
  }

  /** The eager (`always`) transition of `spectating`. */
  function Settle(s: State): (r: State)
    ensures r.context == s.context
    ensures r.phase == s.phase || (s.phase == InProgress(Spectating) && r.phase == InProgress(Guessing))
    ensures !(r.phase == InProgress(Spectating) && CurrentPlayerIsActive(r.context))
  {
    if s.phase == InProgress(Spectating) && CurrentPlayerIsActive(s.context)
    then s.(phase := InProgress(Guessing))
    else s
  }

  /** Send one event and let the machine settle. */
  function Send(s: State, e: Event): (r: Outcome)
    ensures r.TypeError? <==> Transition(s, e).TypeError?
    ensures r.Ok? ==> r.state.context == Transition(s, e).state.context
    ensures r.Ok? ==> !(r.state.phase == InProgress(Spectating) && CurrentPlayerIsActive(r.state.context))
  {
    match Transition(s, e)
    case TypeError => TypeError
    case Ok(t) => Ok(Settle(t))
  }
}
