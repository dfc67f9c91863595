# Movie blackjack lobby: a verified model

This project models the core of a multiplayer party game. Players join a
lobby by its code and take turns. On their turn a player guesses, then may
"hit" to guess again or "stay" to end the turn. The game is over when the
last player in the roster stays.

The model covers three parts of the source.

- **The lobby state machine** (`app/machines/lobbyMachine.ts`).
  - It has phases `pregame`, then `in progress` with the sub-phases
    `spectating`, `guessing` and `hit or stay`, and then the final phase
    `done`.
  - Its context is a `Lobby` (code, roster in turn order, nullable active
    player id) plus the `currentPlayerId` of the evaluating participant.
  - `getNextPlayer` is a round-robin policy. The machine has three
    context-updating actions, the no-op `calculateWinner` and two guards.
  - The model is a transition function over snapshots (`LobbyMachine.Transition`).
    `LobbyMachine.Settle` is the eager `always` transition from `spectating`
    to `guessing`. `LobbyMachine.Send` applies one event and then settles.
  - Reading `players[0].id` of an empty roster throws a `TypeError` in the
    source. The model returns the `TypeError` outcome instead.
- **The pure decisions of the lobby server** (`app/models/lobby.server.ts`).
  - `joinLobby` validates a code: first the format regex, then the
    existence check, then a redirect to the upper-cased code.
  - The generator alphabet for new codes.
  - The missing-code guard at the top of `requireLobbyState`.
- **The TMDB image URL builder** `getTMDBImagePath` (`app/utils.ts`).
  - It is paired with a parser that reads the size and path back from a URL.

Modules: `Wrappers` (Option), `LobbyTypes` (records), `LobbyMachine`
(policy, actions, guards, transition table), `LobbyMachineProps` (lemmas),
`Runner` (the wait predicate of the machine runner), `LobbyServer`,
`TmdbImages`.

Some behaviour one might expect of such a lobby is absent from the code,
or differs from it; the model follows the code:

- The code has no `JOIN_GAME` event, no 8-player limit and no `full`
  state. The lobby route sends `JOIN_GAME` anyway, and the machine ignores
  it. That event is `Event.Other`.
- When the active player leaves, the successor comes from the roster
  BEFORE the removal (`lobbyMachine.ts:106`), not from the roster after it.
- `START_GAME` enters `in progress`, whose entry action advances the
  active player. The machine then starts in `spectating`.
- No action ever assigns `currentPlayerId`. It stays whatever the stored
  snapshot holds. `LobbyMachineProps.AsPlayer` sets it explicitly for a
  given evaluation.
- `done` is a top-level final state, so the runner stops there. The model
  ignores every event in `done`, `PLAYER_LEFT` included.

The successor of a leaving active player is guaranteed to stay in the new
roster when ids are unique and there are at least two players
(`LobbyMachineProps.PlayerLeftActive`). It can be removed when the active id
repeats (`LobbyMachineProps.DuplicateIdsLoseSuccessor`), and a sole active
player who leaves stays active (`LobbyMachineProps.SoleActivePlayerLeaves`).
Nothing in the machine enforces unique ids: `PLAYER_JOINED` appends without
a check.

## Model

| member | source | states |
|---|---|---|
| LobbyMachine.FindIndex | app/machines/lobbyMachine.ts:6 | -1 exactly when the id is null or no player has it; otherwise the first position holding that id |
| LobbyMachine.GetNextPlayer | app/machines/lobbyMachine.ts:5-10 | on a non-empty roster the result is the id of a roster member |
| LobbyMachine.AssignPlayerJoined | app/machines/lobbyMachine.ts:100 | the roster grows by one: the old players keep their positions and the new player is last; active id, code and evaluating id are unchanged |
| LobbyMachine.AssignPlayerLeft | app/machines/lobbyMachine.ts:101-109 | throws exactly when the active player leaves an empty roster; otherwise every player with the id is removed, a non-active leaver leaves the active id unchanged, and an active leaver is replaced by a member of the old roster |
| LobbyMachine.AssignAdvanceActivePlayer | app/machines/lobbyMachine.ts:110 | the new active id names a roster member; roster, code and evaluating id are unchanged |
| LobbyMachine.CalculateWinner | app/machines/lobbyMachine.ts:111 | the hook changes nothing: the context is kept as it was |
| LobbyMachine.CurrentPlayerIsActive | app/machines/lobbyMachine.ts:114 | false for a null active id (strict equality with a string); otherwise true exactly when the active id is the evaluating player's id |
| LobbyMachine.IsLastGuess | app/machines/lobbyMachine.ts:115 | when it holds the active id names a roster member; with unique ids and the active player at position i, it holds exactly when i is the last position |
| LobbyMachine.Transition | app/machines/lobbyMachine.ts:25-97 | `done` ignores every event; a throw happens only on an empty roster; no event changes the lobby code or the evaluating id; no event returns to `pregame` |
| LobbyMachine.Send | app/machines/lobbyMachine.ts:56-59 | throws exactly when the transition does; keeps the transition's context; the result never sits in `spectating` with the evaluating player active |
| LobbyMachineProps.GetNextPlayerIsRoundRobin | app/machines/lobbyMachine.ts:5-10 | the first player when the active id is null or absent; otherwise the player after the active one's first position, wrapping to position 0 after the last |
| LobbyMachineProps.AdvanceTimesFrom | app/machines/lobbyMachine.ts:110 | with unique ids, k <= N advances from position i make position i+k (wrapped once) active and change nothing else |
| LobbyMachineProps.RotationIsCyclic | app/machines/lobbyMachine.ts:5-10 | with unique ids and the active player in the roster, N advances give back the starting context |
| LobbyMachine.RemovePlayer | app/machines/lobbyMachine.ts:104 | a player is kept exactly when it was in the roster and its id is not the leaver's |
| LobbyMachineProps.RemovePlayerConcat | app/machines/lobbyMachine.ts:104 | removal distributes over concatenation, so the kept players keep their relative order |
| LobbyMachineProps.RemoveAbsentPlayer | app/machines/lobbyMachine.ts:104 | removing an id nobody has leaves the roster unchanged |
| LobbyMachineProps.RemovePlayerKeepsUniqueIds | app/machines/lobbyMachine.ts:104 | removal keeps ids unique |
| LobbyMachineProps.AppendKeepsUniqueIds | app/machines/lobbyMachine.ts:100 | appending a player with a new id keeps ids unique |
| LobbyMachine.Settle | app/machines/lobbyMachine.ts:55-60 | the context is kept; only `spectating` may move, only to `guessing`; afterwards no snapshot is in `spectating` with the evaluating player active |
| LobbyMachineProps.PlayerJoinedAppends | app/machines/lobbyMachine.ts:41-45 | in `pregame` the player is appended at the end; the other players, the active id and the phase are unchanged; the roster invariant is kept exactly when the new id is not taken |
| LobbyMachineProps.PlayerLeftNotActive | app/machines/lobbyMachine.ts:35-39 | in any non-final phase every player with the id is removed and the others are kept; the active id is unchanged; the phase is too, outside `spectating` and on any settled snapshot; an active id that named a member still does |
| LobbyMachineProps.PlayerLeftActive | app/machines/lobbyMachine.ts:101-109 | the new active id is the leaver's successor in the old roster (wrapping), or the first player when the leaver was not in it; with unique ids and at least two players the roster invariant holds afterwards; the phase is kept (the successor continues in `guessing` or `hit or stay`), except that `spectating` settles into `guessing` exactly when the new active player is the evaluating one |
| LobbyMachineProps.PlayerLeftEmptyRosterThrows | app/machines/lobbyMachine.ts:105-106 | the active player leaving an empty roster throws |
| LobbyMachineProps.SoleActivePlayerLeaves | app/machines/lobbyMachine.ts:103-108 | when the only player is active and leaves, the roster is empty and the active id still names the leaver |
| LobbyMachineProps.DuplicateIdsLoseSuccessor | app/machines/lobbyMachine.ts:104-106 | with two players sharing the active id, the computed successor is removed too and the active id names nobody |
| LobbyMachineProps.StartGameEntersInProgress | app/machines/lobbyMachine.ts:46-53 | `START_GAME` throws exactly on an empty roster; otherwise only the active id advances, from null to the first player, and the phase is `guessing` exactly when that player is the evaluating one, else `spectating` |
| LobbyMachineProps.GuessAndHitKeepContext | app/machines/lobbyMachine.ts:61-72 | `GUESS` moves `guessing` to `hit or stay` and `HIT` moves it back; the context is unchanged |
| LobbyMachineProps.StayOutcome | app/machines/lobbyMachine.ts:73-82 | with the last roster entry active, `STAY` goes to `done` with the context unchanged; otherwise it throws exactly on an empty roster, or advances the active player one step and goes back to `spectating`/`guessing` |
| LobbyMachineProps.StayByPosition | app/machines/lobbyMachine.ts:115 | with unique ids and the active player at position i, `STAY` ends the game exactly when i is the last position, and otherwise makes position i+1 active |
| LobbyMachineProps.GameFinishedEndsGame | app/machines/lobbyMachine.ts:86-95 | `GAME_FINISHED` from any sub-phase of `in progress` goes to `done` with the context unchanged |
| LobbyMachineProps.UnhandledEventIsNoOp | app/machines/lobbyMachine.ts:25-97 | an event the phase does not list only settles the snapshot; on a settled snapshot it changes nothing; `done` ignores every event |
| LobbyMachineProps.SendReturnsSettled | app/machines/lobbyMachine.ts:55-59 | every snapshot after an event is a fixed point of the eager transition |
| LobbyMachineProps.TypeErrorOnlyOnEmptyRoster | app/machines/lobbyMachine.ts:9 | an event throws only on an empty roster in a non-final phase, for `START_GAME`, `STAY` or the active player leaving |
| LobbyMachineProps.SendPreservesValid | app/machines/lobbyMachine.ts:98-116 | every event keeps unique ids and an active id naming a member, if a joining id is new and the active player does not leave a roster of one |
| LobbyMachineProps.TwoPlayerGame | app/machines/lobbyMachine.ts:25-97 | two players join, play one turn each in roster order, and the game is done after the last player stays |
| Runner.Tags | app/machines/asyncInterpret.ts:16 | the intended tagging, which the machine lacks (it declares no tags): the pause tag the runner waits for on exactly the non-final phases |
| Runner.Run | app/machines/asyncInterpret.ts:11-18 | throws exactly when sending the event throws; otherwise takes the started snapshot, or what sending the event computes, and resolves with it when it is `done` or carries the pause tag, and times out exactly when it is neither |
| Runner.RunAsWrittenWaitsForDone | app/machines/asyncInterpret.ts:16 | with the machine's tags as written the runner resolves only in `done`, and creating a fresh snapshot times out |
| Runner.RunNeverTimesOut | app/machines/asyncInterpret.ts:11-18 | with the non-final phases tagged, the runner never times out and returns what sending the event computes |
| LobbyServer.MatchesCodeRegex | app/models/lobby.server.ts:9 | true exactly when eight consecutive ASCII letters or digits, of either case, appear anywhere in the input |
| LobbyServer.ContainsLiteral | app/models/lobby.server.ts:80 | true exactly when the literal occurs somewhere in the input |
| LobbyServer.ToUpper | app/models/lobby.server.ts:84 | same length, no lower-case ASCII letter left, and every character is either unchanged or the upper case of a lower-case ASCII letter |
| LobbyServer.LowerCaseCodeJoins | app/models/lobby.server.ts:84 | a valid code typed in lower case ("abcd1234") is redirected to "/lobby/ABCD1234" |
| LobbyServer.JoinLobby | app/models/lobby.server.ts:74-85 | "Invalid lobby code" exactly when no run of eight code characters appears; "Lobby does not exist" exactly when one does and "12345678" occurs; otherwise a redirect to "/lobby/" plus the upper-cased code |
| LobbyServer.UnanchoredCodeCheck | app/models/lobby.server.ts:9 | any input containing a run of eight code characters, whatever surrounds it, passes the format check |
| LobbyServer.AlphabetChars | app/models/lobby.server.ts:10 | every generator character is a code character and is its own upper case |
| LobbyServer.GeneratedCodeJoins | app/models/lobby.server.ts:8-10 | a generated code is redirected to "/lobby/" plus the code unchanged, except "12345678", which does not exist |
| LobbyServer.RequireLobbyCode | app/models/lobby.server.ts:52 | a missing or empty code throws a redirect to "/"; any other code goes on unchanged |
| TmdbImages.Decimal | app/utils.ts:4 | the rendering of a width is non-empty, all digits, with no leading zero |
| TmdbImages.DecimalRoundTrip | app/utils.ts:4 | reading the rendered width back gives the width |
| TmdbImages.GetTMDBImagePath | app/utils.ts:3-4 | the URL starts with "https://image.tmdb.org/t/p/" and ends with the path |
| TmdbImages.ImagePathShape | app/utils.ts:3-4 | with the default width the URL is the base, "/original" and the path; with width w it is the base, "/w", w in decimal and the path |
| TmdbImages.ImagePathRoundTrip | app/utils.ts:1-4 | for a path starting with '/', the size and the path are read back from the URL |
| TmdbImages.NoSeparatorBeforePath | app/utils.ts:4 | no separator comes before the path: ("0.jpg", width 50) and (".jpg", width 500) give the same URL |

## Findings

| source | as written | input that shows it | evidently intended | confidence | as-written member | corrected member |
|---|---|---|---|---|---|---|
| app/machines/asyncInterpret.ts:16 | the runner waits for `state.done` or a state tagged `pause`, but no state of the lobby machine declares a tag | creating a lobby snapshot with no stored state and no event (`getLobbySession`, app/models/lobby.server.ts:26-29) leaves the machine in `pregame`, which is neither done nor tagged, so the wait times out after 3000 ms | every non-final phase, each of which waits for the next external event, carries the `pause` tag | high, not executed | Runner.RunAsWrittenWaitsForDone | Runner.RunNeverTimesOut |

## Left out

- LobbyServer.JoinLobby: upper-cases ASCII letters only. JavaScript's `toUpperCase` also maps other letters (`ß` becomes `SS`), so for inputs with non-ASCII letters around a valid run the modelled redirect path differs.
- LobbyServer.ToUpper: maps only the ASCII letters `a`-`z` and keeps every other character, so "same length" holds of the model but not of JavaScript's `toUpperCase`, which also maps other letters (`é` becomes `É`) and can lengthen the string (`ß` becomes `SS`).
- TmdbImages.GetTMDBImagePath: widths are natural numbers rendered in plain decimal digits. A JavaScript number can also be negative or fractional (`w-1.5`), widths of 10^21 or more render in exponent form (`w1e+21`), and widths above 2^53 are not represented exactly; none of these is modelled.
- LobbyMachine.GetNextPlayer: requires a non-empty roster, because the source throws there. Every transition that calls it checks the roster first and returns the `TypeError` outcome instead.
- Guess scores are JavaScript numbers and are modelled as integers. The `GUESS` payload is carried but never used, as in the source.
- xstate itself (interpreter, snapshot serialisation, action and history bookkeeping) is replaced by the transition function. A final state stopping the service is modelled as every event being ignored in `done`.
- The runner's millisecond timeout and asynchrony are reduced to the `Timeout` result of `Runner.Run`.
- Cookie-session functions (`getLobbySession`, `updateLobbySession`, `clearLobbySession`, `getLobbyState`, `sendEventToLobby`) are session and network I/O.
- The URL-suffix check of `requireLobbyState` (app/models/lobby.server.ts:57-59) needs request URLs and xstate's state value.
- `createLobby`, `generateLobbyCode` and `random` (app/utils.ts:6) depend on randomness, and `random` also on floating point. Only the generator's alphabet is modelled.
- The HTTP server, the movie lookups, player creation, the UI routes and the constant and declaration files are plumbing outside the turn-taking logic.
- The source has no winner calculation, no guess recording, no player limit, no `JOIN_GAME` and no `full` state, so the model has none either.
