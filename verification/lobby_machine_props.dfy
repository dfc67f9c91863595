/** Properties of the lobby state machine: round-robin rotation, what each
    event does to the roster, the active player and the phase, the final
    state, ignored events, and the roster invariant the events keep. */
module LobbyMachineProps {
  import opened Wrappers
  import opened LobbyTypes
  import opened LobbyMachine

  // ---------------------------------------------------------------------
  // Turn-order policy
  // ---------------------------------------------------------------------

  /** With unique ids every position is the first index of its own id. */
  lemma UniqueIdsFirstIndex(ps: seq<Player>, i: int)
    requires UniqueIds(ps) && 0 <= i < |ps|
    ensures IsFirstIndexOf(ps, ps[i].id, i)
  {
  }

  /** `getNextPlayer` is round-robin: the first player when the active id is
      `null` or absent, otherwise the player after the active one's first
      position, wrapping to position 0 after the last. */
  lemma GetNextPlayerIsRoundRobin(lobby: Lobby)
    requires |lobby.players| > 0
    ensures lobby.activePlayer.None? || !HasPlayer(lobby.players, lobby.activePlayer.value) ==>
              GetNextPlayer(lobby) == lobby.players[0].id
    ensures forall i :: lobby.activePlayer.Some? && IsFirstIndexOf(lobby.players, lobby.activePlayer.value, i) ==>
              GetNextPlayer(lobby) == lobby.players[if i + 1 < |lobby.players| then i + 1 else 0].id
  {
  }

  /** `advanceActivePlayer` applied `n` times to a fixed roster. */
  function AdvanceTimes(ctx: Context, n: nat): Context
    requires |ctx.lobby.players| > 0
    decreases n
  {
    if n == 0 then ctx else AdvanceTimes(AssignAdvanceActivePlayer(ctx), n - 1)
  }

  /** Advancing `k <= N` times from the player at position `i` lands on
      position `i + k`, wrapped once past the end of the roster, and changes
      nothing but the active id. */
  lemma {:induction false} AdvanceTimesFrom(ctx: Context, i: nat, k: nat)
    requires UniqueIds(ctx.lobby.players) && i < |ctx.lobby.players| && k <= |ctx.lobby.players|
    requires ctx.lobby.activePlayer == Some(ctx.lobby.players[i].id)
    ensures AdvanceTimes(ctx, k) == ctx.(lobby := ctx.lobby.(activePlayer := Some(
              ctx.lobby.players[if i + k < |ctx.lobby.players| then i + k else i + k - |ctx.lobby.players|].id)))
    decreases k
  {
    var ps := ctx.lobby.players;
    var n := |ps|;
    if k > 0 {
      var next := AssignAdvanceActivePlayer(ctx);
      UniqueIdsFirstIndex(ps, i);
      GetNextPlayerIsRoundRobin(ctx.lobby);
      var i' := if i + 1 < n then i + 1 else 0;
      assert next == ctx.(lobby := ctx.lobby.(activePlayer := Some(ps[i'].id)));
      AdvanceTimesFrom(next, i', k - 1);
    }
  }

  /** Rotation is cyclic: with unique ids and the active player in the
      roster, N advances return to the starting active player. */
  lemma RotationIsCyclic(ctx: Context)
    requires UniqueIds(ctx.lobby.players)
    requires ctx.lobby.activePlayer.Some? && HasPlayer(ctx.lobby.players, ctx.lobby.activePlayer.value)
    ensures AdvanceTimes(ctx, |ctx.lobby.players|) == ctx
  {
    var ps := ctx.lobby.players;
    var i :| 0 <= i < |ps| && ps[i].id == ctx.lobby.activePlayer.value;
    AdvanceTimesFrom(ctx, i, |ps|);
  }

  // ---------------------------------------------------------------------
  // Roster removal (`filter`)
  // ---------------------------------------------------------------------

  /** Removal distributes over concatenation, so the players that stay keep
      their relative order. */
  lemma {:induction false} RemovePlayerConcat(a: seq<Player>, b: seq<Player>, id: string)
    ensures RemovePlayer(a + b, id) == RemovePlayer(a, id) + RemovePlayer(b, id)
    decreases |a|
  {
    if |a| == 0 {
      assert a + b == b;
    } else {
      assert (a + b)[0] == a[0];
      assert (a + b)[1..] == a[1..] + b;
      RemovePlayerConcat(a[1..], b, id);
    }
  }

  /** Removing an id nobody has changes nothing. */
  lemma {:induction false} RemoveAbsentPlayer(ps: seq<Player>, id: string)
    requires !HasPlayer(ps, id)
    ensures RemovePlayer(ps, id) == ps
    decreases |ps|
  {
    if |ps| > 0 {
      assert !HasPlayer(ps[1..], id) by {
        forall j | 0 <= j < |ps| - 1 ensures ps[1..][j].id != id {
          assert ps[1..][j] == ps[j + 1];
        }
      }
      RemoveAbsentPlayer(ps[1..], id);
      assert [ps[0]] + ps[1..] == ps;
    }
  }

  /** Removal keeps ids unique. */
  lemma {:induction false} RemovePlayerKeepsUniqueIds(ps: seq<Player>, id: string)
    requires UniqueIds(ps)
    ensures UniqueIds(RemovePlayer(ps, id))
    decreases |ps|
  {
    if |ps| > 0 {
      var tail := ps[1..];
      assert UniqueIds(tail) by {
        forall i, j | 0 <= i < j < |tail| ensures tail[i].id != tail[j].id {
          assert tail[i] == ps[i + 1] && tail[j] == ps[j + 1];
        }
      }
      RemovePlayerKeepsUniqueIds(tail, id);
      if ps[0].id != id {
        var r := RemovePlayer(tail, id);
        forall j | 0 <= j < |r| ensures r[j].id != ps[0].id {
          assert r[j] in r;
          var m :| 0 <= m < |tail| && tail[m] == r[j];
          assert ps[m + 1] == r[j];
        }
        var out := [ps[0]] + r;
        forall i, j | 0 <= i < j < |out| ensures out[i].id != out[j].id {
          assert out[j] == r[j - 1];
          if i > 0 {
            assert out[i] == r[i - 1];
          }
        }
      }
    }
  }

  // ---------------------------------------------------------------------
  // Roster invariant
  // ---------------------------------------------------------------------

  /** The active id, when set, names a player of the roster. */
  predicate ActiveInRoster(ctx: Context)
  {
    ctx.lobby.activePlayer.Some? ==> HasPlayer(ctx.lobby.players, ctx.lobby.activePlayer.value)
  }

  /** The roster invariant: unique ids and an active id that names a member. */
  predicate Valid(ctx: Context)
  {
    UniqueIds(ctx.lobby.players) && ActiveInRoster(ctx)
  }

  /** Appending a player whose id is new keeps ids unique. */
  lemma AppendKeepsUniqueIds(ps: seq<Player>, p: Player)
    requires UniqueIds(ps) && !HasPlayer(ps, p.id)
    ensures UniqueIds(ps + [p])
  {
  }

  // ---------------------------------------------------------------------
  // Events
  // ---------------------------------------------------------------------

  /** `PLAYER_JOINED` in `pregame` appends the player at the end of the
      roster; the existing players, the active id and the phase stay. It
      keeps the roster invariant exactly when the new id is not taken. */
  lemma PlayerJoinedAppends(s: State, p: Player)
    requires s.phase == Pregame
    ensures Send(s, PlayerJoined(p))
         == Ok(State(Pregame, s.context.(lobby := s.context.lobby.(players := s.context.lobby.players + [p]))))
    ensures Valid(s.context) ==>
              (Valid(Send(s, PlayerJoined(p)).state.context) <==> !HasPlayer(s.context.lobby.players, p.id))
  {
  }

  /** `PLAYER_LEFT` of a player who is not active, in any non-final phase:
      every player with that id is removed, the others stay, the active id
      and (on a settled snapshot) the phase are unchanged, and an active id
      that named a member still does. */
  lemma PlayerLeftNotActive(s: State, id: string)
    requires !s.phase.Done? && s.context.lobby.activePlayer != Some(id)
    ensures Send(s, PlayerLeft(id)).Ok?
    ensures Send(s, PlayerLeft(id)).state.context.lobby.players == RemovePlayer(s.context.lobby.players, id)
    ensures !HasPlayer(Send(s, PlayerLeft(id)).state.context.lobby.players, id)
    ensures Send(s, PlayerLeft(id)).state.context.lobby.activePlayer == s.context.lobby.activePlayer
    ensures Settle(s) == s ==> Send(s, PlayerLeft(id)).state.phase == s.phase
    ensures s.phase != InProgress(Spectating) ==> Send(s, PlayerLeft(id)).state.phase == s.phase
    ensures ActiveInRoster(s.context) ==> ActiveInRoster(Send(s, PlayerLeft(id)).state.context)
  {
  }

  /** `PLAYER_LEFT` of the active player: the new active id is the leaver's
      successor in the roster as it was BEFORE the removal (wrapping). With
      unique ids and at least two players, that successor is still in the
      new roster. The transition has no target, so the phase is kept: a
      successor handed the turn in `guessing` or `hit or stay` continues
      there; only `spectating` may settle into `guessing`. */
  lemma PlayerLeftActive(s: State, id: string)
    requires !s.phase.Done? && s.context.lobby.activePlayer == Some(id)
    requires |s.context.lobby.players| > 0
    ensures Send(s, PlayerLeft(id)).Ok?
    ensures Send(s, PlayerLeft(id)).state.context.lobby.players == RemovePlayer(s.context.lobby.players, id)
    ensures forall i :: IsFirstIndexOf(s.context.lobby.players, id, i) ==>
              Send(s, PlayerLeft(id)).state.context.lobby.activePlayer
              == Some(s.context.lobby.players[if i + 1 < |s.context.lobby.players| then i + 1 else 0].id)
    ensures !HasPlayer(s.context.lobby.players, id) ==>
              Send(s, PlayerLeft(id)).state.context.lobby.activePlayer == Some(s.context.lobby.players[0].id)
    ensures UniqueIds(s.context.lobby.players) && |s.context.lobby.players| >= 2 ==>
              Valid(Send(s, PlayerLeft(id)).state.context)
    ensures s.phase != InProgress(Spectating) ==> Send(s, PlayerLeft(id)).state.phase == s.phase
    ensures s.phase == InProgress(Spectating) ==>
              Send(s, PlayerLeft(id)).state.phase
              == (if CurrentPlayerIsActive(Send(s, PlayerLeft(id)).state.context) then InProgress(Guessing)
                  else InProgress(Spectating))
  {
    var ps := s.context.lobby.players;
    var n := |ps|;
    var r := RemovePlayer(ps, id);
    GetNextPlayerIsRoundRobin(s.context.lobby);
    var next := GetNextPlayer(s.context.lobby);
    if UniqueIds(ps) && n >= 2 {
      RemovePlayerKeepsUniqueIds(ps, id);
      var j: int;
      if HasPlayer(ps, id) {
        var i :| 0 <= i < n && ps[i].id == id;
        UniqueIdsFirstIndex(ps, i);
        j := if i + 1 < n then i + 1 else 0;
        assert ps[j].id != ps[i].id;
      } else {
        j := 0;
      }
      assert next == ps[j].id && ps[j].id != id;
      assert ps[j] in r;
      var k :| 0 <= k < |r| && r[k] == ps[j];
    }
  }

  /** The only way the active player's departure throws: the roster is
      already empty. */
  lemma PlayerLeftEmptyRosterThrows(s: State, id: string)
    requires !s.phase.Done? && s.context.lobby.activePlayer == Some(id) && s.context.lobby.players == []
    ensures Send(s, PlayerLeft(id)) == TypeError
  {
  }

  /** The successor is computed from the old roster: when the only player
      is active and leaves, the active id keeps naming the player who left. */
  lemma SoleActivePlayerLeaves(s: State, a: Player)
    requires !s.phase.Done? && s.context.lobby.players == [a] && s.context.lobby.activePlayer == Some(a.id)
    ensures Send(s, PlayerLeft(a.id)).Ok?
    ensures Send(s, PlayerLeft(a.id)).state.context.lobby.players == []
    ensures Send(s, PlayerLeft(a.id)).state.context.lobby.activePlayer == Some(a.id)
    ensures !ActiveInRoster(Send(s, PlayerLeft(a.id)).state.context)
  {
  }

  /** Unique ids are needed for the successor to survive: with two players
      sharing the active id, the successor computed from the old roster is
      removed together with the leaver. */
  lemma DuplicateIdsLoseSuccessor(s: State, a: Player, b: Player, c: Player)
    requires !s.phase.Done? && a.id == b.id && c.id != a.id
    requires s.context.lobby.players == [a, b, c] && s.context.lobby.activePlayer == Some(a.id)
    ensures Send(s, PlayerLeft(a.id)).Ok?
    ensures Send(s, PlayerLeft(a.id)).state.context.lobby.players == [c]
    ensures !ActiveInRoster(Send(s, PlayerLeft(a.id)).state.context)
  {
    GetNextPlayerIsRoundRobin(s.context.lobby);
    assert IsFirstIndexOf([a, b, c], a.id, 0);
    assert RemovePlayer([c], a.id) == [c];
    assert RemovePlayer([b, c], a.id) == [c];
    var r := Send(s, PlayerLeft(a.id)).state.context.lobby;
    assert r.activePlayer == Some(b.id);
  }

  /** `START_GAME` in `pregame` enters `in progress`, whose entry advances
      the active player: from `null` that is the first player. It throws on
      an empty roster. The snapshot then settles into `guessing` exactly
      when the new active player is the evaluating one. */
  lemma StartGameEntersInProgress(s: State)
    requires s.phase == Pregame
    ensures Send(s, StartGame) == TypeError <==> s.context.lobby.players == []
    ensures s.context.lobby.players != [] ==>
              Send(s, StartGame).Ok? &&
              Send(s, StartGame).state.context
              == s.context.(lobby := s.context.lobby.(activePlayer := Some(GetNextPlayer(s.context.lobby))))
    ensures s.context.lobby.players != [] && s.context.lobby.activePlayer.None? ==>
              Send(s, StartGame).state.context.lobby.activePlayer == Some(s.context.lobby.players[0].id)
    ensures s.context.lobby.players != [] ==>
              Send(s, StartGame).state.phase
              == (if CurrentPlayerIsActive(Send(s, StartGame).state.context) then InProgress(Guessing)
                  else InProgress(Spectating))
  {
  }

  /** `GUESS` moves `guessing` to `hit or stay`; `HIT` moves back. Neither
      changes the context. */
  lemma GuessAndHitKeepContext(s: State, score: Option<int>)
    ensures s.phase == InProgress(Guessing) ==>
              Send(s, Event.Guess(score)) == Ok(State(InProgress(HitOrStay), s.context))
    ensures s.phase == InProgress(HitOrStay) ==>
              Send(s, Hit) == Ok(State(InProgress(Guessing), s.context))
  {
  }

  /** `STAY` in `hit or stay`: the game is done when the last roster entry
      is active (the context is kept); otherwise the active player advances
      one step (throwing on an empty roster) and the machine goes back to
      `spectating`, settling into `guessing` when it is now the evaluating
      player's turn. */
  lemma StayOutcome(s: State)
    requires s.phase == InProgress(HitOrStay)
    ensures IsLastGuess(s.context) ==> Send(s, Stay) == Ok(State(Done, s.context))
    ensures Send(s, Stay) == TypeError <==> s.context.lobby.players == []
    ensures !IsLastGuess(s.context) && s.context.lobby.players != [] ==>
              Send(s, Stay).Ok? &&
              Send(s, Stay).state.context
              == s.context.(lobby := s.context.lobby.(activePlayer := Some(GetNextPlayer(s.context.lobby)))) &&
              Send(s, Stay).state.phase
              == (if CurrentPlayerIsActive(Send(s, Stay).state.context) then InProgress(Guessing)
                  else InProgress(Spectating))
  {
  }

  /** With unique ids and the active player at position `i`, `STAY` ends the
      game exactly at the last position and otherwise hands the turn to
      position `i + 1`. */
  lemma StayByPosition(s: State, i: int)
    requires s.phase == InProgress(HitOrStay) && UniqueIds(s.context.lobby.players)
    requires 0 <= i < |s.context.lobby.players| && s.context.lobby.activePlayer == Some(s.context.lobby.players[i].id)
    ensures Send(s, Stay).Ok?
    ensures Send(s, Stay).state.phase.Done? <==> i == |s.context.lobby.players| - 1
    ensures i < |s.context.lobby.players| - 1 ==>
              Send(s, Stay).state.context.lobby.activePlayer == Some(s.context.lobby.players[i + 1].id)
  {
  }

  /** `GAME_FINISHED` ends the game from any sub-phase of `in progress`;
      `calculateWinner` leaves the context as it was. */
  lemma GameFinishedEndsGame(s: State)
    requires s.phase.InProgress?
    ensures Send(s, GameFinished) == Ok(State(Done, s.context))
  {
  }

  // ---------------------------------------------------------------------
  // Ignored events, the final state, settling
  // ---------------------------------------------------------------------

  /** The events the transition table lists for a phase. */
  predicate Handles(phase: Phase, e: Event)
  {
    && !phase.Done?
    && (|| e.PlayerLeft?
        || (phase.Pregame? && (e.PlayerJoined? || e.StartGame?))
        || (phase == InProgress(Guessing) && e.Guess?)
        || (phase == InProgress(HitOrStay) && (e.Hit? || e.Stay?))
        || (phase.InProgress? && e.GameFinished?))
  }

  /** An event the current phase does not list only lets the snapshot
      settle; on a settled snapshot it is a no-op, however often it is sent.
      In particular the final phase ignores every event. */
  lemma UnhandledEventIsNoOp(s: State, e: Event)
    requires !Handles(s.phase, e)
    ensures Send(s, e) == Ok(Settle(s))
    ensures Settle(s) == s ==> Send(s, e) == Ok(s)
    ensures s.phase.Done? ==> Send(s, e) == Ok(s)
  {
  }

  /** Every snapshot `Send` returns is settled: no eager transition is left. */
  lemma SendReturnsSettled(s: State, e: Event)
    requires Send(s, e).Ok?
    ensures Settle(Send(s, e).state) == Send(s, e).state
    ensures !(Send(s, e).state.phase == InProgress(Spectating) && CurrentPlayerIsActive(Send(s, e).state.context))
  {
  }

  /** Sending throws only when an action needs the next player of an empty
      roster: `START_GAME`, `STAY`, or the active player leaving. */
  lemma TypeErrorOnlyOnEmptyRoster(s: State, e: Event)
    requires Send(s, e) == TypeError
    ensures s.context.lobby.players == [] && !s.phase.Done?
    ensures e.StartGame? || e.Stay? || (e.PlayerLeft? && s.context.lobby.activePlayer == Some(e.playerId))
  {
  }

  /** Every event keeps the roster invariant, provided a joining player's id
      is new and the active player does not leave a roster of one. */
  lemma SendPreservesValid(s: State, e: Event)
    requires Valid(s.context)
    requires e.PlayerJoined? ==> !HasPlayer(s.context.lobby.players, e.player.id)
    requires e.PlayerLeft? && s.context.lobby.activePlayer == Some(e.playerId) ==> |s.context.lobby.players| >= 2
    ensures Send(s, e).Ok? ==> Valid(Send(s, e).state.context)
  {
    if !s.phase.Done? {
      match e
      case PlayerJoined(p) =>
        if s.phase.Pregame? {
          PlayerJoinedAppends(s, p);
        }
      case PlayerLeft(id) =>
        if s.context.lobby.activePlayer == Some(id) {
          PlayerLeftActive(s, id);
        } else {
          PlayerLeftNotActive(s, id);
          RemovePlayerKeepsUniqueIds(s.context.lobby.players, id);
        }
      case _ =>
    }
  }

  // ---------------------------------------------------------------------
  // A whole game
  // ---------------------------------------------------------------------

  /** The same snapshot, evaluated by the participant with id `id`. */
  function AsPlayer(s: State, id: string): State
  {
    s.(context := s.context.(currentPlayerId := id))
  }

  /** Two players join, the game starts, each player guesses and stays in
      turn, and the game is done after the second (last) player stays. */
  lemma TwoPlayerGame(p1: Player, p2: Player)
    requires p1.id != p2.id
    ensures var s1 := Send(Initial, PlayerJoined(p1)).state;
            var s2 := Send(s1, PlayerJoined(p2)).state;
            var s3 := Send(AsPlayer(s2, p1.id), StartGame);
            s3.Ok? && s3.state.phase == InProgress(Guessing) && s3.state.context.lobby.activePlayer == Some(p1.id) &&
            var s4 := Send(s3.state, Event.Guess(Some(5))).state;
            var s5 := Send(s4, Stay).state;
            s5.phase == InProgress(Spectating) && s5.context.lobby.activePlayer == Some(p2.id) &&
            var s6 := Send(AsPlayer(s5, p2.id), Other("JOIN_GAME")).state;
            s6.phase == InProgress(Guessing) &&
            var s7 := Send(s6, Event.Guess(Some(7))).state;
            Send(s7, Stay) == Ok(State(Done, s7.context))
  {
  }
}
