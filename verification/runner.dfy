/** The runner that drives the lobby machine for one request: start from a
    stored snapshot (or the initial one), send the event if there is one,
    and wait until the machine is finished or paused; the millisecond
    timeout becomes the `Timeout` result. */
module Runner {
  import opened Wrappers
  import opened LobbyMachine

  /** The runner's result: a settled snapshot, a timeout while waiting, or
      the TypeError an action threw. */
  datatype RunResult = Resolved(state: State) | Timeout | Thrown

  /** The tag the runner waits for. */
  const PauseTag := "pause"

  /** The tags of each phase as the machine declares them: none. */
  function TagsAsWritten(p: Phase): set<string>
  {
    {}
  }

  /** The tags the waiting predicate needs: every non-final phase is one
      that only moves on the next external event. */
  function Tags(p: Phase): (r: set<string>)
    ensures PauseTag in r <==> !p.Done?
  {
    if p.Done? then {} else {PauseTag}
  }

  /** Start, send the optional event, and wait for `done` or a phase carrying
      `tags` the pause tag. */
  function Run(tags: Phase -> set<string>, start: Option<State>, e: Option<Event>): (r: RunResult)
    ensures r.Resolved? ==> r.state.phase.Done? || PauseTag in tags(r.state.phase)
    ensures r.Thrown? <==> e.Some? && Send(if start.Some? then start.value else Initial, e.value).TypeError?
    ensures r.Resolved? && e.None? ==> r.state == (if start.Some? then start.value else Initial)
    ensures r.Resolved? && e.Some? ==> Send(if start.Some? then start.value else Initial, e.value) == Ok(r.state)
    ensures var s0 := if start.Some? then start.value else Initial;
            var sent := if e.Some? then Send(s0, e.value) else Ok(s0);
            r.Timeout? <==> sent.Ok? && !(sent.state.phase.Done? || PauseTag in tags(sent.state.phase))
  {
    var s0 := if start.Some? then start.value else Initial;
    var sent := if e.Some? then Send(s0, e.value) else Ok(s0);
    match sent
    case TypeError => Thrown
    case Ok(s) => if s.phase.Done? || PauseTag in tags(s.phase) then Resolved(s) else Timeout
  }

  /** With the tags as written the runner resolves only once the game is
      done; creating a fresh lobby snapshot (no stored state, no event)
      always times out. */
  lemma RunAsWrittenWaitsForDone(start: Option<State>, e: Option<Event>)
    ensures Run(TagsAsWritten, start, e).Resolved? ==> Run(TagsAsWritten, start, e).state.phase.Done?
    ensures Run(TagsAsWritten, None, None) == Timeout
  {
  }

  /** With every non-final phase tagged, the runner never times out: it
      returns the settled snapshot `Send` computes, or the error it throws. */
  lemma RunNeverTimesOut(start: Option<State>, e: Option<Event>)
    ensures Run(Tags, start, e) != Timeout
    ensures e.Some? ==>
              Run(Tags, start, e) == (match Send(if start.Some? then start.value else Initial, e.value)
                                      case TypeError => Thrown
                                      case Ok(s) => Resolved(s))
    ensures Run(Tags, None, None) == Resolved(Initial)
  {
  }
}
