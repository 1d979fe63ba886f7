/** The award helper of src/models/game_show.py. */
module GameShow {
  import opened Wrappers
  import opened GameStates
  import opened Sessions

  /** The team an award goes to: the buzz-locked team if there is one, otherwise the
      manually selected team. */
  function ResolveTarget(locked: Option<int>, selected: Option<int>): (r: Option<int>)
    ensures locked.Some? ==> r == locked
    ensures locked.None? ==> r == selected
    ensures r.None? <==> locked.None? && selected.None?
  {
    if locked.Some? then locked else selected
  }

  /** Awards the current task's difficulty to the resolved team through `add_points` and
      returns that team, whether or not the points landed; with no team it only sets
      "No team selected". Buzz state, blocks and the timer are left alone. */
  method AwardPointsForCurrentTask(session: Session, gameState: GameState, selectedTeamIndex: Option<int>, nowMs: int)
    returns (awarded: Option<int>)
    requires session.Valid()
    modifies gameState`teams, gameState`statusMessage, gameState`statusUntilMs
    ensures awarded == ResolveTarget(gameState.buzzLockedTeam, selectedTeamIndex)
    ensures awarded.None? ==> gameState.teams == old(gameState.teams)
    ensures awarded.None? ==> gameState.statusMessage == Some("No team selected")
    ensures awarded.None? ==> gameState.statusUntilMs == Some(nowMs + StatusDurationMs)
    ensures awarded.Some? ==> gameState.teams == Credited(old(gameState.teams), gameState.buzzBlockedTeams, awarded.value, session.CurrentTask().difficulty)
    ensures awarded.Some? && 0 <= awarded.value < |gameState.teams| && awarded.value !in gameState.buzzBlockedTeams
            ==> gameState.statusMessage == Some(PointsMessage(gameState.teams[awarded.value].name, session.CurrentTask().difficulty))
    ensures awarded.Some? && 0 <= awarded.value < |gameState.teams| && awarded.value in gameState.buzzBlockedTeams
            ==> gameState.statusMessage == Some("BLOCKED: " + gameState.teams[awarded.value].name)
    ensures awarded.Some? && 0 <= awarded.value < |gameState.teams| ==> gameState.statusUntilMs == Some(nowMs + StatusDurationMs)
    ensures awarded.Some? && !(0 <= awarded.value < |gameState.teams|)
            ==> gameState.statusMessage == old(gameState.statusMessage) && gameState.statusUntilMs == old(gameState.statusUntilMs)
    ensures old(gameState.IndicesValid()) ==> gameState.IndicesValid()
  {
    var points := session.CurrentTask().difficulty;
    var teamIndex := gameState.buzzLockedTeam;
    if teamIndex.None? {
      teamIndex := selectedTeamIndex;
    }
    if teamIndex.None? {
      gameState.SetStatus("No team selected", nowMs, StatusDurationMs);
      return None;
    }
    gameState.AddPoints(teamIndex.value, points, Some(nowMs));
    return teamIndex;
  }

  /** Test scenario: no buzz lock, team 1 of A and B selected, difficulty 4. */
  method SelectedTeamScenario() returns (awarded: Option<int>, score: int)
    ensures awarded == Some(1) && score == 4
  {
    var session := new Session([Task(Some(0), 4)]);
    var gs := new GameState([Team("A", 0), Team("B", 0)]);
    awarded := AwardPointsForCurrentTask(session, gs, Some(1), 0);
    score := gs.teams[1].score;
  }

  /** Test scenario: team 0 buzzed in while team 1 is selected, difficulty 2. */
  method LockedTeamScenario() returns (awarded: Option<int>, scores: seq<int>)
    ensures awarded == Some(0) && scores == [2, 0]
  {
    var session := new Session([Task(Some(0), 2)]);
    var gs := new GameState([Team("A", 0), Team("B", 0)]);
    gs.OpenBuzz(None);
    var _ := gs.Buzz(0, None);
    awarded := AwardPointsForCurrentTask(session, gs, Some(1), 0);
    scores := [gs.teams[0].score, gs.teams[1].score];
  }

  /** Test scenario: no lock and no selection. */
  method NoTeamScenario() returns (awarded: Option<int>, score: int, status: Option<string>)
    ensures awarded == None && score == 0 && status == Some("No team selected")
  {
    var session := new Session([Task(Some(0), 1)]);
    var gs := new GameState([Team("A", 0)]);
    awarded := AwardPointsForCurrentTask(session, gs, None, 100);
    score, status := gs.teams[0].score, gs.statusMessage;
  }

  /** Test scenario: team 0 is blocked, so its award is reported but lands nothing;
      team 1 then receives the points. */
  method BlockedTeamScenario() returns (blocked: Option<int>, blockedScore: int, other: Option<int>, otherScore: int)
    ensures blocked == Some(0) && blockedScore == 0 && other == Some(1) && otherScore == 2
  {
    var session := new Session([Task(Some(0), 2)]);
    var gs := new GameState([Team("A", 0), Team("B", 0)]);
    gs.buzzBlockedTeams := gs.buzzBlockedTeams + {0};
    blocked := AwardPointsForCurrentTask(session, gs, Some(0), 0);
    blockedScore := gs.teams[0].score;
    other := AwardPointsForCurrentTask(session, gs, Some(1), 0);
    otherScore := gs.teams[1].score;
  }
}
