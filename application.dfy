/** The command rules of `Application._apply_command` and the task-change policy of
    `_render_frame` (src/core/application.py). Rendering, transitions and the pygame loop
    are not modelled; file I/O for SAVE and LOAD arrives as a reply value. */
module Applications {
  import opened Wrappers
  import opened Json
  import opened Timers
  import opened GameStates
  import opened Sessions
  import opened ScoringStates
  import opened RevealStates
  import opened Commands
  import opened GameShow

  /** What `save_state` reports after being handed the document: written, or the text of
      the exception it caught. */
  datatype SaveReply = Written | WriteFailed(reason: string)

  /** What reading and parsing the save file gave `load_state`: the parsed document, or
      the text of the exception it caught. */
  datatype LoadReply = Parsed(document: Json) | ReadFailed(reason: string)

  /** How AWARD ends, decided before any points move. */
  datatype AwardDecision = AlreadyAwarded | NoTarget | BlockedTarget(team: int) | Grant(team: int)

  /** The AWARD guards in order: the once-per-task latch, a resolvable target, the block list. */
  function DecideAward(taskId: Option<int>, awarded: set<int>, locked: Option<int>, selected: Option<int>,
                       blocked: set<int>): (d: AwardDecision)
    ensures d == AlreadyAwarded <==> taskId.Some? && taskId.value in awarded
    ensures d.Grant? ==> Some(d.team) == ResolveTarget(locked, selected) && d.team !in blocked
    ensures d.BlockedTarget? ==> Some(d.team) == ResolveTarget(locked, selected) && d.team in blocked
    ensures d == NoTarget <==> !(taskId.Some? && taskId.value in awarded) && ResolveTarget(locked, selected).None?
  {
    if taskId.Some? && taskId.value in awarded then AlreadyAwarded
    else
      match ResolveTarget(locked, selected)
      case None => NoTarget
      case Some(t) => if t in blocked then BlockedTarget(t) else Grant(t)
  }

  /** Once a task id is in the award set, every later AWARD for it is refused, whatever
      else has changed in between. */
  lemma AwardOnce(id: int, later: set<int>)
    requires id in later
    ensures forall l, s, b :: DecideAward(Some(id), later, l, s, b) == AlreadyAwarded
  {
  }

  /** `selected_team or 0`, clamped to the last team of `teamCount`. */
  function ClampSelection(selected: Option<int>, teamCount: nat): (r: int)
    requires teamCount > 0
    ensures r < teamCount
    ensures (selected.Some? ==> selected.value >= 0) ==> 0 <= r
    ensures selected.Some? && selected.value < teamCount ==> r == selected.value
    ensures selected.Some? && selected.value >= teamCount ==> r == teamCount - 1
    ensures selected.None? ==> r == 0
  {
    var s := if selected.Some? then selected.value else 0;
    if s < teamCount - 1 then s else teamCount - 1
  }

  /** The ids an optional task id stands for. */
  function IdsOf(id: Option<int>): set<int>
  {
    if id.Some? then {id.value} else {}
  }

  class Application {
    const session: Session
    const scoringState: ScoringState
    const revealState: RevealState
    var gameState: GameState
    var selectedTeam: Option<int>
    var showRoster: bool
    var showHelp: bool
    var lastTaskIndex: int

    /** The session is on a task, the last-seen index is a task, every locked, blocked and
        selected index is a team, and at most one overlay is shown. */
    predicate Valid()
      reads this, session, gameState
    {
      && session.Valid()
      && 0 <= lastTaskIndex < |session.tasks|
      && gameState.IndicesValid()
      && |gameState.teams| > 0
      && (selectedTeam.Some? ==> 0 <= selectedTeam.value < |gameState.teams|)
      && !(showRoster && showHelp)
    }

    /** The id of the task on screen. */
    function CurrentId(): Option<int>
      requires session.Valid()
      reads this, session
    {
      session.CurrentTask().id
    }

    /** How an AWARD issued now would end. */
    function Decision(): AwardDecision
      requires session.Valid()
      reads this, session, scoringState, gameState
    {
      DecideAward(CurrentId(), scoringState.awarded, gameState.buzzLockedTeam, selectedTeam, gameState.buzzBlockedTeams)
    }

    /** The state after `_initialize`: team 0 selected, no overlay, fresh award and reveal
        guards, and the session's index recorded as the last one shown. */
    constructor (session: Session, gameState: GameState)
      requires session.Valid() && gameState.IndicesValid() && |gameState.teams| > 0
      ensures this.session == session && this.gameState == gameState
      ensures selectedTeam == Some(0) && !showRoster && !showHelp
      ensures lastTaskIndex == session.currentIndex
      ensures fresh(scoringState) && scoringState.awarded == {}
      ensures fresh(revealState) && revealState.revealed == {}
      ensures Valid()
    {
      this.session := session;
      this.gameState := gameState;
      selectedTeam := Some(0);
      showRoster := false;
      showHelp := false;
      lastTaskIndex := session.currentIndex;
      scoringState := new ScoringState();
      revealState := new RevealState();
    }

    /** TOGGLE_ROSTER: flips the roster; showing it hides the help overlay. */
    method ToggleRoster()
      requires Valid()
      modifies this`showRoster, this`showHelp
      ensures showRoster == !old(showRoster)
      ensures showHelp == (if showRoster then false else old(showHelp))
      ensures Valid()
    {
      showRoster := !showRoster;
      if showRoster {
        showHelp := false;
      }
    }

    /** TOGGLE_HELP: flips the help overlay; showing it hides the roster. */
    method ToggleHelp()
      requires Valid()
      modifies this`showRoster, this`showHelp
      ensures showHelp == !old(showHelp)
      ensures showRoster == (if showHelp then false else old(showRoster))
      ensures Valid()
    {
      showHelp := !showHelp;
      if showHelp {
        showRoster := false;
      }
    }

    /** SELECT_TEAM: ignored while a team is locked in; otherwise an in-range index becomes
        the selection and is announced. */
    method SelectTeam(teamIndex: Option<int>, nowMs: int)
      requires Valid()
      modifies this`selectedTeam, gameState`statusMessage, gameState`statusUntilMs
      ensures var accepted := old(gameState.buzzState) != Locked && teamIndex.Some? && 0 <= teamIndex.value < |gameState.teams|;
              && (accepted ==> selectedTeam == teamIndex
                               && gameState.statusMessage == Some("Selected: " + gameState.teams[teamIndex.value].name)
                               && gameState.statusUntilMs == Some(nowMs + StatusDurationMs))
              && (!accepted ==> selectedTeam == old(selectedTeam)
                                && gameState.statusMessage == old(gameState.statusMessage)
                                && gameState.statusUntilMs == old(gameState.statusUntilMs))
      ensures Valid()
    {
      if gameState.buzzState == Locked {
        return;
      }
      if teamIndex.Some? && 0 <= teamIndex.value < |gameState.teams| {
        selectedTeam := teamIndex;
        gameState.SetStatus("Selected: " + gameState.teams[teamIndex.value].name, nowMs, StatusDurationMs);
      }
    }

    /** BUZZ: a successful buzz also moves the selection to the buzzing team; a failed one
        leaves the selection where it was. */
    method Buzz(teamIndex: Option<int>, nowMs: int)
      requires Valid()
      modifies this`selectedTeam, gameState`buzzState, gameState`buzzLockedTeam
      modifies gameState`statusMessage, gameState`statusUntilMs
      ensures var ok := teamIndex.Some? && old(gameState.buzzState) == Open
                        && 0 <= teamIndex.value < |gameState.teams| && teamIndex.value !in gameState.buzzBlockedTeams;
              && (ok ==> selectedTeam == teamIndex && gameState.buzzState == Locked && gameState.buzzLockedTeam == teamIndex)
              && (!ok ==> selectedTeam == old(selectedTeam) && gameState.buzzState == old(gameState.buzzState)
                          && gameState.buzzLockedTeam == old(gameState.buzzLockedTeam))
              && (ok ==> gameState.statusMessage == Some("BUZZ: " + gameState.teams[teamIndex.value].name))
    ensures var heard := teamIndex.Some? && old(gameState.buzzState) == Open && 0 <= teamIndex.value < |gameState.teams|;
            && (heard && teamIndex.value in gameState.buzzBlockedTeams
                ==> gameState.statusMessage == Some("BLOCKED: " + gameState.teams[teamIndex.value].name))
            && (heard ==> gameState.statusUntilMs == Some(nowMs + StatusDurationMs))
            && (!heard ==> gameState.statusMessage == old(gameState.statusMessage)
                           && gameState.statusUntilMs == old(gameState.statusUntilMs))
      ensures old(gameState.BuzzInvariant()) ==> gameState.BuzzInvariant()
      ensures Valid()
    {
      if teamIndex.Some? {
        var ok := gameState.Buzz(teamIndex.value, Some(nowMs));
        if ok {
          selectedTeam := teamIndex;
        }
      }
    }

    /** BUZZ_FAIL: the locked team is blocked for this task and the arbiter reopens. */
    method BuzzFail(nowMs: int)
      requires Valid()
      modifies gameState`buzzState, gameState`buzzLockedTeam, gameState`buzzBlockedTeams
      modifies gameState`statusMessage, gameState`statusUntilMs
      ensures gameState.buzzState == Open && gameState.buzzLockedTeam == None
      ensures gameState.buzzBlockedTeams == old(gameState.buzzBlockedTeams)
              + (if old(gameState.buzzLockedTeam).Some? then {old(gameState.buzzLockedTeam).value} else {})
      ensures gameState.statusMessage == Some("BUZZ REOPEN") && gameState.statusUntilMs == Some(nowMs + StatusDurationMs)
      ensures Valid() && gameState.BuzzInvariant()
    {
      gameState.FailLockedTeamAndReopen(Some(nowMs));
    }

    /** AWARD: refused with a status when the task was already awarded, when no team can be
        resolved or when that team is blocked; otherwise the difficulty goes to the
        locked-or-selected team, the task id is latched and the buzzer is reset. */
    method Award(nowMs: int)
      requires Valid()
      modifies gameState`teams, gameState`buzzState, gameState`buzzLockedTeam, gameState`buzzBlockedTeams
      modifies gameState`statusMessage, gameState`statusUntilMs, scoringState
      ensures !old(Decision()).Grant? ==> && gameState.teams == old(gameState.teams)
                                           && gameState.buzzState == old(gameState.buzzState)
                                           && gameState.buzzLockedTeam == old(gameState.buzzLockedTeam)
                                           && gameState.buzzBlockedTeams == old(gameState.buzzBlockedTeams)
                                           && scoringState.awarded == old(scoringState.awarded)
      ensures old(Decision()) == AlreadyAwarded ==> gameState.statusMessage == Some("Already awarded")
      ensures old(Decision()) == NoTarget ==> gameState.statusMessage == Some("No team selected")
      ensures old(Decision()).BlockedTarget? ==>
                gameState.statusMessage == Some("BLOCKED: " + gameState.teams[old(Decision()).team].name)
      ensures old(Decision()).Grant? ==>
                && gameState.teams == Credited(old(gameState.teams), {}, old(Decision()).team, session.CurrentTask().difficulty)
                && scoringState.awarded == old(scoringState.awarded) + IdsOf(CurrentId())
                && gameState.buzzState == Closed && gameState.buzzLockedTeam == None && gameState.buzzBlockedTeams == {}
                && gameState.statusMessage == Some("BUZZ RESET")
      ensures gameState.statusUntilMs == Some(nowMs + StatusDurationMs)
      ensures Valid()
    {
      var taskId := session.CurrentTask().id;
      if taskId.Some? && scoringState.IsAwarded(taskId.value) {
        gameState.SetStatus("Already awarded", nowMs, StatusDurationMs);
        return;
      }
      var target := gameState.buzzLockedTeam;
      if target.None? {
        target := selectedTeam;
      }
      if target.None? {
        gameState.SetStatus("No team selected", nowMs, StatusDurationMs);
        return;
      }
      if target.value in gameState.buzzBlockedTeams {
        gameState.SetStatus("BLOCKED: " + gameState.teams[target.value].name, nowMs, StatusDurationMs);
        return;
      }
      GrantAward(nowMs);
    }

    /** The successful end of AWARD: points through `award_points_for_current_task`, which
        resolves the same target and so returns a team here, then the latch and the buzzer
        reset. */
    method GrantAward(nowMs: int)
      requires Valid() && Decision().Grant?
      modifies gameState`teams, gameState`buzzState, gameState`buzzLockedTeam, gameState`buzzBlockedTeams
      modifies gameState`statusMessage, gameState`statusUntilMs, scoringState
      ensures gameState.teams == Credited(old(gameState.teams), {}, old(Decision()).team, session.CurrentTask().difficulty)
      ensures scoringState.awarded == old(scoringState.awarded) + IdsOf(CurrentId())
      ensures gameState.buzzState == Closed && gameState.buzzLockedTeam == None && gameState.buzzBlockedTeams == {}
      ensures gameState.statusMessage == Some("BUZZ RESET") && gameState.statusUntilMs == Some(nowMs + StatusDurationMs)
      ensures Valid()
    {
      var taskId := session.CurrentTask().id;
      CreditGrantedTeam(nowMs);
      if taskId.Some? {
        var _ := scoringState.MarkAwarded(taskId.value);
      }
      gameState.ResetBuzz(Some(nowMs));
    }

    /** The `award_points_for_current_task` call of a granted AWARD: the target is not
        blocked, so it gains the task's difficulty. */
    method CreditGrantedTeam(nowMs: int)
      requires Valid() && Decision().Grant?
      modifies gameState`teams, gameState`statusMessage, gameState`statusUntilMs
      ensures gameState.teams == Credited(old(gameState.teams), {}, old(Decision()).team, session.CurrentTask().difficulty)
      ensures Valid()
    {
      ghost var team := Decision().team;
      ghost var before := gameState.teams;
      var credited := AwardPointsForCurrentTask(session, gameState, selectedTeam, nowMs);
      assert credited == Some(team) && team !in gameState.buzzBlockedTeams;
      assert gameState.teams == Credited(before, {}, team, session.CurrentTask().difficulty);
    }

    /** PENALTY: the difficulty is taken from the locked-or-selected team through
        `add_points` (so a blocked team keeps its score); the award latch is not consulted. */
    method Penalty(nowMs: int)
      requires Valid()
      modifies gameState`teams, gameState`statusMessage, gameState`statusUntilMs
      ensures var target := ResolveTarget(old(gameState.buzzLockedTeam), old(selectedTeam));
              && (target.None? ==> gameState.teams == old(gameState.teams)
                                   && gameState.statusMessage == Some("No team selected"))
              && (target.Some? ==> gameState.teams == Credited(old(gameState.teams), gameState.buzzBlockedTeams,
                                                               target.value, -session.CurrentTask().difficulty))
    ensures var target := ResolveTarget(old(gameState.buzzLockedTeam), old(selectedTeam));
            var hit := target.Some? && 0 <= target.value < |gameState.teams|;
            && (hit && target.value !in gameState.buzzBlockedTeams
                ==> gameState.statusMessage == Some(PointsMessage(gameState.teams[target.value].name, -session.CurrentTask().difficulty)))
            && (hit && target.value in gameState.buzzBlockedTeams
                ==> gameState.statusMessage == Some("BLOCKED: " + gameState.teams[target.value].name))
            && (target.None? || hit ==> gameState.statusUntilMs == Some(nowMs + StatusDurationMs))
            && (target.Some? && !hit ==> gameState.statusMessage == old(gameState.statusMessage)
                                         && gameState.statusUntilMs == old(gameState.statusUntilMs))
      ensures Valid()
    {
      var points := session.CurrentTask().difficulty;
      var teamIndex := gameState.buzzLockedTeam;
      if teamIndex.None? {
        teamIndex := selectedTeam;
      }
      if teamIndex.None? {
        gameState.SetStatus("No team selected", nowMs, StatusDurationMs);
      } else {
        gameState.AddPoints(teamIndex.value, -points, Some(nowMs));
      }
    }

    /** SAVE: hands `to_dict()` to the writer and reports how that went. */
    method Save(reply: SaveReply, nowMs: int) returns (document: Json)
      requires Valid()
      modifies gameState`statusMessage, gameState`statusUntilMs
      ensures document == gameState.ToDict()
      ensures reply == Written ==> gameState.statusMessage == Some("Saved")
      ensures reply.WriteFailed? ==> gameState.statusMessage == Some("Failed to save game state: " + reply.reason)
      ensures gameState.statusUntilMs == Some(nowMs + StatusDurationMs)
      ensures Valid()
    {
      document := gameState.ToDict();
      ReportSave(reply, nowMs);
    }

    /** The status line that follows a save. */
    method ReportSave(reply: SaveReply, nowMs: int)
      requires Valid()
      modifies gameState`statusMessage, gameState`statusUntilMs
      ensures reply == Written ==> gameState.statusMessage == Some("Saved")
      ensures reply.WriteFailed? ==> gameState.statusMessage == Some("Failed to save game state: " + reply.reason)
      ensures gameState.statusUntilMs == Some(nowMs + StatusDurationMs)
      ensures Valid()
    {
      if reply.Written? {
        gameState.SetStatus("Saved", nowMs, StatusDurationMs);
      } else {
        gameState.SetStatus("Failed to save game state: " + reply.reason, nowMs, StatusDurationMs);
      }
    }

    /** LOAD: a document `from_dict` accepts replaces the game state and the selection is
        clamped into its teams; any failure keeps the old state and reports the error. */
    method Load(reply: LoadReply, nowMs: int)
      requires Valid()
      modifies this`gameState, this`selectedTeam, gameState`statusMessage, gameState`statusUntilMs
      ensures reply.ReadFailed? ==> && gameState == old(gameState) && selectedTeam == old(selectedTeam)
                                    && gameState.statusMessage == Some("Failed to load game state: " + reply.reason)
      ensures reply.Parsed? && Decode(reply.document).Err? ==>
                && gameState == old(gameState) && selectedTeam == old(selectedTeam)
                && gameState.statusMessage == Some("Failed to load game state: " + Decode(reply.document).error)
      ensures reply.Parsed? && Decode(reply.document).Ok? ==>
                && fresh(gameState) && fresh(gameState.timer)
                && gameState.Snap() == Decode(reply.document).value
                && gameState.buzzBlockedTeams == {} && gameState.timer.Valid()
                && selectedTeam == Some(ClampSelection(old(selectedTeam), |gameState.teams|))
                && gameState.statusMessage == Some("Loaded")
      ensures gameState.statusUntilMs == Some(nowMs + StatusDurationMs)
      ensures Valid()
    {
      match reply
      case ReadFailed(reason) =>
        gameState.SetStatus("Failed to load game state: " + reason, nowMs, StatusDurationMs);
      case Parsed(document) =>
        LoadDocument(document, nowMs);
    }

    /** LOAD once the file has been read and parsed. */
    method LoadDocument(document: Json, nowMs: int)
      requires Valid()
      modifies this`gameState, this`selectedTeam, gameState`statusMessage, gameState`statusUntilMs
      ensures Decode(document).Err? ==>
                && gameState == old(gameState) && selectedTeam == old(selectedTeam)
                && gameState.statusMessage == Some("Failed to load game state: " + Decode(document).error)
      ensures Decode(document).Ok? ==>
                && fresh(gameState) && fresh(gameState.timer)
                && gameState.Snap() == Decode(document).value
                && gameState.buzzBlockedTeams == {} && gameState.timer.Valid()
                && selectedTeam == Some(ClampSelection(old(selectedTeam), |gameState.teams|))
                && gameState.statusMessage == Some("Loaded")
      ensures gameState.statusUntilMs == Some(nowMs + StatusDurationMs)
      ensures Valid()
    {
      var loaded := GameState.FromDict(document);
      if loaded.Err? {
        gameState.SetStatus("Failed to load game state: " + loaded.error, nowMs, StatusDurationMs);
        return;
      }
      gameState := loaded.value;
      selectedTeam := Some(ClampSelection(selectedTeam, |gameState.teams|));
      gameState.SetStatus("Loaded", nowMs, StatusDurationMs);
    }

    /** TOGGLE_REVEAL: flips the reveal flag of a task with an id and announces it. */
    method ToggleReveal(nowMs: int)
      requires Valid()
      modifies revealState, gameState`statusMessage, gameState`statusUntilMs
      ensures CurrentId().None? ==> && revealState.revealed == old(revealState.revealed)
                                    && gameState.statusMessage == old(gameState.statusMessage)
                                    && gameState.statusUntilMs == old(gameState.statusUntilMs)
      ensures CurrentId().Some? ==>
                && revealState.revealed == Toggled(old(revealState.revealed), CurrentId().value)
                && gameState.statusMessage == Some(if CurrentId().value in revealState.revealed then "Revealed" else "Hidden")
                && gameState.statusUntilMs == Some(nowMs + StatusDurationMs)
      ensures Valid()
    {
      var taskId := session.CurrentTask().id;
      if taskId.Some? {
        var revealed := revealState.Toggle(taskId.value);
        gameState.SetStatus(if revealed then "Revealed" else "Hidden", nowMs, StatusDurationMs);
      }
    }

    /** `_apply_command`: one command's rules; NEXT, PREV and QUIT are handled by the
        input controller and change nothing here. `saveReply` and `loadReply` stand for
        what the file layer does if the command is SAVE or LOAD. Only AWARD touches the
        award latch, and it only ever adds the current task's id. */
    method ApplyCommand(cmd: Command, nowMs: int, saveReply: SaveReply, loadReply: LoadReply)
      requires Valid()
      modifies this`gameState, this`selectedTeam, this`showRoster, this`showHelp
      modifies gameState, gameState.timer, scoringState, revealState
      ensures gameState == old(gameState) || (fresh(gameState) && fresh(gameState.timer))
      ensures !cmd.kind.Award? ==> scoringState.awarded == old(scoringState.awarded)
      ensures old(scoringState.awarded) <= scoringState.awarded
      ensures scoringState.awarded <= old(scoringState.awarded) + IdsOf(CurrentId())
      ensures lastTaskIndex == old(lastTaskIndex)
      ensures Valid()
    {
      match cmd.kind {
        case ToggleRoster => ToggleRoster();
        case ToggleHelp => ToggleHelp();
        case SelectTeam => SelectTeam(cmd.teamIndex, nowMs);
        case Buzz => Buzz(cmd.teamIndex, nowMs);
        case BuzzFail => BuzzFail(nowMs);
        case Award => Award(nowMs);
        case Penalty => Penalty(nowMs);
        case BuzzOpen => ApplyControlCommand(cmd.kind, nowMs);
        case BuzzReset => ApplyControlCommand(cmd.kind, nowMs);
        case TimerToggle => ApplyControlCommand(cmd.kind, nowMs);
        case TimerReset => ApplyControlCommand(cmd.kind, nowMs);
        case Save => ApplyFileCommand(true, nowMs, saveReply, loadReply);
        case Load => ApplyFileCommand(false, nowMs, saveReply, loadReply);
        case ToggleReveal => ToggleReveal(nowMs);
        case Next =>
        case Prev =>
        case Quit =>
      }
    }

    /** BUZZ_OPEN, BUZZ_RESET, TIMER_TOGGLE and TIMER_RESET, which go straight to the game
        state. */
    method ApplyControlCommand(kind: CommandType, nowMs: int)
      requires Valid()
      requires kind.BuzzOpen? || kind.BuzzReset? || kind.TimerToggle? || kind.TimerReset?
      modifies gameState, gameState.timer
      ensures Valid()
    {
      match kind {
        case BuzzOpen => gameState.OpenBuzz(Some(nowMs));
        case BuzzReset => gameState.ResetBuzz(Some(nowMs));
        case TimerToggle => gameState.TimerStartPauseToggle(nowMs);
        case TimerReset => gameState.TimerReset(nowMs);
      }
    }

    /** SAVE (`save`) or LOAD (`!save`), with the outcome of the file access given. */
    method ApplyFileCommand(save: bool, nowMs: int, saveReply: SaveReply, loadReply: LoadReply)
      requires Valid()
      modifies this`gameState, this`selectedTeam, gameState`statusMessage, gameState`statusUntilMs
      ensures gameState == old(gameState) || (fresh(gameState) && fresh(gameState.timer))
      ensures gameState.statusUntilMs == Some(nowMs + StatusDurationMs)
      ensures Valid()
    {
      if save {
        var _ := Save(saveReply, nowMs);
      } else {
        Load(loadReply, nowMs);
      }
    }

    /** The task-change block of `_render_frame`: when the session moved, the previous and
        the new task are hidden again and the buzz blocks are cleared; the award latch is
        left alone, so an awarded task stays awarded when navigation comes back to it. */
    method OnTaskChange()
      requires Valid()
      modifies this`lastTaskIndex, revealState, gameState`buzzBlockedTeams
      ensures var moved := session.currentIndex != old(lastTaskIndex);
              && (moved ==> && revealState.revealed == old(revealState.revealed)
                                 - IdsOf(session.tasks[old(lastTaskIndex)].id) - IdsOf(session.CurrentTask().id)
                            && gameState.buzzBlockedTeams == {})
              && (!moved ==> && revealState.revealed == old(revealState.revealed)
                             && gameState.buzzBlockedTeams == old(gameState.buzzBlockedTeams))
      ensures lastTaskIndex == session.currentIndex
      ensures Valid()
    {
      if session.currentIndex != lastTaskIndex {
        var prevTask := session.tasks[lastTaskIndex];
        if prevTask.id.Some? {
          revealState.Reset(prevTask.id.value);
        }
        var newTask := session.CurrentTask();
        if newTask.id.Some? {
          revealState.Reset(newTask.id.value);
        }
        gameState.ClearBuzzBlocks();
        lastTaskIndex := session.currentIndex;
      }
    }
  }

  /** Two tasks with ids 0 and 1, each worth one point, one team "A", and AWARD on the
      first task: the team scores 1 and task 0 is latched. */
  method AwardedFirstTask() returns (app: Application)
    ensures fresh(app) && fresh(app.session) && fresh(app.gameState) && fresh(app.scoringState) && fresh(app.revealState)
    ensures app.Valid()
    ensures app.session.tasks == [Task(Some(0), 1), Task(Some(1), 1)] && app.session.currentIndex == 0
    ensures app.gameState.teams == [Team("A", 1)] && app.scoringState.awarded == {0}
  {
    var session := new Session([Task(Some(0), 1), Task(Some(1), 1)]);
    var gameState := new GameState([Team("A", 0)]);
    app := new Application(session, gameState);
    app.Award(0);
  }

  /** The award latch across navigation: after NEXT twice the first task is back on screen
      and a second AWARD is refused with "Already awarded", leaving the score at 1. */
  method AwardLatchScenario() returns (status: Option<string>, score: int)
    ensures status == Some("Already awarded") && score == 1
  {
    var app := AwardedFirstTask();
    app.session.NextTask();
    app.OnTaskChange();
    app.session.NextTask();
    app.OnTaskChange();
    app.Award(1000);
    status := app.gameState.statusMessage;
    score := app.gameState.teams[0].score;
  }
}
