/** The key-to-command state machine of src/controllers/input_controller.py. */
module InputControllers {
  import opened Wrappers
  import opened Commands
  import opened Sessions

  /** The number on a team key. */
  type TeamNumber = n: int | 1 <= n <= 9 witness 1

  /** The bound keys, each distinct, plus any other key code. */
  datatype Key =
    | QuitKey | NextKey | PrevKey
    | BuzzOpenKey | BuzzResetKey | BuzzFailKey
    | TeamKey(number: TeamNumber)
    | AwardKey | PenaltyKey | TimerToggleKey | TimerResetKey
    | ToggleRosterKey | ToggleHelpKey | SaveKey | LoadKey | ToggleRevealKey
    | OtherKey(code: int)

  /** A window-system event: the quit request, a key press, or anything else. */
  datatype Event = QuitEvent | KeyDown(key: Key) | OtherEvent

  /** How a key press moves the session. */
  datatype Nav = Stay | Forward | Backward

  /** The effect of one key press: the new buzz-open mode, the session move, the command. */
  datatype KeyResult = KeyResult(mode: bool, nav: Nav, command: Option<Command>)

  /** `_map_keydown` as a function of the buzz-open mode and the key. */
  function KeyStep(mode: bool, key: Key): (r: KeyResult)
    ensures r.command.None? <==> key.OtherKey?
    ensures r.command.None? ==> r.mode == mode && r.nav == Stay
    ensures key.TeamKey? ==> !r.mode && r.nav == Stay
    ensures key.TeamKey? && mode ==> r.command == Some(Command(Buzz, Some(key.number - 1)))
    ensures key.TeamKey? && !mode ==> r.command == Some(Command(SelectTeam, Some(key.number - 1)))
    ensures r.command.Some? && r.command.value.teamIndex.Some? ==> 0 <= r.command.value.teamIndex.value <= 8
    ensures key == BuzzResetKey || key == BuzzFailKey ==> !r.mode
    ensures r.mode != mode ==> key == BuzzOpenKey || key.TeamKey? || key == BuzzResetKey || key == BuzzFailKey
    ensures r.mode && !mode ==> key == BuzzOpenKey
    ensures r.nav == Forward <==> key == NextKey
    ensures r.nav == Backward <==> key == PrevKey
    ensures (r.command.Some? && r.command.value.kind == Quit) <==> key == QuitKey
  {
    match key
    case QuitKey => KeyResult(mode, Stay, Some(Plain(Quit)))
    case NextKey => KeyResult(mode, Forward, Some(Plain(Next)))
    case PrevKey => KeyResult(mode, Backward, Some(Plain(Prev)))
    case BuzzOpenKey => KeyResult(true, Stay, Some(Plain(BuzzOpen)))
    case BuzzResetKey => KeyResult(false, Stay, Some(Plain(BuzzReset)))
    case BuzzFailKey => KeyResult(false, Stay, Some(Plain(BuzzFail)))
    case TeamKey(number) =>
      if mode then KeyResult(false, Stay, Some(Command(Buzz, Some(number - 1))))
      else KeyResult(false, Stay, Some(Command(SelectTeam, Some(number - 1))))
    case AwardKey => KeyResult(mode, Stay, Some(Plain(Award)))
    case PenaltyKey => KeyResult(mode, Stay, Some(Plain(Penalty)))
    case TimerToggleKey => KeyResult(mode, Stay, Some(Plain(TimerToggle)))
    case TimerResetKey => KeyResult(mode, Stay, Some(Plain(TimerReset)))
    case ToggleRosterKey => KeyResult(mode, Stay, Some(Plain(ToggleRoster)))
    case ToggleHelpKey => KeyResult(mode, Stay, Some(Plain(ToggleHelp)))
    case SaveKey => KeyResult(mode, Stay, Some(Plain(Save)))
    case LoadKey => KeyResult(mode, Stay, Some(Plain(Load)))
    case ToggleRevealKey => KeyResult(mode, Stay, Some(Plain(ToggleReveal)))
    case OtherKey(_) => KeyResult(mode, Stay, None)
  }

  /** The session index after a move. */
  function Moved(index: int, n: nat, nav: Nav): int
    requires n > 0
  {
    match nav
    case Stay => index
    case Forward => NextIndex(index, n)
    case Backward => PrevIndex(index, n)
  }

  /** After the buzz-open key, the next team key buzzes that team and ends buzz-open mode. */
  lemma BuzzOpenThenTeam(mode: bool, number: TeamNumber)
    ensures var afterOpen := KeyStep(mode, BuzzOpenKey);
            afterOpen.mode && KeyStep(afterOpen.mode, TeamKey(number)) == KeyResult(false, Stay, Some(Command(Buzz, Some(number - 1))))
  {
  }

  /** The controller state `poll_commands` threads through a batch of events. */
  datatype PollState = PollState(mode: bool, index: int)

  /** The outcome of a batch: whether the application keeps running, the commands in
      order, and the controller state afterwards. */
  datatype PollResult = PollResult(running: bool, commands: seq<Command>, after: PollState)

  predicate IsQuit(e: Event)
  {
    e == QuitEvent || e == KeyDown(QuitKey)
  }

  /** `poll_commands` over `events`, with `acc` the commands collected so far. */
  function Poll(st: PollState, n: nat, events: seq<Event>, acc: seq<Command>): (r: PollResult)
    requires n > 0
    ensures r.running ==> acc <= r.commands && |r.commands| <= |acc| + |events|
    ensures r.running ==> forall k :: |acc| <= k < |r.commands| ==> r.commands[k].kind != Quit
    ensures !r.running ==> |r.commands| == 1 && r.commands[0].kind == Quit
    ensures 0 <= st.index < n ==> 0 <= r.after.index < n
    decreases |events|
  {
    if events == [] then PollResult(true, acc, st)
    else
      match events[0]
      case QuitEvent => PollResult(false, [Plain(Quit)], st)
      case OtherEvent => Poll(st, n, events[1..], acc)
      case KeyDown(key) =>
        var k := KeyStep(st.mode, key);
        var st' := PollState(k.mode, Moved(st.index, n, k.nav));
        match k.command
        case None => Poll(st', n, events[1..], acc)
        case Some(cmd) =>
          if cmd.kind == Quit then PollResult(false, [cmd], st')
          else Poll(st', n, events[1..], acc + [cmd])
  }

  /** A batch stops exactly when it holds a quit event or the quit key, and then returns
      the QUIT command alone, dropping what was collected before it. */
  lemma {:induction false} PollQuits(st: PollState, n: nat, events: seq<Event>, acc: seq<Command>)
    requires n > 0
    ensures var r := Poll(st, n, events, acc);
            && (!r.running <==> exists i :: 0 <= i < |events| && IsQuit(events[i]))
            && (!r.running ==> r.commands == [Plain(Quit)])
    decreases |events|
  {
    if events != [] {
      match events[0]
      case QuitEvent =>
        assert IsQuit(events[0]);
      case OtherEvent =>
        PollQuits(st, n, events[1..], acc);
        QuitInTail(events);
      case KeyDown(key) =>
        var k := KeyStep(st.mode, key);
        var st' := PollState(k.mode, Moved(st.index, n, k.nav));
        if key == QuitKey {
          assert IsQuit(events[0]);
        } else {
          PollQuits(st', n, events[1..], if k.command.Some? then acc + [k.command.value] else acc);
          QuitInTail(events);
        }
    }
  }

  lemma QuitInTail(events: seq<Event>)
    requires events != [] && !IsQuit(events[0])
    ensures (exists i :: 0 <= i < |events| && IsQuit(events[i])) <==> (exists i :: 0 <= i < |events[1..]| && IsQuit(events[1..][i]))
  {
    if exists i :: 0 <= i < |events| && IsQuit(events[i]) {
      var i :| 0 <= i < |events| && IsQuit(events[i]);
      assert events[1..][i - 1] == events[i];
    }
  }

  /** A batch that keeps running returns the collected commands followed by those of its
      keys, none of them QUIT. */
  lemma {:induction false} PollKeepsOrder(st: PollState, n: nat, events: seq<Event>, acc: seq<Command>)
    requires n > 0
    ensures var r := Poll(st, n, events, acc);
            r.running ==> |acc| <= |r.commands| <= |acc| + |events| && r.commands[..|acc|] == acc
                          && forall j :: |acc| <= j < |r.commands| ==> r.commands[j].kind != Quit
    decreases |events|
  {
    if events != [] {
      match events[0]
      case QuitEvent =>
      case OtherEvent =>
        PollKeepsOrder(st, n, events[1..], acc);
      case KeyDown(key) =>
        var k := KeyStep(st.mode, key);
        var st' := PollState(k.mode, Moved(st.index, n, k.nav));
        match k.command
        case None =>
          PollKeepsOrder(st', n, events[1..], acc);
        case Some(cmd) =>
          if cmd.kind != Quit {
            PollKeepsOrder(st', n, events[1..], acc + [cmd]);
            var r := Poll(st', n, events[1..], acc + [cmd]);
            if r.running {
              assert r.commands[..|acc|] == (r.commands[..|acc| + 1])[..|acc|];
            }
          }
    }
  }

  class InputController {
    const session: Session
    var buzzOpenMode: bool

    constructor (session: Session)
      ensures this.session == session && !buzzOpenMode
    {
      this.session := session;
      buzzOpenMode := false;
    }

    /** `_map_keydown`: navigation keys move the session before their command is returned. */
    method MapKeydown(key: Key) returns (cmd: Option<Command>)
      requires |session.tasks| > 0
      modifies this`buzzOpenMode, session`currentIndex
      ensures var k := KeyStep(old(buzzOpenMode), key);
              cmd == k.command && buzzOpenMode == k.mode
              && session.currentIndex == Moved(old(session.currentIndex), |session.tasks|, k.nav)
    {
      match key {
        case QuitKey => return Some(Plain(Quit));
        case NextKey =>
          session.NextTask();
          return Some(Plain(Next));
        case PrevKey =>
          session.PrevTask();
          return Some(Plain(Prev));
        case BuzzOpenKey =>
          buzzOpenMode := true;
          return Some(Plain(BuzzOpen));
        case BuzzResetKey =>
          buzzOpenMode := false;
          return Some(Plain(BuzzReset));
        case BuzzFailKey =>
          buzzOpenMode := false;
          return Some(Plain(BuzzFail));
        case TeamKey(number) =>
          var teamIndex := number - 1;
          if buzzOpenMode {
            buzzOpenMode := false;
            return Some(Command(Buzz, Some(teamIndex)));
          }
          return Some(Command(SelectTeam, Some(teamIndex)));
        case AwardKey => return Some(Plain(Award));
        case PenaltyKey => return Some(Plain(Penalty));
        case TimerToggleKey => return Some(Plain(TimerToggle));
        case TimerResetKey => return Some(Plain(TimerReset));
        case ToggleRosterKey => return Some(Plain(ToggleRoster));
        case ToggleHelpKey => return Some(Plain(ToggleHelp));
        case SaveKey => return Some(Plain(Save));
        case LoadKey => return Some(Plain(Load));
        case ToggleRevealKey => return Some(Plain(ToggleReveal));
        case OtherKey(_) => return None;
      }
    }

    /** `poll_commands` over the pending events: the outcome `Poll` describes. */
    method PollCommands(events: seq<Event>) returns (running: bool, commands: seq<Command>)
      requires |session.tasks| > 0
      modifies this`buzzOpenMode, session`currentIndex
      ensures Poll(PollState(old(buzzOpenMode), old(session.currentIndex)), |session.tasks|, events, [])
              == PollResult(running, commands, PollState(buzzOpenMode, session.currentIndex))
    {
      commands := [];
      var k := 0;
      while k < |events|
        invariant 0 <= k <= |events|
        invariant Poll(PollState(old(buzzOpenMode), old(session.currentIndex)), |session.tasks|, events, [])
                  == Poll(PollState(buzzOpenMode, session.currentIndex), |session.tasks|, events[k..], commands)
      {
        assert events[k..][1..] == events[k + 1..];
        var event := events[k];
        if event == QuitEvent {
          return false, [Plain(Quit)];
        }
        if event.KeyDown? {
          var cmd := MapKeydown(event.key);
          if cmd.Some? {
            if cmd.value.kind == Quit {
              return false, [cmd.value];
            }
            commands := commands + [cmd.value];
          }
        }
        k := k + 1;
      }
      return true, commands;
    }
  }

  /** A sample batch: the buzz-open key, a non-key event, team key 2, an unbound key and
      team key 3. */
  function BuzzKeysEvents(): seq<Event>
  {
    [KeyDown(BuzzOpenKey), OtherEvent, KeyDown(TeamKey(2)), KeyDown(OtherKey(0)), KeyDown(TeamKey(3))]
  }

  /** On those events the first team key buzzes team 1 and the second only selects team 2. */
  lemma BuzzKeysPoll()
    ensures Poll(PollState(false, 0), 1, BuzzKeysEvents(), [])
            == PollResult(true, [Plain(BuzzOpen), Command(Buzz, Some(1)), Command(SelectTeam, Some(2))], PollState(false, 0))
  {
    var events := BuzzKeysEvents();
    BuzzKeysAfterOpen();
    assert events[1..][1..] == events[2..];
    assert Poll(PollState(false, 0), 1, events, []) == Poll(PollState(true, 0), 1, events[2..], [Plain(BuzzOpen)]);
  }

  /** The batch from the first team key on, once the buzz-open key has been seen. */
  lemma BuzzKeysAfterOpen()
    ensures Poll(PollState(true, 0), 1, BuzzKeysEvents()[2..], [Plain(BuzzOpen)])
            == PollResult(true, [Plain(BuzzOpen), Command(Buzz, Some(1)), Command(SelectTeam, Some(2))], PollState(false, 0))
  {
    var events := BuzzKeysEvents();
    var buzzed := [Plain(BuzzOpen), Command(Buzz, Some(1))];
    assert events[2..][1..] == events[3..] && events[3..][1..] == events[4..] && events[4..][1..] == [];
    assert Poll(PollState(false, 0), 1, events[4..], buzzed) == PollResult(true, buzzed + [Command(SelectTeam, Some(2))], PollState(false, 0));
    assert Poll(PollState(false, 0), 1, events[3..], buzzed) == Poll(PollState(false, 0), 1, events[4..], buzzed);
    assert [Plain(BuzzOpen)] + [Command(Buzz, Some(1))] == buzzed;
  }

  /** The same batch through the controller, which ends out of buzz-open mode. */
  method BuzzKeysScenario() returns (running: bool, commands: seq<Command>, mode: bool)
    ensures running && mode == false
    ensures commands == [Plain(BuzzOpen), Command(Buzz, Some(1)), Command(SelectTeam, Some(2))]
  {
    var session := new Session([Task(Some(0), 1)]);
    var ic := new InputController(session);
    BuzzKeysPoll();
    running, commands := ic.PollCommands(BuzzKeysEvents());
    mode := ic.buzzOpenMode;
  }
}
