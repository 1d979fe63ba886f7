/** The `GameState` aggregate of src/models/game_state.py: the team score ledger,
    the buzz arbiter, the timer, the transient status message, and the dict codec. */
module GameStates {
  import opened Wrappers
  import opened Text
  import opened Json
  import opened Timers

  datatype BuzzState = Closed | Open | Locked

  datatype Team = Team(name: string, score: int)

  /** The default lifetime of a status message. */
  const StatusDurationMs: int := 2000

  /** A team name as the game keeps it: non-empty, with no whitespace at either end. */
  predicate CleanName(n: string)
  {
    n != [] && IsStripped(n)
  }

  /** The names `with_teams` keeps: every non-blank name, stripped, in order. */
  function CleanNames(names: seq<string>): (r: seq<string>)
    ensures |r| <= |names|
    ensures r == [] <==> forall i :: 0 <= i < |names| ==> IsBlank(names[i])
    ensures forall k :: 0 <= k < |r| ==> CleanName(r[k])
  {
    if names == [] then []
    else
      StripIdempotent(names[0]);
      (if IsBlank(names[0]) then [] else [Strip(names[0])]) + CleanNames(names[1..])
  }

  /** The scores after `points` go to team `i`: nothing changes for an index out of
      range or a blocked team; otherwise exactly that team's score moves by `points`. */
  function Credited(teams: seq<Team>, blocked: set<int>, i: int, points: int): (r: seq<Team>)
    ensures |r| == |teams|
    ensures forall j :: 0 <= j < |r| ==> r[j].name == teams[j].name
    ensures forall j :: 0 <= j < |r| && j != i ==> r[j] == teams[j]
    ensures 0 <= i < |r| ==> r[i].score == teams[i].score + (if i in blocked then 0 else points)
    ensures !(0 <= i < |teams|) || i in blocked ==> r == teams
  {
    if 0 <= i < |teams| && i !in blocked then teams[i := Team(teams[i].name, teams[i].score + points)]
    else teams
  }

  /** The text `add_points` shows after a successful credit, e.g. "A +3" or "A -2". */
  function PointsMessage(name: string, points: int): string
  {
    name + " " + (if points >= 0 then "+" else "") + IntToString(points)
  }

  // ---- persistence codec (to_dict / from_dict) ----

  /** The persisted part of a game state. */
  datatype Snapshot = Snapshot(
    teams: seq<Team>,
    buzzState: BuzzState,
    lockedTeam: Option<int>,
    mode: TimerMode,
    running: bool,
    elapsedMs: nat,
    targetMs: Option<nat>)

  function BuzzStateName(s: BuzzState): string
  {
    match s
    case Closed => "closed"
    case Open => "open"
    case Locked => "locked"
  }

  function ParseBuzzState(j: Json): (r: Option<BuzzState>)
    ensures r.Some? ==> j == JStr(BuzzStateName(r.value))
    ensures (exists s :: j == JStr(BuzzStateName(s))) ==> r.Some?
  {
    if j == JStr("closed") then Some(Closed)
    else if j == JStr("open") then Some(Open)
    else if j == JStr("locked") then Some(Locked)
    else None
  }

  function ModeName(m: TimerMode): string
  {
    match m
    case Stopwatch => "stopwatch"
    case Countdown => "countdown"
  }

  function ParseMode(j: Json): (r: Option<TimerMode>)
    ensures r.Some? ==> j == JStr(ModeName(r.value))
    ensures (exists m :: j == JStr(ModeName(m))) ==> r.Some?
  {
    if j == JStr("stopwatch") then Some(Stopwatch)
    else if j == JStr("countdown") then Some(Countdown)
    else None
  }

  function OptionalInt(v: Option<int>): Json
  {
    match v
    case None => JNull
    case Some(i) => JInt(i)
  }

  function EncodeTeam(t: Team): Json
  {
    JObj(map["name" := JStr(t.name), "score" := JInt(t.score)])
  }

  function EncodeTeams(teams: seq<Team>): (r: seq<Json>)
    ensures |r| == |teams| && forall i :: 0 <= i < |teams| ==> r[i] == EncodeTeam(teams[i])
  {
    seq(|teams|, i requires 0 <= i < |teams| => EncodeTeam(teams[i]))
  }

  function EncodeBuzz(state: BuzzState, locked: Option<int>): Json
  {
    JObj(map["state" := JStr(BuzzStateName(state)), "locked_team" := OptionalInt(locked)])
  }

  function EncodeTimer(mode: TimerMode, running: bool, elapsedMs: nat, targetMs: Option<nat>): Json
  {
    JObj(map[
      "mode" := JStr(ModeName(mode)),
      "running" := JBool(running),
      "elapsed_ms" := JInt(elapsedMs),
      "target_ms" := OptionalInt(targetMs)])
  }

  /** `to_dict()`: the version-1 document, whose buzz and timer sections read back as
      the snapshot's own, and whose team list does too when the names are clean. */
  function Encode(s: Snapshot): (r: Json)
    ensures r.JObj? && r.fields.Keys == {"version", "teams", "buzz", "timer"}
    ensures r.fields["version"] == JInt(1)
    ensures r.fields["teams"].JArr? && |r.fields["teams"].items| == |s.teams|
    ensures (forall k :: 0 <= k < |s.teams| ==> CleanName(s.teams[k].name))
            ==> DecodeTeams(r.fields["teams"].items) == Ok(s.teams)
    ensures DecodeBuzz(r.fields) == (s.buzzState, s.lockedTeam)
    ensures DecodeTimer(r.fields) == (s.mode, s.elapsedMs, s.targetMs)
    ensures r.fields["timer"].JObj? && Get(r.fields["timer"].fields, "running", JNull) == JBool(s.running)
  {
    var r := JObj(map[
      "version" := JInt(1),
      "teams" := JArr(EncodeTeams(s.teams)),
      "buzz" := EncodeBuzz(s.buzzState, s.lockedTeam),
      "timer" := EncodeTimer(s.mode, s.running, s.elapsedMs, s.targetMs)]);
    DecodeEncodedBuzz(r.fields, s.buzzState, s.lockedTeam);
    DecodeEncodedTimer(r.fields, s.mode, s.running, s.elapsedMs, s.targetMs);
    DecodeEncodedTeams(s.teams);
    r
  }

  /** Validation of one entry of `teams`: an object whose `name` is a non-blank string
      and whose `score` (0 when missing) is an integer. */
  function DecodeTeam(item: Json): (r: Result<Team>)
    ensures r.Ok? <==> item.JObj? && Get(item.fields, "name", JNull).JStr?
                       && !IsBlank(Get(item.fields, "name", JNull).s)
                       && Get(item.fields, "score", JInt(0)).JInt?
    ensures r.Ok? ==> r.value == Team(Strip(item.fields["name"].s), Get(item.fields, "score", JInt(0)).i)
    ensures r.Ok? ==> CleanName(r.value.name)
    ensures !item.JObj? ==> r == Err("Team must be an object")
    ensures item.JObj? && !(Get(item.fields, "name", JNull).JStr? && !IsBlank(Get(item.fields, "name", JNull).s))
            ==> r == Err("Team.name must be a non-empty string")
    ensures item.JObj? && Get(item.fields, "name", JNull).JStr? && !IsBlank(Get(item.fields, "name", JNull).s)
            && !Get(item.fields, "score", JInt(0)).JInt?
            ==> r == Err("Team.score must be an int")
  {
    if !item.JObj? then Err("Team must be an object")
    else
      var name := Get(item.fields, "name", JNull);
      var score := Get(item.fields, "score", JInt(0));
      if !name.JStr? || IsBlank(name.s) then Err("Team.name must be a non-empty string")
      else if !score.JInt? then Err("Team.score must be an int")
      else StripIdempotent(name.s); Ok(Team(Strip(name.s), score.i))
  }

  /** The team list, or the error of the first invalid entry. */
  function DecodeTeams(items: seq<Json>): (r: Result<seq<Team>>)
    ensures r.Ok? <==> forall i :: 0 <= i < |items| ==> DecodeTeam(items[i]).Ok?
    ensures r.Ok? ==> |r.value| == |items|
    ensures r.Ok? ==> forall i :: 0 <= i < |items| ==> r.value[i] == DecodeTeam(items[i]).value
  {
    if items == [] then Ok([])
    else
      match DecodeTeam(items[0])
      case Err(e) => Err(e)
      case Ok(t) =>
        match DecodeTeams(items[1..])
        case Err(e) => Err(e)
        case Ok(ts) => Ok([t] + ts)
  }

  /** The team list fails with the error of its first invalid entry. */
  lemma {:induction false} FirstTeamError(items: seq<Json>, k: nat)
    requires k < |items| && DecodeTeam(items[k]).Err?
    requires forall j :: 0 <= j < k ==> DecodeTeam(items[j]).Ok?
    ensures DecodeTeams(items) == Err(DecodeTeam(items[k]).error)
    decreases k
  {
    if k > 0 {
      FirstTeamError(items[1..], k - 1);
    }
  }

  /** The buzz fields read from the document before sanitising: a known state name and an
      integer or null `locked_team` are taken, anything else keeps the default. */
  function DecodeBuzz(fields: map<string, Json>): (r: (BuzzState, Option<int>))
    ensures !Get(fields, "buzz", JObj(map[])).JObj? ==> r == (Closed, None)
    ensures var buzz := Get(fields, "buzz", JObj(map[]));
            buzz.JObj? ==> var state := Get(buzz.fields, "state", JStr("closed"));
                           if ParseBuzzState(state).Some? then state == JStr(BuzzStateName(r.0)) else r.0 == Closed
    ensures var buzz := Get(fields, "buzz", JObj(map[]));
            r.1.Some? <==> buzz.JObj? && Get(buzz.fields, "locked_team", JNull).JInt?
    ensures r.1.Some? ==> r.1.value == Get(fields["buzz"].fields, "locked_team", JNull).i
  {
    var buzz := Get(fields, "buzz", JObj(map[]));
    if !buzz.JObj? then (Closed, None)
    else
      var state := Get(buzz.fields, "state", JStr("closed"));
      var locked := Get(buzz.fields, "locked_team", JNull);
      (match ParseBuzzState(state) case Some(s) => s case None => Closed,
       if locked.JInt? then Some(locked.i) else None)
  }

  /** The timer fields read from the document: mode, a non-negative `elapsed_ms` and a
      null or non-negative `target_ms`; anything else keeps the default. */
  function DecodeTimer(fields: map<string, Json>): (r: (TimerMode, nat, Option<nat>))
    ensures !Get(fields, "timer", JObj(map[])).JObj? ==> r == (Stopwatch, 0, None)
    ensures var timer := Get(fields, "timer", JObj(map[]));
            timer.JObj? ==> var mode := Get(timer.fields, "mode", JStr("stopwatch"));
                            if ParseMode(mode).Some? then mode == JStr(ModeName(r.0)) else r.0 == Stopwatch
    ensures var timer := Get(fields, "timer", JObj(map[]));
            timer.JObj? ==> var elapsed := Get(timer.fields, "elapsed_ms", JInt(0));
                            r.1 == if elapsed.JInt? && elapsed.i >= 0 then elapsed.i else 0
    ensures var timer := Get(fields, "timer", JObj(map[]));
            r.2.Some? <==> timer.JObj? && Get(timer.fields, "target_ms", JNull).JInt? && Get(timer.fields, "target_ms", JNull).i >= 0
    ensures r.2.Some? ==> r.2.value == Get(fields["timer"].fields, "target_ms", JNull).i
  {
    var timer := Get(fields, "timer", JObj(map[]));
    if !timer.JObj? then (Stopwatch, 0, None)
    else
      var mode := Get(timer.fields, "mode", JStr("stopwatch"));
      var elapsed := Get(timer.fields, "elapsed_ms", JInt(0));
      var target := Get(timer.fields, "target_ms", JNull);
      (match ParseMode(mode) case Some(m) => m case None => Stopwatch,
       if elapsed.JInt? && elapsed.i >= 0 then elapsed.i else 0,
       if target.JInt? && target.i >= 0 then Some(target.i) else None)
  }

  /** An out-of-range locked team is dropped, and a LOCKED state without it becomes CLOSED. */
  function Sanitize(state: BuzzState, locked: Option<int>, teamCount: nat): (r: (BuzzState, Option<int>))
    ensures r.1.Some? ==> 0 <= r.1.value < teamCount
    ensures locked.Some? && 0 <= locked.value < teamCount ==> r == (state, locked)
    ensures locked.None? ==> r == (state, locked)
    ensures locked.Some? && !(0 <= locked.value < teamCount) ==> r.1.None? && r.0 == (if state == Locked then Closed else state)
  {
    if locked.Some? && !(0 <= locked.value < teamCount) then
      (if state == Locked then Closed else state, None)
    else (state, locked)
  }

  /** `from_dict` as a function: the error it raises, or the restored snapshot. */
  function Decode(data: Json): (r: Result<Snapshot>)
    ensures !data.JObj? ==> r == Err("GameState data must be an object")
    ensures data.JObj? && !(Get(data.fields, "teams", JNull).JArr? && |Get(data.fields, "teams", JNull).items| > 0)
            ==> r == Err("GameState.teams must be a non-empty array")
    ensures r.Ok? <==> data.JObj? && Get(data.fields, "teams", JNull).JArr?
                       && |Get(data.fields, "teams", JNull).items| > 0
                       && DecodeTeams(Get(data.fields, "teams", JNull).items).Ok?
    ensures data.JObj? && Get(data.fields, "teams", JNull).JArr? && DecodeTeams(Get(data.fields, "teams", JNull).items).Err?
            && |Get(data.fields, "teams", JNull).items| > 0
            ==> r == Err(DecodeTeams(Get(data.fields, "teams", JNull).items).error)
    ensures r.Ok? ==> r.value.teams == DecodeTeams(data.fields["teams"].items).value
    ensures r.Ok? ==> (r.value.buzzState, r.value.lockedTeam)
                      == Sanitize(DecodeBuzz(data.fields).0, DecodeBuzz(data.fields).1, |r.value.teams|)
    ensures r.Ok? ==> (r.value.mode, r.value.elapsedMs, r.value.targetMs) == DecodeTimer(data.fields)
    ensures r.Ok? ==> !r.value.running
  {
    if !data.JObj? then Err("GameState data must be an object")
    else
      var teamsRaw := Get(data.fields, "teams", JNull);
      if !teamsRaw.JArr? || |teamsRaw.items| == 0 then Err("GameState.teams must be a non-empty array")
      else
        match DecodeTeams(teamsRaw.items)
        case Err(e) => Err(e)
        case Ok(teams) =>
          Ok(Restore(teams, data.fields))
  }

  /** The snapshot `from_dict` builds once the teams are valid: the buzz and timer
      patches, then the sanitising step; the timer is always paused. */
  function Restore(teams: seq<Team>, fields: map<string, Json>): Snapshot
  {
    var (state, locked) := DecodeBuzz(fields);
    var (mode, elapsed, target) := DecodeTimer(fields);
    var (state', locked') := Sanitize(state, locked, |teams|);
    Snapshot(teams, state', locked', mode, false, elapsed, target)
  }

  /** Whatever document `from_dict` accepts, the result has at least one team, clean team
      names, a paused timer and a locked team (if any) that is in range. */
  lemma DecodeSound(data: Json)
    requires Decode(data).Ok?
    ensures Restorable(Decode(data).value) && !Decode(data).value.running
  {
    var items := data.fields["teams"].items;
    var teams := DecodeTeams(items).value;
    assert forall k :: 0 <= k < |teams| ==> teams[k] == DecodeTeam(items[k]).value;
  }

  /** A snapshot that a game state built by `with_teams` and the mutators can have. */
  predicate Restorable(s: Snapshot)
  {
    && |s.teams| > 0
    && (forall k :: 0 <= k < |s.teams| ==> CleanName(s.teams[k].name))
    && (s.lockedTeam.Some? ==> 0 <= s.lockedTeam.value < |s.teams|)
  }

  lemma DecodeEncodedTeams(teams: seq<Team>)
    ensures (forall k :: 0 <= k < |teams| ==> CleanName(teams[k].name))
            ==> DecodeTeams(EncodeTeams(teams)) == Ok(teams)
  {
    if forall k :: 0 <= k < |teams| ==> CleanName(teams[k].name) {
      var items := EncodeTeams(teams);
      forall i | 0 <= i < |items| ensures DecodeTeam(items[i]) == Ok(teams[i]) {
        StripStripped(teams[i].name);
      }
      var r := DecodeTeams(items);
      assert r.value == teams;
    }
  }

  lemma DecodeEncodedBuzz(fields: map<string, Json>, state: BuzzState, locked: Option<int>)
    requires "buzz" in fields && fields["buzz"] == EncodeBuzz(state, locked)
    ensures DecodeBuzz(fields) == (state, locked)
  {
    assert ParseBuzzState(JStr(BuzzStateName(state))) == Some(state);
  }

  lemma DecodeEncodedTimer(fields: map<string, Json>, mode: TimerMode, running: bool, elapsedMs: nat, targetMs: Option<nat>)
    requires "timer" in fields && fields["timer"] == EncodeTimer(mode, running, elapsedMs, targetMs)
    ensures DecodeTimer(fields) == (mode, elapsedMs, targetMs)
  {
    assert ParseMode(JStr(ModeName(mode))) == Some(mode);
  }

  /** Round trip: restoring a saved document gives back the teams, the buzz state, the
      locked team, the timer mode, elapsed time and target; only `running` is lost. */
  lemma RoundTrip(s: Snapshot)
    requires Restorable(s)
    ensures Decode(Encode(s)) == Ok(s.(running := false))
  {
    var fields := Encode(s).fields;
    assert fields["teams"] == JArr(EncodeTeams(s.teams));
    DecodeEncodedTeams(s.teams);
    DecodeEncodedBuzz(fields, s.buzzState, s.lockedTeam);
    DecodeEncodedTimer(fields, s.mode, s.running, s.elapsedMs, s.targetMs);
    assert Restore(s.teams, fields) == s.(running := false);
  }

  /** The sanitising scenario of the tests: one team, state "locked", `locked_team` 9. */
  lemma SanitizeScenario()
    ensures var doc := JObj(map[
              "version" := JInt(1),
              "teams" := JArr([JObj(map["name" := JStr("A"), "score" := JInt(0)])]),
              "buzz" := JObj(map["state" := JStr("locked"), "locked_team" := JInt(9)])]);
            Decode(doc).Ok? && Decode(doc).value.lockedTeam == None && Decode(doc).value.buzzState == Closed
  {
    var doc := JObj(map[
      "version" := JInt(1),
      "teams" := JArr([JObj(map["name" := JStr("A"), "score" := JInt(0)])]),
      "buzz" := JObj(map["state" := JStr("locked"), "locked_team" := JInt(9)])]);
    assert !IsSpace('A');
    assert DecodeTeam(JObj(map["name" := JStr("A"), "score" := JInt(0)])).Ok?;
  }

  class GameState {
    var teams: seq<Team>
    var buzzState: BuzzState
    var buzzLockedTeam: Option<int>
    const timer: Timer
    /** Teams blocked from buzzing and scoring for the current task (by index). */
    var buzzBlockedTeams: set<int>
    var statusMessage: Option<string>
    var statusUntilMs: Option<int>

    /** Every locked or blocked index is a valid team index. */
    predicate IndicesValid()
      reads this
    {
      && (buzzLockedTeam.Some? ==> 0 <= buzzLockedTeam.value < |teams|)
      && (forall b :: b in buzzBlockedTeams ==> 0 <= b < |teams|)
    }

    /** A team is locked exactly when the arbiter is LOCKED. */
    predicate LockConsistent()
      reads this
    {
      buzzLockedTeam.Some? <==> buzzState == Locked
    }

    predicate BuzzInvariant()
      reads this
    {
      IndicesValid() && LockConsistent()
    }

    /** The persisted part of this state. */
    function Snap(): Snapshot
      reads this, timer
    {
      Snapshot(teams, buzzState, buzzLockedTeam, timer.mode, timer.running, timer.elapsedMs, timer.targetMs)
    }

    /** The dataclass constructor: the given teams, a closed arbiter and a fresh timer. */
    constructor (teams: seq<Team>)
      ensures this.teams == teams && buzzState == Closed && buzzLockedTeam == None
      ensures buzzBlockedTeams == {} && statusMessage == None && statusUntilMs == None
      ensures fresh(timer) && timer.mode == Stopwatch && !timer.running && timer.elapsedMs == 0
      ensures timer.targetMs == None && timer.lastStartMs == None
    {
      this.teams := teams;
      buzzState := Closed;
      buzzLockedTeam := None;
      timer := new Timer();
      buzzBlockedTeams := {};
      statusMessage := None;
      statusUntilMs := None;
    }

    /** Fails iff no name is non-blank; otherwise one team per clean name, all at 0. */
    static method WithTeams(names: seq<string>) returns (r: Result<GameState>)
      ensures r.Err? <==> forall i :: 0 <= i < |names| ==> IsBlank(names[i])
      ensures r.Err? ==> r.error == "At least one team name required"
      ensures r.Ok? ==> fresh(r.value) && fresh(r.value.timer)
      ensures r.Ok? ==> |r.value.teams| == |CleanNames(names)| > 0
      ensures r.Ok? ==> forall i :: 0 <= i < |r.value.teams| ==> r.value.teams[i] == Team(CleanNames(names)[i], 0)
      ensures r.Ok? ==> r.value.buzzState == Closed && r.value.buzzLockedTeam == None && r.value.buzzBlockedTeams == {}
      ensures r.Ok? ==> r.value.BuzzInvariant() && r.value.statusMessage == None
      ensures r.Ok? ==> !r.value.timer.running && r.value.timer.elapsedMs == 0 && r.value.timer.Valid()
    {
      var clean := CleanNames(names);
      if clean == [] {
        return Err("At least one team name required");
      }
      var gs := new GameState(seq(|clean|, i requires 0 <= i < |clean| => Team(clean[i], 0)));
      r := Ok(gs);
    }

    method SetStatus(message: string, nowMs: int, durationMs: int)
      modifies this`statusMessage, this`statusUntilMs
      ensures statusMessage == Some(message)
      ensures statusUntilMs == Some(nowMs + (if durationMs > 0 then durationMs else 0))
    {
      statusMessage := Some(message);
      statusUntilMs := Some(nowMs + (if durationMs > 0 then durationMs else 0));
    }

    /** The status disappears once `nowMs` reaches its expiry. */
    method ClearExpiredStatus(nowMs: int)
      modifies this`statusMessage, this`statusUntilMs
      ensures old(statusUntilMs).Some? && nowMs >= old(statusUntilMs).value ==> statusMessage == None && statusUntilMs == None
      ensures !(old(statusUntilMs).Some? && nowMs >= old(statusUntilMs).value) ==> statusMessage == old(statusMessage) && statusUntilMs == old(statusUntilMs)
    {
      if statusUntilMs.Some? && nowMs >= statusUntilMs.value {
        statusUntilMs := None;
        statusMessage := None;
      }
    }

    /** Silently ignores an out-of-range index; a blocked team gets nothing (only a
        "BLOCKED" status when a time is given); otherwise credits exactly that team. */
    method AddPoints(teamIndex: int, points: int, nowMs: Option<int>)
      modifies this`teams, this`statusMessage, this`statusUntilMs
      ensures teams == Credited(old(teams), buzzBlockedTeams, teamIndex, points)
      ensures !(0 <= teamIndex < |teams|) || nowMs.None? ==> statusMessage == old(statusMessage) && statusUntilMs == old(statusUntilMs)
      ensures 0 <= teamIndex < |teams| && nowMs.Some? ==> statusUntilMs == Some(nowMs.value + StatusDurationMs)
      ensures 0 <= teamIndex < |teams| && nowMs.Some? && teamIndex in buzzBlockedTeams ==> statusMessage == Some("BLOCKED: " + teams[teamIndex].name)
      ensures 0 <= teamIndex < |teams| && nowMs.Some? && teamIndex !in buzzBlockedTeams ==> statusMessage == Some(PointsMessage(teams[teamIndex].name, points))
      ensures old(BuzzInvariant()) ==> BuzzInvariant()
      ensures old(IndicesValid()) ==> IndicesValid()
    {
      if !(0 <= teamIndex < |teams|) {
        return;
      }
      if teamIndex in buzzBlockedTeams {
        if nowMs.Some? {
          SetStatus("BLOCKED: " + teams[teamIndex].name, nowMs.value, StatusDurationMs);
        }
        return;
      }
      teams := teams[teamIndex := Team(teams[teamIndex].name, teams[teamIndex].score + points)];
      if nowMs.Some? {
        SetStatus(PointsMessage(teams[teamIndex].name, points), nowMs.value, StatusDurationMs);
      }
    }

    /** Zeroes every score, closes the arbiter, clears blocks and resets the timer. */
    method ResetScores(nowMs: Option<int>)
      modifies this`teams, this`buzzState, this`buzzLockedTeam, this`buzzBlockedTeams
      modifies this`statusMessage, this`statusUntilMs, timer`running, timer`lastStartMs, timer`elapsedMs
      ensures |teams| == |old(teams)|
      ensures forall j :: 0 <= j < |teams| ==> teams[j] == Team(old(teams)[j].name, 0)
      ensures buzzState == Closed && buzzLockedTeam == None && buzzBlockedTeams == {}
      ensures !timer.running && timer.elapsedMs == 0 && timer.lastStartMs == None
      ensures timer.mode == old(timer.mode) && timer.targetMs == old(timer.targetMs)
      ensures nowMs.Some? ==> statusMessage == Some("Scores reset") && statusUntilMs == Some(nowMs.value + StatusDurationMs)
      ensures nowMs.None? ==> statusMessage == old(statusMessage) && statusUntilMs == old(statusUntilMs)
      ensures BuzzInvariant() && timer.Valid()
    {
      var i := 0;
      while i < |teams|
        invariant 0 <= i <= |teams| == |old(teams)|
        invariant forall j :: 0 <= j < i ==> teams[j] == Team(old(teams)[j].name, 0)
        invariant forall j :: i <= j < |teams| ==> teams[j] == old(teams)[j]
        invariant statusMessage == old(statusMessage) && statusUntilMs == old(statusUntilMs)
      {
        teams := teams[i := Team(teams[i].name, 0)];
        i := i + 1;
      }
      buzzState := Closed;
      buzzLockedTeam := None;
      buzzBlockedTeams := {};
      timer.Reset();
      if nowMs.Some? {
        SetStatus("Scores reset", nowMs.value, StatusDurationMs);
      }
    }

    /** Opens the arbiter with no locked team; blocks stay. */
    method OpenBuzz(nowMs: Option<int>)
      modifies this`buzzState, this`buzzLockedTeam, this`statusMessage, this`statusUntilMs
      ensures buzzState == Open && buzzLockedTeam == None
      ensures nowMs.Some? ==> statusMessage == Some("BUZZ OPEN") && statusUntilMs == Some(nowMs.value + StatusDurationMs)
      ensures nowMs.None? ==> statusMessage == old(statusMessage) && statusUntilMs == old(statusUntilMs)
      ensures old(IndicesValid()) ==> BuzzInvariant()
    {
      buzzState := Open;
      buzzLockedTeam := None;
      if nowMs.Some? {
        SetStatus("BUZZ OPEN", nowMs.value, StatusDurationMs);
      }
    }

    /** Closes the arbiter, unlocks and clears every block. */
    method ResetBuzz(nowMs: Option<int>)
      modifies this`buzzState, this`buzzLockedTeam, this`buzzBlockedTeams, this`statusMessage, this`statusUntilMs
      ensures buzzState == Closed && buzzLockedTeam == None && buzzBlockedTeams == {}
      ensures nowMs.Some? ==> statusMessage == Some("BUZZ RESET") && statusUntilMs == Some(nowMs.value + StatusDurationMs)
      ensures nowMs.None? ==> statusMessage == old(statusMessage) && statusUntilMs == old(statusUntilMs)
      ensures BuzzInvariant()
    {
      buzzState := Closed;
      buzzLockedTeam := None;
      buzzBlockedTeams := {};
      if nowMs.Some? {
        SetStatus("BUZZ RESET", nowMs.value, StatusDurationMs);
      }
    }

    /** Blocks the locked team (if any) for the task and reopens the arbiter. */
    method FailLockedTeamAndReopen(nowMs: Option<int>)
      modifies this`buzzState, this`buzzLockedTeam, this`buzzBlockedTeams, this`statusMessage, this`statusUntilMs
      ensures buzzState == Open && buzzLockedTeam == None
      ensures buzzBlockedTeams == old(buzzBlockedTeams) + (if old(buzzLockedTeam).Some? then {old(buzzLockedTeam).value} else {})
      ensures nowMs.Some? ==> statusMessage == Some("BUZZ REOPEN") && statusUntilMs == Some(nowMs.value + StatusDurationMs)
      ensures nowMs.None? ==> statusMessage == old(statusMessage) && statusUntilMs == old(statusUntilMs)
      ensures old(IndicesValid()) ==> BuzzInvariant()
    {
      if buzzLockedTeam.Some? {
        buzzBlockedTeams := buzzBlockedTeams + {buzzLockedTeam.value};
      }
      buzzState := Open;
      buzzLockedTeam := None;
      if nowMs.Some? {
        SetStatus("BUZZ REOPEN", nowMs.value, StatusDurationMs);
      }
    }

    method ClearBuzzBlocks()
      modifies this`buzzBlockedTeams
      ensures buzzBlockedTeams == {}
      ensures old(BuzzInvariant()) ==> BuzzInvariant()
      ensures old(IndicesValid()) ==> IndicesValid()
    {
      buzzBlockedTeams := {};
    }

    /** Succeeds iff the arbiter is OPEN and the team is in range and not blocked; the
        team is then locked in. A failed buzz changes no buzz field. */
    method Buzz(teamIndex: int, nowMs: Option<int>) returns (ok: bool)
      modifies this`buzzState, this`buzzLockedTeam, this`statusMessage, this`statusUntilMs
      ensures ok <==> old(buzzState) == Open && 0 <= teamIndex < |teams| && teamIndex !in buzzBlockedTeams
      ensures ok ==> buzzState == Locked && buzzLockedTeam == Some(teamIndex)
      ensures !ok ==> buzzState == old(buzzState) && buzzLockedTeam == old(buzzLockedTeam)
      ensures ok && nowMs.Some? ==> statusMessage == Some("BUZZ: " + teams[teamIndex].name)
      ensures !ok && old(buzzState) == Open && 0 <= teamIndex < |teams| && nowMs.Some? ==> statusMessage == Some("BLOCKED: " + teams[teamIndex].name)
      ensures (old(buzzState) == Open && 0 <= teamIndex < |teams| && nowMs.Some?) ==> statusUntilMs == Some(nowMs.value + StatusDurationMs)
      ensures !(old(buzzState) == Open && 0 <= teamIndex < |teams| && nowMs.Some?) ==> statusMessage == old(statusMessage) && statusUntilMs == old(statusUntilMs)
      ensures old(BuzzInvariant()) ==> BuzzInvariant()
      ensures old(IndicesValid()) ==> IndicesValid()
    {
      if buzzState != Open {
        return false;
      }
      if !(0 <= teamIndex < |teams|) {
        return false;
      }
      if teamIndex in buzzBlockedTeams {
        if nowMs.Some? {
          SetStatus("BLOCKED: " + teams[teamIndex].name, nowMs.value, StatusDurationMs);
        }
        return false;
      }
      buzzState := Locked;
      buzzLockedTeam := Some(teamIndex);
      if nowMs.Some? {
        SetStatus("BUZZ: " + teams[teamIndex].name, nowMs.value, StatusDurationMs);
      }
      return true;
    }

    method TimerStartPauseToggle(nowMs: int)
      modifies timer`running, timer`lastStartMs, timer`elapsedMs, this`statusMessage, this`statusUntilMs
      ensures timer.running == !old(timer.running)
      ensures old(timer.running) ==> timer.elapsedMs == old(timer.elapsedMs) + Delta(old(timer.lastStartMs), nowMs) && timer.lastStartMs == None
      ensures !old(timer.running) ==> timer.elapsedMs == old(timer.elapsedMs) && timer.lastStartMs == Some(nowMs)
      ensures statusMessage == Some(if old(timer.running) then "Timer paused" else "Timer started")
      ensures statusUntilMs == Some(nowMs + StatusDurationMs)
      ensures old(timer.Valid()) ==> timer.Valid()
    {
      if timer.running {
        timer.Pause(nowMs);
        SetStatus("Timer paused", nowMs, StatusDurationMs);
      } else {
        timer.Start(nowMs);
        SetStatus("Timer started", nowMs, StatusDurationMs);
      }
    }

    method TimerReset(nowMs: int)
      modifies timer`running, timer`lastStartMs, timer`elapsedMs, this`statusMessage, this`statusUntilMs
      ensures !timer.running && timer.elapsedMs == 0 && timer.lastStartMs == None && timer.Valid()
      ensures statusMessage == Some("Timer reset") && statusUntilMs == Some(nowMs + StatusDurationMs)
    {
      timer.Reset();
      SetStatus("Timer reset", nowMs, StatusDurationMs);
    }

    /** One frame: advance the timer and drop an expired status message. */
    method Tick(nowMs: int)
      modifies timer`lastStartMs, timer`elapsedMs, this`statusMessage, this`statusUntilMs
      ensures timer.elapsedMs >= old(timer.elapsedMs)
      ensures old(timer.running) ==> timer.elapsedMs == old(timer.elapsedMs) + Delta(old(timer.lastStartMs), nowMs) && timer.lastStartMs == Some(nowMs)
      ensures !old(timer.running) ==> timer.elapsedMs == old(timer.elapsedMs) && timer.lastStartMs == old(timer.lastStartMs)
      ensures old(statusUntilMs).Some? && nowMs >= old(statusUntilMs).value ==> statusMessage == None && statusUntilMs == None
      ensures !(old(statusUntilMs).Some? && nowMs >= old(statusUntilMs).value) ==> statusMessage == old(statusMessage) && statusUntilMs == old(statusUntilMs)
      ensures old(timer.Valid()) ==> timer.Valid()
    {
      timer.Tick(nowMs);
      ClearExpiredStatus(nowMs);
    }

    /** `to_dict()`: a version-1 document with the teams in order. */
    function ToDict(): (r: Json)
      reads this, timer
      ensures r.JObj? && r.fields.Keys == {"version", "teams", "buzz", "timer"}
      ensures r.fields["version"] == JInt(1)
      ensures r.fields["teams"].JArr? && |r.fields["teams"].items| == |teams|
      ensures forall i :: 0 <= i < |teams| ==> r.fields["teams"].items[i] == EncodeTeam(teams[i])
      ensures IndicesValid() && |teams| > 0
              && (forall k :: 0 <= k < |teams| ==> CleanName(teams[k].name))
              ==> Decode(r) == Ok(Snap().(running := false))
    {
      var doc := Encode(Snap());
      if IndicesValid() && |teams| > 0
         && (forall k :: 0 <= k < |teams| ==> CleanName(teams[k].name))
      then
        RoundTrip(Snap());
        doc
      else doc
    }

    /** The `teams` loop of `from_dict`: the first invalid entry's error, or every team. */
    static method ReadTeams(items: seq<Json>) returns (r: Result<seq<Team>>)
      ensures r == DecodeTeams(items)
    {
      var teams: seq<Team> := [];
      var k := 0;
      while k < |items|
        invariant 0 <= k <= |items| && |teams| == k
        invariant forall j :: 0 <= j < k ==> DecodeTeam(items[j]).Ok? && teams[j] == DecodeTeam(items[j]).value
      {
        var team := DecodeTeam(items[k]);
        if team.Err? {
          FirstTeamError(items, k);
          return Err(team.error);
        }
        teams := teams + [team.value];
        k := k + 1;
      }
      assert DecodeTeams(items).value == teams;
      return Ok(teams);
    }

    /** The `buzz` patch of `from_dict`, before sanitising. */
    method RestoreBuzz(fields: map<string, Json>)
      modifies this`buzzState, this`buzzLockedTeam
      requires buzzState == Closed && buzzLockedTeam == None
      ensures (buzzState, buzzLockedTeam) == DecodeBuzz(fields)
    {
      var buzz := Get(fields, "buzz", JObj(map[]));
      if buzz.JObj? {
        var state := Get(buzz.fields, "state", JStr("closed"));
        var lockedTeam := Get(buzz.fields, "locked_team", JNull);
        var parsed := ParseBuzzState(state);
        if parsed.Some? {
          buzzState := parsed.value;
        }
        if lockedTeam.JNull? || lockedTeam.JInt? {
          buzzLockedTeam := if lockedTeam.JInt? then Some(lockedTeam.i) else None;
        }
      }
    }

    /** The `timer` patch of `from_dict`: the timer always comes back paused. */
    method RestoreTimer(fields: map<string, Json>)
      modifies timer`mode, timer`running, timer`elapsedMs, timer`targetMs
      requires timer.mode == Stopwatch && !timer.running && timer.elapsedMs == 0 && timer.targetMs == None
      ensures (timer.mode, timer.elapsedMs, timer.targetMs) == DecodeTimer(fields) && !timer.running
    {
      var t := Get(fields, "timer", JObj(map[]));
      if t.JObj? {
        var mode := Get(t.fields, "mode", JStr("stopwatch"));
        var running := Get(t.fields, "running", JBool(false));
        var elapsedMs := Get(t.fields, "elapsed_ms", JInt(0));
        var targetMs := Get(t.fields, "target_ms", JNull);
        var parsedMode := ParseMode(mode);
        if parsedMode.Some? {
          timer.mode := parsedMode.value;
        }
        if running.JBool? {
          // restored as paused whatever was saved
          timer.running := false;
        }
        if elapsedMs.JInt? && elapsedMs.i >= 0 {
          timer.elapsedMs := elapsedMs.i;
        }
        if targetMs.JNull? || (targetMs.JInt? && targetMs.i >= 0) {
          timer.targetMs := if targetMs.JInt? then Some(targetMs.i) else None;
        }
      }
    }

    /** The sanitising step of `from_dict`. */
    method SanitizeLock()
      modifies this`buzzState, this`buzzLockedTeam
      ensures (buzzState, buzzLockedTeam) == Sanitize(old(buzzState), old(buzzLockedTeam), |teams|)
    {
      if buzzLockedTeam.Some? && !(0 <= buzzLockedTeam.value < |teams|) {
        buzzLockedTeam := None;
        if buzzState == Locked {
          buzzState := Closed;
        }
      }
    }

    /** `from_dict`: rejects a malformed document with the error `Decode` names; otherwise a
        fresh paused state with the decoded fields, no blocks and no status. */
    static method FromDict(data: Json) returns (r: Result<GameState>)
      ensures r.Err? <==> Decode(data).Err?
      ensures r.Err? ==> r.error == Decode(data).error
      ensures r.Ok? ==> fresh(r.value) && fresh(r.value.timer)
      ensures r.Ok? ==> r.value.Snap() == Decode(data).value
      ensures r.Ok? ==> r.value.buzzBlockedTeams == {} && r.value.statusMessage == None && r.value.statusUntilMs == None
      ensures r.Ok? ==> r.value.timer.lastStartMs == None && r.value.timer.Valid()
      ensures r.Ok? ==> r.value.IndicesValid() && |r.value.teams| > 0
      ensures r.Ok? ==> forall k :: 0 <= k < |r.value.teams| ==> CleanName(r.value.teams[k].name)
    {
      if !data.JObj? {
        return Err("GameState data must be an object");
      }
      var teamsRaw := Get(data.fields, "teams", JNull);
      if !teamsRaw.JArr? || |teamsRaw.items| == 0 {
        return Err("GameState.teams must be a non-empty array");
      }
      var teams := ReadTeams(teamsRaw.items);
      if teams.Err? {
        return Err(teams.error);
      }
      assert Decode(data) == Ok(Restore(teams.value, data.fields));
      DecodeSound(data);
      var gs := Rebuild(teams.value, data.fields);
      r := Ok(gs);
    }

    /** The state `from_dict` builds from valid teams: the buzz and timer patches, then
        the sanitising step. */
    static method Rebuild(teams: seq<Team>, fields: map<string, Json>) returns (gs: GameState)
      ensures fresh(gs) && fresh(gs.timer)
      ensures gs.Snap() == Restore(teams, fields)
      ensures gs.buzzBlockedTeams == {} && gs.statusMessage == None && gs.statusUntilMs == None
      ensures gs.timer.lastStartMs == None && gs.timer.Valid()
    {
      gs := new GameState(teams);
      gs.RestoreBuzz(fields);
      gs.RestoreTimer(fields);
      gs.SanitizeLock();
    }
  }

  /** The persistence scenario of the tests: teams Alpha and Beta, 5 points to Alpha, a
      buzz lock on Alpha; the restored state has the same names, scores and lock. */
  method PersistenceScenario() returns (names: seq<string>, scores: seq<int>, state: BuzzState, locked: Option<int>)
    ensures names == ["Alpha", "Beta"] && scores == [5, 0] && state == Locked && locked == Some(0)
  {
    var gs := new GameState([Team("Alpha", 0), Team("Beta", 0)]);
    gs.AddPoints(0, 5, None);
    gs.OpenBuzz(None);
    var ok := gs.Buzz(0, None);
    assert gs.teams == [Team("Alpha", 5), Team("Beta", 0)];
    assert CleanName("Alpha") && CleanName("Beta");
    var saved := gs.Snap();
    assert saved == Snapshot([Team("Alpha", 5), Team("Beta", 0)], Locked, Some(0), Stopwatch, false, 0, None);
    RoundTrip(saved);
    var restored := GameState.FromDict(Encode(saved));
    var s := restored.value;
    names, scores := [s.teams[0].name, s.teams[1].name], [s.teams[0].score, s.teams[1].score];
    state, locked := s.buzzState, s.buzzLockedTeam;
  }
}
