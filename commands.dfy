/** The command vocabulary of src/controllers/commands.py. */
module Commands {
  import opened Wrappers

  datatype CommandType =
    | Next | Prev | Quit
    | SelectTeam | Award | Penalty
    | BuzzOpen | BuzzReset | Buzz | BuzzFail
    | TimerToggle | TimerReset
    | ToggleRoster | ToggleHelp
    | ToggleReveal
    | Save | Load

  /** A command and its optional team index (set for SELECT_TEAM and BUZZ). */
  datatype Command = Command(kind: CommandType, teamIndex: Option<int>)

  /** A command without a team index. */
  function Plain(kind: CommandType): Command
  {
    Command(kind, None)
  }
}
