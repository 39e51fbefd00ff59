/**
 * Value types shared by the model of the `/skyblock team` command handlers:
 * positions, players, teams, the command source, the hook answers and the
 * replies a handler produces.
 */
module Types {

  /** The conventional Some/None datatype, standing in for Java's nullable references. */
  datatype Option<+T> = None | Some(value: T) {

    /** The wrapped value, or `default` when there is none. */
    function GetOr(default: T): T {
      match this
      case Some(v) => v
      case None => default
    }
  }

  /** A block position with three integer coordinates. */
  datatype Pos = Pos(x: int, y: int, z: int)

  /** A player identity; two players are the same player when their ids agree. */
  datatype Player = Player(id: nat)

  /** The three answers a hook can give: override to allow, override to deny, or defer to local policy. */
  datatype HookResult = Allow | Deny | Default

  /** A hook answer that also carries a proposed value, which the hook may have rewritten. */
  datatype HookAnswer<T> = HookAnswer(result: HookResult, value: T)

  /**
   * The state of one team as the command handlers see it: its name, the centre
   * of its island, its set of possible spawn points and whether visitors are allowed.
   */
  datatype Team = Team(name: string, center: Pos, spawns: set<Pos>, allowVisits: bool)

  /**
   * Who issued the command: the player behind it, if the issuing entity is a
   * player; whether it was issued in the overworld; and its permission level.
   */
  datatype Source = Source(entity: Option<Player>, inOverworld: bool, permissionLevel: int) {

    /** True when the source may use commands of the given operator level. */
    predicate HasPermissionLevel(level: int) {
      permissionLevel >= level
    }
  }

  /** The two configuration values the handlers read. */
  datatype Config = Config(selfManageTeam: bool, modifySpawnRange: int)

  /**
   * The extension hooks, one per operation. Each receives the acting player
   * (None where the handler passes no player), the team, and the proposed value.
   */
  datatype Hooks = Hooks(
    onAddSpawn: (Option<Player>, Team, Pos) -> HookAnswer<Pos>,
    onRemoveSpawn: (Option<Player>, Team, Pos) -> HookResult,
    onResetSpawns: (Option<Player>, Team) -> HookResult,
    onRename: (Option<Player>, Team, string) -> HookAnswer<string>,
    onToggleVisits: (Option<Player>, Team, bool) -> HookAnswer<bool>)

  /** The team registry as seen through its two lookups: by member and by name. */
  datatype SavedData = SavedData(teamOf: Player -> Option<Team>, teamNamed: string -> Option<Team>)

  /**
   * Everything a handler consults besides its arguments: configuration, hooks,
   * the distance test, the default spawn set of an island centre, and the
   * team's spawn-removal operation, which answers whether it removed the
   * point together with the resulting set.
   */
  datatype Env = Env(
    config: Config,
    hooks: Hooks,
    within: (Pos, Pos, int) -> bool,
    initialSpawns: Pos -> set<Pos>,
    removeSpawn: (set<Pos>, Pos) -> (bool, set<Pos>))

  /** Why a command was rejected; each corresponds to a distinct message of the handlers. */
  datatype Reason =
    | WrongWorld      // not issued in the overworld
    | NoTeam          // the calling player has no team
    | NotPlayer       // the source is not a player where a player is needed
    | TeamNotFound    // no team has the given name
    | HookDenied      // the hook answered DENY
    | ModifyDisabled  // local policy forbids changing spawns
    | RenameDisabled  // local policy forbids renaming another team
    | TooFarAway      // the new spawn lies outside the allowed range
    | RemoveRefused   // the team refused to remove the spawn point

  /**
   * How a command ended. `Succeeded` returns 1 and `Rejected` returns 0;
   * `PlayerRequired` is the exception raised when a player-only step meets a
   * source that is not a player, so no code is returned at all.
   */
  datatype Outcome = Succeeded | Rejected(reason: Reason) | PlayerRequired {

    /** The handler's integer return value. */
    function Code(): int
      requires !PlayerRequired?
    {
      if Succeeded? then 1 else 0
    }
  }

  /** A record of the single hook call a handler made: who acted and on which team. */
  datatype HookCall = HookCall(actor: Option<Player>, team: Team)

  /**
   * What a mutating handler produced: its outcome, the state of the team it
   * acted on afterwards (None if no team was found), and the hook call it made
   * (None if it never consulted a hook).
   */
  datatype Reply = Reply(outcome: Outcome, team: Option<Team>, hook: Option<HookCall>) {

    /** The command failed before any hook was consulted and touched no team. */
    predicate Inert() {
      !outcome.Succeeded? && team.None? && hook.None?
    }
  }

  /**
   * The outcome of the precondition checks: the acting player and the team
   * found; a lookup that failed for the given reason; or a player-only step
   * reached by a source that is not a player.
   */
  datatype Target = Found(actor: Option<Player>, team: Team) | Absent(reason: Reason) | NotAPlayer {

    /** The team found, if any. */
    function Looked(): Option<Team> {
      if Found? then Some(team) else None
    }

    /** How the command ends when the checks fail. */
    function Failure(): (o: Outcome)
      requires !Found?
      ensures !o.Succeeded?
    {
      if NotAPlayer? then PlayerRequired else Rejected(reason)
    }
  }
}
