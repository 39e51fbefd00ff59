/**
 * Sequences of team commands issued by one source against one team, and the
 * invariants every such sequence keeps: the island centre never moves, the
 * spawn set never empties, a hook that denies everything freezes the team,
 * and a reset is idempotent.
 */
module Session {
  import opened Types
  import opened TeamCommand
  import Spawns

  /** One `/skyblock team` command; `named` selects the form that names the team explicitly. */
  datatype Command =
    | AddSpawnCmd(pos: Pos)
    | RemoveSpawnCmd(pos: Pos)
    | ResetSpawnsCmd(named: bool)
    | RenameCmd(newName: string, named: bool)
    | ToggleVisitCmd(enabled: bool)
    | ShowVisitCmd

  /** The registry as seen when the caller belongs to `team` and `team`'s name resolves to it. */
  function Around(team: Team): (data: SavedData)
    ensures forall player :: data.teamOf(player) == Some(team)
    ensures data.teamNamed(team.name) == Some(team)
  {
    SavedData(player => Some(team), name => if name == team.name then Some(team) else None)
  }

  /** The team argument of a command's named form. */
  function NameArg(team: Team, named: bool): Option<string> {
    if named then Some(team.name) else None
  }

  /**
   * The team after one command. The island centre is fixed, only the three
   * spawn commands touch the spawn set, and reporting the visit flag changes nothing.
   */
  function Step(env: Env, src: Source, team: Team, cmd: Command): (r: Team)
    ensures r.center == team.center
    ensures r.spawns != team.spawns ==> cmd.AddSpawnCmd? || cmd.RemoveSpawnCmd? || cmd.ResetSpawnsCmd?
    ensures r.name != team.name ==> cmd.RenameCmd?
    ensures r.allowVisits != team.allowVisits ==> cmd.ToggleVisitCmd?
  {
    var data := Around(team);
    match cmd
    case AddSpawnCmd(pos) => AddSpawn(env, src, data, pos).team.GetOr(team)
    case RemoveSpawnCmd(pos) => RemoveSpawn(env, src, data, pos).team.GetOr(team)
    case ResetSpawnsCmd(named) => ResetSpawns(env, src, data, NameArg(team, named)).team.GetOr(team)
    case RenameCmd(newName, named) => RenameTeam(env, src, data, newName, NameArg(team, named)).team.GetOr(team)
    case ToggleVisitCmd(enabled) => ToggleAllowVisit(env, src, data, enabled).team.GetOr(team)
    // Reporting the flag only reads the team.
    case ShowVisitCmd => team
  }

  /** The team after a whole sequence of commands; the island centre never moves. */
  function Run(env: Env, src: Source, team: Team, cmds: seq<Command>): (r: Team)
    ensures r.center == team.center
    decreases |cmds|
  {
    if cmds == [] then team else Run(env, src, Step(env, src, team, cmds[0]), cmds[1..])
  }

  // ---------------------------------------------------------------------------
  // The spawn set never empties
  // ---------------------------------------------------------------------------

  /** Every island centre has at least one default spawn point. */
  ghost predicate DefaultsNonEmpty(env: Env) {
    forall center :: env.initialSpawns(center) != {}
  }

  /** One command keeps a non-empty spawn set non-empty. */
  lemma StepKeepsSpawnsNonEmpty(env: Env, src: Source, team: Team, cmd: Command)
    requires DefaultsNonEmpty(env) && Spawns.KeepsNonEmpty(env.removeSpawn)
    requires team.spawns != {}
    ensures Step(env, src, team, cmd).spawns != {}
  {
  }

  /**
   * Given defaults that are never empty and a removal that never empties a
   * set, no sequence of commands leaves a team without a spawn point.
   */
  lemma {:induction false} RunKeepsSpawnsNonEmpty(env: Env, src: Source, team: Team, cmds: seq<Command>)
    requires DefaultsNonEmpty(env) && Spawns.KeepsNonEmpty(env.removeSpawn)
    requires team.spawns != {}
    ensures Run(env, src, team, cmds).spawns != {}
    decreases |cmds|
  {
    if cmds != [] {
      StepKeepsSpawnsNonEmpty(env, src, team, cmds[0]);
      RunKeepsSpawnsNonEmpty(env, src, Step(env, src, team, cmds[0]), cmds[1..]);
    }
  }

  /** The guarded removal and non-empty defaults keep every team's spawn set non-empty. */
  lemma GuardedRunKeepsSpawnsNonEmpty(env: Env, src: Source, team: Team, cmds: seq<Command>)
    requires DefaultsNonEmpty(env)
    requires forall spawns, pos :: env.removeSpawn(spawns, pos) == Spawns.GuardedRemove(spawns, pos)
    requires team.spawns != {}
    ensures Run(env, src, team, cmds).spawns != {}
  {
    Spawns.GuardedRemoveMeetsContract();
    assert Spawns.KeepsNonEmpty(env.removeSpawn) by {
      forall spawns, pos | spawns != {}
        ensures env.removeSpawn(spawns, pos).1 != {}
      {
        assert env.removeSpawn(spawns, pos) == Spawns.GuardedRemove(spawns, pos);
      }
    }
    RunKeepsSpawnsNonEmpty(env, src, team, cmds);
  }

  // ---------------------------------------------------------------------------
  // A hook that denies everything freezes the team
  // ---------------------------------------------------------------------------

  /** Every hook answers DENY, whoever asks and whatever is proposed. */
  ghost predicate AllDeny(hooks: Hooks) {
    && (forall actor, team, pos :: hooks.onAddSpawn(actor, team, pos).result == Deny)
    && (forall actor, team, pos :: hooks.onRemoveSpawn(actor, team, pos) == Deny)
    && (forall actor, team :: hooks.onResetSpawns(actor, team) == Deny)
    && (forall actor, team, name :: hooks.onRename(actor, team, name).result == Deny)
    && (forall actor, team, enabled :: hooks.onToggleVisits(actor, team, enabled).result == Deny)
  }

  /** Under hooks that deny everything, no command changes the team. */
  lemma DeniedStepChangesNothing(env: Env, src: Source, team: Team, cmd: Command)
    requires AllDeny(env.hooks)
    ensures Step(env, src, team, cmd) == team
  {
  }

  /** Under hooks that deny everything, no sequence of commands changes the team. */
  lemma {:induction false} DeniedRunChangesNothing(env: Env, src: Source, team: Team, cmds: seq<Command>)
    requires AllDeny(env.hooks)
    ensures Run(env, src, team, cmds) == team
    decreases |cmds|
  {
    if cmds != [] {
      DeniedStepChangesNothing(env, src, team, cmds[0]);
      DeniedRunChangesNothing(env, src, team, cmds[1..]);
    }
  }

  // ---------------------------------------------------------------------------
  // Reset and the last spawn point
  // ---------------------------------------------------------------------------

  /** Resetting twice leaves the team as resetting once does. */
  lemma ResetIsIdempotent(env: Env, src: Source, team: Team, named: bool)
    ensures var once := Step(env, src, team, ResetSpawnsCmd(named));
      Step(env, src, once, ResetSpawnsCmd(named)) == once
  {
  }

  /**
   * With the guarded removal and hooks that allow spawn changes: removing the
   * only spawn point of a team fails; after another point is added, removing
   * the first succeeds and leaves just the new one.
   */
  lemma LastSpawnScenario(env: Env, src: Source, team: Team)
    requires forall spawns, pos :: env.removeSpawn(spawns, pos) == Spawns.GuardedRemove(spawns, pos)
    requires forall actor, t, pos :: env.hooks.onAddSpawn(actor, t, pos).result == Allow
    requires forall actor, t, pos :: env.hooks.onRemoveSpawn(actor, t, pos) == Allow
    requires src.inOverworld && src.entity.Some?
    requires team.spawns == {Pos(0, 64, 0)}
    ensures RemoveSpawn(env, src, Around(team), Pos(0, 64, 0)).outcome == Rejected(RemoveRefused)
    ensures Run(env, src, team, [RemoveSpawnCmd(Pos(0, 64, 0)), AddSpawnCmd(Pos(5, 64, 5)), RemoveSpawnCmd(Pos(0, 64, 0))]).spawns
         == {Pos(5, 64, 5)}
  {
  }

  // ---------------------------------------------------------------------------
  // The reported visit flag
  // ---------------------------------------------------------------------------

  /**
   * After `allowVisit <enabled>`, `allowVisit` reports the flag the hook handed
   * back, or the old flag if the hook denied the change.
   */
  lemma ShowReportsToggledFlag(env: Env, src: Source, team: Team, enabled: bool)
    requires src.entity.Some?
    ensures var answer := env.hooks.onToggleVisits(src.entity, team, enabled);
      ShowVisitInformation(src, Around(Step(env, src, team, ToggleVisitCmd(enabled)))).enabled
        == Some(if answer.result != Deny then answer.value else team.allowVisits)
  {
  }
}
