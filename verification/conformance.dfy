/**
 * Each handler is the reference resolution protocol instantiated with its own
 * precondition lookup, hook, local policy and mutation; and the ways in which
 * the handlers differ from one another, stated as properties of the handlers.
 */
module Conformance {
  import opened Types
  import opened Resolver
  import opened TeamCommand
  import Spawns

  // ---------------------------------------------------------------------------
  // Every handler is an instance of the protocol
  // ---------------------------------------------------------------------------

  /** Adding a spawn: the range-checking policy, and a mutation that inserts the requested position. */
  lemma AddSpawnFollowsProtocol(env: Env, src: Source, data: SavedData, pos: Pos)
    ensures AddSpawn(env, src, data, pos) ==
      Protocol(OverworldPlayerTeam(src, data),
               (actor, team) => env.hooks.onAddSpawn(actor, team, pos).result,
               team => AddSpawnPolicy(env, src, team, pos),
               (team: Team) => (true, team.(spawns := team.spawns + {pos})))
  {
  }

  /** Removing a spawn: the plain management policy, and a mutation that may refuse. */
  lemma RemoveSpawnFollowsProtocol(env: Env, src: Source, data: SavedData, pos: Pos)
    ensures RemoveSpawn(env, src, data, pos) ==
      Protocol(OverworldPlayerTeam(src, data),
               (actor, team) => env.hooks.onRemoveSpawn(actor, team, pos),
               team => ManagePolicy(env.config, src),
               (team: Team) => (env.removeSpawn(team.spawns, pos).0, team.(spawns := env.removeSpawn(team.spawns, pos).1)))
  {
  }

  /** Resetting spawns: the plain management policy, and a mutation to the island's default set. */
  lemma ResetSpawnsFollowsProtocol(env: Env, src: Source, data: SavedData, name: Option<string>)
    ensures ResetSpawns(env, src, data, name) ==
      Protocol(ResetTarget(src, data, name),
               (actor, team) => env.hooks.onResetSpawns(actor, team),
               team => ManagePolicy(env.config, src),
               (team: Team) => (true, team.(spawns := env.initialSpawns(team.center))))
  {
  }

  /** Renaming: the operator policy with an explicit old name, no policy at all without one. */
  lemma RenameTeamFollowsProtocol(env: Env, src: Source, data: SavedData, newName: string, oldName: Option<string>)
    ensures RenameTeam(env, src, data, newName, oldName) ==
      var renamer := if oldName.Some? then None else src.entity;
      Protocol(RenameTarget(src, data, oldName),
               (actor, team) => env.hooks.onRename(actor, team, newName).result,
               team => if oldName.Some? then OperatorPolicy(src) else Permit,
               (team: Team) => (true, team.(name := env.hooks.onRename(renamer, team, newName).value)))
  {
  }

  /** Toggling visits: no policy, and a mutation to the flag the hook hands back. */
  lemma ToggleAllowVisitFollowsProtocol(env: Env, src: Source, data: SavedData, enabled: bool)
    ensures ToggleAllowVisit(env, src, data, enabled) ==
      Protocol(PlayerTeam(src, data),
               (actor, team) => env.hooks.onToggleVisits(actor, team, enabled).result,
               team => Permit,
               (team: Team) => (true, team.(allowVisits := env.hooks.onToggleVisits(src.entity, team, enabled).value)))
  {
  }

  // ---------------------------------------------------------------------------
  // Properties of individual handlers
  // ---------------------------------------------------------------------------

  /** A failed precondition gives the same reply whatever the hooks would have said. */
  lemma FailedLookupIgnoresHooks(env: Env, hooks: Hooks, src: Source, data: SavedData, pos: Pos)
    requires !OverworldPlayerTeam(src, data).Found?
    ensures AddSpawn(env.(hooks := hooks), src, data, pos) == AddSpawn(env, src, data, pos)
    ensures RemoveSpawn(env.(hooks := hooks), src, data, pos) == RemoveSpawn(env, src, data, pos)
    ensures AddSpawn(env, src, data, pos).Inert() && RemoveSpawn(env, src, data, pos).Inert()
  {
  }

  /** Under DENY, adding a spawn fails with the team untouched, whatever the configuration and permission level. */
  lemma AddSpawnDenyIgnoresPolicy(env: Env, src: Source, data: SavedData, pos: Pos, config: Config, level: int)
    requires OverworldPlayerTeam(src, data).Found?
    requires env.hooks.onAddSpawn(src.entity, OverworldPlayerTeam(src, data).team, pos).result == Deny
    ensures var r := AddSpawn(env.(config := config), src.(permissionLevel := level), data, pos);
      r.outcome == Rejected(HookDenied) && r.team == Some(OverworldPlayerTeam(src, data).team)
  {
  }

  /**
   * Under DEFAULT the permission failure is reported before the range failure:
   * a source that may not manage spawns is told so even for a point in range or out of it.
   */
  lemma AddSpawnPermissionBeforeRange(env: Env, src: Source, data: SavedData, pos: Pos)
    requires OverworldPlayerTeam(src, data).Found?
    requires env.hooks.onAddSpawn(src.entity, OverworldPlayerTeam(src, data).team, pos).result == Default
    ensures !MayManage(env.config, src) ==> AddSpawn(env, src, data, pos).outcome == Rejected(ModifyDisabled)
    ensures MayManage(env.config, src) && !env.within(pos, OverworldPlayerTeam(src, data).team.center, env.config.modifySpawnRange)
      ==> AddSpawn(env, src, data, pos).outcome == Rejected(TooFarAway)
  {
  }

  /**
   * ALLOW bypasses the range check: with the same configuration, a point out of
   * range of the island centre is added under ALLOW and refused under DEFAULT.
   */
  lemma AllowBypassesRange(env: Env, src: Source, data: SavedData, pos: Pos)
    requires OverworldPlayerTeam(src, data).Found?
    requires !env.within(pos, OverworldPlayerTeam(src, data).team.center, env.config.modifySpawnRange)
    ensures var allowing := env.(hooks := env.hooks.(onAddSpawn := (actor, team, p) => HookAnswer(Allow, p)));
      var r := AddSpawn(allowing, src, data, pos);
      && r.outcome.Succeeded?
      && r.team.Some? && r.team.value.spawns == OverworldPlayerTeam(src, data).team.spawns + {pos}
    ensures var deferring := env.(hooks := env.hooks.(onAddSpawn := (actor, team, p) => HookAnswer(Default, p)));
      var r := AddSpawn(deferring, src, data, pos);
      && !r.outcome.Succeeded?
      && r.team == Some(OverworldPlayerTeam(src, data).team)
  {
  }

  /** The position a hook hands back is ignored: hooks that agree on the decision give the same reply. */
  lemma AddSpawnIgnoresRewrittenPosition(env: Env, src: Source, data: SavedData, pos: Pos,
                                         other: (Option<Player>, Team, Pos) -> HookAnswer<Pos>)
    requires forall actor, team :: other(actor, team, pos).result == env.hooks.onAddSpawn(actor, team, pos).result
    ensures AddSpawn(env.(hooks := env.hooks.(onAddSpawn := other)), src, data, pos) == AddSpawn(env, src, data, pos)
  {
  }

  /** Removing a spawn never consults the distance test. */
  lemma RemoveSpawnHasNoRangeCheck(env: Env, src: Source, data: SavedData, pos: Pos, within: (Pos, Pos, int) -> bool)
    ensures RemoveSpawn(env.(within := within), src, data, pos) == RemoveSpawn(env, src, data, pos)
  {
  }

  /**
   * With removal guarded against taking the last point, a team holding at
   * most one spawn point keeps it, however the hook and policy decide.
   */
  lemma LastSpawnIsNeverRemoved(env: Env, src: Source, data: SavedData, pos: Pos)
    requires forall spawns, p :: env.removeSpawn(spawns, p) == Spawns.GuardedRemove(spawns, p)
    requires OverworldPlayerTeam(src, data).Found?
    requires |OverworldPlayerTeam(src, data).team.spawns| <= 1
    ensures var r := RemoveSpawn(env, src, data, pos);
      !r.outcome.Succeeded? && r.team == Some(OverworldPlayerTeam(src, data).team)
  {
  }

  /** Renaming a named team never looks at the self-management setting. */
  lemma RenameByOperatorIgnoresSelfManage(env: Env, src: Source, data: SavedData, newName: string, oldName: string, selfManage: bool)
    ensures var config := env.config.(selfManageTeam := selfManage);
      RenameTeam(env.(config := config), src, data, newName, Some(oldName)) == RenameTeam(env, src, data, newName, Some(oldName))
  {
  }

  /** Renaming one's own team depends on neither the configuration nor the permission level. */
  lemma RenameOwnTeamHasNoPolicy(env: Env, src: Source, data: SavedData, newName: string, config: Config, level: int)
    ensures RenameTeam(env.(config := config), src.(permissionLevel := level), data, newName, None)
         == RenameTeam(env, src, data, newName, None)
  {
  }

  /**
   * The range check only narrows the management policy: adding a spawn is
   * permitted only where changing spawns is, and for a point in range the two agree.
   */
  lemma AddSpawnPolicyNarrowsManagePolicy(env: Env, src: Source, team: Team, pos: Pos)
    ensures AddSpawnPolicy(env, src, team, pos).Permit? ==> ManagePolicy(env.config, src).Permit?
    ensures env.within(pos, team.center, env.config.modifySpawnRange) ==> AddSpawnPolicy(env, src, team, pos) == ManagePolicy(env.config, src)
  {
  }

  /** A point out of range is refused by the range-checking policy even where changing spawns is permitted. */
  lemma OutOfRangeRefusedThoughManaged(env: Env, src: Source, team: Team, pos: Pos)
    requires env.config.selfManageTeam
    requires !env.within(pos, team.center, env.config.modifySpawnRange)
    ensures ManagePolicy(env.config, src) == Permit
    ensures AddSpawnPolicy(env, src, team, pos) == Refuse(TooFarAway)
  {
  }

  /**
   * The operator policy for renaming disagrees with the management policy
   * exactly when self-management is on and the source is below level 2.
   */
  lemma OperatorPolicyDiffersFromManagePolicy(config: Config, src: Source)
    ensures OperatorPolicy(src).Permit? != ManagePolicy(config, src).Permit?
        <==> config.selfManageTeam && src.permissionLevel < 2
  {
  }

  /** Self-management lets a level-0 source change spawns but not rename a named team. */
  lemma SelfManageDoesNotReachRename(env: Env, src: Source)
    requires env.config.selfManageTeam && src.permissionLevel == 0
    ensures ManagePolicy(env.config, src) == Permit
    ensures OperatorPolicy(src) == Refuse(RenameDisabled)
  {
  }
}
