/**
 * The handlers of the `/skyblock team` sub-commands, each a pure function from
 * the command's inputs to its outcome and the team's state afterwards. They
 * are written in the shape of the Java handlers' `switch` statements; the module
 * `Conformance` shows that each is an instance of `Resolver.Protocol`.
 */
module TeamCommand {
  import opened Types
  import Spawns

  /** True when local policy lets the source change its team's spawns. */
  predicate MayManage(config: Config, src: Source) {
    config.selfManageTeam || src.HasPermissionLevel(2)
  }

  // ---------------------------------------------------------------------------
  // Precondition lookups
  // ---------------------------------------------------------------------------

  /**
   * The calling player and that player's team. A source that is not a player
   * raises before the lookup; a player without a team is rejected.
   */
  function PlayerTeam(src: Source, data: SavedData): (t: Target)
    ensures src.entity.None? ==> t.NotAPlayer?
    ensures src.entity.Some? ==>
      match data.teamOf(src.entity.value)
      case None => t == Absent(NoTeam)
      case Some(team) => t == Found(src.entity, team)
  {
    match src.entity
    case None => NotAPlayer
    case Some(player) =>
      match data.teamOf(player)
      case None => Absent(NoTeam)
      case Some(team) => Found(Some(player), team)
  }

  /** As `PlayerTeam`, but only in the overworld: elsewhere the command is rejected before the player is asked for. */
  function OverworldPlayerTeam(src: Source, data: SavedData): (t: Target)
    ensures !src.inOverworld ==> t == Absent(WrongWorld)
    ensures src.inOverworld ==> t == PlayerTeam(src, data)
  {
    if !src.inOverworld then Absent(WrongWorld) else PlayerTeam(src, data)
  }

  /** The team registered under `name`; no player acts when a team is named explicitly. */
  function NamedTeam(data: SavedData, name: string): (t: Target)
    ensures data.teamNamed(name).None? ==> t == Absent(TeamNotFound)
    ensures data.teamNamed(name).Some? ==> t == Found(None, data.teamNamed(name).value)
  {
    match data.teamNamed(name)
    case None => Absent(TeamNotFound)
    case Some(team) => Found(None, team)
  }

  /**
   * The team whose spawns are reset: the named one, or else the caller's own,
   * where a source that is not a player is rejected rather than raising.
   */
  function ResetTarget(src: Source, data: SavedData, name: Option<string>): (t: Target)
    ensures name.Some? ==> t == NamedTeam(data, name.value)
    ensures name.None? && src.entity.None? ==> t == Absent(NotPlayer)
    ensures name.None? && src.entity.Some? ==> t == PlayerTeam(src, data)
  {
    match name
    case Some(n) => NamedTeam(data, n)
    case None =>
      if src.entity.None? then Absent(NotPlayer) else PlayerTeam(src, data)
  }

  /** The team being renamed: the one named by `oldName`, or else the caller's own. */
  function RenameTarget(src: Source, data: SavedData, oldName: Option<string>): (t: Target)
    ensures oldName.Some? ==> t == NamedTeam(data, oldName.value)
    ensures oldName.None? ==> t == PlayerTeam(src, data)
  {
    match oldName
    case Some(n) => NamedTeam(data, n)
    case None => PlayerTeam(src, data)
  }

  // ---------------------------------------------------------------------------
  // Handlers
  // ---------------------------------------------------------------------------

  /**
   * `spawns add`: adds `pos` to the caller's team. DENY rejects; DEFAULT
   * demands self-management or level 2 and then that `pos` lie in range of the
   * island centre; ALLOW skips both. The position the hook hands back is not used.
   */
  function AddSpawn(env: Env, src: Source, data: SavedData, pos: Pos): (r: Reply)
    ensures var target := OverworldPlayerTeam(src, data);
      !target.Found? ==> r.Inert() && r.outcome == target.Failure()
    ensures var target := OverworldPlayerTeam(src, data);
      target.Found? ==>
        var team := target.team;
        var answer := env.hooks.onAddSpawn(target.actor, team, pos).result;
        && r.hook == Some(HookCall(target.actor, team))
        && (r.outcome.Succeeded? <==>
              answer == Allow
              || (answer == Default && MayManage(env.config, src) && env.within(pos, team.center, env.config.modifySpawnRange)))
        && r.team == Some(if r.outcome.Succeeded? then team.(spawns := team.spawns + {pos}) else team)
  {
    var target := OverworldPlayerTeam(src, data);
    if !target.Found? then Reply(target.Failure(), None, None)
    else
      var team := target.team;
      var asked := Some(HookCall(target.actor, team));
      // The hook's answer also carries a position; the handler never reads it.
      match env.hooks.onAddSpawn(target.actor, team, pos).result
      case Deny => Reply(Rejected(HookDenied), Some(team), asked)
      case Default =>
        if !env.config.selfManageTeam && !src.HasPermissionLevel(2) then
          Reply(Rejected(ModifyDisabled), Some(team), asked)
        // The distance is measured from the island centre itself: the
        // half-template offset the handler computes is discarded.
        else if !env.within(pos, team.center, env.config.modifySpawnRange) then
          Reply(Rejected(TooFarAway), Some(team), asked)
        else
          Reply(Succeeded, Some(team.(spawns := team.spawns + {pos})), asked)
      case Allow => Reply(Succeeded, Some(team.(spawns := team.spawns + {pos})), asked)
  }

  /** The tail of `spawns remove` once permission is settled: ask the team to remove the point. */
  function RemoveFrom(env: Env, team: Team, pos: Pos, asked: Option<HookCall>): (r: Reply)
    ensures r.team == Some(team.(spawns := env.removeSpawn(team.spawns, pos).1))
    ensures r.outcome.Succeeded? <==> env.removeSpawn(team.spawns, pos).0
    ensures !r.outcome.Succeeded? ==> r.outcome == Rejected(RemoveRefused)
    ensures r.hook == asked
  {
    var removal := env.removeSpawn(team.spawns, pos);
    var after := team.(spawns := removal.1);
    if removal.0 then Reply(Succeeded, Some(after), asked)
    else Reply(Rejected(RemoveRefused), Some(after), asked)
  }

  /**
   * `spawns remove`: removes `pos` from the caller's team. DENY rejects;
   * DEFAULT demands self-management or level 2 and has no range check; ALLOW
   * goes straight on. The removal itself may still refuse, and the command
   * succeeds exactly when it does not.
   */
  function RemoveSpawn(env: Env, src: Source, data: SavedData, pos: Pos): (r: Reply)
    ensures var target := OverworldPlayerTeam(src, data);
      !target.Found? ==> r.Inert() && r.outcome == target.Failure()
    ensures var target := OverworldPlayerTeam(src, data);
      target.Found? ==>
        var team := target.team;
        var answer := env.hooks.onRemoveSpawn(target.actor, team, pos);
        var permitted := answer == Allow || (answer == Default && MayManage(env.config, src));
        var removal := env.removeSpawn(team.spawns, pos);
        && r.hook == Some(HookCall(target.actor, team))
        && (r.outcome.Succeeded? <==> permitted && removal.0)
        && r.team == Some(if permitted then team.(spawns := removal.1) else team)
        && (Spawns.KeepsOnRefusal(env.removeSpawn) && !r.outcome.Succeeded? ==> r.team == Some(team))
  {
    var target := OverworldPlayerTeam(src, data);
    if !target.Found? then Reply(target.Failure(), None, None)
    else
      var team := target.team;
      var asked := Some(HookCall(target.actor, team));
      match env.hooks.onRemoveSpawn(target.actor, team, pos)
      case Deny => Reply(Rejected(HookDenied), Some(team), asked)
      case Default =>
        if !env.config.selfManageTeam && !src.HasPermissionLevel(2) then
          Reply(Rejected(ModifyDisabled), Some(team), asked)
        else
          // No break: control falls into the ALLOW arm, which only breaks.
          RemoveFrom(env, team, pos, asked)
      case Allow => RemoveFrom(env, team, pos, asked)
  }

  /**
   * `spawns reset [team]`: replaces the team's spawns with the default set for
   * its island centre. The named form passes no player to the hook. DEFAULT
   * demands self-management or level 2.
   */
  function ResetSpawns(env: Env, src: Source, data: SavedData, name: Option<string>): (r: Reply)
    ensures var target := ResetTarget(src, data, name);
      !target.Found? ==> r.Inert() && r.outcome == target.Failure()
    ensures var target := ResetTarget(src, data, name);
      target.Found? ==>
        var team := target.team;
        var answer := env.hooks.onResetSpawns(target.actor, team);
        && r.hook == Some(HookCall(if name.Some? then None else src.entity, team))
        && (r.outcome.Succeeded? <==> answer == Allow || (answer == Default && MayManage(env.config, src)))
        && r.team == Some(if r.outcome.Succeeded? then team.(spawns := env.initialSpawns(team.center)) else team)
  {
    var target := ResetTarget(src, data, name);
    if !target.Found? then Reply(target.Failure(), None, None)
    else
      var team := target.team;
      var asked := Some(HookCall(target.actor, team));
      match env.hooks.onResetSpawns(target.actor, team)
      case Deny => Reply(Rejected(HookDenied), Some(team), asked)
      case Default =>
        if !env.config.selfManageTeam && !src.HasPermissionLevel(2) then
          Reply(Rejected(ModifyDisabled), Some(team), asked)
        else
          Reply(Succeeded, Some(team.(spawns := env.initialSpawns(team.center))), asked)
      case Allow => Reply(Succeeded, Some(team.(spawns := env.initialSpawns(team.center))), asked)
  }

  /**
   * `rename <name> [team]`. With an explicit old name no player is passed to
   * the hook and DEFAULT demands level 2, whatever the self-management setting;
   * on the caller's own team only DENY blocks. Either way the team takes the
   * name the hook hands back.
   */
  function RenameTeam(env: Env, src: Source, data: SavedData, newName: string, oldName: Option<string>): (r: Reply)
    ensures var target := RenameTarget(src, data, oldName);
      !target.Found? ==> r.Inert() && r.outcome == target.Failure()
    ensures var target := RenameTarget(src, data, oldName);
      target.Found? ==>
        var team := target.team;
        var answer := env.hooks.onRename(target.actor, team, newName);
        && r.hook == Some(HookCall(if oldName.Some? then None else src.entity, team))
        && (r.outcome.Succeeded? <==>
              answer.result == Allow
              || (answer.result == Default && (oldName.None? || src.HasPermissionLevel(2))))
        && r.team == Some(if r.outcome.Succeeded? then team.(name := answer.value) else team)
  {
    var target := RenameTarget(src, data, oldName);
    if !target.Found? then Reply(target.Failure(), None, None)
    else
      var team := target.team;
      var asked := Some(HookCall(target.actor, team));
      var answer := env.hooks.onRename(target.actor, team, newName);
      var renamed := Reply(Succeeded, Some(team.(name := answer.value)), asked);
      if oldName.Some? then
        match answer.result
        case Deny => Reply(Rejected(HookDenied), Some(team), asked)
        case Default =>
          if !src.HasPermissionLevel(2) then Reply(Rejected(RenameDisabled), Some(team), asked)
          else renamed
        case Allow => renamed
      else
        match answer.result
        case Deny => Reply(Rejected(HookDenied), Some(team), asked)
        case Default => renamed
        case Allow => renamed
  }

  /**
   * `allowVisit <enabled>`: only DENY blocks; otherwise the flag becomes the
   * value the hook hands back, which need not be the one requested.
   */
  function ToggleAllowVisit(env: Env, src: Source, data: SavedData, enabled: bool): (r: Reply)
    ensures var target := PlayerTeam(src, data);
      !target.Found? ==> r.Inert() && r.outcome == target.Failure()
    ensures var target := PlayerTeam(src, data);
      target.Found? ==>
        var team := target.team;
        var answer := env.hooks.onToggleVisits(target.actor, team, enabled);
        && r.hook == Some(HookCall(src.entity, team))
        && (r.outcome.Succeeded? <==> answer.result != Deny)
        && r.team == Some(if r.outcome.Succeeded? then team.(allowVisits := answer.value) else team)
  {
    var target := PlayerTeam(src, data);
    if !target.Found? then Reply(target.Failure(), None, None)
    else
      var team := target.team;
      var asked := Some(HookCall(target.actor, team));
      var answer := env.hooks.onToggleVisits(target.actor, team, enabled);
      if answer.result == Deny then Reply(Rejected(HookDenied), Some(team), asked)
      else Reply(Succeeded, Some(team.(allowVisits := answer.value)), asked)
  }

  /** What `allowVisit` without an argument reports: the outcome and, on success, the caller's team's flag. */
  datatype VisitStatus = VisitStatus(outcome: Outcome, enabled: Option<bool>)

  /** `allowVisit`: reports the caller's team's visit flag; it consults no hook and has no team state to return. */
  function ShowVisitInformation(src: Source, data: SavedData): (r: VisitStatus)
    ensures var target := PlayerTeam(src, data);
      && (r.outcome.Succeeded? <==> target.Found?)
      && (target.Found? ==> r.enabled == Some(target.team.allowVisits))
      && (!target.Found? ==> r.enabled.None? && r.outcome == target.Failure())
  {
    var target := PlayerTeam(src, data);
    if !target.Found? then VisitStatus(target.Failure(), None)
    else VisitStatus(Succeeded, Some(target.team.allowVisits))
  }
}
