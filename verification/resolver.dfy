/**
 * The permission-resolution protocol shared by the team command handlers,
 * written once as a reference: the precondition lookup decides whether there
 * is anything to act on; the hook is then asked once; DENY rejects, ALLOW
 * skips local policy, DEFAULT defers to it; and only a permitted request
 * reaches the mutation, which may still refuse.
 */
module Resolver {
  import opened Types

  /** The verdict of a policy or of the whole resolution. */
  datatype Verdict = Permit | Refuse(reason: Reason)

  /** Combines a hook's answer with the local policy that DEFAULT defers to. */
  function Resolve(hook: HookResult, policy: Verdict): Verdict {
    match hook
    case Deny => Refuse(HookDenied)
    case Allow => Permit
    case Default => policy
  }

  /** Self-management, or operator level 2, is what local policy demands of spawn changes. */
  function ManagePolicy(config: Config, src: Source): (v: Verdict)
    ensures v.Permit? <==> config.selfManageTeam || src.permissionLevel >= 2
    ensures v.Refuse? ==> v.reason == ModifyDisabled
  {
    if !config.selfManageTeam && !src.HasPermissionLevel(2) then Refuse(ModifyDisabled) else Permit
  }

  /**
   * Adding a spawn point also demands that the point lie within range of the
   * island centre; the permission failure is reported in preference to the range failure.
   */
  function AddSpawnPolicy(env: Env, src: Source, team: Team, pos: Pos): (v: Verdict)
    ensures v.Permit? <==> ManagePolicy(env.config, src).Permit? && env.within(pos, team.center, env.config.modifySpawnRange)
    ensures ManagePolicy(env.config, src).Refuse? ==> v == ManagePolicy(env.config, src)
    ensures v.Refuse? && ManagePolicy(env.config, src).Permit? ==> v.reason == TooFarAway
  {
    match ManagePolicy(env.config, src)
    case Refuse(reason) => Refuse(reason)
    case Permit => if env.within(pos, team.center, env.config.modifySpawnRange) then Permit else Refuse(TooFarAway)
  }

  /** Renaming some other team by name is an operator action: level 2, whatever the self-management setting. */
  function OperatorPolicy(src: Source): (v: Verdict)
    ensures v.Permit? <==> src.permissionLevel >= 2
    ensures v.Refuse? ==> v.reason == RenameDisabled
  {
    if src.HasPermissionLevel(2) then Permit else Refuse(RenameDisabled)
  }

  /**
   * The reference resolution of one request. `hook` is the hook's answer for
   * the actor and team found, `policy` the local policy for that team, and
   * `apply` the mutation, which answers whether it took effect together with
   * the team afterwards.
   */
  function Protocol(
    target: Target,
    hook: (Option<Player>, Team) -> HookResult,
    policy: Team -> Verdict,
    apply: Team -> (bool, Team)): (r: Reply)
    ensures !target.Found? ==> r.Inert() && r.outcome == target.Failure()
    ensures target.Found? ==> r.hook == Some(HookCall(target.actor, target.team))
    ensures target.Found? ==>
      var verdict := Resolve(hook(target.actor, target.team), policy(target.team));
      && (verdict.Refuse? ==> r.outcome == Rejected(verdict.reason) && r.team == Some(target.team))
      && (verdict.Permit? ==> r.team == Some(apply(target.team).1) && (r.outcome.Succeeded? <==> apply(target.team).0))
    ensures r.outcome.Rejected? ==> r.outcome.reason == RemoveRefused || r.team == target.Looked()
    ensures target.Found? ==>
      && !r.outcome.PlayerRequired?
      && r.outcome.Code() == (if Resolve(hook(target.actor, target.team), policy(target.team)).Permit? && apply(target.team).0 then 1 else 0)
  {
    if !target.Found? then Reply(target.Failure(), None, None)
    else
      var actor, team := target.actor, target.team;
      var asked := Some(HookCall(actor, team));
      match Resolve(hook(actor, team), policy(team))
      case Refuse(reason) => Reply(Rejected(reason), Some(team), asked)
      case Permit =>
        var result := apply(team);
        Reply(if result.0 then Succeeded else Rejected(RemoveRefused), Some(result.1), asked)
  }
}
