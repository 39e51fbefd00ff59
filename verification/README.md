# Permission resolution in the `/skyblock team` commands

This project models the decision logic of the `/skyblock team` sub-commands
of SkyblockBuilder. The commands are `spawns add`, `spawns remove`,
`spawns reset [team]`, `rename <name> [team]`, `allowVisit <enabled>` and
`allowVisit`. The five commands that change a team (all but `allowVisit`
without an argument) follow the same steps:

1. Check the preconditions: the caller being a player, and the caller's team
   or the named team existing. Only `spawns add` and `spawns remove` also
   require the caller to be in the overworld, and they check it first.
2. Ask an extension hook. The hook answers ALLOW, DENY or DEFAULT, sometimes
   together with a rewritten value.
3. Under DEFAULT, apply local policy: the self-manage setting, operator level 2,
   and for new spawns a range check.
4. Apply the mutation. Spawn removal can still refuse at this step.

Each of these five handlers is a pure function. It takes the command's inputs
and returns a `Reply` with three parts:

- the outcome: `Succeeded` (returns 1), `Rejected(reason)` (returns 0), or
  `PlayerRequired` (the exception `asPlayer()` raises for a source that is not a player);
- the team's state afterwards;
- the hook call the handler made, if any.

`allowVisit` without an argument only looks up the caller's team. It asks no
hook, applies no policy and changes nothing, and it returns a `VisitStatus`:
the outcome together with the team's visit flag, if one was found.

Modules:

- `Types`: positions, players, teams, command sources, hook answers and replies.
- `Spawns`: the contract assumed of the team's spawn removal, and `GuardedRemove`, a removal that keeps the last point.
- `Resolver`: the resolution protocol written once as a reference. `Protocol` takes a lookup, a hook, a policy and a mutation.
- `TeamCommand`: the handlers, written in the shape of the Java handlers' `switch` statements. This includes the fall-through from DEFAULT into ALLOW in `removeSpawn`.
- `Conformance`: proofs that each handler is `Protocol` with its own policy and mutation, plus the ways the handlers differ from one another.
- `Session`: sequences of commands against one team, and the invariants they keep.

Inputs the handlers cannot see are parameters of an `Env` record:

- the hooks (one function per operation);
- `selfManageTeam` and `modifySpawnRange`;
- the distance test `within(pos, centre, range)`, which stands for `BlockPos.withinDistance`;
- `initialSpawns(centre)`, which stands for `SkyblockSavedData.initialPossibleSpawns`;
- `removeSpawn(set, pos)`, which stands for `Team.removePossibleSpawn` and answers whether it removed the point together with the resulting set.

The registry lookups `getTeamFromPlayer` and `getTeam` are the two functions of
a `SavedData` record.

Two details of the source are kept as written:

- In `addSpawn` the range is measured from the island centre itself. The handler computes `center.add(half the template size)`, but `add` returns a new position and the result is discarded, so the offset never applies (TeamCommand.java:136-139).
- In `addSpawn` the position the hook hands back is never read. The command's own `pos` is what gets added.

## Model

| member | source | states |
|---|---|---|
| `TeamCommand.AddSpawn` | src/main/java/de/melanx/skyblockbuilder/commands/TeamCommand.java:108-151 | A failed precondition asks no hook and touches no team. DENY never adds. DEFAULT adds only under self-management or level 2 and with the point in range of the unshifted island centre. ALLOW always adds. On success the spawns are the old set plus `pos`. On failure the team is unchanged. |
| `TeamCommand.RemoveSpawn` | src/main/java/de/melanx/skyblockbuilder/commands/TeamCommand.java:153-195 | A failed precondition asks no hook. The request is permitted under ALLOW, or under DEFAULT with self-management or level 2, with no range check. It succeeds exactly when it is permitted and the removal succeeds. With a removal that keeps the set on refusal, every failure leaves the team unchanged. |
| `TeamCommand.ResetSpawns` | src/main/java/de/melanx/skyblockbuilder/commands/TeamCommand.java:197-244 | The named form passes no player to the hook. DEFAULT needs self-management or level 2. On success the spawns are exactly the island centre's defaults, whatever they were before. On failure the team is unchanged. |
| `TeamCommand.RenameTeam` | src/main/java/de/melanx/skyblockbuilder/commands/TeamCommand.java:246-298 | The operator form passes no player and under DEFAULT needs level 2 only. The own-team form succeeds unless the hook says DENY. On success the team takes the name the hook hands back. On failure it is unchanged. |
| `TeamCommand.ToggleAllowVisit` | src/main/java/de/melanx/skyblockbuilder/commands/TeamCommand.java:86-106 | It succeeds exactly when the hook does not say DENY. The flag becomes the hook's value, not necessarily the requested one. With no team there is no hook call and no change. |
| `TeamCommand.ShowVisitInformation` | src/main/java/de/melanx/skyblockbuilder/commands/TeamCommand.java:71-84 | It succeeds exactly when the caller has a team and then reports that team's flag. Otherwise it reports nothing. It has no team state to return. `Session.ShowReportsToggledFlag` ties it to `toggleAllowVisit`. |
| `Resolver.Protocol` | src/main/java/de/melanx/skyblockbuilder/commands/TeamCommand.java:126-148 | This is the reference resolution. A failed lookup is inert. Otherwise the hook is asked once. A refusal keeps the team. A permitted request ends with the mutation's team, and succeeds exactly when the mutation took effect. When the team is found, the return code is 1 exactly when the request is permitted and the mutation took effect, and 0 otherwise. |
| `Spawns.GuardedRemove` | src/main/java/de/melanx/skyblockbuilder/commands/TeamCommand.java:184-190 | Removal succeeds exactly when the point is present and another remains. Success drops just that point. Refusal keeps the set. It never empties a non-empty set. |
| `Spawns.GuardedRemoveMeetsContract` | src/main/java/de/melanx/skyblockbuilder/commands/TeamCommand.java:184-190 | The guarded removal keeps the set on refusal and never empties it. |
| `Conformance.AddSpawnFollowsProtocol` | src/main/java/de/melanx/skyblockbuilder/commands/TeamCommand.java:112-148 | `addSpawn` is the protocol with the range-checking policy and a mutation that inserts the requested position. |
| `Conformance.RemoveSpawnFollowsProtocol` | src/main/java/de/melanx/skyblockbuilder/commands/TeamCommand.java:157-194 | `removeSpawn`, including its DEFAULT-to-ALLOW fall-through, is the protocol with the management policy and the team's own removal. |
| `Conformance.ResetSpawnsFollowsProtocol` | src/main/java/de/melanx/skyblockbuilder/commands/TeamCommand.java:203-243 | `resetSpawns` is the protocol with the management policy and a reset to the island's defaults. |
| `Conformance.RenameTeamFollowsProtocol` | src/main/java/de/melanx/skyblockbuilder/commands/TeamCommand.java:251-294 | `renameTeam` is the protocol. It uses the operator policy with an old name and no policy without one, and applies the hook's name. |
| `Conformance.ToggleAllowVisitFollowsProtocol` | src/main/java/de/melanx/skyblockbuilder/commands/TeamCommand.java:91-105 | `toggleAllowVisit` is the protocol with no policy and the hook's flag as the new value. |
| `Conformance.FailedLookupIgnoresHooks` | src/main/java/de/melanx/skyblockbuilder/commands/TeamCommand.java:112-124 | When the precondition fails, adding or removing a spawn gives the same inert reply under any hooks. |
| `Conformance.AddSpawnDenyIgnoresPolicy` | src/main/java/de/melanx/skyblockbuilder/commands/TeamCommand.java:127-130 | Under DENY, adding a spawn fails with `HookDenied` and an unchanged team for every configuration and permission level. |
| `Conformance.AddSpawnPermissionBeforeRange` | src/main/java/de/melanx/skyblockbuilder/commands/TeamCommand.java:131-142 | Under DEFAULT, a source that may not manage spawns gets `ModifyDisabled` whatever the distance. Only one that may manage them can get `TooFarAway`. |
| `Conformance.AllowBypassesRange` | src/main/java/de/melanx/skyblockbuilder/commands/TeamCommand.java:131-148 | With the same configuration, an out-of-range point is added under ALLOW and refused, team unchanged, under DEFAULT. |
| `Conformance.AddSpawnIgnoresRewrittenPosition` | src/main/java/de/melanx/skyblockbuilder/commands/TeamCommand.java:126-148 | Two hooks that agree on the decision give identical replies, whatever positions they hand back. |
| `Conformance.RemoveSpawnHasNoRangeCheck` | src/main/java/de/melanx/skyblockbuilder/commands/TeamCommand.java:171-182 | Removing a spawn gives the same reply under any distance test. |
| `Conformance.LastSpawnIsNeverRemoved` | src/main/java/de/melanx/skyblockbuilder/commands/TeamCommand.java:184-191 | With the guarded removal, a team with at most one spawn point keeps it under every hook answer and policy. |
| `Conformance.RenameByOperatorIgnoresSelfManage` | src/main/java/de/melanx/skyblockbuilder/commands/TeamCommand.java:258-273 | Renaming a named team gives the same reply whatever the self-manage setting. |
| `Conformance.RenameOwnTeamHasNoPolicy` | src/main/java/de/melanx/skyblockbuilder/commands/TeamCommand.java:283-293 | Renaming one's own team gives the same reply whatever the configuration and permission level. |
| `Conformance.AddSpawnPolicyNarrowsManagePolicy` | src/main/java/de/melanx/skyblockbuilder/commands/TeamCommand.java:131-143 | Adding a spawn is permitted only where the management policy permits. For a point in range of the island centre, the two policies give the same verdict. |
| `Conformance.OutOfRangeRefusedThoughManaged` | src/main/java/de/melanx/skyblockbuilder/commands/TeamCommand.java:131-143 | With self-management on, a point out of range is refused with `TooFarAway` even though the management policy permits. So the range check is a real narrowing. |
| `Conformance.OperatorPolicyDiffersFromManagePolicy` | src/main/java/de/melanx/skyblockbuilder/commands/TeamCommand.java:262-268 | Renaming a named team and changing spawns disagree on permission exactly when self-management is on and the level is below 2. |
| `Conformance.SelfManageDoesNotReachRename` | src/main/java/de/melanx/skyblockbuilder/commands/TeamCommand.java:262-268 | With self-management on, a level-0 source may change spawns but is refused `RenameDisabled` when renaming a named team. |
| `Session.Step` | src/main/java/de/melanx/skyblockbuilder/commands/TeamCommand.java:71-298 | One command never moves the island centre. Only the spawn commands change spawns. Only rename changes the name. Only toggling changes the visit flag. |
| `Session.Run` | src/main/java/de/melanx/skyblockbuilder/commands/TeamCommand.java:71-298 | No sequence of commands moves the island centre. |
| `Session.StepKeepsSpawnsNonEmpty` | src/main/java/de/melanx/skyblockbuilder/commands/TeamCommand.java:148-241 | Suppose the defaults are non-empty and removal never empties a set. Then one command keeps a non-empty spawn set non-empty. |
| `Session.RunKeepsSpawnsNonEmpty` | src/main/java/de/melanx/skyblockbuilder/commands/TeamCommand.java:148-241 | Under the same assumptions, no sequence of commands leaves a team without a spawn point. |
| `Session.GuardedRunKeepsSpawnsNonEmpty` | src/main/java/de/melanx/skyblockbuilder/commands/TeamCommand.java:184-241 | With the guarded removal and non-empty defaults, the spawn set never empties. |
| `Session.DeniedStepChangesNothing` | src/main/java/de/melanx/skyblockbuilder/commands/TeamCommand.java:98-100 | When every hook answers DENY, no single command changes the team. |
| `Session.DeniedRunChangesNothing` | src/main/java/de/melanx/skyblockbuilder/commands/TeamCommand.java:127-130 | When every hook answers DENY, no sequence of commands changes the team. |
| `Session.ResetIsIdempotent` | src/main/java/de/melanx/skyblockbuilder/commands/TeamCommand.java:226-243 | Resetting twice leaves the team exactly as resetting once does. |
| `Session.LastSpawnScenario` | src/main/java/de/melanx/skyblockbuilder/commands/TeamCommand.java:148-194 | Removing the only point (0,64,0) is refused. After adding (5,64,5), removing (0,64,0) succeeds and leaves {(5,64,5)}. |
| `Session.ShowReportsToggledFlag` | src/main/java/de/melanx/skyblockbuilder/commands/TeamCommand.java:71-105 | After `allowVisit <enabled>` by a player, `allowVisit` reports the flag the hook handed back. If the hook said DENY, it reports the old flag. |

## Left out

- Chat feedback, translation keys and styling are not modelled: they are presentation only. The handlers return outcome codes and rejection reasons instead.
- The Brigadier command tree in `register` is not modelled. The model starts at the handler calls, and each handler's optional argument becomes an `Option` parameter.
- The `SUGGEST_POSITIONS` tab completion is not modelled because it is a user-interface feature.
- `SkyblockSavedData`, `SkyblockHooks` and `TemplateLoader` are not part of this model. The methods the handlers call on them are parameters, as described above.
- `Team` is not part of this model either. Three of its methods are modelled directly: `addPossibleSpawn` as set union (`spawns + {pos}`), `setPossibleSpawns` as replacing the spawn set, and `setAllowVisit` as assigning the flag. `removePossibleSpawn` is the `removeSpawn` parameter.
- `SkyblockSavedData.renameTeam`'s own checks, such as name conflicts and registry re-keying, are not modelled. Renaming is modelled as setting the team's name to the given string.
- `BlockPos.withinDistance` is floating-point library arithmetic, so it is the abstract `within` parameter.
- The registry-wide operations (create, delete, join, leave, delete-empty), the dirty flag and persistence are not modelled. They live in `SkyblockSavedData`, which is not part of this model.
- Name case-insensitivity is not modelled. `Session.Around` resolves only the team's exact name.
- EventListener.java, ConfigHandler.java and SkyblockInvitationEvent.java are not modelled. They hold event wiring, teleportation, world edits and configuration I/O, and no decision logic of these commands.
- `toggleAllowVisit`'s success message names the requested flag rather than the one stored. That affects presentation only.
- `removeSpawn`'s DENY message mentions the spawn count. That affects presentation only.
- The handlers do not all apply the same local policy under DEFAULT. The model follows each handler as written:
  - renaming a named team ignores self-management;
  - renaming one's own team has no policy at all;
  - removing a spawn has no range check.
- Spawn removal is refused for an absent point or for the last remaining point. That guard belongs to `Team`, whose source is not part of this model. The handlers therefore take any removal. The guard is `Spawns.GuardedRemove`, and the non-emptiness results assume it, or the weaker `KeepsNonEmpty` contract. They also assume `DefaultsNonEmpty`: every island centre has at least one default spawn point. The defaults come from a user-editable configuration list (ConfigHandler.java:62-71), so an empty list is possible. With one, a reset would empty the spawn set.
