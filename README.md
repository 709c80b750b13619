# OpenNERO agent environments in Dafny

This project models the per-tick agent environments of OpenNERO's NERO
team-combat mod and of its Roomba sandbox, and proves properties of those
models.

A NERO environment keeps a record per agent. The record holds the pose
`(x, y, heading)`, the previous pose, the start position and rotation, and
two damage counters. It also keeps a registry from team id to that team's
agents. Each tick it:

- looks an agent up, creating its record on first contact;
- chooses the agent's target, the foe in a 2-degree cone with the smallest
  cost `fd / cos(radians(fh * 20))`;
- finds the nearest other agent of a team, skipping the agent itself;
- moves the agent;
- drains the damage it took into its running total;
- packs a multi-dimensional fitness vector in the order of
  `FITNESS_DIMENSIONS`;
- writes the observations about its team's centre and its target;
- decides whether its episode is over.

Three variants of the environment differ in these rules, so each is its own
module:

- `Nero`: mods/NERO/NeroEnvironment.py;
- `NeroRtneat`: branches/rtneat/mods/NERO/NeroEnvironment.py;
- `NeroFactory2`: branches/factory2/mods/NERO/NeroEnvironment.py.

They share `NeroCommon`, which holds the registry, the kinematics, the
fitness dimensions, `nearest` and the episode rule. They also share
`ConeTarget`, the two-pass targeting of the two branches, and `Scan`, the
running-minimum loops.

The Roomba sandbox (`Roomba`, branches/nero/mods/Roomba/module.py) keeps a
map from grid cell to marker object id with mark and unmark semantics. Its
environment:

- counts steps and retires an agent once the step allowance is spent;
- backs the agent off the walls;
- vacuums crumbs, decrementing the crumb count;
- writes the crumb sensor blocks;
- writes quadrant-binned distance sensors with a `-1` "nothing seen"
  sentinel.

How the model is built:

- **Records are values.** State records are datatype values kept in a
  `map` from agent id to record. The environments are classes whose methods
  reassign those maps.
- **Iteration order is a sequence.** A Python set or dict iterated by a loop
  appears as a `seq` in which newcomers are appended. This order is what
  decides ties ("the first minimum is kept").
- **A ghost map records teams.** The ghost map `teamOf` records the team each
  id joined. The invariant `Valid()` states that every known agent sits in
  exactly its team's sequence, once.
- **Numerics are uninterpreted.** The numeric library is passed around as a
  `Numerics` value: hypot, sqrt, sine and cosine in degrees, atan2,
  `degrees`, `radians`, `wrap_degrees` and pi. `Sound(num)` states the few
  facts the proofs use: lengths are non-negative and vanish at the origin,
  and the cosine is positive on [0, 40] degrees.
- **Host values are parameters.** Values the source asks the host or the
  mod for arrive as parameters:
  - the configuration read through `getMod()`;
  - `agent.step`;
  - the on-screen position and rotation;
  - the trainer's `has_organism`;
  - ray-cast hit lists;
  - random draws;
  - the ids `getNextFreeId` hands out;
  - the order in which the marker map is iterated.

Where the variants' code departs from the obvious reading, the model follows
the code:

- The factory2 `nearest` never lowers its threshold (`value - ...`, not
  `value = ...`). It therefore returns the *last* agent within range, not the
  nearest. `NeroFactory2.LastNearestNotNearest` exhibits a two-agent case. Its
  sentinel `1` for "none" is modelled as `None`.
- The rtneat and factory2 `target` returns None as soon as the agent's own
  team is unknown, even when foes exist.
- The main `sense` returns early with only the target flag written when neither team is registered yet: `target` looks the agent up only when the foe team exists. The model covers this branch, in which nothing else changes.
- The main `sense` takes the team size before looking the agent up. If that
  lookup adds the agent, the centre is averaged with the old size over the
  enlarged team.

## Model

| member | source | states |
|---|---|---|
| Geometry.FloatMod | branches/rtneat/mods/NERO/NeroEnvironment.py:179 | Python's float `%` by a positive modulus lands in [0, m) and is the identity on [0, m) and a single shift on [-m, 0) |
| Geometry.Distance | mods/NERO/NeroEnvironment.py:344-348 | the hypot distance is never negative and is 0 between equal points |
| Geometry.SqrtDistanceSymmetric | branches/factory2/mods/NERO/NeroEnvironment.py:379-383 | the square-root-of-squares distance does not depend on the order of the points |
| Geometry.SqrtDistance | branches/factory2/mods/NERO/NeroEnvironment.py:379-383 | the square-root-of-squares distance is never negative and is 0 between equal points |
| Scan.FirstMinCharacterised | mods/NERO/NeroEnvironment.py:202-213 | a running-minimum loop with a strict `<` ends on exactly the index that passes the bound, is no larger than any candidate and strictly smaller than every earlier one, and on None exactly when no candidate passes |
| Scan.LastBelowMeetsSpec | branches/factory2/mods/NERO/NeroEnvironment.py:403-411 | a scan whose threshold never moves ends on the last candidate below it, and on None exactly when none is below |
| NeroCommon.RegistryJoin | mods/NERO/NeroEnvironment.py:180-184 | registering a new agent keeps the registry invariant: every known agent is in its own team's set, once, and in no other; other teams are untouched |
| NeroCommon.NextPose | mods/NERO/NeroEnvironment.py:58-66 | the new heading is `wrap_degrees(heading, turn_by)`; with `move_by == 0` x and y do not change |
| NeroCommon.Fitness | mods/NERO/NeroEnvironment.py:286-308 | every declared dimension is present; stand-ground is `-action[0]`; stick-together is `-d*d` for the nearest friend's distance d and approach-enemy `-d*d` for the nearest foe's, each 0 when there is no such agent; approach-flag is `-d*d` for the flag distance; all three are at most 0; hit is 1 iff a target was hit, else 0; avoid-fire is minus the drained damage |
| NeroCommon.PackReward | mods/NERO/NeroEnvironment.py:310-312 | after the loop slot i of the reward holds the value of the i-th declared dimension |
| NeroCommon.NewReward | mods/NERO/NeroEnvironment.py:261 | `reward.get_instance()` is a fresh all-zero vector, one slot per dimension |
| NeroCommon.NearestIsFirstClosestOther | mods/NERO/NeroEnvironment.py:365-382 | `nearest` returns None iff no other agent is closer than the cap; otherwise it returns an agent other than `id`, below the cap, no farther than any other, and strictly closer than every other listed before it |
| NeroCommon.LineOfSightGuard | mods/NERO/NeroEnvironment.py:266-274 | whatever the ray cast returns, the guard `len(objects) == 0 or objects[0] == sim` passes |
| NeroCommon.EpisodeOver | mods/NERO/NeroEnvironment.py:391-405 | never over for a turret; otherwise over iff the lifetime is used up, the trainer holds no organism, or the damage reached the hit points |
| NeroCommon.EpisodeOverMonotone | mods/NERO/NeroEnvironment.py:391-405 | once over, an episode stays over as steps and damage grow and the organism stays gone |
| Nero.AgentState.Randomize | mods/NERO/NeroEnvironment.py:35-42 | the jittered spawn point becomes the initial position and both poses (so `prev_pose == pose`); nothing else changes |
| Nero.AgentState.ResetPose | mods/NERO/NeroEnvironment.py:44-47 | the start position and rotation are stored and both poses are set to them (so `prev_pose == pose`); damage is untouched |
| Nero.AgentState.UpdateDamage | mods/NERO/NeroEnvironment.py:49-56 | returns the old `curr_damage`, moves exactly that amount into `total_damage`, leaves `curr_damage == 0` and changes nothing else |
| Nero.AgentState.UpdatePose | mods/NERO/NeroEnvironment.py:58-66 | `prev_pose` becomes the pose before the call and the pose advances by NextPose; nothing else changes |
| Nero.Admitted | mods/NERO/NeroEnvironment.py:176-185 | after a lookup the agent is known; a known agent's lookup changes nothing |
| Nero.NeroEnvironment.GetState | mods/NERO/NeroEnvironment.py:176-185 | a record is created at most once, the newcomer joins its own team only, the registry invariant is kept, and a repeated call changes nothing and returns the same record |
| Nero.NeroEnvironment.FriendFoe | mods/NERO/NeroEnvironment.py:187-192 | the two teams' sets or None; a present set is non-empty and holds only known agents of that team |
| Nero.Angle | mods/NERO/NeroEnvironment.py:350-363 | 0 from a point to itself; otherwise one full-turn correction brings a bearing from [-540, 540] into [-180, 180] |
| Nero.ConeCost | mods/NERO/NeroEnvironment.py:204-209 | a foe has a cost iff it is in the 2-degree cone, and that cost is never negative |
| Nero.TargetIsFirstCheapestConeFoe | mods/NERO/NeroEnvironment.py:194-213 | `target` returns None iff no foe is in the cone; otherwise a foe in the cone at the first minimum of the cost |
| Nero.NeroEnvironment.ScanTargets | mods/NERO/NeroEnvironment.py:202-213 | the loop over the foes returns the target the scan specification defines |
| Nero.NeroEnvironment.Target | mods/NERO/NeroEnvironment.py:194-213 | None when there is no foe team; otherwise the agent is looked up and the result is the cone target of the updated state |
| Nero.NeroEnvironment.Nearest | mods/NERO/NeroEnvironment.py:365-382 | the loop returns None for a missing set and otherwise the first closest other agent under `MAX_DIST * 5` |
| Nero.AfterRewardEffect | mods/NERO/NeroEnvironment.py:263-307 | after the reward step the agent's damage is drained exactly once; the target, never the agent itself, gains exactly one unit of current damage; no pose or other field changes |
| Nero.NeroEnvironment.Strike | mods/NERO/NeroEnvironment.py:263-278 | a hit is scored iff there is a target, whose `curr_damage` grows by exactly 1 |
| Nero.NeroEnvironment.CalculateReward | mods/NERO/NeroEnvironment.py:257-314 | the new states and the packed fitness vector of this tick, computed from the states before it |
| Nero.NeroEnvironment.Step | mods/NERO/NeroEnvironment.py:215-255 | on step 0 a non-turret has its pose reset to the on-screen one and gets a zero reward; otherwise the reward is computed and the pose then advances |
| Nero.CentroidIsOffsetMean | mods/NERO/NeroEnvironment.py:329-335 | the accumulated centre is the agent's position plus the team's summed position divided by the count |
| Nero.NeroEnvironment.TeamCentroid | mods/NERO/NeroEnvironment.py:332-335 | the loop over the team computes the centre the function defines |
| Nero.SenseObs | mods/NERO/NeroEnvironment.py:320-341 | the last slot is 1 iff there is a target, else 0; within 15 units the distance slot is in [0, 1] and, for a bearing in [-180, 180], the heading slot is in [0, 1]; beyond 15 units both are untouched; all other slots are untouched |
| Nero.NeroEnvironment.Sense | mods/NERO/NeroEnvironment.py:316-342 | the observations become SenseObs of the target flag and of the centre of the team, averaged with the size taken before the lookup |
| Nero.NeroEnvironment.Reset | mods/NERO/NeroEnvironment.py:138-150 | damage is cleared; an `Agent` is moved to the jittered spawn point; it returns True |
| Nero.NeroEnvironment.IsEpisodeOver | mods/NERO/NeroEnvironment.py:391-405 | a turret is never over and nothing changes; otherwise `max_steps` becomes the lifetime and the answer is EpisodeOver |
| Nero.NeroEnvironment.constructor | mods/NERO/NeroEnvironment.py:90-94 | `max_steps` is 20, `MAX_DIST` is the diagonal, and no agents or teams are known |
| ConeTarget.Bearing | branches/rtneat/mods/NERO/NeroEnvironment.py:176-179 | the bearing offset `abs((bearing - heading) % 360)` lies in [0, 360), and is 0 for a foe at the agent's position |
| ConeTarget.CandidatesComplete | branches/rtneat/mods/NERO/NeroEnvironment.py:173-181 | every foe with offset at most 2 is collected with its distance and offset, and the collection is empty iff none is within 2 |
| ConeTarget.TargetIsFirstCheapestCandidate | branches/rtneat/mods/NERO/NeroEnvironment.py:172-192 | None iff no foe is within the cone; otherwise a foe within it at the first minimum of the cost over the collected candidates |
| ConeTarget.TargetFor | branches/rtneat/mods/NERO/NeroEnvironment.py:163-170 | None when the agent's team is unknown; any target belongs to the other team |
| ConeTarget.CentreHeading | branches/rtneat/mods/NERO/NeroEnvironment.py:343-345 | the heading to the centre lies in [-180, 180), and is 0 when the centre is at the agent |
| ConeTarget.SenseObs | branches/rtneat/mods/NERO/NeroEnvironment.py:342-351 | the target slot is 1 iff there is a target, else 0; within 15 units `observations[-3]` is in [0, 1] and `observations[-2]` ends in [0, 1); beyond, the distance slot is untouched and a negative heading slot is moved up by 1; other slots are untouched |
| NeroRtneat.Admitted | branches/rtneat/mods/NERO/NeroEnvironment.py:126-137 | the agent becomes known with a fresh record; a known agent's lookup changes nothing |
| NeroRtneat.NeroEnvironment.GetStateId | branches/rtneat/mods/NERO/NeroEnvironment.py:139-147 | returns the record whose id matches, and the -1 result (None) iff no record has that id |
| NeroRtneat.NeroEnvironment.FriendFoe | branches/rtneat/mods/NERO/NeroEnvironment.py:149-161 | the two teams' members, `[]` for an absent team; the friends are non-empty iff the team is known |
| NeroRtneat.NeroEnvironment.CollectCandidates | branches/rtneat/mods/NERO/NeroEnvironment.py:173-181 | the first loop collects exactly the candidates the cone specification defines |
| NeroRtneat.NeroEnvironment.PickTarget | branches/rtneat/mods/NERO/NeroEnvironment.py:185-192 | the second loop picks the first cheapest candidate |
| NeroRtneat.NeroEnvironment.Target | branches/rtneat/mods/NERO/NeroEnvironment.py:163-192 | None without touching anything when the agent's team is unknown; otherwise the cone target of the updated state |
| NeroRtneat.Drained | branches/rtneat/mods/NERO/NeroEnvironment.py:227-229 | returns the old `curr_damage`, adds exactly it to `total_damage`, `curr_damage` becomes 0, nothing else changes |
| NeroRtneat.Started | branches/rtneat/mods/NERO/NeroEnvironment.py:207-218 | stores the start position and rotation and sets both poses to them (so `prev_pose == pose`) |
| NeroRtneat.Resynced | branches/rtneat/mods/NERO/NeroEnvironment.py:243-244 | the pose is reset from the on-screen position and rotation; nothing else changes |
| NeroRtneat.Moved | branches/rtneat/mods/NERO/NeroEnvironment.py:257-313 | `prev_pose` becomes the current pose and the pose advances by NextPose; nothing else changes |
| NeroRtneat.TickEffect | branches/rtneat/mods/NERO/NeroEnvironment.py:225-313 | a tick drains the agent's damage exactly once, moves it from the resynced on-screen pose, and adds exactly one unit of damage to the target (never the agent itself), leaving every other record unchanged |
| NeroRtneat.NeroEnvironment.Step | branches/rtneat/mods/NERO/NeroEnvironment.py:194-326 | on step 0 a non-turret is started at the on-screen pose with a zero reward; otherwise the states are AfterTick and the reward is the packed fitness of the resynced state |
| NeroRtneat.NeroEnvironment.Nearest | branches/rtneat/mods/NERO/NeroEnvironment.py:367-382 | the loop returns the first closest other agent under `MAX_DIST * 5`, or None |
| NeroRtneat.NeroEnvironment.Sense | branches/rtneat/mods/NERO/NeroEnvironment.py:328-352 | the agent is looked up and the observations become SenseObs of the team centre and the target flag |
| NeroRtneat.NeroEnvironment.Reset | branches/rtneat/mods/NERO/NeroEnvironment.py:92-111 | an `Agent` is moved to the jittered spawn point; damage is cleared; it returns True |
| NeroRtneat.NeroEnvironment.IsEpisodeOver | branches/rtneat/mods/NERO/NeroEnvironment.py:391-405 | a turret is never over; otherwise the answer is EpisodeOver of the lifetime, the organism and the hit points |
| NeroFactory2.NeroEnvironment.GetStateId | branches/factory2/mods/NERO/NeroEnvironment.py:141-149 | returns the record whose id matches, and the -1 result (None) iff no record has that id |
| NeroFactory2.NeroEnvironment.GetState | branches/factory2/mods/NERO/NeroEnvironment.py:127-139 | a record is created at most once and the newcomer joins its own team; a repeated call changes nothing |
| NeroFactory2.NeroEnvironment.Target | branches/factory2/mods/NERO/NeroEnvironment.py:165-197 | None when the team is unknown; otherwise the first cheapest foe within the cone, with square-root-of-squares distances |
| NeroFactory2.LastNearestIsLastInRange | branches/factory2/mods/NERO/NeroEnvironment.py:398-411 | with the threshold never lowered, `nearest` returns the sentinel (None) iff no other agent is within range; otherwise another agent within range after which no other is |
| NeroFactory2.LastNearestNotNearest | branches/factory2/mods/NERO/NeroEnvironment.py:403-411 | of two agents within range, the farther one listed last is returned |
| NeroFactory2.NeroEnvironment.Nearest | branches/factory2/mods/NERO/NeroEnvironment.py:398-411 | the loop returns the last other agent within `MAX_DIST * 5`, or the sentinel |
| NeroFactory2.FoundDistance | branches/factory2/mods/NERO/NeroEnvironment.py:301-304 | the intended reading of the found agent's distance, from its recorded pose: a distance exists iff `nearest` found an agent, and it is never negative |
| NeroFactory2.FoundDistanceOfLastNearest | branches/factory2/mods/NERO/NeroEnvironment.py:292-304 | with the recorded pose, the reward has a distance iff another member is closer than `MAX_DIST * 5`, and that distance is below the cap |
| NeroFactory2.FoundDistanceAsWritten | branches/factory2/mods/NERO/NeroEnvironment.py:301-304 | as written, reading `pose` from a found agent's handle raises; only the sentinel passes, with no distance |
| NeroFactory2.AsWrittenRaisesWithMemberInRange | branches/factory2/mods/NERO/NeroEnvironment.py:292-304 | as written, the reward part of `step` raises whenever a searched team has another member closer than the cap |
| NeroFactory2.Over | branches/factory2/mods/NERO/NeroEnvironment.py:301-304 | a quotient by the distance is taken iff the agent was found at a non-zero distance |
| NeroFactory2.TickFitness | branches/factory2/mods/NERO/NeroEnvironment.py:299-307 | stand-ground is `dta / d` for a found friend at non-zero distance, else `-action[0]`; approach-enemy is `dtb / d` likewise, else 0; stick-together stays 0; approach-flag is `dtc` over the flag distance; hit is 1 iff hit, else 0; avoid-fire is minus the damage |
| NeroFactory2.Drained | branches/factory2/mods/NERO/NeroEnvironment.py:232-235 | returns the old `curr_damage`, adds exactly it to `total_damage`, `curr_damage` becomes 0, nothing else changes |
| NeroFactory2.Started | branches/factory2/mods/NERO/NeroEnvironment.py:213-223 | stores the start position and rotation and sets both poses to them (so `prev_pose == pose`) |
| NeroFactory2.Moved | branches/factory2/mods/NERO/NeroEnvironment.py:318-323 | `prev_pose` becomes the old pose and the pose advances by NextPose; nothing else changes |
| NeroFactory2.TickEffect | branches/factory2/mods/NERO/NeroEnvironment.py:232-323 | a tick drains the agent's damage exactly once, moves it from its recorded pose, and adds exactly one unit of damage to the target (never the agent itself), leaving every other record unchanged |
| NeroFactory2.NeroEnvironment.Step | branches/factory2/mods/NERO/NeroEnvironment.py:199-326 | on step 0, turrets included, the agent is started at the on-screen pose with a zero reward; otherwise the states are AfterTick and the reward is the packed TickFitness |
| NeroFactory2.NeroEnvironment.Sense | branches/factory2/mods/NERO/NeroEnvironment.py:328-363 | the agent is looked up, the centre is accumulated from the on-screen position, and the observations become SenseObs of it and the target flag |
| NeroFactory2.NeroEnvironment.Reset | branches/factory2/mods/NERO/NeroEnvironment.py:94-112 | an `Agent` is moved to the jittered spawn point; damage is cleared; it returns True |
| NeroFactory2.EpisodeOverAt | branches/factory2/mods/NERO/NeroEnvironment.py:444-456 | over iff the lifetime is used up or the damage reached the hit points; there is no organism check and no turret exemption |
| NeroFactory2.EpisodeOverAtIsMainRule | branches/factory2/mods/NERO/NeroEnvironment.py:444-456 | for a non-turret the factory2 rule is the main rule with the organism present |
| NeroFactory2.NeroEnvironment.IsEpisodeOver | branches/factory2/mods/NERO/NeroEnvironment.py:444-456 | `max_steps` becomes the lifetime and the answer is EpisodeOverAt |
| Roomba.Unmarked | branches/nero/mods/Roomba/module.py:65-71 | removes exactly the cell's key and keeps every other entry |
| Roomba.Marked | branches/nero/mods/Roomba/module.py:44-51 | afterwards the cell has exactly one entry holding the new id; other entries are kept |
| Roomba.MarkUnmark | branches/nero/mods/Roomba/module.py:44-71 | marking a cell twice equals marking it once with the later id; unmarking after marking equals unmarking |
| Roomba.SandboxMod.Mark | branches/nero/mods/Roomba/module.py:44-51 | the marker map becomes Marked with the fresh id; the agent list is kept |
| Roomba.SandboxMod.Unmark | branches/nero/mods/Roomba/module.py:65-71 | returns True iff the cell was a key, and the map becomes Unmarked |
| Roomba.SandboxMod.ResetSandbox | branches/nero/mods/Roomba/module.py:81-91 | both the marker map and the agent list are emptied |
| Roomba.SandboxMod.RemoveBots | branches/nero/mods/Roomba/module.py:93-98 | the agent list is emptied and the marker map is kept |
| Roomba.CellsMembers | branches/nero/mods/Roomba/module.py:237-239 | a cell is among the crumbs' cells iff some crumb lies on it |
| Roomba.CellsOfDistinct | branches/nero/mods/Roomba/module.py:237-240 | crumbs on distinct cells yield as many cells as crumbs |
| Roomba.Planted | branches/nero/mods/Roomba/module.py:236-240 | planting adds exactly the crumbs' cells as keys and keeps existing entries |
| Roomba.SandboxEnvironment.AddCrumbs | branches/nero/mods/Roomba/module.py:236-240 | the loop marks each unmarked crumb cell and the crumb count becomes the size of the map |
| Roomba.SandboxEnvironment.GetState | branches/nero/mods/Roomba/module.py:213-221 | an unknown agent gets a fresh record at its on-screen position and rotation; a known one's lookup changes nothing |
| Roomba.SandboxEnvironment.NumSensorsFitsLayout | branches/nero/mods/Roomba/module.py:258-259 | when the markers are exactly the cells of distinct crumbs, `num_sensors` (`4 * len(marker_map) + 3`) is the length of the Roomba sensor vector |
| Roomba.Deltas | branches/nero/mods/Roomba/module.py:270-280 | a Roomba brain moves `MAX_SPEED` and turns to the absolute heading `degrees(action[0])`; an rtNEAT brain moves at most 5 and turns at most 45 degrees |
| Roomba.SandboxEnvironment.Step | branches/nero/mods/Roomba/module.py:261-283 | the deltas are applied through update_position and the reward is added to the agent's record |
| Roomba.Stepped | branches/nero/mods/Roomba/module.py:289-339 | the step count grows by exactly 1 and `is_out` becomes set once `max_steps != 0` and the count reaches it; it is never cleared |
| Roomba.BackTracked | branches/nero/mods/Roomba/module.py:301-313 | a coordinate that left the room is reverted by one delta, and if the previous position was inside it returns to its previous value |
| Roomba.NextPositionInRoom | branches/nero/mods/Roomba/module.py:295-313 | from inside the room the next position stays inside |
| Roomba.SandboxEnvironment.UpdatePosition | branches/nero/mods/Roomba/module.py:287-340 | the rotation turns, the position moves and backs off the walls, the step is counted, and the crumbs are swept |
| Roomba.SweepMarkers | branches/nero/mods/Roomba/module.py:323-328 | the sweep unmarks exactly the marked crumbs within reach, and the crumb count drops by exactly their number |
| Roomba.SweepRewards | branches/nero/mods/Roomba/module.py:323-335 | the reward is the sum of the rewards of the crumbs actually picked up, plus the bonus for each pick at or below zero remaining |
| Roomba.SweepReward | branches/nero/mods/Roomba/module.py:323-335 | from reward 0: with crumbs left, the rewards of the picked crumbs; when the last crumb goes, those rewards plus `max_steps - step_count` once |
| Roomba.NoBonusWhileCrumbsRemain | branches/nero/mods/Roomba/module.py:329-335 | no bonus is paid while crumbs remain |
| Roomba.LastCrumbEarnsBonusOnce | branches/nero/mods/Roomba/module.py:329-331 | when the pickups take exactly the crumbs that were left, the bonus is paid exactly once |
| Roomba.SweepKeepsCountGap | branches/nero/mods/Roomba/module.py:323-328 | the difference between the crumb count and the number of markers is preserved by a sweep |
| Roomba.SandboxEnvironment.PickUp | branches/nero/mods/Roomba/module.py:321-335 | the loop over the crumbs leaves the marker map, the crumb count and the reward as the sweep defines them |
| Roomba.CrumbBlocks | branches/nero/mods/Roomba/module.py:419-430 | block k at `start + 4k` holds the crumb's x, y, present flag (1 iff still marked) and reward; slots outside the blocks are untouched |
| Roomba.SandboxEnvironment.SenseCrumbs | branches/nero/mods/Roomba/module.py:419-430 | the loop writes the blocks the crumb layout defines |
| Roomba.Quadrant | branches/nero/mods/Roomba/module.py:385-397 | each normalised angle falls in exactly one of the four quadrant bins |
| Roomba.ScanCubesBelow | branches/nero/mods/Roomba/module.py:376-400 | after the scan each quadrant sensor is at most the distance of every cube in that quadrant |
| Roomba.ScanCubesAttained | branches/nero/mods/Roomba/module.py:376-400 | a quadrant sensor below `MAX_DISTANCE` equals the distance of some cube in that quadrant |
| Roomba.CubeAtZeroReadsZero | branches/nero/mods/Roomba/module.py:408-416 | a cube at zero distance leaves its quadrant sensor at 0, not the 1 the closing comment promises |
| Roomba.QuadrantSensorsBounded | branches/nero/mods/Roomba/module.py:362-412 | `sensors[5] == -1`, `sensors[4]` is in [-1, 1], and each quadrant sensor is -1 or in [0, 1), being -1 iff no cube of that quadrant is nearer than `MAX_DISTANCE` |
| Roomba.SandboxEnvironment.Sense | branches/nero/mods/Roomba/module.py:342-417 | a Roomba brain reads the bump flag (then cleared), its position and the crumb blocks; an rtNEAT brain reads the quadrant sensors |
| Roomba.SandboxEnvironment.ScanInto | branches/nero/mods/Roomba/module.py:376-400 | the loop over the markers leaves the sensors the scan defines |
| Roomba.OutMeansOver | branches/nero/mods/Roomba/module.py:338-339 | an agent marked out is always at its episode's end |
| Roomba.SandboxEnvironment.IsEpisodeOver | branches/nero/mods/Roomba/module.py:441-449 | over iff `max_steps != 0` and the steps reached it, or no crumb is left; an agent marked out is over |

## Left out

- The host engine is outside the model:
  - object creation and removal: `addObject`, `removeObject`, `update_immediately`;
  - the ids `getNextFreeId` returns, which are passed in as parameters;
  - sensor and bound registration in `get_agent_info`, `add_crumb_sensors` and the constructors;
  - `set_ai`, the rtNEAT object and `ready`/`addAgent` spawning;
  - animation and `set_animation`;
  - `print`;
  - `cleanup`/`killScript`.
- Writes of the pose back to `agent.state.position`/`rotation` are host I/O and are not modelled. The Roomba position and rotation are returned as results instead.
- Wall-clock behaviour (`is_active` in factory2 and Roomba, `time.time()`, `state.time`) is not modelled.
- Floating-point trigonometry and rounding are not modelled: the numeric library is uninterpreted beyond `Sound`.
- Randomness is not modelled. The spawn jitter and the random start heading are parameters.
- Iteration order is not derived: the order of the Python sets and dicts is not computed.
  - Registry sets follow insertion order.
  - The Roomba marker map's order is a parameter `cubes`, required to list exactly its keys.
- Object identity is not modelled. State records are values, so two names for one record (the rtneat/factory2 team dicts share the records of `states`) are not distinguished. The model keeps one copy per id.
- The corner case of `calculate_reward`/`step` (no friend team) is not modelled separately in any of the three variants: they look the agent up first, which registers its team, so the branch is unreachable.
- NeroRtneat.NeroEnvironment.Sense, NeroFactory2.NeroEnvironment.Sense: the `return v` crash for an unknown team cannot happen, because `sense` first looks the agent up, which registers its team.
- NeroFactory2.NeroEnvironment.Step: the unguarded division by the flag distance is a precondition (distance non-zero), a crash path of the source.
- FoundDistance (NeroFactory2.FoundDistance) does not model the source's AttributeError. The source reads `pose` from the agent handle that `nearest` returns, and the handle has none, so it raises whenever a found agent exists. The model reads that agent's recorded pose instead; see "## Findings".
- NeroFactory2.NeroEnvironment.Step therefore promises a completed tick where the source raises, after the drain and the shot and before the reward is packed and the move committed. The as-written behaviour is FoundDistanceAsWritten, with AsWrittenRaisesWithMemberInRange.
- NeroFactory2: `angle` is not modelled; no modelled operation calls it. `flag_loc` is the `flag` field of the configuration.
- Roomba.SandboxEnvironment.Step requires the agent not to be out, because the source's out branch reads an unbound `reward` and crashes.
- Roomba.SandboxEnvironment.UpdatePosition: the final-crumb branch for `max_steps == 0` (`1 / agent.state_count`) is unreachable because `max_steps` is the constant 500.
- Roomba.CrumbBlocks is stated for the block stride 4 that `sense` passes. SenseCrumbs itself is proved for any stride through `CrumbsWritten`.
- Roomba.SandboxEnvironment.Sense: the sensor vector from `get_instance()` is modelled as a fresh array of zeros of the layout's length.
- Roomba: `reset`, `randomize`, `add_bots`, `start_rtneat`, `setup_sandbox`, `mark_blue`/`mark_green`/`mark_yellow`/`mark_white` (`mark` with a shape file), and the `world_handler`/`agent_handler` helpers are not modelled. The crumbs are a constructor parameter. The Roomba `AgentState` class is not part of this model; a new record starts with step count 0, not out, reward 0 and not bumped.
- tags/2009-12-28-first-build/source/scripting/scripting.cpp is not part of this model (interpreter embedding and log redirection).
- branches/towers/mods/Battle/RTNEATAgent.py is not part of this model (a wrapper over the trainer).

## Findings

| source | as written | input that shows it | evidently intended | confidence | as-written member | corrected member |
|---|---|---|---|---|---|---|
| branches/factory2/mods/NERO/NeroEnvironment.py:301-304 | `ff[0].pose` and `ff[1].pose` are read from the agent handle that `nearest` returns (a key of the team dictionary, lines 405-409), which has no `pose`, so AttributeError is raised | any non-initial tick of an agent whose team has a second member closer than `MAX_DIST * 5` (AsWrittenRaisesWithMemberInRange; FoundDistanceOfLastNearest proves the corrected reading) | read the found agent's recorded pose, `array[ff[0]].pose` | high; not executed | NeroFactory2.FoundDistanceAsWritten | NeroFactory2.FoundDistance |
