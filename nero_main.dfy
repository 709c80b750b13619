/**
 * The NERO team-combat environment of mods/NERO/NeroEnvironment.py.
 *
 * Agents are keyed by their host id; each has an AgentState record that the
 * environment creates the first time it sees the agent, and the registry
 * `teams` maps a team id to its members in iteration order.
 */
module Nero {
  import opened Geometry
  import opened NeroCommon
  import Scan

  /** The per-agent record: pose history, episode start values and damage counters. */
  datatype AgentState = AgentState(
    id: AgentId,
    pose: Pose,
    prevPose: Pose,
    initialPosition: Vec3,
    initialRotation: Vec3,
    totalDamage: nat,
    currDamage: nat)
  {
    /**
     * `randomize`: the spawn point jittered by (dx, dy) — the offsets the
     * source draws with random.randrange — becomes the initial position and
     * both poses, heading the initial rotation; nothing else changes.
     */
    function Randomize(spawn: Point, dx: real, dy: real): (s: AgentState)
      ensures s.initialPosition == initialPosition.(x := spawn.x + dx, y := spawn.y + dy)
      ensures s.pose == Pose(spawn.x + dx, spawn.y + dy, initialRotation.z) && s.prevPose == s.pose
      ensures s.(pose := pose, prevPose := prevPose, initialPosition := initialPosition) == this
    {
      var ip := initialPosition.(x := spawn.x + dx, y := spawn.y + dy);
      var p := Pose(ip.x, ip.y, initialRotation.z);
      this.(initialPosition := ip, pose := p, prevPose := p)
    }

    /** `reset_pose`: the episode starts at the given position and rotation, both poses there. */
    function ResetPose(position: Vec3, rotation: Vec3): (s: AgentState)
      ensures s.initialPosition == position && s.initialRotation == rotation
      ensures s.pose == Pose(position.x, position.y, rotation.z) && s.prevPose == s.pose
      ensures s.(pose := pose, prevPose := prevPose, initialPosition := initialPosition,
                 initialRotation := initialRotation) == this
    {
      var p := Pose(position.x, position.y, rotation.z);
      this.(initialPosition := position, initialRotation := rotation, pose := p, prevPose := p)
    }

    /**
     * `update_damage`: the damage of this tick moves into the total and is
     * returned; the counters keep their sum, so a second drain returns 0.
     */
    function UpdateDamage(): (r: (AgentState, nat))
      ensures r.1 == currDamage
      ensures r.0.currDamage == 0 && r.0.totalDamage + r.0.currDamage == totalDamage + currDamage
      ensures r.0.(totalDamage := totalDamage, currDamage := currDamage) == this
    {
      (this.(totalDamage := totalDamage + currDamage, currDamage := 0), currDamage)
    }

    /** `update_pose`: the old pose is remembered and the kinematic step applied to it. */
    function UpdatePose(num: Numerics, maxSpeed: real, moveBy: real, turnBy: real): (s: AgentState)
      ensures s.prevPose == pose
      ensures s.pose == NextPose(num, maxSpeed, pose, moveBy, turnBy)
      ensures s.(pose := pose, prevPose := prevPose) == this
    {
      this.(prevPose := pose, pose := NextPose(num, maxSpeed, pose, moveBy, turnBy))
    }
  }

  /** `AgentState(agent)`: at the origin, no damage. */
  function NewState(id: AgentId): (s: AgentState)
    ensures s.id == id && s.totalDamage == 0 && s.currDamage == 0
  {
    AgentState(id, Pose(0.0, 0.0, 0.0), Pose(0.0, 0.0, 0.0), Vec3(0.0, 0.0, 0.0), Vec3(0.0, 0.0, 0.0), 0, 0)
  }

  /** The states after `get_state(agent)`: a state is created for an unknown agent. */
  function Admitted(states: map<AgentId, AgentState>, id: AgentId): (states': map<AgentId, AgentState>)
    ensures states'.Keys == states.Keys + {id}
    ensures id in states ==> states' == states
  {
    if id in states then states else states[id := NewState(id)]
  }

  /** The registry after `get_state(agent)`: an unknown agent joins its team. */
  function AdmittedTeams(states: map<AgentId, AgentState>, teams: map<int, seq<AgentId>>,
                         agent: AgentHandle): map<int, seq<AgentId>>
  {
    if agent.id in states then teams else RegisterTeams(teams, agent.team, agent.id)
  }

  /** The poses of all known agents. */
  function PosesOf(states: map<AgentId, AgentState>): (poses: map<AgentId, Pose>)
    ensures poses.Keys == states.Keys
  {
    map a | a in states :: states[a].pose
  }

  /**
   * `angle(a, b)`: the bearing of b seen from pose a, relative to a's heading,
   * moved once by a full turn towards [-180, 180]; 0 when b is at a.
   */
  function Angle(num: Numerics, a: Pose, b: Point): (rh: real)
    requires Sound(num)
    ensures a.Position() == b ==> rh == 0.0
    ensures Distance(num, a.Position(), b) != 0.0 &&
            -540.0 <= num.atan2Deg(b.y - a.y, b.x - a.x) - a.heading <= 540.0 ==>
              -180.0 <= rh <= 180.0
  {
    if Distance(num, a.Position(), b) == 0.0 then 0.0
    else
      var rh := num.atan2Deg(b.y - a.y, b.x - a.x) - a.heading;
      var rh' := if rh < -180.0 then rh + 360.0 else rh;
      if rh' > 180.0 then rh' - 360.0 else rh'
  }

  /** A foe is in the targeting cone when its bearing is within 2 degrees of the heading. */
  predicate InCone(num: Numerics, from: Pose, to: Pose)
    requires Sound(num)
  {
    Abs(Angle(num, from, to.Position())) <= 2.0
  }

  /** The targeting cost of a cone member, fd / cos(radians(fh * 20)); none outside the cone. */
  function ConeCost(num: Numerics, from: Pose, to: Pose): (c: Option<real>)
    requires Sound(num)
    ensures c.Some? <==> InCone(num, from, to)
    ensures c.Some? ==> c.value >= 0.0
  {
    var fd := Distance(num, from.Position(), to.Position());
    var fh := Abs(Angle(num, from, to.Position()));
    if fh <= 2.0 then Some(fd / num.cosDeg(fh * 20.0)) else None
  }

  function TargetCosts(num: Numerics, from: Pose, foes: seq<AgentId>, poses: map<AgentId, Pose>): (costs: seq<Option<real>>)
    requires Sound(num)
    requires forall f :: f in foes ==> f in poses
    ensures |costs| == |foes|
  {
    seq(|foes|, i requires 0 <= i < |foes| => var f := foes[i]; assert f in foes; ConeCost(num, from, poses[f]))
  }

  /** The foe `target` settles on, scanning `foes` in iteration order. */
  function TargetOf(num: Numerics, from: Pose, foes: seq<AgentId>, poses: map<AgentId, Pose>): (t: Option<AgentId>)
    requires Sound(num)
    requires forall f :: f in foes ==> f in poses
    ensures t.Some? ==> t.value in foes
  {
    match Scan.FirstMin(TargetCosts(num, from, foes, poses), None)
    case None => None
    case Some(k) => Some(foes[k])
  }

  /**
   * `target` finds no foe exactly when no foe is in the cone; otherwise it
   * returns a cone member of least cost, and the first such one in
   * iteration order.
   */
  lemma TargetIsFirstCheapestConeFoe(num: Numerics, from: Pose, foes: seq<AgentId>, poses: map<AgentId, Pose>)
    requires Sound(num)
    requires forall f :: f in foes ==> f in poses
    ensures TargetOf(num, from, foes, poses).None? <==>
              forall i :: 0 <= i < |foes| ==> !InCone(num, from, poses[foes[i]])
    ensures TargetOf(num, from, foes, poses).Some? ==>
              var t := TargetOf(num, from, foes, poses).value;
              && t in foes
              && InCone(num, from, poses[t])
              && exists k :: 0 <= k < |foes| && foes[k] == t &&
                   Scan.IsFirstMinimum(TargetCosts(num, from, foes, poses), None, k)
  {
    var costs := TargetCosts(num, from, foes, poses);
    Scan.FirstMinMeetsSpec(costs, None);
    match Scan.FirstMin(costs, None)
    case None =>
      forall i | 0 <= i < |foes|
        ensures !InCone(num, from, poses[foes[i]])
      {
        assert costs[i] == ConeCost(num, from, poses[foes[i]]);
      }
    case Some(k) =>
      assert costs[k].Some?;
  }

  /** `target` of the agent's foe team; no foe team means no target. */
  function TargetFor(num: Numerics, teams: map<int, seq<AgentId>>, team: int, from: Pose,
                     poses: map<AgentId, Pose>): (t: Option<AgentId>)
    requires Sound(num)
    requires Covers(teams, poses)
    ensures t.Some? ==> 1 - team in teams && t.value in teams[1 - team]
  {
    var foes := Members(teams, 1 - team);
    if foes.None? || foes.value == [] then None else TargetOf(num, from, foes.value, poses)
  }

  /**
   * The reward vector `calculate_reward` returns for the agent `me` of team
   * `team`, the poses being those of this tick: all zeroes when the agent's
   * team is unknown, else the fitness dimensions in declared order.
   */
  function RewardOf(num: Numerics, dims: seq<Dimension>, maxDist: real, teams: map<int, seq<AgentId>>,
                    poses: map<AgentId, Pose>, me: AgentId, team: int, speed: real, flag: Point,
                    damage: nat): seq<real>
    requires Sound(num)
    requires me in poses
    requires Covers(teams, poses)
  {
    var pose := poses[me];
    var friends := Members(teams, team);
    if friends.None? || friends.value == [] then Packed(ZeroFitness(dims), dims)
    else
      var hit := TargetFor(num, teams, team, pose, poses).Some?;
      var friendDist := NearestDistance(num, Hypot, pose, me, friends, poses, maxDist * 5.0);
      var foeDist := NearestDistance(num, Hypot, pose, me, Members(teams, 1 - team), poses, maxDist * 5.0);
      var flagDist := Distance(num, pose.Position(), flag);
      Packed(Fitness(dims, speed, friendDist, foeDist, flagDist, hit, damage), dims)
  }

  /** The states after a found target took one point of damage. */
  function Struck(states: map<AgentId, AgentState>, target: Option<AgentId>): map<AgentId, AgentState>
    requires target.Some? ==> target.value in states
  {
    if target.None? then states
    else states[target.value := states[target.value].(currDamage := states[target.value].currDamage + 1)]
  }

  /**
   * The states after `calculate_reward` for the agent `me` of team `team`:
   * the foe it targets takes one point of damage, then its own damage is drained.
   */
  function AfterReward(num: Numerics, teams: map<int, seq<AgentId>>, states: map<AgentId, AgentState>,
                       me: AgentId, team: int): map<AgentId, AgentState>
    requires Sound(num) && me in states
    requires Covers(teams, states)
  {
    var struck := Struck(states, TargetFor(num, teams, team, states[me].pose, PosesOf(states)));
    struck[me := struck[me].UpdateDamage().0]
  }

  /**
   * What `calculate_reward` does to the states: nobody moves; the agent's
   * damage of this tick is added to its total and cleared; the targeted foe,
   * and only it, has one more point of damage this tick.
   */
  lemma AfterRewardEffect(num: Numerics, teams: map<int, seq<AgentId>>, teamOf: map<AgentId, int>,
                          states: map<AgentId, AgentState>, me: AgentId, team: int)
    requires Sound(num) && Registry(states.Keys, teams, teamOf)
    requires me in teamOf && teamOf[me] == team
    ensures var after := AfterReward(num, teams, states, me, team);
            var tgt := TargetFor(num, teams, team, states[me].pose, PosesOf(states));
            && after.Keys == states.Keys
            && PosesOf(after) == PosesOf(states)
            && tgt != Some(me)
            && after[me].totalDamage == states[me].totalDamage + states[me].currDamage
            && after[me].currDamage == 0
            && forall a :: a in states ==>
                 && after[a].(totalDamage := states[a].totalDamage, currDamage := states[a].currDamage) == states[a]
                 && (a != me ==> after[a].totalDamage == states[a].totalDamage)
                 && (a != me ==> after[a].currDamage == states[a].currDamage + if tgt == Some(a) then 1 else 0)
  {
    var poses := PosesOf(states);
    var tgt := TargetFor(num, teams, team, states[me].pose, poses);
    var after := AfterReward(num, teams, states, me, team);
    if tgt.Some? {
      assert teamOf[tgt.value] == 1 - team;
    }
    assert after.Keys == states.Keys;
    forall a | a in states
      ensures PosesOf(after)[a] == poses[a]
    {
    }
  }

  /**
   * The point the `sense` loop accumulates: it starts at the agent's own
   * position and adds each member's position divided by `n`.
   */
  function Centroid(own: Pose, members: seq<AgentId>, poses: map<AgentId, Pose>, n: real): Point
    requires n != 0.0
    requires forall a :: a in members ==> a in poses
    decreases |members|
  {
    if members == [] then own.Position()
    else
      var c := Centroid(own, members[..|members| - 1], poses, n);
      var last := members[|members| - 1];
      assert last in members;
      var p := poses[last];
      Point(c.x + p.x / n, c.y + p.y / n)
  }

  /**
   * The accumulated point is the agent's own position offset by the
   * members' position sum over `n` — the team's centre of mass when `n`
   * counts the members, shifted by where the agent stands.
   */
  lemma {:induction false} CentroidIsOffsetMean(own: Pose, members: seq<AgentId>, poses: map<AgentId, Pose>, n: real)
    requires n != 0.0
    requires forall a :: a in members ==> a in poses
    ensures Centroid(own, members, poses, n) ==
              Point(own.x + PositionSum(members, poses).x / n, own.y + PositionSum(members, poses).y / n)
    decreases |members|
  {
    if members != [] {
      var pre := members[..|members| - 1];
      CentroidIsOffsetMean(own, pre, poses, n);
      var s := PositionSum(pre, poses);
      var last := members[|members| - 1];
      assert last in members;
      var p := poses[last];
      DivAdd(s.x, p.x, n);
      DivAdd(s.y, p.y, n);
    }
  }

  /**
   * The observations `sense` writes. The last slot flags a target: 1
   * exactly when there is one, else 0. When the accumulated point is within
   * 15 units, the two slots before it get its distance scaled into [0, 1]
   * and its bearing shifted by 180 and scaled, which lies in [0, 1] for a
   * bearing in [-180, 180]; a farther point leaves both slots as they were.
   * No other slot changes.
   */
  function SenseObs(obs: seq<real>, hasTarget: bool, fd: real, rh: real): (o: seq<real>)
    requires |obs| >= 3
    ensures |o| == |obs|
    ensures (o[|o| - 1] == 1.0 <==> hasTarget) && (o[|o| - 1] == 0.0 <==> !hasTarget)
    ensures 0.0 <= fd <= 15.0 ==> 0.0 <= o[|o| - 3] <= 1.0
    ensures fd <= 15.0 && -180.0 <= rh <= 180.0 ==> 0.0 <= o[|o| - 2] <= 1.0
    ensures fd > 15.0 ==> o[|o| - 3] == obs[|o| - 3] && o[|o| - 2] == obs[|o| - 2]
    ensures forall i :: 0 <= i < |o| - 3 ==> o[i] == obs[i]
  {
    CentreObs(obs[|obs| - 1 := if hasTarget then 1.0 else 0.0], fd, rh)
  }

  /** The centre part of SenseObs: the two slots before the last, written when the point is within 15 units. */
  function CentreObs(obs: seq<real>, fd: real, rh: real): (o: seq<real>)
    requires |obs| >= 3
  {
    var n := |obs|;
    if fd <= 15.0 then obs[n - 3 := fd / 15.0][n - 2 := (rh + 180.0) / 360.0] else obs
  }

  class NeroEnvironment {
    const num: Numerics
    const maxSpeed: real         // MAX_MOVEMENT_SPEED
    const maxDist: real          // MAX_DIST = hypot(XDIM, YDIM)
    const dims: seq<Dimension>   // FITNESS_DIMENSIONS
    var maxSteps: int
    var states: map<AgentId, AgentState>
    var teams: map<int, seq<AgentId>>
    /** The team each known agent joined; the source keeps it only implicitly, in `teams`. */
    ghost var teamOf: map<AgentId, int>

    /** Every state is the record of its key, and the registry invariant holds over the known agents. */
    ghost predicate Valid()
      reads this
    {
      && Sound(num)
      && Registry(states.Keys, teams, teamOf)
      && (forall a :: a in states ==> states[a].id == a)
    }

    /** Every team member has a state and a pose. */
    lemma ValidCovers()
      requires Valid()
      ensures Covers(teams, states) && Covers(teams, PosesOf(states))
    {
    }

    /** An agent never changes team: a known id comes with the team it joined. */
    ghost predicate KnownTeam(agent: AgentHandle)
      reads this
    {
      agent.id in teamOf ==> teamOf[agent.id] == agent.team
    }

    /** The registry part of the effect of `get_state(agent)`. */
    twostate predicate Admits(agent: AgentHandle)
      reads this
    {
      && teams == AdmittedTeams(old(states), old(teams), agent)
      && teamOf == if agent.id in old(states) then old(teamOf) else old(teamOf)[agent.id := agent.team]
    }

    constructor (num: Numerics, maxSpeed: real, xdim: real, ydim: real, dims: seq<Dimension>)
      requires Sound(num)
      ensures Valid()
      ensures this.num == num && this.maxSpeed == maxSpeed && this.dims == dims
      ensures maxDist == num.hypot(xdim, ydim) && maxSteps == 20
      ensures states == map[] && teams == map[]
    {
      this.num := num;
      this.maxSpeed := maxSpeed;
      this.maxDist := num.hypot(xdim, ydim);
      this.dims := dims;
      maxSteps := 20;
      states := map[];
      teams := map[];
      teamOf := map[];
    }

    /**
     * `get_state`: the agent's state, created on first contact together with
     * its entry in its team's set; a repeated call changes nothing.
     */
    method GetState(agent: AgentHandle) returns (s: AgentState)
      requires Valid() && KnownTeam(agent)
      modifies this
      ensures Valid() && KnownTeam(agent) && maxSteps == old(maxSteps)
      ensures states == Admitted(old(states), agent.id) && Admits(agent)
      ensures agent.id in old(states) ==> unchanged(this)
      ensures s == states[agent.id]
    {
      if agent.id !in states {
        RegistryJoin(states.Keys, teams, teamOf, agent.id, agent.team);
        ghost var joined := RegisterTeams(teams, agent.team, agent.id);
        states := states[agent.id := NewState(agent.id)];
        if agent.team !in teams {
          teams := teams[agent.team := []];
        }
        teams := teams[agent.team := teams[agent.team] + [agent.id]];
        teamOf := teamOf[agent.id := agent.team];
        assert teams == joined;
        assert states.Keys == old(states).Keys + {agent.id};
      }
      s := states[agent.id];
    }

    /** `getFriendFoe`: the set of the agent's team and the set of the other team, when present. */
    function FriendFoe(team: int): (r: (Option<seq<AgentId>>, Option<seq<AgentId>>))
      reads this
      requires Valid()
      ensures r.0 == Members(teams, team) && r.1 == Members(teams, 1 - team)
      ensures r.0.Some? ==> r.0.value != [] && forall a :: a in r.0.value ==> a in states && teamOf[a] == team
      ensures r.1.Some? ==> r.1.value != [] && forall a :: a in r.1.value ==> a in states && teamOf[a] == 1 - team
    {
      (Members(teams, team), Members(teams, 1 - team))
    }

    /** The loop of `target` over the foes. */
    method ScanTargets(from: Pose, foes: seq<AgentId>) returns (t: Option<AgentId>)
      requires Sound(num)
      requires forall f :: f in foes ==> f in states
      ensures t == TargetOf(num, from, foes, PosesOf(states))
    {
      ghost var costs := TargetCosts(num, from, foes, PosesOf(states));
      var minF: Option<AgentId> := None;
      var minV: Option<real> := None;
      for i := 0 to |foes|
        invariant var r := Scan.FirstMin(costs[..i], None);
                  && minF == (if r.Some? then Some(foes[r.value]) else None)
                  && minV == Scan.Held(costs[..i], r, None)
      {
        Scan.FirstMinExtend(costs, None, i);
        // fd, fh and the cost fd / cos(radians(fh * 20)) of foe i, when it is in the cone
        var cost := ConeCost(num, from, states[foes[i]].pose);
        assert costs[i] == cost;
        if cost.Some? {
          var v := cost.value;
          if minV.None? || v < minV.value {
            minF := Some(foes[i]);
            minV := Some(v);
          }
        }
      }
      assert costs[..|foes|] == costs;
      t := minF;
    }

    /** `target`: the foe the agent aims at, if any; looking up the agent registers it. */
    method Target(agent: AgentHandle) returns (t: Option<AgentId>)
      requires Valid() && KnownTeam(agent)
      modifies this
      ensures Valid() && KnownTeam(agent) && maxSteps == old(maxSteps)
      ensures agent.id in old(states) || 1 - agent.team !in old(teams) ==> unchanged(this)
      ensures 1 - agent.team in old(teams) ==> states == Admitted(old(states), agent.id) && Admits(agent)
      ensures 1 - agent.team !in old(teams) ==> t.None?
      ensures agent.id in states ==> t == TargetFor(num, teams, agent.team, states[agent.id].pose, PosesOf(states))
    {
      var (_, foes) := FriendFoe(agent.team);
      assert foes.Some? <==> 1 - agent.team in old(teams);
      if foes.None? || foes.value == [] {
        return None;
      }
      var _ := GetState(agent);
      t := KnownTarget(agent);
    }

    /** `target` for an agent that has a state, where looking it up changes nothing. */
    method KnownTarget(agent: AgentHandle) returns (t: Option<AgentId>)
      requires Valid() && agent.id in states
      ensures t == TargetFor(num, teams, agent.team, states[agent.id].pose, PosesOf(states))
    {
      var (_, foes) := FriendFoe(agent.team);
      if foes.None? || foes.value == [] {
        return None;
      }
      t := ScanTargets(states[agent.id].pose, foes.value);
    }

    /** `nearest`: the agent of the collection nearest to `loc`, other than `id`. */
    method Nearest(loc: Pose, id: AgentId, agents: Option<seq<AgentId>>) returns (n: Option<AgentId>)
      requires Valid()
      requires agents.Some? ==> forall a :: a in agents.value ==> a in states
      ensures n == if agents.None? then None else NearestOf(num, Hypot, loc, id, agents.value, PosesOf(states), maxDist * 5.0)
    {
      if agents.None? || agents.value == [] {
        return None;
      }
      var all := agents.value;
      ghost var costs := NearestCosts(num, Hypot, loc, id, all, PosesOf(states));
      var nearest: Option<AgentId> := None;
      var minDist := maxDist * 5.0;
      for i := 0 to |all|
        invariant var r := Scan.FirstMin(costs[..i], Some(maxDist * 5.0));
                  && nearest == (if r.Some? then Some(all[r.value]) else None)
                  && Some(minDist) == Scan.Held(costs[..i], r, Some(maxDist * 5.0))
      {
        Scan.FirstMinExtend(costs, Some(maxDist * 5.0), i);
        var state := states[all[i]];
        if id == state.id {
          continue;
        }
        var d := Distance(num, loc.Position(), state.pose.Position());
        if d < minDist {
          nearest := Some(all[i]);
          minDist := d;
        }
      }
      assert costs[..|all|] == costs;
      n := nearest;
    }

    /** The distance from `loc` to the agent `nearest` finds, when it finds one. */
    method NearestDistanceFrom(loc: Pose, id: AgentId, agents: Option<seq<AgentId>>) returns (d: Option<real>)
      requires Valid()
      requires agents.Some? ==> forall a :: a in agents.value ==> a in states
      ensures d == NearestDistance(num, Hypot, loc, id, agents, PosesOf(states), maxDist * 5.0)
    {
      var n := Nearest(loc, id, agents);
      if n.Some? {
        d := Some(Distance(num, states[n.value].pose.Position(), loc.Position()));
      } else {
        d := None;
      }
    }

    /**
     * The first part of `calculate_reward`: the agent looks for a target,
     * and a target it finds takes one point of damage; nobody moves.
     */
    method Strike(agent: AgentHandle, objects: seq<int>) returns (hit: bool)
      requires Valid() && agent.id in states && KnownTeam(agent)
      modifies this
      ensures Valid() && teams == old(teams) && teamOf == old(teamOf) && maxSteps == old(maxSteps)
      ensures var tgt := TargetFor(num, teams, agent.team, old(states)[agent.id].pose, PosesOf(old(states)));
              && hit == tgt.Some?
              && states == Struck(old(states), tgt)
      ensures states[agent.id] == old(states)[agent.id]
      ensures PosesOf(states) == PosesOf(old(states))
    {
      hit := false;
      var data := KnownTarget(agent);
      if data.Some? {
        assert teamOf[data.value] == 1 - agent.team;
        // findInRay(...) returned `objects`; the guard passes whatever they are
        if LineOfSightGuard(objects, data.value) {
          Bump(data.value);
          hit := true;
        }
      }
    }

    /** The target takes one more point of damage this tick. */
    method Bump(id: AgentId)
      requires Valid() && id in states
      modifies this
      ensures Valid() && teams == old(teams) && teamOf == old(teamOf) && maxSteps == old(maxSteps)
      ensures states == Struck(old(states), Some(id))
      ensures PosesOf(states) == PosesOf(old(states))
    {
      var target := states[id];
      Put(target.(currDamage := target.currDamage + 1));
      assert forall a :: a in states ==> states[a].pose == old(states)[a].pose;
    }

    /** Stores the updated record of a known agent. */
    method Put(s: AgentState)
      requires Valid() && s.id in states
      modifies this
      ensures Valid() && teams == old(teams) && teamOf == old(teamOf) && maxSteps == old(maxSteps)
      ensures states == old(states)[s.id := s]
    {
      states := states[s.id := s];
      assert states.Keys == old(states).Keys;
    }

    /** `update_damage` on the agent's own state: its damage of this tick is drained and returned. */
    method Drain(id: AgentId) returns (damage: nat)
      requires Valid() && id in states
      modifies this
      ensures Valid() && teams == old(teams) && teamOf == old(teamOf) && maxSteps == old(maxSteps)
      ensures states == old(states)[id := old(states)[id].UpdateDamage().0]
      ensures damage == old(states)[id].currDamage
      ensures PosesOf(states) == PosesOf(old(states))
    {
      var drained;
      drained, damage := states[id].UpdateDamage().0, states[id].UpdateDamage().1;
      Put(drained);
      assert forall a :: a in states ==> states[a].pose == old(states)[a].pose;
    }

    /**
     * `calculate_reward`: a found target takes one point of damage, the
     * agent's own damage is drained (AfterReward), and the reward vector is
     * RewardOf the poses of this tick and the drained damage.
     */
    method CalculateReward(agent: AgentHandle, action: seq<real>, objects: seq<int>, cfg: ModConfig)
      returns (reward: array<real>)
      requires Valid() && agent.id in states && KnownTeam(agent)
      requires |action| == 2
      modifies this
      ensures Valid() && teams == old(teams) && teamOf == old(teamOf) && maxSteps == old(maxSteps)
      ensures fresh(reward)
      ensures states == AfterReward(num, teams, old(states), agent.id, agent.team)
      ensures reward[..] == RewardOf(num, dims, maxDist, teams, PosesOf(old(states)), agent.id, agent.team,
                                     action[0], cfg.flag, old(states[agent.id].currDamage))
    {
      var state := states[agent.id];
      reward := NewReward(dims);
      var hit := Strike(agent, objects);
      var (friends, foes) := FriendFoe(agent.team);
      // the agent is a member of its own team, so the corner case `if not friends` cannot occur
      assert friends.Some? && friends.value != [];
      var friendDist := NearestDistanceFrom(state.pose, state.id, friends);
      var foeDist := NearestDistanceFrom(state.pose, state.id, foes);
      var flagDist := Distance(num, state.pose.Position(), cfg.flag);
      var damage := Drain(agent.id);
      var R := Fitness(dims, action[0], friendDist, foeDist, flagDist, hit, damage);
      PackReward(reward, R, dims);
    }

    /**
     * `step`: on the agent's first tick (turrets excepted) its episode
     * starts at the host pose, an agent turned to the random heading
     * `heading`, and the reward is zero; on every other tick the reward is
     * calculated and then the agent moves by the action.
     */
    method Step(agent: AgentHandle, action: seq<real>, hostStep: int, position: Vec3, rotation: Vec3,
                heading: int, objects: seq<int>, cfg: ModConfig) returns (reward: array<real>)
      requires Valid() && KnownTeam(agent) && ActionValid(action)
      requires 0 <= heading < 360
      modifies this
      ensures Valid() && KnownTeam(agent) && Admits(agent) && maxSteps == old(maxSteps)
      ensures states.Keys == Admitted(old(states), agent.id).Keys
      ensures fresh(reward)
      ensures var me := agent.id;
              var known := Admitted(old(states), me);
              if hostStep == 0 && agent.group != Turret then
                var r := if agent.group == Agent then rotation.(z := heading as real) else rotation;
                && states == known[me := known[me].ResetPose(position, r)]
                && reward[..] == Packed(ZeroFitness(dims), dims)
              else
                var after := AfterReward(num, teams, known, me, agent.team);
                && states == after[me := after[me].UpdatePose(num, maxSpeed, action[0], num.degrees(action[1]))]
                && reward[..] == RewardOf(num, dims, maxDist, teams, PosesOf(known), me, agent.team,
                                          action[0], cfg.flag, known[me].currDamage)
    {
      var state := GetState(agent);
      if hostStep == 0 && agent.group != Turret {
        var r := rotation;
        if agent.group == Agent {
          r := r.(z := heading as real);
        }
        Put(state.ResetPose(position, r));
        reward := NewReward(dims);
        return;
      }
      reward := Tick(agent, action, objects, cfg);
    }

    /** An ordinary tick of `step`: the reward is calculated, then the agent moves by the action. */
    method Tick(agent: AgentHandle, action: seq<real>, objects: seq<int>, cfg: ModConfig) returns (reward: array<real>)
      requires Valid() && agent.id in states && KnownTeam(agent) && ActionValid(action)
      modifies this
      ensures Valid() && teams == old(teams) && teamOf == old(teamOf) && maxSteps == old(maxSteps)
      ensures fresh(reward)
      ensures var after := AfterReward(num, teams, old(states), agent.id, agent.team);
              && states == after[agent.id := after[agent.id].UpdatePose(num, maxSpeed, action[0], num.degrees(action[1]))]
              && reward[..] == RewardOf(num, dims, maxDist, teams, PosesOf(old(states)), agent.id, agent.team,
                                        action[0], cfg.flag, old(states)[agent.id].currDamage)
    {
      var moveBy := action[0];
      var turnBy := num.degrees(action[1]);
      reward := CalculateReward(agent, action, objects, cfg);
      Put(states[agent.id].UpdatePose(num, maxSpeed, moveBy, turnBy));
    }

    /** The loop of `sense` over the team: the point it accumulates. */
    method TeamCentroid(pose: Pose, members: seq<AgentId>, n: real) returns (c: Point)
      requires forall a :: a in members ==> a in states
      requires n != 0.0
      ensures c == Centroid(pose, members, PosesOf(states), n)
    {
      var cx, cy := pose.x, pose.y;
      for i := 0 to |members|
        invariant Point(cx, cy) == Centroid(pose, members[..i], PosesOf(states), n)
      {
        assert members[..i + 1][..i] == members[..i];
        var a := members[i];
        assert a in members;
        var p := states[a].pose;
        cx := cx + p.x / n;
        cy := cy + p.y / n;
      }
      assert members[..|members|] == members;
      c := Point(cx, cy);
    }

    /**
     * `sense`: the last observation flags a target; then, when the agent's
     * team is known, the two before it report the point accumulated over the
     * team (SenseObs). The count `n` is taken before the agent's own lookup,
     * which can still add the agent to the very set the loop walks.
     */
    method Sense(agent: AgentHandle, observations: array<real>)
      requires Valid() && KnownTeam(agent) && observations.Length >= 3
      modifies this, observations
      ensures Valid() && KnownTeam(agent) && maxSteps == old(maxSteps)
      ensures 1 - agent.team !in old(teams) && agent.team !in old(teams) ==>
                && unchanged(this)
                && observations[..] == old(observations[..])[observations.Length - 1 := 0.0]
      ensures 1 - agent.team in old(teams) || agent.team in old(teams) ==>
                && states == Admitted(old(states), agent.id) && Admits(agent)
                && var n := if 1 - agent.team in old(teams) then |teams[agent.team]| else |old(teams)[agent.team]|;
                   var pose := states[agent.id].pose;
                   var c := Centroid(pose, teams[agent.team], PosesOf(states), n as real);
                   var hasTarget := TargetFor(num, teams, agent.team, pose, PosesOf(states)).Some?;
                   observations[..] == SenseObs(old(observations[..]), hasTarget,
                                                Distance(num, pose.Position(), c), Angle(num, pose, c))
    {
      var data := Target(agent);
      label Targeted:
      WriteFlag(observations, data.Some?);
      var fd, rh := SenseCentre(agent, observations, data);
      if 1 - agent.team in old(teams) {
        assert agent.id in old@Targeted(states);
        assert states == old@Targeted(states) && teams == old@Targeted(teams);
      } else if agent.team in old(teams) {
        assert old@Targeted(teams) == old(teams) && old@Targeted(states) == old(states);
      }
    }

    /** The first part of `sense`: the last observation flags a target. */
    static method WriteFlag(observations: array<real>, hasTarget: bool)
      requires observations.Length >= 3
      modifies observations
      ensures observations[..] == old(observations[..])[observations.Length - 1 := if hasTarget then 1.0 else 0.0]
    {
      observations[observations.Length - 1] := if hasTarget then 1.0 else 0.0;
    }

    /**
     * The team part of `sense`, once the target flag is written: nothing
     * when the agent's team is unknown; otherwise the agent is looked up,
     * and the point accumulated over the team's set, each position divided
     * by the set's size before the lookup, is reported.
     */
    method SenseCentre(agent: AgentHandle, observations: array<real>, ghost target: Option<AgentId>)
      returns (fd: real, rh: real)
      requires Valid() && KnownTeam(agent) && observations.Length >= 3
      requires agent.id in states ==> target == TargetFor(num, teams, agent.team, states[agent.id].pose, PosesOf(states))
      requires agent.id !in states ==> 1 - agent.team !in teams && target.None?
      modifies this, observations
      ensures Valid() && KnownTeam(agent) && maxSteps == old(maxSteps)
      ensures 1 - agent.team in teams <==> 1 - agent.team in old(teams)
      ensures agent.team !in old(teams) ==> unchanged(this) && unchanged(observations)
      ensures agent.team in old(teams) ==>
                && states == Admitted(old(states), agent.id) && Admits(agent)
                && var pose := states[agent.id].pose;
                   var c := Centroid(pose, teams[agent.team], PosesOf(states), |old(teams)[agent.team]| as real);
                   && fd == Distance(num, pose.Position(), c) && rh == Angle(num, pose, c)
                   && observations[..] == CentreObs(old(observations[..]), fd, rh)
                   && target == TargetFor(num, teams, agent.team, pose, PosesOf(states))
    {
      var (friends, _) := FriendFoe(agent.team);
      if friends.None? {
        return 0.0, 0.0;
      }
      var n := |friends.value| as real;
      var state := GetState(agent);
      // `friends` is the team's set itself, so the loop sees the agent the lookup may have added
      var c := TeamCentroid(state.pose, teams[agent.team], n);
      fd := Distance(num, state.pose.Position(), c);
      rh := Angle(num, state.pose, c);
      WriteCentre(observations, fd, rh);
    }

    /** The last part of `sense`: the centre's distance and heading, when it is within 15 units. */
    static method WriteCentre(observations: array<real>, fd: real, rh: real)
      requires observations.Length >= 3
      modifies observations
      ensures observations[..] == CentreObs(old(observations[..]), fd, rh)
    {
      var fh := rh + 180.0;
      if fd <= 15.0 {
        observations[observations.Length - 3] := fd / 15.0;
        observations[observations.Length - 2] := fh / 360.0;
      }
    }

    /**
     * `reset`: the agent's damage counters are cleared and an agent (not a
     * turret) is moved to a jittered spawn point; the offsets (dx, dy) are
     * the ones the source draws at random.
     */
    method Reset(agent: AgentHandle, cfg: ModConfig, dx: real, dy: real) returns (ok: bool)
      requires Valid() && KnownTeam(agent)
      modifies this
      ensures Valid() && KnownTeam(agent) && Admits(agent) && maxSteps == old(maxSteps)
      ensures ok
      ensures var known := Admitted(old(states), agent.id);
              var cleared := known[agent.id].(totalDamage := 0, currDamage := 0);
              states == known[agent.id := if agent.group == Agent then cleared.Randomize(cfg.spawn, dx, dy) else cleared]
    {
      var state := GetState(agent);
      state := state.(totalDamage := 0, currDamage := 0);
      if agent.group == Agent {
        state := state.Randomize(cfg.spawn, dx, dy);
      }
      Put(state);
      ok := true;
    }

    /**
     * `is_episode_over`: never for a turret; otherwise the lifetime is read
     * from the mod into `maxSteps` and the episode is over as EpisodeOver says.
     */
    method IsEpisodeOver(agent: AgentHandle, cfg: ModConfig, hostStep: int, hasOrganism: bool) returns (over: bool)
      requires Valid() && KnownTeam(agent)
      modifies this
      ensures Valid() && KnownTeam(agent)
      ensures agent.group == Turret ==> !over && unchanged(this)
      ensures agent.group != Turret ==>
                && states == Admitted(old(states), agent.id) && Admits(agent) && maxSteps == cfg.lt
                && over == EpisodeOver(agent.group, cfg.lt, hostStep, hasOrganism, cfg.hp, states[agent.id].totalDamage)
    {
      if agent.group == Turret {
        return false;
      }
      maxSteps := cfg.lt;
      var state := GetState(agent);
      if maxSteps != 0 && hostStep >= maxSteps {
        return true;
      }
      if !hasOrganism {
        return true;
      }
      if cfg.hp != 0 && state.totalDamage >= cfg.hp {
        return true;
      } else {
        return false;
      }
    }
  }
}
