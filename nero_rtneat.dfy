/**
 * The rtNEAT variant of the NERO environment,
 * branches/rtneat/mods/NERO/NeroEnvironment.py.
 *
 * It keeps the same per-agent records and team registry as the main
 * variant but differs in its rules: `target` needs a known friend team and
 * uses a one-sided cone, `step` drains the damage itself and first resyncs
 * the agent's pose from the host, and `sense` averages the team's positions.
 * Distances are math.hypot (`Hypot`); the targeting rules and the sensed
 * slots are those of ConeTarget.
 */
module NeroRtneat {
  import opened Geometry
  import opened NeroCommon
  import opened ConeTarget
  import Scan

  /** The per-agent record; this variant gives it no methods. */
  datatype AgentState = AgentState(
    id: AgentId,
    pose: Pose,
    prevPose: Pose,
    initialPosition: Vec3,
    initialRotation: Vec3,
    totalDamage: nat,
    currDamage: nat)

  /** `AgentState(agent)`: at the origin, no damage. */
  function NewState(id: AgentId): (s: AgentState)
    ensures s.id == id && s.totalDamage == 0 && s.currDamage == 0
    ensures s.pose == Pose(0.0, 0.0, 0.0) && s.prevPose == s.pose
  {
    AgentState(id, Pose(0.0, 0.0, 0.0), Pose(0.0, 0.0, 0.0), Vec3(0.0, 0.0, 0.0), Vec3(0.0, 0.0, 0.0), 0, 0)
  }

  /** The states after `get_state(agent)`: a state is created for an unknown agent. */
  function Admitted(states: map<AgentId, AgentState>, id: AgentId): (states': map<AgentId, AgentState>)
    ensures states'.Keys == states.Keys + {id}
    ensures id in states ==> states' == states
    ensures id !in states ==> states'[id] == NewState(id)
  {
    if id in states then states else states[id := NewState(id)]
  }

  /** The registry after `get_state(agent)`: an unknown agent joins its team. */
  function AdmittedTeams(states: map<AgentId, AgentState>, teams: map<int, seq<AgentId>>,
                         agent: AgentHandle): map<int, seq<AgentId>>
  {
    if agent.id in states then teams else RegisterTeams(teams, agent.team, agent.id)
  }

  /** The poses of all known agents. */
  function PosesOf(states: map<AgentId, AgentState>): (poses: map<AgentId, Pose>)
    ensures poses.Keys == states.Keys
  {
    map a | a in states :: states[a].pose
  }

  /** The drain of a tick: the damage of this tick moves into the total, and the drained amount is returned. */
  function Drained(s: AgentState): (r: (AgentState, nat))
    ensures r.1 == s.currDamage
    ensures r.0.currDamage == 0 && r.0.totalDamage + r.0.currDamage == s.totalDamage + s.currDamage
    ensures r.0.(totalDamage := s.totalDamage, currDamage := s.currDamage) == s
  {
    (s.(totalDamage := s.totalDamage + s.currDamage, currDamage := 0), s.currDamage)
  }

  /** The first tick: the episode starts at the host pose, both poses there. */
  function Started(s: AgentState, position: Vec3, rotation: Vec3): (s': AgentState)
    ensures s'.initialPosition == position && s'.initialRotation == rotation
    ensures s'.pose == Pose(position.x, position.y, rotation.z) && s'.prevPose == s'.pose
    ensures s'.(pose := s.pose, prevPose := s.prevPose, initialPosition := s.initialPosition,
                initialRotation := s.initialRotation) == s
  {
    var p := Pose(position.x, position.y, rotation.z);
    s.(initialPosition := position, initialRotation := rotation, pose := p, prevPose := p)
  }

  /** The pose is taken again from the on-screen position and rotation. */
  function Resynced(s: AgentState, position: Vec3, rotation: Vec3): (s': AgentState)
    ensures s'.pose == Pose(position.x, position.y, rotation.z)
    ensures s'.(pose := s.pose) == s
  {
    s.(pose := Pose(position.x, position.y, rotation.z))
  }

  /** The committed motion: the pose is remembered and the kinematic step applied to it. */
  function Moved(num: Numerics, maxSpeed: real, s: AgentState, moveBy: real, turnBy: real): (s': AgentState)
    ensures s'.prevPose == s.pose
    ensures s'.pose == NextPose(num, maxSpeed, s.pose, moveBy, turnBy)
    ensures s'.(pose := s.pose, prevPose := s.prevPose) == s
  {
    s.(prevPose := s.pose, pose := NextPose(num, maxSpeed, s.pose, moveBy, turnBy))
  }

  /** The states after a found target took one point of damage. */
  function Struck(states: map<AgentId, AgentState>, target: Option<AgentId>): map<AgentId, AgentState>
    requires target.Some? ==> target.value in states
  {
    if target.None? then states
    else states[target.value := states[target.value].(currDamage := states[target.value].currDamage + 1)]
  }

  /** The states once the agent's damage is drained and its pose resynced, before it aims. */
  function Synced(states: map<AgentId, AgentState>, me: AgentId, position: Vec3, rotation: Vec3): (synced: map<AgentId, AgentState>)
    requires me in states
    ensures synced.Keys == states.Keys
  {
    states[me := Resynced(Drained(states[me]).0, position, rotation)]
  }

  /**
   * The states after a non-initial `step` of agent `me`: drained, resynced,
   * its target struck, then moved.
   */
  function AfterTick(num: Numerics, maxSpeed: real, teams: map<int, seq<AgentId>>, states: map<AgentId, AgentState>,
                     me: AgentId, team: int, position: Vec3, rotation: Vec3, moveBy: real, turnBy: real)
    : map<AgentId, AgentState>
    requires Sound(num) && me in states
    requires Covers(teams, states)
  {
    var synced := Synced(states, me, position, rotation);
    var struck := Struck(synced, TargetFor(num, Hypot, teams, team, synced[me].pose, PosesOf(synced)));
    struck[me := Moved(num, maxSpeed, struck[me], moveBy, turnBy)]
  }

  /**
   * What a non-initial `step` does to the states: the agent's damage of
   * this tick moves into its total, its previous pose is the host pose and
   * its pose the kinematic step from there; the targeted foe, and only it,
   * has one more point of damage; no other record changes.
   */
  lemma TickEffect(num: Numerics, maxSpeed: real, teams: map<int, seq<AgentId>>, teamOf: map<AgentId, int>,
                   states: map<AgentId, AgentState>, me: AgentId, team: int,
                   position: Vec3, rotation: Vec3, moveBy: real, turnBy: real)
    requires Sound(num) && Registry(states.Keys, teams, teamOf)
    requires me in teamOf && teamOf[me] == team
    ensures var after := AfterTick(num, maxSpeed, teams, states, me, team, position, rotation, moveBy, turnBy);
            var host := Pose(position.x, position.y, rotation.z);
            var synced := Synced(states, me, position, rotation);
            var tgt := TargetFor(num, Hypot, teams, team, host, PosesOf(synced));
            && after.Keys == states.Keys
            && tgt != Some(me)
            && after[me].totalDamage == states[me].totalDamage + states[me].currDamage
            && after[me].currDamage == 0
            && after[me].prevPose == host
            && after[me].pose == NextPose(num, maxSpeed, host, moveBy, turnBy)
            && forall a :: a in states && a != me ==>
                 after[a] == states[a].(currDamage := states[a].currDamage + if tgt == Some(a) then 1 else 0)
  {
    var synced := Synced(states, me, position, rotation);
    var tgt := TargetFor(num, Hypot, teams, team, synced[me].pose, PosesOf(synced));
    if tgt.Some? {
      assert teamOf[tgt.value] == 1 - team;
    }
  }

  /**
   * The reward vector `step` returns for the agent `me` of team `team` on a
   * non-initial tick, the poses being those after the resync: all zeroes
   * when its team is unknown, else the fitness dimensions in declared order.
   */
  function RewardOf(num: Numerics, dims: seq<Dimension>, maxDist: real, teams: map<int, seq<AgentId>>,
                    poses: map<AgentId, Pose>, me: AgentId, team: int, speed: real, flag: Point,
                    hit: bool, damage: nat): seq<real>
    requires Sound(num)
    requires me in poses
    requires Covers(teams, poses)
  {
    var pose := poses[me];
    var friends := MembersOrEmpty(teams, team);
    if friends == [] then Packed(ZeroFitness(dims), dims)
    else
      var friendDist := NearestDistance(num, Hypot, pose, me, Some(friends), poses, maxDist * 5.0);
      var foeDist := NearestDistance(num, Hypot, pose, me, Some(MembersOrEmpty(teams, 1 - team)), poses, maxDist * 5.0);
      var flagDist := Distance(num, pose.Position(), flag);
      Packed(Fitness(dims, speed, friendDist, foeDist, flagDist, hit, damage), dims)
  }


  class NeroEnvironment {
    const num: Numerics
    const maxSpeed: real         // MAX_MOVEMENT_SPEED
    const maxDist: real          // MAX_DIST = hypot(XDIM, YDIM)
    const dims: seq<Dimension>   // FITNESS_DIMENSIONS
    var maxSteps: int
    var states: map<AgentId, AgentState>
    var teams: map<int, seq<AgentId>>
    /** The team each known agent joined; the source keeps it only implicitly, in `teams`. */
    ghost var teamOf: map<AgentId, int>

    /** Every state is the record of its key, and the registry invariant holds over the known agents. */
    ghost predicate Valid()
      reads this
    {
      && Sound(num)
      && Registry(states.Keys, teams, teamOf)
      && (forall a :: a in states ==> states[a].id == a)
    }

    /** An agent never changes team: a known id comes with the team it joined. */
    ghost predicate KnownTeam(agent: AgentHandle)
      reads this
    {
      agent.id in teamOf ==> teamOf[agent.id] == agent.team
    }

    /** The registry part of the effect of `get_state(agent)`. */
    twostate predicate Admits(agent: AgentHandle)
      reads this
    {
      && teams == AdmittedTeams(old(states), old(teams), agent)
      && teamOf == if agent.id in old(states) then old(teamOf) else old(teamOf)[agent.id := agent.team]
    }

    constructor (num: Numerics, maxSpeed: real, xdim: real, ydim: real, dims: seq<Dimension>)
      requires Sound(num)
      ensures Valid()
      ensures this.num == num && this.maxSpeed == maxSpeed && this.dims == dims
      ensures maxDist == num.hypot(xdim, ydim) && maxSteps == 20
      ensures states == map[] && teams == map[]
    {
      this.num := num;
      this.maxSpeed := maxSpeed;
      this.maxDist := num.hypot(xdim, ydim);
      this.dims := dims;
      maxSteps := 20;
      states := map[];
      teams := map[];
      teamOf := map[];
    }

    /**
     * `get_state`: the agent's state, created on first contact together with
     * its entry in its team's dictionary; a repeated call changes nothing.
     */
    method GetState(agent: AgentHandle) returns (s: AgentState)
      requires Valid() && KnownTeam(agent)
      modifies this
      ensures Valid() && KnownTeam(agent) && maxSteps == old(maxSteps)
      ensures states == Admitted(old(states), agent.id) && Admits(agent)
      ensures agent.id in old(states) ==> unchanged(this)
      ensures s == states[agent.id]
    {
      if agent.id !in states {
        RegistryJoin(states.Keys, teams, teamOf, agent.id, agent.team);
        ghost var joined := RegisterTeams(teams, agent.team, agent.id);
        states := states[agent.id := NewState(agent.id)];
        if agent.team !in teams {
          teams := teams[agent.team := []];
        }
        teams := teams[agent.team := teams[agent.team] + [agent.id]];
        teamOf := teamOf[agent.id := agent.team];
        assert teams == joined;
        assert states.Keys == old(states).Keys + {agent.id};
      }
      s := states[agent.id];
    }

    /**
     * `getStateId`: a search of the states for the one whose id is `id`,
     * the sentinel -1 (here `None`) when there is none. Since every state
     * is the record of its key, it finds `states[id]` exactly when `id` is known.
     */
    method GetStateId(id: AgentId) returns (r: Option<AgentState>)
      requires Valid()
      ensures r.None? <==> forall k :: k in states ==> states[k].id != id
      ensures r.Some? ==> r.value.id == id && exists k :: k in states && states[k] == r.value
      ensures r == if id in states then Some(states[id]) else None
    {
      var unseen := states.Keys;
      while unseen != {}
        invariant unseen <= states.Keys
        invariant forall k :: k in states && k !in unseen ==> states[k].id != id
        decreases |unseen|
      {
        HasElement(unseen);
        var k :| k in unseen;
        if id == states[k].id {
          return Some(states[k]);
        }
        unseen := unseen - {k};
      }
      return None;
    }

    /** `getFriendFoe`: the dictionaries of the agent's team and of the other team, empty when unknown. */
    function FriendFoe(team: int): (r: (seq<AgentId>, seq<AgentId>))
      reads this
      requires Valid()
      ensures r.0 == MembersOrEmpty(teams, team) && r.1 == MembersOrEmpty(teams, 1 - team)
      ensures r.0 != [] <==> team in teams
      ensures forall a :: a in r.0 ==> a in states && teamOf[a] == team
      ensures forall a :: a in r.1 ==> a in states && teamOf[a] == 1 - team
    {
      (MembersOrEmpty(teams, team), MembersOrEmpty(teams, 1 - team))
    }

    /** The first loop of `target`: the foes within 2 degrees of the heading. */
    method CollectCandidates(from: Pose, foes: seq<AgentId>) returns (valids: seq<Candidate>)
      requires Valid()
      requires forall f :: f in foes ==> f in states
      ensures valids == Candidates(num, Hypot, from, foes, PosesOf(states))
    {
      valids := [];
      for i := 0 to |foes|
        invariant valids == Candidates(num, Hypot, from, foes[..i], PosesOf(states))
      {
        CandidatesExtend(num, Hypot, from, foes, PosesOf(states), i);
        var f := foes[i];
        var p := states[f].pose;
        var fd := Distance(num, from.Position(), p.Position());
        var fh := Bearing(num, Hypot, from, p);
        if fh <= 2.0 {
          valids := valids + [Candidate(f, fd, fh)];
        }
      }
      assert foes[..|foes|] == foes;
    }

    /** The second loop of `target`: the candidate of least cost, the first one on ties. */
    method PickTarget(valids: seq<Candidate>) returns (t: Option<AgentId>)
      requires Sound(num)
      requires forall c :: c in valids ==> 0.0 <= c.fh <= 2.0
      ensures t == Pick(num, valids)
    {
      ghost var costs := CandidateCosts(num, valids);
      var minA: Option<AgentId> := None;
      var minV: Option<real> := None;
      for i := 0 to |valids|
        invariant var r := Scan.FirstMin(costs[..i], None);
                  && minA == (if r.Some? then Some(valids[r.value].foe) else None)
                  && minV == Scan.Held(costs[..i], r, None)
      {
        Scan.FirstMinExtend(costs, None, i);
        var c := valids[i];
        assert c in valids;
        var v := c.fd / num.cosDeg(c.fh * 20.0);
        assert costs[i] == Some(v);
        if minV.None? || v < minV.value {
          minA := Some(c.foe);
          minV := Some(v);
        }
      }
      assert costs[..|valids|] == costs;
      t := minA;
    }

    /** `target`: nothing without a known friend team; otherwise the agent is looked up and aims. */
    method Target(agent: AgentHandle) returns (t: Option<AgentId>)
      requires Valid() && KnownTeam(agent)
      modifies this
      ensures Valid() && KnownTeam(agent) && maxSteps == old(maxSteps)
      ensures agent.id in old(states) || agent.team !in old(teams) ==> unchanged(this)
      ensures agent.team in old(teams) ==> states == Admitted(old(states), agent.id) && Admits(agent)
      ensures agent.team !in old(teams) ==> t.None?
      ensures agent.id in states ==> t == TargetFor(num, Hypot, teams, agent.team, states[agent.id].pose, PosesOf(states))
    {
      var (friends, _) := FriendFoe(agent.team);
      if friends == [] {
        return None;
      }
      var _ := GetState(agent);
      t := KnownTarget(agent);
    }

    /** `target` for an agent that has a state, where looking it up changes nothing. */
    method KnownTarget(agent: AgentHandle) returns (t: Option<AgentId>)
      requires Valid() && agent.id in states
      ensures t == TargetFor(num, Hypot, teams, agent.team, states[agent.id].pose, PosesOf(states))
    {
      var (friends, foes) := FriendFoe(agent.team);
      if friends == [] {
        return None;
      }
      var pose := states[agent.id].pose;
      var valids := CollectCandidates(pose, foes);
      t := PickTarget(valids);
    }

    /** `nearest`: the agent of the collection nearest to `loc`, other than `id`, within MAX_DIST * 5. */
    method Nearest(loc: Pose, id: AgentId, agents: seq<AgentId>) returns (n: Option<AgentId>)
      requires Valid()
      requires forall a :: a in agents ==> a in states
      ensures n == NearestOf(num, Hypot, loc, id, agents, PosesOf(states), maxDist * 5.0)
    {
      ghost var costs := NearestCosts(num, Hypot, loc, id, agents, PosesOf(states));
      var nearest: Option<AgentId> := None;
      var minDist := maxDist * 5.0;
      for i := 0 to |agents|
        invariant var r := Scan.FirstMin(costs[..i], Some(maxDist * 5.0));
                  && nearest == (if r.Some? then Some(agents[r.value]) else None)
                  && Some(minDist) == Scan.Held(costs[..i], r, Some(maxDist * 5.0))
      {
        Scan.FirstMinExtend(costs, Some(maxDist * 5.0), i);
        var a := agents[i];
        assert a in agents;
        if id == states[a].id {
          continue;
        }
        var d := Distance(num, loc.Position(), states[a].pose.Position());
        if d < minDist {
          nearest := Some(a);
          minDist := d;
        }
      }
      assert costs[..|agents|] == costs;
      n := nearest;
    }

    /** The distance from `loc` to the agent `nearest` finds, when it finds one. */
    method NearestDistanceFrom(loc: Pose, id: AgentId, agents: seq<AgentId>) returns (d: Option<real>)
      requires Valid()
      requires forall a :: a in agents ==> a in states
      ensures d == NearestDistance(num, Hypot, loc, id, Some(agents), PosesOf(states), maxDist * 5.0)
    {
      var n := Nearest(loc, id, agents);
      if n.Some? {
        d := Some(Distance(num, states[n.value].pose.Position(), loc.Position()));
      } else {
        d := None;
      }
    }

    /** Stores the updated record of a known agent. */
    method Put(s: AgentState)
      requires Valid() && s.id in states
      modifies this
      ensures Valid() && teams == old(teams) && teamOf == old(teamOf) && maxSteps == old(maxSteps)
      ensures states == old(states)[s.id := s]
    {
      states := states[s.id := s];
      assert states.Keys == old(states).Keys;
    }

    /** The target takes one more point of damage this tick. */
    method Bump(id: AgentId)
      requires Valid() && id in states
      modifies this
      ensures Valid() && teams == old(teams) && teamOf == old(teamOf) && maxSteps == old(maxSteps)
      ensures states == Struck(old(states), Some(id))
      ensures PosesOf(states) == PosesOf(old(states))
    {
      var target := states[id];
      Put(target.(currDamage := target.currDamage + 1));
      assert forall a :: a in states ==> states[a].pose == old(states)[a].pose;
    }

    /**
     * The shot of `step`: the agent aims, and a target it finds takes one
     * point of damage (the line-of-sight guard passes whatever the ray
     * returns); nobody moves.
     */
    method Strike(agent: AgentHandle, objects: seq<int>) returns (hit: bool)
      requires Valid() && agent.id in states && KnownTeam(agent)
      modifies this
      ensures Valid() && teams == old(teams) && teamOf == old(teamOf) && maxSteps == old(maxSteps)
      ensures var tgt := TargetFor(num, Hypot, teams, agent.team, old(states)[agent.id].pose, PosesOf(old(states)));
              && hit == tgt.Some?
              && states == Struck(old(states), tgt)
      ensures states[agent.id] == old(states)[agent.id]
      ensures PosesOf(states) == PosesOf(old(states))
    {
      hit := false;
      var data := KnownTarget(agent);
      if data.Some? {
        assert teamOf[data.value] == 1 - agent.team;
        if LineOfSightGuard(objects, data.value) {
          // get_state(data) finds the target's record, which is never the sentinel -1
          Bump(data.value);
          hit := true;
        }
      }
    }

    /** The fitness part of `step`, on the states after the shot: nothing changes but the reward vector. */
    method FillReward(agent: AgentHandle, speed: real, flag: Point, hit: bool, damage: nat, reward: array<real>)
      requires Valid() && agent.id in states && KnownTeam(agent)
      requires reward.Length == |dims|
      modifies reward
      ensures reward[..] == RewardOf(num, dims, maxDist, teams, PosesOf(states), agent.id, agent.team,
                                     speed, flag, hit, damage)
    {
      var state := states[agent.id];
      var (friends, foes) := FriendFoe(agent.team);
      // the agent is a member of its own team, so the corner case `if not friends` cannot occur
      assert agent.id in teams[agent.team];
      var friendDist := NearestDistanceFrom(state.pose, state.id, friends);
      var foeDist := NearestDistanceFrom(state.pose, state.id, foes);
      var flagDist := Distance(num, state.pose.Position(), flag);
      var R := Fitness(dims, speed, friendDist, foeDist, flagDist, hit, damage);
      PackReward(reward, R, dims);
    }

    /**
     * `step`: on the agent's first tick (turrets excepted) its episode
     * starts at the host pose, an agent turned to the random heading
     * `heading`, and the reward is zero. On every other tick the damage is
     * drained, the pose is resynced from the host, the agent shoots, the
     * reward is computed from the resynced poses and the agent moves.
     */
    method Step(agent: AgentHandle, action: seq<real>, hostStep: int, position: Vec3, rotation: Vec3,
                heading: int, objects: seq<int>, cfg: ModConfig) returns (reward: array<real>)
      requires Valid() && KnownTeam(agent) && ActionValid(action)
      requires 0 <= heading < 360
      modifies this
      ensures Valid() && KnownTeam(agent) && Admits(agent) && maxSteps == old(maxSteps)
      ensures states.Keys == Admitted(old(states), agent.id).Keys
      ensures fresh(reward)
      ensures var me := agent.id;
              var known := Admitted(old(states), me);
              if hostStep == 0 && agent.group != Turret then
                var r := if agent.group == Agent then rotation.(z := heading as real) else rotation;
                && states == known[me := Started(known[me], position, r)]
                && reward[..] == Packed(ZeroFitness(dims), dims)
              else
                var synced := Synced(known, me, position, rotation);
                && states == AfterTick(num, maxSpeed, teams, known, me, agent.team, position, rotation,
                                       action[0], num.degrees(action[1]))
                && reward[..] == RewardOf(num, dims, maxDist, teams, PosesOf(synced), me, agent.team, action[0], cfg.flag,
                                          TargetFor(num, Hypot, teams, agent.team, synced[me].pose, PosesOf(synced)).Some?,
                                          known[me].currDamage)
    {
      var state := GetState(agent);
      reward := NewReward(dims);
      if hostStep == 0 && agent.group != Turret {
        var r := rotation;
        if agent.group == Agent {
          r := r.(z := heading as real);
        }
        Put(Started(state, position, r));
        return;
      }
      Tick(agent, action, position, rotation, objects, cfg, reward);
    }

    /** A non-initial tick of `step` for an agent that has a state. */
    method Tick(agent: AgentHandle, action: seq<real>, position: Vec3, rotation: Vec3, objects: seq<int>,
                cfg: ModConfig, reward: array<real>)
      requires Valid() && agent.id in states && KnownTeam(agent) && ActionValid(action)
      requires reward.Length == |dims|
      modifies this, reward
      ensures Valid() && teams == old(teams) && teamOf == old(teamOf) && maxSteps == old(maxSteps)
      ensures var me := agent.id;
              var synced := Synced(old(states), me, position, rotation);
              && states == AfterTick(num, maxSpeed, teams, old(states), me, agent.team, position, rotation,
                                     action[0], num.degrees(action[1]))
              && reward[..] == RewardOf(num, dims, maxDist, teams, PosesOf(synced), me, agent.team, action[0], cfg.flag,
                                        TargetFor(num, Hypot, teams, agent.team, synced[me].pose, PosesOf(synced)).Some?,
                                        old(states)[me].currDamage)
    {
      // the damage of this tick is drained, then the pose is read from the host
      var drained, damage := Drained(states[agent.id]).0, Drained(states[agent.id]).1;
      Put(Resynced(drained, position, rotation));
      ghost var synced := states;
      var moveBy := action[0];
      var turnBy := num.degrees(action[1]);
      var hit := Strike(agent, objects);
      ghost var struck := states;
      FillReward(agent, action[0], cfg.flag, hit, damage, reward);
      Put(Moved(num, maxSpeed, states[agent.id], moveBy, turnBy));
      assert states == struck[agent.id := Moved(num, maxSpeed, struck[agent.id], moveBy, turnBy)];
    }

    /** The loop of `sense`: the agent's own position plus the positions of the members. */
    method TeamSum(pose: Pose, members: seq<AgentId>) returns (c: Point)
      requires forall a :: a in members ==> a in states
      ensures c == Point(pose.x + PositionSum(members, PosesOf(states)).x,
                         pose.y + PositionSum(members, PosesOf(states)).y)
    {
      var x, y := pose.x, pose.y;
      for i := 0 to |members|
        invariant x == pose.x + PositionSum(members[..i], PosesOf(states)).x
        invariant y == pose.y + PositionSum(members[..i], PosesOf(states)).y
      {
        assert members[..i + 1][..i] == members[..i];
        var a := members[i];
        assert a in members;
        var p := states[a].pose;
        x := x + p.x;
        y := y + p.y;
      }
      assert members[..|members|] == members;
      c := Point(x, y);
    }

    /**
     * `sense`: the agent is looked up, so its team is known and includes
     * it; the two slots before the last report the team's centre (Centre
     * over the team's size) and the last flags a target (SenseObs).
     */
    method Sense(agent: AgentHandle, observations: array<real>)
      requires Valid() && KnownTeam(agent) && observations.Length >= 3
      modifies this, observations
      ensures Valid() && KnownTeam(agent) && maxSteps == old(maxSteps)
      ensures states == Admitted(old(states), agent.id) && Admits(agent)
      ensures var pose := states[agent.id].pose;
              var c := Centre(pose.Position(), teams[agent.team], PosesOf(states), |teams[agent.team]| as real);
              observations[..] == SenseObs(old(observations[..]), Distance(num, pose.Position(), c),
                                           CentreHeading(num, Hypot, pose, c),
                                           TargetFor(num, Hypot, teams, agent.team, pose, PosesOf(states)).Some?)
    {
      ghost var before := observations[..];
      assert |before| == observations.Length;
      var _ := GetState(agent);
      assert observations[..] == before;
      SenseKnown(agent, observations);
    }

    /** `sense` for an agent that has a state: only the observations change. */
    method SenseKnown(agent: AgentHandle, observations: array<real>)
      requires Valid() && agent.id in states && KnownTeam(agent) && observations.Length >= 3
      modifies observations
      ensures agent.team in teams
      ensures var pose := states[agent.id].pose;
              var c := Centre(pose.Position(), teams[agent.team], PosesOf(states), |teams[agent.team]| as real);
              observations[..] == SenseObs(old(observations[..]), Distance(num, pose.Position(), c),
                                           CentreHeading(num, Hypot, pose, c),
                                           TargetFor(num, Hypot, teams, agent.team, pose, PosesOf(states)).Some?)
    {
      var fd, fh := SenseCentre(agent);
      WriteCentre(observations, fd, fh);
      // `target` of an agent that has a state: its own lookup changes nothing
      var data := KnownTarget(agent);
      WriteFlag(observations, data.Some?);
    }

    /** The centre part of `sense` for a known agent: the distance and heading of its team's centre. */
    method SenseCentre(agent: AgentHandle) returns (fd: real, fh: real)
      requires Valid() && agent.id in states && KnownTeam(agent)
      ensures agent.team in teams
      ensures var pose := states[agent.id].pose;
              var c := Centre(pose.Position(), teams[agent.team], PosesOf(states), |teams[agent.team]| as real);
              fd == Distance(num, pose.Position(), c) && fh == CentreHeading(num, Hypot, pose, c)
    {
      var state := states[agent.id];
      var (friends, _) := FriendFoe(agent.team);
      // the lookup put the agent in its team, so the `return v` branch cannot occur
      assert agent.id in teams[agent.team];
      var sum := TeamSum(state.pose, friends);
      var n := |friends| as real;
      var c := Point(sum.x / n, sum.y / n);
      fd := Distance(num, state.pose.Position(), c);
      fh := 0.0;
      if fd != 0.0 {
        fh := FloatMod(num.atan2Deg(c.y - state.pose.y, c.x - state.pose.x) - state.pose.heading, 360.0) - 180.0;
      }
    }

    /** The centre slots of `sense`. */
    static method WriteCentre(observations: array<real>, fd: real, fh: real)
      requires observations.Length >= 3
      modifies observations
      ensures observations[..] == CentreObs(old(observations[..]), fd, fh)
    {
      var f := observations.Length;
      if fd <= 15.0 {
        observations[f - 3] := fd / 15.0;
        observations[f - 2] := fh / 360.0;
      }
      if observations[f - 2] < 0.0 {
        observations[f - 2] := observations[f - 2] + 1.0;
      }
    }

    /** The last slot of `sense`: 1 when there is a target, else 0. */
    static method WriteFlag(observations: array<real>, hasTarget: bool)
      requires observations.Length >= 3
      modifies observations
      ensures observations[..] == old(observations[..])[observations.Length - 1 := if hasTarget then 1.0 else 0.0]
    {
      observations[observations.Length - 1] := if hasTarget then 1.0 else 0.0;
    }

    /**
     * `reset`: an agent (not a turret) is moved to the spawn point jittered
     * by (dx, dy), the offsets the source draws at random, both poses there
     * with the initial heading; the damage counters are cleared.
     */
    method Reset(agent: AgentHandle, cfg: ModConfig, dx: real, dy: real) returns (ok: bool)
      requires Valid() && KnownTeam(agent)
      modifies this
      ensures Valid() && KnownTeam(agent) && Admits(agent) && maxSteps == old(maxSteps)
      ensures ok
      ensures var known := Admitted(old(states), agent.id);
              var s := known[agent.id];
              var ip := s.initialPosition.(x := cfg.spawn.x + dx, y := cfg.spawn.y + dy);
              var p := Pose(ip.x, ip.y, s.initialRotation.z);
              var moved := if agent.group == Agent then s.(initialPosition := ip, pose := p, prevPose := p) else s;
              states == known[agent.id := moved.(totalDamage := 0, currDamage := 0)]
    {
      var state := GetState(agent);
      if agent.group == Agent {
        var ip := state.initialPosition.(x := cfg.spawn.x + dx, y := cfg.spawn.y + dy);
        var p := Pose(ip.x, ip.y, state.initialRotation.z);
        state := state.(initialPosition := ip, pose := p, prevPose := p);
      }
      state := state.(totalDamage := 0, currDamage := 0);
      Put(state);
      ok := true;
    }

    /**
     * `is_episode_over`: never for a turret; otherwise the lifetime is read
     * from the mod into `maxSteps` and the episode is over as EpisodeOver says.
     */
    method IsEpisodeOver(agent: AgentHandle, cfg: ModConfig, hostStep: int, hasOrganism: bool) returns (over: bool)
      requires Valid() && KnownTeam(agent)
      modifies this
      ensures Valid() && KnownTeam(agent)
      ensures agent.group == Turret ==> !over && unchanged(this)
      ensures agent.group != Turret ==>
                && states == Admitted(old(states), agent.id) && Admits(agent) && maxSteps == cfg.lt
                && over == EpisodeOver(agent.group, cfg.lt, hostStep, hasOrganism, cfg.hp, states[agent.id].totalDamage)
    {
      if agent.group == Turret {
        return false;
      }
      maxSteps := cfg.lt;
      var state := GetState(agent);
      if maxSteps != 0 && hostStep >= maxSteps {
        return true;
      }
      if !hasOrganism {
        return true;
      }
      if cfg.hp != 0 && state.totalDamage >= cfg.hp {
        return true;
      } else {
        return false;
      }
    }
  }
}
