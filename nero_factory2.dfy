/**
 * The factory2 variant of the NERO environment,
 * branches/factory2/mods/NERO/NeroEnvironment.py.
 *
 * It aims like the rtneat variant (ConeTarget) but measures every distance
 * as the root of the summed squares (`RootOfSquares`). Its `step` starts
 * every agent's episode on the first tick, turrets included, never resyncs
 * the pose from the host, and rewards by dividing the mod's distance
 * parameters by distances. Its `nearest` never lowers its cap, and
 * `is_episode_over` has no turret exemption and no organism check.
 */
module NeroFactory2 {
  import opened Geometry
  import opened NeroCommon
  import opened ConeTarget
  import Scan

  /** The per-agent record; the wall-clock and animation fields are not modelled. */
  datatype AgentState = AgentState(
    id: AgentId,
    pose: Pose,
    prevPose: Pose,
    initialPosition: Vec3,
    initialRotation: Vec3,
    totalDamage: nat,
    currDamage: nat)

  /** `AgentState()` with its id then set from the agent: at the origin, no damage. */
  function NewState(id: AgentId): (s: AgentState)
    ensures s.id == id && s.totalDamage == 0 && s.currDamage == 0
    ensures s.pose == Pose(0.0, 0.0, 0.0) && s.prevPose == s.pose
  {
    AgentState(id, Pose(0.0, 0.0, 0.0), Pose(0.0, 0.0, 0.0), Vec3(0.0, 0.0, 0.0), Vec3(0.0, 0.0, 0.0), 0, 0)
  }

  /** The states after `get_state(agent)`: a state is created for an unknown agent. */
  function Admitted(states: map<AgentId, AgentState>, id: AgentId): (states': map<AgentId, AgentState>)
    ensures states'.Keys == states.Keys + {id}
    ensures id in states ==> states' == states
    ensures id !in states ==> states'[id] == NewState(id)
  {
    if id in states then states else states[id := NewState(id)]
  }

  /** The registry after `get_state(agent)`: an unknown agent joins its team. */
  function AdmittedTeams(states: map<AgentId, AgentState>, teams: map<int, seq<AgentId>>,
                         agent: AgentHandle): map<int, seq<AgentId>>
  {
    if agent.id in states then teams else RegisterTeams(teams, agent.team, agent.id)
  }

  /** The poses of all known agents. */
  function PosesOf(states: map<AgentId, AgentState>): (poses: map<AgentId, Pose>)
    ensures poses.Keys == states.Keys
  {
    map a | a in states :: states[a].pose
  }

  /**
   * The agent `nearest` returns, `None` standing for its sentinel 1: the
   * scan skips `id` and, since the cap `value` is never lowered, keeps the
   * LAST other agent closer than `cap`.
   */
  function LastNearestOf(num: Numerics, loc: Pose, id: AgentId, agents: seq<AgentId>,
                         poses: map<AgentId, Pose>, cap: real): (n: Option<AgentId>)
    requires Sound(num)
    requires forall a :: a in agents ==> a in poses
    ensures n.Some? ==> n.value in agents
  {
    match Scan.LastBelow(NearestCosts(num, RootOfSquares, loc, id, agents, poses), cap)
    case None => None
    case Some(k) => Some(agents[k])
  }

  /**
   * `nearest` gives the sentinel exactly when every other agent is at least
   * `cap` away; otherwise it returns an agent other than `id`, closer than
   * `cap`, after which in iteration order no other agent is closer than `cap`.
   */
  lemma LastNearestIsLastInRange(num: Numerics, loc: Pose, id: AgentId, agents: seq<AgentId>,
                                 poses: map<AgentId, Pose>, cap: real)
    requires Sound(num)
    requires forall a :: a in agents ==> a in poses
    ensures LastNearestOf(num, loc, id, agents, poses, cap).None? <==>
              forall i :: 0 <= i < |agents| && agents[i] != id ==>
                SqrtDistance(num, loc.Position(), poses[agents[i]].Position()) >= cap
    ensures LastNearestOf(num, loc, id, agents, poses, cap).Some? ==>
              var n := LastNearestOf(num, loc, id, agents, poses, cap).value;
              && n != id && n in agents
              && SqrtDistance(num, loc.Position(), poses[n].Position()) < cap
              && exists k :: 0 <= k < |agents| && agents[k] == n &&
                   forall j :: k < j < |agents| && agents[j] != id ==>
                     SqrtDistance(num, loc.Position(), poses[agents[j]].Position()) >= cap
  {
    var costs := NearestCosts(num, RootOfSquares, loc, id, agents, poses);
    Scan.LastBelowMeetsSpec(costs, cap);
    match Scan.LastBelow(costs, cap)
    case None =>
      forall i | 0 <= i < |agents| && agents[i] != id
        ensures SqrtDistance(num, loc.Position(), poses[agents[i]].Position()) >= cap
      {
        assert costs[i] == Some(SqrtDistance(num, loc.Position(), poses[agents[i]].Position()));
      }
    case Some(k) =>
      assert costs[k].Some? && agents[k] in agents;
      forall j | k < j < |agents| && agents[j] != id
        ensures SqrtDistance(num, loc.Position(), poses[agents[j]].Position()) >= cap
      {
        assert costs[j] == Some(SqrtDistance(num, loc.Position(), poses[agents[j]].Position()));
      }
  }

  /**
   * `nearest` need not return the nearest agent: of two other agents both
   * in range, the one iterated later is returned even when it is farther.
   */
  lemma LastNearestNotNearest(num: Numerics, loc: Pose, id: AgentId, a: AgentId, b: AgentId,
                              poses: map<AgentId, Pose>, cap: real)
    requires Sound(num)
    requires a in poses && b in poses && a != id && b != id
    requires SqrtDistance(num, loc.Position(), poses[a].Position()) <
             SqrtDistance(num, loc.Position(), poses[b].Position()) < cap
    ensures LastNearestOf(num, loc, id, [a, b], poses, cap) == Some(b)
  {
    var costs := NearestCosts(num, RootOfSquares, loc, id, [a, b], poses);
    assert costs[1] == Some(SqrtDistance(num, loc.Position(), poses[b].Position()));
  }

  /**
   * The distance `step` divides by, as the code evidently intends it: from
   * the recorded pose of the agent found by `nearest` to the agent's pose.
   */
  function FoundDistance(num: Numerics, found: Option<AgentId>, pose: Pose, poses: map<AgentId, Pose>): (d: Option<real>)
    requires Sound(num)
    requires found.Some? ==> found.value in poses
    ensures d.Some? <==> found.Some?
    ensures d.Some? ==> d.value >= 0.0
  {
    if found.None? then None
    else Some(SqrtDistance(num, poses[found.value].Position(), pose.Position()))
  }

  /**
   * With the found agent's recorded pose, the reward has a distance exactly
   * when another member is closer than the cap, and that distance is below
   * the cap.
   */
  lemma FoundDistanceOfLastNearest(num: Numerics, loc: Pose, id: AgentId, agents: seq<AgentId>,
                                   poses: map<AgentId, Pose>, cap: real)
    requires Sound(num)
    requires forall a :: a in agents ==> a in poses
    ensures var d := FoundDistance(num, LastNearestOf(num, loc, id, agents, poses, cap), loc, poses);
            && (d.None? <==>
                  forall i :: 0 <= i < |agents| && agents[i] != id ==>
                    SqrtDistance(num, loc.Position(), poses[agents[i]].Position()) >= cap)
            && (d.Some? ==> 0.0 <= d.value < cap)
  {
    LastNearestIsLastInRange(num, loc, id, agents, poses, cap);
    var n := LastNearestOf(num, loc, id, agents, poses, cap);
    if n.Some? {
      SqrtDistanceSymmetric(num, poses[n.value].Position(), loc.Position());
    }
  }

  /**
   * Lines 301-304 as written read `pose` from what `nearest` returned. For
   * a found agent that is the agent handle, a key of the team's dictionary,
   * not its record, and the handle has no `pose`: the read raises
   * AttributeError, here `None`. Only the sentinel gets through, with no
   * distance.
   */
  function FoundDistanceAsWritten(found: Option<AgentId>): (d: Option<Option<real>>)
    ensures d.None? <==> found.Some?
    ensures d.Some? ==> d.value.None?
  {
    if found.None? then Some(None) else None
  }

  /**
   * As written, the reward part of `step` raises as soon as a team it
   * searches has a member other than the agent closer than the cap.
   */
  lemma AsWrittenRaisesWithMemberInRange(num: Numerics, loc: Pose, id: AgentId, agents: seq<AgentId>,
                                         poses: map<AgentId, Pose>, cap: real, other: AgentId)
    requires Sound(num)
    requires forall a :: a in agents ==> a in poses
    requires other in agents && other != id
    requires SqrtDistance(num, loc.Position(), poses[other].Position()) < cap
    ensures FoundDistanceAsWritten(LastNearestOf(num, loc, id, agents, poses, cap)).None?
  {
    LastNearestIsLastInRange(num, loc, id, agents, poses, cap);
    var i :| 0 <= i < |agents| && agents[i] == other;
  }

  /** A distance parameter divided by a found, nonzero distance. */
  function Over(param: real, d: Option<real>): (r: Option<real>)
    ensures r.Some? <==> d.Some? && d.value != 0.0
  {
    if d.Some? && d.value != 0.0 then Some(param / d.value) else None
  }

  /**
   * The fitness dimensions of one tick: stand-ground is dta over the
   * nearest friend's distance when there is one at a nonzero distance, else
   * minus the speed; approach-enemy is dtb over the nearest foe's distance
   * under the same condition, else 0; approach-flag is dtc over the flag
   * distance; stick-together stays 0; hit-target is 1 for a hit and 0
   * otherwise; avoid-fire is minus the damage drained this tick.
   */
  function TickFitness(dims: seq<Dimension>, speed: real, friendDist: Option<real>, foeDist: Option<real>,
                       flagDist: real, cfg: ModConfig, hit: bool, damage: nat): (R: map<Dimension, real>)
    requires flagDist != 0.0
    ensures forall d :: d in dims ==> d in R
    ensures StandGround in R
    ensures Over(cfg.dta, friendDist).None? ==> R[StandGround] == -speed
    ensures Over(cfg.dta, friendDist).Some? ==> R[StandGround] == cfg.dta / friendDist.value
    ensures StickTogether in R ==> R[StickTogether] == 0.0
    ensures ApproachEnemy in R ==>
              R[ApproachEnemy] == if Over(cfg.dtb, foeDist).Some? then cfg.dtb / foeDist.value else 0.0
    ensures ApproachFlag in R && R[ApproachFlag] == cfg.dtc / flagDist
    ensures HitTarget in R && (R[HitTarget] == 1.0 <==> hit) && (R[HitTarget] == 0.0 <==> !hit)
    ensures AvoidFire in R && R[AvoidFire] == -(damage as real)
  {
    var stand := Over(cfg.dta, friendDist);
    var enemy := Over(cfg.dtb, foeDist);
    var R := ZeroFitness(dims)[StandGround := if stand.Some? then stand.value else -speed];
    var R := if enemy.Some? then R[ApproachEnemy := enemy.value] else R;
    R[ApproachFlag := cfg.dtc / flagDist][HitTarget := if hit then 1.0 else 0.0][AvoidFire := -(damage as real)]
  }

  /**
   * The reward vector `step` returns for the agent `me` of team `team` on a
   * non-initial tick: the fitness dimensions, in declared order, from the
   * agents `nearest` returns among its team and among the other team.
   */
  function RewardOf(num: Numerics, dims: seq<Dimension>, maxDist: real, teams: map<int, seq<AgentId>>,
                    poses: map<AgentId, Pose>, me: AgentId, team: int, speed: real, cfg: ModConfig,
                    hit: bool, damage: nat): seq<real>
    requires Sound(num)
    requires me in poses
    requires Covers(teams, poses)
    requires SqrtDistance(num, poses[me].Position(), cfg.flag) != 0.0
  {
    var pose := poses[me];
    var friend := LastNearestOf(num, pose, me, MembersOrEmpty(teams, team), poses, maxDist * 5.0);
    var foe := LastNearestOf(num, pose, me, MembersOrEmpty(teams, 1 - team), poses, maxDist * 5.0);
    Packed(TickFitness(dims, speed, FoundDistance(num, friend, pose, poses), FoundDistance(num, foe, pose, poses),
                       SqrtDistance(num, pose.Position(), cfg.flag), cfg, hit, damage), dims)
  }

  /** The drain of a tick: the damage of this tick moves into the total, and the drained amount is returned. */
  function Drained(s: AgentState): (r: (AgentState, nat))
    ensures r.1 == s.currDamage
    ensures r.0.currDamage == 0 && r.0.totalDamage + r.0.currDamage == s.totalDamage + s.currDamage
    ensures r.0.(totalDamage := s.totalDamage, currDamage := s.currDamage) == s
  {
    (s.(totalDamage := s.totalDamage + s.currDamage, currDamage := 0), s.currDamage)
  }

  /** The first tick: the episode starts at the host pose, both poses there. */
  function Started(s: AgentState, position: Vec3, rotation: Vec3): (s': AgentState)
    ensures s'.initialPosition == position && s'.initialRotation == rotation
    ensures s'.pose == Pose(position.x, position.y, rotation.z) && s'.prevPose == s'.pose
    ensures s'.(pose := s.pose, prevPose := s.prevPose, initialPosition := s.initialPosition,
                initialRotation := s.initialRotation) == s
  {
    var p := Pose(position.x, position.y, rotation.z);
    s.(initialPosition := position, initialRotation := rotation, pose := p, prevPose := p)
  }

  /** The committed motion: the pose is remembered and the kinematic step applied to it. */
  function Moved(num: Numerics, maxSpeed: real, s: AgentState, moveBy: real, turnBy: real): (s': AgentState)
    ensures s'.prevPose == s.pose
    ensures s'.pose == NextPose(num, maxSpeed, s.pose, moveBy, turnBy)
    ensures s'.(pose := s.pose, prevPose := s.prevPose) == s
  {
    s.(prevPose := s.pose, pose := NextPose(num, maxSpeed, s.pose, moveBy, turnBy))
  }

  /** The states after a found target took one point of damage. */
  function Struck(states: map<AgentId, AgentState>, target: Option<AgentId>): map<AgentId, AgentState>
    requires target.Some? ==> target.value in states
  {
    if target.None? then states
    else states[target.value := states[target.value].(currDamage := states[target.value].currDamage + 1)]
  }

  /**
   * The states after a non-initial `step` of agent `me`: drained, its
   * target struck, then moved from the pose it had.
   */
  function AfterTick(num: Numerics, maxSpeed: real, teams: map<int, seq<AgentId>>, states: map<AgentId, AgentState>,
                     me: AgentId, team: int, moveBy: real, turnBy: real): map<AgentId, AgentState>
    requires Sound(num) && me in states
    requires Covers(teams, states)
  {
    var drained := states[me := Drained(states[me]).0];
    var struck := Struck(drained, TargetFor(num, RootOfSquares, teams, team, states[me].pose, PosesOf(drained)));
    struck[me := Moved(num, maxSpeed, struck[me], moveBy, turnBy)]
  }

  /**
   * What a non-initial `step` does to the states: the target is chosen from
   * the poses as they were, the agent's damage of this tick moves into its
   * total, its previous pose is its old pose and its pose the kinematic
   * step from there; the targeted foe, and only it, has one more point of
   * damage; no other record changes.
   */
  lemma TickEffect(num: Numerics, maxSpeed: real, teams: map<int, seq<AgentId>>, teamOf: map<AgentId, int>,
                   states: map<AgentId, AgentState>, me: AgentId, team: int, moveBy: real, turnBy: real)
    requires Sound(num) && Registry(states.Keys, teams, teamOf)
    requires me in teamOf && teamOf[me] == team
    ensures var after := AfterTick(num, maxSpeed, teams, states, me, team, moveBy, turnBy);
            var tgt := TargetFor(num, RootOfSquares, teams, team, states[me].pose, PosesOf(states));
            && after.Keys == states.Keys
            && tgt != Some(me)
            && after[me].totalDamage == states[me].totalDamage + states[me].currDamage
            && after[me].currDamage == 0
            && after[me].prevPose == states[me].pose
            && after[me].pose == NextPose(num, maxSpeed, states[me].pose, moveBy, turnBy)
            && forall a :: a in states && a != me ==>
                 after[a] == states[a].(currDamage := states[a].currDamage + if tgt == Some(a) then 1 else 0)
  {
    var drained := states[me := Drained(states[me]).0];
    assert PosesOf(drained) == PosesOf(states);
    var tgt := TargetFor(num, RootOfSquares, teams, team, states[me].pose, PosesOf(states));
    if tgt.Some? {
      assert teamOf[tgt.value] == 1 - team;
    }
  }

  /**
   * `is_episode_over` of this variant: the lifetime is used up or the
   * damage reached the hit points.
   */
  function EpisodeOverAt(lt: int, step: int, hp: int, totalDamage: int): (over: bool)
    ensures over <==> (lt != 0 && step >= lt) || (hp != 0 && totalDamage >= hp)
  {
    if lt != 0 && step >= lt then true
    else if hp != 0 && totalDamage >= hp then true
    else false
  }

  /**
   * The rule is the main variant's for an agent that is not a turret and
   * still has an organism, so a turret's episode here ends by the same caps.
   */
  lemma EpisodeOverAtIsMainRule(group: Group, lt: int, step: int, hp: int, totalDamage: int)
    requires group != Turret
    ensures EpisodeOverAt(lt, step, hp, totalDamage) == EpisodeOver(group, lt, step, true, hp, totalDamage)
  {
  }

  class NeroEnvironment {
    const num: Numerics
    const maxSpeed: real         // MAX_MOVEMENT_SPEED
    const maxDist: real          // MAX_DIST = pow(XDIM ** 2 + YDIM ** 2, .5)
    const dims: seq<Dimension>   // FITNESS_DIMENSIONS
    var maxSteps: int
    var states: map<AgentId, AgentState>
    var teams: map<int, seq<AgentId>>
    /** The team each known agent joined; the source keeps it only implicitly, in `teams`. */
    ghost var teamOf: map<AgentId, int>

    /** Every state is the record of its key, and the registry invariant holds over the known agents. */
    ghost predicate Valid()
      reads this
    {
      && Sound(num)
      && Registry(states.Keys, teams, teamOf)
      && (forall a :: a in states ==> states[a].id == a)
    }

    /** An agent never changes team: a known id comes with the team it joined. */
    ghost predicate KnownTeam(agent: AgentHandle)
      reads this
    {
      agent.id in teamOf ==> teamOf[agent.id] == agent.team
    }

    /** The registry part of the effect of `get_state(agent)`. */
    twostate predicate Admits(agent: AgentHandle)
      reads this
    {
      && teams == AdmittedTeams(old(states), old(teams), agent)
      && teamOf == if agent.id in old(states) then old(teamOf) else old(teamOf)[agent.id := agent.team]
    }

    constructor (num: Numerics, maxSpeed: real, xdim: real, ydim: real, dims: seq<Dimension>)
      requires Sound(num)
      ensures Valid()
      ensures this.num == num && this.maxSpeed == maxSpeed && this.dims == dims
      ensures maxDist == num.sqrt(xdim * xdim + ydim * ydim) && maxSteps == 20
      ensures states == map[] && teams == map[]
    {
      this.num := num;
      this.maxSpeed := maxSpeed;
      this.maxDist := num.sqrt(xdim * xdim + ydim * ydim);
      this.dims := dims;
      maxSteps := 20;
      states := map[];
      teams := map[];
      teamOf := map[];
    }

    /**
     * `get_state`: the agent's state, created on first contact with the
     * agent's id, together with its entry in its team's dictionary; a
     * repeated call changes nothing.
     */
    method GetState(agent: AgentHandle) returns (s: AgentState)
      requires Valid() && KnownTeam(agent)
      modifies this
      ensures Valid() && KnownTeam(agent) && maxSteps == old(maxSteps)
      ensures states == Admitted(old(states), agent.id) && Admits(agent)
      ensures agent.id in old(states) ==> unchanged(this)
      ensures s == states[agent.id]
    {
      if agent.id !in states {
        RegistryJoin(states.Keys, teams, teamOf, agent.id, agent.team);
        ghost var joined := RegisterTeams(teams, agent.team, agent.id);
        states := states[agent.id := NewState(agent.id)];
        if agent.team !in teams {
          teams := teams[agent.team := []];
        }
        teams := teams[agent.team := teams[agent.team] + [agent.id]];
        teamOf := teamOf[agent.id := agent.team];
        assert teams == joined;
        assert states.Keys == old(states).Keys + {agent.id};
      }
      s := states[agent.id];
    }

    /**
     * `getStateId`: a search of the states for the one whose id is `id`,
     * the sentinel -1 (here `None`) when there is none. Since every state
     * is the record of its key, it finds `states[id]` exactly when `id` is known.
     */
    method GetStateId(id: AgentId) returns (r: Option<AgentState>)
      requires Valid()
      ensures r.None? <==> forall k :: k in states ==> states[k].id != id
      ensures r.Some? ==> r.value.id == id && exists k :: k in states && states[k] == r.value
      ensures r == if id in states then Some(states[id]) else None
    {
      var unseen := states.Keys;
      while unseen != {}
        invariant unseen <= states.Keys
        invariant forall k :: k in states && k !in unseen ==> states[k].id != id
        decreases |unseen|
      {
        HasElement(unseen);
        var k :| k in unseen;
        if id == states[k].id {
          return Some(states[k]);
        }
        unseen := unseen - {k};
      }
      return None;
    }

    /** `getFriendFoe`: the dictionaries of the agent's team and of the other team, `[]` when unknown. */
    function FriendFoe(team: int): (r: (seq<AgentId>, seq<AgentId>))
      reads this
      requires Valid()
      ensures r.0 == MembersOrEmpty(teams, team) && r.1 == MembersOrEmpty(teams, 1 - team)
      ensures r.0 != [] <==> team in teams
      ensures forall a :: a in r.0 ==> a in states && teamOf[a] == team
      ensures forall a :: a in r.1 ==> a in states && teamOf[a] == 1 - team
    {
      (MembersOrEmpty(teams, team), MembersOrEmpty(teams, 1 - team))
    }

    /** The first loop of `target`: the foes within 2 degrees of the heading. */
    method CollectCandidates(from: Pose, foes: seq<AgentId>) returns (valids: seq<Candidate>)
      requires Valid()
      requires forall f :: f in foes ==> f in states
      ensures valids == Candidates(num, RootOfSquares, from, foes, PosesOf(states))
    {
      valids := [];
      for i := 0 to |foes|
        invariant valids == Candidates(num, RootOfSquares, from, foes[..i], PosesOf(states))
      {
        CandidatesExtend(num, RootOfSquares, from, foes, PosesOf(states), i);
        var f := foes[i];
        var p := states[f].pose;
        var fd := Dist(num, RootOfSquares, from.Position(), p.Position());
        var fh := Bearing(num, RootOfSquares, from, p);
        if fh <= 2.0 {
          valids := valids + [Candidate(f, fd, fh)];
        }
      }
      assert foes[..|foes|] == foes;
    }

    /**
     * The second loop of `target`: the candidate of least cost, the first
     * one on ties; the sentinel 'A' of `top_v` is written `None`.
     */
    method PickTarget(valids: seq<Candidate>) returns (t: Option<AgentId>)
      requires Sound(num)
      requires forall c :: c in valids ==> 0.0 <= c.fh <= 2.0
      ensures t == Pick(num, valids)
    {
      ghost var costs := CandidateCosts(num, valids);
      var top: Option<AgentId> := None;
      var topV: Option<real> := None;
      for i := 0 to |valids|
        invariant var r := Scan.FirstMin(costs[..i], None);
                  && top == (if r.Some? then Some(valids[r.value].foe) else None)
                  && topV == Scan.Held(costs[..i], r, None)
      {
        Scan.FirstMinExtend(costs, None, i);
        var c := valids[i];
        assert c in valids;
        assert costs[i] == Some(c.fd / num.cosDeg(c.fh * 20.0));
        if topV.None? || topV.value > c.fd / num.cosDeg(c.fh * 20.0) {
          top := Some(c.foe);
          topV := Some(c.fd / num.cosDeg(c.fh * 20.0));
        }
      }
      assert costs[..|valids|] == costs;
      t := top;
    }

    /** `target`: nothing without a known friend team; otherwise the agent is looked up and aims. */
    method Target(agent: AgentHandle) returns (t: Option<AgentId>)
      requires Valid() && KnownTeam(agent)
      modifies this
      ensures Valid() && KnownTeam(agent) && maxSteps == old(maxSteps)
      ensures agent.id in old(states) || agent.team !in old(teams) ==> unchanged(this)
      ensures agent.team in old(teams) ==> states == Admitted(old(states), agent.id) && Admits(agent)
      ensures agent.team !in old(teams) ==> t.None?
      ensures agent.id in states ==>
                t == TargetFor(num, RootOfSquares, teams, agent.team, states[agent.id].pose, PosesOf(states))
    {
      var (friends, _) := FriendFoe(agent.team);
      if friends == [] {
        return None;
      }
      var _ := GetState(agent);
      t := KnownTarget(agent);
    }

    /** `target` for an agent that has a state, where looking it up changes nothing. */
    method KnownTarget(agent: AgentHandle) returns (t: Option<AgentId>)
      requires Valid() && agent.id in states
      ensures t == TargetFor(num, RootOfSquares, teams, agent.team, states[agent.id].pose, PosesOf(states))
    {
      var (friends, foes) := FriendFoe(agent.team);
      if friends == [] {
        return None;
      }
      var pose := states[agent.id].pose;
      var valids := CollectCandidates(pose, foes);
      t := PickTarget(valids);
    }

    /**
     * `nearest`: the last agent of the collection, other than `id`, closer
     * to `loc` than MAX_DIST * 5 (LastNearestOf).
     */
    method Nearest(loc: Pose, id: AgentId, agents: seq<AgentId>) returns (n: Option<AgentId>)
      requires Valid()
      requires forall a :: a in agents ==> a in states
      ensures n == LastNearestOf(num, loc, id, agents, PosesOf(states), maxDist * 5.0)
    {
      ghost var costs := NearestCosts(num, RootOfSquares, loc, id, agents, PosesOf(states));
      var nearest: Option<AgentId> := None;
      var value := maxDist * 5.0;
      for i := 0 to |agents|
        invariant var r := Scan.LastBelow(costs[..i], maxDist * 5.0);
                  nearest == if r.Some? then Some(agents[r.value]) else None
        invariant value == maxDist * 5.0
      {
        Scan.LastBelowExtend(costs, maxDist * 5.0, i);
        var a := agents[i];
        assert a in agents;
        if id == states[a].id {
          continue;
        }
        if SqrtDistance(num, loc.Position(), states[a].pose.Position()) < value {
          nearest := Some(a);
          // the source computes the new cap but never stores it, so the cap stays at its start value
        }
      }
      assert costs[..|agents|] == costs;
      n := nearest;
    }

    /** The distance `step` divides by for the agent `nearest` finds, when it finds one. */
    method FoundDistanceFrom(loc: Pose, id: AgentId, agents: seq<AgentId>) returns (d: Option<real>)
      requires Valid()
      requires forall a :: a in agents ==> a in states
      ensures d == FoundDistance(num, LastNearestOf(num, loc, id, agents, PosesOf(states), maxDist * 5.0),
                                 loc, PosesOf(states))
    {
      var n := Nearest(loc, id, agents);
      if n.Some? {
        d := Some(SqrtDistance(num, states[n.value].pose.Position(), loc.Position()));
      } else {
        d := None;
      }
    }

    /** Stores the updated record of a known agent. */
    method Put(s: AgentState)
      requires Valid() && s.id in states
      modifies this
      ensures Valid() && teams == old(teams) && teamOf == old(teamOf) && maxSteps == old(maxSteps)
      ensures states == old(states)[s.id := s]
    {
      states := states[s.id := s];
      assert states.Keys == old(states).Keys;
    }

    /** The drain of `step`: the damage of this tick moves into the total; nobody moves. */
    method Drain(id: AgentId) returns (damage: nat)
      requires Valid() && id in states
      modifies this
      ensures Valid() && teams == old(teams) && teamOf == old(teamOf) && maxSteps == old(maxSteps)
      ensures states == old(states)[id := Drained(old(states)[id]).0]
      ensures damage == Drained(old(states)[id]).1
      ensures PosesOf(states) == PosesOf(old(states))
    {
      var state := states[id];
      var total := state.totalDamage + state.currDamage;
      damage := state.currDamage;
      Put(state.(totalDamage := total, currDamage := 0));
      assert forall a :: a in states ==> states[a].pose == old(states)[a].pose;
    }

    /** The target takes one more point of damage this tick. */
    method Bump(id: AgentId)
      requires Valid() && id in states
      modifies this
      ensures Valid() && teams == old(teams) && teamOf == old(teamOf) && maxSteps == old(maxSteps)
      ensures states == Struck(old(states), Some(id))
      ensures PosesOf(states) == PosesOf(old(states))
    {
      var target := states[id];
      Put(target.(currDamage := target.currDamage + 1));
      assert forall a :: a in states ==> states[a].pose == old(states)[a].pose;
    }

    /**
     * The shot of `step`: the agent aims, and a target it finds takes one
     * point of damage, since the line-of-sight guard passes whatever the
     * ray returns and looking the target up never yields the sentinel -1;
     * nobody moves.
     */
    method Strike(agent: AgentHandle, objects: seq<int>) returns (hit: bool)
      requires Valid() && agent.id in states && KnownTeam(agent)
      modifies this
      ensures Valid() && teams == old(teams) && teamOf == old(teamOf) && maxSteps == old(maxSteps)
      ensures var tgt := TargetFor(num, RootOfSquares, teams, agent.team, old(states)[agent.id].pose,
                                   PosesOf(old(states)));
              && hit == tgt.Some?
              && states == Struck(old(states), tgt)
      ensures states[agent.id] == old(states)[agent.id]
      ensures PosesOf(states) == PosesOf(old(states))
    {
      hit := false;
      var data := KnownTarget(agent);
      if data.Some? {
        assert teamOf[data.value] == 1 - agent.team;
        if LineOfSightGuard(objects, data.value) {
          Bump(data.value);
          hit := true;
        }
      }
    }

    /**
     * The fitness part of `step`, on the states after the shot: nothing
     * changes but the reward vector. A found agent's distance is taken from
     * its recorded pose (FoundDistance).
     */
    method FillReward(agent: AgentHandle, speed: real, cfg: ModConfig, hit: bool, damage: nat, reward: array<real>)
      requires Valid() && agent.id in states && KnownTeam(agent)
      requires SqrtDistance(num, states[agent.id].pose.Position(), cfg.flag) != 0.0
      requires reward.Length == |dims|
      modifies reward
      ensures reward[..] == RewardOf(num, dims, maxDist, teams, PosesOf(states), agent.id, agent.team,
                                     speed, cfg, hit, damage)
    {
      var state := states[agent.id];
      var (friends, foes) := FriendFoe(agent.team);
      // the agent is a member of its own team, so the corner case `ffr[0] == []` cannot occur
      assert agent.id in teams[agent.team];
      var friendDist := FoundDistanceFrom(state.pose, state.id, friends);
      var foeDist := FoundDistanceFrom(state.pose, state.id, foes);
      var flagDist := SqrtDistance(num, state.pose.Position(), cfg.flag);
      var R := TickFitness(dims, speed, friendDist, foeDist, flagDist, cfg, hit, damage);
      PackReward(reward, R, dims);
    }

    /**
     * `step`: on the agent's first tick, turrets included, its episode
     * starts at the host pose, an agent turned to the random heading
     * `heading`, and the reward is zero. On every other tick the damage is
     * drained, the agent shoots from its pose, the reward is computed and
     * the agent moves. The source divides by the agent's distance to the
     * flag, so it must not stand on the flag. The reward reads the recorded
     * pose of an agent `nearest` finds (FoundDistance); the source reads it
     * from the agent handle and raises instead (FoundDistanceAsWritten).
     */
    method Step(agent: AgentHandle, action: seq<real>, hostStep: int, position: Vec3, rotation: Vec3,
                heading: int, objects: seq<int>, cfg: ModConfig) returns (reward: array<real>)
      requires Valid() && KnownTeam(agent) && ActionValid(action)
      requires 0 <= heading < 360
      requires hostStep != 0 ==>
                 SqrtDistance(num, Admitted(states, agent.id)[agent.id].pose.Position(), cfg.flag) != 0.0
      modifies this
      ensures Valid() && KnownTeam(agent) && Admits(agent) && maxSteps == old(maxSteps)
      ensures states.Keys == Admitted(old(states), agent.id).Keys
      ensures fresh(reward)
      ensures var me := agent.id;
              var known := Admitted(old(states), me);
              if hostStep == 0 then
                var r := if agent.group == Agent then rotation.(z := heading as real) else rotation;
                && states == known[me := Started(known[me], position, r)]
                && reward[..] == Packed(ZeroFitness(dims), dims)
              else
                && states == AfterTick(num, maxSpeed, teams, known, me, agent.team, action[0], num.degrees(action[1]))
                && reward[..] == RewardOf(num, dims, maxDist, teams, PosesOf(known), me, agent.team, action[0], cfg,
                                          TargetFor(num, RootOfSquares, teams, agent.team, known[me].pose,
                                                    PosesOf(known)).Some?,
                                          known[me].currDamage)
    {
      var state := GetState(agent);
      reward := NewReward(dims);
      if hostStep == 0 {
        var r := rotation;
        if agent.group == Agent {
          r := r.(z := heading as real);
        }
        Put(Started(state, position, r));
        return;
      }
      Tick(agent, action, objects, cfg, reward);
    }

    /** A non-initial tick of `step` for an agent that has a state. */
    method Tick(agent: AgentHandle, action: seq<real>, objects: seq<int>, cfg: ModConfig, reward: array<real>)
      requires Valid() && agent.id in states && KnownTeam(agent) && ActionValid(action)
      requires SqrtDistance(num, states[agent.id].pose.Position(), cfg.flag) != 0.0
      requires reward.Length == |dims|
      modifies this, reward
      ensures Valid() && teams == old(teams) && teamOf == old(teamOf) && maxSteps == old(maxSteps)
      ensures var me := agent.id;
              && states == AfterTick(num, maxSpeed, teams, old(states), me, agent.team, action[0], num.degrees(action[1]))
              && reward[..] == RewardOf(num, dims, maxDist, teams, PosesOf(old(states)), me, agent.team, action[0], cfg,
                                        TargetFor(num, RootOfSquares, teams, agent.team, old(states)[me].pose,
                                                  PosesOf(old(states))).Some?,
                                        old(states)[me].currDamage)
    {
      var damage := Drain(agent.id);
      ghost var drained := states;
      var moveBy := action[0];
      var turnBy := num.degrees(action[1]);
      var hit := Strike(agent, objects);
      ghost var struck := states;
      FillReward(agent, action[0], cfg, hit, damage, reward);
      Put(Moved(num, maxSpeed, states[agent.id], moveBy, turnBy));
      assert states == struck[agent.id := Moved(num, maxSpeed, struck[agent.id], moveBy, turnBy)];
    }

    /** The loop of `sense`: the host position plus the positions of the members. */
    method TeamSum(own: Point, members: seq<AgentId>) returns (c: Point)
      requires forall a :: a in members ==> a in states
      ensures c == Point(own.x + PositionSum(members, PosesOf(states)).x,
                         own.y + PositionSum(members, PosesOf(states)).y)
    {
      var x, y := own.x, own.y;
      for i := 0 to |members|
        invariant x == own.x + PositionSum(members[..i], PosesOf(states)).x
        invariant y == own.y + PositionSum(members[..i], PosesOf(states)).y
      {
        assert members[..i + 1][..i] == members[..i];
        var a := members[i];
        assert a in members;
        var p := states[a].pose;
        x := x + p.x;
        y := y + p.y;
      }
      assert members[..|members|] == members;
      c := Point(x, y);
    }

    /**
     * `sense`: the agent is looked up, so its team is known and includes
     * it; the two slots before the last report the centre of the host
     * position and the team's positions (Centre over the team's size), seen
     * from the agent's pose, and the last flags a target (SenseObs).
     */
    method Sense(agent: AgentHandle, position: Vec3, observations: array<real>)
      requires Valid() && KnownTeam(agent) && observations.Length >= 3
      modifies this, observations
      ensures Valid() && KnownTeam(agent) && maxSteps == old(maxSteps)
      ensures states == Admitted(old(states), agent.id) && Admits(agent)
      ensures var pose := states[agent.id].pose;
              var c := Centre(Point(position.x, position.y), teams[agent.team], PosesOf(states),
                              |teams[agent.team]| as real);
              observations[..] == SenseObs(old(observations[..]), SqrtDistance(num, pose.Position(), c),
                                           CentreHeading(num, RootOfSquares, pose, c),
                                           TargetFor(num, RootOfSquares, teams, agent.team, pose, PosesOf(states)).Some?)
    {
      ghost var before := observations[..];
      assert |before| == observations.Length;
      var _ := GetState(agent);
      assert observations[..] == before;
      SenseKnown(agent, position, observations);
    }

    /** `sense` for an agent that has a state: only the observations change. */
    method SenseKnown(agent: AgentHandle, position: Vec3, observations: array<real>)
      requires Valid() && agent.id in states && KnownTeam(agent) && observations.Length >= 3
      modifies observations
      ensures agent.team in teams
      ensures var pose := states[agent.id].pose;
              var c := Centre(Point(position.x, position.y), teams[agent.team], PosesOf(states),
                              |teams[agent.team]| as real);
              observations[..] == SenseObs(old(observations[..]), SqrtDistance(num, pose.Position(), c),
                                           CentreHeading(num, RootOfSquares, pose, c),
                                           TargetFor(num, RootOfSquares, teams, agent.team, pose, PosesOf(states)).Some?)
    {
      var fd, fh := SenseCentre(agent, position);
      WriteCentre(observations, fd, fh);
      // `target` of an agent that has a state: its own lookup changes nothing
      var data := KnownTarget(agent);
      WriteFlag(observations, data.Some?);
    }

    /** The centre part of `sense` for a known agent: the distance and heading of the centre. */
    method SenseCentre(agent: AgentHandle, position: Vec3) returns (fd: real, fh: real)
      requires Valid() && agent.id in states && KnownTeam(agent)
      ensures agent.team in teams
      ensures var pose := states[agent.id].pose;
              var c := Centre(Point(position.x, position.y), teams[agent.team], PosesOf(states),
                              |teams[agent.team]| as real);
              fd == SqrtDistance(num, pose.Position(), c) && fh == CentreHeading(num, RootOfSquares, pose, c)
    {
      var state := states[agent.id];
      var (friends, _) := FriendFoe(agent.team);
      // the lookup put the agent in its team, so the `return v` branch cannot occur
      assert agent.id in teams[agent.team];
      var sum := TeamSum(Point(position.x, position.y), friends);
      var n := |friends| as real;
      var c := Point(sum.x / n, sum.y / n);
      fd := SqrtDistance(num, state.pose.Position(), c);
      fh := 0.0;
      if fd != 0.0 {
        fh := FloatMod(num.atan2Deg(c.y - state.pose.y, c.x - state.pose.x) - state.pose.heading, 360.0) - 180.0;
      }
    }

    /** The centre slots of `sense`. */
    static method WriteCentre(observations: array<real>, fd: real, fh: real)
      requires observations.Length >= 3
      modifies observations
      ensures observations[..] == CentreObs(old(observations[..]), fd, fh)
    {
      var f := observations.Length;
      if fd <= 15.0 {
        observations[f - 3] := fd / 15.0;
        observations[f - 2] := fh / 360.0;
      }
      if observations[f - 2] < 0.0 {
        observations[f - 2] := observations[f - 2] + 1.0;
      }
    }

    /** The last slot of `sense`: 0, then 1 when there is a target. */
    static method WriteFlag(observations: array<real>, hasTarget: bool)
      requires observations.Length >= 3
      modifies observations
      ensures observations[..] == old(observations[..])[observations.Length - 1 := if hasTarget then 1.0 else 0.0]
    {
      observations[observations.Length - 1] := 0.0;
      if hasTarget {
        observations[observations.Length - 1] := 1.0;
      }
    }

    /**
     * `reset`: an agent (not a turret) is moved to the spawn point jittered
     * by (dx, dy), the offsets the source draws at random, both poses there
     * with the initial heading; the damage counters are cleared.
     */
    method Reset(agent: AgentHandle, cfg: ModConfig, dx: real, dy: real) returns (ok: bool)
      requires Valid() && KnownTeam(agent)
      modifies this
      ensures Valid() && KnownTeam(agent) && Admits(agent) && maxSteps == old(maxSteps)
      ensures ok
      ensures var known := Admitted(old(states), agent.id);
              var s := known[agent.id];
              var ip := s.initialPosition.(x := cfg.spawn.x + dx, y := cfg.spawn.y + dy);
              var p := Pose(ip.x, ip.y, s.initialRotation.z);
              var moved := if agent.group == Agent then s.(initialPosition := ip, pose := p, prevPose := p) else s;
              states == known[agent.id := moved.(totalDamage := 0, currDamage := 0)]
    {
      var state := GetState(agent);
      if agent.group == Agent {
        var ip := state.initialPosition.(x := cfg.spawn.x + dx, y := cfg.spawn.y + dy);
        var p := Pose(ip.x, ip.y, state.initialRotation.z);
        state := state.(initialPosition := ip, pose := p, prevPose := p);
      }
      state := state.(totalDamage := 0, currDamage := 0);
      Put(state);
      ok := true;
    }

    /**
     * `is_episode_over`: the lifetime is read from the mod into `maxSteps`,
     * the agent is looked up, and the episode is over as EpisodeOverAt says.
     */
    method IsEpisodeOver(agent: AgentHandle, cfg: ModConfig, hostStep: int) returns (over: bool)
      requires Valid() && KnownTeam(agent)
      modifies this
      ensures Valid() && KnownTeam(agent)
      ensures states == Admitted(old(states), agent.id) && Admits(agent) && maxSteps == cfg.lt
      ensures over == EpisodeOverAt(cfg.lt, hostStep, cfg.hp, states[agent.id].totalDamage)
    {
      maxSteps := cfg.lt;
      var state := GetState(agent);
      if maxSteps != 0 && hostStep >= maxSteps {
        return true;
      }
      if cfg.hp != 0 && state.totalDamage >= cfg.hp {
        return true;
      } else {
        return false;
      }
    }
  }
}
