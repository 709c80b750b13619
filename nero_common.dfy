/**
 * Vocabulary shared by the three NERO environment variants: agent handles,
 * the team registry, the action bounds, the fitness dimensions and how they
 * are packed into the reward vector, the kinematic update, the first-minimum
 * `nearest` scan, the line-of-sight guard and the episode-termination rule
 * of the main and rtneat variants.
 */
module NeroCommon {
  import opened Geometry
  import Scan

  /** `agent.state.id`, the host's identity of an agent; the state maps are keyed by it. */
  type AgentId = int

  /** `agent.group` as far as the environments distinguish it. */
  datatype Group = Agent | Turret | OtherGroup

  /** What the environment reads from a host agent handle besides the per-call values. */
  datatype AgentHandle = AgentHandle(id: AgentId, team: int, group: Group)

  /** `teams.get(t)`: the member set of team t, in iteration order, when the team is known. */
  function Members(teams: map<int, seq<AgentId>>, t: int): (r: Option<seq<AgentId>>)
    ensures r.Some? <==> t in teams
    ensures r.Some? ==> r.value == teams[t]
  {
    if t in teams then Some(teams[t]) else None
  }

  /** The member set of team t after `id` joins it: a set created on demand, the newcomer iterated last. */
  function Joined(teams: map<int, seq<AgentId>>, t: int, id: AgentId): (members: seq<AgentId>)
    ensures id in members && members[|members| - 1] == id
    ensures t in teams ==> members[..|members| - 1] == teams[t]
    ensures t !in teams ==> members == [id]
  {
    (if t in teams then teams[t] else []) + [id]
  }

  /** The registry after `id` joins team t. */
  function RegisterTeams(teams: map<int, seq<AgentId>>, t: int, id: AgentId): map<int, seq<AgentId>>
  {
    teams[t := Joined(teams, t, id)]
  }

  /**
   * The invariant of the team registry over the set `known` of agents with
   * a state: every known agent is listed in the set of the team it joined
   * and in no other; no set is empty or lists an agent twice.
   */
  ghost predicate Registry(known: set<AgentId>, teams: map<int, seq<AgentId>>, teamOf: map<AgentId, int>)
  {
    && known == teamOf.Keys
    && (forall t :: t in teams ==> |teams[t]| > 0)
    && (forall t, a :: t in teams && a in teams[t] ==> a in teamOf && teamOf[a] == t)
    && (forall a :: a in teamOf ==> teamOf[a] in teams && a in teams[teamOf[a]])
    && (forall t, i, j :: t in teams && 0 <= i < j < |teams[t]| ==> teams[t][i] != teams[t][j])
  }

  /** Every member of every team has an entry in `m`. */
  ghost predicate Covers<V>(teams: map<int, seq<AgentId>>, m: map<AgentId, V>)
  {
    forall t, a :: t in teams && a in teams[t] ==> a in m
  }

  /** A newcomer joining its team keeps the registry invariant. */
  lemma RegistryJoin(known: set<AgentId>, teams: map<int, seq<AgentId>>, teamOf: map<AgentId, int>,
                     id: AgentId, t: int)
    requires Registry(known, teams, teamOf) && id !in known
    ensures Registry(known + {id}, RegisterTeams(teams, t, id), teamOf[id := t])
    ensures forall u :: u in teams && u != t ==> RegisterTeams(teams, t, id)[u] == teams[u]
  {
    var teams' := RegisterTeams(teams, t, id);
    var teamOf' := teamOf[id := t];
    JoinedMembersFiled(teams, teamOf, id, t);
    JoinedNoRepeats(teams, teamOf, id, t);
    forall a | a in teamOf'
      ensures teamOf'[a] in teams' && a in teams'[teamOf'[a]]
    {
      if a != id && teamOf[a] == t {
        assert a in teams[t];
        assert Joined(teams, t, id)[..|Joined(teams, t, id)| - 1] == teams[t];
      }
    }
  }

  lemma JoinedMembersFiled(teams: map<int, seq<AgentId>>, teamOf: map<AgentId, int>, id: AgentId, t: int)
    requires forall u, a :: u in teams && a in teams[u] ==> a in teamOf && teamOf[a] == u
    requires id !in teamOf
    ensures forall u, a :: u in RegisterTeams(teams, t, id) && a in RegisterTeams(teams, t, id)[u] ==>
              a in teamOf[id := t] && teamOf[id := t][a] == u
  {
    forall u, a | u in RegisterTeams(teams, t, id) && a in RegisterTeams(teams, t, id)[u]
      ensures a in teamOf[id := t] && teamOf[id := t][a] == u
    {
      if u == t && a != id {
        var m := Joined(teams, t, id);
        var k :| 0 <= k < |m| && m[k] == a;
        if t in teams {
          assert m[k] == teams[t][k];
        }
      }
    }
  }

  lemma JoinedNoRepeats(teams: map<int, seq<AgentId>>, teamOf: map<AgentId, int>, id: AgentId, t: int)
    requires forall u, a :: u in teams && a in teams[u] ==> a in teamOf
    requires forall u, i, j :: u in teams && 0 <= i < j < |teams[u]| ==> teams[u][i] != teams[u][j]
    requires id !in teamOf
    ensures forall u, i, j :: u in RegisterTeams(teams, t, id) && 0 <= i < j < |RegisterTeams(teams, t, id)[u]| ==>
              RegisterTeams(teams, t, id)[u][i] != RegisterTeams(teams, t, id)[u][j]
  {
    var m := Joined(teams, t, id);
    forall i, j | 0 <= i < j < |m|
      ensures m[i] != m[j]
    {
      if j == |m| - 1 {
        assert t in teams && m[i] == teams[t][i];
      } else {
        assert t in teams && m[i] == teams[t][i] && m[j] == teams[t][j];
      }
    }
  }

  /** The members of team t, or none when the team is unknown (`teams.get(t)` defaulting to `[]`). */
  function MembersOrEmpty(teams: map<int, seq<AgentId>>, t: int): (r: seq<AgentId>)
    ensures t in teams ==> r == teams[t]
    ensures t !in teams ==> r == []
  {
    if t in teams then teams[t] else []
  }

  /** A set of agents that is not empty has a member, for the searches that pick one. */
  lemma HasElement(s: set<AgentId>)
    requires s != {}
    ensures exists k :: k in s
  {
    EmptyIfNoElement(s);
  }

  lemma EmptyIfNoElement(s: set<AgentId>)
    ensures (forall k :: k !in s) ==> s == {}
  {
    if forall k :: k !in s {
      assert forall k :: k in s <==> k in {};
    }
  }

  /** The fitness dimension names declared in FITNESS_DIMENSIONS. */
  datatype Dimension = StandGround | StickTogether | ApproachEnemy | ApproachFlag | HitTarget | AvoidFire

  /** The values the environments read from the mod through getMod(). */
  datatype ModConfig = ModConfig(
    lt: int,       // lifetime in steps, 0 for none
    hp: int,       // hit points, 0 for none
    flag: Point,   // flag_loc
    spawn: Point,  // spawn_x, spawn_y
    dta: real,     // stick-together / stand-ground distance parameter
    dtb: real,     // approach-enemy distance parameter
    dtc: real)     // approach-flag distance parameter

  /**
   * `agent_info.actions.validate(action)`: two continuous actions, the speed
   * in [-1, 1] and the turn (radians) in [-0.2, 0.2].
   */
  predicate ActionValid(action: seq<real>)
  {
    |action| == 2 && -1.0 <= action[0] <= 1.0 && -0.2 <= action[1] <= 0.2
  }

  /**
   * The kinematic update: the heading turns by `turnBy` through
   * wrap_degrees and the position advances `maxSpeed * moveBy` along the
   * new heading.
   */
  function NextPose(num: Numerics, maxSpeed: real, p: Pose, moveBy: real, turnBy: real): (q: Pose)
    ensures q.heading == num.wrapDegrees(p.heading, turnBy)
    ensures moveBy == 0.0 ==> q.x == p.x && q.y == p.y
  {
    var heading := num.wrapDegrees(p.heading, turnBy);
    Pose(p.x + maxSpeed * num.cosDeg(heading) * moveBy,
         p.y + maxSpeed * num.sinDeg(heading) * moveBy,
         heading)
  }

  /** The fitness table a tick starts from: every declared dimension at zero. */
  function ZeroFitness(dims: seq<Dimension>): (R: map<Dimension, real>)
    ensures forall d :: d in R <==> d in dims
    ensures forall d :: d in R ==> R[d] == 0.0
  {
    map d | d in dims :: 0.0
  }

  /** The reward vector: slot i holds the value of the i-th declared dimension. */
  function Packed(R: map<Dimension, real>, dims: seq<Dimension>): (reward: seq<real>)
    requires forall i :: 0 <= i < |dims| ==> dims[i] in R
  {
    seq(|dims|, i requires 0 <= i < |dims| => R[dims[i]])
  }

  /** `agent_info.reward.get_instance()`: a vector of zeroes, one per dimension. */
  method NewReward(dims: seq<Dimension>) returns (reward: array<real>)
    ensures fresh(reward)
    ensures reward[..] == Packed(ZeroFitness(dims), dims)
  {
    reward := new real[|dims|](_ => 0.0);
  }

  /** Copies the fitness table into the reward vector, one dimension per slot in declared order. */
  method PackReward(reward: array<real>, R: map<Dimension, real>, dims: seq<Dimension>)
    requires reward.Length == |dims|
    requires forall i :: 0 <= i < |dims| ==> dims[i] in R
    modifies reward
    ensures reward[..] == Packed(R, dims)
  {
    for i := 0 to |dims|
      invariant forall j :: 0 <= j < i ==> reward[j] == R[dims[j]]
    {
      reward[i] := R[dims[i]];
    }
  }

  /**
   * The fitness dimensions of one tick: stand-ground is minus the speed,
   * the three distance dimensions are minus a squared distance (zero when
   * there is no nearest friend or foe), hit-target is 1 for a hit and 0
   * otherwise, avoid-fire is minus the damage drained this tick.
   */
  function Fitness(dims: seq<Dimension>, speed: real, friendDist: Option<real>, foeDist: Option<real>,
                   flagDist: real, hit: bool, damage: nat): (R: map<Dimension, real>)
    ensures forall d :: d in dims ==> d in R
    ensures StandGround in R && R[StandGround] == -speed
    ensures friendDist.Some? ==>
              StickTogether in R && R[StickTogether] == -(friendDist.value * friendDist.value)
    ensures friendDist.None? && StickTogether in R ==> R[StickTogether] == 0.0
    ensures StickTogether in R ==> R[StickTogether] <= 0.0
    ensures foeDist.Some? ==>
              ApproachEnemy in R && R[ApproachEnemy] == -(foeDist.value * foeDist.value)
    ensures foeDist.None? && ApproachEnemy in R ==> R[ApproachEnemy] == 0.0
    ensures ApproachEnemy in R ==> R[ApproachEnemy] <= 0.0
    ensures ApproachFlag in R && R[ApproachFlag] == -(flagDist * flagDist) && R[ApproachFlag] <= 0.0
    ensures HitTarget in R && (R[HitTarget] == 1.0 <==> hit) && (R[HitTarget] == 0.0 <==> !hit)
    ensures AvoidFire in R && R[AvoidFire] == -(damage as real)
  {
    var R := ZeroFitness(dims)[StandGround := -speed];
    var R := if friendDist.Some? then R[StickTogether := -(friendDist.value * friendDist.value)] else R;
    var R := if foeDist.Some? then R[ApproachEnemy := -(foeDist.value * foeDist.value)] else R;
    R[ApproachFlag := -(flagDist * flagDist)][HitTarget := if hit then 1.0 else 0.0][AvoidFire := -(damage as real)]
  }

  function NearestCosts(num: Numerics, m: Metric, loc: Pose, id: AgentId, agents: seq<AgentId>,
                        poses: map<AgentId, Pose>): (costs: seq<Option<real>>)
    requires Sound(num)
    requires forall a :: a in agents ==> a in poses
    ensures |costs| == |agents|
  {
    seq(|agents|, i requires 0 <= i < |agents| =>
      var a := agents[i];
      assert a in agents;
      if a == id then None else Some(Dist(num, m, loc.Position(), poses[a].Position())))
  }

  /** The agent `nearest` settles on: the scan starts from the distance cap `cap`. */
  function NearestOf(num: Numerics, m: Metric, loc: Pose, id: AgentId, agents: seq<AgentId>,
                     poses: map<AgentId, Pose>, cap: real): (n: Option<AgentId>)
    requires Sound(num)
    requires forall a :: a in agents ==> a in poses
  {
    match Scan.FirstMin(NearestCosts(num, m, loc, id, agents, poses), Some(cap))
    case None => None
    case Some(k) => Some(agents[k])
  }

  /**
   * `nearest` never returns the agent with the given id; it returns nothing
   * exactly when every other agent is at least `cap` away, and otherwise an
   * agent strictly closer than `cap` that no other agent beats, the first
   * such one in iteration order.
   */
  lemma NearestIsFirstClosestOther(num: Numerics, m: Metric, loc: Pose, id: AgentId, agents: seq<AgentId>,
                                   poses: map<AgentId, Pose>, cap: real)
    requires Sound(num)
    requires forall a :: a in agents ==> a in poses
    ensures NearestOf(num, m, loc, id, agents, poses, cap).None? <==>
              forall i :: 0 <= i < |agents| && agents[i] != id ==>
                Dist(num, m, loc.Position(), poses[agents[i]].Position()) >= cap
    ensures NearestOf(num, m, loc, id, agents, poses, cap).Some? ==>
              var n := NearestOf(num, m, loc, id, agents, poses, cap).value;
              var d := Dist(num, m, loc.Position(), poses[n].Position());
              && n != id && n in agents && d < cap
              && (forall i :: 0 <= i < |agents| && agents[i] != id ==>
                    d <= Dist(num, m, loc.Position(), poses[agents[i]].Position()))
              && exists k :: 0 <= k < |agents| && agents[k] == n &&
                   forall j :: 0 <= j < k && agents[j] != id ==>
                     d < Dist(num, m, loc.Position(), poses[agents[j]].Position())
  {
    var costs := NearestCosts(num, m, loc, id, agents, poses);
    Scan.FirstMinMeetsSpec(costs, Some(cap));
    match Scan.FirstMin(costs, Some(cap))
    case None =>
      forall i | 0 <= i < |agents| && agents[i] != id
        ensures Dist(num, m, loc.Position(), poses[agents[i]].Position()) >= cap
      {
        assert costs[i] == Some(Dist(num, m, loc.Position(), poses[agents[i]].Position()));
      }
    case Some(k) =>
      assert costs[k].Some?;
      forall i | 0 <= i < |agents| && agents[i] != id
        ensures costs[k].value <= Dist(num, m, loc.Position(), poses[agents[i]].Position())
      {
        assert costs[i] == Some(Dist(num, m, loc.Position(), poses[agents[i]].Position()));
      }
      forall j | 0 <= j < k && agents[j] != id
        ensures costs[k].value < Dist(num, m, loc.Position(), poses[agents[j]].Position())
      {
        assert costs[j] == Some(Dist(num, m, loc.Position(), poses[agents[j]].Position()));
      }
  }

  /** The distance the reward uses for the nearest agent, when there is one. */
  function NearestDistance(num: Numerics, m: Metric, loc: Pose, id: AgentId, agents: Option<seq<AgentId>>,
                           poses: map<AgentId, Pose>, cap: real): Option<real>
    requires Sound(num)
    requires agents.Some? ==> forall a :: a in agents.value ==> a in poses
  {
    if agents.None? then None
    else match NearestOf(num, m, loc, id, agents.value, poses, cap)
      case None => None
      case Some(a) => Some(Dist(num, m, poses[a].Position(), loc.Position()))
  }

  /** The sum of the positions of `members`, accumulated in iteration order. */
  function PositionSum(members: seq<AgentId>, poses: map<AgentId, Pose>): Point
    requires forall a :: a in members ==> a in poses
    decreases |members|
  {
    if members == [] then Point(0.0, 0.0)
    else
      var s := PositionSum(members[..|members| - 1], poses);
      var last := members[|members| - 1];
      assert last in members;
      var p := poses[last];
      Point(s.x + p.x, s.y + p.y)
  }

  lemma DivAdd(a: real, b: real, n: real)
    requires n != 0.0
    ensures a / n + b / n == (a + b) / n
  {
  }

  /**
   * The line-of-sight guard around a found target: `sim` is the first object
   * the ray hit, or the target itself when the ray hit nothing. The guard
   * passes whatever the ray returns.
   */
  function LineOfSightGuard(objects: seq<int>, target: AgentId): (pass: bool)
    ensures pass
  {
    var sim := if |objects| > 0 then objects[0] else target;
    |objects| == 0 || objects[0] == sim
  }

  /**
   * `is_episode_over` of the main and rtneat variants: never for turrets;
   * otherwise when the lifetime is used up, the trainer holds no organism
   * for the agent, or the damage reached the hit points.
   */
  function EpisodeOver(group: Group, lt: int, step: int, hasOrganism: bool, hp: int, totalDamage: int): (over: bool)
    ensures group == Turret ==> !over
    ensures group != Turret ==>
              (over <==> (lt != 0 && step >= lt) || !hasOrganism || (hp != 0 && totalDamage >= hp))
  {
    if group == Turret then false
    else if lt != 0 && step >= lt then true
    else if !hasOrganism then true
    else if hp != 0 && totalDamage >= hp then true
    else false
  }

  /** Once over, an episode stays over as steps and damage accumulate and the organism stays gone. */
  lemma EpisodeOverMonotone(group: Group, lt: int, hp: int, step: int, step': int,
                            hasOrganism: bool, hasOrganism': bool, damage: int, damage': int)
    requires step <= step' && damage <= damage' && (hasOrganism' ==> hasOrganism)
    requires EpisodeOver(group, lt, step, hasOrganism, hp, damage)
    ensures EpisodeOver(group, lt, step', hasOrganism', hp, damage')
  {
  }
}
