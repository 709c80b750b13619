/**
 * The two-loop `target` of the rtneat and factory2 variants of the NERO
 * environment, and the team-centre slots of their `sense`.
 *
 * The first loop of `target` keeps, in iteration order, the foes whose
 * bearing lies within 2 degrees of the agent's heading; the second keeps the
 * first of least cost fd / cos(radians(fh * 20)). The two variants differ only
 * in how they measure a distance, so everything here takes the `Metric`.
 */
module ConeTarget {
  import opened Geometry
  import opened NeroCommon
  import Scan

  /**
   * `fh` of `target`: the bearing of `to` seen from `from`, less the
   * heading, reduced modulo 360 into [0, 360); 0 when both stand at the
   * same point.
   */
  function Bearing(num: Numerics, m: Metric, from: Pose, to: Pose): (fh: real)
    requires Sound(num)
    ensures 0.0 <= fh < 360.0
    ensures Dist(num, m, from.Position(), to.Position()) == 0.0 ==> fh == 0.0
  {
    if Dist(num, m, from.Position(), to.Position()) != 0.0 then
      Abs(FloatMod(num.atan2Deg(to.y - from.y, to.x - from.x) - from.heading, 360.0))
    else 0.0
  }

  /** An entry of `valids`: the foe, its distance and its bearing. */
  datatype Candidate = Candidate(foe: AgentId, fd: real, fh: real)

  /** The `valids` of `target`: the foes within 2 degrees, in iteration order. */
  function Candidates(num: Numerics, m: Metric, from: Pose, foes: seq<AgentId>, poses: map<AgentId, Pose>)
    : (valids: seq<Candidate>)
    requires Sound(num)
    requires forall f :: f in foes ==> f in poses
    ensures |valids| <= |foes|
    ensures forall c :: c in valids ==>
              && c.foe in foes
              && c.fd == Dist(num, m, from.Position(), poses[c.foe].Position())
              && c.fh == Bearing(num, m, from, poses[c.foe])
              && 0.0 <= c.fh <= 2.0
    decreases |foes|
  {
    if foes == [] then []
    else
      var pre := Candidates(num, m, from, foes[..|foes| - 1], poses);
      var f := foes[|foes| - 1];
      assert f in foes;
      var fh := Bearing(num, m, from, poses[f]);
      if fh <= 2.0 then pre + [Candidate(f, Dist(num, m, from.Position(), poses[f].Position()), fh)] else pre
  }

  /** One more foe: the candidates of a longer prefix, as the first loop of `target` builds them. */
  lemma CandidatesExtend(num: Numerics, m: Metric, from: Pose, foes: seq<AgentId>, poses: map<AgentId, Pose>, i: nat)
    requires Sound(num)
    requires forall f :: f in foes ==> f in poses
    requires i < |foes|
    ensures foes[i] in poses
    ensures var p := poses[foes[i]];
            var fh := Bearing(num, m, from, p);
            Candidates(num, m, from, foes[..i + 1], poses) ==
              Candidates(num, m, from, foes[..i], poses) +
              if fh <= 2.0 then [Candidate(foes[i], Dist(num, m, from.Position(), p.Position()), fh)] else []
  {
    assert foes[i] in foes;
    var longer := foes[..i + 1];
    assert longer[..i] == foes[..i] && longer[i] == foes[i];
  }

  /** Every foe within the cone is a candidate, so there is none exactly when no foe is in the cone. */
  lemma {:induction false} CandidatesComplete(num: Numerics, m: Metric, from: Pose, foes: seq<AgentId>,
                                              poses: map<AgentId, Pose>)
    requires Sound(num)
    requires forall f :: f in foes ==> f in poses
    ensures forall f :: f in foes && Bearing(num, m, from, poses[f]) <= 2.0 ==>
              Candidate(f, Dist(num, m, from.Position(), poses[f].Position()), Bearing(num, m, from, poses[f]))
                in Candidates(num, m, from, foes, poses)
    ensures Candidates(num, m, from, foes, poses) == [] <==>
              forall f :: f in foes ==> Bearing(num, m, from, poses[f]) > 2.0
    decreases |foes|
  {
    if foes != [] {
      var n := |foes| - 1;
      var pre := foes[..n];
      CandidatesComplete(num, m, from, pre, poses);
      var last := foes[n];
      assert last in foes;
      assert forall f :: f in foes ==> f in pre || f == last;
      var valids := Candidates(num, m, from, foes, poses);
      var before := Candidates(num, m, from, pre, poses);
      if Bearing(num, m, from, poses[last]) <= 2.0 {
        assert valids == before + [valids[|valids| - 1]];
      } else {
        assert valids == before;
      }
    }
  }

  /** The value `target` ranks a candidate by, fd / cos(radians(fh * 20)). */
  function CandidateCosts(num: Numerics, valids: seq<Candidate>): (costs: seq<Option<real>>)
    requires Sound(num)
    requires forall c :: c in valids ==> 0.0 <= c.fh <= 2.0
    ensures |costs| == |valids|
    ensures forall i :: 0 <= i < |valids| ==> costs[i].Some?
  {
    seq(|valids|, i requires 0 <= i < |valids| =>
      var c := valids[i];
      assert c in valids;
      Some(c.fd / num.cosDeg(c.fh * 20.0)))
  }

  /** The candidate the second loop of `target` keeps. */
  function Pick(num: Numerics, valids: seq<Candidate>): (t: Option<AgentId>)
    requires Sound(num)
    requires forall c :: c in valids ==> 0.0 <= c.fh <= 2.0
  {
    match Scan.FirstMin(CandidateCosts(num, valids), None)
    case None => None
    case Some(k) => Some(valids[k].foe)
  }

  /** The foe `target` settles on among `foes`, aiming from `from`. */
  function TargetOf(num: Numerics, m: Metric, from: Pose, foes: seq<AgentId>, poses: map<AgentId, Pose>)
    : Option<AgentId>
    requires Sound(num)
    requires forall f :: f in foes ==> f in poses
  {
    Pick(num, Candidates(num, m, from, foes, poses))
  }

  /**
   * `target` finds no foe exactly when no foe lies within the cone;
   * otherwise it returns a candidate of least cost, the first such one.
   */
  lemma TargetIsFirstCheapestCandidate(num: Numerics, m: Metric, from: Pose, foes: seq<AgentId>,
                                       poses: map<AgentId, Pose>)
    requires Sound(num)
    requires forall f :: f in foes ==> f in poses
    ensures TargetOf(num, m, from, foes, poses).None? <==>
              forall f :: f in foes ==> Bearing(num, m, from, poses[f]) > 2.0
    ensures TargetOf(num, m, from, foes, poses).Some? ==>
              var t := TargetOf(num, m, from, foes, poses).value;
              var valids := Candidates(num, m, from, foes, poses);
              && t in foes
              && 0.0 <= Bearing(num, m, from, poses[t]) <= 2.0
              && exists k :: 0 <= k < |valids| && valids[k].foe == t &&
                   Scan.IsFirstMinimum(CandidateCosts(num, valids), None, k)
  {
    var valids := Candidates(num, m, from, foes, poses);
    var costs := CandidateCosts(num, valids);
    CandidatesComplete(num, m, from, foes, poses);
    Scan.FirstMinMeetsSpec(costs, None);
    match Scan.FirstMin(costs, None)
    case None =>
    case Some(k) =>
      assert valids[k] in valids;
  }

  /** `target` for the agent of team `team` at `from`: nothing when its own team is unknown. */
  function TargetFor(num: Numerics, m: Metric, teams: map<int, seq<AgentId>>, team: int, from: Pose,
                     poses: map<AgentId, Pose>): (t: Option<AgentId>)
    requires Sound(num)
    requires Covers(teams, poses)
    ensures team !in teams ==> t.None?
    ensures t.Some? ==> 1 - team in teams && t.value in teams[1 - team]
  {
    if MembersOrEmpty(teams, team) == [] then None
    else TargetOf(num, m, from, MembersOrEmpty(teams, 1 - team), poses)
  }

  /** The point `sense` accumulates: the reference point `own` plus every member's position, divided by `n`. */
  function Centre(own: Point, members: seq<AgentId>, poses: map<AgentId, Pose>, n: real): Point
    requires n != 0.0
    requires forall a :: a in members ==> a in poses
  {
    var s := PositionSum(members, poses);
    Point((own.x + s.x) / n, (own.y + s.y) / n)
  }

  /**
   * `fh` of `sense`: the bearing of `c`, less the heading, reduced modulo
   * 360 and shifted into [-180, 180); 0 when `c` is at the agent.
   */
  function CentreHeading(num: Numerics, m: Metric, pose: Pose, c: Point): (fh: real)
    requires Sound(num)
    ensures -180.0 <= fh < 180.0
    ensures Dist(num, m, pose.Position(), c) == 0.0 ==> fh == 0.0
  {
    if Dist(num, m, pose.Position(), c) != 0.0 then
      FloatMod(num.atan2Deg(c.y - pose.y, c.x - pose.x) - pose.heading, 360.0) - 180.0
    else 0.0
  }

  /** The two slots before the last after `sense`: set when the centre is within 15 units, then lifted by 1 when negative. */
  function CentreObs(obs: seq<real>, fd: real, fh: real): (o: seq<real>)
    requires |obs| >= 3
    ensures |o| == |obs|
  {
    var n := |obs|;
    var o := if fd <= 15.0 then obs[n - 3 := fd / 15.0][n - 2 := fh / 360.0] else obs;
    if o[n - 2] < 0.0 then o[n - 2 := o[n - 2] + 1.0] else o
  }

  /**
   * The observations `sense` writes. Within 15 units the centre's distance
   * is scaled into [0, 1] and its heading into [0, 1); farther away the two
   * slots keep their values, a negative one lifted by 1. The last slot is 1
   * exactly when there is a target, else 0. No other slot changes.
   */
  function SenseObs(obs: seq<real>, fd: real, fh: real, hasTarget: bool): (o: seq<real>)
    requires |obs| >= 3
    ensures |o| == |obs|
    ensures (o[|o| - 1] == 1.0 <==> hasTarget) && (o[|o| - 1] == 0.0 <==> !hasTarget)
    ensures 0.0 <= fd <= 15.0 ==> 0.0 <= o[|o| - 3] <= 1.0
    ensures fd <= 15.0 && -180.0 <= fh < 180.0 ==> 0.0 <= o[|o| - 2] < 1.0
    ensures fd > 15.0 ==> o[|o| - 3] == obs[|o| - 3] &&
                          o[|o| - 2] == if obs[|o| - 2] < 0.0 then obs[|o| - 2] + 1.0 else obs[|o| - 2]
    ensures forall i :: 0 <= i < |o| - 3 ==> o[i] == obs[i]
  {
    CentreObs(obs, fd, fh)[|obs| - 1 := if hasTarget then 1.0 else 0.0]
  }
}
