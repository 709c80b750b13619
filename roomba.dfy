/**
 * The Roomba sandbox: a vacuum agent moves around a XDIM x YDIM room and
 * picks up crumbs.
 *
 * `SandboxMod` owns the marker map: at most one marker object per cell
 * (x, y), keyed by the cell and holding the id of the object the host
 * created for it. `SandboxEnvironment` keeps the per-agent records, moves
 * an agent by its action, backs it off the walls, vacuums the crumbs within
 * 4 units, and fills the sensor vectors of the two kinds of agent: the
 * scripted RoombaBrain (bump, position and one block per crumb) and the
 * RTNEAT agent (the nearest cube per quadrant of the agent's own frame).
 *
 * The host (object creation and removal, agent vectors, sensor instances,
 * the id allocator) is outside the model: what it provides is passed in.
 */
module Roomba {
  import opened Geometry

  const MaxSpeed: real := 1.0            // MAX_SPEED
  const NFixedSensors: nat := 3          // N_FIXED_SENSORS: bump, position x, position y
  const NSInBlock: nat := 4              // N_S_IN_BLOCK: x, y, present, reward
  const Speed: real := 10.0              // SandboxEnvironment.SPEED
  const AngularSpeed: real := 90.0       // SandboxEnvironment.ANGULAR_SPEED
  const MaxDistance: real := 1000000.0   // SandboxEnvironment.MAX_DISTANCE
  const PickupRadius: real := 4.0        // a crumb is vacuumed at distance <= 4

  type AgentId = int

  /** A cell of the marker map, keyed `(x, y)`, and the marker object's id. */
  type Markers = map<Point, int>

  // ---------------------------------------------------------------- markers

  /** The map after `unmark(x, y)`: the cell's entry is gone, every other entry is kept. */
  function Unmarked(m: Markers, c: Point): (m': Markers)
    ensures m'.Keys == m.Keys - {c}
    ensures forall k :: k in m' ==> m'[k] == m[k]
  {
    m - {c}
  }

  /**
   * The map after `mark(x, y)`: the previous marker of the cell is dropped
   * and the cell holds the new id, once; every other entry is kept.
   */
  function Marked(m: Markers, c: Point, id: int): (m': Markers)
    ensures m'.Keys == m.Keys + {c}
    ensures m'[c] == id
    ensures forall k :: k in m && k != c ==> m'[k] == m[k]
  {
    Unmarked(m, c)[c := id]
  }

  /** Marking a cell again replaces its id; unmarking after marking is plain unmarking. */
  lemma MarkUnmark(m: Markers, c: Point, id: int, id': int)
    ensures Marked(Marked(m, c, id), c, id') == Marked(m, c, id')
    ensures Unmarked(Marked(m, c, id), c) == Unmarked(m, c)
  {
    assert Unmarked(Marked(m, c, id), c) == Unmarked(m, c);
  }

  class SandboxMod {
    var markerMap: Markers
    var agentIds: seq<int>

    constructor ()
      ensures markerMap == map[] && agentIds == []
    {
      markerMap := map[];
      agentIds := [];
    }

    /** `mark`: `freshId` is the id the host allocator hands the new marker object. */
    method Mark(x: real, y: real, freshId: int)
      modifies this
      ensures markerMap == Marked(old(markerMap), Point(x, y), freshId)
      ensures agentIds == old(agentIds)
    {
      var _ := Unmark(x, y);
      markerMap := markerMap[Point(x, y) := freshId];
    }

    /** `unmark`: true exactly when the cell had a marker, which is then removed. */
    method Unmark(x: real, y: real) returns (removed: bool)
      modifies this
      ensures removed <==> Point(x, y) in old(markerMap)
      ensures markerMap == Unmarked(old(markerMap), Point(x, y))
      ensures agentIds == old(agentIds)
    {
      if Point(x, y) in markerMap {
        markerMap := markerMap - {Point(x, y)};
        removed := true;
      } else {
        removed := false;
      }
    }

    /** `reset_sandbox`: no marker and no bot is left. */
    method ResetSandbox()
      modifies this
      ensures markerMap == map[] && agentIds == []
    {
      markerMap := map[];
      agentIds := [];
    }

    /** `remove_bots`: no bot is left; the markers stay. */
    method RemoveBots()
      modifies this
      ensures agentIds == [] && markerMap == old(markerMap)
    {
      agentIds := [];
    }
  }

  // ----------------------------------------------------------------- crumbs

  datatype Pellet = Pellet(x: real, y: real, reward: real)
  {
    /** The marker-map key of the crumb. */
    function Cell(): Point { Point(x, y) }
  }

  /** The cells of a list of crumbs. */
  function Cells(crumbs: seq<Pellet>): set<Point>
    decreases |crumbs|
  {
    if crumbs == [] then {}
    else
      var n := |crumbs| - 1;
      Cells(crumbs[..n]) + {crumbs[n].Cell()}
  }

  /** A cell is among the cells of `crumbs` exactly when some crumb lies on it. */
  lemma {:induction false} CellsMembers(crumbs: seq<Pellet>, c: Point)
    ensures c in Cells(crumbs) <==> exists i :: 0 <= i < |crumbs| && crumbs[i].Cell() == c
    decreases |crumbs|
  {
    if crumbs != [] {
      var n := |crumbs| - 1;
      var pre := crumbs[..n];
      CellsMembers(pre, c);
      assert forall i :: 0 <= i < n ==> pre[i] == crumbs[i];
      if c in Cells(crumbs) && c != crumbs[n].Cell() {
        var i :| 0 <= i < n && pre[i].Cell() == c;
        assert crumbs[i].Cell() == c;
      }
    }
  }

  /** Crumbs on distinct cells fill as many cells as there are crumbs. */
  lemma {:induction false} CellsOfDistinct(crumbs: seq<Pellet>)
    requires forall i, j :: 0 <= i < j < |crumbs| ==> crumbs[i].Cell() != crumbs[j].Cell()
    ensures |Cells(crumbs)| == |crumbs|
    decreases |crumbs|
  {
    if crumbs != [] {
      var n := |crumbs| - 1;
      var pre := crumbs[..n];
      CellsOfDistinct(pre);
      CellsMembers(pre, crumbs[n].Cell());
      assert forall i :: 0 <= i < n ==> pre[i] == crumbs[i];
    }
  }

  /** The markers `add_crumbs` leaves: every crumb cell without a marker gets one, with the next id of `ids`. */
  function Planted(m: Markers, crumbs: seq<Pellet>, ids: seq<int>): (m': Markers)
    requires |ids| == |crumbs|
    ensures m'.Keys == m.Keys + Cells(crumbs)
    ensures forall k :: k in m ==> m'[k] == m[k]
    decreases |crumbs|
  {
    if crumbs == [] then m
    else
      var n := |crumbs| - 1;
      var pre := Planted(m, crumbs[..n], ids[..n]);
      var c := crumbs[n].Cell();
      if c in pre then pre else Marked(pre, c, ids[n])
  }

  /** One more crumb: the markers `add_crumbs` has planted after a longer prefix. */
  lemma PlantedExtend(m: Markers, crumbs: seq<Pellet>, ids: seq<int>, k: nat)
    requires |ids| == |crumbs| && k < |crumbs|
    ensures var before := Planted(m, crumbs[..k], ids[..k]);
            var c := crumbs[k].Cell();
            Planted(m, crumbs[..k + 1], ids[..k + 1]) == if c in before then before else Marked(before, c, ids[k])
  {
    assert crumbs[..k + 1][..k] == crumbs[..k] && ids[..k + 1][..k] == ids[..k];
  }

  /** A crumb is vacuumed when its cell lies within 4 units of the agent. */
  predicate Reaches(num: Numerics, c: Point, pos: Point)
    requires Sound(num)
  {
    CrumbDistance(num, c, pos) <= PickupRadius
  }

  /** `dist` of `update_position`: sqrt((pellet.x - x)**2 + (pellet.y - y)**2). */
  function CrumbDistance(num: Numerics, c: Point, pos: Point): (d: real)
    requires Sound(num)
    ensures d >= 0.0
  {
    SqrtDistance(num, c, pos)
  }

  /** The running results of the crumb loop: the markers, `crumb_count` and the reward. */
  datatype Sweep = Sweep(markers: Markers, count: int, reward: real)

  /**
   * One turn of the crumb loop of `update_position`. A crumb whose cell is
   * still marked and within reach is unmarked and counted off; it pays its
   * reward, plus `bonus` when the count drops to 0 or below.
   */
  function Pickup(num: Numerics, sw: Sweep, p: Pellet, pos: Point, bonus: real): Sweep
    requires Sound(num)
  {
    if p.Cell() in sw.markers && Reaches(num, p.Cell(), pos) then
      var count := sw.count - 1;
      Sweep(sw.markers - {p.Cell()}, count,
            sw.reward + if count <= 0 then p.reward + bonus else p.reward)
    else sw
  }

  /** The crumb loop over `crumbs`, in list order, from `start`. */
  function SweepCrumbs(num: Numerics, crumbs: seq<Pellet>, pos: Point, start: Sweep, bonus: real): Sweep
    requires Sound(num)
    decreases |crumbs|
  {
    if crumbs == [] then start
    else
      var n := |crumbs| - 1;
      Pickup(num, SweepCrumbs(num, crumbs[..n], pos, start, bonus), crumbs[n], pos, bonus)
  }

  /** The cells of `crumbs` within reach of `pos`. */
  function Reached(num: Numerics, crumbs: seq<Pellet>, pos: Point): set<Point>
    requires Sound(num)
    decreases |crumbs|
  {
    if crumbs == [] then {}
    else
      var n := |crumbs| - 1;
      var c := crumbs[n].Cell();
      Reached(num, crumbs[..n], pos) + if Reaches(num, c, pos) then {c} else {}
  }

  /** The reached cells are the crumb cells within reach. */
  lemma {:induction false} ReachedCells(num: Numerics, crumbs: seq<Pellet>, pos: Point, c: Point)
    requires Sound(num)
    ensures c in Reached(num, crumbs, pos) <==> c in Cells(crumbs) && Reaches(num, c, pos)
    decreases |crumbs|
  {
    if crumbs != [] {
      ReachedCells(num, crumbs[..|crumbs| - 1], pos, c);
    }
  }

  /**
   * The rewards of the crumbs that get vacuumed, taken independently of the
   * loop: a crumb pays when its cell is marked, within reach, and no earlier
   * crumb of the list lies on the same cell.
   */
  function PickedRewards(num: Numerics, crumbs: seq<Pellet>, pos: Point, markers: Markers): real
    requires Sound(num)
    decreases |crumbs|
  {
    if crumbs == [] then 0.0
    else
      var n := |crumbs| - 1;
      var c := crumbs[n].Cell();
      PickedRewards(num, crumbs[..n], pos, markers) +
        if c in markers && Reaches(num, c, pos) && c !in Cells(crumbs[..n]) then crumbs[n].reward else 0.0
  }

  /** The bonuses of `picks` successive pickups from a count of `count`: one for each that leaves the count at 0 or below. */
  function Bonuses(count: int, picks: nat, bonus: real): real
  {
    if picks == 0 then 0.0
    else Bonuses(count, picks - 1, bonus) + if count - picks <= 0 then bonus else 0.0
  }

  /** While crumbs remain after the last pickup, no pickup earned the bonus. */
  lemma {:induction false} NoBonusWhileCrumbsRemain(count: int, picks: nat, bonus: real)
    requires count - picks > 0
    ensures Bonuses(count, picks, bonus) == 0.0
  {
    if picks > 0 {
      NoBonusWhileCrumbsRemain(count, picks - 1, bonus);
    }
  }

  /** When the pickups take exactly the crumbs that were left, only the last one earns the bonus. */
  lemma LastCrumbEarnsBonusOnce(count: int, picks: nat, bonus: real)
    requires 1 <= count == picks
    ensures Bonuses(count, picks, bonus) == bonus
  {
    NoBonusWhileCrumbsRemain(count, picks - 1, bonus);
  }

  /** Reaching one more cell takes it exactly when it is marked and was not taken yet. */
  lemma TakenExtend(keys: set<Point>, r0: set<Point>, c: Point)
    ensures c in keys && c !in r0 ==> keys * (r0 + {c}) == keys * r0 + {c} && |keys * (r0 + {c})| == |keys * r0| + 1
    ensures !(c in keys && c !in r0) ==> keys * (r0 + {c}) == keys * r0
  {
    if c in keys && c !in r0 {
      assert keys * (r0 + {c}) == keys * r0 + {c};
    } else {
      assert keys * (r0 + {c}) == keys * r0;
    }
  }

  /**
   * The markers and the count after the crumb loop: exactly the marked
   * cells within reach are unmarked, and each is counted off once.
   */
  lemma {:induction false} SweepMarkers(num: Numerics, crumbs: seq<Pellet>, pos: Point, markers: Markers,
                                        count: int, reward: real, bonus: real)
    requires Sound(num)
    ensures var sw := SweepCrumbs(num, crumbs, pos, Sweep(markers, count, reward), bonus);
            && sw.markers == markers - Reached(num, crumbs, pos)
            && sw.count == count - |markers.Keys * Reached(num, crumbs, pos)|
    decreases |crumbs|
  {
    if crumbs != [] {
      var n := |crumbs| - 1;
      var pre := crumbs[..n];
      SweepMarkers(num, pre, pos, markers, count, reward, bonus);
      PickupMarkers(num, SweepCrumbs(num, pre, pos, Sweep(markers, count, reward), bonus), crumbs[n], pos,
                    markers, Reached(num, pre, pos), count, bonus);
    }
  }

  /** One turn of the crumb loop, against the declarative account of the markers and the count before it. */
  lemma PickupMarkers(num: Numerics, sw0: Sweep, p: Pellet, pos: Point, markers: Markers, r0: set<Point>,
                      count: int, bonus: real)
    requires Sound(num)
    requires sw0.markers == markers - r0
    requires sw0.count == count - |markers.Keys * r0|
    ensures var c := p.Cell();
            var r := r0 + if Reaches(num, c, pos) then {c} else {};
            var sw := Pickup(num, sw0, p, pos, bonus);
            sw.markers == markers - r && sw.count == count - |markers.Keys * r|
  {
    var c := p.Cell();
    if Reaches(num, c, pos) {
      TakenExtend(markers.Keys, r0, c);
      UnmarkExtend(markers, r0, c);
    } else {
      assert r0 + {} == r0;
    }
  }

  /** Unmarking one more cell after a set of them is unmarking the larger set. */
  lemma UnmarkExtend(m: Markers, r0: set<Point>, c: Point)
    ensures m - (r0 + {c}) == (m - r0) - {c}
    ensures c !in m - r0 ==> m - (r0 + {c}) == m - r0
  {
    assert m - (r0 + {c}) == (m - r0) - {c};
  }

  /**
   * The reward of the crumb loop: that of the vacuumed crumbs, plus one
   * bonus per pickup that left the count at 0 or below.
   */
  lemma {:induction false} SweepRewards(num: Numerics, crumbs: seq<Pellet>, pos: Point, markers: Markers,
                                        count: int, reward: real, bonus: real)
    requires Sound(num)
    ensures SweepCrumbs(num, crumbs, pos, Sweep(markers, count, reward), bonus).reward ==
              reward + PickedRewards(num, crumbs, pos, markers) +
              Bonuses(count, |markers.Keys * Reached(num, crumbs, pos)|, bonus)
    decreases |crumbs|
  {
    if crumbs != [] {
      var n := |crumbs| - 1;
      var pre := crumbs[..n];
      var c := crumbs[n].Cell();
      SweepRewards(num, pre, pos, markers, count, reward, bonus);
      SweepMarkers(num, pre, pos, markers, count, reward, bonus);
      ReachedCells(num, pre, pos, c);
      PickupReward(num, SweepCrumbs(num, pre, pos, Sweep(markers, count, reward), bonus), crumbs[n], pos,
                   markers, Reached(num, pre, pos), Cells(pre), count, reward, PickedRewards(num, pre, pos, markers), bonus);
    }
  }

  /** One turn of the crumb loop, against the declarative account of the turns before it. */
  lemma PickupReward(num: Numerics, sw0: Sweep, p: Pellet, pos: Point, markers: Markers, r0: set<Point>,
                     cells0: set<Point>, count: int, reward: real, before: real, bonus: real)
    requires Sound(num)
    requires sw0.markers == markers - r0
    requires sw0.count == count - |markers.Keys * r0|
    requires sw0.reward == reward + before + Bonuses(count, |markers.Keys * r0|, bonus)
    requires p.Cell() in r0 <==> p.Cell() in cells0 && Reaches(num, p.Cell(), pos)
    ensures var c := p.Cell();
            Pickup(num, sw0, p, pos, bonus).reward ==
              reward + (before + if c in markers && Reaches(num, c, pos) && c !in cells0 then p.reward else 0.0) +
              Bonuses(count, |markers.Keys * (r0 + if Reaches(num, c, pos) then {c} else {})|, bonus)
  {
    var c := p.Cell();
    if Reaches(num, c, pos) {
      TakenExtend(markers.Keys, r0, c);
    } else {
      assert r0 + {} == r0;
    }
  }

  /**
   * The reward of the crumb loop from nothing: the vacuumed crumbs' rewards
   * while crumbs remain, and one bonus more when the loop takes exactly the
   * crumbs that were left.
   */
  lemma SweepReward(num: Numerics, crumbs: seq<Pellet>, pos: Point, markers: Markers, count: int, bonus: real)
    requires Sound(num)
    ensures var sw := SweepCrumbs(num, crumbs, pos, Sweep(markers, count, 0.0), bonus);
            && (sw.count > 0 ==> sw.reward == PickedRewards(num, crumbs, pos, markers))
            && (count >= 1 && sw.count == 0 ==> sw.reward == PickedRewards(num, crumbs, pos, markers) + bonus)
  {
    SweepMarkers(num, crumbs, pos, markers, count, 0.0, bonus);
    SweepRewards(num, crumbs, pos, markers, count, 0.0, bonus);
    var picks := |markers.Keys * Reached(num, crumbs, pos)|;
    if count - picks > 0 {
      NoBonusWhileCrumbsRemain(count, picks, bonus);
    } else if count >= 1 && count - picks == 0 {
      LastCrumbEarnsBonusOnce(count, picks, bonus);
    }
  }

  /** The gap between `crumb_count` and the number of markers is what the crumb loop keeps. */
  lemma SweepKeepsCountGap(num: Numerics, crumbs: seq<Pellet>, pos: Point, markers: Markers, count: int,
                           reward: real, bonus: real)
    requires Sound(num)
    ensures var sw := SweepCrumbs(num, crumbs, pos, Sweep(markers, count, reward), bonus);
            sw.count - |sw.markers| == count - |markers|
  {
    SweepMarkers(num, crumbs, pos, markers, count, reward, bonus);
    var r := Reached(num, crumbs, pos);
    assert (markers - r).Keys == markers.Keys - r;
    assert markers.Keys == (markers.Keys - r) + markers.Keys * r;
    assert |markers.Keys| == |markers.Keys - r| + |markers.Keys * r|;
  }

  // ----------------------------------------------------------------- motion

  /** The two kinds of agent the environment tells apart by type. */
  datatype Brain = RoombaBrain | RtneatBrain

  /**
   * `validate(action)` against the action bounds: one turn in [-pi, pi] for
   * the RoombaBrain, two values in [-0.5, 0.5] for the RTNEAT agent.
   */
  ghost predicate ActionValid(num: Numerics, brain: Brain, action: seq<real>)
  {
    match brain
    case RoombaBrain => |action| == 1 && -num.pi <= action[0] <= num.pi
    case RtneatBrain => |action| == 2 && -0.5 <= action[0] <= 0.5 && -0.5 <= action[1] <= 0.5
  }

  /**
   * `(delta_dist, delta_angle)` of `step`. The RoombaBrain's action is an
   * absolute heading, travelled at MAX_SPEED; the RTNEAT agent's actions
   * scale a forward move of at most 5 and a turn of at most 45 degrees.
   */
  function Deltas(num: Numerics, brain: Brain, action: seq<real>, rotation: Vec3): (d: (real, real))
    requires ActionValid(num, brain, action)
    ensures brain == RoombaBrain ==> d.0 == MaxSpeed && rotation.z + d.1 == num.degrees(action[0])
    ensures brain == RtneatBrain ==> -5.0 <= d.0 <= 5.0 && -45.0 <= d.1 <= 45.0
  {
    match brain
    case RoombaBrain => (MaxSpeed, num.degrees(action[0]) - rotation.z)
    case RtneatBrain => (action[0] * Speed, action[1] * AngularSpeed)
  }

  /**
   * The back-tracking of `update_position` of a point `p` reached by the
   * step (cx, cy): each coordinate found below 0 or above the room's extent
   * gives back its step, the lower bound tested first. From a point inside
   * the room, a coordinate that stays inside is kept and one that leaves
   * returns to where it was.
   */
  function BackTracked(p: Vec3, cx: real, cy: real, xdim: real, ydim: real): (r: Vec3)
    ensures r.z == p.z
    ensures 0.0 <= p.x - cx <= xdim ==> r.x == if 0.0 <= p.x <= xdim then p.x else p.x - cx
    ensures 0.0 <= p.y - cy <= ydim ==> r.y == if 0.0 <= p.y <= ydim then p.y else p.y - cy
  {
    var x := if p.x < 0.0 then p.x - cx else p.x;
    var y := if p.y < 0.0 then p.y - cy else p.y;
    var x := if x > xdim then x - cx else x;
    var y := if y > ydim then y - cy else y;
    Vec3(x, y, p.z)
  }

  /** The position `update_position` settles on: one step along the new heading, then backed off the walls. */
  function NextPosition(num: Numerics, position: Vec3, heading: real, dd: real, xdim: real, ydim: real): Vec3
  {
    var cx := dd * num.cosDeg(heading);
    var cy := dd * num.sinDeg(heading);
    BackTracked(Vec3(position.x + cx, position.y + cy, position.z), cx, cy, xdim, ydim)
  }

  /** From inside the room an agent never leaves it. */
  lemma NextPositionInRoom(num: Numerics, position: Vec3, heading: real, dd: real, xdim: real, ydim: real)
    requires 0.0 <= position.x <= xdim && 0.0 <= position.y <= ydim
    ensures var p := NextPosition(num, position, heading, dd, xdim, ydim);
            0.0 <= p.x <= xdim && 0.0 <= p.y <= ydim && p.z == position.z
  {
    var cx := dd * num.cosDeg(heading);
    var cy := dd * num.sinDeg(heading);
    assert (position.x + cx) - cx == position.x && (position.y + cy) - cy == position.y;
  }

  // ---------------------------------------------------------------- sensors

  /** `fabs(angle)`-ranked quadrant a cube lies in, from its angle in half turns. */
  function Quadrant(angle: real): (q: nat)
    ensures q < 4
    ensures q == 0 <==> -1.0 <= angle < -0.5
    ensures q == 1 <==> -0.5 <= angle < 0.0
    ensures q == 2 <==> 0.0 <= angle < 0.5
  {
    if -1.0 <= angle < -0.5 then 0
    else if -0.5 <= angle < 0.0 then 1
    else if 0.0 <= angle < 0.5 then 2
    else 3
  }

  /**
   * The angle of a cube in the agent's frame, in half turns: its bearing
   * less the agent's heading, wrapped once each way by 360 degrees, over 180.
   */
  function CubeAngle(num: Numerics, cube: Point, position: Vec3, rotation: Vec3): real
  {
    var a := num.atan2Deg(cube.y - position.y, cube.x - position.x) - rotation.z;
    var a := if a > 180.0 then a - 360.0 else a;
    var a := if a < -180.0 then a + 360.0 else a;
    a / 180.0
  }

  /** The distance from the agent to a cube. */
  function CubeDistance(num: Numerics, cube: Point, position: Vec3): (d: real)
    requires Sound(num)
    ensures d >= 0.0
  {
    SqrtDistance(num, cube, Point(position.x, position.y))
  }

  /** The sensors before the first cube: no distance seen, and -1 for the angle. */
  const Unsensed: seq<real> := [MaxDistance, MaxDistance, MaxDistance, MaxDistance, -1.0, MaxDistance]

  /** One cube of the quadrant loop: a nearer cube of a quadrant replaces its distance and may lower the angle. */
  function SenseCube(num: Numerics, s: seq<real>, cube: Point, position: Vec3, rotation: Vec3): (s': seq<real>)
    requires Sound(num)
    requires |s| == 6
    ensures |s'| == 6
  {
    var dist := CubeDistance(num, cube, position);
    var angle := CubeAngle(num, cube, position, rotation);
    var q := Quadrant(angle);
    if dist < s[q] then
      var s1 := s[q := dist];
      if Abs(angle) < Abs(s[4]) then s1[4 := angle] else s1
    else s
  }

  /** The quadrant loop of the RTNEAT `sense`, over the cubes in iteration order. */
  function ScanCubes(num: Numerics, cubes: seq<Point>, position: Vec3, rotation: Vec3): (s: seq<real>)
    requires Sound(num)
    ensures |s| == 6
    decreases |cubes|
  {
    if cubes == [] then Unsensed
    else
      var n := |cubes| - 1;
      SenseCube(num, ScanCubes(num, cubes[..n], position, rotation), cubes[n], position, rotation)
  }

  /** Slot 5 untouched, the angle slot within [-1, 1], every distance slot within [0, MAX_DISTANCE]. */
  predicate ScanBounded(s: seq<real>)
  {
    && |s| == 6
    && s[5] == MaxDistance
    && -1.0 <= s[4] <= 1.0
    && forall q :: 0 <= q < 4 ==> 0.0 <= s[q] <= MaxDistance
  }

  /**
   * One cube keeps the sensors bounded, brings its quadrant's slot down to
   * at most its distance, and changes no other distance slot.
   */
  lemma SenseCubeStep(num: Numerics, s: seq<real>, cube: Point, position: Vec3, rotation: Vec3)
    requires Sound(num)
    requires ScanBounded(s)
    ensures var s' := SenseCube(num, s, cube, position, rotation);
            var q := Quadrant(CubeAngle(num, cube, position, rotation));
            && ScanBounded(s')
            && s'[q] <= CubeDistance(num, cube, position)
            && (forall k :: 0 <= k < 4 ==> s'[k] <= s[k])
            && (forall k :: 0 <= k < 4 && s'[k] != s[k] ==> k == q && s'[k] == CubeDistance(num, cube, position))
  {
  }

  /**
   * After the quadrant loop the sensors are bounded and each distance slot
   * is at most the distance of every cube of its quadrant.
   */
  lemma {:induction false} ScanCubesBelow(num: Numerics, cubes: seq<Point>, position: Vec3, rotation: Vec3)
    requires Sound(num)
    ensures var s := ScanCubes(num, cubes, position, rotation);
            && ScanBounded(s)
            && forall i :: 0 <= i < |cubes| ==>
                 s[Quadrant(CubeAngle(num, cubes[i], position, rotation))] <= CubeDistance(num, cubes[i], position)
    decreases |cubes|
  {
    if cubes != [] {
      var n := |cubes| - 1;
      var pre := cubes[..n];
      ScanCubesBelow(num, pre, position, rotation);
      SenseCubeStep(num, ScanCubes(num, pre, position, rotation), cubes[n], position, rotation);
      assert forall i :: 0 <= i < n ==> cubes[i] == pre[i];
    }
  }

  /**
   * After the quadrant loop a distance slot below MAX_DISTANCE is the
   * distance of one of its quadrant's cubes.
   */
  lemma {:induction false} ScanCubesAttained(num: Numerics, cubes: seq<Point>, position: Vec3, rotation: Vec3)
    requires Sound(num)
    ensures var s := ScanCubes(num, cubes, position, rotation);
            forall q :: 0 <= q < 4 && s[q] != MaxDistance ==>
              exists i :: 0 <= i < |cubes| && Quadrant(CubeAngle(num, cubes[i], position, rotation)) == q &&
                          s[q] == CubeDistance(num, cubes[i], position)
    decreases |cubes|
  {
    if cubes != [] {
      var n := |cubes| - 1;
      var pre := cubes[..n];
      ScanCubesAttained(num, pre, position, rotation);
      ScanCubesBelow(num, pre, position, rotation);
      var s0 := ScanCubes(num, pre, position, rotation);
      var s := ScanCubes(num, cubes, position, rotation);
      SenseCubeStep(num, s0, cubes[n], position, rotation);
      forall q | 0 <= q < 4 && s[q] != MaxDistance
        ensures exists i :: 0 <= i < |cubes| && Quadrant(CubeAngle(num, cubes[i], position, rotation)) == q &&
                            s[q] == CubeDistance(num, cubes[i], position)
      {
        if s[q] == s0[q] {
          var i :| 0 <= i < n && Quadrant(CubeAngle(num, pre[i], position, rotation)) == q &&
                   s0[q] == CubeDistance(num, pre[i], position);
          assert cubes[i] == pre[i];
        } else {
          assert Quadrant(CubeAngle(num, cubes[n], position, rotation)) == q;
        }
      }
    }
  }

  /** Distance slots still at MAX_DISTANCE, that is with nothing seen, become -1. */
  function Unseen(s: seq<real>): (t: seq<real>)
    requires |s| == 6
    ensures |t| == 6
  {
    seq(6, i requires 0 <= i < 6 => if i != 4 && s[i] >= MaxDistance then -1.0 else s[i])
  }

  function Max(a: real, b: real): real
  {
    if a >= b then a else b
  }

  /** Each positive distance slot is inverted against the largest one, when that is positive. */
  function Normalized(t: seq<real>): (u: seq<real>)
    requires |t| == 6
    ensures |u| == 6
  {
    var maxval := Max(Max(Max(Max(t[0], t[1]), t[2]), t[3]), t[5]);
    if maxval > 0.0 then
      seq(6, i requires 0 <= i < 6 => if i != 4 && t[i] > 0.0 then 1.0 - t[i] / maxval else t[i])
    else t
  }

  /** The sensor vector of the RTNEAT agent. */
  function QuadrantSensors(num: Numerics, cubes: seq<Point>, position: Vec3, rotation: Vec3): (s: seq<real>)
    requires Sound(num)
    ensures |s| == 6
  {
    Normalized(Unseen(ScanCubes(num, cubes, position, rotation)))
  }

  lemma PositiveQuotient(t: real, m: real)
    requires 0.0 < t && 0.0 < m
    ensures t / m > 0.0
  {
  }

  lemma QuotientAtMostOne(t: real, m: real)
    requires 0.0 < t <= m
    ensures t / m <= 1.0
  {
    assert t / m <= m / m;
  }

  lemma InvertedInUnit(t: real, maxval: real)
    requires 0.0 < t <= maxval
    ensures 0.0 <= 1.0 - t / maxval < 1.0
  {
    PositiveQuotient(t, maxval);
    QuotientAtMostOne(t, maxval);
  }

  /**
   * The RTNEAT sensors: slot 5 is always -1 and the angle slot lies in
   * [-1, 1]; a quadrant slot is -1 exactly when no cube of that quadrant is
   * nearer than MAX_DISTANCE, and otherwise lies in [0, 1).
   */
  lemma QuadrantSensorsBounded(num: Numerics, cubes: seq<Point>, position: Vec3, rotation: Vec3)
    requires Sound(num)
    ensures var s := QuadrantSensors(num, cubes, position, rotation);
            && s[5] == -1.0
            && -1.0 <= s[4] <= 1.0
            && forall q :: 0 <= q < 4 ==>
                 && (s[q] == -1.0 || 0.0 <= s[q] < 1.0)
                 && (s[q] == -1.0 <==>
                       forall i :: 0 <= i < |cubes| && Quadrant(CubeAngle(num, cubes[i], position, rotation)) == q ==>
                         CubeDistance(num, cubes[i], position) >= MaxDistance)
  {
    var r := ScanCubes(num, cubes, position, rotation);
    ScanCubesBelow(num, cubes, position, rotation);
    ScanCubesAttained(num, cubes, position, rotation);
    var t := Unseen(r);
    var s := Normalized(t);
    var maxval := Max(Max(Max(Max(t[0], t[1]), t[2]), t[3]), t[5]);
    assert t[5] == -1.0 && t[4] == r[4];
    assert forall q :: 0 <= q < 4 ==> t[q] <= maxval;
    forall q | 0 <= q < 4
      ensures s[q] == -1.0 || 0.0 <= s[q] < 1.0
      ensures s[q] == -1.0 <==> r[q] >= MaxDistance
    {
      if maxval > 0.0 && t[q] > 0.0 {
        InvertedInUnit(t[q], maxval);
      }
    }
    forall q | 0 <= q < 4
      ensures r[q] >= MaxDistance <==>
                forall i :: 0 <= i < |cubes| && Quadrant(CubeAngle(num, cubes[i], position, rotation)) == q ==>
                  CubeDistance(num, cubes[i], position) >= MaxDistance
    {
      if r[q] < MaxDistance {
        var i :| 0 <= i < |cubes| && Quadrant(CubeAngle(num, cubes[i], position, rotation)) == q &&
                 r[q] == CubeDistance(num, cubes[i], position);
      }
    }
  }

  /**
   * A cube at zero distance leaves its quadrant's sensor at 0, the reading
   * of a cube at the largest distance seen, since only positive slots are
   * inverted; the comment closing the source's `sense` promises 1 for it.
   */
  lemma CubeAtZeroReadsZero(num: Numerics, cubes: seq<Point>, position: Vec3, rotation: Vec3, i: int)
    requires Sound(num)
    requires 0 <= i < |cubes| && CubeDistance(num, cubes[i], position) == 0.0
    ensures QuadrantSensors(num, cubes, position, rotation)[Quadrant(CubeAngle(num, cubes[i], position, rotation))] == 0.0
  {
    ScanCubesBelow(num, cubes, position, rotation);
  }

  /** The cubes in the marker map's iteration order: each key once. */
  ghost predicate IteratesKeys(cubes: seq<Point>, m: Markers)
  {
    && (forall c :: c in cubes <==> c in m)
    && (forall i, j :: 0 <= i < j < |cubes| ==> cubes[i] != cubes[j])
  }

  /** Every block of `sense_crumbs` fits in the vector. */
  predicate BlocksFit(len: nat, n: nat, stride: nat, start: nat)
  {
    n == 0 || start + stride * (n - 1) + 4 <= len
  }

  lemma BlocksFitPrefix(len: nat, n: nat, stride: nat, start: nat)
    requires BlocksFit(len, n, stride, start) && n > 0
    ensures BlocksFit(len, n - 1, stride, start)
  {
    if n > 1 {
      assert stride * (n - 1) == stride * (n - 2) + stride;
    }
  }

  /** A block before the last one that fits fits too. */
  lemma {:induction false} BlocksWithin(len: nat, n: nat, stride: nat, start: nat, k: nat)
    requires BlocksFit(len, n, stride, start) && k < n
    ensures start + stride * k + 4 <= len
    ensures BlocksFit(len, k + 1, stride, start)
    decreases n - k
  {
    if k + 1 < n {
      BlocksFitPrefix(len, n, stride, start);
      BlocksWithin(len, n - 1, stride, start, k);
    }
  }

  /** The present flag of a crumb's block: 1 while its cell is marked. */
  function Present(p: Pellet, markers: Markers): real
  {
    if p.Cell() in markers then 1.0 else 0.0
  }

  /** `sense_crumbs`: from `start`, every `stride` slots, a crumb's x, y, present flag and reward. */
  function CrumbsWritten(s: seq<real>, crumbs: seq<Pellet>, markers: Markers, stride: nat, start: nat)
    : (w: seq<real>)
    requires BlocksFit(|s|, |crumbs|, stride, start)
    ensures |w| == |s|
    decreases |crumbs|
  {
    if crumbs == [] then s
    else
      var n := |crumbs| - 1;
      BlocksFitPrefix(|s|, |crumbs|, stride, start);
      var w := CrumbsWritten(s, crumbs[..n], markers, stride, start);
      var i := start + stride * n;
      var p := crumbs[n];
      w[i := p.x][i + 1 := p.y][i + 2 := Present(p, markers)][i + 3 := p.reward]
  }

  /**
   * With the block size of the RoombaBrain's layout, block k starts at
   * `start + 4 * k` and holds crumb k's x, y, present flag and reward; the
   * slots before the first block and after the last keep their values.
   */
  lemma {:induction false} CrumbBlocks(s: seq<real>, crumbs: seq<Pellet>, markers: Markers, start: nat)
    requires BlocksFit(|s|, |crumbs|, 4, start)
    ensures var w := CrumbsWritten(s, crumbs, markers, 4, start);
            && (forall k :: 0 <= k < |crumbs| ==>
                  var i := start + 4 * k;
                  && w[i] == crumbs[k].x && w[i + 1] == crumbs[k].y
                  && w[i + 2] == Present(crumbs[k], markers) && w[i + 3] == crumbs[k].reward)
            && (forall j :: 0 <= j < |s| && (j < start || j >= start + 4 * |crumbs|) ==> w[j] == s[j])
    decreases |crumbs|
  {
    if crumbs != [] {
      var n := |crumbs| - 1;
      var pre := crumbs[..n];
      BlocksFitPrefix(|s|, |crumbs|, 4, start);
      CrumbBlocks(s, pre, markers, start);
      assert forall k :: 0 <= k < n ==> crumbs[k] == pre[k];
    }
  }

  /** The RoombaBrain's sensors: bump, position, then the crumb blocks. */
  function RoombaSensors(bumped: bool, position: Vec3, crumbs: seq<Pellet>, markers: Markers): (s: seq<real>)
    ensures |s| == NFixedSensors + NSInBlock * |crumbs|
  {
    var fixed := [if bumped then 1.0 else 0.0, position.x, position.y] + seq(NSInBlock * |crumbs|, _ => 0.0);
    CrumbsWritten(fixed, crumbs, markers, NSInBlock, NFixedSensors)
  }

  /** The loop of `sense` that turns the distance slots still at MAX_DISTANCE into -1. */
  method MarkUnseen(sensors: array<real>)
    requires sensors.Length == 6
    modifies sensors
    ensures sensors[..] == Unseen(old(sensors[..]))
  {
    for i := 0 to 6
      invariant forall j :: 0 <= j < i ==> sensors[j] == Unseen(old(sensors[..]))[j]
      invariant forall j :: i <= j < 6 ==> sensors[j] == old(sensors[j])
    {
      if i != 4 && sensors[i] >= MaxDistance {
        sensors[i] := -1.0;
      }
    }
  }

  /** The loop of `sense` that inverts the positive distance slots against the largest. */
  method Normalize(sensors: array<real>)
    requires sensors.Length == 6
    modifies sensors
    ensures sensors[..] == Normalized(old(sensors[..]))
  {
    var maxval := Max(Max(Max(Max(sensors[0], sensors[1]), sensors[2]), sensors[3]), sensors[5]);
    if maxval > 0.0 {
      for i := 0 to 6
        invariant forall j :: 0 <= j < i ==> sensors[j] == Normalized(old(sensors[..]))[j]
        invariant forall j :: i <= j < 6 ==> sensors[j] == old(sensors[j])
      {
        if i != 4 && sensors[i] > 0.0 {
          sensors[i] := 1.0 - sensors[i] / maxval;
        }
      }
    }
  }

  // ------------------------------------------------------------ environment

  /** The per-agent record the environment keeps. */
  datatype RoombaState = RoombaState(position: Vec3, rotation: Vec3, stepCount: int, isOut: bool,
                                     reward: real, bumped: bool)

  /** The record `get_state` creates for an agent it has not seen, at the agent's place. */
  function NewState(position: Vec3, rotation: Vec3): RoombaState
  {
    RoombaState(position, rotation, 0, false, 0.0, false)
  }

  /** The records after `get_state` for `agent`: a record is created for a new agent and no other changes. */
  function Admitted(states: map<AgentId, RoombaState>, agent: AgentId, position: Vec3, rotation: Vec3)
    : (m: map<AgentId, RoombaState>)
    ensures agent in m
    ensures agent in states ==> m == states
    ensures agent !in states ==> m[agent] == NewState(position, rotation)
    ensures forall a :: a in m ==> a == agent || (a in states && m[a] == states[a])
  {
    if agent in states then states else states[agent := NewState(position, rotation)]
  }

  /** An agent is out only once it has used up the step allowance. */
  ghost predicate OutOnlyWhenSpent(states: map<AgentId, RoombaState>, maxSteps: int)
  {
    forall a :: a in states && states[a].isOut ==> maxSteps != 0 && states[a].stepCount >= maxSteps
  }

  /** A step of `update_position` on an agent's record: one more step, the new place, and out once spent. */
  function Stepped(s: RoombaState, position: Vec3, rotation: Vec3, maxSteps: int): (s': RoombaState)
    ensures s'.stepCount == s.stepCount + 1
    ensures s'.isOut <==> s.isOut || (maxSteps != 0 && s'.stepCount >= maxSteps)
    ensures s'.reward == s.reward && s'.bumped == s.bumped
  {
    var count := s.stepCount + 1;
    s.(stepCount := count, position := position, rotation := rotation,
       isOut := if maxSteps != 0 && count >= maxSteps then true else s.isOut)
  }

  /** The episode of an agent is over once its steps are spent or no crumb is left. */
  function EpisodeOver(maxSteps: int, stepCount: int, crumbCount: int): (over: bool)
  {
    if maxSteps != 0 && stepCount >= maxSteps then true
    else crumbCount <= 0
  }

  /** A spent agent's episode is over. */
  lemma OutMeansOver(states: map<AgentId, RoombaState>, maxSteps: int, agent: AgentId, crumbCount: int)
    requires OutOnlyWhenSpent(states, maxSteps)
    requires agent in states && states[agent].isOut
    ensures EpisodeOver(maxSteps, states[agent].stepCount, crumbCount)
  {
  }

  class SandboxEnvironment {
    const num: Numerics
    /** The sandbox module every environment consults, getMod(). */
    const mod: SandboxMod
    const xdim: real
    const ydim: real
    const maxSteps: int := 500
    const crumbs: seq<Pellet>
    var crumbCount: int
    var states: map<AgentId, RoombaState>

    ghost predicate Valid()
      reads this
    {
      Sound(num) && OutOnlyWhenSpent(states, maxSteps)
    }

    /**
     * The environment of a `xdim` x `ydim` room with the crumbs the world
     * file lists; `ids` are the ids the host allocator hands the markers
     * `add_crumbs` creates, one per crumb.
     */
    constructor (num: Numerics, mod: SandboxMod, xdim: real, ydim: real, crumbs: seq<Pellet>, ids: seq<int>)
      requires Sound(num)
      requires |ids| == |crumbs|
      modifies mod
      ensures Valid()
      ensures this.num == num && this.mod == mod && this.xdim == xdim && this.ydim == ydim
      ensures this.crumbs == crumbs && states == map[]
      ensures mod.markerMap == Planted(old(mod.markerMap), crumbs, ids)
      ensures crumbCount == |mod.markerMap|
      ensures mod.agentIds == old(mod.agentIds)
    {
      this.num := num;
      this.mod := mod;
      this.xdim := xdim;
      this.ydim := ydim;
      this.crumbs := crumbs;
      crumbCount := 0;
      states := map[];
      new;
      AddCrumbs(ids);
    }

    /** `add_crumbs`: a marker on every crumb cell that lacks one; the count is then the number of markers. */
    method AddCrumbs(ids: seq<int>)
      requires |ids| == |crumbs|
      modifies this, mod
      ensures mod.markerMap == Planted(old(mod.markerMap), crumbs, ids)
      ensures crumbCount == |mod.markerMap|
      ensures states == old(states) && mod.agentIds == old(mod.agentIds)
    {
      for k := 0 to |crumbs|
        invariant mod.markerMap == Planted(old(mod.markerMap), crumbs[..k], ids[..k])
        invariant states == old(states) && mod.agentIds == old(mod.agentIds)
      {
        var p := crumbs[k];
        PlantedExtend(old(mod.markerMap), crumbs, ids, k);
        if Point(p.x, p.y) !in mod.markerMap {
          mod.Mark(p.x, p.y, ids[k]);
        }
      }
      assert crumbs[..|crumbs|] == crumbs && ids[..|ids|] == ids;
      crumbCount := |mod.markerMap|;
    }

    /** `get_state`: the agent's record, created at the agent's place the first time. */
    method GetState(agent: AgentId, position: Vec3, rotation: Vec3) returns (s: RoombaState)
      requires Valid()
      modifies this
      ensures Valid()
      ensures states == Admitted(old(states), agent, position, rotation)
      ensures s == states[agent]
      ensures crumbCount == old(crumbCount)
    {
      if agent !in states {
        states := states[agent := NewState(position, rotation)];
      }
      s := states[agent];
    }

    /** `num_sensors`: three fixed slots and one block of four per marker. */
    function NumSensors(): (n: nat)
      reads this, mod
    {
      |mod.markerMap| * NSInBlock + NFixedSensors
    }

    /** While every crumb has its own marker, the count matches the RoombaBrain's sensor vector. */
    lemma NumSensorsFitsLayout()
      requires mod.markerMap.Keys == Cells(crumbs)
      requires forall i, j :: 0 <= i < j < |crumbs| ==> crumbs[i].Cell() != crumbs[j].Cell()
      ensures NumSensors() == |RoombaSensors(false, Vec3(0.0, 0.0, 0.0), crumbs, mod.markerMap)|
    {
      CellsOfDistinct(crumbs);
      assert |mod.markerMap| == |mod.markerMap.Keys|;
    }

    /**
     * `step`. An agent that is out is not stepped: the source then adds an
     * unbound reward, so it is excluded here.
     */
    method Step(agent: AgentId, brain: Brain, action: seq<real>, position: Vec3, rotation: Vec3)
      returns (reward: real, position': Vec3, rotation': Vec3)
      requires Valid()
      requires agent in states ==> !states[agent].isOut
      requires ActionValid(num, brain, action)
      modifies this, mod
      ensures Valid()
      ensures var s := Admitted(old(states), agent, position, rotation)[agent];
              var d := Deltas(num, brain, action, rotation);
              && rotation' == rotation.(z := rotation.z + d.1)
              && position' == NextPosition(num, position, rotation'.z, d.0, xdim, ydim)
              && states == Admitted(old(states), agent, position, rotation)
                             [agent := Stepped(s, position', rotation', maxSteps).(reward := s.reward + reward)]
      ensures var s := Admitted(old(states), agent, position, rotation)[agent];
              var sw := SweepCrumbs(num, crumbs, Point(position'.x, position'.y),
                                    Sweep(old(mod.markerMap), old(crumbCount), 0.0),
                                    (maxSteps - (s.stepCount + 1)) as real);
              mod.markerMap == sw.markers && crumbCount == sw.count && reward == sw.reward
      ensures mod.agentIds == old(mod.agentIds)
    {
      var _ := GetState(agent, position, rotation);
      var d := Deltas(num, brain, action, rotation);
      reward, position', rotation' := UpdatePosition(agent, position, rotation, d.0, d.1);
      var s := states[agent];
      states := states[agent := s.(reward := s.reward + reward)];
    }

    /** `update_position`: turn, move, back off the walls, vacuum, and count the step. */
    method UpdatePosition(agent: AgentId, position: Vec3, rotation: Vec3, dd: real, da: real)
      returns (reward: real, position': Vec3, rotation': Vec3)
      requires Valid()
      modifies this, mod
      ensures Valid()
      ensures var s := Admitted(old(states), agent, position, rotation)[agent];
              && rotation' == rotation.(z := rotation.z + da)
              && position' == NextPosition(num, position, rotation'.z, dd, xdim, ydim)
              && states == Admitted(old(states), agent, position, rotation)
                             [agent := Stepped(s, position', rotation', maxSteps)]
      ensures var s := Admitted(old(states), agent, position, rotation)[agent];
              var sw := SweepCrumbs(num, crumbs, Point(position'.x, position'.y),
                                    Sweep(old(mod.markerMap), old(crumbCount), 0.0),
                                    (maxSteps - (s.stepCount + 1)) as real);
              mod.markerMap == sw.markers && crumbCount == sw.count && reward == sw.reward
      ensures mod.agentIds == old(mod.agentIds)
    {
      var s := GetState(agent, position, rotation);
      var count := s.stepCount + 1;
      rotation' := rotation.(z := rotation.z + da);
      position' := NextPosition(num, position, rotation'.z, dd, xdim, ydim);
      var bonus: real;
      if maxSteps != 0 {
        bonus := (maxSteps - count) as real;
      } else {
        assert false;
      }
      reward := PickUp(Point(position'.x, position'.y), bonus);
      states := states[agent := Stepped(s, position', rotation', maxSteps)];
    }

    /** The crumb loop of `update_position`, with `bonus` paid for clearing the last crumb. */
    method PickUp(pos: Point, bonus: real) returns (reward: real)
      requires Valid()
      modifies this, mod
      ensures Valid() && states == old(states)
      ensures var sw := SweepCrumbs(num, crumbs, pos, Sweep(old(mod.markerMap), old(crumbCount), 0.0), bonus);
              mod.markerMap == sw.markers && crumbCount == sw.count && reward == sw.reward
      ensures mod.agentIds == old(mod.agentIds)
    {
      reward := 0.0;
      for k := 0 to |crumbs|
        invariant Valid() && states == old(states) && mod.agentIds == old(mod.agentIds)
        invariant var sw := SweepCrumbs(num, crumbs[..k], pos, Sweep(old(mod.markerMap), old(crumbCount), 0.0), bonus);
                  mod.markerMap == sw.markers && crumbCount == sw.count && reward == sw.reward
      {
        var p := crumbs[k];
        assert crumbs[..k + 1][..k] == crumbs[..k];
        if Point(p.x, p.y) in mod.markerMap {
          var dist := CrumbDistance(num, Point(p.x, p.y), pos);
          if dist <= PickupRadius {
            var _ := mod.Unmark(p.x, p.y);
            crumbCount := crumbCount - 1;
            if crumbCount <= 0 {
              reward := reward + p.reward + bonus;
            } else {
              reward := reward + p.reward;
            }
          }
        }
      }
      assert crumbs[..|crumbs|] == crumbs;
    }

    /**
     * `sense`, on a fresh sensor vector. `cubes` is the order in which the
     * marker map yields its keys.
     */
    method Sense(agent: AgentId, brain: Brain, position: Vec3, rotation: Vec3, cubes: seq<Point>)
      returns (sensors: array<real>)
      requires Valid()
      requires brain == RtneatBrain ==> IteratesKeys(cubes, mod.markerMap)
      modifies this
      ensures Valid() && fresh(sensors)
      ensures var s := Admitted(old(states), agent, position, rotation)[agent];
              match brain
              case RoombaBrain =>
                && sensors[..] == RoombaSensors(s.bumped, position, crumbs, mod.markerMap)
                && states == Admitted(old(states), agent, position, rotation)[agent := s.(bumped := false)]
              case RtneatBrain =>
                && sensors[..] == QuadrantSensors(num, cubes, position, rotation)
                && states == Admitted(old(states), agent, position, rotation)
      ensures crumbCount == old(crumbCount)
    {
      var s := GetState(agent, position, rotation);
      match brain
      case RoombaBrain =>
        sensors := new real[NFixedSensors + NSInBlock * |crumbs|](_ => 0.0);
        if s.bumped {
          sensors[0] := 1.0;
          states := states[agent := s.(bumped := false)];
        } else {
          sensors[0] := 0.0;
          assert s.(bumped := false) == s;
        }
        sensors[1] := position.x;
        sensors[2] := position.y;
        assert sensors[..] == [if s.bumped then 1.0 else 0.0, position.x, position.y] +
                              seq(NSInBlock * |crumbs|, _ => 0.0);
        SenseCrumbs(sensors, NSInBlock, NFixedSensors);
      case RtneatBrain =>
        sensors := SenseQuadrants(position, rotation, cubes);
    }

    /** `sense_crumbs`: one block per crumb, `numSensors` slots apart from `startSensor`. */
    method SenseCrumbs(sensors: array<real>, numSensors: nat, startSensor: nat)
      requires BlocksFit(sensors.Length, |crumbs|, numSensors, startSensor)
      modifies sensors
      ensures sensors[..] == CrumbsWritten(old(sensors[..]), crumbs, mod.markerMap, numSensors, startSensor)
    {
      var i := startSensor;
      for k := 0 to |crumbs|
        invariant i == startSensor + numSensors * k
        invariant BlocksFit(sensors.Length, k, numSensors, startSensor)
        invariant sensors[..] == CrumbsWritten(old(sensors[..]), crumbs[..k], mod.markerMap, numSensors, startSensor)
      {
        var p := crumbs[k];
        assert crumbs[..k + 1][..k] == crumbs[..k];
        BlocksWithin(sensors.Length, |crumbs|, numSensors, startSensor, k);
        sensors[i] := p.x;
        sensors[i + 1] := p.y;
        if Point(p.x, p.y) in mod.markerMap {
          sensors[i + 2] := 1.0;
        } else {
          sensors[i + 2] := 0.0;
        }
        sensors[i + 3] := p.reward;
        i := i + numSensors;
      }
      assert crumbs[..|crumbs|] == crumbs;
    }

    /** The RTNEAT branch of `sense`: the quadrant loop, then the unseen slots, then the normalisation. */
    method SenseQuadrants(position: Vec3, rotation: Vec3, cubes: seq<Point>) returns (sensors: array<real>)
      requires Valid()
      ensures fresh(sensors)
      ensures sensors[..] == QuadrantSensors(num, cubes, position, rotation)
    {
      sensors := new real[6](_ => 0.0);
      sensors[0], sensors[1], sensors[2], sensors[3] := MaxDistance, MaxDistance, MaxDistance, MaxDistance;
      sensors[4], sensors[5] := -1.0, MaxDistance;
      assert sensors[..] == Unsensed;
      ScanInto(sensors, position, rotation, cubes);
      MarkUnseen(sensors);
      Normalize(sensors);
    }

    /** The quadrant loop of `sense`, over the cubes in the marker map's order. */
    method ScanInto(sensors: array<real>, position: Vec3, rotation: Vec3, cubes: seq<Point>)
      requires Valid()
      requires sensors[..] == Unsensed
      modifies sensors
      ensures sensors[..] == ScanCubes(num, cubes, position, rotation)
    {
      for k := 0 to |cubes|
        invariant sensors[..] == ScanCubes(num, cubes[..k], position, rotation)
      {
        assert cubes[..k + 1][..k] == cubes[..k];
        var dist := CubeDistance(num, cubes[k], position);
        var angle := CubeAngle(num, cubes[k], position, rotation);
        var q := Quadrant(angle);
        if dist < sensors[q] {
          sensors[q] := dist;
          if Abs(angle) < Abs(sensors[4]) {
            sensors[4] := angle;
          }
        }
      }
      assert cubes[..|cubes|] == cubes;
    }

    /** `is_episode_over`: the agent's steps are spent or no crumb is left. */
    method IsEpisodeOver(agent: AgentId, position: Vec3, rotation: Vec3) returns (over: bool)
      requires Valid()
      modifies this
      ensures Valid()
      ensures states == Admitted(old(states), agent, position, rotation)
      ensures over == EpisodeOver(maxSteps, states[agent].stepCount, crumbCount)
      ensures old(agent in states && states[agent].isOut) ==> over
    {
      var s := GetState(agent, position, rotation);
      if maxSteps != 0 && s.stepCount >= maxSteps {
        over := true;
      } else if crumbCount <= 0 {
        over := true;
      } else {
        over := false;
      }
    }
  }
}
