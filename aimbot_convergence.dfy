/** The aim-convergence check: the two look rays of one move (before and
    after it) nearly meet somewhere; an aim assist that locks onto a target
    makes that convergence point repeat exactly from one move to the next.

    Doubles are modelled as reals, and a point with a NaN coordinate as
    `None`. The closest points of two lines and the look directions come
    from library code that is not part of this model: the closest points are
    a function the check is given, the directions are inputs. */
module AimbotConvergenceCheck {

  import opened Optional
  import opened Verdicts

  type Uuid = nat

  datatype Vec3 = Vec3(x: real, y: real, z: real)

  function Add(a: Vec3, b: Vec3): Vec3
  {
    Vec3(a.x + b.x, a.y + b.y, a.z + b.z)
  }

  function Sub(a: Vec3, b: Vec3): Vec3
  {
    Vec3(a.x - b.x, a.y - b.y, a.z - b.z)
  }

  function Scale(a: Vec3, k: real): Vec3
  {
    Vec3(a.x * k, a.y * k, a.z * k)
  }

  function DistanceSquared(a: Vec3, b: Vec3): real
  {
    (a.x - b.x) * (a.x - b.x) + (a.y - b.y) * (a.y - b.y) + (a.z - b.z) * (a.z - b.z)
  }

  lemma SquareNonNegative(r: real)
    ensures r * r >= 0.0
  {
    if r < 0.0 {
      assert r * r == (-r) * (-r);
    }
  }

  /** The squared distance is never negative, and zero from a point to itself. */
  lemma DistanceNonNegative(a: Vec3, b: Vec3)
    ensures DistanceSquared(a, b) >= 0.0
    ensures DistanceSquared(a, a) == 0.0
  {
    SquareNonNegative(a.x - b.x);
    SquareNonNegative(a.y - b.y);
    SquareNonNegative(a.z - b.z);
  }

  /** A point, or `None` for a point with a NaN coordinate. */
  type Point = Option<Vec3>

  datatype Ray = Ray(origin: Vec3, direction: Vec3)

  /** The closest points of the two lines through two rays; `None` when they
      are NaN (parallel lines). */
  type ClosestPoints = (Ray, Ray) -> Option<(Vec3, Vec3)>

  const EyeHeight: real := 1.62
  const Epsilon: real := 0.00000001

  /** One move, as the check reads it from the move event and the player. */
  datatype AimSample = AimSample(
    uuid: Uuid,
    hasDeltaPos: bool,
    teleported: bool,
    from: Vec3,
    velocity: Vec3,
    fromDirection: Vec3,
    toDirection: Vec3)

  /** The eye position before the move: the origin of the move, less the
      velocity, raised to eye height. */
  function PrePosition(s: AimSample): Vec3
  {
    Add(Sub(s.from, s.velocity), Vec3(0.0, EyeHeight, 0.0))
  }

  /** The eye position after the move. It is computed from the origin of the
      move, as the convergence check does, not from its destination. */
  function PostPosition(s: AimSample): Vec3
  {
    Add(s.from, Vec3(0.0, EyeHeight, 0.0))
  }

  /** The eye moved by exactly the player's velocity. */
  lemma EyeDisplacementIsVelocity(s: AimSample)
    ensures Sub(PostPosition(s), PrePosition(s)) == s.velocity
  {
  }

  /** The point halfway between the two closest points. */
  function Midpoint(pair: Option<(Vec3, Vec3)>): (m: Point)
    ensures m.None? <==> pair.None?
    ensures pair.Some? ==> Sub(m.value, pair.value.0) == Sub(pair.value.1, m.value)
  {
    match pair
    case None => None
    case Some((a, b)) => Some(Scale(Add(a, b), 0.5))
  }

  /** The midpoint is equally far from both closest points. */
  lemma MidpointEquidistant(a: Vec3, b: Vec3)
    ensures DistanceSquared(Midpoint(Some((a, b))).value, a) == DistanceSquared(Midpoint(Some((a, b))).value, b)
  {
    var m := Midpoint(Some((a, b))).value;
    assert m.x - a.x == b.x - m.x && m.y - a.y == b.y - m.y && m.z - a.z == b.z - m.z;
  }

  /** The convergence point of one move. */
  function Convergence(s: AimSample, closest: ClosestPoints): Point
  {
    Midpoint(closest(Ray(PrePosition(s), s.fromDirection), Ray(PostPosition(s), s.toDirection)))
  }

  /** The squared distance between two points, NaN when either is. */
  function Distance(p: Point, q: Point): (d: Option<real>)
    ensures d.None? <==> p.None? || q.None?
    ensures d.Some? ==> d.value >= 0.0
    ensures p.Some? && p == q ==> d == Some(0.0)
  {
    if p.None? || q.None? then None
    else
      DistanceNonNegative(p.value, q.value);
      Some(DistanceSquared(p.value, q.value))
  }

  /** The verdict on a new convergence point against the stored one, if any. */
  function Judge(last: Option<Point>, current: Point): Verdict
  {
    match last
    case None => NoVerdict
    case Some(previous) =>
      match Distance(previous, current)
      case None => NoVerdict
      case Some(d) => if d < Epsilon then Punish(false) else Reward
  }

  /** A first observation and a NaN distance get no verdict; otherwise the
      verdict is a plain punishment exactly when the squared
      distance is below epsilon, and a reward otherwise. */
  lemma JudgeCases(last: Option<Point>, current: Point)
    ensures last.None? ==> Judge(last, current) == NoVerdict
    ensures last.Some? && Distance(last.value, current).None? ==> Judge(last, current) == NoVerdict
    ensures last.Some? && Distance(last.value, current).Some? ==>
      && (Judge(last, current) == Punish(false) <==> Distance(last.value, current).value < Epsilon)
      && (Judge(last, current) == Reward <==> Distance(last.value, current).value >= Epsilon)
  {
  }

  /** The same convergence point twice in a row is punished at once. */
  lemma RepeatedPointIsPunished(c: Vec3)
    ensures Judge(Some(Some(c)), Some(c)) == Punish(false)
  {
    assert Distance(Some(c), Some(c)) == Some(0.0);
  }

  /** Two points at squared distance at least epsilon are rewarded, never
      punished. */
  lemma DistinctPointsNotPunishedWhenFar(p: Vec3, c: Vec3)
    requires DistanceSquared(p, c) >= Epsilon
    ensures Judge(Some(Some(p)), Some(c)) == Reward
  {
  }

  /** Parallel rays give a NaN convergence point, which is never judged,
      whatever was stored before. */
  lemma ParallelRaysInconclusive(s: AimSample, closest: ClosestPoints, last: Option<Point>)
    requires closest(Ray(PrePosition(s), s.fromDirection), Ray(PostPosition(s), s.toDirection)).None?
    ensures Judge(last, Convergence(s, closest)) == NoVerdict
  {
  }

  /** The stored point of a player, `None` when there is no entry (the map's
      `get` returning null). */
  function Lookup(m: map<Uuid, Point>, uuid: Uuid): Option<Point>
  {
    if uuid in m then Some(m[uuid]) else None
  }

  /** Storing a point for a player makes it that player's stored point and
      leaves every other player's stored point as it was. */
  lemma LookupAfterStore(m: map<Uuid, Point>, uuid: Uuid, p: Point, other: Uuid)
    ensures Lookup(m[uuid := p], uuid) == Some(p)
    ensures other != uuid ==> Lookup(m[uuid := p], other) == Lookup(m, other)
  {
  }

  /** Removing a player's entry leaves no stored point for that player and
      leaves every other player's stored point as it was. */
  lemma LookupAfterRemove(m: map<Uuid, Point>, uuid: Uuid, other: Uuid)
    ensures Lookup(m - {uuid}, uuid) == None
    ensures other != uuid ==> Lookup(m - {uuid}, other) == Lookup(m, other)
  {
  }

  /** Two consecutive judged moves of one player: the second is judged
      against the convergence point of the first, whatever was stored before. */
  lemma ConsecutiveMovesCompared(m: map<Uuid, Point>, s1: AimSample, s2: AimSample, closest: ClosestPoints)
    requires s1.uuid == s2.uuid
    ensures Judge(Lookup(m[s1.uuid := Convergence(s1, closest)], s2.uuid), Convergence(s2, closest))
         == Judge(Some(Convergence(s1, closest)), Convergence(s2, closest))
  {
  }

  /** After its data is removed, a player's next move is a first observation. */
  lemma RemovedPlayerStartsOver(m: map<Uuid, Point>, uuid: Uuid, current: Point)
    ensures Judge(Lookup(m - {uuid}, uuid), current) == NoVerdict
  {
  }

  class AimbotConvergence {
    var lastConvergencePoint: map<Uuid, Point>

    constructor ()
      ensures lastConvergencePoint == map[]
    {
      lastConvergencePoint := map[];
    }

    /** Skips moves without a change of position and teleports; otherwise
        judges the new convergence point against the stored one and stores
        the new point, NaN or not. */
    method Check(s: AimSample, closest: ClosestPoints) returns (v: Verdict)
      modifies this
      ensures !s.hasDeltaPos || s.teleported ==>
        v == NoVerdict && lastConvergencePoint == old(lastConvergencePoint)
      ensures s.hasDeltaPos && !s.teleported ==>
        && lastConvergencePoint == old(lastConvergencePoint)[s.uuid := Convergence(s, closest)]
        && v == Judge(Lookup(old(lastConvergencePoint), s.uuid), Convergence(s, closest))
    {
      if !s.hasDeltaPos || s.teleported {
        return NoVerdict;
      }
      var convergence := Convergence(s, closest);
      v := Judge(Lookup(lastConvergencePoint, s.uuid), convergence);
      lastConvergencePoint := lastConvergencePoint[s.uuid := convergence];
    }

    method RemoveData(uuid: Uuid)
      modifies this
      ensures lastConvergencePoint == old(lastConvergencePoint) - {uuid}
    {
      lastConvergencePoint := lastConvergencePoint - {uuid};
    }
  }
}
