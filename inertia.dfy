/** The inertia check: while a player is airborne, horizontal motion must
    keep its direction and may only slow down along the expected drag curve.

    Doubles are modelled as reals. The vector library's square roots and
    arc-cosine and the world's block queries are inputs of the sample. */
module InertiaCheck {

  import opened Optional
  import opened Verdicts

  type Uuid = nat

  /** One movement sample, as the check reads it from the move event, the
      player's state and the world. */
  datatype MoveSample = MoveSample(
    uuid: Uuid,
    currentTick: int,
    fromX: real, fromZ: real,
    toX: real, toZ: real,
    // the player's previous velocity, with its vertical part dropped
    velX: real, velZ: real,
    // the length of the horizontal move vector
    moveLength: real,
    // the length of the horizontal previous velocity
    prevLength: real,
    // the angle between the move vector and the previous velocity; None when NaN
    deltaAngle: Option<real>,
    onGround: bool,
    wasOnGround: bool,
    acceptedKnockback: bool,
    touchingBlocks: bool,
    hitSlowdown: bool,
    flying: bool,
    insideVehicle: bool,
    // a solid block near the destination, and near one block above it
    solidNearTo: bool,
    solidNearToAbove: bool,
    // a liquid adjacent to the origin, and to one block above it
    liquidAtFrom: bool,
    liquidAtFromAbove: bool)

  const AngleTolerance: real := 0.2
  const MinHorizSpeedSquared: real := 0.05
  const MinPrevSpeedSquared: real := 0.01
  const Drag: real := 0.91
  const FirstAirborneDrag: real := 0.546
  const SlowdownFactor: real := 0.6
  const Offset: real := 0.026001

  /** The squared length of the horizontal move. */
  function HorizSpeedSquared(s: MoveSample): real
  {
    (s.toX - s.fromX) * (s.toX - s.fromX) + (s.toZ - s.fromZ) * (s.toZ - s.fromZ)
  }

  /** The squared length of the horizontal previous velocity. */
  function PrevLengthSquared(s: MoveSample): real
  {
    s.velX * s.velX + s.velZ * s.velZ
  }

  /** The two lengths in the sample are the square roots of the squared
      lengths, and the angle between two vectors is NaN when either has length
      zero (the vector library divides by the product of the lengths). */
  predicate WellFormed(s: MoveSample)
  {
    && s.moveLength >= 0.0 && s.moveLength * s.moveLength == HorizSpeedSquared(s)
    && s.prevLength >= 0.0 && s.prevLength * s.prevLength == PrevLengthSquared(s)
    && (HorizSpeedSquared(s) == 0.0 || PrevLengthSquared(s) == 0.0 ==> s.deltaAngle.None?)
  }

  /** The ground-tick record after the sample: an on-ground sample stamps the
      player's entry with the current tick; otherwise nothing changes. */
  function RecordGround(m: map<Uuid, int>, s: MoveSample): (m': map<Uuid, int>)
    ensures m'.Keys == if s.onGround then m.Keys + {s.uuid} else m.Keys
    ensures s.onGround ==> m'[s.uuid] == s.currentTick
    ensures forall u :: u in m && u != s.uuid ==> m'[u] == m[u]
    ensures !s.onGround ==> m' == m
  {
    if s.onGround then m[s.uuid := s.currentTick] else m
  }

  /** Ticks since the player was last seen on ground; the missing record
      counts as tick -1. */
  function TicksSinceGround(m: map<Uuid, int>, uuid: Uuid, currentTick: int): int
  {
    currentTick - (if uuid in m then m[uuid] else -1)
  }

  /** Any of these explains non-inertial motion, and the sample is not judged. */
  predicate Exempt(s: MoveSample)
  {
    || s.solidNearTo || s.wasOnGround || s.onGround || s.acceptedKnockback
    || s.touchingBlocks || s.solidNearToAbove || s.flying || s.insideVehicle
  }

  predicate NearLiquid(s: MoveSample)
  {
    s.liquidAtFrom || s.liquidAtFromAbove
  }

  /** The previous horizontal speed, reduced when a slowdown was hit. */
  function PrevSpeed(s: MoveSample): (v: real)
    ensures s.prevLength >= 0.0 ==> 0.0 <= v <= s.prevLength
    ensures s.hitSlowdown && s.prevLength > 0.0 ==> v < s.prevLength
    ensures !s.hitSlowdown ==> v == s.prevLength
  {
    if s.hitSlowdown then s.prevLength * SlowdownFactor else s.prevLength
  }

  /** The least horizontal speed the player may have after drag. */
  function MagnitudeThreshold(nearLiquid: bool, ticksSinceGround: int, prevSpeed: real): (t: real)
    ensures nearLiquid ==> t == 0.0
    ensures prevSpeed >= 0.0 ==> t <= prevSpeed
    ensures prevSpeed >= 0.0 && !nearLiquid ==> t < prevSpeed
  {
    if nearLiquid then 0.0
    else if ticksSinceGround == 2 then FirstAirborneDrag * prevSpeed - Offset
    else Drag * prevSpeed - Offset
  }

  function Threshold(s: MoveSample, ticksSinceGround: int): real
  {
    MagnitudeThreshold(NearLiquid(s), ticksSinceGround, PrevSpeed(s))
  }

  /** The move turned sharply while it was fast enough to judge. A NaN angle
      compares false. */
  predicate TurnedTooSharply(s: MoveSample)
  {
    && HorizSpeedSquared(s) > MinHorizSpeedSquared
    && s.deltaAngle.Some? && s.deltaAngle.value > AngleTolerance
  }

  /** The move lost more speed than drag explains, after a fast enough one. */
  predicate SlowedTooMuch(s: MoveSample, ticksSinceGround: int)
  {
    PrevLengthSquared(s) > MinPrevSpeedSquared && s.moveLength < Threshold(s, ticksSinceGround)
  }

  /** The verdict on a sample, given the ticks since the player was on ground. */
  function Evaluate(s: MoveSample, ticksSinceGround: int): Verdict
  {
    if Exempt(s) then NoVerdict
    else if TurnedTooSharply(s) then Punish(true)
    else if SlowedTooMuch(s, ticksSinceGround) then Punish(true)
    else Reward
  }

  /** An exempt sample gets no verdict; any other gets exactly one of a
      punishment with rubber-band or a reward, and the punishment exactly when
      the angle or the magnitude test fails. */
  lemma VerdictCases(s: MoveSample, ticksSinceGround: int)
    ensures Exempt(s) <==> Evaluate(s, ticksSinceGround) == NoVerdict
    ensures !Exempt(s) ==>
      ((Evaluate(s, ticksSinceGround) == Punish(true))
         <==> (TurnedTooSharply(s) || SlowedTooMuch(s, ticksSinceGround)))
    ensures !Exempt(s) ==>
      ((Evaluate(s, ticksSinceGround) == Reward)
         <==> (!TurnedTooSharply(s) && !SlowedTooMuch(s, ticksSinceGround)))
  {
  }

  /** A sample that starts on ground is never judged. */
  lemma WasOnGroundIsNeverJudged(s: MoveSample, ticksSinceGround: int)
    requires s.wasOnGround
    ensures Evaluate(s, ticksSinceGround) == NoVerdict
  {
  }

  /** Next to a liquid the threshold is 0, so only the angle test can punish. */
  lemma LiquidOnlyAngleTestPunishes(s: MoveSample, ticksSinceGround: int)
    requires WellFormed(s) && NearLiquid(s) && !Exempt(s)
    ensures !SlowedTooMuch(s, ticksSinceGround)
    ensures Evaluate(s, ticksSinceGround) == Punish(true) <==> TurnedTooSharply(s)
  {
  }

  /** A player who keeps at least the (slowdown-adjusted) previous speed and
      direction is rewarded. */
  lemma KeepingSpeedIsRewarded(s: MoveSample, ticksSinceGround: int)
    requires WellFormed(s) && !Exempt(s) && !TurnedTooSharply(s)
    requires s.moveLength >= PrevSpeed(s)
    ensures Evaluate(s, ticksSinceGround) == Reward
  {
  }

  /** The two-tick drag is never stricter than the one for any other count,
      and a slowdown never raises the threshold, on any branch. */
  lemma ThresholdOrdering(nearLiquid: bool, prevSpeed: real, ticksSinceGround: int)
    requires prevSpeed >= 0.0
    ensures MagnitudeThreshold(nearLiquid, 2, prevSpeed) <= MagnitudeThreshold(nearLiquid, ticksSinceGround, prevSpeed)
    ensures MagnitudeThreshold(nearLiquid, ticksSinceGround, prevSpeed * SlowdownFactor)
         <= MagnitudeThreshold(nearLiquid, ticksSinceGround, prevSpeed)
  {
  }

  /** Previous speed 2.0 two ticks after leaving ground gives the threshold
      1.065999: a straight move of length 1.0 is punished, one of 1.2 rewarded. */
  lemma WorkedInstance(s: MoveSample)
    requires WellFormed(s) && !Exempt(s) && !NearLiquid(s) && !s.hitSlowdown
    requires s.prevLength == 2.0
    requires s.deltaAngle == Some(0.0)
    ensures Threshold(s, 2) == 1.065999
    ensures s.moveLength == 1.0 ==> Evaluate(s, 2) == Punish(true)
    ensures s.moveLength == 1.2 ==> Evaluate(s, 2) == Reward
  {
  }

  /** An on-ground sample at tick t makes a sample at tick t + 2 the one that
      gets the two-tick threshold. */
  lemma GroundStampStartsCount(m: map<Uuid, int>, s: MoveSample)
    requires s.onGround
    ensures TicksSinceGround(RecordGround(m, s), s.uuid, s.currentTick) == 0
    ensures TicksSinceGround(RecordGround(m, s), s.uuid, s.currentTick + 2) == 2
  {
  }

  /** Counting ticks from a later tick adds the difference: the record is the
      only state the count depends on. */
  lemma TicksSinceGroundAdvances(m: map<Uuid, int>, uuid: Uuid, currentTick: int, d: int)
    ensures TicksSinceGround(m, uuid, currentTick + d) == TicksSinceGround(m, uuid, currentTick) + d
  {
  }

  /** The two-tick threshold applies exactly two ticks after the last
      on-ground stamp, or, for a player never stamped, at tick 1. */
  lemma TwoTickThresholdTicks(m: map<Uuid, int>, uuid: Uuid, currentTick: int)
    ensures TicksSinceGround(m, uuid, currentTick) == 2 <==>
      (if uuid in m then m[uuid] == currentTick - 2 else currentTick == 1)
  {
  }

  /** An off-ground sample leaves every player's count unchanged. */
  lemma AirborneSampleKeepsCount(m: map<Uuid, int>, s: MoveSample, uuid: Uuid, currentTick: int)
    requires !s.onGround
    ensures TicksSinceGround(RecordGround(m, s), uuid, currentTick) == TicksSinceGround(m, uuid, currentTick)
  {
  }

  /** A judged player whose previous horizontal velocity is zero is never
      flagged: the angle is NaN and the previous speed is below the magnitude
      test's floor. */
  lemma AtRestInAirIsRewarded(s: MoveSample, ticksSinceGround: int)
    requires WellFormed(s) && !Exempt(s)
    requires s.velX == 0.0 && s.velZ == 0.0
    ensures Evaluate(s, ticksSinceGround) == Reward
  {
    assert PrevLengthSquared(s) == 0.0;
  }

  class Inertia {
    var lastTickOnGround: map<Uuid, int>

    constructor ()
      ensures lastTickOnGround == map[]
    {
      lastTickOnGround := map[];
    }

    /** Stamps the ground tick first, whatever the verdict, then judges the
        sample against the updated record. */
    method Check(s: MoveSample) returns (v: Verdict)
      modifies this
      ensures lastTickOnGround == RecordGround(old(lastTickOnGround), s)
      ensures v == Evaluate(s, TicksSinceGround(lastTickOnGround, s.uuid, s.currentTick))
    {
      if s.onGround {
        lastTickOnGround := lastTickOnGround[s.uuid := s.currentTick];
      }
      var ticksSinceGround := TicksSinceGround(lastTickOnGround, s.uuid, s.currentTick);
      v := Evaluate(s, ticksSinceGround);
    }
  }
}
