/** EmotionPoint: one (arousal, valence) sample on Russell's circumplex of
    affect, and its classification into the twelve labels of Yik, Russell and
    Steiger's 12-point circumplex. Doubles are modelled as reals; the trigonometry
    is a parameter (`atanDegrees`, `atan2Degrees`) constrained by predicates. */
module EmotionPoints {
  import opened Common

  /** `new EmotionPoint(a, v)`: the two fields are stored as given and never change. */
  datatype EmotionPoint = EmotionPoint(arousal: real, valence: real)

  /** The strings `asEmotion` returns, one constructor each. */
  datatype Label =
    | Satisfied | Enthusiastic | Energetic | Activated | Frenzied | Distressed
    | Unhappy | Sad | Sluggish | Quiet | Placid | Serene | Unknown

  /** The text `asEmotion` returns for each label. */
  function Name(l: Label): string
  {
    match l
    case Satisfied => "Satisfied"
    case Enthusiastic => "Enthusiastic"
    case Energetic => "Energetic"
    case Activated => "Activated"
    case Frenzied => "Frenzied"
    case Distressed => "Distressed"
    case Unhappy => "Unhappy"
    case Sad => "Sad"
    case Sluggish => "Sluggish"
    case Quiet => "Quiet"
    case Placid => "Placid"
    case Serene => "Serene"
    case Unknown => "Unknown"
  }

  /** The twelve named labels counter-clockwise from the sector around 0 degrees. */
  const Wheel: seq<Label> :=
    [Satisfied, Enthusiastic, Energetic, Activated, Frenzied, Distressed,
     Unhappy, Sad, Sluggish, Quiet, Placid, Serene]

  /** The comparison chain of `asEmotion` applied to an angle in degrees.
      `None` stands for NaN, for which every comparison is false. */
  function Sector(theta: Option<real>): (l: Label)
    ensures l == Unknown <==> theta.None?
  {
    match theta
    case None => Unknown
    case Some(t) =>
      if t > 345.0 || t <= 15.0 then Satisfied
      else if t > 15.0 && t <= 45.0 then Enthusiastic
      else if t > 45.0 && t <= 75.0 then Energetic
      else if t > 75.0 && t <= 105.0 then Activated
      else if t > 105.0 && t <= 135.0 then Frenzied
      else if t > 135.0 && t <= 165.0 then Distressed
      else if t > 165.0 && t <= 195.0 then Unhappy
      else if t > 195.0 && t <= 225.0 then Sad
      else if t > 225.0 && t <= 255.0 then Sluggish
      else if t > 255.0 && t <= 285.0 then Quiet
      else if t > 285.0 && t <= 315.0 then Placid
      else if t > 315.0 && t <= 345.0 then Serene
      else Unknown
  }

  /** The double quotient `a / v` of two finite doubles. */
  datatype Quotient = Finite(q: real) | PosInfinity | NegInfinity | NaN

  function Divide(a: real, v: real): (r: Quotient)
    ensures r == NaN <==> a == 0.0 && v == 0.0
    ensures v != 0.0 ==> r == Finite(a / v)
  {
    if v != 0.0 then Finite(a / v)
    else if a > 0.0 then PosInfinity
    else if a < 0.0 then NegInfinity
    else NaN
  }

  /** `Math.toDegrees(Math.atan(arousal / valence))`: `atanDegrees` gives the
      value on finite quotients; atan of an infinity is a right angle and of NaN
      is NaN. The angle is NaN exactly at the origin, and otherwise never
      leaves [-90, 90]. */
  function Theta(p: EmotionPoint, atanDegrees: real -> real): (r: Option<real>)
    ensures r.None? <==> p.arousal == 0.0 && p.valence == 0.0
    ensures IsAtanDegrees(atanDegrees) && r.Some? ==> -90.0 <= r.value <= 90.0
  {
    match Divide(p.arousal, p.valence)
    case Finite(q) => Some(atanDegrees(q))
    case PosInfinity => Some(90.0)
    case NegInfinity => Some(-90.0)
    case NaN => None
  }

  /** `EmotionPoint.asEmotion()` as written. The origin, where 0.0 / 0.0 is
      NaN, is the one point labelled Unknown. Because `atan` (not `atan2`) is
      used, the angle never leaves [-90, 90], so only four of the twelve labels
      can ever be returned. */
  function AsEmotion(p: EmotionPoint, atanDegrees: real -> real): (l: Label)
    ensures l == Unknown <==> p.arousal == 0.0 && p.valence == 0.0
    ensures l == Unknown || l in Wheel
    ensures IsAtanDegrees(atanDegrees) ==> l in {Unknown, Satisfied, Enthusiastic, Energetic, Activated}
  {
    Sector(Theta(p, atanDegrees))
  }

  /** What is assumed of the arc tangent in degrees: it lies strictly between
      -90 and 90, has the sign of its argument, and atan(1) is 45 degrees. */
  ghost predicate IsAtanDegrees(atanDegrees: real -> real)
  {
    && (forall x :: -90.0 < atanDegrees(x) < 90.0)
    && (forall x :: atanDegrees(x) > 0.0 <==> x > 0.0)
    && atanDegrees(1.0) == 45.0
  }

  // ---------------------------------------------------------------------------
  // Properties of the classification as written

  /** Every angle yields exactly one of the twelve named labels; NaN, and only
      NaN, yields Unknown. */
  lemma SectorNamesEveryAngle(t: real)
    ensures Sector(Some(t)) in Wheel
    ensures Sector(None) == Unknown
  {
  }

  /** "Satisfied" spans (345, 360] together with everything at or below 15. */
  lemma SatisfiedArc(t: real)
    ensures Sector(Some(t)) == Satisfied <==> (t <= 15.0 || t > 345.0)
  {
  }

  /** Every other label owns a 30-degree arc, open below and closed above:
      label `k` of the wheel covers (15 + 30(k-1), 15 + 30k]. */
  lemma LabelArc(t: real, k: int)
    requires 1 <= k < 12
    ensures Sector(Some(t)) == Wheel[k] <==>
            15.0 + 30.0 * (k - 1) as real < t <= 15.0 + 30.0 * k as real
  {
    var lo := 15.0 + 30.0 * (k - 1) as real;
    if k == 1 { assert lo == 15.0; }
    else if k == 2 { assert lo == 45.0; }
    else if k == 3 { assert lo == 75.0; }
    else if k == 4 { assert lo == 105.0; }
    else if k == 5 { assert lo == 135.0; }
    else if k == 6 { assert lo == 165.0; }
    else if k == 7 { assert lo == 195.0; }
    else if k == 8 { assert lo == 225.0; }
    else if k == 9 { assert lo == 255.0; }
    else if k == 10 { assert lo == 285.0; }
    else { assert lo == 315.0; }
  }

  /** The as-written classification gives the same label to a point and to its
      mirror image through the origin: (-1, -1), low arousal and low valence,
      is called Enthusiastic like (1, 1). */
  lemma AtanConflatesOppositeQuadrants(atanDegrees: real -> real)
    requires IsAtanDegrees(atanDegrees)
    ensures AsEmotion(EmotionPoint(1.0, 1.0), atanDegrees) == Enthusiastic
    ensures AsEmotion(EmotionPoint(-1.0, -1.0), atanDegrees) == Enthusiastic
  {
    assert Divide(-1.0, -1.0) == Finite(1.0);
  }

  // ---------------------------------------------------------------------------
  // The classification as intended: the angle of (valence, arousal) on the whole
  // circle, as `Math.atan2(arousal, valence)` in degrees moved into [0, 360).

  /** What is assumed of `Math.atan2(y, x)` in degrees: the result lies in
      (-180, 180], in the half plane of the sign of y, and is exact on the axes
      and the diagonals. */
  ghost predicate IsAtan2Degrees(atan2Degrees: (real, real) -> real)
  {
    && (forall y, x :: -180.0 < atan2Degrees(y, x) <= 180.0)
    && (forall y, x :: y > 0.0 ==> 0.0 < atan2Degrees(y, x) < 180.0)
    && (forall y, x :: y < 0.0 ==> -180.0 < atan2Degrees(y, x) < 0.0)
    && (forall x :: x > 0.0 ==> atan2Degrees(0.0, x) == 0.0)
    && (forall y :: y > 0.0 ==> atan2Degrees(y, 0.0) == 90.0)
    && (forall x :: x < 0.0 ==> atan2Degrees(0.0, x) == 180.0)
    && (forall y :: y > 0.0 ==> atan2Degrees(y, y) == 45.0)
    && (forall y :: y < 0.0 ==> atan2Degrees(y, y) == -135.0)
  }

  /** The angle of the point in [0, 360), NaN at the origin. */
  function CircleTheta(p: EmotionPoint, atan2Degrees: (real, real) -> real): Option<real>
  {
    if p.arousal == 0.0 && p.valence == 0.0 then None
    else
      var t := atan2Degrees(p.arousal, p.valence);
      Some(if t < 0.0 then t + 360.0 else t)
  }

  /** `asEmotion` with the full-circle angle: the intended classification. */
  function AsEmotionCorrected(p: EmotionPoint, atan2Degrees: (real, real) -> real): Label
  {
    Sector(CircleTheta(p, atan2Degrees))
  }

  /** With the full-circle angle, low arousal always lands in the lower half of
      the wheel and high arousal in the upper half, and (-1, -1) is Sad. */
  lemma CorrectedKeepsArousalHalves(p: EmotionPoint, atan2Degrees: (real, real) -> real)
    requires IsAtan2Degrees(atan2Degrees)
    ensures p.arousal > 0.0 ==>
              AsEmotionCorrected(p, atan2Degrees) in
                {Satisfied, Enthusiastic, Energetic, Activated, Frenzied, Distressed, Unhappy}
    ensures p.arousal < 0.0 ==>
              AsEmotionCorrected(p, atan2Degrees) in
                {Unhappy, Sad, Sluggish, Quiet, Placid, Serene, Satisfied}
    ensures AsEmotionCorrected(EmotionPoint(-1.0, -1.0), atan2Degrees) == Sad
  {
  }
}
