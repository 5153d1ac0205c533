/**
 * The pure arithmetic of one spin of the "Spin-to-Win" wheel: the segment table,
 * the rigged choice of a target segment, the face-up angle of that segment, the
 * jitter, the number of whole turns and the normalised forward delta that
 * together give the wheel's next cumulative rotation.
 *
 * Every `Math.random()` call is an explicit parameter: a real in [0, 1).
 */
module Wheel {
  import opened JsNumber

  /** One slice of the wheel face: its printed caption and the prize value it stands for. */
  datatype Segment = Segment(caption: string, value: string)

  /** The eight slices, clockwise from the top of the face, 45 degrees each. */
  const Segments: seq<Segment> := [
    Segment("FREE\nSPIN", "free"),
    Segment("10%\nOFF", "10"),
    Segment("20%\nOFF", "20"),
    Segment("30%\nOFF", "30"),
    Segment("FREE\nSPIN", "free"),
    Segment("10%\nOFF", "10"),
    Segment("20%\nOFF", "20"),
    Segment("30%\nOFF", "30")
  ]

  /**
   * The table holds four prizes twice over: opposite slices are equal, the free
   * spins sit at 0 and 4 and the 20% discounts at 2 and 6.
   */
  lemma SegmentLayout()
    ensures |Segments| == 8
    ensures forall i :: 0 <= i < 4 ==> Segments[i] == Segments[i + 4]
    ensures forall i :: 0 <= i < |Segments| ==> (Segments[i].value == "free" <==> i in {0, 4})
    ensures forall i :: 0 <= i < |Segments| ==> (Segments[i].value == "20" <==> i in {2, 6})
  {
  }

  /** A value `Math.random()` can return. */
  predicate IsRandom(u: real) {
    0.0 <= u < 1.0
  }

  /**
   * The `Math.random()` values one spin draws: the 35% free-spin test, the coin
   * flip between the two slices of the chosen prize, the jitter and the number of
   * extra turns.  When `hadFreeSpin` holds, `spin()` skips the first draw because
   * its `&&` short-circuits; the model then ignores `freeRoll`.
   */
  datatype Draws = Draws(freeRoll: real, coinRoll: real, jitterRoll: real, turnsRoll: real)

  predicate ValidDraws(d: Draws) {
    IsRandom(d.freeRoll) && IsRandom(d.coinRoll) && IsRandom(d.jitterRoll) && IsRandom(d.turnsRoll)
  }

  /**
   * The rigged choice of the slice to land on.  Only the "free" slices 0 and 4
   * and the "20" slices 2 and 6 can be chosen; the "10" and "30" slices never
   * are.  A free spin is granted exactly when none was granted before and the
   * 35% draw succeeds; otherwise the prize is 20% off.
   */
  function TargetIndex(hadFreeSpin: bool, freeRoll: real, coinRoll: real): (idx: nat)
    ensures idx < |Segments|
    ensures idx in {0, 2, 4, 6}
    ensures Segments[idx].value in {"free", "20"}
    ensures Segments[idx].value == "free" <==> !hadFreeSpin && freeRoll < 0.35
  {
    if !hadFreeSpin && freeRoll < 0.35 then
      (if coinRoll < 0.5 then 0 else 4)
    else
      (if coinRoll < 0.5 then 2 else 6)
  }

  /**
   * The other direction: every free-spin and 20%-off slice is a possible target
   * of a first spin, and after a free spin both 20%-off slices still are.
   */
  lemma FavourableSlicesReachable(hadFreeSpin: bool, idx: nat)
    requires idx in {0, 2, 4, 6} && (hadFreeSpin ==> idx in {2, 6})
    ensures exists freeRoll, coinRoll ::
      IsRandom(freeRoll) && IsRandom(coinRoll) && TargetIndex(hadFreeSpin, freeRoll, coinRoll) == idx
  {
    var freeRoll := if idx in {0, 4} then 0.0 else 0.5;
    var coinRoll := if idx in {0, 2} then 0.0 else 0.5;
    assert TargetIndex(hadFreeSpin, freeRoll, coinRoll) == idx;
  }

  /**
   * The rotation, in [0, 360), that brings the centre of slice `idx` under the
   * pointer at the top: turning the face by this angle moves the slice's centre
   * `idx * 45` degrees round to a whole number of turns.
   */
  function TargetAngle(idx: nat): (angle: real)
    requires idx < |Segments|
    ensures 0.0 <= angle < 360.0
    ensures Residue(angle + 45.0 * idx as real) == 0.0
  {
    var a := Rem(360.0 - idx as real * 45.0);
    assert a + 45.0 * idx as real == 360.0 * (if idx == 0 then 0 else 1) as real;
    ResidueShift(0.0, if idx == 0 then 0 else 1);
    a
  }

  /** The jitter `(Math.random() - 0.5) * 30`, in degrees: never a whole half-slice. */
  function Offset(jitterRoll: real): (offset: real)
    requires IsRandom(jitterRoll)
    ensures -15.0 <= offset < 15.0
  {
    (jitterRoll - 0.5) * 30.0
  }

  /** The whole turns `5 + Math.floor(Math.random() * 3)`: five, six or seven. */
  function Spins(turnsRoll: real): (spins: int)
    requires IsRandom(turnsRoll)
    ensures 5 <= spins <= 7
  {
    5 + Floor(turnsRoll * 3.0)
  }

  /**
   * The forward delta `((targetAngle + offset - currentMod) % 360 + 360) % 360`
   * from the resting angle to the jittered target: the floored residue of the
   * difference, so it lies in [0, 360) even when the difference is negative.
   */
  function ForwardDelta(targetAngle: real, offset: real, currentMod: real): (diff: real)
    ensures diff == Residue(targetAngle + offset - currentMod)
    ensures 0.0 <= diff < 360.0
  {
    DoubleRemIsResidue(targetAngle + offset - currentMod);
    Rem(Rem(targetAngle + offset - currentMod) + 360.0)
  }

  /**
   * The rotation `prev + spins * 360 + diff` that one spin towards slice `idx`
   * sets: always forward, by at least five and less than eight whole turns.
   */
  function NextRotation(rotation: real, idx: nat, d: Draws): (next: real)
    requires idx < |Segments| && ValidDraws(d)
    ensures rotation + 1800.0 <= next < rotation + 2880.0
  {
    var diff := ForwardDelta(TargetAngle(idx), Offset(d.jitterRoll), Rem(rotation));
    rotation + Spins(d.turnsRoll) as real * 360.0 + diff
  }

  /**
   * The slice under the pointer when the face is turned by `rotation` degrees
   * clockwise: slice `i` covers the face angles within 22.5 degrees of `i * 45`.
   */
  function SegmentAt(rotation: real): (idx: nat)
    ensures idx < |Segments|
    ensures Residue(Residue(-rotation) - 45.0 * idx as real + 22.5) < 45.0
  {
    var face := Residue(-rotation);
    var q := Floor((face + 22.5) / 45.0);
    if q < 8 then
      ResidueOfTurnAngle(face - 45.0 * q as real + 22.5);
      q
    else
      ResidueShift(face + 22.5 - 360.0, 1);
      ResidueOfTurnAngle(face + 22.5 - 360.0);
      0
  }

  /**
   * One spin turns the wheel forward by at least five and less than eight whole
   * turns, and leaves it pointing exactly at the jittered target angle.
   */
  lemma SpinAdvance(rotation: real, idx: nat, d: Draws)
    requires idx < |Segments| && ValidDraws(d)
    ensures 1800.0 <= NextRotation(rotation, idx, d) - rotation < 2880.0
    ensures Residue(NextRotation(rotation, idx, d)) == Residue(TargetAngle(idx) + Offset(d.jitterRoll))
  {
    var target := TargetAngle(idx) + Offset(d.jitterRoll);
    var x := target - Rem(rotation);
    var t := Trunc(rotation / 360.0);
    assert Rem(rotation) == rotation - 360.0 * t as real;
    var kx := ResidueSplit(x);
    var s := Spins(d.turnsRoll);
    assert NextRotation(rotation, idx, d) == target + 360.0 * (s + t - kx) as real;
    ResidueShift(target, s + t - kx);
  }

  /**
   * A rotation that points at the target angle of slice `idx`, give or take
   * `offset`, shows the face angle `idx * 45 - offset` at the pointer.
   */
  lemma FaceUnderPointer(rotation: real, idx: nat, offset: real)
    requires idx < |Segments|
    requires Residue(rotation) == Residue(TargetAngle(idx) + offset)
    ensures Residue(-rotation) == Residue(45.0 * idx as real - offset)
  {
    var angle := TargetAngle(idx);
    var kr := ResidueSplit(rotation);
    var ka := ResidueSplit(angle + offset);
    var kt := ResidueSplit(angle + 45.0 * idx as real);
    var face := 45.0 * idx as real - offset;
    assert -rotation == face + 360.0 * (ka - kt - kr) as real;
    ResidueShift(face, ka - kt - kr);
  }

  /**
   * A face angle less than a third of a slice away from the centre of slice
   * `idx` lies inside that slice.
   */
  lemma FaceInSegment(face: real, idx: nat)
    requires idx < |Segments|
    requires 45.0 * idx as real - 15.0 < face <= 45.0 * idx as real + 15.0
    ensures Floor((Residue(face) + 22.5) / 45.0) % 8 == idx
  {
    if face >= 0.0 {
      ResidueOfTurnAngle(face);
      var q := (face + 22.5) / 45.0;
      assert idx as real <= q < idx as real + 1.0;
    } else {
      ResidueShift(face, 1);
      ResidueOfTurnAngle(face + 360.0);
      var q := (face + 360.0 + 22.5) / 45.0;
      assert 8.0 <= q < 9.0;
    }
  }

  /**
   * A rotation that points at the target angle of slice `idx`, give or take less
   * than a third of a slice, leaves slice `idx` under the pointer.
   */
  lemma PointsAtTarget(rotation: real, idx: nat, offset: real)
    requires idx < |Segments| && -15.0 <= offset < 15.0
    requires Residue(rotation) == Residue(TargetAngle(idx) + offset)
    ensures SegmentAt(rotation) == idx
  {
    FaceUnderPointer(rotation, idx, offset);
    FaceInSegment(45.0 * idx as real - offset, idx);
  }

  /** Where a spin comes to rest: the chosen slice is the one under the pointer. */
  lemma LandsOnTarget(rotation: real, idx: nat, d: Draws)
    requires idx < |Segments| && ValidDraws(d)
    ensures SegmentAt(NextRotation(rotation, idx, d)) == idx
  {
    SpinAdvance(rotation, idx, d);
    PointsAtTarget(NextRotation(rotation, idx, d), idx, Offset(d.jitterRoll));
  }

  /**
   * "Always land on Free Spin or 20% Off": whatever the draws and the wheel's
   * resting angle, the slice under the pointer after a spin is a free spin or 20%
   * off, and after a free spin it is always 20% off.
   */
  lemma AlwaysLandsOnFreeSpinOrTwenty(hadFreeSpin: bool, rotation: real, d: Draws)
    requires ValidDraws(d)
    ensures var idx := TargetIndex(hadFreeSpin, d.freeRoll, d.coinRoll);
            var landed := Segments[SegmentAt(NextRotation(rotation, idx, d))].value;
            landed in {"free", "20"} && (hadFreeSpin ==> landed == "20")
  {
    LandsOnTarget(rotation, TargetIndex(hadFreeSpin, d.freeRoll, d.coinRoll), d);
  }
}
