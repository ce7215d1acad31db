/** One card's drag state and the classification of a finished drag as a
    dismissal or a snap-back. Geometry is exact: `real` stands for `CGFloat`. */
module Gesture {
  import opened Profiles

  /** A two-dimensional translation, as reported by the drag gesture. */
  datatype Size = Size(width: real, height: real)

  const Zero: Size := Size(0.0, 0.0)

  /** A drag whose horizontal share of the card width exceeds this dismisses the card. */
  const ThresholdPercentage: real := 0.5

  /** The outcome of releasing a drag. */
  datatype Outcome = Dismiss | SnapBack

  function Abs(x: real): (r: real)
    ensures r >= 0.0 && (r == x || r == -x)
  {
    if x < 0.0 then -x else x
  }

  /** The horizontal drag distance as a fraction of the card width. */
  function GesturePercentage(translation: Size, geometryWidth: real): (p: real)
    requires geometryWidth > 0.0
    ensures p * geometryWidth == translation.width
  {
    translation.width / geometryWidth
  }

  /** A released drag dismisses the card exactly when it was dragged
      horizontally by more than half the card width, in either direction. */
  function Classify(translation: Size, geometryWidth: real): (o: Outcome)
    requires geometryWidth > 0.0
    ensures o == Dismiss <==> 2.0 * translation.width > geometryWidth || 2.0 * translation.width < -geometryWidth
  {
    var p := GesturePercentage(translation, geometryWidth);
    assert 2.0 * translation.width == 2.0 * p * geometryWidth;
    if Abs(p) > ThresholdPercentage then Dismiss else SnapBack
  }

  /** The comparison is strict: a drag of exactly half the width, either way, snaps back. */
  lemma HalfWidthSnapsBack(geometryWidth: real, height: real)
    requires geometryWidth > 0.0
    ensures Classify(Size(geometryWidth / 2.0, height), geometryWidth) == SnapBack
    ensures Classify(Size(-geometryWidth / 2.0, height), geometryWidth) == SnapBack
  {
  }

  /** Only the horizontal distance matters, and its sign does not. */
  lemma ClassifySymmetric(translation: Size, geometryWidth: real, height: real)
    requires geometryWidth > 0.0
    ensures Classify(Size(-translation.width, height), geometryWidth) == Classify(translation, geometryWidth)
  {
  }

  /** A drag of 300 on a 500-wide card dismisses it; a drag of 150 does not. */
  lemma ClassifyExamples()
    ensures Classify(Size(300.0, 0.0), 500.0) == Dismiss
    ensures Classify(Size(150.0, 0.0), 500.0) == SnapBack
  {
  }

  /** The view of one profile with its own drag state. */
  class CardView {
    const user: User
    var translation: Size

    constructor (user: User)
      ensures this.user == user && translation == Zero
    {
      this.user := user;
      translation := Zero;
    }

    /** While dragging, the card follows the gesture's latest translation. */
    method OnChanged(value: Size)
      modifies this
      ensures translation == value
    {
      translation := value;
    }

    /** Releasing the drag. The owner's removal callback is modelled by the
        returned list of the users it was invoked with: on a dismissal it is
        invoked once, with this card's user, and the translation stays where
        it was; otherwise it is not invoked and the translation is reset. */
    method OnEnded(value: Size, geometryWidth: real) returns (removed: seq<User>)
      requires geometryWidth > 0.0
      modifies this
      ensures Classify(value, geometryWidth) == Dismiss ==> removed == [user] && translation == old(translation)
      ensures Classify(value, geometryWidth) == SnapBack ==> removed == [] && translation == Zero
    {
      if Abs(GesturePercentage(value, geometryWidth)) > ThresholdPercentage {
        removed := [user];
      } else {
        translation := Zero;
        removed := [];
      }
    }
  }
}
