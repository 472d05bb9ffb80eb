/** The innovation carousel: an index stepped left and right over the six
    innovation features, a window of three shown from it, and the two arrow
    buttons disabled exactly when their step would change nothing. */
module Features {

  /** The innovation features by title, in list order. */
  const Innovations: seq<string> := [
    "Crowd & Queue Predictor", "AI-Driven Replanning", "Group Coordination Hub",
    "Dynamic Budget Analyzer", "Offline Emergency Mode", "Market Gap Showcase"]

  /** Number of cards shown at once. */
  const Window: nat := 3

  /** Largest index from which a full window fits. */
  function LastStart(): (r: nat)
    ensures r + Window == |Innovations|
  {
    |Innovations| - Window
  }

  /** The index after the left arrow: `max(0, i - 1)`. */
  function Left(i: int): (r: int)
    ensures r >= 0
    ensures i > 0 ==> r == i - 1
    ensures i <= 0 ==> r == 0
  {
    if i - 1 > 0 then i - 1 else 0
  }

  /** The index after the right arrow: `min(len - 3, i + 1)`. */
  function Right(i: int): (r: int)
    ensures r <= LastStart()
    ensures i < LastStart() ==> r == i + 1
    ensures i >= LastStart() ==> r == LastStart()
  {
    if LastStart() < i + 1 then LastStart() else i + 1
  }

  predicate InRange(i: int) {
    0 <= i <= LastStart()
  }

  /** Both steps keep the index where a full window fits. */
  lemma StepsStayInRange(i: int)
    requires InRange(i)
    ensures InRange(Left(i)) && InRange(Right(i))
  {
  }

  /** A step to the right undone by a step to the left restores the index. */
  lemma RightThenLeft(i: int)
    requires 0 <= i < LastStart()
    ensures Left(Right(i)) == i
  {
  }

  /** The left button is disabled exactly when stepping left changes nothing. */
  predicate LeftDisabled(i: int) {
    i == 0
  }

  /** The right button is disabled exactly when stepping right changes nothing. */
  predicate RightDisabled(i: int) {
    i >= LastStart()
  }

  lemma DisabledIffNoOp(i: int)
    requires InRange(i)
    ensures LeftDisabled(i) <==> Left(i) == i
    ensures RightDisabled(i) <==> Right(i) == i
  {
  }

  /** The cards shown from index `i`: `slice(i, i + 3)`. */
  function Visible(i: int): (r: seq<string>)
    requires InRange(i)
    ensures |r| == Window
    ensures forall k | 0 <= k < Window :: r[k] == Innovations[i + k]
  {
    Innovations[i..i + Window]
  }

  class Carousel {
    var currentIndex: int

    predicate Valid()
      reads this
    {
      InRange(currentIndex)
    }

    constructor ()
      ensures Valid() && currentIndex == 0
    {
      currentIndex := 0;
    }

    method ScrollLeft()
      requires Valid()
      modifies this
      ensures Valid()
      ensures currentIndex == Left(old(currentIndex))
    {
      currentIndex := Left(currentIndex);
    }

    method ScrollRight()
      requires Valid()
      modifies this
      ensures Valid()
      ensures currentIndex == Right(old(currentIndex))
    {
      currentIndex := Right(currentIndex);
    }

    function Shown(): (r: seq<string>)
      requires Valid()
      reads this
      ensures |r| == Window
      ensures forall k | 0 <= k < Window :: r[k] == Innovations[currentIndex + k]
    {
      Visible(currentIndex)
    }
  }

  /** Clicking right four times from the start stops at the last window. */
  method ClickThrough() returns (shown: seq<string>, leftOff: bool, rightOff: bool)
    ensures shown == ["Dynamic Budget Analyzer", "Offline Emergency Mode", "Market Gap Showcase"]
    ensures !leftOff && rightOff
  {
    var c := new Carousel();
    c.ScrollRight();
    c.ScrollRight();
    c.ScrollRight();
    c.ScrollRight();
    shown := c.Shown();
    leftOff := LeftDisabled(c.currentIndex);
    rightOff := RightDisabled(c.currentIndex);
  }
}
