/**
 * How a released touch is read: as a tap when the finger ended within the
 * tap distance of where it went down on both axes, otherwise as a flick
 * whose outcome depends on how far the thumb has been scrolled. Touch
 * coordinates (floats in the source) and the flick ratio (a double) are
 * exact reals here.
 */
module FlickGesture {

  /** Largest movement on each axis that still counts as a tap. */
  const TapDistance: real := 1.0

  /** Share of the scroll range the thumb must travel to change state. */
  const FlickRatio: real := 1.0 / 5.0

  datatype Point = Point(x: real, y: real)

  /** Touch actions; Other stands for MOVE and every other action. */
  datatype Action = Down | Up | Cancel | Other

  datatype Touch = Touch(action: Action, at: Point)

  function Abs(r: real): (a: real)
    ensures a >= 0.0 && (a == r || a == -r)
  {
    if r < 0.0 then -r else r
  }

  /**
   * The finger ended within TapDistance of where it went down on both axes:
   * each coordinate moved by strictly less than one unit either way.
   */
  function IsTap(down: Point, up: Point): (tap: bool)
    ensures tap <==> -1.0 < down.x - up.x < 1.0 && -1.0 < down.y - up.y < 1.0
  {
    Abs(down.x - up.x) < TapDistance && Abs(down.y - up.y) < TapDistance
  }

  /**
   * State chosen by a flick that ended with the viewport at scrollX: from
   * on, stay on while scrollX is below maxScrollX * FlickRatio; from off,
   * turn on when scrollX is below maxScrollX * (1 - FlickRatio). In
   * integers: below a fifth and below four fifths of the range.
   */
  function FlickResult(wasOn: bool, scrollX: int, maxScrollX: int): (on: bool)
    ensures wasOn ==> (on <==> 5 * scrollX < maxScrollX)
    ensures !wasOn ==> (on <==> 5 * scrollX < 4 * maxScrollX)
  {
    if wasOn then (scrollX as real) < (maxScrollX as real) * FlickRatio
    else (scrollX as real) < (maxScrollX as real) * (1.0 - FlickRatio)
  }

  /**
   * State chosen when a touch that went down at `down` is released at `up`:
   * a tap inverts the state, anything else is decided by the thresholds.
   */
  function ReleaseResult(wasOn: bool, down: Point, up: Point, scrollX: int, maxScrollX: int): (on: bool)
    ensures IsTap(down, up) ==> on == !wasOn
    ensures !IsTap(down, up) && wasOn ==> (on <==> 5 * scrollX < maxScrollX)
    ensures !IsTap(down, up) && !wasOn ==> (on <==> 5 * scrollX < 4 * maxScrollX)
  {
    if IsTap(down, up) then !wasOn else FlickResult(wasOn, scrollX, maxScrollX)
  }

  /** A tap inverts the state wherever the viewport has been scrolled to. */
  lemma TapInverts(wasOn: bool, down: Point, up: Point, scrollX: int, maxScrollX: int)
    requires IsTap(down, up)
    ensures ReleaseResult(wasOn, down, up, scrollX, maxScrollX) == !wasOn
  {
  }

  /**
   * A flick from on turns the button off exactly when the thumb has moved
   * at least a fifth of the range; at exactly a fifth it turns off.
   */
  lemma FlickFromOn(scrollX: int, maxScrollX: int)
    ensures !FlickResult(true, scrollX, maxScrollX) <==> 5 * scrollX >= maxScrollX
    ensures 5 * scrollX == maxScrollX ==> !FlickResult(true, scrollX, maxScrollX)
  {
  }

  /**
   * A flick from off turns the button on exactly when the thumb has moved
   * more than a fifth of the range back from the off end.
   */
  lemma FlickFromOff(scrollX: int, maxScrollX: int)
    ensures FlickResult(false, scrollX, maxScrollX) <==> 5 * (maxScrollX - scrollX) > maxScrollX
  {
  }

  /**
   * The outcome depends on the starting state only inside the band from a
   * fifth to four fifths of the range, and inside that band a flick always
   * changes the state; below the band it ends on, above it off.
   */
  lemma FlickBands(wasOn: bool, scrollX: int, maxScrollX: int)
    requires maxScrollX >= 0
    ensures 5 * scrollX < maxScrollX ==> FlickResult(wasOn, scrollX, maxScrollX)
    ensures 5 * scrollX >= 4 * maxScrollX ==> !FlickResult(wasOn, scrollX, maxScrollX)
    ensures maxScrollX <= 5 * scrollX < 4 * maxScrollX ==> FlickResult(wasOn, scrollX, maxScrollX) == !wasOn
  {
  }

  /** Scrolling further towards the off end never favours on. */
  lemma FlickMonotone(wasOn: bool, s1: int, s2: int, maxScrollX: int)
    requires s1 <= s2
    ensures FlickResult(wasOn, s2, maxScrollX) ==> FlickResult(wasOn, s1, maxScrollX)
  {
  }

  /**
   * With a range of 100: from on, ending at 21 turns off and at 19 stays
   * on; from off, ending at 79 turns on and at 81 stays off.
   */
  lemma FlickExamples()
    ensures !FlickResult(true, 21, 100) && FlickResult(true, 19, 100)
    ensures FlickResult(false, 79, 100) && !FlickResult(false, 81, 100)
  {
  }
}
