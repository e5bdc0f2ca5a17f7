/**
 * The flick button as the object the source defines: its fields are
 * updated in place by the public operations and by the host's measure,
 * layout and touch callbacks. Model() reads the fields as a
 * FlickState.Button, and every method is proved to change them as the
 * matching FlickState function says.
 */
module FlickButton {
  import opened FlickGeometry
  import opened FlickGesture
  import FlickState

  class FlickButtonView {
    var state: bool
    var enabled: bool
    var lastTouch: Point
    var onText: string
    var offText: string
    // Sizes given to the labels, the thumb and the scroll viewport.
    var dims: Dimensions
    var onScrollX: int
    var offScrollX: int
    var maxScrollX: int
    // Last offset requested from the scroll viewport.
    var scroll: FlickState.Scroll
    // Values passed to the change listener so far.
    ghost var notified: seq<bool>

    ghost function Model(): FlickState.Button
      reads this
    {
      FlickState.Button(state, enabled, lastTouch, onText, offText, dims,
                        onScrollX, offScrollX, maxScrollX, scroll, notified)
    }

    ghost predicate Valid()
      reads this
    {
      FlickState.Valid(Model())
    }

    /** A new button is on, enabled and labelled "On"/"Off". */
    constructor ()
      ensures Valid()
      ensures Model() == FlickState.Initial()
    {
      state := true;
      enabled := true;
      lastTouch := Point(0.0, 0.0);
      onText, offText := "On", "Off";
      // Not yet measured: the source's labels wrap their content until the
      // first measure pass, and its offsets keep Java's default 0.
      dims := Dimensions(0, 0, 0, 0, 0);
      onScrollX, offScrollX, maxScrollX := 0, 0, 0;
      // No scroll requested yet; the viewport starts at offset 0.
      scroll := FlickState.Scroll(0, false);
      notified := [];
    }

    method SetChecked(checked: bool, smooth: bool)
      requires Valid()
      modifies this
      ensures Valid()
      ensures state == checked
      ensures notified == if old(state) != checked then old(notified) + [checked] else old(notified)
      ensures Model() == FlickState.SetChecked(old(Model()), checked, smooth)
    {
      if state != checked {
        state := checked;
        notified := notified + [checked];
      }
      RefreshScroll(smooth);
    }

    /** The one-argument setChecked: no smooth scrolling. */
    method SetCheckedInstantly(checked: bool)
      requires Valid()
      modifies this
      ensures Valid()
      ensures Model() == FlickState.SetChecked(old(Model()), checked, false)
    {
      SetChecked(checked, false);
    }

    method Toggle()
      requires Valid()
      modifies this
      ensures Valid()
      ensures state == !old(state)
      ensures Model() == FlickState.Toggle(old(Model()))
    {
      SetCheckedInstantly(!state);
    }

    method SetEnabled(e: bool)
      requires Valid()
      modifies this
      ensures Valid()
      ensures Model() == FlickState.SetEnabled(old(Model()), e)
    {
      enabled := e;
    }

    method SetTextOn(text: string)
      requires Valid()
      modifies this
      ensures Valid()
      ensures Model() == FlickState.SetTextOn(old(Model()), text)
    {
      onText := text;
    }

    method SetTextOff(text: string)
      requires Valid()
      modifies this
      ensures Valid()
      ensures Model() == FlickState.SetTextOff(old(Model()), text)
    {
      offText := text;
    }

    method GetText() returns (text: string)
      ensures state ==> text == onText
      ensures !state ==> text == offText
    {
      text := if state then onText else offText;
    }

    method IsChecked() returns (checked: bool)
      ensures checked == state
    {
      checked := state;
    }

    method IsEnabled() returns (e: bool)
      ensures e == enabled
    {
      e := enabled;
    }

    /** Recompute the children's sizes and the offsets from the measured label sizes. */
    method UpdateViewDimensions(m: Measured)
      requires Valid()
      modifies this
      ensures Valid()
      ensures Model() == FlickState.UpdateViewDimensions(old(Model()), m)
    {
      var width := Max(m.onWidth, m.offWidth);
      var height := Max(m.onHeight, m.offHeight);
      width := Max(width, MinWidthFor(height));
      height := Max(height, MinHeight);
      var thumbWidth := ThumbWidthFor(width);
      dims := Dimensions(width, height, thumbWidth, width + thumbWidth, height);
      onScrollX := 0;
      offScrollX := width;
      maxScrollX := width;
    }

    method RefreshScroll(smooth: bool)
      requires Valid()
      modifies this
      ensures Valid()
      ensures scroll.x == (if state then onScrollX else offScrollX)
      ensures Model() == FlickState.RefreshScroll(old(Model()), smooth)
    {
      var x := if state then onScrollX else offScrollX;
      scroll := FlickState.Scroll(x, smooth);
    }

    method OnLayout()
      requires Valid()
      modifies this
      ensures Valid()
      ensures Model() == FlickState.OnLayout(old(Model()))
    {
      RefreshScroll(false);
    }

    /**
     * Touch interception; hostScrollX is the offset the scroll viewport
     * reports when the touch arrives (the user's drag moves it).
     */
    method OnInterceptTouchEvent(t: Touch, hostScrollX: int) returns (v: FlickState.Verdict)
      requires Valid()
      modifies this
      ensures Valid()
      ensures (Model(), v) == FlickState.InterceptTouch(old(Model()), t, hostScrollX)
    {
      if !enabled {
        return FlickState.Intercepted;
      }
      match t.action
      case Down =>
        lastTouch := t.at;
        v := FlickState.DeferredToSuper;
      case Up | Cancel =>
        if IsTap(lastTouch, t.at) {
          SetChecked(!state, true);
        } else if state {
          SetChecked((hostScrollX as real) < (maxScrollX as real) * FlickRatio, true);
        } else {
          SetChecked((hostScrollX as real) < (maxScrollX as real) * (1.0 - FlickRatio), true);
        }
        v := FlickState.Intercepted;
      case Other =>
        v := FlickState.DeferredToSuper;
    }
  }
}
