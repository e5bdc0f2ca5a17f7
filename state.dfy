/**
 * The state of one flick button as a value, and each of its operations as
 * a function from the old state to the new one. The class FlickButtonView
 * keeps the same state in fields and its methods are proved to follow
 * these functions; the lemmas here state what holds across calls.
 */
module FlickState {
  import opened FlickGeometry
  import opened FlickGesture

  /** Last offset requested from the scroll viewport, and whether smoothly. */
  datatype Scroll = Scroll(x: int, smooth: bool)

  /** Whether the touch handler claims the event or leaves the choice to the superclass. */
  datatype Verdict = Intercepted | DeferredToSuper

  /**
   * state: on (true) or off; enabled: whether touches are handled;
   * lastTouch: where the last DOWN happened; dims: the children's sizes;
   * onScrollX/offScrollX: the viewport offsets that show on and off;
   * maxScrollX: the scroll range; scroll: the last scroll request;
   * notified: every value passed to the change listener, in order.
   */
  datatype Button = Button(
    state: bool,
    enabled: bool,
    lastTouch: Point,
    onText: string,
    offText: string,
    dims: Dimensions,
    onScrollX: int,
    offScrollX: int,
    maxScrollX: int,
    scroll: Scroll,
    notified: seq<bool>)

  /**
   * A newly constructed button: on, enabled, labelled "On"/"Off". The zero
   * sizes and offsets stand for "not yet measured" (the source leaves the
   * labels' layout sizes at WRAP_CONTENT and its offsets at Java's default
   * 0), and Scroll(0, false) for "no scroll requested yet": the viewport
   * starts at offset 0.
   */
  function Initial(): (b: Button)
    ensures b.state && b.enabled && b.notified == []
    ensures b.onText == "On" && b.offText == "Off"
  {
    Button(true, true, Point(0.0, 0.0), "On", "Off", Dimensions(0, 0, 0, 0, 0), 0, 0, 0, Scroll(0, false), [])
  }

  /**
   * The listener has seen strictly alternating values, the first of them
   * off, and the button is on exactly when it has seen an even number.
   */
  ghost predicate Valid(b: Button)
  {
    (forall i | 0 <= i < |b.notified| :: b.notified[i] == (i % 2 == 1))
    && b.state == (|b.notified| % 2 == 0)
  }

  /** The viewport offset that shows the current state. */
  function ScrollTarget(b: Button): (x: int)
    ensures b.state ==> x == b.onScrollX
    ensures !b.state ==> x == b.offScrollX
  {
    if b.state then b.onScrollX else b.offScrollX
  }

  /** refreshScroll: request the offset of the current state. */
  function RefreshScroll(b: Button, smooth: bool): (r: Button)
    ensures r.scroll == Scroll(ScrollTarget(b), smooth)
    ensures r.(scroll := b.scroll) == b
  {
    b.(scroll := Scroll(ScrollTarget(b), smooth))
  }

  /**
   * setChecked: take the new state, tell the listener when it differs
   * from the old one, and scroll to the offset of the new state.
   */
  function SetChecked(b: Button, checked: bool, smooth: bool): (r: Button)
    ensures r.state == checked
    ensures r.notified == if b.state != checked then b.notified + [checked] else b.notified
    ensures r.scroll == Scroll(if checked then b.onScrollX else b.offScrollX, smooth)
    ensures r.(state := b.state, notified := b.notified, scroll := b.scroll) == b
  {
    var changed := if b.state != checked then b.(state := checked, notified := b.notified + [checked]) else b;
    RefreshScroll(changed, smooth)
  }

  /**
   * toggle: setChecked(!state) without smooth scrolling, so the state is
   * inverted, the listener always hears of it and the viewport snaps.
   */
  function Toggle(b: Button): (r: Button)
    ensures r.state == !b.state
    ensures r.notified == b.notified + [!b.state]
    ensures r.scroll == Scroll(ScrollTarget(r), false)
    ensures r.(state := b.state, notified := b.notified, scroll := b.scroll) == b
  {
    SetChecked(b, !b.state, false)
  }

  function SetEnabled(b: Button, enabled: bool): (r: Button)
    ensures r.enabled == enabled && r.(enabled := b.enabled) == b
  {
    b.(enabled := enabled)
  }

  function SetTextOn(b: Button, text: string): (r: Button)
    ensures r.onText == text && r.(onText := b.onText) == b
  {
    b.(onText := text)
  }

  function SetTextOff(b: Button, text: string): (r: Button)
    ensures r.offText == text && r.(offText := b.offText) == b
  {
    b.(offText := text)
  }

  /** getText: the label of the current state. */
  function DisplayedText(b: Button): (text: string)
    ensures b.state ==> text == b.onText
    ensures !b.state ==> text == b.offText
  {
    if b.state then b.onText else b.offText
  }

  /**
   * updateViewDimensions (on every measure pass): new child sizes; on
   * shows offset 0, off shows the label width, which is also the range.
   */
  function UpdateViewDimensions(b: Button, m: Measured): (r: Button)
    ensures r.dims == ComputeDimensions(m)
    ensures r.onScrollX == 0 && r.offScrollX == r.maxScrollX == r.dims.labelWidth
    ensures r.(dims := b.dims, onScrollX := b.onScrollX, offScrollX := b.offScrollX, maxScrollX := b.maxScrollX) == b
  {
    var d := ComputeDimensions(m);
    b.(dims := d, onScrollX := 0, offScrollX := d.labelWidth, maxScrollX := d.labelWidth)
  }

  /** onLayout: snap the viewport to the current state, changing nothing else. */
  function OnLayout(b: Button): (r: Button)
    ensures r.scroll == Scroll(ScrollTarget(b), false)
    ensures r.(scroll := b.scroll) == b
  {
    RefreshScroll(b, false)
  }

  /**
   * onInterceptTouchEvent for touch t while the viewport reports offset
   * hostScrollX: disabled, claim it and do nothing; DOWN, remember the
   * point; UP or CANCEL, resolve tap or flick into a smooth setChecked and
   * claim it; anything else, leave it to the superclass.
   */
  function InterceptTouch(b: Button, t: Touch, hostScrollX: int): (r: (Button, Verdict))
    ensures r.1 == Intercepted <==> !b.enabled || t.action == Up || t.action == Cancel
    ensures r.0.enabled == b.enabled && r.0.onText == b.onText && r.0.offText == b.offText
    ensures r.0.dims == b.dims && r.0.maxScrollX == b.maxScrollX
    ensures r.0.onScrollX == b.onScrollX && r.0.offScrollX == b.offScrollX
    ensures r.0.notified == if r.0.state != b.state then b.notified + [r.0.state] else b.notified
    ensures r.0.lastTouch == if b.enabled && t.action == Down then t.at else b.lastTouch
    ensures r.0.state != b.state ==> b.enabled && (t.action == Up || t.action == Cancel)
    ensures b.enabled && (t.action == Up || t.action == Cancel) ==>
      r.0.state == ReleaseResult(b.state, b.lastTouch, t.at, hostScrollX, b.maxScrollX)
      && r.0.scroll == Scroll(ScrollTarget(r.0), true)
  {
    if !b.enabled then (b, Intercepted)
    else match t.action
      case Down => (b.(lastTouch := t.at), DeferredToSuper)
      case Up | Cancel =>
        (SetChecked(b, ReleaseResult(b.state, b.lastTouch, t.at, hostScrollX, b.maxScrollX), true), Intercepted)
      case Other => (b, DeferredToSuper)
  }

  /** The public operations and host callbacks a button receives. */
  datatype Call =
    | CallSetChecked(checked: bool, smooth: bool)
    | CallToggle
    | CallSetEnabled(enabled: bool)
    | CallSetTextOn(text: string)
    | CallSetTextOff(text: string)
    | CallMeasure(m: Measured)
    | CallLayout
    | CallTouch(t: Touch, hostScrollX: int)

  function Apply(b: Button, c: Call): Button
  {
    match c
    case CallSetChecked(checked, smooth) => SetChecked(b, checked, smooth)
    case CallToggle => Toggle(b)
    case CallSetEnabled(e) => SetEnabled(b, e)
    case CallSetTextOn(s) => SetTextOn(b, s)
    case CallSetTextOff(s) => SetTextOff(b, s)
    case CallMeasure(m) => UpdateViewDimensions(b, m)
    case CallLayout => OnLayout(b)
    case CallTouch(t, x) => InterceptTouch(b, t, x).0
  }

  /** The button after receiving the calls in order. */
  function Run(b: Button, calls: seq<Call>): Button
    decreases |calls|
  {
    if calls == [] then b else Run(Apply(b, calls[0]), calls[1..])
  }

  // ---- Single operations ------------------------------------------------

  lemma InitialValid()
    ensures Valid(Initial())
  {
  }

  /**
   * After setChecked(c, s) the state is c; the listener is called once,
   * with c, exactly when the state was not c; the viewport is sent to the
   * offset of c.
   */
  lemma SetCheckedNotifiesOnChange(b: Button, checked: bool, smooth: bool)
    ensures SetChecked(b, checked, smooth).state == checked
    ensures b.state != checked <==> |SetChecked(b, checked, smooth).notified| == |b.notified| + 1
    ensures b.state == checked <==> SetChecked(b, checked, smooth).notified == b.notified
    ensures SetChecked(b, checked, smooth).notified[..|b.notified|] == b.notified
    ensures b.state != checked ==> SetChecked(b, checked, smooth).notified[|b.notified|] == checked
    ensures SetChecked(b, checked, smooth).scroll.x == ScrollTarget(SetChecked(b, checked, smooth))
  {
  }

  /** Setting the same value twice notifies the listener at most once. */
  lemma SetTwiceNotifiesAtMostOnce(b: Button, checked: bool, s1: bool, s2: bool)
    ensures var r := SetChecked(SetChecked(b, checked, s1), checked, s2);
      r.state == checked && |b.notified| <= |r.notified| <= |b.notified| + 1
  {
  }

  /** Two toggles restore the state; each of them notifies the listener. */
  lemma ToggleTwiceRestores(b: Button)
    ensures Toggle(Toggle(b)).state == b.state
    ensures Toggle(Toggle(b)).notified == b.notified + [!b.state, b.state]
  {
  }

  /** After setChecked(c, s), getText shows the label of c. */
  lemma TextAfterSetChecked(b: Button, checked: bool, smooth: bool)
    ensures DisplayedText(SetChecked(b, checked, smooth)) == if checked then b.onText else b.offText
  {
  }

  /** After a measure and a layout pass, on shows offset 0 and off shows the label width. */
  lemma MeasureThenLayout(b: Button, m: Measured)
    ensures OnLayout(UpdateViewDimensions(b, m)).scroll.x
         == if b.state then 0 else ComputeDimensions(m).labelWidth
  {
  }

  /** A disabled button claims every touch and changes nothing. */
  lemma DisabledIgnoresTouch(b: Button, t: Touch, hostScrollX: int)
    requires !b.enabled
    ensures InterceptTouch(b, t, hostScrollX) == (b, Intercepted)
  {
  }

  /** DOWN only records the point and leaves the decision to the superclass. */
  lemma DownRecordsPoint(b: Button, p: Point, hostScrollX: int)
    requires b.enabled
    ensures InterceptTouch(b, Touch(Down, p), hostScrollX) == (b.(lastTouch := p), DeferredToSuper)
  {
  }

  /** Any other enabled touch (MOVE and the rest) changes nothing and is left to the superclass. */
  lemma OtherLeavesAll(b: Button, p: Point, hostScrollX: int)
    requires b.enabled
    ensures InterceptTouch(b, Touch(Other, p), hostScrollX) == (b, DeferredToSuper)
  {
  }

  /**
   * UP or CANCEL within the tap distance of the DOWN point inverts the
   * state, whatever the offset, notifies the listener and scrolls smoothly.
   */
  lemma ReleaseAsTap(b: Button, t: Touch, hostScrollX: int)
    requires b.enabled && (t.action == Up || t.action == Cancel)
    requires IsTap(b.lastTouch, t.at)
    ensures InterceptTouch(b, t, hostScrollX).1 == Intercepted
    ensures InterceptTouch(b, t, hostScrollX).0.state == !b.state
    ensures InterceptTouch(b, t, hostScrollX).0.notified == b.notified + [!b.state]
    ensures InterceptTouch(b, t, hostScrollX).0.scroll.smooth
  {
  }

  /**
   * UP or CANCEL further away is a flick: from on the button ends on iff
   * 5 * offset < range, from off iff 5 * offset < 4 * range; the event is
   * claimed either way, the listener hears the result exactly when it
   * differs from the old state, and the viewport scrolls smoothly to the
   * result's offset.
   */
  lemma ReleaseAsFlick(b: Button, t: Touch, hostScrollX: int)
    requires b.enabled && (t.action == Up || t.action == Cancel)
    requires !IsTap(b.lastTouch, t.at)
    ensures InterceptTouch(b, t, hostScrollX).1 == Intercepted
    ensures b.state ==> (InterceptTouch(b, t, hostScrollX).0.state <==> 5 * hostScrollX < b.maxScrollX)
    ensures !b.state ==> (InterceptTouch(b, t, hostScrollX).0.state <==> 5 * hostScrollX < 4 * b.maxScrollX)
    ensures InterceptTouch(b, t, hostScrollX).0.scroll
         == Scroll(ScrollTarget(InterceptTouch(b, t, hostScrollX).0), true)
    ensures var r := InterceptTouch(b, t, hostScrollX).0;
      r.notified == (if r.state != b.state then b.notified + [r.state] else b.notified)
      && r.onScrollX == b.onScrollX && r.offScrollX == b.offScrollX
  {
  }

  // ---- Sequences of calls -------------------------------------------------

  lemma {:induction false} RunAppend(b: Button, calls: seq<Call>, c: Call)
    ensures Run(b, calls + [c]) == Apply(Run(b, calls), c)
    decreases |calls|
  {
    if calls != [] {
      assert (calls + [c])[1..] == calls[1..] + [c];
      RunAppend(Apply(b, calls[0]), calls[1..], c);
    }
  }

  /** Every operation keeps the alternation of the listener's values. */
  lemma ApplyPreservesValid(b: Button, c: Call)
    requires Valid(b)
    ensures Valid(Apply(b, c))
  {
  }

  /**
   * Whatever the calls, the listener sees alternating values starting
   * with off, and the button is on exactly when it has seen an even number.
   */
  lemma {:induction false} RunPreservesValid(b: Button, calls: seq<Call>)
    requires Valid(b)
    ensures Valid(Run(b, calls))
    decreases |calls|
  {
    if calls != [] {
      ApplyPreservesValid(b, calls[0]);
      RunPreservesValid(Apply(b, calls[0]), calls[1..]);
    }
  }

  /** Notifications are only ever appended, never withdrawn. */
  lemma {:induction false} RunExtendsNotifications(b: Button, calls: seq<Call>)
    ensures b.notified <= Run(b, calls).notified
    decreases |calls|
  {
    if calls != [] {
      var next := Apply(b, calls[0]);
      assert b.notified <= next.notified;
      RunExtendsNotifications(next, calls[1..]);
    }
  }

  /**
   * The last value the listener received is the current state: the view
   * never shows a state the listener was not told about.
   */
  lemma {:induction false} ListenerAgreesWithState(calls: seq<Call>)
    ensures var r := Run(Initial(), calls);
      (r.notified == [] ==> r.state) && (r.notified != [] ==> r.notified[|r.notified| - 1] == r.state)
  {
    InitialValid();
    RunPreservesValid(Initial(), calls);
  }

  /** A disabled button ignores every sequence of touches. */
  lemma {:induction false} DisabledIgnoresTouches(b: Button, calls: seq<Call>)
    requires !b.enabled
    requires forall i | 0 <= i < |calls| :: calls[i].CallTouch?
    ensures Run(b, calls) == b
    decreases |calls|
  {
    if calls != [] {
      assert Apply(b, calls[0]) == b;
      DisabledIgnoresTouches(b, calls[1..]);
    }
  }

  /** Whatever came before, a layout pass leaves the viewport showing the state. */
  lemma LayoutAfterAnything(b: Button, calls: seq<Call>)
    ensures Run(b, calls + [CallLayout]).scroll == Scroll(ScrollTarget(Run(b, calls)), false)
    ensures Run(b, calls + [CallLayout]).scroll.x == ScrollTarget(Run(b, calls + [CallLayout]))
  {
    RunAppend(b, calls, CallLayout);
  }

  /**
   * The offsets agree with the sizes: on shows offset 0, off shows the
   * label width, and the range is the label width.
   */
  ghost predicate OffsetsAgree(b: Button)
  {
    b.onScrollX == 0 && b.offScrollX == b.maxScrollX == b.dims.labelWidth
  }

  /** Every operation keeps the offsets in agreement with the sizes. */
  lemma ApplyKeepsOffsets(b: Button, c: Call)
    requires OffsetsAgree(b)
    ensures OffsetsAgree(Apply(b, c))
  {
  }

  /** Whatever the calls, the offsets stay in agreement with the sizes. */
  lemma {:induction false} RunKeepsOffsets(b: Button, calls: seq<Call>)
    requires OffsetsAgree(b)
    ensures OffsetsAgree(Run(b, calls))
    decreases |calls|
  {
    if calls != [] {
      ApplyKeepsOffsets(b, calls[0]);
      RunKeepsOffsets(Apply(b, calls[0]), calls[1..]);
    }
  }

  /**
   * After any calls on a new button, a layout pass leaves the viewport at
   * offset 0 when on and at the label width when off.
   */
  lemma LayoutShowsState(calls: seq<Call>)
    ensures var r := Run(Initial(), calls + [CallLayout]);
      r.scroll == Scroll(if r.state then 0 else r.dims.labelWidth, false)
  {
    RunKeepsOffsets(Initial(), calls + [CallLayout]);
    LayoutAfterAnything(Initial(), calls);
    RunAppend(Initial(), calls, CallLayout);
  }
}
