# Flick button model

A Dafny model of `FlickButtonView`, an Android on/off switch that the user
either taps or drags ("flicks"). Under the Android view plumbing sits a
small state machine: a boolean `state` with a single change listener, a
scroll viewport that must always show the offset of that state, a size
computation that runs on every measure pass, and a touch handler that turns
a released touch into a tap (invert) or a flick (decide by how far the
thumb was scrolled).

The project has four modules:

- `FlickGeometry` (`geometry.dfy`): the size arithmetic of
  `updateViewDimensions` as pure functions. The double constants 57/29 and
  40/57 are exact reals and the `(int)` casts are `.Floor`; the contracts
  state the results as integer inequalities.
- `FlickGesture` (`gesture.dfy`): tap classification and the flick
  thresholds, with coordinates as reals.
- `FlickState` (`state.dfy`): the button's whole state as a value
  (`Button`), each operation as a function from old state to new, the
  listener's log `notified`, and lemmas over single calls and over any
  sequence of calls (`Run`).
- `FlickButton` (`flick_button_view.dfy`): the class `FlickButtonView`, whose
  fields the methods update in place. `Model()` reads them as a
  `FlickState.Button`, and each method's `ensures` ties the new `Model()` to
  the matching `FlickState` function of the old one.

The object invariant (`FlickState.Valid`) says that the listener has seen
strictly alternating values, the first one off. It also says that the
button is on exactly when the listener has seen an even number of values.
Since a new button is on, the last value the listener saw is always the
current state.

Three behaviours of the code are easy to misread:
- When the button is disabled, `onInterceptTouchEvent` returns true. It
  claims every touch and changes nothing.
- A flick from on turns the button off when the offset is at least a fifth
  of the range. At exactly a fifth the result is off.
- The minimum width comes from the label height before it is raised to 50.
  In the first measure pass, labels measured lower than 50 and narrower
  than 98 therefore do not keep the 57:29 aspect ratio. Labels measured at
  0×0 give a 0-wide label (`AspectLostForShortLabels`). A second pass over the sizes the first one
  set restores the ratio (`RemeasureReachesAspect`).

## Model

| member | source | states |
|---|---|---|
| FlickGeometry.MinWidthFor | src/benegon/android/widget/FlickButtonView.java:293 | the truncated minimum width w satisfies 29w ≤ 57h < 29(w+1), i.e. it is ⌊57h/29⌋ |
| FlickGeometry.ThumbWidthFor | src/benegon/android/widget/FlickButtonView.java:305 | the thumb width t satisfies 57t ≤ 40w < 57(t+1), i.e. it is ⌊40w/57⌋, and is at most the label width |
| FlickGeometry.ComputeDimensions | src/benegon/android/widget/FlickButtonView.java:288-310 | the label width is the least value that is at least both measured widths and at least ⌊57·rawH/29⌋ for the unclamped taller height; the label height is max(onH, offH, 50); the thumb is ⌊40·width/57⌋ ≤ width; the viewport is (width + thumb) × height |
| FlickGeometry.AspectKeptForTallLabels | src/benegon/android/widget/FlickButtonView.java:292-295 | when a label is at least 50 high, the label width is at least the minimum width for the final height |
| FlickGeometry.AspectLostForShortLabels | src/benegon/android/widget/FlickButtonView.java:292-295 | in one pass, labels measured lower than 50 and narrower than 98 get height 50 but a width below the 98 that height 50 calls for; labels measured at 0×0 get width 0 |
| FlickGeometry.RemeasureReachesAspect | src/benegon/android/widget/FlickButtonView.java:289-302 | when the next pass measures each label at the size the previous pass set, it keeps the height, never narrows the label and restores the aspect ratio; every later pass changes nothing |
| FlickGesture.IsTap | src/benegon/android/widget/FlickButtonView.java:378 | a tap is a release whose x and y each differ from the DOWN point by strictly less than 1 either way |
| FlickGesture.FlickResult | src/benegon/android/widget/FlickButtonView.java:381-385 | the double thresholds M·1/5 and M·(1−1/5) are exactly 5·x < M (from on) and 5·x < 4·M (from off) |
| FlickGesture.ReleaseResult | src/benegon/android/widget/FlickButtonView.java:378-385 | a tap inverts the state; a release that is not a tap ends on iff 5·x < M (from on) or 5·x < 4·M (from off) |
| FlickGesture.TapInverts | src/benegon/android/widget/FlickButtonView.java:377-379 | a release within 1 unit on both axes inverts the state whatever the scroll offset |
| FlickGesture.FlickFromOn | src/benegon/android/widget/FlickButtonView.java:381-382 | from on, a flick ends off iff 5·x ≥ M; at exactly M/5 it ends off |
| FlickGesture.FlickFromOff | src/benegon/android/widget/FlickButtonView.java:383-384 | from off, a flick ends on iff the thumb moved back more than a fifth of the range |
| FlickGesture.FlickBands | src/benegon/android/widget/FlickButtonView.java:381-385 | below a fifth a flick ends on and from four fifths up it ends off, whatever the start; in between it always changes the state |
| FlickGesture.FlickMonotone | src/benegon/android/widget/FlickButtonView.java:381-385 | an offset further towards off never turns a result off into on |
| FlickGesture.FlickExamples | src/benegon/android/widget/FlickButtonView.java:381-385 | with range 100: from on, 21 turns off and 19 stays on; from off, 79 turns on and 81 stays off |
| FlickState.Initial | src/benegon/android/widget/FlickButtonView.java:140-150 | a new button is on, enabled, labelled "On"/"Off" and has notified nobody |
| FlickState.ScrollTarget | src/benegon/android/widget/FlickButtonView.java:338 | the offset is onScrollX when on and offScrollX when off |
| FlickState.RefreshScroll | src/benegon/android/widget/FlickButtonView.java:337-347 | requests onScrollX when on and offScrollX when off, with the smooth flag given, and changes nothing else |
| FlickState.SetChecked | src/benegon/android/widget/FlickButtonView.java:210-222 | the state becomes the argument; the listener gets the new value appended exactly when it differs from the old; the scroll request is the new state's offset; nothing else changes |
| FlickState.Toggle | src/benegon/android/widget/FlickButtonView.java:262-265 | the state is inverted, the listener always hears the new value, the viewport snaps to its offset without smoothing, and nothing else changes |
| FlickState.DisplayedText | src/benegon/android/widget/FlickButtonView.java:247-249 | the on text when on and the off text when off |
| FlickState.OnLayout | src/benegon/android/widget/FlickButtonView.java:397-404 | requests the state's offset without smoothing and changes nothing else |
| FlickState.InterceptTouch | src/benegon/android/widget/FlickButtonView.java:361-394 | the touch is claimed exactly when the button is disabled or it is UP/CANCEL; only an enabled DOWN moves the touch point; only an enabled UP/CANCEL changes the state, to ReleaseResult, with a smooth scroll to its offset; the listener hears the new state exactly when it changed; the flag, texts, sizes, offsets and range never change |
| FlickState.SetEnabled | src/benegon/android/widget/FlickButtonView.java:225-233 | only the enabled flag changes, to the argument |
| FlickState.SetTextOn | src/benegon/android/widget/FlickButtonView.java:165-169 | only the on text changes, to the argument |
| FlickState.SetTextOff | src/benegon/android/widget/FlickButtonView.java:175-179 | only the off text changes, to the argument |
| FlickState.UpdateViewDimensions | src/benegon/android/widget/FlickButtonView.java:270-318 | the sizes become ComputeDimensions of the measured sizes; onScrollX = 0 and offScrollX = maxScrollX = label width; nothing else changes |
| FlickState.InitialValid | src/benegon/android/widget/FlickButtonView.java:149 | a new button satisfies the listener/state invariant |
| FlickState.SetCheckedNotifiesOnChange | src/benegon/android/widget/FlickButtonView.java:210-222 | after setChecked(c, s) the state is c; the listener is called once, with c, iff the old state differed, and otherwise not; earlier notifications are kept; the viewport goes to the offset of c |
| FlickState.SetTwiceNotifiesAtMostOnce | src/benegon/android/widget/FlickButtonView.java:213-219 | setting the same value twice leaves that value and notifies at most once |
| FlickState.ToggleTwiceRestores | src/benegon/android/widget/FlickButtonView.java:262-265 | two toggles restore the state, and the listener is told the opposite and then the original value |
| FlickState.TextAfterSetChecked | src/benegon/android/widget/FlickButtonView.java:210-249 | after setChecked(c, s), getText gives the on text when c and the off text otherwise |
| FlickState.MeasureThenLayout | src/benegon/android/widget/FlickButtonView.java:313-317 | after a measure and a layout pass the offset is 0 when on and the label width when off |
| FlickState.DisabledIgnoresTouch | src/benegon/android/widget/FlickButtonView.java:363-365 | a disabled button claims any touch and changes nothing |
| FlickState.DownRecordsPoint | src/benegon/android/widget/FlickButtonView.java:368-373 | an enabled DOWN records the point, changes nothing else and leaves the verdict to the superclass |
| FlickState.OtherLeavesAll | src/benegon/android/widget/FlickButtonView.java:389-393 | an enabled touch other than DOWN, UP or CANCEL changes nothing and is left to the superclass |
| FlickState.ReleaseAsTap | src/benegon/android/widget/FlickButtonView.java:375-379 | an enabled UP/CANCEL that is a tap inverts the state, notifies the new value, scrolls smoothly and is claimed |
| FlickState.ReleaseAsFlick | src/benegon/android/widget/FlickButtonView.java:380-388 | an enabled UP/CANCEL that is not a tap ends on iff 5·x < M (from on) or 5·x < 4·M (from off), is claimed, notifies the listener of the result exactly when it differs from the old state, scrolls smoothly to the result's offset, and keeps both offsets |
| FlickState.ApplyPreservesValid | src/benegon/android/widget/FlickButtonView.java:213-219 | every operation keeps the listener/state invariant |
| FlickState.RunPreservesValid | src/benegon/android/widget/FlickButtonView.java:213-219 | any sequence of calls keeps the listener/state invariant |
| FlickState.RunExtendsNotifications | src/benegon/android/widget/FlickButtonView.java:216-218 | notifications are only appended, never withdrawn |
| FlickState.ListenerAgreesWithState | src/benegon/android/widget/FlickButtonView.java:213-218 | after any calls on a new button, the last value the listener got is the current state, and with none the button is on |
| FlickState.DisabledIgnoresTouches | src/benegon/android/widget/FlickButtonView.java:363-365 | a disabled button is left entirely unchanged by any sequence of touches |
| FlickState.LayoutAfterAnything | src/benegon/android/widget/FlickButtonView.java:397-404 | whatever calls came before, a final layout pass leaves the requested offset equal to the state's offset |
| FlickState.ApplyKeepsOffsets | src/benegon/android/widget/FlickButtonView.java:313-317 | every operation keeps onScrollX = 0 and offScrollX = maxScrollX = label width |
| FlickState.RunKeepsOffsets | src/benegon/android/widget/FlickButtonView.java:313-317 | any sequence of calls keeps onScrollX = 0 and offScrollX = maxScrollX = label width |
| FlickState.LayoutShowsState | src/benegon/android/widget/FlickButtonView.java:397-404 | after any calls on a new button, a layout pass leaves the viewport at offset 0 when on and at the label width when off, without smoothing |
| FlickButton.FlickButtonView.constructor | src/benegon/android/widget/FlickButtonView.java:101-159 | the fields hold the initial button and the invariant holds |
| FlickButton.FlickButtonView.SetChecked | src/benegon/android/widget/FlickButtonView.java:210-222 | the fields change as FlickState.SetChecked says; the state is the argument; the listener log grows by the new value iff it changed |
| FlickButton.FlickButtonView.SetCheckedInstantly | src/benegon/android/widget/FlickButtonView.java:205-207 | the same as SetChecked without smooth scrolling |
| FlickButton.FlickButtonView.Toggle | src/benegon/android/widget/FlickButtonView.java:262-265 | the state is inverted, as FlickState.Toggle says |
| FlickButton.FlickButtonView.SetEnabled | src/benegon/android/widget/FlickButtonView.java:225-233 | only the enabled flag changes |
| FlickButton.FlickButtonView.SetTextOn | src/benegon/android/widget/FlickButtonView.java:165-169 | only the on text changes |
| FlickButton.FlickButtonView.SetTextOff | src/benegon/android/widget/FlickButtonView.java:175-179 | only the off text changes |
| FlickButton.FlickButtonView.GetText | src/benegon/android/widget/FlickButtonView.java:247-249 | returns the on text when on and the off text when off |
| FlickButton.FlickButtonView.IsChecked | src/benegon/android/widget/FlickButtonView.java:252-254 | returns the state |
| FlickButton.FlickButtonView.IsEnabled | src/benegon/android/widget/FlickButtonView.java:257-259 | returns the enabled flag |
| FlickButton.FlickButtonView.UpdateViewDimensions | src/benegon/android/widget/FlickButtonView.java:270-318 | the fields change as FlickState.UpdateViewDimensions says |
| FlickButton.FlickButtonView.RefreshScroll | src/benegon/android/widget/FlickButtonView.java:337-347 | the requested offset is onScrollX when on and offScrollX when off; nothing else changes |
| FlickButton.FlickButtonView.OnLayout | src/benegon/android/widget/FlickButtonView.java:397-404 | the fields change as FlickState.OnLayout says: a snap to the state's offset |
| FlickButton.FlickButtonView.OnInterceptTouchEvent | src/benegon/android/widget/FlickButtonView.java:361-394 | the fields and the verdict are those of FlickState.InterceptTouch |

## Left out

- Construction of the child views, backgrounds, text appearances, gravity and padding (lines 101-159). Only the fields the state machine reads are modelled.
- `setTextSize` (both overloads). These only forward to the labels and affect nothing but the measured sizes, which are inputs here.
- `setOnFlickChangeListener` and listener identity. The ghost log `notified` holds the values a registered listener receives. With no listener registered the source skips the call, and nothing else differs.
- FlickState.SetChecked: assumes the listener does not call back into the button. Line 217 passes `this` to foreign code before `refreshScroll`. A listener that calls `setChecked(!checked)` from there leaves the state at `!checked` after the outer call returns, and the outer call's scroll request then follows that state. The model's `ensures state == checked` and its frame do not cover such re-entrant listeners. The same holds for FlickButton.FlickButtonView.SetChecked and for every operation that calls it.
- Android measurement (`super.onMeasure`, `getMeasuredWidth`/`getMeasuredHeight`). `onMeasure` only calls it and then `updateViewDimensions`, so the measured label sizes are a `Measured` parameter. `invalidate()` and the layout-parameter objects are left out too; their values are the `Dimensions` field.
- FlickState.UpdateViewDimensions: takes any `Measured` sizes. In the source, lines 298-302 overwrite the WRAP_CONTENT reset before the next measure, so each pass measures the labels at the sizes the previous pass set. The free parameter does not capture that link. `RemeasureReachesAspect` states its effect, assuming each label is measured at exactly its layout size.
- Smooth-scroll animation and the scroll viewport itself. `smoothScrollTo` and `scrollTo` both become a requested offset (`Scroll`) whose flag records which one was used. The offset the viewport reports while the user drags is the `hostScrollX` parameter of the touch handler.
- `super.onInterceptTouchEvent`. When the source defers to it, the result is `DeferredToSuper`.
- `super.onLayout`, `super.setEnabled` and the children's `setEnabled`. These are host calls with no effect on the modelled state.
- Logging, the instance counter (`count`, `myCount`) and the debug flag `D`.
- FlickGeometry.MinWidthFor: exact arithmetic, while the source multiplies doubles. For every height below 2^24, the range a measured size can take, the double product truncates to the same ⌊57·h/29⌋. Larger values are not modelled.
- FlickGeometry.ThumbWidthFor: exact arithmetic, while the source multiplies doubles. For every width below 2^24 the double product truncates to the same ⌊40·w/57⌋. Larger values are not modelled.
- FlickGesture.FlickResult: exact arithmetic, while the source compares an int with a double product. The double 1 − 0.2 is the double 0.8, slightly above 4/5, and 0.2 is slightly above 1/5. For integer offsets and ranges of measurable size, both comparisons agree with 5·x < M and 5·x < 4·M, including at the exact boundaries.
- FlickGesture.IsTap: exact arithmetic on reals, while the source subtracts floats.
- FlickState.UpdateViewDimensions: integers are unbounded. The source's `width + thumbWidth` wraps around past 2^31 − 1, and its `(int)` casts saturate; widths that large are not modelled.
- Measured sizes are natural numbers, because Android never measures a view to a negative size.
