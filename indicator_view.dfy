/** The status-bar app's indicator (LanguageIndicator/LanguageIndicatorView.swift):
    it shows a window with the language label, arms a 1.5 s timer, and when the
    timer fires fades the window out and, once the fade animation completes,
    hides whatever indicator is current at that moment.

    Window creation success is a parameter. Timer firing and fade completion are
    events the environment delivers: the run loop fires only timers that are
    still scheduled, and a started fade animation completes exactly once. */
module IndicatorView {
  import opened Ui

  /** A running fade-out animation of `window`; its completion block calls hideIndicator. */
  datatype Fade = Fade(id: nat, window: Window)

  /** Fields of `LanguageIndicatorView` and the platform's side of them. */
  datatype State = State(
    window: Option<Window>,  // indicatorWindow
    timer: Option<Timer>,    // fadeTimer
    onScreen: set<Window>,   // windows ordered front and not yet closed
    scheduled: set<Timer>,   // timers the run loop will still fire
    fading: set<Fade>,       // fade animations whose completion is still due
    next: nat)               // id of the next token to be created

  /** Every window on screen is the indicator window; a scheduled timer is the
      fade timer and only runs while a window exists; all tokens are older than
      `next`. After the timer fires, `fadeTimer` still refers to it. */
  ghost predicate Inv(s: State) {
    s.onScreen == Elems(s.window) &&
    s.scheduled <= Elems(s.timer) &&
    (s.scheduled != {} ==> s.window.Some?) &&
    (s.window.Some? ==> s.window.value.id < s.next) &&
    (s.timer.Some? ==> s.timer.value.id < s.next && s.timer.value.millis == AutoHideMillis) &&
    (forall f :: f in s.fading ==> f.id < s.next)
  }

  const Initial: State := State(None, None, {}, {}, {}, 0)

  /** hideIndicator: invalidate and drop the timer, close and drop the window. */
  function Hide(s: State): (r: State)
    ensures r.window == None && r.timer == None
    ensures r.fading == s.fading && r.next == s.next
    ensures Inv(s) ==> r.onScreen == {} && r.scheduled == {}
  {
    s.(timer := None, scheduled := Invalidate(s.scheduled, s.timer),
       window := None, onScreen := s.onScreen - Elems(s.window))
  }

  /** showIndicator: hide first; when AppKit yields a window, show it and arm
      the 1.5 s timer; when it does not, return with neither. */
  function Show(s: State, text: string, created: bool): (r: State)
    ensures created <==> r.window.Some?
    ensures created <==> r.timer.Some?
    ensures created ==> r.window.value.text == text && r.timer.value.millis == AutoHideMillis &&
                        r.window.value.id >= s.next && r.timer.value.id >= s.next
    ensures r.fading == s.fading
    ensures Inv(s) ==> r.onScreen == Elems(r.window) && r.scheduled == Elems(r.timer)
  {
    var h := Hide(s);
    if created then
      var w := Window(h.next, text);
      var t := Timer(h.next + 1, AutoHideMillis);
      h.(window := Some(w), onScreen := h.onScreen + {w},
         timer := Some(t), scheduled := h.scheduled + {t}, next := h.next + 2)
    else
      h.(window := None)
  }

  /** hideIndicatorWithAnimation: with a window, start its fade-out. */
  function HideWithAnimation(s: State): (r: State)
    ensures s.window.None? ==> r == s
    ensures s.window.Some? ==> Fade(s.next, s.window.value) in r.fading
    ensures r.window == s.window && r.onScreen == s.onScreen && r.timer == s.timer
    ensures r.scheduled == s.scheduled && s.fading <= r.fading
  {
    if s.window.None? then s
    else s.(fading := s.fading + {Fade(s.next, s.window.value)}, next := s.next + 1)
  }

  /** The run loop fires `t` once; its block calls hideIndicatorWithAnimation. */
  function Fire(s: State, t: Timer): (r: State)
    ensures t !in s.scheduled ==> r == s
    ensures t in s.scheduled ==> t !in r.scheduled && r.window == s.window && r.onScreen == s.onScreen
  {
    if t in s.scheduled then HideWithAnimation(s.(scheduled := s.scheduled - {t})) else s
  }

  /** Fade `f` completes; its block calls hideIndicator, on whatever window is
      current by then. */
  function Complete(s: State, f: Fade): (r: State)
    ensures f !in s.fading ==> r == s
    ensures f in s.fading ==> r.window == None && r.timer == None && f !in r.fading
  {
    if f in s.fading then Hide(s.(fading := s.fading - {f})) else s
  }

  datatype Event =
    | Shown(text: string, created: bool)  // showIndicator, called by the app delegate
    | Hidden                              // hideIndicator called from outside; no caller in the app does,
                                          // so this event only widens what the lemmas cover
    | Fired(timer: Timer)
    | Completed(fade: Fade)

  function Step(s: State, e: Event): State {
    match e
    case Shown(text, created) => Show(s, text, created)
    case Hidden => Hide(s)
    case Fired(t) => Fire(s, t)
    case Completed(f) => Complete(s, f)
  }

  function Run(s: State, events: seq<Event>): State
    decreases |events|
  {
    if events == [] then s else Run(Step(s, events[0]), events[1..])
  }

  // ---------------------------------------------------------------------------
  // Properties

  lemma InitialInv()
    ensures Inv(Initial)
  {
  }

  lemma StepAdvancesTokens(s: State, e: Event)
    ensures Step(s, e).next >= s.next
  {
  }

  /** hideIndicator leaves no window and no timer, and calling it again
      changes nothing. */
  lemma HideClears(s: State)
    requires Inv(s)
    ensures var h := Hide(s);
      Inv(h) && h.window == None && h.timer == None && h.onScreen == {} && h.scheduled == {} &&
      h.fading == s.fading && Hide(h) == h
  {
  }

  /** showIndicator closes the earlier window and invalidates its timer before
      creating the new one, so at most one window is on screen; with a window
      exactly one fresh 1.5 s timer is armed, without one none is. */
  lemma ShowEffects(s: State, text: string, created: bool)
    requires Inv(s)
    ensures var r := Show(s, text, created);
      Inv(r) &&
      (s.window.Some? ==> s.window.value !in r.onScreen) &&
      (s.timer.Some? ==> s.timer.value !in r.scheduled) &&
      |r.onScreen| <= 1 && r.fading == s.fading &&
      (created ==>
         r.window == Some(Window(s.next, text)) &&
         r.timer == Some(Timer(s.next + 1, AutoHideMillis)) && r.scheduled == {r.timer.value}) &&
      (!created ==> r.window == None && r.timer == None && r.scheduled == {})
  {
    var h := Hide(s);
    HideClears(s);
    if created {
      var w := Window(h.next, text);
      var t := Timer(h.next + 1, AutoHideMillis);
      var r := Show(s, text, created);
      assert r.onScreen == {w} == Elems(r.window);
      assert r.scheduled == {t} == Elems(r.timer);
    }
  }

  /** hideIndicatorWithAnimation does nothing without a window; with one it
      starts exactly one fade of that window and leaves it on screen. */
  lemma HideWithAnimationEffects(s: State)
    requires Inv(s)
    ensures s.window.None? ==> HideWithAnimation(s) == s
    ensures s.window.Some? ==>
      var r := HideWithAnimation(s);
      r.window == s.window && r.onScreen == s.onScreen &&
      r.fading == s.fading + {Fade(s.next, s.window.value)} && Fade(s.next, s.window.value) !in s.fading
  {
  }

  /** A scheduled timer fires by starting the fade of the current window; a
      timer that is not scheduled does nothing. */
  lemma FireEffects(s: State, t: Timer)
    requires Inv(s)
    ensures Inv(Fire(s, t))
    ensures t in s.scheduled ==>
      s.window.Some? && Fire(s, t).window == s.window && Fire(s, t).scheduled == {} &&
      Fade(s.next, s.window.value) in Fire(s, t).fading
    ensures t !in s.scheduled ==> Fire(s, t) == s
  {
  }

  /** A due fade completion hides the CURRENT indicator, whichever window the
      fade was started for. */
  lemma CompleteHidesCurrent(s: State, f: Fade)
    requires Inv(s) && f in s.fading
    ensures var r := Complete(s, f);
      Inv(r) && r == Hide(s).(fading := s.fading - {f}) &&
      r.window == None && r.onScreen == {} && r.scheduled == {}
  {
  }

  /** A state keeping the invariant arms at most one timer. */
  lemma AtMostOneScheduled(s: State)
    requires Inv(s)
    ensures |s.scheduled| <= 1
  {
    if s.timer.Some? && s.scheduled != {} {
      assert s.scheduled == {s.timer.value};
    }
  }

  lemma StepKeepsInv(s: State, e: Event)
    requires Inv(s)
    ensures Inv(Step(s, e))
  {
    match e
    case Shown(text, created) => ShowEffects(s, text, created);
    case Hidden => HideClears(s);
    case Fired(t) => FireEffects(s, t);
    case Completed(f) =>
  }

  /** At most one window on screen and at most one armed timer, after any events. */
  lemma {:induction false} RunKeepsInv(s: State, events: seq<Event>)
    requires Inv(s)
    ensures Inv(Run(s, events))
    ensures |Run(s, events).onScreen| <= 1 && |Run(s, events).scheduled| <= 1
    decreases |events|
  {
    if events == [] {
      AtMostOneScheduled(s);
    } else {
      StepKeepsInv(s, events[0]);
      RunKeepsInv(Step(s, events[0]), events[1..]);
    }
  }

  /** A timer that is no longer scheduled (invalidated by a later
      showIndicator, or fired) never is again, so it never fires. */
  lemma {:induction false} SupersededTimerNeverFires(s: State, events: seq<Event>, t: Timer)
    requires Inv(s) && t.id < s.next && t !in s.scheduled
    ensures t !in Run(s, events).scheduled
    ensures Fire(Run(s, events), t) == Run(s, events)
    decreases |events|
  {
    if events != [] {
      StepKeepsInv(s, events[0]);
      StepAdvancesTokens(s, events[0]);
      SupersededTimerNeverFires(Step(s, events[0]), events[1..], t);
    }
  }

  /** The fade completion does not check which window it belongs to: show an
      indicator, let its timer fire, show a second indicator during the fade,
      and the first fade's completion closes the second window and cancels
      its timer. */
  lemma StaleFadeClosesNewerWindow()
    ensures
      var first := Window(0, "한");
      var second := Window(3, "A");
      var fade := Fade(2, first);
      var s1 := Run(Initial, [Shown("한", true), Fired(Timer(1, AutoHideMillis))]);
      var s2 := Step(s1, Shown("A", true));
      var s3 := Step(s2, Completed(fade));
      fade in s2.fading && s2.window == Some(second) && second in s2.onScreen &&
      Timer(4, AutoHideMillis) in s2.scheduled &&
      s3.window == None && second !in s3.onScreen && s3.scheduled == {}
  {
    var w0 := Window(0, "한");
    var t0 := Timer(1, AutoHideMillis);
    var f0 := Fade(2, w0);
    var w1 := Window(3, "A");
    var t1 := Timer(4, AutoHideMillis);
    var s0 := Show(Initial, "한", true);
    assert s0 == State(Some(w0), Some(t0), {w0}, {t0}, {}, 2);
    var s1 := Fire(s0, t0);
    assert s1 == State(Some(w0), Some(t0), {w0}, {}, {f0}, 3);
    assert Run(Initial, [Shown("한", true), Fired(t0)]) == s1 by {
      var evs := [Shown("한", true), Fired(t0)];
      assert evs[1..] == [Fired(t0)];
      assert Run(s0, [Fired(t0)]) == Run(s1, []);
    }
    var s2 := Show(s1, "A", true);
    assert Hide(s1) == State(None, None, {}, {}, {f0}, 3);
    assert s2 == State(Some(w1), Some(t1), {w1}, {t1}, {f0}, 5);
    var s3 := Complete(s2, f0);
    assert s3 == State(None, None, {}, {}, {}, 5);
  }

  // ---------------------------------------------------------------------------
  // The view

  class LanguageIndicatorView {
    var indicatorWindow: Option<Window>
    var fadeTimer: Option<Timer>
    // The platform's side, not fields of the Swift object: the windows on
    // screen (ghost, observed only by the proofs), the timers the run loop
    // will still fire and the fade animations whose completion is still due
    // (they decide which blocks run), and the counter that makes each new
    // window, timer or fade distinct.
    ghost var onScreen: set<Window>
    var scheduled: set<Timer>
    var fading: set<Fade>
    var tokens: nat

    ghost function Current(): State
      reads this
    {
      State(indicatorWindow, fadeTimer, onScreen, scheduled, fading, tokens)
    }

    ghost predicate Valid()
      reads this
    {
      Inv(Current())
    }

    constructor ()
      ensures Valid() && Current() == Initial
    {
      indicatorWindow := None;
      fadeTimer := None;
      onScreen := {};
      scheduled := {};
      fading := {};
      tokens := 0;
    }

    method ShowIndicator(language: string, created: bool)
      requires Valid()
      modifies this
      ensures Valid()
      ensures Current() == Show(old(Current()), language, created)
    {
      HideIndicator();
      ghost var h := Current();
      assert h == Hide(old(Current()));
      if created {
        indicatorWindow := Some(Window(tokens, language));
        tokens := tokens + 1;
      } else {
        indicatorWindow := None;
      }
      if indicatorWindow.None? {
        assert Current() == Show(old(Current()), language, created);
        ShowEffects(old(Current()), language, created);
        return;
      }
      onScreen := onScreen + {indicatorWindow.value};  // makeKeyAndOrderFront
      var t := Timer(tokens, AutoHideMillis);
      tokens := tokens + 1;
      scheduled := scheduled + {t};
      fadeTimer := Some(t);
      assert Current() == Show(old(Current()), language, created);
      ShowEffects(old(Current()), language, created);
    }

    method HideIndicatorWithAnimation()
      modifies this
      ensures Current() == HideWithAnimation(old(Current()))
    {
      if indicatorWindow.None? {
        return;
      }
      fading := fading + {Fade(tokens, indicatorWindow.value)};
      tokens := tokens + 1;
    }

    method HideIndicator()
      modifies this
      ensures Current() == Hide(old(Current()))
    {
      if fadeTimer.Some? {
        scheduled := scheduled - {fadeTimer.value};
      }
      fadeTimer := None;
      if indicatorWindow.Some? {
        onScreen := onScreen - {indicatorWindow.value};  // close
      }
      indicatorWindow := None;
    }

    /** The run loop fires `t`; the timer's block calls hideIndicatorWithAnimation. */
    method TimerFired(t: Timer)
      requires Valid()
      modifies this
      ensures Valid()
      ensures Current() == Fire(old(Current()), t)
    {
      if t in scheduled {
        scheduled := scheduled - {t};
        HideIndicatorWithAnimation();
      }
      FireEffects(old(Current()), t);
    }

    /** Fade `f` completes; its block calls hideIndicator. */
    method FadeCompleted(f: Fade)
      requires Valid()
      modifies this
      ensures Valid()
      ensures Current() == Complete(old(Current()), f)
    {
      if f in fading {
        fading := fading - {f};
        HideIndicator();
      }
    }
  }
}
