/** The command-line variant (main.swift): a background object that, when an
    application is activated and the focused element is a text input, shows a
    small window with the input-language label near the pointer and hides it
    1.5 s later.

    The Accessibility and Text Input Sources queries are not called: their
    results are parameters. Whether AppKit manages to create a window is a
    parameter too. The platform's side of the state (which windows are on
    screen, which timers the run loop will fire, and a counter for fresh
    tokens) is kept beside the source's three fields. */
module MainIndicator {
  import opened Ui
  import Strings

  // ---------------------------------------------------------------------------
  // Language label (main.swift, getLanguageDisplayText)

  /** Fragments whose presence in an input-source id marks a Korean layout. */
  const KoreanIdentifiers: seq<string> :=
    ["Korean", "2SetKorean", "HangulRoman", "com.apple.inputmethod.Korean"]

  const KoreanLabel: string := "한"
  const OtherLabel: string := "A"

  /** The label shown for input source `source`. */
  function DisplayText(source: string): (r: string)
    ensures r == KoreanLabel || r == OtherLabel
    ensures r == KoreanLabel <==>
              exists k :: 0 <= k < |KoreanIdentifiers| && Strings.Contains(source, KoreanIdentifiers[k])
  {
    if Strings.ContainsAny(source, KoreanIdentifiers) then KoreanLabel else OtherLabel
  }

  /** The label is Korean exactly when one of the four fragments occurs in the id. */
  lemma DisplayTextFragments(source: string)
    ensures DisplayText(source) == KoreanLabel <==>
              Strings.Contains(source, "Korean") || Strings.Contains(source, "2SetKorean") ||
              Strings.Contains(source, "HangulRoman") ||
              Strings.Contains(source, "com.apple.inputmethod.Korean")
  {
    assert KoreanIdentifiers[0] == "Korean";
    assert KoreanIdentifiers[1] == "2SetKorean";
    assert KoreanIdentifiers[2] == "HangulRoman";
    assert KoreanIdentifiers[3] == "com.apple.inputmethod.Korean";
  }

  /** Two of the four fragments contain "Korean", so only "Korean" and
      "HangulRoman" decide the label. */
  lemma DisplayTextKoreanOrHangulRoman(source: string)
    ensures DisplayText(source) == KoreanLabel <==>
              Strings.Contains(source, "Korean") || Strings.Contains(source, "HangulRoman")
  {
    DisplayTextFragments(source);
    assert Strings.OccursAt("2SetKorean", "Korean", 4);
    assert Strings.OccursAt("com.apple.inputmethod.Korean", "Korean", 22);
    if Strings.Contains(source, "2SetKorean") {
      Strings.ContainsTransitive(source, "2SetKorean", "Korean");
    }
    if Strings.Contains(source, "com.apple.inputmethod.Korean") {
      Strings.ContainsTransitive(source, "com.apple.inputmethod.Korean", "Korean");
    }
  }

  // ---------------------------------------------------------------------------
  // Text-role classification (main.swift, isTextInputElement)

  /** Accessibility roles that count as text input. */
  const TextRoles: seq<string> := ["AXTextField", "AXTextArea", "AXComboBox"]

  /** `role` is the result of reading the element's role attribute: None when
      the query fails or the value is not a string. */
  function IsTextInputElement(role: Option<string>): (b: bool)
    ensures b <==> role == Some("AXTextField") || role == Some("AXTextArea") || role == Some("AXComboBox")
  {
    match role
    case None => false
    case Some(r) => r in TextRoles
  }

  /** A focused element, seen through its role attribute. */
  datatype Element = Element(role: Option<string>)

  /** Outcome of the two Text Input Sources calls: no current source, a
      source without an id property, or the id. */
  datatype SourceQuery = NoInputSource | NoSourceId | SourceId(id: string)

  // ---------------------------------------------------------------------------
  // State and transitions

  /** Fields of `LanguageIndicator` and the platform's side of them. */
  datatype State = State(
    source: string,          // currentInputSource
    window: Option<Window>,  // indicatorWindow
    timer: Option<Timer>,    // fadeTimer
    onScreen: set<Window>,   // windows ordered front and not yet ordered out
    scheduled: set<Timer>,   // timers the run loop will still fire
    next: nat)               // id of the next token to be created

  /** Every window on screen is the indicator window and every scheduled timer
      is the fade timer; all tokens are older than `next`. */
  ghost predicate Inv(s: State) {
    s.onScreen == Elems(s.window) &&
    s.scheduled == Elems(s.timer) &&
    (s.window.Some? ==> s.window.value.id < s.next) &&
    (s.timer.Some? ==> s.timer.value.id < s.next && s.timer.value.millis == AutoHideMillis)
  }

  const Empty: State := State("", None, None, {}, {}, 0)

  /** updateCurrentInputSource: a missing source or id leaves the cache alone;
      an id replaces it. Nothing but the cache changes. */
  function UpdateSource(s: State, q: SourceQuery): (r: State)
    ensures q.SourceId? ==> r.source == q.id
    ensures !q.SourceId? ==> r == s
    ensures r == s.(source := r.source)
  {
    if q.SourceId? && q.id != s.source then s.(source := q.id) else s
  }

  /** hideIndicator: invalidate and drop the timer, order out and drop the
      window. Afterwards nothing is on screen or armed. */
  function Hide(s: State): (r: State)
    ensures r.window == None && r.timer == None
    ensures r.source == s.source && r.next == s.next
    ensures Inv(s) ==> Inv(r) && r.onScreen == {} && r.scheduled == {}
  {
    s.(timer := None, scheduled := Invalidate(s.scheduled, s.timer),
       window := None, onScreen := s.onScreen - Elems(s.window))
  }

  /** createIndicatorWindow: `created` tells whether AppKit produced a window;
      a produced window is fresh, shows `text` and is ordered front. */
  function CreateWindow(s: State, text: string, created: bool): (r: State)
    ensures r.window.Some? <==> created
    ensures created ==> r.window.value.text == text && r.window.value.id >= s.next &&
                        r.onScreen == s.onScreen + {r.window.value}
    ensures !created ==> r.onScreen == s.onScreen
    ensures r.timer == s.timer && r.scheduled == s.scheduled && r.next >= s.next
  {
    if created then
      var w := Window(s.next, text);
      s.(window := Some(w), onScreen := s.onScreen + {w}, next := s.next + 1)
    else
      s.(window := None)
  }

  /** scheduleAutoHide: invalidate the old timer, arm a fresh 1.5 s one. */
  function ScheduleTimer(s: State): (r: State)
    ensures r.timer.Some? && r.timer.value.millis == AutoHideMillis && r.timer.value.id >= s.next
    ensures r.timer.value in r.scheduled
    ensures s.timer.Some? && s.timer.value.id < s.next ==> s.timer.value !in r.scheduled
    ensures r.window == s.window && r.onScreen == s.onScreen && r.next > s.next
  {
    var t := Timer(s.next, AutoHideMillis);
    s.(timer := Some(t), scheduled := Invalidate(s.scheduled, s.timer) + {t}, next := s.next + 1)
  }

  /** showIndicator: hide, create the window, schedule the auto-hide. */
  function Show(s: State, text: string, created: bool): (r: State)
    ensures r.timer.Some? && r.timer.value.millis == AutoHideMillis
    ensures created <==> r.window.Some?
    ensures created ==> r.window.value.text == text
    ensures Inv(s) ==> r.scheduled == {r.timer.value} && r.onScreen == Elems(r.window)
  {
    var h := Hide(s);
    var c := CreateWindow(h, text, created);
    assert Inv(s) ==> c.timer == None && c.scheduled == {} && c.onScreen == Elems(c.window);
    ScheduleTimer(c)
  }

  /** checkForTextFieldFocus: `focus` is None when the focused-element query
      fails. Only a focused text input shows the indicator, with the label of
      the cached input source. */
  function CheckFocus(s: State, focus: Option<Element>, created: bool): (r: State)
    ensures !(focus.Some? && IsTextInputElement(focus.value.role)) ==> r == s
    ensures focus.Some? && IsTextInputElement(focus.value.role) ==>
              r.timer.Some? && (created ==> r.window.Some? && r.window.value.text == DisplayText(s.source))
  {
    if focus.Some? && IsTextInputElement(focus.value.role) then
      Show(s, DisplayText(s.source), created)
    else
      s
  }

  /** The run loop fires `t`: only a scheduled timer fires, once, and its block
      calls hideIndicator. */
  function Fire(s: State, t: Timer): (r: State)
    ensures t !in s.scheduled ==> r == s
    ensures t in s.scheduled ==> r.window == None && r.timer == None && t !in r.scheduled
  {
    if t in s.scheduled then Hide(s.(scheduled := s.scheduled - {t})) else s
  }

  /** deinit: invalidate and drop the timer, then hideIndicator. */
  function Teardown(s: State): (r: State)
    ensures r.window == None && r.timer == None
    ensures Inv(s) ==> r.onScreen == {} && r.scheduled == {}
  {
    Hide(s.(timer := None, scheduled := Invalidate(s.scheduled, s.timer)))
  }

  /** Events the environment delivers after initialisation. */
  datatype Event =
    | Activated(focus: Option<Element>, created: bool)  // applicationDidActivate, after its 0.2 s delay
    | Fired(timer: Timer)

  function Step(s: State, e: Event): State {
    match e
    case Activated(focus, created) => CheckFocus(s, focus, created)
    case Fired(t) => Fire(s, t)
  }

  function Run(s: State, events: seq<Event>): State
    decreases |events|
  {
    if events == [] then s else Run(Step(s, events[0]), events[1..])
  }

  // ---------------------------------------------------------------------------
  // Properties

  /** The input-source cache: a successful query overwrites it (to the same
      value when unchanged), a failed one leaves it; nothing else changes. */
  lemma UpdateSourceCache(s: State, q: SourceQuery)
    ensures UpdateSource(s, q) == (if q.SourceId? then s.(source := q.id) else s)
    ensures UpdateSource(UpdateSource(s, q), q) == UpdateSource(s, q)
  {
  }

  /** Tokens never get younger. */
  lemma StepAdvancesTokens(s: State, e: Event)
    ensures Step(s, e).next >= s.next
  {
  }

  /** hideIndicator leaves nothing shown and nothing armed, and calling it
      again changes nothing. */
  lemma HideClears(s: State)
    requires Inv(s)
    ensures var h := Hide(s);
      Inv(h) && h.window == None && h.timer == None && h.onScreen == {} && h.scheduled == {} &&
      Hide(h) == h
  {
  }

  /** After showIndicator the earlier window is gone and its timer cannot
      fire; at most one window is on screen, and exactly one fresh 1.5 s
      timer is armed whether or not the window was created. */
  lemma ShowEffects(s: State, text: string, created: bool)
    requires Inv(s)
    ensures var r := Show(s, text, created);
      Inv(r) &&
      (s.window.Some? ==> s.window.value !in r.onScreen) &&
      (s.timer.Some? ==> s.timer.value !in r.scheduled) &&
      |r.onScreen| <= 1 &&
      (created <==> r.window.Some?) &&
      (created ==> r.window.value.text == text && r.window.value.id >= s.next) &&
      r.timer.Some? && r.timer.value.millis == AutoHideMillis && r.timer.value.id >= s.next &&
      r.scheduled == {r.timer.value}
  {
  }

  /** scheduleAutoHide leaves exactly one armed timer, a fresh one. */
  lemma ScheduleTimerReplaces(s: State)
    requires Inv(s)
    ensures var r := ScheduleTimer(s);
      r.timer.Some? && r.scheduled == {r.timer.value} &&
      (s.timer.Some? ==> s.timer.value !in r.scheduled) &&
      r.timer.value.millis == AutoHideMillis
  {
  }

  /** checkForTextFieldFocus shows the current label exactly when the focus
      query succeeds with an allowed role; otherwise nothing changes. */
  lemma CheckFocusDecision(s: State, focus: Option<Element>, created: bool)
    requires Inv(s)
    ensures var r := CheckFocus(s, focus, created);
      Inv(r) &&
      (if focus.Some? && focus.value.role.Some? && focus.value.role.value in TextRoles then
         r.timer.Some? && r.scheduled == {r.timer.value} &&
         (created ==> r.window == Some(Window(s.next, DisplayText(s.source))))
       else r == s)
  {
    if focus.Some? && IsTextInputElement(focus.value.role) {
      ShowEffects(s, DisplayText(s.source), created);
    }
  }

  /** A timer firing hides the indicator; a timer that is not scheduled does nothing. */
  lemma FireEffects(s: State, t: Timer)
    requires Inv(s)
    ensures Inv(Fire(s, t))
    ensures t in s.scheduled ==> Fire(s, t).window == None && Fire(s, t).onScreen == {} && Fire(s, t).scheduled == {}
    ensures t !in s.scheduled ==> Fire(s, t) == s
  {
  }

  lemma StepKeepsInv(s: State, e: Event)
    requires Inv(s)
    ensures Inv(Step(s, e))
  {
    match e
    case Activated(focus, created) => CheckFocusDecision(s, focus, created);
    case Fired(t) => FireEffects(s, t);
  }

  /** At most one window and at most one armed timer, after any events. */
  lemma {:induction false} RunKeepsInv(s: State, events: seq<Event>)
    requires Inv(s)
    ensures Inv(Run(s, events))
    ensures |Run(s, events).onScreen| <= 1 && |Run(s, events).scheduled| <= 1
    decreases |events|
  {
    if events != [] {
      StepKeepsInv(s, events[0]);
      RunKeepsInv(Step(s, events[0]), events[1..]);
    }
  }

  /** A timer that is no longer scheduled never is again, so it never fires:
      a superseded or already fired timer has no effect after any events. */
  lemma {:induction false} SupersededTimerNeverFires(s: State, events: seq<Event>, t: Timer)
    requires Inv(s) && t.id < s.next && t !in s.scheduled
    ensures t !in Run(s, events).scheduled
    ensures Fire(Run(s, events), t) == Run(s, events)
    decreases |events|
  {
    if events != [] {
      var s' := Step(s, events[0]);
      StepKeepsInv(s, events[0]);
      StepAdvancesTokens(s, events[0]);
      SupersededTimerNeverFires(s', events[1..], t);
    }
  }

  /** deinit ends with nothing shown and nothing armed; it has the same
      effect as hideIndicator alone. */
  lemma TeardownClears(s: State)
    requires Inv(s)
    ensures Teardown(s) == Hide(s)
    ensures Teardown(s).window == None && Teardown(s).timer == None
    ensures Teardown(s).onScreen == {} && Teardown(s).scheduled == {}
  {
  }

  /** Initialisation: the only query made is the input source. */
  function Initial(q: SourceQuery): (s: State)
    ensures Inv(s)
  {
    UpdateSource(Empty, q)
  }

  // ---------------------------------------------------------------------------
  // The object

  class LanguageIndicator {
    var currentInputSource: string
    var indicatorWindow: Option<Window>
    var fadeTimer: Option<Timer>
    // The platform's side, not fields of the Swift object: the windows on
    // screen (ghost, observed only by the proofs), the timers the run loop
    // will still fire (it decides which timer blocks run), and the counter
    // that makes each new window or timer distinct.
    ghost var onScreen: set<Window>
    var scheduled: set<Timer>
    var tokens: nat

    ghost function Current(): State
      reads this
    {
      State(currentInputSource, indicatorWindow, fadeTimer, onScreen, scheduled, tokens)
    }

    ghost predicate Valid()
      reads this
    {
      Inv(Current())
    }

    /** init: empty state, then one input-source query. */
    constructor (q: SourceQuery)
      ensures Valid() && Current() == Initial(q)
    {
      currentInputSource := "";
      indicatorWindow := None;
      fadeTimer := None;
      onScreen := {};
      scheduled := {};
      tokens := 0;
      new;
      UpdateCurrentInputSource(q);
    }

    method UpdateCurrentInputSource(q: SourceQuery)
      modifies this
      ensures Current() == UpdateSource(old(Current()), q)
    {
      match q
      case NoInputSource => return;
      case NoSourceId => return;
      case SourceId(id) =>
        if id != currentInputSource {
          currentInputSource := id;
        }
    }

    method CheckForTextFieldFocus(focus: Option<Element>, created: bool)
      requires Valid()
      modifies this
      ensures Valid()
      ensures Current() == CheckFocus(old(Current()), focus, created)
    {
      if focus.Some? {
        if IsTextInputElement(focus.value.role) {
          ShowLanguageIndicator(created);
        }
      }
      CheckFocusDecision(old(Current()), focus, created);
    }

    method ShowLanguageIndicator(created: bool)
      modifies this
      ensures Current() == Show(old(Current()), DisplayText(old(currentInputSource)), created)
    {
      var language := DisplayText(currentInputSource);
      ShowIndicator(language, created);
    }

    method ShowIndicator(language: string, created: bool)
      modifies this
      ensures Current() == Show(old(Current()), language, created)
    {
      HideIndicator();
      CreateIndicatorWindow(language, created);
      ScheduleAutoHide();
    }

    method CreateIndicatorWindow(language: string, created: bool)
      modifies this
      ensures Current() == CreateWindow(old(Current()), language, created)
    {
      if created {
        indicatorWindow := Some(Window(tokens, language));
        tokens := tokens + 1;
      } else {
        indicatorWindow := None;
      }
      if indicatorWindow.None? {
        return;
      }
      onScreen := onScreen + {indicatorWindow.value};  // orderFront
    }

    method ScheduleAutoHide()
      modifies this
      ensures Current() == ScheduleTimer(old(Current()))
    {
      if fadeTimer.Some? {
        scheduled := scheduled - {fadeTimer.value};
      }
      var t := Timer(tokens, AutoHideMillis);
      tokens := tokens + 1;
      scheduled := scheduled + {t};
      fadeTimer := Some(t);
    }

    method HideIndicator()
      modifies this
      ensures Current() == Hide(old(Current()))
    {
      if fadeTimer.Some? {
        scheduled := scheduled - {fadeTimer.value};
      }
      fadeTimer := None;
      if indicatorWindow.Some? {
        onScreen := onScreen - {indicatorWindow.value};  // orderOut
      }
      indicatorWindow := None;
    }

    /** The run loop fires `t`; the timer's block calls hideIndicator. */
    method TimerFired(t: Timer)
      requires Valid()
      modifies this
      ensures Valid()
      ensures Current() == Fire(old(Current()), t)
    {
      if t in scheduled {
        scheduled := scheduled - {t};
        HideIndicator();
      }
      FireEffects(old(Current()), t);
    }

    /** deinit */
    method Deinit()
      requires Valid()
      modifies this
      ensures Valid()
      ensures Current() == Teardown(old(Current()))
      ensures indicatorWindow == None && fadeTimer == None && onScreen == {} && scheduled == {}
    {
      if fadeTimer.Some? {
        scheduled := scheduled - {fadeTimer.value};
      }
      fadeTimer := None;
      HideIndicator();
      TeardownClears(old(Current()));
    }
  }
}
