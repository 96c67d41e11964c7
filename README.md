# Language indicator: a Dafny model

A macOS utility shows a small badge with the active keyboard language ("한"
for a Korean input source, "A" otherwise) near the pointer. The repository
has two variants, and this project models the logic of both:

- `main.swift`: a command-line agent. When an application is activated and
  the focused element has a text role, it shows the badge window and arms a
  1.5 s one-shot timer that hides it.
- `LanguageIndicator/AppDelegate.swift` with
  `LanguageIndicator/LanguageIndicatorView.swift`: a status-bar app. On every
  input-source change it updates its cached id and the status-bar title and,
  while enabled, shows the badge. The view arms a 1.5 s timer whose firing
  starts a fade-out; the fade's completion hides the indicator.

Modules:

- `Ui` (`ui.dfy`): optionals, window and timer tokens, and the 1.5 s interval.
- `Strings` (`strings.dfy`): substring search, the meaning of Swift's
  `String.contains` on identifiers, proved equal to "occurs at some index" and
  transitive.
- `MainIndicator` (`main_indicator.dfy`): the label rule, the role allow-list,
  a value-level `State` with one transition function per Swift method, the
  properties as lemmas, and the class `LanguageIndicator` whose methods update
  the source's fields step by step and are proved equal to those transitions.
- `IndicatorView` (`indicator_view.dfy`): the same for `LanguageIndicatorView`,
  with timer firing and fade completion as events.
- `App` (`app_delegate.dfy`): the three-fragment label rule, its agreement with
  the four-fragment rule, the input-source cache, the enable toggle and its
  menu title, and the class `AppDelegate`.

Windows, timers and fade animations are tokens with an id taken from a counter,
so a newly created one differs from every earlier one. Each class keeps the
source's fields plus the platform's side: the windows on screen, the timers the
run loop will still fire, and (for the view) the fade animations whose
completion is still due. The run loop fires only a scheduled timer, once. The
invariant `Inv` says every window on screen is the indicator window and every
armed timer is the fade timer. So at most one window and one armed timer exist.

There is no cooldown, no debouncing and no element-identity
tracking. The role allow-list holds only AXTextField, AXTextArea and AXComboBox,
with no static-text or secure-field roles. In `main.swift`, input-source
monitoring is commented out, so the cache is filled only at initialisation. In
the view, the fade completion hides whatever indicator is current, not the one
it was started for. `IndicatorView.StaleFadeClosesNewerWindow` shows a
reachable trace where it closes a newer window and cancels its timer.

## Model

| member | source | states |
|---|---|---|
| Strings.Contains | main.swift:123 | substring test: true exactly when the fragment occurs at some index of the identifier |
| Strings.ContainsTransitive | LanguageIndicator/AppDelegate.swift:84-86 | a substring of a substring is a substring (why "2SetKorean" implies "Korean") |
| Strings.ContainsAny | main.swift:122-123 | the fragment-list test is true exactly when some fragment of the list occurs in the identifier |
| MainIndicator.DisplayText | main.swift:120-125 | the label is "한" or "A", and "한" exactly when one of the four Korean fragments occurs in the id |
| MainIndicator.DisplayTextFragments | main.swift:120-125 | "한" exactly when "Korean", "2SetKorean", "HangulRoman" or "com.apple.inputmethod.Korean" occurs |
| MainIndicator.DisplayTextKoreanOrHangulRoman | main.swift:122-124 | only "Korean" and "HangulRoman" decide the label, the other two fragments contain "Korean" |
| MainIndicator.IsTextInputElement | main.swift:88-98 | true exactly when the role query succeeds with AXTextField, AXTextArea or AXComboBox; a failed query gives false |
| MainIndicator.UpdateSource | main.swift:102-118 | a source id replaces the cached id; a missing source or id changes nothing; no other field changes |
| MainIndicator.Hide | main.swift:223-236 | no window and no timer afterwards; from a valid state, nothing on screen or armed and the invariant kept |
| MainIndicator.CreateWindow | main.swift:142-168 | a window exists exactly when creation succeeded; it is fresh, shows the text and is ordered front; the timer is untouched |
| MainIndicator.ScheduleTimer | main.swift:216-221 | a fresh 1.5 s timer is armed and the earlier one is no longer scheduled; the window is untouched |
| MainIndicator.Show | main.swift:136-140 | a 1.5 s timer is always armed; a window showing the text exists exactly when creation succeeded; from a valid state only these two are on screen and armed |
| MainIndicator.CheckFocus | main.swift:72-86 | without a focused text input nothing changes; with one a timer is armed and a created window shows the label of the cached id |
| MainIndicator.Fire | main.swift:218-220 | an unscheduled timer changes nothing; a scheduled one leaves no window, no timer and is no longer scheduled |
| MainIndicator.Teardown | main.swift:240-252 | no window and no timer afterwards; from a valid state nothing on screen or armed |
| MainIndicator.UpdateSourceCache | main.swift:102-118 | a missing source or id leaves the cache; an id overwrites it; repeating the update changes nothing |
| MainIndicator.HideClears | main.swift:223-236 | hideIndicator keeps the invariant, leaves no window, no timer, nothing on screen or armed, and is idempotent |
| MainIndicator.ShowEffects | main.swift:136-161 | after showIndicator the earlier window is gone and its timer disarmed, at most one window exists, and exactly one fresh 1.5 s timer is armed even when window creation failed |
| MainIndicator.ScheduleTimerReplaces | main.swift:216-221 | scheduleAutoHide invalidates the earlier timer and leaves exactly one armed 1.5 s timer |
| MainIndicator.CheckFocusDecision | main.swift:72-86 | the indicator with the current label is shown exactly when the focus query succeeds with an allowed role; otherwise nothing changes |
| MainIndicator.FireEffects | main.swift:218-220 | a scheduled timer firing hides the indicator; an unscheduled one does nothing |
| MainIndicator.RunKeepsInv | main.swift:136-236 | after any sequence of activations and timer firings at most one window and one armed timer exist |
| MainIndicator.SupersededTimerNeverFires | main.swift:216-221 | a timer no longer scheduled is never scheduled again, so its firing has no effect after any events |
| MainIndicator.TeardownClears | main.swift:240-252 | deinit ends with no window and no timer, the same as hideIndicator alone |
| MainIndicator.Initial | main.swift:18-27 | the initial state keeps the invariant |
| MainIndicator.LanguageIndicator.constructor | main.swift:23-27 | init starts empty and queries the input source once |
| MainIndicator.LanguageIndicator.UpdateCurrentInputSource | main.swift:102-118 | the fields change as the cache rule says |
| MainIndicator.LanguageIndicator.CheckForTextFieldFocus | main.swift:72-86 | keeps the invariant; new state is the focus decision of the old one |
| MainIndicator.LanguageIndicator.ShowLanguageIndicator | main.swift:127-132 | shows the indicator with the label of the cached id |
| MainIndicator.LanguageIndicator.ShowIndicator | main.swift:136-140 | hide, create window, schedule auto-hide, in that order |
| MainIndicator.LanguageIndicator.CreateIndicatorWindow | main.swift:142-168 | a created window becomes the indicator window and is ordered front; a failed one leaves the field nil |
| MainIndicator.LanguageIndicator.ScheduleAutoHide | main.swift:216-221 | invalidates the old timer and arms a fresh 1.5 s one |
| MainIndicator.LanguageIndicator.HideIndicator | main.swift:223-236 | invalidates and clears the timer, orders out and clears the window |
| MainIndicator.LanguageIndicator.TimerFired | main.swift:218-220 | keeps the invariant; only a scheduled timer fires, and it hides the indicator |
| MainIndicator.LanguageIndicator.Deinit | main.swift:240-252 | keeps the invariant and leaves no window, no timer, nothing on screen or armed |
| IndicatorView.Hide | LanguageIndicator/LanguageIndicatorView.swift:103-109 | no window and no timer afterwards, running fades kept; from a valid state nothing on screen or armed |
| IndicatorView.Show | LanguageIndicator/LanguageIndicatorView.swift:24-90 | a window and a timer exist exactly when creation succeeded; both are fresh, the window shows the text, the timer is 1.5 s; from a valid state only these are on screen and armed |
| IndicatorView.HideWithAnimation | LanguageIndicator/LanguageIndicatorView.swift:92-101 | without a window nothing changes; with one a fade of that window is started; window and timer untouched |
| IndicatorView.Fire | LanguageIndicator/LanguageIndicatorView.swift:87-89 | an unscheduled timer changes nothing; a scheduled one is no longer scheduled and the window stays on screen |
| IndicatorView.Complete | LanguageIndicator/LanguageIndicatorView.swift:98-100 | a completion not due changes nothing; a due one is consumed and leaves no window and no timer |
| IndicatorView.InitialInv | LanguageIndicator/LanguageIndicatorView.swift:5-6 | the empty view keeps the invariant |
| IndicatorView.HideClears | LanguageIndicator/LanguageIndicatorView.swift:103-109 | hideIndicator leaves no window and no timer, keeps running fades, and is idempotent |
| IndicatorView.ShowEffects | LanguageIndicator/LanguageIndicatorView.swift:24-90 | the earlier window is closed and its timer invalidated first; with a window exactly one fresh 1.5 s timer is armed, without one none |
| IndicatorView.HideWithAnimationEffects | LanguageIndicator/LanguageIndicatorView.swift:92-101 | does nothing without a window; with one it starts one new fade of that window |
| IndicatorView.FireEffects | LanguageIndicator/LanguageIndicatorView.swift:87-89 | a scheduled timer starts the fade of the current window; an unscheduled one does nothing |
| IndicatorView.CompleteHidesCurrent | LanguageIndicator/LanguageIndicatorView.swift:95-100 | a due fade completion hides the current indicator, whatever window the fade was for |
| IndicatorView.RunKeepsInv | LanguageIndicator/LanguageIndicatorView.swift:24-109 | after any events at most one window is on screen and at most one timer armed |
| IndicatorView.SupersededTimerNeverFires | LanguageIndicator/LanguageIndicatorView.swift:103-105 | a timer invalidated by a later show (or already fired) is never scheduled again and never fires |
| IndicatorView.StaleFadeClosesNewerWindow | LanguageIndicator/LanguageIndicatorView.swift:92-109 | show, fire, show again, complete the first fade: the second window is closed and its timer cancelled |
| IndicatorView.LanguageIndicatorView.constructor | LanguageIndicator/LanguageIndicatorView.swift:8-11 | starts with no window, no timer, no fades |
| IndicatorView.LanguageIndicatorView.ShowIndicator | LanguageIndicator/LanguageIndicatorView.swift:24-90 | keeps the invariant; new state is the show transition |
| IndicatorView.LanguageIndicatorView.HideIndicatorWithAnimation | LanguageIndicator/LanguageIndicatorView.swift:92-101 | new state is the fade-start transition |
| IndicatorView.LanguageIndicatorView.HideIndicator | LanguageIndicator/LanguageIndicatorView.swift:103-109 | invalidates and clears the timer, closes and clears the window |
| IndicatorView.LanguageIndicatorView.TimerFired | LanguageIndicator/LanguageIndicatorView.swift:87-89 | keeps the invariant; only a scheduled timer fires, starting the fade |
| IndicatorView.LanguageIndicatorView.FadeCompleted | LanguageIndicator/LanguageIndicatorView.swift:98-100 | keeps the invariant; a due completion hides the current indicator |
| App.AppDisplayText | LanguageIndicator/AppDelegate.swift:82-91 | the label is "한" or "A" |
| App.DisplayTextsAgree | LanguageIndicator/AppDelegate.swift:82-91 | the three-fragment label equals the four-fragment label of main.swift for every id, and is "한" exactly when "Korean" or "HangulRoman" occurs |
| App.ToggleTitle | LanguageIndicator/AppDelegate.swift:97 | the toggle item reads "비활성화" exactly when enabled and "활성화" exactly when disabled |
| App.CachedSource | LanguageIndicator/AppDelegate.swift:68-80 | a present id becomes the cache; without one the cache is kept |
| App.ToggleTitleNamesAction | LanguageIndicator/AppDelegate.swift:97 | toggling changes the title of the toggle item |
| App.CachedSourceUpdate | LanguageIndicator/AppDelegate.swift:68-80 | a missing id leaves the cache; a present one overwrites it unconditionally; repeating changes nothing |
| App.AppDelegate.constructor | LanguageIndicator/AppDelegate.swift:9-33 | enabled at start, title "언어" until an id is read, then the id's label; a fresh empty indicator view |
| App.AppDelegate.UpdateCurrentInputSource | LanguageIndicator/AppDelegate.swift:68-80 | an id overwrites the cache and sets the title to its label; a missing id changes nothing |
| App.AppDelegate.GetLanguageDisplayText | LanguageIndicator/AppDelegate.swift:82-91 | the label is "한" or "A", and "한" exactly when "Korean" or "HangulRoman" occurs in the cached id |
| App.AppDelegate.InputSourceChanged | LanguageIndicator/AppDelegate.swift:58-66 | always refreshes cache and title; shows the indicator with the new label only while enabled, otherwise leaves the view untouched |
| App.AppDelegate.StatusBarButtonClicked | LanguageIndicator/AppDelegate.swift:93-111 | the toggle item title is "비활성화" exactly when enabled |
| App.AppDelegate.ToggleEnabled | LanguageIndicator/AppDelegate.swift:113-115 | negates isEnabled, so two toggles restore it |

## Left out

- Accessibility and Text Input Sources calls: their results are parameters (`Option<Element>`, a role `Option<string>`, `SourceQuery`, `Option<string>`). A role value that is not a string is the same as a failed query.
- `AppDelegate.updateCurrentInputSource` force-unwraps the current input source; a missing source (a crash in Swift) is not modelled. The status-bar button is assumed present.
- Window creation is the parameter `created`. Styling, layout, fonts, colours and the popup rectangle arithmetic (floating point) are left out. So is the fade-in animation, which has no completion block.
- Time: timer intervals are recorded (1500 ms) but not simulated. Timer firing and fade completion are events. The 0.2 s delay before the focus check in `main.swift` is folded into the `Activated` event.
- Notification-centre registration, SIGINT handling, `-d`/`--debug` parsing, `debugPrint`, the permission alert, the status-bar menu construction, `performClick` and `quitApp`.
- Strings.Contains: compares characters one by one; Swift's `String.contains` compares grapheme clusters with canonical equivalence. The fragments are ASCII, so the difference matters only for identifiers with combining marks.
