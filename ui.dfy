/** Abstract stand-ins for the platform objects the indicator owns: Swift
    optionals, windows and one-shot timers. A window or a timer is a token;
    its `id` tells apart tokens created at different moments, so a freshly
    created one never equals one that existed before. */
module Ui {

  /** A Swift optional. */
  datatype Option<T> = None | Some(value: T)

  /** Interval of the auto-hide timer in milliseconds (1.5 s in both variants). */
  const AutoHideMillis: nat := 1500

  /** A borderless indicator window showing `text`. */
  datatype Window = Window(id: nat, text: string)

  /** A non-repeating timer scheduled on the main run loop. */
  datatype Timer = Timer(id: nat, millis: nat)

  /** The objects an optional field refers to: none or exactly one. */
  function Elems<T(==)>(o: Option<T>): (r: set<T>)
    ensures |r| <= 1
    ensures o.Some? ==> o.value in r
    ensures o.None? ==> r == {}
  {
    if o.Some? then {o.value} else {}
  }

  /** The run loop's scheduled timers after `timer?.invalidate()`. */
  function Invalidate(scheduled: set<Timer>, timer: Option<Timer>): (r: set<Timer>)
    ensures r <= scheduled
    ensures timer.Some? ==> timer.value !in r
    ensures forall t :: t in scheduled && timer != Some(t) ==> t in r
  {
    scheduled - Elems(timer)
  }
}
