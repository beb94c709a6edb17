/** A clock that is read by some events of a history, and never goes back. */
module Clock {
  import opened Wrappers

  /** The readings in the history do not decrease, and `now` is no earlier than the last. */
  predicate ClockBy<E>(h: seq<E>, reading: E -> Option<int>, now: int) {
    h == [] ||
    (var at := reading(h[|h| - 1]);
     if at.Some? then at.value <= now && ClockBy(h[..|h| - 1], reading, at.value) else ClockBy(h[..|h| - 1], reading, now))
  }
}
