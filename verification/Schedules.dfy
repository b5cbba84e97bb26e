/** Counting in schedules of events. */
module Schedules {

  function Count<T(==)>(events: seq<T>, event: T): nat {
    if events == [] then 0 else (if events[0] == event then 1 else 0) + Count(events[1..], event)
  }
}
