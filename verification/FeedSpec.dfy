/** What the feed does to one subscription, as functions on its value. */
module FeedSpec {
  import opened Basics

  type User = int
  type RunId = int

  /** A materialized run. `version` counts the commits that made it. */
  datatype Detail = Detail(id: RunId, owner: Option<User>, version: int, content: string)

  /** `scheduled` are wake-ups handed to the event loop that have not run yet. */
  datatype Sub = Sub(user: User, pending: map<RunId, Detail>, error: Option<string>, changed: bool, scheduled: int)

  const UNAVAILABLE := "unavailable"
  const RESYNC := "resync_required"

  function Opened(user: User): Sub { Sub(user, map[], None, false, 0) }

  /** `_fail`: the first error sticks, drops what was pending and wakes the stream. */
  function Fail(s: Sub, code: string): Sub {
    if s.error.None? then s.(error := Some(code), pending := map[], scheduled := s.scheduled + 1) else s
  }

  /** The part of `_deliver` that concerns one subscription. */
  function DeliverTo(s: Sub, run: Detail, limit: int): Sub {
    if s.error.Some? || run.owner != Some(s.user) then s
    else if run.id !in s.pending && |s.pending| >= limit then Fail(s, RESYNC)
    else s.(pending := s.pending[run.id := run],
            scheduled := if s.pending == map[] then s.scheduled + 1 else s.scheduled)
  }

  /** The part of `_resync` that concerns one subscription. */
  function ResyncTo(s: Sub, owner: Option<User>): Sub {
    if owner.None? || owner == Some(s.user) then Fail(s, RESYNC) else s
  }

  function Drained(s: Sub): Sub { s.(changed := false, pending := map[]) }

  /** The event loop runs one scheduled wake-up. */
  function Woken(s: Sub): Sub { s.(changed := true, scheduled := s.scheduled - 1) }

  /** One entry of the listener's dictionary: a known owner is kept when a later notification names none. */
  function Noted<K(==), V>(changes: map<K, Option<V>>, run: K, owner: Option<V>): map<K, Option<V>> {
    changes[run := if owner.Some? then owner else if run in changes then changes[run] else None]
  }

  /** The stream will look again: its event is set or is about to be. */
  predicate WillWake(s: Sub) { s.changed || s.scheduled > 0 }
}
