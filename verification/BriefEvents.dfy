/** The `brief_events` row and the three writers that change it: a schedule edit, a
    cancellation by a manager, and the worker's automatic cancellation.
    Instants are integers, in milliseconds. */
module BriefEvents {
  import opened Prelude

  datatype Status = Scheduled | Cancelled

  /** The distinct texts that `sync_error` joins; the empty set is SQL NULL. */
  datatype Pending =
    | Invitations | Zoom | Emails | InApp | Pushes | HostInvitations | HostAccount

  datatype Event = Event(
    status: Status,
    startAt: int,
    endAt: int,
    minutes: int,
    zoomHost: string,
    revision: nat,
    zoomSynced: nat,
    syncError: set<Pending>)

  /** What a caller asks for. `wellFormed` stands for the timestamp offset and the
      timezone name both being accepted by the platform's date library. */
  datatype Schedule = Schedule(startAt: int, minutes: int, wellFormed: bool)

  datatype Refusal = BadRequest | Conflict | Unavailable

  const MILLIS_PER_MINUTE := 60000
  const MILLIS_PER_DAY := 86400000

  ghost predicate ScheduleHolds(e: Event) {
    && 15 <= e.minutes <= 480
    && e.endAt == e.startAt + e.minutes * MILLIS_PER_MINUTE
  }

  function ValidateSchedule(s: Schedule, now: int): (r: Result<int, Refusal>)
    ensures r.Ok? <==> now < s.startAt && s.wellFormed && 15 <= s.minutes <= 480
    ensures r.Ok? ==> r.value == s.startAt + s.minutes * MILLIS_PER_MINUTE
    ensures r.Ok? ==> s.startAt + 900000 <= r.value <= s.startAt + 28800000
    ensures r.Err? ==> r.error == BadRequest
  {
    if s.startAt <= now || !s.wellFormed || s.minutes < 15 || 480 < s.minutes then Err(BadRequest)
    else Ok(s.startAt + s.minutes * MILLIS_PER_MINUTE)
  }

  function NewEvent(s: Schedule, endAt: int, zoomHost: string): Event {
    Event(Scheduled, s.startAt, endAt, s.minutes, zoomHost, 0, 0, {Invitations})
  }

  /** `hostFree` is the answer of the overlap query. */
  function Edited(e: Event, s: Schedule, now: int, hostFree: bool): (r: Result<Event, Refusal>)
    ensures r.Ok? <==> e.status == Scheduled && ValidateSchedule(s, now).Ok? && hostFree
    ensures r.Ok? ==> ScheduleHolds(r.value) && r.value.startAt == s.startAt && r.value.minutes == s.minutes
    ensures r.Ok? ==> now < r.value.startAt && r.value.revision == e.revision + 1 && r.value.status == Scheduled
    ensures r.Ok? ==> r.value.zoomHost == e.zoomHost && r.value.zoomSynced == e.zoomSynced && r.value.syncError == e.syncError
    ensures r.Err? ==> (r.error == Conflict <==> e.status == Scheduled && ValidateSchedule(s, now).Ok? && !hostFree)
    ensures r.Err? ==> r.error == BadRequest || r.error == Conflict
  {
    if e.status.Cancelled? then Err(BadRequest)
    else
      match ValidateSchedule(s, now)
      case Err(error) => Err(error)
      case Ok(endAt) =>
        if !hostFree then Err(Conflict)
        else Ok(e.(startAt := s.startAt, endAt := endAt, minutes := s.minutes, revision := e.revision + 1))
  }

  function CancelledBy(e: Event): (r: Event)
    ensures r.status == Cancelled
    ensures r.revision == if e.status == Cancelled then e.revision else e.revision + 1
    ensures r == e.(status := r.status, revision := r.revision)
  {
    if e.status.Cancelled? then e else e.(status := Cancelled, revision := e.revision + 1)
  }
}
