/**
 The sync clock: offline expiry judged by an offset captured from the Date header of each pull
 response, and the replicas' window bounds. Times are milliseconds; an unreadable date is None.
 */
module SyncClock {
  import opened Prelude

  const CODES_WINDOW_MS: int := 2 * 24 * 3600 * 1000

  datatype ClockState = ClockState(offsetMs: int, capturedAtDevice: Option<int>, capturedAtServer: Option<int>)

  function OffsetOf(state: Option<ClockState>): int {
    if state.Some? then state.value.offsetMs else 0
  }

  function NowAt(state: Option<ClockState>, device: int): int { device + OffsetOf(state) }

  /** The state after one response: a readable Date replaces the capture, anything else keeps it. */
  function Captured(state: Option<ClockState>, date: Option<int>, device: int): Option<ClockState> {
    if date.None? then state else Some(ClockState(date.value - device, Some(device), date))
  }

  predicate ExpiredAt(expiresAt: Option<int>, at: int) {
    expiresAt.None? || at >= expiresAt.value
  }

  class SyncClock {
    var state: Option<ClockState>
    var captures: nat

    /** `initial` is a persisted state; one without a finite offset is passed as None. */
    constructor (initial: Option<ClockState>)
      ensures state == initial && captures == 0
    {
      state, captures := initial, 0;
    }

    function Now(device: int): int
      reads this
    {
      NowAt(state, device)
    }

    /** Returns the new offset, or None when the response carries no readable Date. */
    method CaptureFromResponse(date: Option<int>, device: int) returns (offset: Option<int>)
      modifies this
      ensures state == Captured(old(state), date, device)
      ensures captures == old(captures) + if date.Some? then 1 else 0
      ensures offset == if date.Some? then Some(OffsetOf(state)) else None
    {
      if date.None? { return None; }
      state := Some(ClockState(date.value - device, Some(device), date));
      captures := captures + 1;
      offset := Some(date.value - device);
    }
  }

  // ----- the bound -----

  /** The Date header: server time with the milliseconds dropped. */
  function DateHeader(server: int): int { server - server % 1000 }

  /**
   One event in a device's life: a response stamped at true time `stamped` and read at `read`, one
   without a readable Date, or a reload that restores the persisted state.
   */
  datatype ClockEvent = Response(stamped: int, read: int) | Undated(read: int) | Reload

  function AfterEvent(state: Option<ClockState>, e: ClockEvent, skew: int): Option<ClockState> {
    match e
    case Response(stamped, read) => Captured(state, Some(DateHeader(stamped)), read + skew)
    case Undated(read) => Captured(state, None, read + skew)
    case Reload => state
  }

  function AfterEvents(state: Option<ClockState>, events: seq<ClockEvent>, skew: int): Option<ClockState>
    decreases |events|
  {
    if events == [] then state
    else AfterEvent(AfterEvents(state, events[..|events| - 1], skew), events[|events| - 1], skew)
  }

  predicate Prompt(e: ClockEvent, latency: int) {
    e.Response? ==> e.stamped <= e.read <= e.stamped + latency
  }

  /** The estimate lags true time by less than a second plus the response's latency, and never leads. */
  predicate Within(state: Option<ClockState>, skew: int, latency: int) {
    state.Some? && -1000 - latency < state.value.offsetMs + skew <= 0
  }

  /** Whatever the skew: once any response was dated, the estimate stays within the bound for good. */
  lemma {:induction false} EstimateBound(state: Option<ClockState>, events: seq<ClockEvent>, skew: int, latency: int)
    requires forall e :: e in events ==> Prompt(e, latency)
    requires Within(state, skew, latency) || exists i :: 0 <= i < |events| && events[i].Response?
    ensures Within(AfterEvents(state, events, skew), skew, latency)
    decreases |events|
  {
    if events != [] {
      var last := events[|events| - 1];
      assert last in events && Prompt(last, latency);
      if !last.Response? {
        var front := events[..|events| - 1];
        if !Within(state, skew, latency) {
          var i :| 0 <= i < |events| && events[i].Response?;
          assert front[i].Response?;
        }
        EstimateBound(state, front, skew, latency);
      }
    }
  }

  /** A live code is never judged expired; one dead for the bound or longer always is; an unreadable one always is. */
  lemma ExpiryJudgement(state: Option<ClockState>, events: seq<ClockEvent>, skew: int, latency: int, t: int,
                        expiresAt: Option<int>)
    requires forall e :: e in events ==> Prompt(e, latency)
    requires exists i :: 0 <= i < |events| && events[i].Response?
    ensures var judged := ExpiredAt(expiresAt, NowAt(AfterEvents(state, events, skew), t + skew));
            && (expiresAt.Some? && t < expiresAt.value ==> !judged)
            && (expiresAt.Some? && t >= expiresAt.value + 1000 + latency ==> judged)
            && (expiresAt.None? ==> judged)
  {
    EstimateBound(state, events, skew, latency);
  }

  /** Before any capture the device clock alone decides, and a rolled-back one resurrects a dead code. */
  lemma UncalibratedResurrects(t: int, expiresAt: int, skew: int)
    requires t >= expiresAt
    ensures !ExpiredAt(Some(expiresAt), NowAt(None, t + skew)) <==> skew < expiresAt - t
  {
  }

  // ----- the window bounds -----

  function CodesWindow(now: int): int { now - CODES_WINDOW_MS }

  function OffersWindow(now: int): int { now }

  /** Between two requests a window moves back by less than the bound, whatever was captured in between. */
  lemma WindowSlipsAtMost(before: Option<ClockState>, after: Option<ClockState>, skew: int, latency: int, t: int,
                          t': int)
    requires Within(before, skew, latency) && Within(after, skew, latency) && t <= t'
    ensures CodesWindow(NowAt(after, t' + skew)) > CodesWindow(NowAt(before, t + skew)) - 1000 - latency
  {
  }

  /** It can move back: a slow response after a fast one, for any skew. */
  lemma WindowSlips(skew: int)
    ensures var fast := AfterEvents(None, [Response(5000, 5000)], skew);
            var slow := AfterEvents(None, [Response(5000, 5000), Response(6000, 6900)], skew);
            CodesWindow(NowAt(slow, 6900 + skew)) < CodesWindow(NowAt(fast, 6899 + skew))
  {
    var e1, e2 := Response(5000, 5000), Response(6000, 6900);
    assert [e1][..0] == [] && [e1, e2][..1] == [e1];
    assert AfterEvents(None, [e1], skew) == AfterEvent(None, e1, skew);
    assert AfterEvents(None, [e1, e2], skew) == AfterEvent(AfterEvents(None, [e1], skew), e2, skew);
  }
}
