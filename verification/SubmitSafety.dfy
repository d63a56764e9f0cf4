/**
 What every run of the submit machine keeps: override safety, one outcome per session, effect
 accounting, and the finish-first prompt.
 */
module SubmitSafety {
  import opened Prelude
  import opened SubmitMachine
  import opened SubmitTable
  import opened SubmitRun

  // ----- the session, told from the events alone -----

  /** What happened since the scan region last stood in idle. */
  datatype Session = Session(resolved: Option<(Kind, bool)>, refused: bool, writes: nat, redeemed: nat)

  const FRESH := Session(None, false, 0, 0)

  function Writes(fx: seq<Effect>): nat {
    if fx == [] then 0 else (if fx[0].WriteAttempt? then 1 else 0) + Writes(fx[1..])
  }

  function NextSession(before: ScanState, e: Event, after: ScanState, fx: seq<Effect>, session: Session): Session {
    if after == Idle then FRESH
    else Session(
           if e.kind == Resolved && before == Resolving && after != Resolving
           then Some((e.resolution, e.requiresOnline))
           else session.resolved,
           session.refused || (e.kind == Submit && before != BlockedOffline && after == BlockedOffline),
           session.writes + Writes(fx),
           session.redeemed + if before != Redeemed && e.kind == SrvRedeemed && after == Redeemed then 1 else 0)
  }

  function SessionOf(canOverride: bool, events: seq<Event>): Session
    decreases |events|
  {
    if events == [] then FRESH
    else
      var init, e := events[..|events| - 1], events[|events| - 1];
      NextSession(After(canOverride, init).scan, e, After(canOverride, events).scan,
                  LastEffects(canOverride, events), SessionOf(canOverride, init))
  }

  /** Where the session stands: the error card stands for the state it interrupted. */
  function Live(sc: ScanState, c: Ctx): Option<ScanState> {
    if sc == UnexpectedEvent then c.unexpectedReturn else Some(sc)
  }

  predicate BeforeResolution(l: ScanState) {
    l == Idle || l == Scanning || l == Resolving
  }

  predicate Sound(sc: ScanState, c: Ctx, session: Session) {
    && Live(sc, c).Some?
    && GateSane(c)
    && var l := Live(sc, c).value;
    && (c.overrideAvailable ==> c.canOverride && !c.requiresOnline && session.refused)
    && (l == OverrideConfirming ==> c.overrideAvailable)
    && (BeforeResolution(l) ==> !c.overrideAvailable && session == FRESH)
    && (!BeforeResolution(l) && l != UnexpectedEvent ==>
          c.resolutionKind.Some? && session.resolved == Some((c.resolutionKind.value, c.requiresOnline)))
    && (!BeforeResolution(l) && c.resolutionKind == Some(KExpiredLocally) ==>
          l == ExpiredLocally || l == UnexpectedEvent)
    && session.writes + session.redeemed <= 1
    && (session.writes == 1 ==> l == OverridePending || l == UnexpectedEvent)
    && (session.redeemed == 1 ==> l == Redeemed || l == UnexpectedEvent)
  }

  /** The scan region's half of a broadcast. */
  function Moved(sc: ScanState, c: Ctx, e: Event): (ScanState, Ctx) {
    var d := ScanDecision(sc, c, e);
    (Landing(Some(d), sc), Act(d.action, c, e))
  }

  function MovedSession(sc: ScanState, c: Ctx, e: Event, session: Session): Session {
    NextSession(sc, e, Moved(sc, c, e).0, Emit(ScanDecision(sc, c, e).action, c), session)
  }

  predicate SoundMove(sc: ScanState, c: Ctx, e: Event, session: Session) {
    Sound(Moved(sc, c, e).0, Moved(sc, c, e).1, MovedSession(sc, c, e, session))
  }

  lemma WritesOf(a: Action, c: Ctx)
    ensures Writes(Emit(a, c)) == if a.EmitAttempt? then 1 else 0
  {
  }

  lemma SoundIdle(sc: ScanState, c: Ctx, e: Event, session: Session)
    requires Sound(sc, c, session) && ScanDecision(sc, c, e) == Stay() && e.kind != Foreign
    ensures SoundMove(sc, c, e, session)
  {
  }

  lemma SoundOpening(sc: ScanState, c: Ctx, e: Event, session: Session)
    requires Sound(sc, c, session) && c.ov == NoPrompt && Reacts(sc, e.kind)
    requires e.kind == Scan || e.kind == QrDecoded || e.kind == Resolved || e.kind == OrderOk
    ensures SoundMove(sc, c, e, session)
  {
  }

  lemma SoundSubmit(sc: ScanState, c: Ctx, e: Event, session: Session)
    requires Sound(sc, c, session) && c.ov == NoPrompt && Reacts(sc, e.kind) && e.kind == Submit
    ensures SoundMove(sc, c, e, session)
  {
    WritesOf(ScanDecision(sc, c, e).action, c);
  }

  lemma SoundOverride(sc: ScanState, c: Ctx, e: Event, session: Session)
    requires Sound(sc, c, session) && c.ov == NoPrompt && Reacts(sc, e.kind)
    requires e.kind == OverrideRequest || e.kind == OverrideConfirm || e.kind == OverrideCancel
    ensures SoundMove(sc, c, e, session)
  {
    WritesOf(ScanDecision(sc, c, e).action, c);
  }

  lemma SoundVerdict(sc: ScanState, c: Ctx, e: Event, session: Session)
    requires Sound(sc, c, session) && c.ov == NoPrompt && sc == Submitting && Reacts(sc, e.kind)
    ensures SoundMove(sc, c, e, session)
  {
  }

  lemma SoundRetry(sc: ScanState, c: Ctx, e: Event, session: Session)
    requires Sound(sc, c, session) && e.kind == Retry && c.ov == NoPrompt && Reacts(sc, Retry)
    ensures SoundMove(sc, c, e, session)
  {
  }

  lemma SoundNext(sc: ScanState, c: Ctx, e: Event, session: Session)
    requires Sound(sc, c, session) && e.kind == NextCustomer && Reacts(sc, NextCustomer)
    ensures SoundMove(sc, c, e, session)
  {
  }

  lemma SoundResume(sc: ScanState, c: Ctx, e: Event, session: Session)
    requires Sound(sc, c, session) && e.kind == Resubscribed && Reacts(sc, Resubscribed)
    ensures SoundMove(sc, c, e, session)
  {
  }

  lemma SoundScan(sc: ScanState, c: Ctx, e: Event, session: Session)
    requires Sound(sc, c, session) && e.kind != Unexpected && e.kind != Foreign
    ensures SoundMove(sc, c, e, session)
  {
    if ScanDecision(sc, c, e) == Stay() {
      SoundIdle(sc, c, e, session);
    } else {
      match e.kind
      case Retry => SoundRetry(sc, c, e, session);
      case NextCustomer => SoundNext(sc, c, e, session);
      case Resubscribed => SoundResume(sc, c, e, session);
      case Submit => SoundSubmit(sc, c, e, session);
      case OverrideRequest => SoundOverride(sc, c, e, session);
      case OverrideConfirm => SoundOverride(sc, c, e, session);
      case OverrideCancel => SoundOverride(sc, c, e, session);
      case Scan => SoundOpening(sc, c, e, session);
      case QrDecoded => SoundOpening(sc, c, e, session);
      case Resolved => SoundOpening(sc, c, e, session);
      case OrderOk => SoundOpening(sc, c, e, session);
      case _ => SoundVerdict(sc, c, e, session);
    }
  }

  lemma SoundTrip(s: Snapshot, session: Session, e: Event)
    requires Mirrored(s) && Sound(s.scan, s.ctx, session) && e.kind == Foreign
    ensures Sound(Trip(s, e).scan, Trip(s, e).ctx, NextSession(s.scan, e, Trip(s, e).scan, [], session))
  {
  }

  lemma SoundMirrors(sc: ScanState, c: Ctx, session: Session, conn: Conn, ov: Overlay, mirror: ScanState)
    ensures Sound(sc, c.(conn := conn, ov := ov, sc := mirror), session) == Sound(sc, c, session)
  {
  }

  lemma SoundStep(s: Snapshot, session: Session, e: Event)
    requires Mirrored(s) && Sound(s.scan, s.ctx, session) && e.kind != Unexpected
    ensures var t := Advance(s, e);
            Sound(t.0.scan, t.0.ctx, NextSession(s.scan, e, t.0.scan, t.1, session))
  {
    if e.kind == Foreign {
      SoundTrip(s, session, e);
    } else {
      var t := Broadcast(s, e).0;
      SoundScan(s.scan, s.ctx, e, session);
      var m := Moved(s.scan, s.ctx, e);
      SoundMirrors(m.0, m.1, MovedSession(s.scan, s.ctx, e, session), t.connectivity, t.overlay, t.scan);
    }
  }

  lemma {:induction false} SoundRun(canOverride: bool, events: seq<Event>)
    requires External(events)
    ensures Sound(After(canOverride, events).scan, After(canOverride, events).ctx, SessionOf(canOverride, events))
    decreases |events|
  {
    if events != [] {
      var init, e := events[..|events| - 1], events[|events| - 1];
      assert External(init);
      SoundRun(canOverride, init);
      AfterMirrored(canOverride, init);
      SoundStep(After(canOverride, init), SessionOf(canOverride, init), e);
    }
  }

  /**
   Override safety, over every run, trips included: an offline attempt is written only by a crew
   member who holds the entitlement, for a session whose RESOLVED did not require the server and
   whose SUBMIT had been refused at the gate; it is flagged unverified exactly for unknown codes.
   */
  lemma OverrideSafety(canOverride: bool, events: seq<Event>, w: Effect)
    requires External(events) && events != [] && w in LastEffects(canOverride, events) && w.WriteAttempt?
    ensures var session := SessionOf(canOverride, events[..|events| - 1]);
            && canOverride && session.refused
            && session.resolved.Some? && !session.resolved.value.1
            && w == WriteAttempt(true, session.resolved.value.0 == KUnknownCode)
  {
    var init, e := events[..|events| - 1], events[|events| - 1];
    assert External(init);
    SoundRun(canOverride, init);
    AfterMirrored(canOverride, init);
    WriterStands(After(canOverride, init), e, w);
  }

  lemma WriterStands(s: Snapshot, e: Event, w: Effect)
    requires w in Advance(s, e).1 && w.WriteAttempt?
    ensures s.scan == OverrideConfirming && w == WriteAttempt(true, s.ctx.resolutionKind == Some(KUnknownCode))
  {
    assert ScanDecision(s.scan, s.ctx, e).action == EmitAttempt;
  }

  /** One session never both writes an offline attempt and is redeemed, and does neither twice. */
  lemma OneOutcomePerSession(canOverride: bool, events: seq<Event>)
    requires External(events)
    ensures var session := SessionOf(canOverride, events); session.writes + session.redeemed <= 1
  {
    SoundRun(canOverride, events);
  }

  // ----- the finish-first prompt -----

  /** The prompt is open only over an interruptible state with a session. */
  predicate PromptSane(s: Snapshot) {
    s.overlay == Prompt ==> Interruptible(s.scan) && s.ctx.sessionCode.Some?
  }

  lemma PromptSaneStep(s: Snapshot, e: Event)
    requires Mirrored(s) && PromptSane(s) && GateSane(s.ctx)
    ensures PromptSane(Advance(s, e).0)
  {
    var d := ScanDecision(s.scan, s.ctx, e);
    if e.kind != Foreign && Advance(s, e).0.overlay == Prompt {
      if s.overlay == Prompt {
        assert d == Stay() || e.kind == Resubscribed;
      } else {
        assert e.kind == QrDecoded && d == Stay();
      }
    }
  }

  lemma {:induction false} PromptSaneRun(canOverride: bool, events: seq<Event>)
    requires External(events)
    ensures PromptSane(After(canOverride, events))
    decreases |events|
  {
    if events != [] {
      var init, e := events[..|events| - 1], events[|events| - 1];
      assert External(init);
      PromptSaneRun(canOverride, init);
      SoundRun(canOverride, init);
      AfterMirrored(canOverride, init);
      PromptSaneStep(After(canOverride, init), e);
    }
  }

  /** The gate re-arms the submit control when the refetch completes, even under the prompt. */
  predicate Resumes(s: Snapshot, e: Event) {
    e.kind == Resubscribed && s.connectivity == Stale && s.scan == BlockedOffline && s.ctx.gateReturn.Some?
  }

  /** The context without the region mirrors. */
  function SessionPart(c: Ctx): Ctx {
    c.(conn := Online, ov := NoPrompt, sc := Idle)
  }

  /** Under the prompt one event changes the scan state only by the gate's resume, and the session not at all. */
  lemma PromptFreezes(s: Snapshot, e: Event)
    requires Mirrored(s) && s.overlay == Prompt && GateSane(s.ctx)
    requires InAlphabet(e.kind) && e.kind != NextCustomer
    ensures var (t, fx) := Advance(s, e);
            && fx == [] && SessionPart(t.ctx) == SessionPart(s.ctx)
            && t.scan == (if Resumes(s, e) then s.ctx.gateReturn.value else s.scan)
            && t.overlay == (if e.kind == Dismiss then NoPrompt else Prompt)
  {
    var d := ScanDecision(s.scan, s.ctx, e);
    assert d == if Resumes(s, e) then Move(s.ctx.gateReturn.value) else Stay();
  }

  function Run(s: Snapshot, events: seq<Event>): Snapshot
    decreases |events|
  {
    if events == [] then s else Advance(Run(s, events[..|events| - 1]), events[|events| - 1]).0
  }

  /**
   Progress preservation: however many events pass under the prompt, a DISMISS then exposes the
   interrupted state with its session intact, or, if the gate was interrupted and the refetch
   completed meanwhile, the state the gate resumes to.
   */
  lemma {:induction false} DismissExposes(s: Snapshot, events: seq<Event>, dismiss: Event)
    requires Mirrored(s) && s.overlay == Prompt && GateSane(s.ctx) && dismiss.kind == Dismiss
    requires forall i :: 0 <= i < |events| ==>
               InAlphabet(events[i].kind) && events[i].kind != NextCustomer && events[i].kind != Dismiss
    ensures var u := Run(s, events);
            && Mirrored(u) && u.overlay == Prompt && SessionPart(u.ctx) == SessionPart(s.ctx)
            && (u.scan == s.scan || (s.scan == BlockedOffline && s.ctx.gateReturn == Some(u.scan)))
            && Advance(u, dismiss).0.overlay == NoPrompt && Advance(u, dismiss).0.scan == u.scan
            && SessionPart(Advance(u, dismiss).0.ctx) == SessionPart(s.ctx)
    decreases |events|
  {
    if events != [] {
      var init, e := events[..|events| - 1], events[|events| - 1];
      DismissExposes(s, init, dismiss);
      PromptFreezes(Run(s, init), e);
      AdvanceMirrored(Run(s, init), e);
    }
    PromptFreezes(Run(s, events), dismiss);
  }

  // ----- effect accounting -----

  predicate IsVerdict(t: EventType) {
    t == SrvRedeemed || t == SrvAlreadyUsed || t == SrvExpired || t == SrvNotFound || t == SrvError
  }

  function Submits(fx: seq<Effect>): nat {
    if fx == [] then 0 else (if fx[0].SubmitToServer? then 1 else 0) + Submits(fx[1..])
  }

  /** Requests sent to the server so far. */
  function ServerSubmits(canOverride: bool, events: seq<Event>): nat
    decreases |events|
  {
    if events == [] then 0
    else ServerSubmits(canOverride, events[..|events| - 1]) + Submits(LastEffects(canOverride, events))
  }

  /** Verdicts that arrived while a request was in flight. */
  function VerdictsReceived(canOverride: bool, events: seq<Event>): nat
    decreases |events|
  {
    if events == [] then 0
    else
      var init, e := events[..|events| - 1], events[|events| - 1];
      VerdictsReceived(canOverride, init)
      + if IsVerdict(e.kind) && After(canOverride, init).scan == Submitting then 1 else 0
  }

  /** While a request is in flight only its verdict moves the scan region, and it is never dropped. */
  lemma VerdictLands(s: Snapshot, e: Event)
    requires Mirrored(s) && PromptSane(s) && s.scan == Submitting && InAlphabet(e.kind)
    ensures Advance(s, e).0.scan == match e.kind
                                    case SrvRedeemed => Redeemed
                                    case SrvAlreadyUsed => AlreadyUsed
                                    case SrvExpired => Expired
                                    case SrvNotFound => NotFound
                                    case SrvError => Failed
                                    case _ => Submitting
    ensures Advance(s, e).1 == []
  {
  }

  lemma SubmitsOf(a: Action, c: Ctx)
    ensures Submits(Emit(a, c)) == if a.EmitSubmit? then 1 else 0
  {
  }

  lemma OnlySubmitSends(s: Snapshot, e: Event)
    requires Mirrored(s) && s.scan != Submitting && s.scan != UnexpectedEvent && InAlphabet(e.kind) && GateSane(s.ctx)
    ensures Submits(Advance(s, e).1) == if Advance(s, e).0.scan == Submitting then 1 else 0
  {
    var d := ScanDecision(s.scan, s.ctx, e);
    SubmitsOf(d.action, s.ctx);
    assert d.target == Some(Submitting) <==> d.action == EmitSubmit;
  }

  /** Requests sent are verdicts received plus the one in flight. */
  /** One event: a request opens a submit, a verdict closes it, and nothing else does either. */
  lemma AccountingStep(s: Snapshot, e: Event)
    requires Mirrored(s) && PromptSane(s) && s.scan != UnexpectedEvent && InAlphabet(e.kind) && GateSane(s.ctx)
    ensures Submits(Advance(s, e).1) + (if s.scan == Submitting then 1 else 0)
            == (if IsVerdict(e.kind) && s.scan == Submitting then 1 else 0)
               + if Advance(s, e).0.scan == Submitting then 1 else 0
  {
    hide Advance;
    if s.scan == Submitting {
      VerdictLands(s, e);
    } else {
      OnlySubmitSends(s, e);
    }
  }

  lemma {:induction false} EffectAccounting(canOverride: bool, events: seq<Event>)
    requires OverAlphabet(events)
    ensures ServerSubmits(canOverride, events)
            == VerdictsReceived(canOverride, events) + if After(canOverride, events).scan == Submitting then 1 else 0
    decreases |events|
  {
    if events != [] {
      var init, e := events[..|events| - 1], events[|events| - 1];
      assert External(init);
      hide Advance, Mirrored, PromptSane;
      EffectAccounting(canOverride, init);
      NoTripOverAlphabet(canOverride, init);
      AfterMirrored(canOverride, init);
      PromptSaneRun(canOverride, init);
      AccountingStep(After(canOverride, init), e);
    }
  }
}
