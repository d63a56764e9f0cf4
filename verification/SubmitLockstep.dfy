/**
 The hand-rolled reference machine and its lockstep with the shipped statechart. The two agree on
 everything an observer sees until one of three situations around the offline gate, and at each of
 those they visibly part.
 */
module SubmitLockstep {
  import opened Prelude
  import opened SubmitMachine
  import opened SubmitTable
  import opened SubmitRun
  import opened SubmitSafety

  // ----- the reference -----

  datatype View = PromptFinishCurrent | Showing(state: ScanState)

  datatype Reference = Reference(
    connectivity: Conn, scan: View, canOverride: bool,
    resolutionKind: Option<Kind>, requiresOnline: bool, sessionCode: Option<string>,
    overrideAvailable: bool, unverifiedWarning: bool,
    gateReturn: Option<ScanState>, promptReturn: Option<ScanState>)

  function RefBoot(canOverride: bool): Reference {
    Reference(Online, Showing(Idle), canOverride, None, false, None, false, false, None, None)
  }

  function RefConn(s: Conn, t: EventType): Conn {
    if t == ConnDown || t == ProbeTimeout then Offline
    else if t == ConnUp && s == Offline then Stale
    else if t == Resubscribed && s == Stale then Online
    else s
  }

  function RefReset(r: Reference): Reference {
    r.(scan := Showing(Idle), sessionCode := None, resolutionKind := None, requiresOnline := false,
       overrideAvailable := false, unverifiedWarning := false, gateReturn := None, promptReturn := None)
  }

  /** The reference's own list of what another code's scan may interrupt. */
  predicate RefInterruptible(s: ScanState) {
    s in {Resolving, OfferReady, ReadyToSubmit, UnknownCode, SpentLocally, ExpiredLocally, BlockedOffline,
          OverridePending, Redeemed, AlreadyUsed, Expired, NotFound, Failed}
  }

  predicate RefResettable(v: View) { v == PromptFinishCurrent || RefInterruptible(v.state) }

  /** Where a verdict leads, None for any other event. */
  function RefOutcome(t: EventType): Option<ScanState> {
    match t
    case SrvRedeemed => Some(Redeemed)
    case SrvAlreadyUsed => Some(AlreadyUsed)
    case SrvExpired => Some(Expired)
    case SrvNotFound => Some(NotFound)
    case SrvError => Some(Failed)
    case _ => None
  }

  function RefResolved(r: Reference, e: Event): Reference {
    var k := r.(resolutionKind := Some(e.resolution), requiresOnline := e.requiresOnline);
    match e.resolution
    case KOfferReady => k.(scan := Showing(OfferReady))
    case KUnknownCode => k.(scan := Showing(UnknownCode))
    case KSpentLocally => k.(scan := Showing(if r.connectivity == Online then OfferReady else SpentLocally))
    case KExpiredLocally => k.(scan := Showing(ExpiredLocally))
    case KOther(_) => k
  }

  function GateView(r: Reference): View {
    if r.gateReturn.Some? then Showing(r.gateReturn.value) else r.scan
  }

  /** The scan switch for one state, reached with connectivity already advanced. */
  function RefSwitch(r: Reference, s: ScanState, e: Event): (Reference, seq<Effect>) {
    match s
    case Idle => (if e.kind == Scan then r.(scan := Showing(Scanning)) else r, [])
    case Scanning =>
      (if e.kind == QrDecoded then r.(sessionCode := Some(e.code), scan := Showing(Resolving)) else r, [])
    case Resolving => (if e.kind == Resolved then RefResolved(r, e) else r, [])
    case OfferReady => (if e.kind == OrderOk then r.(scan := Showing(ReadyToSubmit)) else r, [])
    case ReadyToSubmit => RefSubmit(r, s, e)
    case UnknownCode => RefSubmit(r, s, e)
    case BlockedOffline =>
      if e.kind == OverrideRequest && r.overrideAvailable then
        (r.(unverifiedWarning := r.resolutionKind == Some(KUnknownCode), scan := Showing(OverrideConfirming)), [])
      else if e.kind == Resubscribed && r.connectivity == Online then (r.(scan := GateView(r)), [])
      else (r, [])
    case OverrideConfirming =>
      if e.kind == OverrideConfirm then
        (r.(scan := Showing(OverridePending)), [WriteAttempt(true, r.resolutionKind == Some(KUnknownCode))])
      else if e.kind == OverrideCancel then (r.(scan := Showing(BlockedOffline)), [])
      else (r, [])
    case Submitting => (if RefOutcome(e.kind).Some? then r.(scan := Showing(RefOutcome(e.kind).value)) else r, [])
    case Failed => (if e.kind == Retry then r.(scan := Showing(ReadyToSubmit)) else r, [])
    case _ => (r, [])
  }

  function RefSubmit(r: Reference, s: ScanState, e: Event): (Reference, seq<Effect>) {
    if e.kind != Submit then (r, [])
    else if r.connectivity == Online then (r.(scan := Showing(Submitting)), [SubmitToServer])
    else (r.(overrideAvailable := r.canOverride && !r.requiresOnline, gateReturn := Some(s),
             scan := Showing(BlockedOffline)), [])
  }

  function RefPrompt(r: Reference, e: Event): Reference {
    if e.kind == Dismiss && r.promptReturn.Some? then
      if r.promptReturn.value == BlockedOffline && r.connectivity == Online then r.(scan := GateView(r))
      else r.(scan := Showing(r.promptReturn.value))
    else r
  }

  function RefScan(r: Reference, e: Event): (Reference, seq<Effect>) {
    if e.kind == NextCustomer && RefResettable(r.scan) then (RefReset(r), [])
    else if e.kind == QrDecoded && r.sessionCode.Some? && r.scan != Showing(Scanning) then
      if e.code == r.sessionCode.value || r.scan == PromptFinishCurrent || !RefInterruptible(r.scan.state) then (r, [])
      else (r.(promptReturn := Some(r.scan.state), scan := PromptFinishCurrent), [])
    else if r.scan == PromptFinishCurrent then (RefPrompt(r, e), [])
    else RefSwitch(r, r.scan.state, e)
  }

  /** The reference's send: connectivity first, then the scan switch. */
  function RefStep(r: Reference, e: Event): (Reference, seq<Effect>) {
    RefScan(r.(connectivity := RefConn(r.connectivity, e.kind)), e)
  }

  // ----- what an observer sees -----

  datatype Sight = Sight(conn: Conn, view: View, overrideAvailable: bool, unverifiedWarning: bool)

  function Seen(s: Snapshot): Sight {
    Sight(s.connectivity, if s.overlay == Prompt then PromptFinishCurrent else Showing(s.scan),
          s.ctx.overrideAvailable, s.ctx.unverifiedWarning)
  }

  function RefSeen(r: Reference): Sight {
    Sight(r.connectivity, r.scan, r.overrideAvailable, r.unverifiedWarning)
  }

  function RefAfter(canOverride: bool, events: seq<Event>): Reference
    decreases |events|
  {
    if events == [] then RefBoot(canOverride)
    else RefStep(RefAfter(canOverride, events[..|events| - 1]), events[|events| - 1]).0
  }

  /** Same sight and same effects at the last event. */
  predicate SameStep(canOverride: bool, events: seq<Event>)
    requires events != []
  {
    var init, e := events[..|events| - 1], events[|events| - 1];
    && Seen(After(canOverride, events)) == RefSeen(RefAfter(canOverride, events))
    && LastEffects(canOverride, events) == RefStep(RefAfter(canOverride, init), e).1
  }

  /** The lockstep comparison the fuzz gate makes: no step of the walk diverges. */
  predicate Lockstep(canOverride: bool, events: seq<Event>)
    decreases |events|
  {
    events == [] || (Lockstep(canOverride, events[..|events| - 1]) && SameStep(canOverride, events))
  }

  // ----- where they part -----

  /**
   The three situations. An online device can stand at the offline gate (a refetch that completed
   during the override confirmation, then a cancel), and there the reference resumes on a repeated
   RESUBSCRIBED or a DISMISS while the statechart stays; and once the refetch re-armed the gate
   under the prompt and the connection dropped again, a DISMISS shows the statechart's re-armed
   submit but the reference's gate.
   */
  predicate Parts(s: Snapshot, r: Reference, e: Event) {
    || (e.kind == Resubscribed && s.overlay == NoPrompt && s.scan == BlockedOffline && s.connectivity == Online)
    || (e.kind == Dismiss && s.overlay == Prompt && r.promptReturn == Some(BlockedOffline)
        && (s.scan == BlockedOffline <==> s.connectivity == Online))
  }

  predicate NeverParts(canOverride: bool, events: seq<Event>)
    decreases |events|
  {
    events == [] ||
    var init, e := events[..|events| - 1], events[|events| - 1];
    NeverParts(canOverride, init) && !Parts(After(canOverride, init), RefAfter(canOverride, init), e)
  }

  // ----- the simulation -----

  predicate AtGate(l: ScanState) { l == BlockedOffline || l == OverrideConfirming }

  /** The scan half: what the reference remembers against what the statechart holds. */
  predicate Alike(sc: ScanState, c: Ctx, r: Reference) {
    && sc != UnexpectedEvent && GateSane(c)
    && r.canOverride == c.canOverride && r.sessionCode == c.sessionCode
    && r.overrideAvailable == c.overrideAvailable && r.unverifiedWarning == c.unverifiedWarning
    && r.gateReturn == c.gateReturn
    && (sc == Idle || sc == Scanning <==> c.sessionCode.None?)
    && (sc != Resolving ==> r.resolutionKind == c.resolutionKind && r.requiresOnline == c.requiresOnline)
    && (AtGate(sc) ==> c.gateReturn.Some?)
  }

  predicate Related(s: Snapshot, r: Reference) {
    && Mirrored(s) && PromptSane(s) && Alike(s.scan, s.ctx, r)
    && r.connectivity == s.connectivity
    && (s.overlay == NoPrompt ==> r.scan == Showing(s.scan))
    && (s.overlay == Prompt ==>
          && r.scan == PromptFinishCurrent
          && (r.promptReturn == Some(s.scan)
              || (r.promptReturn == Some(BlockedOffline) && s.ctx.gateReturn == Some(s.scan))))
  }

  lemma SameConn(s: Conn, t: EventType)
    ensures Landing(Some(ConnDecision(s, t)), s) == RefConn(s, t)
  {
  }

  lemma QuietPrompt(s: Snapshot, r: Reference, e: Event)
    requires Related(s, r) && InAlphabet(e.kind) && s.overlay == Prompt && e.kind != NextCustomer && e.kind != Dismiss
    ensures Related(Advance(s, e).0, RefStep(r, e).0) && Advance(s, e).1 == RefStep(r, e).1
  {
    SameConn(s.connectivity, e.kind);
    PromptFreezes(s, e);
    AdvanceMirrored(s, e);
  }

  lemma DismissPrompt(s: Snapshot, r: Reference, e: Event)
    requires Related(s, r) && s.overlay == Prompt && e.kind == Dismiss
    ensures Advance(s, e).1 == RefStep(r, e).1
    ensures if Parts(s, r, e) then Seen(Advance(s, e).0) != RefSeen(RefStep(r, e).0)
            else Related(Advance(s, e).0, RefStep(r, e).0)
  {
    PromptFreezes(s, e);
    AdvanceMirrored(s, e);
  }

  lemma NextInLockstep(s: Snapshot, r: Reference, e: Event)
    requires Related(s, r) && e.kind == NextCustomer
    ensures Related(Advance(s, e).0, RefStep(r, e).0) && Advance(s, e).1 == RefStep(r, e).1
  {
    AdvanceMirrored(s, e);
    if s.overlay == Prompt {
      assert RefResettable(r.scan);
    } else {
      assert RefResettable(r.scan) <==> Reacts(s.scan, NextCustomer);
    }
  }

  lemma DecodeOpens(s: Snapshot, r: Reference, e: Event)
    requires Related(s, r) && s.overlay == NoPrompt && e.kind == QrDecoded && s.scan == Scanning
    ensures Related(Advance(s, e).0, RefStep(r, e).0) && Advance(s, e).1 == RefStep(r, e).1
  {
    AdvanceMirrored(s, e);
  }

  lemma DecodeInLockstep(s: Snapshot, r: Reference, e: Event)
    requires Related(s, r) && s.overlay == NoPrompt && e.kind == QrDecoded && s.scan != Scanning
    ensures Related(Advance(s, e).0, RefStep(r, e).0) && Advance(s, e).1 == RefStep(r, e).1
  {
    assert ScanDecision(s.scan, s.ctx, e) == Stay();
    AdvanceMirrored(s, e);
  }

  lemma ResumeInLockstep(s: Snapshot, r: Reference, e: Event)
    requires Related(s, r) && s.overlay == NoPrompt && e.kind == Resubscribed && s.scan == BlockedOffline
    ensures Advance(s, e).1 == RefStep(r, e).1
    ensures if Parts(s, r, e) then Seen(Advance(s, e).0) != RefSeen(RefStep(r, e).0)
            else Related(Advance(s, e).0, RefStep(r, e).0)
  {
    AdvanceMirrored(s, e);
  }

  lemma ConnInLockstep(s: Snapshot, r: Reference, e: Event)
    requires Related(s, r) && s.overlay == NoPrompt
    requires e.kind == ConnDown || e.kind == ConnUp || e.kind == ProbeTimeout || e.kind == Resubscribed
    requires e.kind == Resubscribed ==> s.scan != BlockedOffline
    ensures Related(Advance(s, e).0, RefStep(r, e).0) && Advance(s, e).1 == RefStep(r, e).1
  {
    hide Advance, RefStep;
    ConnOnly(s, e);
    RefConnOnly(r, s.scan, e);
  }

  lemma ConnOnly(s: Snapshot, e: Event)
    requires Mirrored(s) && s.overlay == NoPrompt
    requires e.kind == ConnDown || e.kind == ConnUp || e.kind == ProbeTimeout || e.kind == Resubscribed
    requires e.kind == Resubscribed ==> s.scan != BlockedOffline
    ensures var conn := RefConn(s.connectivity, e.kind);
            Advance(s, e) == (s.(connectivity := conn, ctx := s.ctx.(conn := conn)), [])
  {
    assert ScanDecision(s.scan, s.ctx, e) == Stay();
  }

  lemma RefConnOnly(r: Reference, sc: ScanState, e: Event)
    requires r.scan == Showing(sc)
    requires e.kind == ConnDown || e.kind == ConnUp || e.kind == ProbeTimeout || e.kind == Resubscribed
    requires e.kind == Resubscribed ==> sc != BlockedOffline
    ensures RefStep(r, e) == (r.(connectivity := RefConn(r.connectivity, e.kind)), [])
  {
  }

  predicate ScanOnly(t: EventType) {
    InAlphabet(t) && t != ConnDown && t != ConnUp && t != ProbeTimeout && t != Resubscribed
    && t != QrDecoded && t != NextCustomer
  }

  /** With the prompt closed, an event only the scan region answers touches nothing else. */
  lemma ScanOnlyStep(s: Snapshot, e: Event)
    requires Mirrored(s) && s.overlay == NoPrompt && ScanOnly(e.kind)
    ensures var (sc, c) := Moved(s.scan, s.ctx, e);
            Advance(s, e) == (Snapshot(s.connectivity, NoPrompt, sc, c.(sc := sc)),
                              Emit(ScanDecision(s.scan, s.ctx, e).action, s.ctx))
  {
    AdvanceMirrored(s, e);
  }

  lemma RefScanOnlyStep(r: Reference, e: Event)
    requires r.scan.Showing? && ScanOnly(e.kind)
    ensures RefStep(r, e) == RefSwitch(r, r.scan.state, e)
  {
    assert r.(connectivity := RefConn(r.connectivity, e.kind)) == r;
  }

  /** Both scan halves answered alike. */
  predicate InStep(sc: ScanState, c: Ctx, r: Reference, e: Event) {
    var (u, d) := Moved(sc, c, e);
    var (t, fx) := RefSwitch(r, sc, e);
    && Alike(u, d, t) && t.scan == Showing(u) && t.connectivity == r.connectivity
    && fx == Emit(ScanDecision(sc, c, e).action, c)
  }

  lemma SilentInStep(sc: ScanState, c: Ctx, r: Reference, e: Event)
    requires Alike(sc, c, r) && r.scan == Showing(sc) && c.ov == NoPrompt
    requires ScanOnly(e.kind) && !Reacts(sc, e.kind)
    ensures InStep(sc, c, r, e)
  {
  }

  lemma OpenInStep(sc: ScanState, c: Ctx, r: Reference, e: Event)
    requires Alike(sc, c, r) && r.scan == Showing(sc) && c.ov == NoPrompt && c.conn == r.connectivity
    requires (e.kind == Scan || e.kind == OrderOk || e.kind == Submit) && Reacts(sc, e.kind)
    ensures InStep(sc, c, r, e)
  {
  }

  lemma ResolvedTogether(c: Ctx, r: Reference, e: Event, d: Decision<ScanState>)
    requires d == ResolvedDecision(c, e) && c.conn == r.connectivity
    ensures d.target.Some? ==> d.action == RecordResolution
    ensures d.target.None? ==> d == Stay()
    ensures RefResolved(r, e) ==
              r.(resolutionKind := Some(e.resolution), requiresOnline := e.requiresOnline,
                 scan := if d.target.Some? then Showing(d.target.value) else r.scan)
  {
  }

  lemma ResolvedInStep(sc: ScanState, c: Ctx, r: Reference, e: Event)
    requires Alike(sc, c, r) && r.scan == Showing(sc) && c.ov == NoPrompt && c.conn == r.connectivity
    requires e.kind == Resolved && Reacts(sc, e.kind)
    ensures InStep(sc, c, r, e)
  {
    ResolvedTogether(c, r, e, ResolvedDecision(c, e));
  }

  lemma OverrideInStep(sc: ScanState, c: Ctx, r: Reference, e: Event)
    requires Alike(sc, c, r) && r.scan == Showing(sc) && c.ov == NoPrompt && c.conn == r.connectivity
    requires Reacts(sc, e.kind)
    requires e.kind == OverrideRequest || e.kind == OverrideConfirm || e.kind == OverrideCancel || e.kind == Retry
    ensures InStep(sc, c, r, e)
  {
  }

  lemma VerdictInStep(sc: ScanState, c: Ctx, r: Reference, e: Event)
    requires Alike(sc, c, r) && r.scan == Showing(sc) && c.ov == NoPrompt && c.conn == r.connectivity
    requires IsVerdict(e.kind) && Reacts(sc, e.kind)
    ensures InStep(sc, c, r, e)
  {
  }

  lemma ScanHalvesAgree(sc: ScanState, c: Ctx, r: Reference, e: Event)
    requires Alike(sc, c, r) && r.scan == Showing(sc) && c.ov == NoPrompt && c.conn == r.connectivity
             && ScanOnly(e.kind)
    ensures InStep(sc, c, r, e)
  {
    if !Reacts(sc, e.kind) {
      SilentInStep(sc, c, r, e);
    } else if IsVerdict(e.kind) {
      VerdictInStep(sc, c, r, e);
    } else if e.kind == Resolved {
      ResolvedInStep(sc, c, r, e);
    } else if e.kind == Scan || e.kind == OrderOk || e.kind == Submit {
      OpenInStep(sc, c, r, e);
    } else {
      OverrideInStep(sc, c, r, e);
    }
  }

  lemma ScanOnlyInLockstep(s: Snapshot, r: Reference, e: Event)
    requires Related(s, r) && s.overlay == NoPrompt && ScanOnly(e.kind)
    ensures Related(Advance(s, e).0, RefStep(r, e).0) && Advance(s, e).1 == RefStep(r, e).1
  {
    ScanOnlyStep(s, e);
    RefScanOnlyStep(r, e);
    ScanHalvesAgree(s.scan, s.ctx, r, e);
    AdvanceMirrored(s, e);
  }

  /** One event from related states: related again with equal effects, unless they visibly part. */
  lemma LockstepStep(s: Snapshot, r: Reference, e: Event)
    requires Related(s, r) && InAlphabet(e.kind)
    ensures Advance(s, e).1 == RefStep(r, e).1
    ensures if Parts(s, r, e) then Seen(Advance(s, e).0) != RefSeen(RefStep(r, e).0)
            else Related(Advance(s, e).0, RefStep(r, e).0)
  {
    if e.kind == NextCustomer {
      NextInLockstep(s, r, e);
    } else if s.overlay == Prompt {
      if e.kind == Dismiss { DismissPrompt(s, r, e); } else { QuietPrompt(s, r, e); }
    } else if e.kind == QrDecoded {
      if s.scan == Scanning { DecodeOpens(s, r, e); } else { DecodeInLockstep(s, r, e); }
    } else if ScanOnly(e.kind) {
      ScanOnlyInLockstep(s, r, e);
    } else if e.kind == Resubscribed && s.scan == BlockedOffline {
      ResumeInLockstep(s, r, e);
    } else {
      ConnInLockstep(s, r, e);
    }
  }

  /**
   Lockstep holds over a walk exactly when none of the three situations arises in it: the statechart
   is observably the reference everywhere else, and at each of them it observably is not.
   */
  lemma {:induction false} LockstepExactly(canOverride: bool, events: seq<Event>)
    requires OverAlphabet(events)
    ensures Lockstep(canOverride, events) <==> NeverParts(canOverride, events)
    ensures Lockstep(canOverride, events) ==> Related(After(canOverride, events), RefAfter(canOverride, events))
    decreases |events|
  {
    if events != [] {
      var init, e := events[..|events| - 1], events[|events| - 1];
      LockstepExactly(canOverride, init);
      if Lockstep(canOverride, init) {
        LockstepStep(After(canOverride, init), RefAfter(canOverride, init), e);
        RelatedSeesAlike(Advance(After(canOverride, init), e).0, RefStep(RefAfter(canOverride, init), e).0);
      }
    }
  }

  lemma RelatedSeesAlike(s: Snapshot, r: Reference)
    ensures Related(s, r) ==> Seen(s) == RefSeen(r)
  {
  }

  // ----- walks that part -----

  const DECODED := Event(QrDecoded, "X", KOther(""), false)
  const ANOTHER := Event(QrDecoded, "Y", KOther(""), false)
  const UNKNOWN := Event(Resolved, "", KUnknownCode, false)

  /** Scan an unknown code, lose the connection, and be refused at the gate. */
  const OPENED: seq<Event> := [] + [Signal(Scan)] + [DECODED] + [UNKNOWN]
  const GATED: seq<Event> := OPENED + [Signal(ConnDown)] + [Signal(Submit)]

  /** The refetch completes while the override is being confirmed, and the override is cancelled. */
  const CONFIRMING: seq<Event> := GATED + [Signal(OverrideRequest)] + [Signal(ConnUp)]
  const CANCELLED: seq<Event> := CONFIRMING + [Signal(Resubscribed)] + [Signal(OverrideCancel)]

  /**
   At the gate offline another code opens the prompt, the refetch completes under it, and the connection
   drops again.
   */
  const INTERRUPTED: seq<Event> := GATED + [ANOTHER] + [Signal(ConnUp)]
  const DROPPED: seq<Event> := INTERRUPTED + [Signal(Resubscribed)] + [Signal(ConnDown)]

  /** A device in a session for the code X, refused at the gate and offered the override. */
  predicate AtTheGate(s: Snapshot, conn: Conn) {
    && Mirrored(s) && s.connectivity == conn && s.scan == BlockedOffline && s.overlay == NoPrompt
    && s.ctx.overrideAvailable && s.ctx.sessionCode == Some("X") && s.ctx.gateReturn == Some(UnknownCode)
  }

  predicate CalmKind(t: EventType) { t != Resubscribed && t != Dismiss }

  lemma AfterSnoc(canOverride: bool, events: seq<Event>, e: Event)
    ensures After(canOverride, events + [e]) == Advance(After(canOverride, events), e).0
    ensures RefAfter(canOverride, events + [e]) == RefStep(RefAfter(canOverride, events), e).0
    ensures NeverParts(canOverride, events + [e])
            <==> NeverParts(canOverride, events) && !Parts(After(canOverride, events), RefAfter(canOverride, events), e)
  {
    assert (events + [e])[..|events + [e]| - 1] == events;
  }

  /** Two steps, the second of a kind that never parts. */
  lemma TwoSteps(events: seq<Event>, a: Event, b: Event)
    requires NeverParts(true, events) && CalmKind(b.kind)
    requires !Parts(After(true, events), RefAfter(true, events), a)
    ensures After(true, events + [a] + [b]) == Advance(Advance(After(true, events), a).0, b).0
    ensures RefAfter(true, events + [a] + [b]) == RefStep(RefStep(RefAfter(true, events), a).0, b).0
    ensures NeverParts(true, events + [a] + [b])
  {
    AfterSnoc(true, events, a);
    AfterSnoc(true, events + [a], b);
  }

  lemma Decodes(s: Snapshot)
    requires s == Boot(true)
    ensures var t := Advance(Advance(s, Signal(Scan)).0, DECODED).0;
            Mirrored(t) && t.connectivity == Online && t.scan == Resolving && t.overlay == NoPrompt && t.ctx.canOverride
            && t.ctx.sessionCode == Some("X")
  {
    var m := Advance(s, Signal(Scan)).0;
    assert Mirrored(m) && m.scan == Scanning && m.overlay == NoPrompt && m.connectivity == Online;
  }

  lemma Resolves(s: Snapshot)
    requires Mirrored(s) && s.connectivity == Online && s.scan == Resolving && s.overlay == NoPrompt
             && s.ctx.canOverride
    ensures var t := Advance(s, UNKNOWN).0;
            Mirrored(t) && t.connectivity == Online && t.scan == UnknownCode && t.overlay == NoPrompt
            && t.ctx.canOverride && !t.ctx.requiresOnline && t.ctx.sessionCode == s.ctx.sessionCode
  {
  }

  lemma Scanned()
    ensures var s := After(true, [] + [Signal(Scan)] + [DECODED]);
            Mirrored(s) && s.connectivity == Online && s.scan == Resolving && s.overlay == NoPrompt && s.ctx.canOverride
            && s.ctx.sessionCode == Some("X")
    ensures NeverParts(true, [] + [Signal(Scan)] + [DECODED])
  {
    TwoSteps([], Signal(Scan), DECODED);
    Decodes(Boot(true));
  }

  lemma Opens()
    ensures var s := After(true, OPENED);
            Mirrored(s) && s.connectivity == Online && s.scan == UnknownCode && s.overlay == NoPrompt
            && s.ctx.canOverride && !s.ctx.requiresOnline && s.ctx.sessionCode == Some("X")
    ensures NeverParts(true, OPENED)
  {
    Scanned();
    AfterSnoc(true, [] + [Signal(Scan)] + [DECODED], UNKNOWN);
    Resolves(After(true, [] + [Signal(Scan)] + [DECODED]));
  }

  lemma Gates(s: Snapshot)
    requires Mirrored(s) && s.scan == UnknownCode && s.overlay == NoPrompt && s.ctx.canOverride && !s.ctx.requiresOnline
    requires s.ctx.sessionCode == Some("X")
    ensures AtTheGate(Advance(Advance(s, Signal(ConnDown)).0, Signal(Submit)).0, Offline)
  {
    var m := Advance(s, Signal(ConnDown)).0;
    assert m == s.(connectivity := Offline, ctx := s.ctx.(conn := Offline));
  }

  lemma OfflineAtTheGate()
    ensures AtTheGate(After(true, GATED), Offline) && NeverParts(true, GATED)
  {
    Opens();
    TwoSteps(OPENED, Signal(ConnDown), Signal(Submit));
    Gates(After(true, OPENED));
  }

  lemma Confirms(s: Snapshot)
    requires AtTheGate(s, Offline)
    ensures var t := Advance(Advance(s, Signal(OverrideRequest)).0, Signal(ConnUp)).0;
            Mirrored(t) && t.connectivity == Stale && t.scan == OverrideConfirming && t.overlay == NoPrompt
            && t.ctx.overrideAvailable && t.ctx.sessionCode == Some("X") && t.ctx.gateReturn == Some(UnknownCode)
  {
    var m := Advance(s, Signal(OverrideRequest)).0;
    assert m.connectivity == Offline && m.scan == OverrideConfirming && m.overlay == NoPrompt && Mirrored(m);
    assert m.ctx.overrideAvailable && m.ctx.sessionCode == Some("X") && m.ctx.gateReturn == Some(UnknownCode);
  }

  lemma Cancels(s: Snapshot)
    requires Mirrored(s) && s.connectivity == Stale && s.scan == OverrideConfirming && s.overlay == NoPrompt
    requires s.ctx.overrideAvailable && s.ctx.sessionCode == Some("X") && s.ctx.gateReturn == Some(UnknownCode)
    ensures AtTheGate(Advance(Advance(s, Signal(Resubscribed)).0, Signal(OverrideCancel)).0, Online)
  {
    var m := Advance(s, Signal(Resubscribed)).0;
    assert m.connectivity == Online && m.scan == OverrideConfirming && m.overlay == NoPrompt && Mirrored(m);
    assert m.ctx.overrideAvailable && m.ctx.sessionCode == Some("X") && m.ctx.gateReturn == Some(UnknownCode);
  }

  /** An online device standing at the offline gate, the two machines still in lockstep. */
  lemma OnlineAtTheGate()
    ensures AtTheGate(After(true, CANCELLED), Online) && NeverParts(true, CANCELLED)
  {
    OfflineAtTheGate();
    TwoSteps(GATED, Signal(OverrideRequest), Signal(ConnUp));
    Confirms(After(true, GATED));
    TwoSteps(CONFIRMING, Signal(Resubscribed), Signal(OverrideCancel));
    Cancels(After(true, CONFIRMING));
  }

  lemma Alphabetical()
    ensures OverAlphabet(CANCELLED + [Signal(Resubscribed)]) && OverAlphabet(CANCELLED + [ANOTHER] + [Signal(Dismiss)])
    ensures OverAlphabet(GATED + [ANOTHER]) && OverAlphabet(CANCELLED + [ANOTHER])
            && OverAlphabet(DROPPED + [Signal(Dismiss)])
  {
  }

  lemma PartingFails(events: seq<Event>, e: Event)
    requires OverAlphabet(events + [e]) && Parts(After(true, events), RefAfter(true, events), e)
    ensures !Lockstep(true, events + [e])
  {
    AfterSnoc(true, events, e);
    LockstepExactly(true, events + [e]);
  }

  /**
   The equivalence the fuzz gate reports is not universal. After a refetch that completes while the override
   is being confirmed, and a cancel, one more RESUBSCRIBED separates the two machines.
   */
  lemma LockstepFails()
    ensures NeverParts(true, CANCELLED) && !Lockstep(true, CANCELLED + [Signal(Resubscribed)])
  {
    OnlineAtTheGate();
    Alphabetical();
    PartingFails(CANCELLED, Signal(Resubscribed));
  }

  /** Another code at the gate opens the prompt in both machines, which both remember the gate. */
  lemma PromptAtTheGate(events: seq<Event>, conn: Conn)
    requires AtTheGate(After(true, events), conn) && NeverParts(true, events) && OverAlphabet(events + [ANOTHER])
    ensures var s := After(true, events + [ANOTHER]);
            Mirrored(s) && s.connectivity == conn && s.scan == BlockedOffline && s.overlay == Prompt
            && s.ctx.gateReturn == Some(UnknownCode)
    ensures var r := RefAfter(true, events + [ANOTHER]);
            r.promptReturn == Some(BlockedOffline) && r.scan == PromptFinishCurrent
    ensures NeverParts(true, events + [ANOTHER])
  {
    AfterSnoc(true, events, ANOTHER);
    LockstepExactly(true, events + [ANOTHER]);
    hide LastEffects, Lockstep, OverAlphabet, After, RefAfter;
    AdvanceMirrored(After(true, events), ANOTHER);
  }

  /** The second situation: the same device is interrupted by another code, and the prompt is dismissed. */
  lemma LockstepFailsOnDismiss()
    ensures NeverParts(true, CANCELLED + [ANOTHER]) && !Lockstep(true, CANCELLED + [ANOTHER] + [Signal(Dismiss)])
  {
    OnlineAtTheGate();
    Alphabetical();
    PromptAtTheGate(CANCELLED, Online);
    PartingFails(CANCELLED + [ANOTHER], Signal(Dismiss));
  }

  lemma UnderPrompt(s: Snapshot, r: Reference, t: EventType)
    requires Mirrored(s) && s.overlay == Prompt && r.scan == PromptFinishCurrent
    requires t == ConnUp || t == ConnDown || t == Resubscribed
    ensures var s', r' := Advance(s, Signal(t)).0, RefStep(r, Signal(t)).0;
            && Mirrored(s') && s'.overlay == Prompt && s'.connectivity == RefConn(s.connectivity, t)
            && s'.ctx.gateReturn == s.ctx.gateReturn
            && (if t == Resubscribed && s.connectivity == Stale && s.scan == BlockedOffline
                   && s.ctx.gateReturn == Some(UnknownCode)
                then s'.scan == UnknownCode else t != Resubscribed ==> s'.scan == s.scan)
            && r'.scan == PromptFinishCurrent && r'.promptReturn == r.promptReturn
  {
    AdvanceMirrored(s, Signal(t));
  }

  lemma InterruptedAtTheGate()
    ensures var s, r := After(true, INTERRUPTED), RefAfter(true, INTERRUPTED);
            && Mirrored(s) && s.connectivity == Stale && s.scan == BlockedOffline && s.overlay == Prompt
            && s.ctx.gateReturn == Some(UnknownCode)
            && r.promptReturn == Some(BlockedOffline) && r.scan == PromptFinishCurrent
    ensures NeverParts(true, INTERRUPTED)
  {
    hide Advance, RefStep;
    OfflineAtTheGate();
    Alphabetical();
    PromptAtTheGate(GATED, Offline);
    AfterSnoc(true, GATED + [ANOTHER], Signal(ConnUp));
    UnderPrompt(After(true, GATED + [ANOTHER]), RefAfter(true, GATED + [ANOTHER]), ConnUp);
  }

  lemma DroppedUnderPrompt()
    ensures NeverParts(true, DROPPED) && Parts(After(true, DROPPED), RefAfter(true, DROPPED), Signal(Dismiss))
  {
    hide Advance, RefStep;
    InterruptedAtTheGate();
    var s, r := After(true, INTERRUPTED), RefAfter(true, INTERRUPTED);
    UnderPrompt(s, r, Resubscribed);
    UnderPrompt(Advance(s, Signal(Resubscribed)).0, RefStep(r, Signal(Resubscribed)).0, ConnDown);
    TwoSteps(INTERRUPTED, Signal(Resubscribed), Signal(ConnDown));
  }

  /** The third: the refetch re-armed the gate under the prompt and the connection dropped again before the DISMISS. */
  lemma LockstepFailsOnSecondLoss()
    ensures NeverParts(true, DROPPED) && !Lockstep(true, DROPPED + [Signal(Dismiss)])
  {
    DroppedUnderPrompt();
    Alphabetical();
    PartingFails(DROPPED, Signal(Dismiss));
  }
}
