/**
 The strict scanner statechart: its table, the compiler that turns the table into guarded
 candidate lists, and the broadcast step over the three parallel regions.
 */
module SubmitMachine {
  import opened Prelude

  // ----- alphabet, states, context -----

  datatype EventType =
    | Scan | QrDecoded | Resolved | OrderOk | Submit
    | OverrideRequest | OverrideConfirm | OverrideCancel
    | Dismiss | Retry | NextCustomer
    | SrvRedeemed | SrvAlreadyUsed | SrvExpired | SrvNotFound | SrvError
    | ConnDown | ConnUp | ProbeTimeout | Resubscribed
    | Unexpected  // internal, raised by the wildcard
    | Foreign     // any event name outside the alphabet

  const SCAN_EVENTS: seq<EventType> :=
    [Scan, QrDecoded, Resolved, OrderOk, Submit, OverrideRequest, OverrideConfirm, OverrideCancel,
     Dismiss, Retry, NextCustomer, SrvRedeemed, SrvAlreadyUsed, SrvExpired, SrvNotFound, SrvError]
  const CONN_EVENTS: seq<EventType> := [ConnDown, ConnUp, ProbeTimeout, Resubscribed]
  const SRV_VERDICTS: seq<EventType> := [SrvRedeemed, SrvAlreadyUsed, SrvExpired, SrvNotFound, SrvError]
  const OVERRIDE_EVENTS: seq<EventType> := [OverrideRequest, OverrideConfirm, OverrideCancel]

  /** The twenty events a page may send. */
  predicate InAlphabet(t: EventType) {
    !t.Unexpected? && !t.Foreign?
  }

  datatype Kind = KOfferReady | KUnknownCode | KSpentLocally | KExpiredLocally | KOther(name: string)

  datatype Event = Event(kind: EventType, code: string, resolution: Kind, requiresOnline: bool)

  /** An event that carries nothing. */
  function Signal(t: EventType): Event { Event(t, "", KOther(""), false) }

  datatype Conn = Online | Offline | Stale
  datatype Overlay = NoPrompt | Prompt
  datatype ScanState =
    | Idle | Scanning | Resolving | OfferReady | ReadyToSubmit | UnknownCode
    | BlockedOffline | OverrideConfirming | OverridePending | Submitting
    | Redeemed | AlreadyUsed | SpentLocally | ExpiredLocally | Expired
    | NotFound | Failed | UnexpectedEvent

  datatype TripInfo = TripInfo(event: EventType, scan: ScanState, conn: Conn, overlay: Overlay)

  /** `conn`, `ov` and `sc` mirror the region values; guards read the mirrors. */
  datatype Ctx = Ctx(
    canOverride: bool,
    conn: Conn, ov: Overlay, sc: ScanState,
    sessionCode: Option<string>, resolutionKind: Option<Kind>, requiresOnline: bool,
    overrideAvailable: bool, unverifiedWarning: bool, gateReturn: Option<ScanState>,
    unexpectedInfo: Option<TripInfo>, unexpectedReturn: Option<ScanState>)

  datatype Effect = SubmitToServer | WriteAttempt(offlineOverride: bool, unverifiedCode: bool)

  predicate Interruptible(s: ScanState) {
    s != Idle && s != Scanning && s != OverrideConfirming && s != Submitting
  }

  // ----- guards, actions and transition definitions -----

  datatype Guard =
    | SameSessionCode
    | InterruptsSession
    | PromptSameCode
    | KindIs(k: Kind)
    | SpentWhileOnline
    | IsOnline
    | OverrideOffered
    | ResumesTo(s: ScanState)
    | InterruptedIn(s: ScanState)

  predicate Holds(g: Guard, c: Ctx, e: Event) {
    match g
    case SameSessionCode => c.sessionCode.Some? && e.code == c.sessionCode.value
    case InterruptsSession => c.sessionCode.Some? && Interruptible(c.sc)
    case PromptSameCode => c.sessionCode == Some(e.code)
    case KindIs(k) => e.resolution == k
    case SpentWhileOnline => e.resolution == KSpentLocally && c.conn == Online
    case IsOnline => c.conn == Online
    case OverrideOffered => c.overrideAvailable
    case ResumesTo(s) => c.conn == Stale && c.gateReturn == Some(s)
    case InterruptedIn(s) => c.unexpectedReturn == Some(s)
  }

  datatype Action =
    | Nothing | ResetSession | StartSession | RecordResolution
    | EmitSubmit | CloseGate(self: ScanState) | WarnUnverified | EmitAttempt

  function ResetCtx(c: Ctx): Ctx {
    c.(sessionCode := None, resolutionKind := None, requiresOnline := false,
       overrideAvailable := false, unverifiedWarning := false, gateReturn := None,
       unexpectedInfo := None, unexpectedReturn := None)
  }

  function Act(a: Action, c: Ctx, e: Event): Ctx {
    match a
    case Nothing => c
    case ResetSession => ResetCtx(c)
    case StartSession => c.(sessionCode := Some(e.code))
    case RecordResolution => c.(resolutionKind := Some(e.resolution), requiresOnline := e.requiresOnline)
    case EmitSubmit => c
    case CloseGate(self) =>
      c.(overrideAvailable := c.canOverride && !c.requiresOnline, gateReturn := Some(self))
    case WarnUnverified => c.(unverifiedWarning := c.resolutionKind == Some(KUnknownCode))
    case EmitAttempt => c
  }

  function Emit(a: Action, c: Ctx): seq<Effect> {
    match a
    case EmitSubmit => [SubmitToServer]
    case EmitAttempt => [WriteAttempt(true, c.resolutionKind == Some(KUnknownCode))]
    case _ => []
  }

  /** One candidate; `gated` is the overlay gate the scan compiler wraps around it. */
  datatype Def<S> = Def(target: Option<S>, guard: Option<Guard>, action: Action, gated: bool)

  type Table<!S> = map<EventType, seq<Def<S>>>

  function NoOp<S>(): Def<S> { Def(None, None, Nothing, false) }
  function Go<S>(s: S): Def<S> { Def(Some(s), None, Nothing, false) }
  function When<S>(g: Guard, s: S): Def<S> { Def(Some(s), Some(g), Nothing, false) }

  predicate Guarded<S>(d: Def<S>) { d.guard.Some? || d.gated }

  predicate Enabled<S>(d: Def<S>, c: Ctx, e: Event) {
    (d.gated ==> c.ov == NoPrompt) && (d.guard.Some? ==> Holds(d.guard.value, c, e))
  }

  function FirstEnabled<S>(defs: seq<Def<S>>, c: Ctx, e: Event): Option<Def<S>> {
    if defs == [] then None
    else if Enabled(defs[0], c, e) then Some(defs[0])
    else FirstEnabled(defs[1..], c, e)
  }

  // ----- the compiler -----

  /** Transitions and ignores merged; None where the compiler throws on an event declared twice. */
  function BuildOn<S>(on: Table<S>, ignores: seq<EventType>): Option<Table<S>>
    decreases |ignores|
  {
    if ignores == [] then Some(on)
    else
      match BuildOn(on, ignores[..|ignores| - 1])
      case None => None
      case Some(m) =>
        var ev := ignores[|ignores| - 1];
        if ev in m then None else Some(m[ev := [NoOp()]])
  }

  predicate GateBypass(t: EventType) {
    t == NextCustomer || t == Resubscribed || t == Unexpected
  }

  /** The overlay gate on one candidate: a bare no-op stays ungated. */
  function GateOne<S>(d: Def<S>): Def<S> {
    if d.target.None? && d.action.Nothing? && d.guard.None? then d else d.(gated := true)
  }

  function GateAll<S>(defs: seq<Def<S>>): seq<Def<S>> {
    seq(|defs|, i requires 0 <= i < |defs| => GateOne(defs[i]))
  }

  function WithTail<S>(defs: seq<Def<S>>): seq<Def<S>> {
    if defs != [] && Guarded(defs[|defs| - 1]) then defs + [NoOp()] else defs
  }

  function Wrap<S>(t: EventType, defs: seq<Def<S>>): seq<Def<S>> {
    WithTail(if GateBypass(t) then defs else GateAll(defs))
  }

  /** What the scan compiler makes of one state's declarations. */
  function CompileScan(name: ScanState, on: Table<ScanState>, ignores: seq<EventType>): Option<Table<ScanState>> {
    match BuildOn(on, ignores)
    case None => None
    case Some(m) =>
      var merged := if name == UnexpectedEvent then m else m[Unexpected := [Go(UnexpectedEvent)]];
      Some(map t | t in merged :: Wrap(t, merged[t]))
  }

  // ----- the transition table -----

  function ConnOn(s: Conn): Table<Conn> {
    match s
    case Online => map[ConnDown := [Go(Offline)], ProbeTimeout := [Go(Offline)]]
    case Offline => map[ConnUp := [Go(Stale)]]
    case Stale => map[Resubscribed := [Go(Online)], ConnDown := [Go(Offline)], ProbeTimeout := [Go(Offline)]]
  }

  function ConnQuiet(s: Conn): seq<EventType> {
    match s
    case Online => [ConnUp, Resubscribed, Unexpected]
    case Offline => [ConnDown, ProbeTimeout, Resubscribed, Unexpected]
    case Stale => [ConnUp, Unexpected]
  }

  function ConnIgnores(s: Conn): seq<EventType> {
    SCAN_EVENTS + ConnQuiet(s)
  }

  function OverlayOn(s: Overlay): Table<Overlay> {
    match s
    case NoPrompt =>
      map[QrDecoded := [Def(None, Some(SameSessionCode), Nothing, false), When(InterruptsSession, Prompt), NoOp()],
          Unexpected := [NoOp()]]
    case Prompt =>
      map[Dismiss := [Go(NoPrompt)],
          NextCustomer := [Go(NoPrompt)],
          QrDecoded := [Def(None, Some(PromptSameCode), Nothing, false), NoOp()],
          Unexpected := [Go(NoPrompt)]]
  }

  function Without(s: seq<EventType>, drop: set<EventType>): seq<EventType> {
    if s == [] then []
    else if s[0] in drop then Without(s[1..], drop)
    else [s[0]] + Without(s[1..], drop)
  }

  function OverlayReacts(s: Overlay): set<EventType> {
    match s
    case NoPrompt => {QrDecoded}
    case Prompt => {Dismiss, NextCustomer, QrDecoded}
  }

  function OverlayIgnores(s: Overlay): seq<EventType> {
    Without(SCAN_EVENTS, OverlayReacts(s)) + CONN_EVENTS
  }

  function Resettable(): Table<ScanState> {
    map[NextCustomer := [Def(Some(Idle), None, ResetSession, false)]]
  }

  function SubmitOrGate(self: ScanState): Table<ScanState> {
    map[Submit := [Def(Some(Submitting), Some(IsOnline), EmitSubmit, false),
                   Def(Some(BlockedOffline), None, CloseGate(self), false)]]
  }

  function ReturnTo(s: ScanState): Def<ScanState> { When(InterruptedIn(s), s) }

  function ScanOn(s: ScanState): Table<ScanState> {
    match s
    case Idle => map[Scan := [Go(Scanning)]]
    case Scanning => map[QrDecoded := [Def(Some(Resolving), None, StartSession, false)]]
    case Resolving =>
      map[Resolved :=
            [Def(Some(OfferReady), Some(KindIs(KOfferReady)), RecordResolution, false),
             Def(Some(UnknownCode), Some(KindIs(KUnknownCode)), RecordResolution, false),
             Def(Some(OfferReady), Some(SpentWhileOnline), RecordResolution, false),
             Def(Some(SpentLocally), Some(KindIs(KSpentLocally)), RecordResolution, false),
             Def(Some(ExpiredLocally), Some(KindIs(KExpiredLocally)), RecordResolution, false)]] + Resettable()
    case OfferReady => map[OrderOk := [Go(ReadyToSubmit)]] + Resettable()
    case ReadyToSubmit => SubmitOrGate(ReadyToSubmit) + Resettable()
    case UnknownCode => SubmitOrGate(UnknownCode) + Resettable()
    case BlockedOffline =>
      map[OverrideRequest := [Def(Some(OverrideConfirming), Some(OverrideOffered), WarnUnverified, false)],
          Resubscribed := [When(ResumesTo(ReadyToSubmit), ReadyToSubmit), When(ResumesTo(UnknownCode), UnknownCode)]]
      + Resettable()
    case OverrideConfirming =>
      map[OverrideConfirm := [Def(Some(OverridePending), None, EmitAttempt, false)],
          OverrideCancel := [Go(BlockedOffline)]]
    case OverridePending => Resettable()
    case Submitting =>
      map[SrvRedeemed := [Go(Redeemed)], SrvAlreadyUsed := [Go(AlreadyUsed)], SrvExpired := [Go(Expired)],
          SrvNotFound := [Go(NotFound)], SrvError := [Go(Failed)]]
    case Failed => map[Retry := [Go(ReadyToSubmit)]] + Resettable()
    case UnexpectedEvent =>
      map[Retry :=
            [ReturnTo(Idle), ReturnTo(Scanning), ReturnTo(Resolving), ReturnTo(OfferReady), ReturnTo(ReadyToSubmit),
             ReturnTo(UnknownCode), ReturnTo(BlockedOffline), ReturnTo(OverrideConfirming), ReturnTo(OverridePending),
             ReturnTo(Submitting), ReturnTo(Redeemed), ReturnTo(AlreadyUsed), ReturnTo(SpentLocally),
             ReturnTo(ExpiredLocally), ReturnTo(Expired), ReturnTo(NotFound), ReturnTo(Failed),
             Def(Some(Idle), None, ResetSession, false)]] + Resettable()
    case _ => Resettable()
  }

  // The enumerated ignores of each scan state, group by group in alphabet order.

  function IgnoredSteps(s: ScanState): seq<EventType> {
    match s
    case Idle => [QrDecoded, Resolved, OrderOk, Submit]
    case Scanning => [Scan, Resolved, OrderOk, Submit]
    case Resolving => [Scan, QrDecoded, OrderOk, Submit]
    case OfferReady => [Scan, QrDecoded, Resolved, Submit]
    case ReadyToSubmit => [Scan, QrDecoded, Resolved, OrderOk]
    case UnknownCode => [Scan, QrDecoded, Resolved, OrderOk]
    case _ => [Scan, QrDecoded, Resolved, OrderOk, Submit]
  }

  function IgnoredOverrides(s: ScanState): seq<EventType> {
    match s
    case BlockedOffline => [OverrideConfirm, OverrideCancel]
    case OverrideConfirming => [OverrideRequest]
    case _ => OVERRIDE_EVENTS
  }

  function IgnoredControls(s: ScanState): seq<EventType> {
    match s
    case Idle => [Dismiss, Retry, NextCustomer]
    case Scanning => [Dismiss, Retry, NextCustomer]
    case OverrideConfirming => [Dismiss, Retry, NextCustomer]
    case Submitting => [Dismiss, Retry, NextCustomer]
    case Failed => [Dismiss]
    case UnexpectedEvent => [Dismiss]
    case _ => [Dismiss, Retry]
  }

  function IgnoredVerdicts(s: ScanState): seq<EventType> {
    if s == Submitting then [] else SRV_VERDICTS
  }

  function IgnoredConn(s: ScanState): seq<EventType> {
    if s == BlockedOffline then [ConnDown, ConnUp, ProbeTimeout] else CONN_EVENTS
  }

  function ScanIgnores(s: ScanState): seq<EventType> {
    IgnoredSteps(s) + IgnoredOverrides(s) + IgnoredControls(s) + IgnoredVerdicts(s) + IgnoredConn(s)
    + if s == UnexpectedEvent then [Unexpected] else []
  }
}
