/**
 The shipped transition table compiles, and every alphabet event is a declared decision in every
 state of every region.
 */
module SubmitTable {
  import opened Prelude
  import opened SubmitMachine
  import opened SubmitCompiler

  // ----- the shipped table compiles and covers the alphabet -----

  /** Position of an event in its declaration order: a strictly ascending list repeats nothing. */
  function Rank(t: EventType): nat {
    match t
    case Scan => 0 case QrDecoded => 1 case Resolved => 2 case OrderOk => 3 case Submit => 4
    case OverrideRequest => 5 case OverrideConfirm => 6 case OverrideCancel => 7
    case Dismiss => 8 case Retry => 9 case NextCustomer => 10
    case SrvRedeemed => 11 case SrvAlreadyUsed => 12 case SrvExpired => 13 case SrvNotFound => 14 case SrvError => 15
    case ConnDown => 16 case ConnUp => 17 case ProbeTimeout => 18 case Resubscribed => 19
    case Unexpected => 20 case Foreign => 21
  }

  predicate Ascending(s: seq<EventType>, lo: nat, hi: nat) {
    && (forall i :: 0 <= i < |s| ==> lo <= Rank(s[i]) < hi)
    && (forall i, j :: 0 <= i < j < |s| ==> Rank(s[i]) < Rank(s[j]))
  }

  lemma AscendingConcat(a: seq<EventType>, b: seq<EventType>, lo: nat, mid: nat, hi: nat)
    requires Ascending(a, lo, mid) && Ascending(b, mid, hi) && lo <= mid <= hi
    ensures Ascending(a + b, lo, hi)
  {
  }

  lemma AscendingDistinct(s: seq<EventType>, lo: nat, hi: nat)
    requires Ascending(s, lo, hi)
    ensures Distinct(s)
  {
    forall i, j | 0 <= i < j < |s| ensures s[i] != s[j] {
      assert Rank(s[i]) < Rank(s[j]);
    }
  }

  lemma StepsAscend(s: ScanState)
    ensures Ascending(IgnoredSteps(s), 0, 5)
  {
  }

  lemma OverridesAscend(s: ScanState)
    ensures Ascending(IgnoredOverrides(s), 5, 8)
  {
  }

  lemma ControlsAscend(s: ScanState)
    ensures Ascending(IgnoredControls(s), 8, 11)
  {
  }

  lemma VerdictsAscend(s: ScanState)
    ensures Ascending(IgnoredVerdicts(s), 11, 16)
  {
    assert forall i :: 0 <= i < |SRV_VERDICTS| ==> Rank(SRV_VERDICTS[i]) == 11 + i;
  }

  lemma ConnAscend(s: ScanState)
    ensures Ascending(IgnoredConn(s), 16, 20)
  {
    assert forall i :: 0 <= i < |IgnoredConn(s)| ==> Rank(IgnoredConn(s)[i]) == 16 + i;
  }

  lemma ScanIgnoresDistinct(s: ScanState)
    ensures Distinct(ScanIgnores(s))
  {
    var a, b, c, d, e := IgnoredSteps(s), IgnoredOverrides(s), IgnoredControls(s), IgnoredVerdicts(s), IgnoredConn(s);
    StepsAscend(s);
    OverridesAscend(s);
    ControlsAscend(s);
    VerdictsAscend(s);
    ConnAscend(s);
    AscendingConcat(a, b, 0, 5, 8);
    AscendingConcat(a + b, c, 0, 8, 11);
    AscendingConcat(a + b + c, d, 0, 11, 16);
    AscendingConcat(a + b + c + d, e, 0, 16, 20);
    var last: seq<EventType> := if s == UnexpectedEvent then [Unexpected] else [];
    AscendingConcat(a + b + c + d + e, last, 0, 20, 21);
    AscendingDistinct(ScanIgnores(s), 0, 21);
  }

  /** The events each scan state reacts to. */
  predicate Reacts(s: ScanState, t: EventType) {
    match t
    case Scan => s == Idle
    case QrDecoded => s == Scanning
    case Resolved => s == Resolving
    case OrderOk => s == OfferReady
    case Submit => s == ReadyToSubmit || s == UnknownCode
    case OverrideRequest => s == BlockedOffline
    case OverrideConfirm => s == OverrideConfirming
    case OverrideCancel => s == OverrideConfirming
    case Retry => s == Failed || s == UnexpectedEvent
    case NextCustomer => Interruptible(s)
    case SrvRedeemed => s == Submitting
    case SrvAlreadyUsed => s == Submitting
    case SrvExpired => s == Submitting
    case SrvNotFound => s == Submitting
    case SrvError => s == Submitting
    case Resubscribed => s == BlockedOffline
    case _ => false
  }

  lemma EarlyOnKeys(s: ScanState, t: EventType)
    requires s.Idle? || s.Scanning? || s.Resolving? || s.OfferReady? || s.ReadyToSubmit? || s.UnknownCode?
    ensures t in ScanOn(s) <==> Reacts(s, t)
  {
  }

  lemma LateOnKeys(s: ScanState, t: EventType)
    requires s.BlockedOffline? || s.OverrideConfirming?
    ensures t in ScanOn(s) <==> Reacts(s, t)
  {
  }

  lemma SubmittingOnKeys(t: EventType)
    ensures t in ScanOn(Submitting) <==> Reacts(Submitting, t)
  {
  }

  lemma FailedOnKeys(t: EventType)
    ensures t in ScanOn(Failed) <==> Reacts(Failed, t)
  {
  }

  lemma TrippedOnKeys(t: EventType)
    ensures t in ScanOn(UnexpectedEvent) <==> Reacts(UnexpectedEvent, t)
  {
  }

  lemma ScanOnKeys(s: ScanState, t: EventType)
    ensures t in ScanOn(s) <==> Reacts(s, t)
  {
    match s
    case Idle => EarlyOnKeys(s, t);
    case Scanning => EarlyOnKeys(s, t);
    case Resolving => EarlyOnKeys(s, t);
    case OfferReady => EarlyOnKeys(s, t);
    case ReadyToSubmit => EarlyOnKeys(s, t);
    case UnknownCode => EarlyOnKeys(s, t);
    case BlockedOffline => LateOnKeys(s, t);
    case OverrideConfirming => LateOnKeys(s, t);
    case Submitting => SubmittingOnKeys(t);
    case Failed => FailedOnKeys(t);
    case UnexpectedEvent => TrippedOnKeys(t);
    case _ => assert t in Resettable() <==> t == NextCustomer;
  }

  lemma StepsIgnored(s: ScanState, t: EventType)
    ensures t in IgnoredSteps(s) <==> Rank(t) < 5 && !Reacts(s, t)
  {
  }

  lemma OverridesIgnored(s: ScanState, t: EventType)
    ensures t in IgnoredOverrides(s) <==> 5 <= Rank(t) < 8 && !Reacts(s, t)
  {
  }

  lemma ControlsIgnored(s: ScanState, t: EventType)
    ensures t in IgnoredControls(s) <==> 8 <= Rank(t) < 11 && !Reacts(s, t)
  {
  }

  lemma VerdictsIgnored(s: ScanState, t: EventType)
    ensures t in IgnoredVerdicts(s) <==> 11 <= Rank(t) < 16 && !Reacts(s, t)
  {
  }

  lemma ConnIgnored(s: ScanState, t: EventType)
    ensures t in IgnoredConn(s) <==> 16 <= Rank(t) < 20 && !Reacts(s, t)
  {
  }

  lemma InConcat<T>(a: seq<T>, b: seq<T>, c: seq<T>, d: seq<T>, e: seq<T>, f: seq<T>, x: T)
    ensures x in a + b + c + d + e + f <==> x in a || x in b || x in c || x in d || x in e || x in f
  {
  }

  /** Each scan state declares each alphabet event exactly once: as a reaction or as an ignore. */
  lemma ScanDeclares(s: ScanState, t: EventType)
    ensures t in ScanIgnores(s) <==> (InAlphabet(t) && !Reacts(s, t)) || (s == UnexpectedEvent && t == Unexpected)
  {
    var last: seq<EventType> := if s == UnexpectedEvent then [Unexpected] else [];
    InConcat(IgnoredSteps(s), IgnoredOverrides(s), IgnoredControls(s), IgnoredVerdicts(s), IgnoredConn(s), last, t);
    StepsIgnored(s, t);
    OverridesIgnored(s, t);
    ControlsIgnored(s, t);
    VerdictsIgnored(s, t);
    ConnIgnored(s, t);
  }

  // ----- the two plain regions -----

  lemma {:induction false} WithoutKeeps(s: seq<EventType>, drop: set<EventType>, lo: nat, hi: nat)
    requires Ascending(s, lo, hi)
    ensures Ascending(Without(s, drop), lo, hi)
    ensures forall t :: t in Without(s, drop) <==> t in s && t !in drop
  {
    if s != [] {
      assert s == [s[0]] + s[1..];
      assert forall i :: 0 <= i < |s| - 1 ==> s[1..][i] == s[i + 1];
      assert Ascending(s[1..], Rank(s[0]) + 1, hi);
      WithoutKeeps(s[1..], drop, Rank(s[0]) + 1, hi);
    }
  }

  lemma ScanEventsAscend(t: EventType)
    ensures Ascending(SCAN_EVENTS, 0, 16)
    ensures t in SCAN_EVENTS <==> Rank(t) < 16
  {
    assert forall i :: 0 <= i < 16 ==> Rank(SCAN_EVENTS[i]) == i;
    if Rank(t) < 16 {
      assert SCAN_EVENTS[Rank(t)] == t;
    }
  }

  lemma ConnEventsAscend(t: EventType)
    ensures Ascending(CONN_EVENTS, 16, 20)
    ensures t in CONN_EVENTS <==> 16 <= Rank(t) < 20
  {
    assert forall i :: 0 <= i < 4 ==> Rank(CONN_EVENTS[i]) == 16 + i;
    if 16 <= Rank(t) < 20 {
      assert CONN_EVENTS[Rank(t) - 16] == t;
    }
  }

  lemma QuietAscends(s: Conn)
    ensures Ascending(ConnQuiet(s), 16, 21)
  {
  }

  lemma QuietComplements(s: Conn, t: EventType)
    ensures t in ConnQuiet(s) <==> 16 <= Rank(t) < 21 && t !in ConnOn(s)
    ensures t in ConnOn(s) ==> 16 <= Rank(t) < 20
  {
  }

  lemma Listed(scan: seq<EventType>, drop: set<EventType>, rest: seq<EventType>, t: EventType)
    requires Ascending(scan, 0, 16) && Ascending(rest, 16, 21)
    ensures Distinct(Without(scan, drop) + rest)
    ensures t in Without(scan, drop) + rest <==> (t in scan && t !in drop) || t in rest
  {
    WithoutKeeps(scan, drop, 0, 16);
    AscendingConcat(Without(scan, drop), rest, 0, 16, 21);
    AscendingDistinct(Without(scan, drop) + rest, 0, 21);
  }

  lemma ConnDeclares(s: Conn, t: EventType)
    ensures Distinct(ConnIgnores(s))
    ensures t in ConnIgnores(s) <==> t != Foreign && t !in ConnOn(s)
  {
    ScanEventsAscend(t);
    QuietAscends(s);
    QuietComplements(s, t);
    AscendingConcat(SCAN_EVENTS, ConnQuiet(s), 0, 16, 21);
    AscendingDistinct(ConnIgnores(s), 0, 21);
  }

  lemma OverlayOnKeys(s: Overlay, t: EventType)
    ensures t in OverlayOn(s) <==> t in OverlayReacts(s) || t == Unexpected
  {
  }

  lemma OverlayDeclares(s: Overlay, t: EventType)
    ensures Distinct(OverlayIgnores(s))
    ensures t in OverlayIgnores(s) <==> t != Foreign && t !in OverlayOn(s)
  {
    ScanEventsAscend(t);
    ConnEventsAscend(t);
    OverlayOnKeys(s, t);
    Listed(SCAN_EVENTS, OverlayReacts(s), CONN_EVENTS, t);
  }

  // ----- the compiled tables -----

  function ConnTable(s: Conn): Table<Conn> {
    ConnCompiles(s);
    BuildOn(ConnOn(s), ConnIgnores(s)).value
  }

  function OverlayTable(s: Overlay): Table<Overlay> {
    OverlayCompiles(s);
    BuildOn(OverlayOn(s), OverlayIgnores(s)).value
  }

  function ScanTable(s: ScanState): Table<ScanState> {
    ScanCompiles(s);
    CompileScan(s, ScanOn(s), ScanIgnores(s)).value
  }

  lemma ConnCompiles(s: Conn)
    ensures BuildOn(ConnOn(s), ConnIgnores(s)).Some?
  {
    BuildOnMeaning(ConnOn(s), ConnIgnores(s));
    forall t ensures t in ConnIgnores(s) ==> t !in ConnOn(s) { ConnDeclares(s, t); }
    ConnDeclares(s, Scan);
  }

  lemma OverlayCompiles(s: Overlay)
    ensures BuildOn(OverlayOn(s), OverlayIgnores(s)).Some?
  {
    BuildOnMeaning(OverlayOn(s), OverlayIgnores(s));
    forall t ensures t in OverlayIgnores(s) ==> t !in OverlayOn(s) { OverlayDeclares(s, t); }
    OverlayDeclares(s, Scan);
  }

  lemma ScanCompiles(s: ScanState)
    ensures BuildOn(ScanOn(s), ScanIgnores(s)).Some?
    ensures CompileScan(s, ScanOn(s), ScanIgnores(s)).Some?
  {
    BuildOnMeaning(ScanOn(s), ScanIgnores(s));
    ScanIgnoresDistinct(s);
    forall t ensures t in ScanIgnores(s) ==> t !in ScanOn(s) {
      ScanDeclares(s, t);
      ScanOnKeys(s, t);
    }
  }

  lemma ConnLookup(s: Conn, t: EventType)
    ensures t in ConnTable(s) <==> t != Foreign
    ensures t != Foreign ==> ConnTable(s)[t] == if t in ConnOn(s) then ConnOn(s)[t] else [NoOp()]
  {
    ConnCompiles(s);
    BuildOnMeaning(ConnOn(s), ConnIgnores(s));
    ConnDeclares(s, t);
    QuietComplements(s, t);
  }

  lemma OverlayLookup(s: Overlay, t: EventType)
    ensures t in OverlayTable(s) <==> t != Foreign
    ensures t != Foreign ==> OverlayTable(s)[t] == if t in OverlayOn(s) then OverlayOn(s)[t] else [NoOp()]
  {
    OverlayCompiles(s);
    BuildOnMeaning(OverlayOn(s), OverlayIgnores(s));
    OverlayDeclares(s, t);
    OverlayOnKeys(s, t);
  }

  /** A scan state's declarations for one event before the compiler wraps them. */
  function DefsOf(on: Table<ScanState>, s: ScanState, t: EventType): seq<Def<ScanState>> {
    if t in on then on[t]
    else if t == Unexpected && s != UnexpectedEvent then [Go(UnexpectedEvent)]
    else [NoOp()]
  }

  function ScanDefs(s: ScanState, t: EventType): seq<Def<ScanState>> { DefsOf(ScanOn(s), s, t) }

  /** What the compiler offers for one event, told from the declarations it was given. */
  lemma CompiledFrom(s: ScanState, on: Table<ScanState>, ignores: seq<EventType>, t: EventType)
    requires BuildOn(on, ignores).Some? && (t == Unexpected ==> t !in on)
    requires t in on || t in ignores || (t == Unexpected && s != UnexpectedEvent) <==> t != Foreign
    ensures CompileScan(s, on, ignores).Some?
    ensures t in CompileScan(s, on, ignores).value <==> t != Foreign
    ensures t != Foreign ==>
              CompileScan(s, on, ignores).value[t] == Wrap(t, DefsOf(on, s, t))
  {
    CompiledLookup(s, on, ignores, t);
  }

  lemma ScanCovers(s: ScanState, t: EventType)
    ensures t in ScanOn(s) || t in ScanIgnores(s) || (t == Unexpected && s != UnexpectedEvent) <==> t != Foreign
    ensures t == Unexpected ==> t !in ScanOn(s)
  {
    ScanDeclares(s, t);
    ScanOnKeys(s, t);
    Covered(s, t, t in ScanOn(s), t in ScanIgnores(s));
  }

  lemma Covered(s: ScanState, t: EventType, declared: bool, ignored: bool)
    requires declared <==> Reacts(s, t)
    requires ignored <==> (InAlphabet(t) && !Reacts(s, t)) || (s == UnexpectedEvent && t == Unexpected)
    ensures declared || ignored || (t == Unexpected && s != UnexpectedEvent) <==> t != Foreign
    ensures t == Unexpected ==> !declared
  {
  }

  lemma ScanLookup(s: ScanState, t: EventType)
    ensures t in ScanTable(s) <==> t != Foreign
    ensures t != Foreign ==> ScanTable(s)[t] == Wrap(t, ScanDefs(s, t))
  {
    ScanCompiles(s);
    ScanCovers(s, t);
    CompiledFrom(s, ScanOn(s), ScanIgnores(s), t);
  }

  /**
   The declared-pair accounting: each of the 23 states (3 + 2 + 18) declares each of the 20
   alphabet events, so nothing the page can send reaches a wildcard.
   */
  lemma EveryPairDeclared(c: Conn, o: Overlay, s: ScanState, t: EventType)
    requires InAlphabet(t)
    ensures t in ConnTable(c) && t in OverlayTable(o) && t in ScanTable(s)
  {
    ConnLookup(c, t);
    OverlayLookup(o, t);
    ScanLookup(s, t);
  }

  // ----- the table read as decisions -----

  datatype Decision<S> = Decision(target: Option<S>, action: Action)

  function Stay<S>(): Decision<S> { Decision(None, Nothing) }
  function Move<S>(s: S): Decision<S> { Decision(Some(s), Nothing) }
  function Chosen<S>(d: Def<S>): Decision<S> { Decision(d.target, d.action) }

  function ConnDecision(s: Conn, t: EventType): Decision<Conn> {
    match t
    case ConnDown => if s == Offline then Stay() else Move(Offline)
    case ProbeTimeout => if s == Offline then Stay() else Move(Offline)
    case ConnUp => if s == Offline then Move(Stale) else Stay()
    case Resubscribed => if s == Stale then Move(Online) else Stay()
    case _ => Stay()
  }

  function OverlayDecision(s: Overlay, c: Ctx, e: Event): Decision<Overlay> {
    match s
    case NoPrompt =>
      if e.kind == QrDecoded && c.sessionCode.Some? && c.sessionCode.value != e.code && Interruptible(c.sc)
      then Move(Prompt) else Stay()
    case Prompt =>
      if e.kind == Dismiss || e.kind == NextCustomer || e.kind == Unexpected then Move(NoPrompt) else Stay()
  }

  function ResolvedDecision(c: Ctx, e: Event): Decision<ScanState> {
    match e.resolution
    case KOfferReady => Decision(Some(OfferReady), RecordResolution)
    case KUnknownCode => Decision(Some(UnknownCode), RecordResolution)
    case KSpentLocally => Decision(Some(if c.conn == Online then OfferReady else SpentLocally), RecordResolution)
    case KExpiredLocally => Decision(Some(ExpiredLocally), RecordResolution)
    case KOther(_) => Stay()
  }

  function ScanDecision(s: ScanState, c: Ctx, e: Event): Decision<ScanState> {
    if c.ov == Prompt && !GateBypass(e.kind) then Stay()
    else if e.kind == Unexpected then (if s == UnexpectedEvent then Stay() else Move(UnexpectedEvent))
    else if !Reacts(s, e.kind) then Stay()
    else
      match e.kind
      case Scan => Move(Scanning)
      case QrDecoded => Decision(Some(Resolving), StartSession)
      case Resolved => ResolvedDecision(c, e)
      case OrderOk => Move(ReadyToSubmit)
      case Submit =>
        if c.conn == Online then Decision(Some(Submitting), EmitSubmit)
        else Decision(Some(BlockedOffline), CloseGate(s))
      case OverrideRequest =>
        if c.overrideAvailable then Decision(Some(OverrideConfirming), WarnUnverified) else Stay()
      case OverrideConfirm => Decision(Some(OverridePending), EmitAttempt)
      case OverrideCancel => Move(BlockedOffline)
      case Retry =>
        if s == Failed then Move(ReadyToSubmit)
        else if c.unexpectedReturn.Some? && c.unexpectedReturn.value != UnexpectedEvent
        then Move(c.unexpectedReturn.value)
        else Decision(Some(Idle), ResetSession)
      case NextCustomer => Decision(Some(Idle), ResetSession)
      case SrvRedeemed => Move(Redeemed)
      case SrvAlreadyUsed => Move(AlreadyUsed)
      case SrvExpired => Move(Expired)
      case SrvNotFound => Move(NotFound)
      case SrvError => Move(Failed)
      case Resubscribed =>
        if c.conn == Stale && (c.gateReturn == Some(ReadyToSubmit) || c.gateReturn == Some(UnknownCode))
        then Move(c.gateReturn.value) else Stay()
      case _ => Stay()
  }

  lemma ConnChoice(s: Conn, c: Ctx, e: Event)
    requires e.kind != Foreign
    ensures e.kind in ConnTable(s)
    ensures FirstEnabled(ConnTable(s)[e.kind], c, e).Some?
    ensures Chosen(FirstEnabled(ConnTable(s)[e.kind], c, e).value) == ConnDecision(s, e.kind)
  {
    ConnLookup(s, e.kind);
  }

  lemma DecodeChoice(c: Ctx, e: Event)
    requires e.kind == QrDecoded
    ensures var d := FirstEnabled(OverlayOn(NoPrompt)[QrDecoded], c, e);
            d.Some? && Chosen(d.value) == OverlayDecision(NoPrompt, c, e)
  {
    var defs := [Def(None, Some(SameSessionCode), Nothing, false), When(InterruptsSession, Prompt), NoOp()];
    assert OverlayOn(NoPrompt)[QrDecoded] == defs;
    FirstEnabledAt(defs, c, e, if Enabled(defs[0], c, e) then 0 else if Enabled(defs[1], c, e) then 1 else 2);
  }

  lemma OverlayDefsDecide(s: Overlay, c: Ctx, e: Event)
    ensures e.kind !in OverlayOn(s) ==> OverlayDecision(s, c, e) == Stay()
    ensures e.kind in OverlayOn(s) && (s == NoPrompt ==> e.kind != QrDecoded) ==>
              var d := FirstEnabled(OverlayOn(s)[e.kind], c, e);
              d.Some? && Chosen(d.value) == OverlayDecision(s, c, e)
  {
    OverlayOnKeys(s, e.kind);
  }

  lemma OverlayChoice(s: Overlay, c: Ctx, e: Event)
    requires e.kind != Foreign
    ensures e.kind in OverlayTable(s)
    ensures FirstEnabled(OverlayTable(s)[e.kind], c, e).Some?
    ensures Chosen(FirstEnabled(OverlayTable(s)[e.kind], c, e).value) == OverlayDecision(s, c, e)
  {
    OverlayLookup(s, e.kind);
    OverlayDefsDecide(s, c, e);
    if e.kind == QrDecoded && s == NoPrompt {
      DecodeChoice(c, e);
    }
  }

  lemma {:induction false} ByGuardAt<S>(defs: seq<Def<S>>, c: Ctx, e: Event, i: nat)
    requires i < |defs| && (defs[i].guard.Some? ==> Holds(defs[i].guard.value, c, e))
    requires forall j :: 0 <= j < i ==> defs[j].guard.Some? && !Holds(defs[j].guard.value, c, e)
    ensures ByGuard(defs, c, e) == Some(defs[i])
  {
    if i > 0 {
      ByGuardAt(defs[1..], c, e, i - 1);
    }
  }

  lemma {:induction false} ByGuardNone<S>(defs: seq<Def<S>>, c: Ctx, e: Event)
    requires forall j :: 0 <= j < |defs| ==> defs[j].guard.Some? && !Holds(defs[j].guard.value, c, e)
    ensures ByGuard(defs, c, e) == None
  {
    if defs != [] {
      ByGuardNone(defs[1..], c, e);
    }
  }

  /** The decision a guard chain amounts to once the overlay gate is open. */
  function Opened(defs: seq<Def<ScanState>>, c: Ctx, e: Event): Decision<ScanState> {
    var d := ByGuard(defs, c, e);
    if d.None? then Stay() else Chosen(d.value)
  }

  lemma ResolvedChain(c: Ctx, e: Event)
    ensures Ungated(ScanOn(Resolving)[Resolved]) && ScanOn(Resolving)[Resolved] != []
    ensures Opened(ScanOn(Resolving)[Resolved], c, e) == ResolvedDecision(c, e)
  {
    var defs := ScanOn(Resolving)[Resolved];
    match e.resolution
    case KOfferReady => ByGuardAt(defs, c, e, 0);
    case KUnknownCode => ByGuardAt(defs, c, e, 1);
    case KSpentLocally => ByGuardAt(defs, c, e, if c.conn == Online then 2 else 3);
    case KExpiredLocally => ByGuardAt(defs, c, e, 4);
    case KOther(_) => ByGuardNone(defs, c, e);
  }

  function ReturnIndex(s: ScanState): nat {
    match s
    case Idle => 0 case Scanning => 1 case Resolving => 2 case OfferReady => 3 case ReadyToSubmit => 4
    case UnknownCode => 5 case BlockedOffline => 6 case OverrideConfirming => 7 case OverridePending => 8
    case Submitting => 9 case Redeemed => 10 case AlreadyUsed => 11 case SpentLocally => 12
    case ExpiredLocally => 13 case Expired => 14 case NotFound => 15 case Failed => 16 case UnexpectedEvent => 17
  }

  lemma RetryEntry(i: nat)
    requires i < 17
    ensures var d := ScanOn(UnexpectedEvent)[Retry][i];
            exists s :: d == ReturnTo(s) && ReturnIndex(s) == i && s != UnexpectedEvent
  {
    var s := [Idle, Scanning, Resolving, OfferReady, ReadyToSubmit, UnknownCode, BlockedOffline, OverrideConfirming,
              OverridePending, Submitting, Redeemed, AlreadyUsed, SpentLocally, ExpiredLocally, Expired, NotFound,
              Failed][i];
    assert ScanOn(UnexpectedEvent)[Retry][i] == ReturnTo(s) && ReturnIndex(s) == i;
  }

  lemma RetryUngated()
    ensures |ScanOn(UnexpectedEvent)[Retry]| == 18 && Ungated(ScanOn(UnexpectedEvent)[Retry])
  {
    var defs := ScanOn(UnexpectedEvent)[Retry];
    forall i | 0 <= i < 17 ensures exists s :: defs[i] == ReturnTo(s) { RetryEntry(i); }
  }

  lemma RetryChain(c: Ctx, e: Event)
    requires e.kind == Retry && c.ov == NoPrompt
    ensures Opened(ScanOn(UnexpectedEvent)[Retry], c, e) == ScanDecision(UnexpectedEvent, c, e)
  {
    var defs := ScanOn(UnexpectedEvent)[Retry];
    assert |defs| == 18 && defs[17] == Def(Some(Idle), None, ResetSession, false);
    forall i | 0 <= i < 17 ensures exists s :: defs[i] == ReturnTo(s) && ReturnIndex(s) == i && s != UnexpectedEvent {
      RetryEntry(i);
    }
    hide ScanOn, Reacts;
    var i := if c.unexpectedReturn.Some? then ReturnIndex(c.unexpectedReturn.value) else 17;
    ByGuardAt(defs, c, e, i);
  }

  predicate Early(s: ScanState) { s == Idle || s == Scanning || s == OfferReady || s == BlockedOffline }

  lemma EarlyStep(s: ScanState, c: Ctx, e: Event)
    requires Early(s) && Reacts(s, e.kind) && e.kind != Resubscribed && e.kind != NextCustomer
    ensures Ungated(ScanOn(s)[e.kind]) && ScanOn(s)[e.kind] != []
    ensures c.ov == NoPrompt ==> Opened(ScanOn(s)[e.kind], c, e) == ScanDecision(s, c, e)
  {
    assert |ScanOn(s)[e.kind]| == 1;
    assert ByGuard(ScanOn(s)[e.kind][1..], c, e) == None;
  }

  lemma LateStep(s: ScanState, c: Ctx, e: Event)
    requires (s == OverrideConfirming || s == Submitting || s == Failed) && Reacts(s, e.kind) && e.kind != NextCustomer
    ensures Ungated(ScanOn(s)[e.kind]) && ScanOn(s)[e.kind] != []
    ensures c.ov == NoPrompt ==> Opened(ScanOn(s)[e.kind], c, e) == ScanDecision(s, c, e)
  {
    assert |ScanOn(s)[e.kind]| == 1;
    assert ByGuard(ScanOn(s)[e.kind][1..], c, e) == None;
  }

  /** The user-driven steps of one session, outside the retry of the error card. */
  lemma StepChain(s: ScanState, c: Ctx, e: Event)
    requires Reacts(s, e.kind) && !(s == UnexpectedEvent && e.kind == Retry) && e.kind != Resolved
    requires e.kind != Resubscribed && e.kind != Submit && e.kind != NextCustomer
    ensures Ungated(ScanOn(s)[e.kind]) && ScanOn(s)[e.kind] != []
    ensures c.ov == NoPrompt ==> Opened(ScanOn(s)[e.kind], c, e) == ScanDecision(s, c, e)
  {
    hide ScanOn, Opened, ScanDecision;
    if Early(s) { EarlyStep(s, c, e); } else { LateStep(s, c, e); }
  }

  lemma ResetChain(s: ScanState, c: Ctx, e: Event)
    requires Reacts(s, NextCustomer) && e.kind == NextCustomer
    ensures ScanOn(s)[NextCustomer] == [Def(Some(Idle), None, ResetSession, false)]
    ensures Opened(ScanOn(s)[NextCustomer], c, e) == ScanDecision(s, c, e)
  {
    assert Resettable()[NextCustomer] == [Def(Some(Idle), None, ResetSession, false)];
  }

  lemma SubmitChain(s: ScanState, c: Ctx, e: Event)
    requires Reacts(s, Submit) && e.kind == Submit
    ensures Ungated(ScanOn(s)[Submit]) && ScanOn(s)[Submit] != []
    ensures c.ov == NoPrompt ==> Opened(ScanOn(s)[Submit], c, e) == ScanDecision(s, c, e)
  {
    var defs := [Def(Some(Submitting), Some(IsOnline), EmitSubmit, false),
                 Def(Some(BlockedOffline), None, CloseGate(s), false)];
    assert ScanOn(s)[Submit] == defs;
    ByGuardAt(defs, c, e, if c.conn == Online then 0 else 1);
  }

  lemma ResumeChain(c: Ctx, e: Event)
    requires e.kind == Resubscribed
    ensures Ungated(ScanOn(BlockedOffline)[Resubscribed]) && ScanOn(BlockedOffline)[Resubscribed] != []
    ensures Opened(ScanOn(BlockedOffline)[Resubscribed], c, e) == ScanDecision(BlockedOffline, c, e)
  {
    var defs := [When(ResumesTo(ReadyToSubmit), ReadyToSubmit), When(ResumesTo(UnknownCode), UnknownCode)];
    assert ScanOn(BlockedOffline)[Resubscribed] == defs;
    if c.conn == Stale && c.gateReturn == Some(ReadyToSubmit) {
      ByGuardAt(defs, c, e, 0);
    } else if c.conn == Stale && c.gateReturn == Some(UnknownCode) {
      ByGuardAt(defs, c, e, 1);
    } else {
      ByGuardNone(defs, c, e);
    }
  }

  lemma QuietDefs(s: ScanState, c: Ctx, e: Event)
    requires e.kind != Foreign && !Reacts(s, e.kind)
    ensures Ungated(ScanDefs(s, e.kind)) && ScanDefs(s, e.kind) != []
    ensures c.ov == NoPrompt || GateBypass(e.kind) ==> Opened(ScanDefs(s, e.kind), c, e) == ScanDecision(s, c, e)
  {
    ScanOnKeys(s, e.kind);
    assert ByGuard(ScanDefs(s, e.kind), c, e) == Some(ScanDefs(s, e.kind)[0]);
  }

  lemma DeclaredDefs(s: ScanState, t: EventType)
    requires Reacts(s, t)
    ensures t in ScanOn(s) && ScanDefs(s, t) == ScanOn(s)[t]
  {
    ScanOnKeys(s, t);
  }

  lemma ReactingDefs(s: ScanState, c: Ctx, e: Event)
    requires Reacts(s, e.kind) && e.kind in ScanOn(s)
    ensures Ungated(ScanOn(s)[e.kind]) && ScanOn(s)[e.kind] != []
    ensures c.ov == NoPrompt || GateBypass(e.kind) ==> Opened(ScanOn(s)[e.kind], c, e) == ScanDecision(s, c, e)
  {
    hide Opened;
    if e.kind == Resolved {
      ResolvedChain(c, e);
    } else if e.kind == Submit {
      SubmitChain(s, c, e);
    } else if e.kind == Resubscribed {
      ResumeChain(c, e);
    } else if e.kind == NextCustomer {
      ResetChain(s, c, e);
    } else if s == UnexpectedEvent && e.kind == Retry {
      RetryUngated();
      if c.ov == NoPrompt { RetryChain(c, e); }
    } else {
      StepChain(s, c, e);
    }
  }

  lemma ScanDefsDecide(s: ScanState, c: Ctx, e: Event)
    requires e.kind != Foreign
    ensures Ungated(ScanDefs(s, e.kind)) && ScanDefs(s, e.kind) != []
    ensures c.ov == NoPrompt || GateBypass(e.kind) ==> Opened(ScanDefs(s, e.kind), c, e) == ScanDecision(s, c, e)
  {
    hide Opened, ScanDecision, ScanOn, ScanDefs;
    if Reacts(s, e.kind) {
      DeclaredDefs(s, e.kind);
      ReactingDefs(s, c, e);
    } else {
      QuietDefs(s, c, e);
    }
  }

  /** The compiled candidate lists decide exactly as the decision form does, in every context. */
  lemma ScanChoice(s: ScanState, c: Ctx, e: Event)
    requires e.kind != Foreign
    ensures e.kind in ScanTable(s)
    ensures FirstEnabled(ScanTable(s)[e.kind], c, e).Some?
    ensures Chosen(FirstEnabled(ScanTable(s)[e.kind], c, e).value) == ScanDecision(s, c, e)
  {
    ScanLookup(s, e.kind);
    ScanDefsDecide(s, c, e);
    WrapMeaning(e.kind, ScanDefs(s, e.kind), c, e);
  }
}
