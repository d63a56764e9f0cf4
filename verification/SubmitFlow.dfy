/**
 The page that drives the submit machine: the mapping of scan results to RESOLVED, with the second lookup
 a spent code waits for, the order number, reachability, and the record an offline override enqueues.
 */
module SubmitFlow {
  import opened Prelude
  import opened CampaignPolicy
  import opened SubmitSupport
  import opened SubmitMachine
  import opened SubmitTable
  import opened SubmitRun
  import opened SubmitMoves
  import opened SubmitSafety
  import Redemption

  // ----- mapping a scan result -----

  /** The result the resolver hands over. An embedded offer carries what its descriptor says of itself. */
  datatype ScanResult =
    | Offered(codeId: string, campaign: Option<string>)
    | SpentCode
    | EmbeddedOffer(claimed: Option<string>, faceValue: Option<int>)
    | NoSuchCode
    | Dead
    | Unmapped

  /** For a spent code the page looks the code's document up itself, across an await. */
  datatype Lookup = Threw | NothingFound | Found(codeId: string, campaign: Option<string>)

  /** What a stash is made from: the result alone, or for a spent code the lookup. */
  datatype Basis = Direct(result: ScanResult) | AfterLookup(lookup: Lookup)

  /** SUBMIT_CTX, with what it was made from and the policy that was asked kept for the statements below. */
  datatype Stash = Stash(
    tokenHash: string, codeId: Option<string>, value: Option<int>, policyUnresolved: bool,
    kind: Kind, requiresOnline: bool, basis: Basis, policy: Policy, onTime: bool)

  function KindOf(b: Basis): Option<Kind> {
    match b
    case AfterLookup(_) => Some(KSpentLocally)
    case Direct(Offered(_, _)) => Some(KOfferReady)
    case Direct(EmbeddedOffer(_, _)) => Some(KUnknownCode)
    case Direct(NoSuchCode) => Some(KUnknownCode)
    case Direct(Dead) => Some(KExpiredLocally)
    case Direct(_) => None
  }

  /** The code document the flow has in hand, if any. */
  function DocOf(b: Basis): Option<(string, Option<string>)> {
    match b
    case Direct(Offered(codeId, campaign)) => Some((codeId, campaign))
    case AfterLookup(Found(codeId, campaign)) => Some((codeId, campaign))
    case _ => None
  }

  function StashOf(hash: string, b: Basis, policy: Policy, session: Option<string>): Stash
    requires KindOf(b).Some?
  {
    var value := if b.Direct? && b.result.EmbeddedOffer? then b.result.faceValue else None;
    var doc := DocOf(b);
    if doc.Some?
    then Stash(hash, Some(doc.value.0), value, PolicyUnresolved(policy, doc.value.1), KindOf(b).value,
               RequiresOnline(policy, doc.value.1), b, policy, session == Some(hash))
    else Stash(hash, None, value, PolicyUnresolved(policy, None), KindOf(b).value, false, b, policy,
               session == Some(hash))
  }

  // ----- the page -----

  /** ORDER_STATE: the entry as typed, whether it validates, and the value last taken from it. */
  datatype Order = Order(raw: string, ok: bool, value: string)

  const NO_ORDER := Order("", false, "")

  /** A lookup in flight, with the policy as read when it started. */
  datatype Pending = Pending(hash: string, policy: Policy)

  /** The sync clock's reading and its business date. */
  datatype Stamp = Stamp(at: int, day: string)

  /** Who runs the page: the entitlement and the user it records, fixed at boot. */
  datatype Crew = Crew(canOverride: bool, user: Option<string>)

  /**
   What doOverrideWrite enqueues; with it, for the statements below, the stash it was made from, the stash
   whose RESOLVED the machine had taken, and the machine's session code.
   */
  datatype Record = Record(
    code: string, unverified: bool, audit: Redemption.Audit,
    stash: Stash, granted: Stash, sessionCode: Option<string>)

  /** `granted` is history: the stash whose RESOLVED the machine took, until the session ends. */
  datatype Page = Page(
    m: Snapshot, stash: Option<Stash>, granted: Option<Stash>, order: Order, pending: seq<Pending>,
    stamp: Stamp, crew: Crew, records: seq<Record>)

  function NonEmpty(s: string): Option<string> { if s == "" then None else Some(s) }

  function RecordOf(fx: Effect, p: Page, session: Option<string>): Record
    requires fx.WriteAttempt? && p.stash.Some?
  {
    var s := p.stash.value;
    Record(if s.codeId.Some? && s.codeId.value != "" then s.codeId.value else s.tokenHash, fx.unverifiedCode,
           Redemption.Audit(p.stamp.at, true, p.crew.user, s.policyUnresolved, NonEmpty(p.order.value), p.stamp.day,
                            s.value),
           s, if p.granted.Some? then p.granted.value else s, session)
  }

  function RecordsOf(fx: seq<Effect>, p: Page, session: Option<string>): seq<Record> {
    if fx == [] || p.stash.None? then []
    else (if fx[0].WriteAttempt? then [RecordOf(fx[0], p, session)] else []) + RecordsOf(fx[1..], p, session)
  }

  /** The machine leaves resolving on a RESOLVED: the session is resolved. */
  predicate Takes(before: ScanState, e: Event, after: ScanState) {
    e.kind == Resolved && before == Resolving && after != Resolving
  }

  /** One machine.send: effects are drained, and entering idle clears the session. */
  function Send(p: Page, e: Event): Page {
    var (m, fx) := Advance(p.m, e);
    var cleared := m.scan == Idle && p.m.scan != Idle;
    p.(m := m,
       stash := if cleared then None else p.stash,
       granted := if m.scan == Idle then None else if Takes(p.m.scan, e, m.scan) then p.stash else p.granted,
       order := if cleared then NO_ORDER else p.order,
       records := p.records + RecordsOf(fx, p, m.ctx.sessionCode))
  }

  function SendAll(p: Page, events: seq<Event>): Page { FoldLeft(Send, p, events) }

  datatype Status = Subscribed | ChannelDown | OtherStatus

  datatype PageEvent =
    | Gate(decoded: Option<string>)
    | OnResult(hash: string, result: ScanResult, policy: Policy)
    | LookupEnds(k: nat, lookup: Lookup, policy: Policy)
    | Typed(raw: string)
    | PressSubmit
    | PressConfirm
    | Press(button: EventType)
    | HandleProbe(ok: bool)
    | ChannelStatus(status: Status)
    | Verdict(verdict: EventType)
    | Ticks(stamp: Stamp)

  /** The controls that send as they are. */
  predicate Pressable(t: EventType) {
    t == OverrideRequest || t == OverrideCancel || t == Retry || t == Dismiss || t == NextCustomer
  }

  function Resolution(s: Stash): Event { Event(Resolved, "", s.kind, s.requiresOnline) }

  /** The stash a handler makes. */
  function Made(p: Page, e: PageEvent): Option<Stash> {
    match e
    case OnResult(hash, r, policy) =>
      if p.m.scan == Resolving && KindOf(Direct(r)).Some?
      then Some(StashOf(hash, Direct(r), policy, p.m.ctx.sessionCode)) else None
    case LookupEnds(k, lookup, policy) =>
      if k >= |p.pending| then None
      else Some(StashOf(p.pending[k].hash, AfterLookup(lookup), if lookup.Found? then policy else p.pending[k].policy,
                        p.m.ctx.sessionCode))
    case _ => None
  }

  /** A stash made from a result alone was made by that result's arrival. */
  lemma MadeFrom(p: Page, e: PageEvent, s: Stash)
    requires Made(p, e) == Some(s) && s.basis.Direct?
    ensures e == OnResult(s.tokenHash, s.basis.result, s.policy)
  {
  }

  function Checked(o: Order): Order {
    var v := ValidateOrderNumber(o.raw);
    if v.ok then o.(ok := true, value := v.value) else o.(ok := false)
  }

  /** The handler's own assignments, before anything it sends. */
  function Before(p: Page, e: PageEvent): Page {
    match e
    case OnResult(hash, r, policy) =>
      if p.m.scan == Resolving && r.SpentCode? then p.(pending := p.pending + [Pending(hash, policy)])
      else if Made(p, e).Some? then p.(stash := Made(p, e), order := NO_ORDER)
      else p
    case LookupEnds(k, _, _) =>
      if k >= |p.pending| then p
      else p.(stash := Made(p, e), order := NO_ORDER, pending := p.pending[..k] + p.pending[k + 1..])
    case Typed(raw) =>
      var v := ValidateOrderNumber(raw);
      p.(order := Order(raw, v.ok, if v.ok then v.value else ""))
    case PressSubmit => p.(order := Checked(p.order))
    case PressConfirm => p.(order := Checked(p.order))
    case Ticks(stamp) => p.(stamp := stamp)
    case _ => p
  }

  /** What the handler sends. */
  function Sends(p: Page, e: PageEvent): seq<Event> {
    match e
    case Gate(hash) =>
      if hash.None? then []
      else (if p.m.scan == Idle then [Signal(Scan)] else []) + [Event(QrDecoded, hash.value, KOther(""), false)]
    case OnResult(_, _, _) => if Made(p, e).Some? then [Resolution(Made(p, e).value)] else []
    case LookupEnds(_, _, _) => if Made(p, e).Some? then [Resolution(Made(p, e).value)] else []
    case Typed(raw) => if ValidateOrderNumber(raw).ok && p.m.scan == OfferReady then [Signal(OrderOk)] else []
    case PressSubmit => if Checked(p.order).ok then [Signal(Submit)] else []
    case PressConfirm => if Checked(p.order).ok then [Signal(OverrideConfirm)] else []
    case Press(t) => if Pressable(t) then [Signal(t)] else []
    case HandleProbe(ok) =>
      if !ok then [Signal(ProbeTimeout)]
      else if p.m.connectivity == Offline then [Signal(ConnUp), Signal(Resubscribed)]
      else if p.m.connectivity == Stale then [Signal(Resubscribed)]
      else []
    case ChannelStatus(status) =>
      if status == Subscribed then (if p.m.connectivity == Stale then [Signal(Resubscribed)] else [])
      else if status == ChannelDown then [Signal(ProbeTimeout)]
      else []
    case Verdict(t) => if IsVerdict(t) then [Signal(t)] else []
    case Ticks(_) => []
  }

  function PageStep(p: Page, e: PageEvent): Page { SendAll(Before(p, e), Sends(p, e)) }

  function Played(p: Page, events: seq<PageEvent>): Page { FoldLeft(PageStep, p, events) }

  /** The page at boot: no liveness is claimed before a probe has answered. */
  function FreshPage(crew: Crew): Page {
    Send(Page(Boot(crew.canOverride), None, None, NO_ORDER, [], Stamp(0, ""), crew, []), Signal(ProbeTimeout))
  }

  function PageRun(crew: Crew, events: seq<PageEvent>): Page { Played(FreshPage(crew), events) }

  lemma EffectsAreOne(m: Snapshot, e: Event)
    ensures |Advance(m, e).1| <= 1
  {
  }

  lemma WritesOne(p: Page, fx: Effect, session: Option<string>)
    ensures RecordsOf([fx], p, session) == if p.stash.Some? && fx.WriteAttempt? then [RecordOf(fx, p, session)] else []
  {
    assert RecordsOf([fx][1..], p, session) == [];
  }

  lemma HandlerSends(p: Page, e: PageEvent, q: Page, sends: seq<Event>)
    requires Before(p, e) == q && Sends(p, e) == sends
    ensures PageStep(p, e) == FoldLeft(Send, q, sends)
  {
  }

  /** The running flow: the session variables, the machine it drives, and the override writes it makes. */
  class FlowPage {
    const crew: Crew
    var m: Snapshot
    var stash: Option<Stash>
    var granted: Option<Stash>
    var order: Order
    var pending: seq<Pending>
    var stamp: Stamp
    var records: seq<Record>

    constructor (crew: Crew)
      ensures At() == FreshPage(crew)
    {
      this.crew := crew;
      m, stash, granted, order := Boot(crew.canOverride), None, None, NO_ORDER;
      pending, stamp, records := [], Stamp(0, ""), [];
      new;
      SendEvent(Signal(ProbeTimeout));
    }

    ghost function At(): Page
      reads this
    {
      Page(m, stash, granted, order, pending, stamp, crew, records)
    }

    /** The enqueue an offline override makes, from the session variables as they are when the effect is handled. */
    method DoOverrideWrite(fx: Effect)
      requires fx.WriteAttempt?
      modifies this`records
      ensures stash.None? ==> records == old(records)
      ensures stash.Some? ==>
                var s := stash.value;
                var orderNumber := if order.value == "" then None else Some(order.value);
                var audit := Redemption.Audit(stamp.at, true, crew.user, s.policyUnresolved, orderNumber, stamp.day,
                                              s.value);
                var code := if s.codeId.Some? && s.codeId.value != "" then s.codeId.value else s.tokenHash;
                var grant := if granted.Some? then granted.value else s;
                records == old(records) + [Record(code, fx.unverifiedCode, audit, s, grant, m.ctx.sessionCode)]
    {
      if stash.None? { return; }
      var s := stash.value;
      var code := if s.codeId.Some? && s.codeId.value != "" then s.codeId.value else s.tokenHash;
      var orderNumber := NonEmpty(order.value);
      var audit := Redemption.Audit(stamp.at, true, crew.user, s.policyUnresolved, orderNumber, stamp.day, s.value);
      var grant := if granted.Some? then granted.value else s;
      records := records + [Record(code, fx.unverifiedCode, audit, s, grant, m.ctx.sessionCode)];
    }

    /** machine.send, its change listener, and the effects it queued. */
    method SendEvent(e: Event)
      modifies this`m, this`stash, this`granted, this`order, this`records
      ensures At() == Send(old(At()), e)
    {
      hide Advance;
      ghost var p := At();
      var before := m;
      var (after, fx) := Advance(m, e);
      EffectsAreOne(m, e);
      m := after;
      if Takes(before.scan, e, m.scan) { granted := stash; }
      if m.scan == Idle {
        granted := None;
        if before.scan != Idle { stash, order := None, NO_ORDER; }
      }
      if |fx| > 0 {
        assert fx == [fx[0]];
        WritesOne(p, fx[0], m.ctx.sessionCode);
        if fx[0].WriteAttempt? {
          WriterStays(before, e, fx[0]);
          DoOverrideWrite(fx[0]);
        }
      }
    }

    method GateScan(decoded: Option<string>)
      modifies this
      ensures At() == PageStep(old(At()), Gate(decoded))
    {
      ghost var p := At();
      if decoded.None? {
        HandlerSends(p, Gate(decoded), p, []);
        return;
      }
      var e := Event(QrDecoded, decoded.value, KOther(""), false);
      if m.scan == Idle {
        HandlerSends(p, Gate(decoded), p, [Signal(Scan), e]);
        FoldTwo(Send, p, Signal(Scan), e);
        SendEvent(Signal(Scan));
      } else {
        HandlerSends(p, Gate(decoded), p, [e]);
        FoldOne(Send, p, e);
      }
      SendEvent(e);
    }

    /** onResult up to its await: a spent code's lookup is started, anything else is stashed and sent. */
    method ResultArrived(hash: string, result: ScanResult, policy: Policy)
      modifies this
      ensures At() == PageStep(old(At()), OnResult(hash, result, policy))
    {
      ghost var p, e := At(), OnResult(hash, result, policy);
      if m.scan != Resolving {
        HandlerSends(p, e, p, []);
        return;
      }
      if result.SpentCode? {
        pending := pending + [Pending(hash, policy)];
        HandlerSends(p, e, At(), []);
        return;
      }
      if KindOf(Direct(result)).None? {
        HandlerSends(p, e, p, []);
        return;
      }
      var made := StashOf(hash, Direct(result), policy, m.ctx.sessionCode);
      stash, order := Some(made), NO_ORDER;
      HandlerSends(p, e, At(), [Resolution(made)]);
      FoldOne(Send, At(), Resolution(made));
      SendEvent(Resolution(made));
    }

    /** The rest of onResult for a spent code: nothing asks again whether the session is still resolving. */
    method LookupReturned(k: nat, lookup: Lookup, policy: Policy)
      modifies this
      ensures At() == PageStep(old(At()), LookupEnds(k, lookup, policy))
    {
      ghost var p, e := At(), LookupEnds(k, lookup, policy);
      if k >= |pending| {
        HandlerSends(p, e, p, []);
        return;
      }
      var made := StashOf(pending[k].hash, AfterLookup(lookup),
                          if lookup.Found? then policy else pending[k].policy, m.ctx.sessionCode);
      pending := pending[..k] + pending[k + 1..];
      stash, order := Some(made), NO_ORDER;
      HandlerSends(p, e, At(), [Resolution(made)]);
      FoldOne(Send, At(), Resolution(made));
      SendEvent(Resolution(made));
    }

    method OrderTyped(raw: string)
      modifies this
      ensures At() == PageStep(old(At()), Typed(raw))
    {
      ghost var p := At();
      var v := ValidateOrderNumber(raw);
      order := Order(raw, v.ok, if v.ok then v.value else "");
      if v.ok && m.scan == OfferReady {
        HandlerSends(p, Typed(raw), At(), [Signal(OrderOk)]);
        FoldOne(Send, At(), Signal(OrderOk));
        SendEvent(Signal(OrderOk));
      } else {
        HandlerSends(p, Typed(raw), At(), []);
      }
    }

    /** dispatchOrValidate: SUBMIT and OVERRIDE_CONFIRM are sent only with a valid order number. */
    method DispatchOrValidate(confirm: bool)
      modifies this
      ensures At() == PageStep(old(At()), if confirm then PressConfirm else PressSubmit)
    {
      ghost var p, e := At(), if confirm then PressConfirm else PressSubmit;
      var v := ValidateOrderNumber(order.raw);
      if !v.ok {
        order := order.(ok := false);
        HandlerSends(p, e, At(), []);
        return;
      }
      order := order.(ok := true, value := v.value);
      var t := Signal(if confirm then OverrideConfirm else Submit);
      HandlerSends(p, e, At(), [t]);
      FoldOne(Send, At(), t);
      SendEvent(t);
    }

    method ProbeAnswered(ok: bool)
      modifies this
      ensures At() == PageStep(old(At()), HandleProbe(ok))
    {
      ghost var p := At();
      var conn := m.connectivity;
      if ok {
        if conn == Offline {
          HandlerSends(p, HandleProbe(ok), p, [Signal(ConnUp), Signal(Resubscribed)]);
          FoldTwo(Send, p, Signal(ConnUp), Signal(Resubscribed));
          SendEvent(Signal(ConnUp));
          SendEvent(Signal(Resubscribed));
        } else if conn == Stale {
          HandlerSends(p, HandleProbe(ok), p, [Signal(Resubscribed)]);
          FoldOne(Send, p, Signal(Resubscribed));
          SendEvent(Signal(Resubscribed));
        } else {
          HandlerSends(p, HandleProbe(ok), p, []);
        }
      } else {
        HandlerSends(p, HandleProbe(ok), p, [Signal(ProbeTimeout)]);
        FoldOne(Send, p, Signal(ProbeTimeout));
        SendEvent(Signal(ProbeTimeout));
      }
    }

    /** reportChannelStatus: a subscribed channel is the refetch a stale page waits for, a dead one is unreachable. */
    method ChannelReported(status: Status)
      modifies this
      ensures At() == PageStep(old(At()), ChannelStatus(status))
    {
      ghost var p := At();
      if status.Subscribed? && m.connectivity.Stale? {
        HandlerSends(p, ChannelStatus(status), p, [Signal(Resubscribed)]);
        FoldOne(Send, p, Signal(Resubscribed));
        SendEvent(Signal(Resubscribed));
      } else if status.ChannelDown? {
        HandlerSends(p, ChannelStatus(status), p, [Signal(ProbeTimeout)]);
        FoldOne(Send, p, Signal(ProbeTimeout));
        SendEvent(Signal(ProbeTimeout));
      } else {
        HandlerSends(p, ChannelStatus(status), p, []);
      }
    }

    /** The buttons that send as they are, and the submit request's verdict; no other event comes this way. */
    method Relayed(t: EventType, verdict: bool)
      modifies this
      ensures At() == PageStep(old(At()), if verdict then Verdict(t) else Press(t))
    {
      ghost var p, e := At(), if verdict then Verdict(t) else Press(t);
      var sent := if verdict then t in {SrvRedeemed, SrvAlreadyUsed, SrvExpired, SrvNotFound, SrvError}
                  else t in {OverrideRequest, OverrideCancel, Retry, Dismiss, NextCustomer};
      if sent {
        HandlerSends(p, e, p, [Signal(t)]);
        FoldOne(Send, p, Signal(t));
        SendEvent(Signal(t));
      } else {
        HandlerSends(p, e, p, []);
      }
    }
  }

  /** A write moves the machine from the confirmation to pending, on the confirm alone. */
  lemma WriterStays(m: Snapshot, e: Event, fx: Effect)
    requires fx in Advance(m, e).1 && fx.WriteAttempt?
    ensures e.kind == OverrideConfirm && m.scan == OverrideConfirming && Advance(m, e).0.scan == OverridePending
    ensures Advance(m, e).0.ctx.sessionCode == m.ctx.sessionCode
  {
    WriterStands(m, e, fx);
  }

  // ----- the invariant -----

  predicate Dated(s: Stash, session: Option<string>) { s.onTime <==> session == Some(s.tokenHash) }

  ghost predicate StashTrue(s: Stash) {
    KindOf(s.basis).Some? && exists session :: s == StashOf(s.tokenHash, s.basis, s.policy, session)
  }

  function CodeOf(s: Stash): string { if s.codeId.Some? && s.codeId.value != "" then s.codeId.value else s.tokenHash }

  /** A record carries the stash in hand under the grant the machine gave. */
  ghost predicate RecordTrue(r: Record, crew: Crew) {
    && StashTrue(r.stash) && StashTrue(r.granted) && Dated(r.stash, r.sessionCode) && Dated(r.granted, r.sessionCode)
    && crew.canOverride && !r.granted.requiresOnline && r.granted.kind != KExpiredLocally
    && r.unverified == (r.granted.kind == KUnknownCode)
    && r.code == CodeOf(r.stash)
    && r.audit.offlineOverride && r.audit.overrideBy == crew.user
    && r.audit.policyUnresolved == r.stash.policyUnresolved && r.audit.redeemedValue == r.stash.value
    && r.audit.posOrderNumber.Some? && OrderNumber(r.audit.posOrderNumber.value)
  }

  ghost predicate Usable(s: Option<Stash>, session: Option<string>) {
    s.Some? && StashTrue(s.value) && Dated(s.value, session)
  }

  ghost predicate FlowTrue(p: Page, session: Session) {
    && Mirrored(p.m) && p.m.scan != UnexpectedEvent && p.m.ctx.unexpectedReturn == None
    && Sound(p.m.scan, p.m.ctx, session)
    && (session.resolved.None? ==> p.granted.None?)
    && (session.resolved.Some? ==>
          && Usable(p.stash, p.m.ctx.sessionCode) && Usable(p.granted, p.m.ctx.sessionCode)
          && session.resolved == Some((p.granted.value.kind, p.granted.value.requiresOnline)))
  }

  ghost predicate RecordsTrue(p: Page) {
    p.m.ctx.canOverride == p.crew.canOverride && forall i :: 0 <= i < |p.records| ==> RecordTrue(p.records[i], p.crew)
  }

  lemma SessionCodeDecided(d: Decision<ScanState>, sc: ScanState, c: Ctx, e: Event)
    requires d == ScanDecision(sc, c, e) && InAlphabet(e.kind) && sc != UnexpectedEvent
    ensures d.action == StartSession ==> d.target == Some(Resolving) && sc == Scanning
    ensures d.action == ResetSession ==> d.target == Some(Idle)
  {
  }

  lemma ActOnSessionCode(a: Action, c: Ctx, e: Event)
    ensures a != StartSession && a != ResetSession ==> Act(a, c, e).sessionCode == c.sessionCode
  {
  }

  /** The session code is set when a session starts and cleared at idle, and at no other time. */
  lemma SessionCodeMoves(s: Snapshot, e: Event)
    requires Mirrored(s) && InAlphabet(e.kind) && s.scan != UnexpectedEvent
    ensures var t := Advance(s, e).0;
            t.ctx.sessionCode == s.ctx.sessionCode || t.scan == Idle || (s.scan == Scanning && t.scan == Resolving)
  {
    var d := ScanDecision(s.scan, s.ctx, e);
    SessionCodeDecided(d, s.scan, s.ctx, e);
    ActOnSessionCode(d.action, s.ctx, e);
  }

  lemma ResolvedSession(s: Snapshot, session: Session, e: Event)
    requires Sound(s.scan, s.ctx, session) && Mirrored(s) && InAlphabet(e.kind)
    ensures var (t, fx) := Advance(s, e);
            var next := NextSession(s.scan, e, t.scan, fx, session);
            next.resolved.Some? ==>
              (t.scan != Idle
               && (next.resolved == session.resolved
                   || (e.kind == Resolved && s.scan == Resolving
                       && next.resolved == Some((e.resolution, e.requiresOnline)))))
  {
  }

  function SessionAfter(p: Page, e: Event, session: Session): Session {
    NextSession(p.m.scan, e, Advance(p.m, e).0.scan, Advance(p.m, e).1, session)
  }

  /** A RESOLVED the machine can take is the one the stash was made for; a confirm has a valid order number. */
  ghost predicate Matches(p: Page, e: Event) {
    && (e.kind == Resolved && p.m.scan == Resolving ==>
          Usable(p.stash, p.m.ctx.sessionCode) && e.resolution == p.stash.value.kind
              && e.requiresOnline == p.stash.value.requiresOnline)
    && (e.kind == OverrideConfirm ==> OrderNumber(p.order.value))
  }

  lemma SendKeeps(p: Page, session: Session, e: Event)
    requires FlowTrue(p, session) && InAlphabet(e.kind) && Matches(p, e)
    ensures FlowTrue(Send(p, e), SessionAfter(p, e, session))
  {
    SoundStep(p.m, session, e);
    AlphabetKeepsClear(p.m, e);
    AdvanceMirrored(p.m, e);
    SessionCodeMoves(p.m, e);
    ResolvedSession(p.m, session, e);
  }

  lemma WritersSession(m: Snapshot, session: Session, e: Event, fx: Effect)
    requires Mirrored(m) && Sound(m.scan, m.ctx, session) && InAlphabet(e.kind)
    requires fx in Advance(m, e).1 && fx.WriteAttempt?
    ensures m.ctx.canOverride && session.resolved.Some? && !session.resolved.value.1
    ensures session.resolved.value.0 != KExpiredLocally
    ensures fx.unverifiedCode == (session.resolved.value.0 == KUnknownCode)
    ensures Advance(m, e).0.ctx.sessionCode == m.ctx.sessionCode && e.kind == OverrideConfirm
  {
    WriterStands(m, e, fx);
    WriterStays(m, e, fx);
  }

  lemma CanOverrideFixed(m: Snapshot, e: Event)
    ensures Advance(m, e).0.ctx.canOverride == m.ctx.canOverride
  {
  }

  lemma SendRecords(p: Page, session: Session, e: Event)
    requires FlowTrue(p, session) && InAlphabet(e.kind) && Matches(p, e) && RecordsTrue(p)
    ensures RecordsTrue(Send(p, e))
  {
    var fx := Advance(p.m, e).1;
    EffectsAreOne(p.m, e);
    CanOverrideFixed(p.m, e);
    if fx != [] {
      assert fx == [fx[0]];
      WritesOne(p, fx[0], Advance(p.m, e).0.ctx.sessionCode);
      if fx[0].WriteAttempt? {
        WritersSession(p.m, session, e, fx[0]);
      }
    }
  }

  // ----- page events -----

  function SessionAfterAll(p: Page, events: seq<Event>, session: Session): Session
    decreases |events|
  {
    if events == [] then session
    else
      var front := events[..|events| - 1];
      SessionAfter(SendAll(p, front), events[|events| - 1], SessionAfterAll(p, front, session))
  }

  /** Only the first event of what a handler sends can be a RESOLVED or a confirm. */
  ghost predicate Sendable(p: Page, events: seq<Event>) {
    && (forall i :: 0 <= i < |events| ==> InAlphabet(events[i].kind))
    && (forall i :: 1 <= i < |events| ==> events[i].kind != Resolved && events[i].kind != OverrideConfirm)
    && (events != [] ==> Matches(p, events[0]))
  }

  lemma {:induction false} SendAllKeeps(p: Page, session: Session, events: seq<Event>)
    requires FlowTrue(p, session) && RecordsTrue(p) && Sendable(p, events)
    ensures FlowTrue(SendAll(p, events), SessionAfterAll(p, events, session)) && RecordsTrue(SendAll(p, events))
    decreases |events|
  {
    if events != [] {
      var front, e := events[..|events| - 1], events[|events| - 1];
      SendAllKeeps(p, session, front);
      var q := SendAll(p, front);
      assert Matches(q, e);
      SendKeeps(q, SessionAfterAll(p, front, session), e);
      SendRecords(q, SessionAfterAll(p, front, session), e);
    }
  }

  lemma MadeUsable(p: Page, e: PageEvent)
    ensures Made(p, e).Some? ==> Usable(Made(p, e), p.m.ctx.sessionCode)
  {
    if Made(p, e).Some? {
      var s := Made(p, e).value;
      assert s == StashOf(s.tokenHash, s.basis, s.policy, p.m.ctx.sessionCode);
    }
  }

  lemma HandlersSend(p: Page, e: PageEvent)
    ensures Sendable(Before(p, e), Sends(p, e))
  {
    MadeUsable(p, e);
  }

  lemma BeforeKeeps(p: Page, session: Session, e: PageEvent)
    requires FlowTrue(p, session) && RecordsTrue(p)
    ensures FlowTrue(Before(p, e), session) && RecordsTrue(Before(p, e))
  {
    MadeUsable(p, e);
  }

  function SessionRun(crew: Crew, events: seq<PageEvent>): Session {
    if events == [] then FRESH
    else
      var p := PageRun(crew, events[..|events| - 1]);
      var e := events[|events| - 1];
      SessionAfterAll(Before(p, e), Sends(p, e), SessionRun(crew, events[..|events| - 1]))
  }

  lemma FreshIsTrue(crew: Crew)
    ensures FlowTrue(FreshPage(crew), FRESH) && RecordsTrue(FreshPage(crew))
    ensures FreshPage(crew).m.connectivity == Offline && FreshPage(crew).m.scan == Idle
            && FreshPage(crew).m.overlay == NoPrompt
    ensures FreshPage(crew).records == [] && FreshPage(crew).pending == [] && FreshPage(crew).crew == crew
  {
    hide Advance;
    OnProbeTimeout(Boot(crew.canOverride));
  }

  lemma {:induction false} CrewFixed(p: Page, events: seq<Event>)
    ensures SendAll(p, events).crew == p.crew
    decreases |events|
  {
    if events != [] {
      CrewFixed(p, events[..|events| - 1]);
    }
  }

  lemma PageStepKeeps(p: Page, session: Session, e: PageEvent)
    requires FlowTrue(p, session) && RecordsTrue(p)
    ensures FlowTrue(PageStep(p, e), SessionAfterAll(Before(p, e), Sends(p, e), session))
    ensures RecordsTrue(PageStep(p, e)) && PageStep(p, e).crew == p.crew
  {
    BeforeKeeps(p, session, e);
    HandlersSend(p, e);
    SendAllKeeps(Before(p, e), session, Sends(p, e));
    CrewFixed(Before(p, e), Sends(p, e));
  }

  lemma {:induction false} FlowRun(crew: Crew, events: seq<PageEvent>)
    ensures FlowTrue(PageRun(crew, events), SessionRun(crew, events))
    ensures RecordsTrue(PageRun(crew, events)) && PageRun(crew, events).crew == crew
    decreases |events|
  {
    if events == [] {
      FreshIsTrue(crew);
    } else {
      FlowRun(crew, events[..|events| - 1]);
      PageStepKeeps(PageRun(crew, events[..|events| - 1]), SessionRun(crew, events[..|events| - 1]),
                    events[|events| - 1]);
    }
  }
}
