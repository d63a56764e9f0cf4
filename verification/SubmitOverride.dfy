/**
 What an offline override records, over every run of the page: under which grant, for which code, and exactly
 when one can be recorded for a code of a campaign that must be verified online.
 */
module SubmitOverride {
  import opened Prelude
  import opened CampaignPolicy
  import opened SubmitSupport
  import opened SubmitMachine
  import opened SubmitTable
  import opened SubmitRun
  import opened SubmitSafety
  import opened SubmitMoves
  import opened SubmitFlow

  // ----- every record -----

  /** The code the flow has a document of: an offered one, or a spent one it found. */
  function CodeIn(b: Basis): Option<string> {
    match b
    case Direct(Offered(code, _)) => Some(code)
    case AfterLookup(Found(code, _)) => Some(code)
    case _ => None
  }

  /** And the campaign that document names. */
  function CampaignIn(b: Basis): Option<string> {
    match b
    case Direct(Offered(_, campaign)) => campaign
    case AfterLookup(Found(_, campaign)) => campaign
    case _ => None
  }

  /** The policy lets the document in hand through, or there is none to ask about. */
  predicate Permits(b: Basis, policy: Policy) {
    var c := CampaignIn(b);
    c.None? || c.value == "" || Overridable(policy, c.value)
  }

  predicate Unsigned(b: Basis) { b.Direct? && (b.result.EmbeddedOffer? || b.result.NoSuchCode?) }

  lemma StashMeaning(s: Stash)
    requires StashTrue(s)
    ensures s.requiresOnline <==> !Permits(s.basis, s.policy)
    ensures s.kind == KUnknownCode <==> Unsigned(s.basis)
    ensures s.codeId == CodeIn(s.basis)
    ensures s.policyUnresolved == PolicyUnresolved(s.policy, CampaignIn(s.basis))
    ensures s.value
            == if s.basis.Direct? && s.basis.result.EmbeddedOffer? then s.basis.result.faceValue else None
  {
    if CampaignIn(s.basis).Some? && CampaignIn(s.basis).value != "" {
      RequiresOnlineExactly(s.policy, CampaignIn(s.basis).value);
    }
  }

  /**
   Override safety across policy, flow and machine: in every run, each enqueued override was made by an
   entitled crew member under a grant whose campaign, if the flow had the code's document in hand, was
   replicated and not required online when the session resolved; it is flagged unverified exactly when that
   session resolved without a document; and it names its crew member and a valid order number.
   */
  lemma FlowOverrideSafety(crew: Crew, events: seq<PageEvent>, i: nat)
    requires i < |PageRun(crew, events).records|
    ensures var r := PageRun(crew, events).records[i];
            && crew.canOverride && Permits(r.granted.basis, r.granted.policy)
            && (r.unverified <==> Unsigned(r.granted.basis))
            && r.audit.offlineOverride && r.audit.overrideBy == crew.user
            && r.audit.posOrderNumber.Some? && OrderNumber(r.audit.posOrderNumber.value)
  {
    FlowRun(crew, events);
    var r := PageRun(crew, events).records[i];
    assert RecordTrue(r, crew);
    StashMeaning(r.granted);
  }

  /** The code and the value recorded are those of the stash in hand, a token hash where it names no document. */
  lemma RecordNamesStash(crew: Crew, events: seq<PageEvent>, i: nat)
    requires i < |PageRun(crew, events).records|
    ensures var r := PageRun(crew, events).records[i];
            var c := CodeIn(r.stash.basis);
            && r.code == (if c.Some? && c.value != "" then c.value else r.stash.tokenHash)
            && r.audit.redeemedValue
               == if r.stash.basis.Direct? && r.stash.basis.result.EmbeddedOffer? then r.stash.basis.result.faceValue
                  else None
  {
    FlowRun(crew, events);
    var r := PageRun(crew, events).records[i];
    assert RecordTrue(r, crew);
    StashMeaning(r.stash);
  }

  /**
   A record is verified and yet without a document exactly when its session was granted for a code the replica
   knew, and the stash in hand has no document; where nothing ended late, when the session's lookup failed.
   */
  lemma VerifiedWithoutDocument(crew: Crew, events: seq<PageEvent>, i: nat)
    requires i < |PageRun(crew, events).records|
    ensures var r := PageRun(crew, events).records[i];
            && (!r.unverified && CodeIn(r.stash.basis).None?
                <==> !Unsigned(r.granted.basis) && CodeIn(r.stash.basis).None?)
            && (r.stash == r.granted ==>
                  (!r.unverified && CodeIn(r.stash.basis).None?
                   <==> r.granted.basis == AfterLookup(Threw) || r.granted.basis == AfterLookup(NothingFound)))
  {
    FlowOverrideSafety(crew, events, i);
    RecordBasis(crew, events, i);
  }

  /** A record is for the code the session was opened with exactly when its stash was made for that session. */
  lemma RecordMatchesSession(crew: Crew, events: seq<PageEvent>, i: nat)
    requires i < |PageRun(crew, events).records|
    ensures var r := PageRun(crew, events).records[i];
            r.sessionCode == Some(r.stash.tokenHash) <==> r.stash.onTime
  {
    FlowRun(crew, events);
    assert RecordTrue(PageRun(crew, events).records[i], crew);
  }

  /** The discriminator recorded is what the policy source answered when the stash was made, whatever it says later. */
  lemma DiscriminatorIsScanTime(crew: Crew, events: seq<PageEvent>, i: nat)
    requires i < |PageRun(crew, events).records|
    ensures var r := PageRun(crew, events).records[i];
            var c := CampaignIn(r.stash.basis);
            r.audit.policyUnresolved <==>
              match r.stash.policy
              case None => true
              case Some(src) =>
                if c.None? || c.value == "" then src.attached && (!src.ready || src.lastError.Some?)
                else c.value !in src.byId
  {
    FlowRun(crew, events);
    var r := PageRun(crew, events).records[i];
    assert RecordTrue(r, crew);
    StashMeaning(r.stash);
  }

  // ----- when the stash in hand is the one the grant was made for -----

  /** A lookup that ends after its session, or a later one, was resolved, and puts another stash in hand. */
  predicate Swaps(p: Page, e: PageEvent) {
    e.LookupEnds? && e.k < |p.pending| && p.granted.Some? && Made(p, e) != p.granted
  }

  predicate NeverSwaps(crew: Crew, events: seq<PageEvent>)
    decreases |events|
  {
    events != [] ==>
      && NeverSwaps(crew, events[..|events| - 1])
      && !Swaps(PageRun(crew, events[..|events| - 1]), events[|events| - 1])
  }

  predicate InHand(p: Page) {
    && (p.granted.Some? ==> p.stash == p.granted)
    && forall i :: 0 <= i < |p.records| ==> p.records[i].stash == p.records[i].granted
  }

  lemma SendKeepsInHand(p: Page, e: Event)
    requires InHand(p)
    ensures InHand(Send(p, e))
  {
    hide Advance;
    var fx := Advance(p.m, e).1;
    EffectsAreOne(p.m, e);
    if fx != [] {
      assert fx == [fx[0]];
      WritesOne(p, fx[0], Advance(p.m, e).0.ctx.sessionCode);
    }
  }

  lemma {:induction false} SendAllKeepsInHand(p: Page, events: seq<Event>)
    requires InHand(p)
    ensures InHand(SendAll(p, events))
    decreases |events|
  {
    if events != [] {
      SendAllKeepsInHand(p, events[..|events| - 1]);
      SendKeepsInHand(SendAll(p, events[..|events| - 1]), events[|events| - 1]);
    }
  }

  lemma OneSend(p: Page, e: PageEvent, t: Event)
    requires Sends(p, e) == [t]
    ensures PageStep(p, e) == Send(Before(p, e), t)
  {
    FoldOne(Send, Before(p, e), t);
  }

  lemma LateResolvedIgnored(p: Page, session: Session, t: Event)
    requires FlowTrue(p, session) && p.granted.Some? && t.kind == Resolved
    ensures Send(p, t).stash == p.stash && Send(p, t).granted == p.granted && Send(p, t).records == p.records
    ensures Send(p, t).m.scan == p.m.scan && Send(p, t).m.ctx.sessionCode == p.m.ctx.sessionCode
  {
    hide Advance;
    OnResolvedElsewhere(p.m, t);
  }

  lemma LateLookupStep(p: Page, session: Session, e: PageEvent)
    requires FlowTrue(p, session) && RecordsTrue(p) && e.LookupEnds? && e.k < |p.pending| && p.granted.Some?
    ensures var q := PageStep(p, e);
            && q.stash == Made(p, e) && q.granted == p.granted && q.records == p.records
            && q.m.scan == p.m.scan && q.m.ctx.sessionCode == p.m.ctx.sessionCode
  {
    BeforeKeeps(p, session, e);
    OneSend(p, e, Resolution(Made(p, e).value));
    LateResolvedIgnored(Before(p, e), session, Resolution(Made(p, e).value));
  }

  lemma StepInHand(p: Page, session: Session, e: PageEvent)
    requires FlowTrue(p, session) && RecordsTrue(p) && InHand(p)
    ensures InHand(PageStep(p, e)) <==> !Swaps(p, e)
  {
    if Swaps(p, e) {
      LateLookupStep(p, session, e);
    } else {
      SendAllKeepsInHand(Before(p, e), Sends(p, e));
    }
  }

  ghost predicate InHandThroughout(crew: Crew, events: seq<PageEvent>)
    decreases |events|
  {
    InHand(PageRun(crew, events)) && (events != [] ==> InHandThroughout(crew, events[..|events| - 1]))
  }

  /**
   Over a run every session's stash, and every record, is the one the machine was granted for throughout,
   exactly when no lookup ends late with another stash.
   */
  lemma {:induction false} StashIsGrantedExactly(crew: Crew, events: seq<PageEvent>)
    ensures InHandThroughout(crew, events) <==> NeverSwaps(crew, events)
    decreases |events|
  {
    if events == [] {
      FreshIsTrue(crew);
    } else {
      var front := events[..|events| - 1];
      StashIsGrantedExactly(crew, front);
      if InHandThroughout(crew, front) {
        FlowRun(crew, front);
        StepInHand(PageRun(crew, front), SessionRun(crew, front), events[|events| - 1]);
      }
    }
  }

  // ----- asking for the override -----

  /** Dismiss a prompt, lose the connection, type an order number, SUBMIT, and ask for the override. */
  function OverrideScript(raw: string): seq<PageEvent> {
    [Press(Dismiss), HandleProbe(false), Typed(raw)] + [PressSubmit, Press(OverrideRequest), PressConfirm]
  }

  /** A resolved session short of its submit. */
  predicate Armed(p: Page) {
    p.m.scan == OfferReady || p.m.scan == ReadyToSubmit || p.m.scan == UnknownCode
  }

  /** From `p` the page came to stand at `sc`, prompt closed, nothing of the session changed. */
  predicate Stands(p: Page, q: Page, sc: ScanState) {
    && Mirrored(q.m) && q.m.scan == sc && q.m.overlay == NoPrompt
    && q.stash == p.stash && q.granted == p.granted && q.records == p.records && q.crew == p.crew
    && q.m.ctx.canOverride == p.m.ctx.canOverride && q.m.ctx.sessionCode == p.m.ctx.sessionCode
    && q.m.ctx.requiresOnline == p.m.ctx.requiresOnline
  }

  lemma PromptDismissed(p: Page)
    requires Mirrored(p.m) && Armed(p) && GateSane(p.m.ctx)
    ensures Stands(p, PageStep(p, Press(Dismiss)), p.m.scan)
  {
    hide Advance;
    OneSend(p, Press(Dismiss), Signal(Dismiss));
    OnDismiss(p.m);
  }

  lemma ProbeFails(p: Page)
    requires Mirrored(p.m) && Armed(p) && p.m.overlay == NoPrompt
    ensures var q := PageStep(p, HandleProbe(false)); Stands(p, q, p.m.scan) && q.m.connectivity == Offline
  {
    hide Advance;
    OneSend(p, HandleProbe(false), Signal(ProbeTimeout));
    OnProbeTimeout(p.m);
  }

  lemma NumberTyped(p: Page, raw: string)
    requires Mirrored(p.m) && Armed(p) && p.m.overlay == NoPrompt && ValidateOrderNumber(raw).ok
    ensures var q := PageStep(p, Typed(raw));
            Stands(p, q, if p.m.scan == OfferReady then ReadyToSubmit else p.m.scan)
            && q.m.connectivity == p.m.connectivity && q.order.raw == raw
  {
    hide Advance, ValidateOrderNumber;
    if p.m.scan == OfferReady {
      OneSend(p, Typed(raw), Signal(OrderOk));
      OnOrderOk(p.m);
    }
  }

  lemma SubmitRefused(p: Page)
    requires Mirrored(p.m) && (p.m.scan == ReadyToSubmit || p.m.scan == UnknownCode) && p.m.overlay == NoPrompt
    requires p.m.connectivity == Offline && ValidateOrderNumber(p.order.raw).ok
    ensures var q := PageStep(p, PressSubmit);
            Stands(p, q, BlockedOffline) && q.order.raw == p.order.raw
            && q.m.ctx.overrideAvailable == (p.m.ctx.canOverride && !p.m.ctx.requiresOnline)
  {
    hide Advance, ValidateOrderNumber;
    OneSend(p, PressSubmit, Signal(Submit));
    OnSubmitRefused(p.m);
  }

  lemma OverrideRequested(p: Page)
    requires Mirrored(p.m) && p.m.scan == BlockedOffline && p.m.overlay == NoPrompt
    ensures var q := PageStep(p, Press(OverrideRequest));
            && Stands(p, q, if p.m.ctx.overrideAvailable then OverrideConfirming else BlockedOffline)
            && q.order.raw == p.order.raw
  {
    hide Advance;
    OneSend(p, Press(OverrideRequest), Signal(OverrideRequest));
    OnOverrideRequest(p.m);
  }

  /** The one record more, made from what the page holds. */
  predicate OneMore(p: Page, q: Page, orderNumber: string) {
    && |q.records| == |p.records| + 1 && q.records[..|p.records|] == p.records
    && p.stash.Some? && p.granted.Some?
    && var r := q.records[|p.records|];
       && r.stash == p.stash.value && r.granted == p.granted.value && r.sessionCode == p.m.ctx.sessionCode
       && r.code == CodeOf(p.stash.value) && r.audit.posOrderNumber == Some(orderNumber)
  }

  lemma OrderIsTaken(raw: string)
    requires ValidateOrderNumber(raw).ok
    ensures NonEmpty(ValidateOrderNumber(raw).value) == Some(ValidateOrderNumber(raw).value)
  {
  }

  lemma OverrideConfirmed(p: Page)
    requires Mirrored(p.m) && (p.m.scan == OverrideConfirming || p.m.scan == BlockedOffline) && p.m.overlay == NoPrompt
    requires ValidateOrderNumber(p.order.raw).ok && p.stash.Some? && p.granted.Some?
    ensures var q := PageStep(p, PressConfirm);
            if p.m.scan == OverrideConfirming then OneMore(p, q, ValidateOrderNumber(p.order.raw).value)
            else q.records == p.records
  {
    hide Advance, ValidateOrderNumber;
    OneSend(p, PressConfirm, Signal(OverrideConfirm));
    OnOverrideConfirm(p.m);
    if p.m.scan == OverrideConfirming {
      OrderIsTaken(p.order.raw);
      WritesOne(Before(p, PressConfirm), WriteAttempt(true, p.m.ctx.resolutionKind == Some(KUnknownCode)),
                p.m.ctx.sessionCode);
    }
  }

  /** The script enqueues one record or none, exactly by grant and flag. */
  lemma OverrideExactly(p: Page, raw: string)
    requires Mirrored(p.m) && Armed(p) && GateSane(p.m.ctx) && p.stash.Some? && p.granted.Some?
    requires ValidateOrderNumber(raw).ok
    ensures var q := Played(p, OverrideScript(raw));
            if p.m.ctx.canOverride && !p.m.ctx.requiresOnline then OneMore(p, q, ValidateOrderNumber(raw).value)
            else q.records == p.records
  {
    var p1 := PageStep(p, Press(Dismiss));
    var p2 := PageStep(p1, HandleProbe(false));
    var p3 := PageStep(p2, Typed(raw));
    var p4 := PageStep(p3, PressSubmit);
    var p5 := PageStep(p4, Press(OverrideRequest));
    PromptDismissed(p);
    ProbeFails(p1);
    NumberTyped(p2, raw);
    SubmitRefused(p3);
    OverrideRequested(p4);
    OverrideConfirmed(p5);
    FoldThree(PageStep, p, Press(Dismiss), HandleProbe(false), Typed(raw));
    FoldThree(PageStep, p3, PressSubmit, Press(OverrideRequest), PressConfirm);
    FoldAppend(PageStep, p, [Press(Dismiss), HandleProbe(false), Typed(raw)],
               [PressSubmit, Press(OverrideRequest), PressConfirm]);
  }

  lemma ArmedIsGranted(crew: Crew, events: seq<PageEvent>)
    requires Armed(PageRun(crew, events))
    ensures var p := PageRun(crew, events);
            && Mirrored(p.m) && GateSane(p.m.ctx) && p.m.ctx.canOverride == crew.canOverride
            && p.stash.Some? && p.granted.Some? && StashTrue(p.granted.value)
            && p.m.ctx.requiresOnline == p.granted.value.requiresOnline
  {
    FlowRun(crew, events);
  }

  /**
   From every page a run can reach with a resolved session short of its submit, the script records an override
   exactly when the crew member is entitled and the document the session resolved with names no campaign, or
   one this device may override, or when there was no document.
   */
  lemma OverrideIff(crew: Crew, events: seq<PageEvent>, raw: string)
    requires Armed(PageRun(crew, events)) && ValidateOrderNumber(raw).ok
    ensures var p, q := PageRun(crew, events), PageRun(crew, events + OverrideScript(raw));
            && p.granted.Some?
            && (if crew.canOverride && Permits(p.granted.value.basis, p.granted.value.policy)
                then OneMore(p, q, ValidateOrderNumber(raw).value) else q.records == p.records)
  {
    ArmedIsGranted(crew, events);
    StashMeaning(PageRun(crew, events).granted.value);
    OverrideExactly(PageRun(crew, events), raw);
    FoldAppend(PageStep, FreshPage(crew), events, OverrideScript(raw));
  }

  /** A continuation of the run records an override under the grant `s`. */
  predicate Records(crew: Crew, events: seq<PageEvent>, more: seq<PageEvent>, i: nat, s: Stash) {
    |PageRun(crew, events).records| <= i < |PageRun(crew, events + more).records|
        && PageRun(crew, events + more).records[i].granted == s
  }

  lemma OneIsValid()
    ensures ValidateOrderNumber("1").ok
  {
  }

  /** Whatever the crew do next, an override under the session's grant is possible exactly in those cases. */
  lemma RecordableExactly(crew: Crew, events: seq<PageEvent>)
    requires Armed(PageRun(crew, events)) && PageRun(crew, events).granted.Some?
    ensures var s := PageRun(crew, events).granted.value;
            (exists more, i :: Records(crew, events, more, i, s)) <==> crew.canOverride && Permits(s.basis, s.policy)
  {
    hide ValidateOrderNumber, PageRun, OverrideScript;
    var p := PageRun(crew, events);
    var s := p.granted.value;
    if exists more, i :: Records(crew, events, more, i, s) {
      var more, i :| Records(crew, events, more, i, s);
      FlowOverrideSafety(crew, events + more, i);
    }
    if crew.canOverride && Permits(s.basis, s.policy) {
      var raw := "1";
      OneIsValid();
      OverrideIff(crew, events, raw);
      assert Records(crew, events, OverrideScript(raw), |p.records|, s);
    }
  }

  // ----- against the codes that were issued -----

  datatype IssuedCode = IssuedCode(id: string, campaign: Option<string>)

  /** The codes table by token hash, which is unique in it. */
  type Issued = string -> Option<IssuedCode>

  /** A document the stash names is the issued one. */
  predicate Says(s: Stash, issued: Issued) {
    CodeIn(s.basis).Some? ==> issued(s.tokenHash) == Some(IssuedCode(CodeIn(s.basis).value, CampaignIn(s.basis)))
  }

  predicate OptSays(s: Option<Stash>, issued: Issued) { s.Some? ==> Says(s.value, issued) }

  /** The replicas show codes as they were issued; they may be late, empty or unreadable. */
  predicate TruthfulRun(crew: Crew, events: seq<PageEvent>, issued: Issued)
    decreases |events|
  {
    events != [] ==>
      && TruthfulRun(crew, events[..|events| - 1], issued)
      && OptSays(Made(PageRun(crew, events[..|events| - 1]), events[|events| - 1]), issued)
  }

  // ----- what holds of every stash -----

  predicate OptHolds(s: Option<Stash>, ok: Stash -> bool) { s.Some? ==> ok(s.value) }

  /** Every stash the page has or has recorded is one of these. */
  predicate Throughout(p: Page, ok: Stash -> bool) {
    && OptHolds(p.stash, ok) && OptHolds(p.granted, ok)
    && forall i :: 0 <= i < |p.records| ==> ok(p.records[i].stash) && ok(p.records[i].granted)
  }

  lemma SendThroughout(p: Page, e: Event, ok: Stash -> bool)
    requires Throughout(p, ok)
    ensures Throughout(Send(p, e), ok)
  {
    hide Advance;
    var fx := Advance(p.m, e).1;
    EffectsAreOne(p.m, e);
    if fx != [] {
      assert fx == [fx[0]];
      WritesOne(p, fx[0], Advance(p.m, e).0.ctx.sessionCode);
    }
  }

  lemma {:induction false} SendAllThroughout(p: Page, events: seq<Event>, ok: Stash -> bool)
    requires Throughout(p, ok)
    ensures Throughout(SendAll(p, events), ok)
    decreases |events|
  {
    if events != [] {
      SendAllThroughout(p, events[..|events| - 1], ok);
      SendThroughout(SendAll(p, events[..|events| - 1]), events[|events| - 1], ok);
    }
  }

  lemma StepThroughout(p: Page, e: PageEvent, ok: Stash -> bool)
    requires Throughout(p, ok) && OptHolds(Made(p, e), ok)
    ensures Throughout(PageStep(p, e), ok)
  {
    SendAllThroughout(Before(p, e), Sends(p, e), ok);
  }

  function Saying(issued: Issued): Stash -> bool { (s: Stash) => Says(s, issued) }

  lemma {:induction false} RunSays(crew: Crew, events: seq<PageEvent>, issued: Issued)
    requires TruthfulRun(crew, events, issued)
    ensures Throughout(PageRun(crew, events), Saying(issued))
    decreases |events|
  {
    if events == [] {
      FreshIsTrue(crew);
    } else {
      RunSays(crew, events[..|events| - 1], issued);
      StepThroughout(PageRun(crew, events[..|events| - 1]), events[|events| - 1], Saying(issued));
    }
  }

  /** The k-th event of the run made this stash. */
  predicate MadeAt(crew: Crew, events: seq<PageEvent>, k: nat, s: Stash) {
    k < |events| && Made(PageRun(crew, events[..k]), events[k]) == Some(s)
  }

  function MadeIn(crew: Crew, events: seq<PageEvent>): Stash -> bool {
    (s: Stash) => exists k :: 0 <= k < |events| && MadeAt(crew, events, k, s)
  }

  lemma MadeEarlier(crew: Crew, events: seq<PageEvent>, s: Stash)
    requires events != [] && MadeIn(crew, events[..|events| - 1])(s)
    ensures MadeIn(crew, events)(s)
  {
    var front := events[..|events| - 1];
    var k :| 0 <= k < |front| && MadeAt(crew, front, k, s);
    assert front[..k] == events[..k] && MadeAt(crew, events, k, s);
  }

  lemma MadeLast(crew: Crew, events: seq<PageEvent>)
    requires events != []
    ensures OptHolds(Made(PageRun(crew, events[..|events| - 1]), events[|events| - 1]), MadeIn(crew, events))
  {
    var n := |events| - 1;
    if Made(PageRun(crew, events[..n]), events[n]).Some? {
      assert MadeAt(crew, events, n, Made(PageRun(crew, events[..n]), events[n]).value);
    }
  }

  /** Every stash a page has or has recorded was made by an event of its run. */
  lemma {:induction false} EveryStashIsMade(crew: Crew, events: seq<PageEvent>)
    ensures Throughout(PageRun(crew, events), MadeIn(crew, events))
    decreases |events|
  {
    hide Made, MadeIn, MadeAt, Throughout, OptHolds;
    if events == [] {
      NothingMade(crew);
    } else {
      var front, e := events[..|events| - 1], events[|events| - 1];
      var p, ok := PageRun(crew, front), MadeIn(crew, events);
      EveryStashIsMade(crew, front);
      forall s | MadeIn(crew, front)(s) ensures ok(s) {
        MadeEarlier(crew, events, s);
      }
      MadeLast(crew, events);
      ThroughoutAlso(p, MadeIn(crew, front), ok);
      StepThroughout(p, e, ok);
    }
  }

  lemma NothingMade(crew: Crew)
    ensures Throughout(PageRun(crew, []), MadeIn(crew, []))
  {
    FreshIsTrue(crew);
  }

  lemma ThroughoutAlso(p: Page, ok: Stash -> bool, ok': Stash -> bool)
    requires Throughout(p, ok) && forall s :: ok(s) ==> ok'(s)
    ensures Throughout(p, ok')
  {
  }

  // ----- the holes -----

  /** The session resolved without asking the policy about a document. */
  predicate Unseen(b: Basis) {
    b == AfterLookup(Threw) || b == AfterLookup(NothingFound) || Unsigned(b)
  }

  /** The issued code may be overridden on this device. */
  predicate MayOverride(code: Option<IssuedCode>, policy: Policy) {
    code.Some? && (code.value.campaign.None? || code.value.campaign.value == ""
                   || Overridable(policy, code.value.campaign.value))
  }

  lemma BasisOfKind(s: Stash)
    requires StashTrue(s) && s.kind != KExpiredLocally
    ensures CodeIn(s.basis).None? <==> Unseen(s.basis)
  {
  }

  lemma RecordBasis(crew: Crew, events: seq<PageEvent>, i: nat)
    requires i < |PageRun(crew, events).records|
    ensures var b := PageRun(crew, events).records[i].granted.basis;
            CodeIn(b).None? <==> Unseen(b)
  {
    hide FlowTrue, StashTrue;
    FlowRun(crew, events);
    assert RecordTrue(PageRun(crew, events).records[i], crew);
    BasisOfKind(PageRun(crew, events).records[i].granted);
  }

  /**
   No grant is recorded for a code that may not be overridden, unless its document was never in hand; so a
   record of such a code was made unseen, or a late lookup put it under another code's grant.
   */
  lemma GuardedUnlessUnseen(crew: Crew, events: seq<PageEvent>, issued: Issued, i: nat)
    requires TruthfulRun(crew, events, issued) && i < |PageRun(crew, events).records|
    ensures var r := PageRun(crew, events).records[i];
            && (!MayOverride(issued(r.granted.tokenHash), r.granted.policy) ==> Unseen(r.granted.basis))
            && (!MayOverride(issued(r.stash.tokenHash), r.stash.policy) ==>
                  Unseen(r.stash.basis) || r.stash != r.granted)
  {
    RunSays(crew, events, issued);
    FlowOverrideSafety(crew, events, i);
    RecordBasis(crew, events, i);
  }

  lemma ArmedBasis(crew: Crew, events: seq<PageEvent>)
    requires Armed(PageRun(crew, events)) && PageRun(crew, events).granted.Some?
    ensures var b := PageRun(crew, events).granted.value.basis;
            CodeIn(b).None? <==> Unseen(b)
  {
    FlowRun(crew, events);
    var p := PageRun(crew, events);
    assert p.m.ctx.resolutionKind == Some(p.granted.value.kind);
    BasisOfKind(p.granted.value);
  }

  /**
   The exact holes: for a code as it was issued, an override is recorded exactly when the crew member is
   entitled and either the code may be overridden on this device, or its session resolved unseen: a spent
   code whose second lookup threw or found nothing, an embedded offer, or a code no replica knows.
   */
  lemma HolesExactly(crew: Crew, events: seq<PageEvent>, issued: Issued, raw: string)
    requires TruthfulRun(crew, events, issued) && Armed(PageRun(crew, events)) && ValidateOrderNumber(raw).ok
    ensures var p, q := PageRun(crew, events), PageRun(crew, events + OverrideScript(raw));
            && p.granted.Some?
            && var s := p.granted.value;
               var granted := crew.canOverride && (Unseen(s.basis) || MayOverride(issued(s.tokenHash), s.policy));
               |q.records| == |p.records| + if granted then 1 else 0
  {
    hide PageRun, ValidateOrderNumber, TruthfulRun, OverrideScript;
    OverrideIff(crew, events, raw);
    RunSays(crew, events, issued);
    ArmedBasis(crew, events);
  }

  // ----- runs that reach the holes -----

  lemma TwoSends(p: Page, e: PageEvent, t: Event, u: Event)
    requires Sends(p, e) == [t, u]
    ensures PageStep(p, e) == Send(Send(Before(p, e), t), u)
  {
    FoldTwo(Send, Before(p, e), t, u);
  }

  /** A page with nothing open, whose probe has answered. */
  predicate Waiting(p: Page, conn: Conn) {
    Mirrored(p.m) && p.m.scan == Idle && p.m.overlay == NoPrompt && p.m.connectivity == conn && p.granted.None?
    && p.m.ctx.sessionCode.None?
  }

  predicate Opened(p: Page, h: string, conn: Conn) {
    && Mirrored(p.m) && p.m.scan == Resolving && p.m.overlay == NoPrompt && p.m.connectivity == conn
    && p.m.ctx.sessionCode == Some(h)
  }

  lemma Gated(p: Page, h: string)
    requires Waiting(p, p.m.connectivity)
    ensures var q := PageStep(p, Gate(Some(h)));
            Opened(q, h, p.m.connectivity) && q.records == p.records && q.pending == p.pending
  {
    hide Advance;
    var decoded := Event(QrDecoded, h, KOther(""), false);
    TwoSends(p, Gate(Some(h)), Signal(Scan), decoded);
    OnScan(p.m);
    OnDecoded(Send(p, Signal(Scan)).m, h);
  }

  lemma FreshWaits(crew: Crew)
    ensures Waiting(FreshPage(crew), Offline) && FreshPage(crew).records == [] && FreshPage(crew).pending == []
  {
    FreshIsTrue(crew);
  }

  lemma ConnectionUp(p: Page)
    requires Waiting(p, Offline)
    ensures var q := Send(p, Signal(ConnUp)); Waiting(q, Stale) && q.records == p.records && q.pending == p.pending
  {
    hide Advance;
    OnConnUp(p.m);
  }

  lemma Refetched(p: Page)
    requires Waiting(p, Stale)
    ensures var q := Send(p, Signal(Resubscribed));
            Waiting(q, Online) && q.records == p.records && q.pending == p.pending
  {
    hide Advance;
    OnResubscribed(p.m);
  }

  lemma ProbeSends(p: Page)
    requires p.m.connectivity == Offline
    ensures Sends(p, HandleProbe(true)) == [Signal(ConnUp), Signal(Resubscribed)] && Before(p, HandleProbe(true)) == p
  {
  }

  /** A waiting page's probe answers. */
  lemma Reached(p: Page)
    requires Waiting(p, Offline)
    ensures var q := PageStep(p, HandleProbe(true));
            Waiting(q, Online) && q.records == p.records && q.pending == p.pending
  {
    ProbeSends(p);
    TwoSends(p, HandleProbe(true), Signal(ConnUp), Signal(Resubscribed));
    ConnectionUp(p);
    Refetched(Send(p, Signal(ConnUp)));
  }

  lemma NextFrees(p: Page, h: string)
    requires Opened(p, h, p.m.connectivity)
    ensures var q := PageStep(p, Press(NextCustomer));
            Waiting(q, p.m.connectivity) && q.records == p.records && q.pending == p.pending
  {
    hide Advance;
    OneSend(p, Press(NextCustomer), Signal(NextCustomer));
    OnNextCustomer(p.m);
  }

  lemma LookupStarted(p: Page, h: string, policy: Policy)
    requires Opened(p, h, p.m.connectivity)
    ensures PageStep(p, OnResult(h, SpentCode, policy)) == p.(pending := p.pending + [Pending(h, policy)])
  {
  }

  lemma BeforeTaking(p: Page, e: PageEvent, made: Stash)
    requires Made(p, e) == Some(made) && (e.OnResult? || e.LookupEnds?)
    ensures var b := Before(p, e);
            b.m == p.m && b.stash == Some(made) && b.granted == p.granted && b.records == p.records
    ensures Sends(p, e) == [Resolution(made)]
  {
  }

  /** The machine takes the RESOLVED an open session's handler sends. */
  lemma Taken(p: Page, e: PageEvent, made: Stash)
    requires Clear(p.m, Resolving) && Made(p, e) == Some(made) && !made.kind.KOther?
    requires e.OnResult? || e.LookupEnds?
    ensures var q := PageStep(p, e);
            && q.m == ScanMoved(p.m, ResolvesTo(made.kind, p.m.connectivity).value,
                                p.m.ctx.(resolutionKind := Some(made.kind), requiresOnline := made.requiresOnline))
            && q.stash == q.granted == Some(made) && q.records == p.records
            && q.pending == Before(p, e).pending
  {
    BeforeTaking(p, e, made);
    hide Advance, Made, Before, Sends;
    OneSend(p, e, Resolution(made));
    OnResolved(p.m, made.kind, made.requiresOnline);
  }

  /** A result that resolves the session to an unknown code, whatever code it was made for. */
  lemma UnknownStands(p: Page, current: string, h: string, result: ScanResult, policy: Policy)
    requires Opened(p, current, p.m.connectivity) && (result.NoSuchCode? || result.EmbeddedOffer?)
    ensures var q := PageStep(p, OnResult(h, result, policy));
            && Mirrored(q.m) && q.m.scan == UnknownCode && q.m.overlay == NoPrompt
               && q.m.ctx.sessionCode == Some(current)
            && q.stash == q.granted == Some(StashOf(h, Direct(result), policy, Some(current)))
            && q.records == p.records && q.pending == p.pending
  {
    var made, e := StashOf(h, Direct(result), policy, Some(current)), OnResult(h, result, policy);
    assert Made(p, e) == Some(made);
    assert made.kind == KUnknownCode;
    assert Before(p, e).pending == p.pending;
    hide PageStep, Made, Before;
    Taken(p, e, made);
  }

  lemma SpentStands(p: Page, h: string, lookup: Lookup, policy: Policy)
    requires Opened(p, h, Online) && p.pending == [Pending(h, policy)]
    ensures var q := PageStep(p, LookupEnds(0, lookup, policy));
            && q.m.scan == OfferReady && q.records == p.records
            && q.stash == q.granted == Some(StashOf(h, AfterLookup(lookup), policy, Some(h)))
    ensures Made(p, LookupEnds(0, lookup, policy)) == Some(StashOf(h, AfterLookup(lookup), policy, Some(h)))
  {
    var made, e := StashOf(h, AfterLookup(lookup), policy, Some(h)), LookupEnds(0, lookup, policy);
    assert Made(p, e) == Some(made) && made.kind == KSpentLocally;
    hide PageStep, Made, StashOf, Before;
    Taken(p, e, made);
  }

  /** Under the prompt a RESOLVED is ignored, whatever made it. */
  lemma PromptDrops(p: Page, e: PageEvent)
    requires Mirrored(p.m) && p.m.overlay == Prompt && (e.OnResult? || e.LookupEnds?)
    ensures PageStep(p, e).m == p.m
  {
    hide Advance, StashOf;
    if Made(p, e).Some? {
      OneSend(p, e, Resolution(Made(p, e).value));
      OnResolvedElsewhere(p.m, Resolution(Made(p, e).value));
    }
  }

  lemma ResultStands(p: Page, h: string, result: ScanResult, policy: Policy)
    requires Clear(p.m, Resolving)
    ensures var q := PageStep(p, OnResult(h, result, policy));
            && q.m.connectivity == p.m.connectivity && q.m.overlay == NoPrompt
            && match result
               case Offered(_, _) => q.m.scan == OfferReady
               case EmbeddedOffer(_, _) => q.m.scan == UnknownCode
               case NoSuchCode => q.m.scan == UnknownCode
               case Dead => q.m.scan == ExpiredLocally
               case SpentCode => q.m == p.m && q.pending == p.pending + [Pending(h, policy)]
               case Unmapped => q == p
  {
    var e := OnResult(h, result, policy);
    if Made(p, e).Some? {
      hide Advance, PageStep, RequiresOnline, PolicyUnresolved;
      Taken(p, e, Made(p, e).value);
    }
  }

  /**
   Where a result leads, in every run, at every connectivity: an offered code to its offer, an embedded offer or
   an unknown code to the unknown-code card, a dead one to the expired card; for a spent one the page goes on
   waiting. Under the finish-first prompt nothing moves.
   */
  lemma ResultLands(crew: Crew, events: seq<PageEvent>, h: string, result: ScanResult, policy: Policy)
    requires PageRun(crew, events).m.scan == Resolving
    ensures var p, q := PageRun(crew, events), PageRun(crew, events + [OnResult(h, result, policy)]);
            q.m.scan == if p.m.overlay == Prompt then Resolving
                        else match result
                             case Offered(_, _) => OfferReady
                             case EmbeddedOffer(_, _) => UnknownCode
                             case NoSuchCode => UnknownCode
                             case Dead => ExpiredLocally
                             case SpentCode => Resolving
                             case Unmapped => Resolving
  {
    var p, e := PageRun(crew, events), OnResult(h, result, policy);
    PageMirrored(crew, events);
    RunSnoc(crew, events, e, (x: string) => None);
    hide PageRun, PageStep;
    if p.m.overlay == Prompt {
      PromptDrops(p, e);
    } else {
      ResultStands(p, h, result, policy);
    }
  }

  /**
   What the session is granted for: the code and the campaign of the offer, and the policy as it is when the
   result arrives; an embedded offer's face value; for anything but an offer no document.
   */
  lemma ResultGranted(crew: Crew, events: seq<PageEvent>, h: string, result: ScanResult, policy: Policy)
    requires PageRun(crew, events).m.scan == Resolving && PageRun(crew, events).m.overlay == NoPrompt
    requires !result.SpentCode? && !result.Unmapped?
    ensures var q := PageRun(crew, events + [OnResult(h, result, policy)]);
            && q.stash.Some? && q.granted == q.stash
            && var s := q.stash.value;
               && s.tokenHash == h && s.basis == Direct(result) && s.policy == policy
               && match result
                  case Offered(code, c) =>
                    && s.codeId == Some(code) && s.value == None
                    && (s.requiresOnline <==> c.Some? && c.value != "" && !Overridable(policy, c.value))
                  case EmbeddedOffer(_, value) => s.codeId == None && s.value == value && !s.requiresOnline
                  case _ => s.codeId == None && s.value == None && !s.requiresOnline
  {
    var p, e := PageRun(crew, events), OnResult(h, result, policy);
    FlowRun(crew, events);
    RunSnoc(crew, events, e, (x: string) => None);
    var made := StashOf(h, Direct(result), policy, p.m.ctx.sessionCode);
    assert Made(p, e) == Some(made) && StashTrue(made);
    StashMeaning(made);
    hide Advance, PageStep, StashOf;
    Taken(p, e, made);
  }

  lemma LookupStands(p: Page, k: nat, lookup: Lookup, policy: Policy)
    requires Clear(p.m, Resolving) && k < |p.pending|
    ensures PageStep(p, LookupEnds(k, lookup, policy)).m.scan
            == if p.m.connectivity == Online then OfferReady else SpentLocally
  {
    var e := LookupEnds(k, lookup, policy);
    assert Made(p, e).Some? && Made(p, e).value.kind == KSpentLocally;
    hide Advance, PageStep, Made;
    Taken(p, e, Made(p, e).value);
  }

  lemma PageMirrored(crew: Crew, events: seq<PageEvent>)
    ensures Mirrored(PageRun(crew, events).m)
  {
    FlowRun(crew, events);
  }

  /** And a spent code's lookup, however it ends, to the offer online and to the spent card otherwise. */
  lemma LookupLands(crew: Crew, events: seq<PageEvent>, k: nat, lookup: Lookup, policy: Policy)
    requires PageRun(crew, events).m.scan == Resolving && k < |PageRun(crew, events).pending|
    ensures var p, q := PageRun(crew, events), PageRun(crew, events + [LookupEnds(k, lookup, policy)]);
            q.m.scan == if p.m.overlay == Prompt then Resolving
                        else if p.m.connectivity == Online then OfferReady else SpentLocally
  {
    var p, e := PageRun(crew, events), LookupEnds(k, lookup, policy);
    PageMirrored(crew, events);
    RunSnoc(crew, events, e, (x: string) => None);
    hide PageRun, PageStep;
    if p.m.overlay == Prompt {
      PromptDrops(p, e);
    } else {
      LookupStands(p, k, lookup, policy);
    }
  }

  lemma RunSnoc(crew: Crew, events: seq<PageEvent>, e: PageEvent, issued: Issued)
    ensures PageRun(crew, events + [e]) == PageStep(PageRun(crew, events), e)
    ensures TruthfulRun(crew, events + [e], issued)
            <==> TruthfulRun(crew, events, issued) && OptSays(Made(PageRun(crew, events), e), issued)
  {
    assert (events + [e])[..|events + [e]| - 1] == events;
  }

  /** Online, a code is scanned. */
  function OnlineGate(h: string): seq<PageEvent> { [] + [HandleProbe(true)] + [Gate(Some(h))] }

  /** The replica shows it spent, and the page looks its document up. */
  function SpentWaiting(h: string, policy: Policy): seq<PageEvent> { OnlineGate(h) + [OnResult(h, SpentCode, policy)] }

  lemma GatedOnline(crew: Crew, h: string, issued: Issued)
    ensures TruthfulRun(crew, OnlineGate(h), issued)
    ensures var p := PageRun(crew, OnlineGate(h)); Opened(p, h, Online) && p.records == [] && p.pending == []
  {
    hide PageStep, Send, Before, Sends, Advance;
    FreshWaits(crew);
    Reached(FreshPage(crew));
    Gated(PageStep(FreshPage(crew), HandleProbe(true)), h);
    RunSnoc(crew, [], HandleProbe(true), issued);
    RunSnoc(crew, [] + [HandleProbe(true)], Gate(Some(h)), issued);
  }

  lemma LookupWaits(p: Page, h: string, policy: Policy, q: Page, issued: Issued)
    requires Opened(p, h, Online) && p.records == [] && p.pending == []
             && q == PageStep(p, OnResult(h, SpentCode, policy))
    ensures Opened(q, h, Online) && q.records == [] && q.pending == [Pending(h, policy)]
    ensures OptSays(Made(p, OnResult(h, SpentCode, policy)), issued)
  {
    hide Send, Advance;
    LookupStarted(p, h, policy);
  }

  lemma SpentWaits(crew: Crew, h: string, policy: Policy, issued: Issued)
    ensures var p := PageRun(crew, SpentWaiting(h, policy));
            Opened(p, h, Online) && p.records == [] && p.pending == [Pending(h, policy)]
    ensures TruthfulRun(crew, SpentWaiting(h, policy), issued)
  {
    GatedOnline(crew, h, issued);
    RunSnoc(crew, OnlineGate(h), OnResult(h, SpentCode, policy), issued);
    LookupWaits(PageRun(crew, OnlineGate(h)), h, policy, PageRun(crew, SpentWaiting(h, policy)), issued);
  }

  lemma SpentOpens(crew: Crew, h: string, lookup: Lookup, policy: Policy, issued: Issued)
    requires Says(StashOf(h, AfterLookup(lookup), policy, Some(h)), issued)
    ensures var events := SpentWaiting(h, policy) + [LookupEnds(0, lookup, policy)];
            && TruthfulRun(crew, events, issued)
            && var p := PageRun(crew, events);
               && p.m.scan == OfferReady && p.records == []
               && p.stash == p.granted == Some(StashOf(h, AfterLookup(lookup), policy, Some(h)))
  {
    hide PageStep, Made, Says, StashOf, Before, Sends;
    SpentWaits(crew, h, policy, issued);
    SpentStands(PageRun(crew, SpentWaiting(h, policy)), h, lookup, policy);
    RunSnoc(crew, SpentWaiting(h, policy), LookupEnds(0, lookup, policy), issued);
  }

  /** A campaign the replica holds and requires online. */
  predicate MustVerify(src: Source, c: string) { c != "" && c in src.byId && src.byId[c] }

  lemma SpentOverridden(crew: Crew, h: string, lookup: Lookup, src: Source, issued: Issued, raw: string)
    requires crew.canOverride && !MayOverride(issued(h), Some(src)) && ValidateOrderNumber(raw).ok
    requires Says(StashOf(h, AfterLookup(lookup), Some(src), Some(h)), issued)
    ensures var events := SpentWaiting(h, Some(src)) + [LookupEnds(0, lookup, Some(src))];
            && TruthfulRun(crew, events, issued)
            && |PageRun(crew, events + OverrideScript(raw)).records| == if lookup.Found? then 0 else 1
  {
    SpentOpens(crew, h, lookup, Some(src), issued);
    HolesExactly(crew, SpentWaiting(h, Some(src)) + [LookupEnds(0, lookup, Some(src))], issued, raw);
  }

  /**
   The first hole: for a code the replica shows spent, the same code of the same required-online campaign is
   overridden when the second lookup failed and not when it succeeded.
   */
  lemma LookupHole(crew: Crew, h: string, id: string, c: string, src: Source, failed: Lookup, issued: Issued,
                   raw: string)
    requires crew.canOverride && issued(h) == Some(IssuedCode(id, Some(c))) && MustVerify(src, c)
    requires !failed.Found? && ValidateOrderNumber(raw).ok
    ensures var blind := SpentWaiting(h, Some(src)) + [LookupEnds(0, failed, Some(src))];
            TruthfulRun(crew, blind, issued) && |PageRun(crew, blind + OverrideScript(raw)).records| == 1
    ensures var seen := SpentWaiting(h, Some(src)) + [LookupEnds(0, Found(id, Some(c)), Some(src))];
            TruthfulRun(crew, seen, issued) && |PageRun(crew, seen + OverrideScript(raw)).records| == 0
  {
    SpentOverridden(crew, h, failed, src, issued, raw);
    SpentOverridden(crew, h, Found(id, Some(c)), src, issued, raw);
  }

  /** The second: an embedded offer that itself names the required-online campaign is not asked about either. */
  lemma EmbeddedHole(crew: Crew, h: string, id: string, c: string, value: Option<int>, src: Source, issued: Issued,
                     raw: string)
    requires crew.canOverride && issued(h) == Some(IssuedCode(id, Some(c))) && MustVerify(src, c)
             && ValidateOrderNumber(raw).ok
    ensures var events := [] + [Gate(Some(h))] + [OnResult(h, EmbeddedOffer(Some(c), value), Some(src))];
            TruthfulRun(crew, events, issued) && |PageRun(crew, events + OverrideScript(raw)).records| == 1
  {
    hide PageStep, Send, Before, Advance, ValidateOrderNumber;
    var offer := EmbeddedOffer(Some(c), value);
    FreshWaits(crew);
    Gated(FreshPage(crew), h);
    UnknownStands(PageStep(FreshPage(crew), Gate(Some(h))), h, h, offer, Some(src));
    RunSnoc(crew, [], Gate(Some(h)), issued);
    RunSnoc(crew, [] + [Gate(Some(h))], OnResult(h, offer, Some(src)), issued);
    HolesExactly(crew, [] + [Gate(Some(h))] + [OnResult(h, offer, Some(src))], issued, raw);
  }

  /** Two customers: the first one's code is scanned, and before its result arrives the next one's session opens. */
  function TwoCustomers(first: string, second: string): seq<PageEvent> {
    [] + [Gate(Some(first))] + [Press(NextCustomer)] + [Gate(Some(second))]
  }

  lemma SecondOpens(crew: Crew, first: string, second: string)
    ensures var p := PageRun(crew, TwoCustomers(first, second));
            Opened(p, second, Offline) && p.records == [] && p.pending == []
  {
    var p1 := PageStep(FreshPage(crew), Gate(Some(first)));
    var none: Issued := (h: string) => None;
    FreshWaits(crew);
    Gated(FreshPage(crew), first);
    NextFrees(p1, first);
    Gated(PageStep(p1, Press(NextCustomer)), second);
    RunSnoc(crew, [], Gate(Some(first)), none);
    RunSnoc(crew, [] + [Gate(Some(first))], Press(NextCustomer), none);
    RunSnoc(crew, [] + [Gate(Some(first))] + [Press(NextCustomer)], Gate(Some(second)), none);
  }

  /**
   onResult asks only whether some session is resolving: the first customer's result resolves the second one's
   session, and the override is recorded for the first one's code.
   */
  lemma LateResultIsRecorded(crew: Crew, first: string, second: string, policy: Policy, raw: string)
    requires crew.canOverride && first != second && ValidateOrderNumber(raw).ok
    ensures var events := TwoCustomers(first, second) + [OnResult(first, NoSuchCode, policy)];
            var records := PageRun(crew, events + OverrideScript(raw)).records;
            |records| == 1 && records[0].code == first && records[0].sessionCode == Some(second)
  {
    var events := TwoCustomers(first, second) + [OnResult(first, NoSuchCode, policy)];
    var none: Issued := (h: string) => None;
    SecondOpens(crew, first, second);
    UnknownStands(PageRun(crew, TwoCustomers(first, second)), second, first, NoSuchCode, policy);
    RunSnoc(crew, TwoCustomers(first, second), OnResult(first, NoSuchCode, policy), none);
    OverrideIff(crew, events, raw);
  }

  /** As above, but the first code was spent and its lookup is still out when the second session resolves. */
  function LookupOut(first: string, second: string, p1: Policy, p2: Policy): seq<PageEvent> {
    [] + [Gate(Some(first))] + [OnResult(first, SpentCode, p1)] + [Press(NextCustomer)] + [Gate(Some(second))]
    + [OnResult(second, NoSuchCode, p2)]
  }

  lemma SecondResolves(crew: Crew, first: string, second: string, p1: Policy, p2: Policy)
    ensures var p := PageRun(crew, LookupOut(first, second, p1, p2));
            && p.m.scan == UnknownCode && p.m.ctx.sessionCode == Some(second) && p.records == []
            && p.pending == [Pending(first, p1)]
               && p.granted == Some(StashOf(second, Direct(NoSuchCode), p2, Some(second)))
  {
    var none: Issued := (h: string) => None;
    var q1 := PageStep(FreshPage(crew), Gate(Some(first)));
    var q2 := PageStep(q1, OnResult(first, SpentCode, p1));
    var q3 := PageStep(q2, Press(NextCustomer));
    FreshWaits(crew);
    Gated(FreshPage(crew), first);
    LookupStarted(q1, first, p1);
    NextFrees(q2, first);
    Gated(q3, second);
    UnknownStands(PageStep(q3, Gate(Some(second))), second, second, NoSuchCode, p2);
    RunSnoc(crew, [], Gate(Some(first)), none);
    RunSnoc(crew, [] + [Gate(Some(first))], OnResult(first, SpentCode, p1), none);
    RunSnoc(crew, [] + [Gate(Some(first))] + [OnResult(first, SpentCode, p1)], Press(NextCustomer), none);
    var opening := [] + [Gate(Some(first))] + [OnResult(first, SpentCode, p1)] + [Press(NextCustomer)];
    RunSnoc(crew, opening, Gate(Some(second)), none);
    RunSnoc(crew, opening + [Gate(Some(second))], OnResult(second, NoSuchCode, p2), none);
  }

  /** The first customer's document, found late, in the second one's session. */
  function LateStash(first: string, second: string, id: string, c: string, src: Source): Stash {
    StashOf(first, AfterLookup(Found(id, Some(c))), Some(src), Some(second))
  }

  lemma LateStashRefused(first: string, second: string, id: string, c: string, src: Source)
    requires id != "" && MustVerify(src, c)
    ensures var s := LateStash(first, second, id, c, src);
            CodeOf(s) == id && s.tokenHash == first && !Permits(s.basis, s.policy)
  {
  }

  lemma LateDocumentInHand(p: Page, session: Session, first: string, second: string, id: string, c: string, src: Source)
    requires FlowTrue(p, session) && RecordsTrue(p) && p.pending == [Pending(first, Some(src))]
    requires p.granted.Some? && p.m.ctx.sessionCode == Some(second)
    ensures var q := PageStep(p, LookupEnds(0, Found(id, Some(c)), Some(src)));
            && q.m.scan == p.m.scan && q.m.ctx.sessionCode == Some(second) && q.records == p.records
            && q.stash == Some(LateStash(first, second, id, c, src)) && q.granted == p.granted
  {
    LateLookupStep(p, session, LookupEnds(0, Found(id, Some(c)), Some(src)));
  }

  lemma LateLookupSwaps(crew: Crew, first: string, second: string, id: string, c: string, src: Source,
                        before: seq<PageEvent>)
    requires before == LookupOut(first, second, Some(src), Some(src))
    ensures var p := PageRun(crew, before + [LookupEnds(0, Found(id, Some(c)), Some(src))]);
            && p.m.scan == UnknownCode && p.m.ctx.sessionCode == Some(second) && p.records == []
            && p.stash == Some(LateStash(first, second, id, c, src))
            && p.granted.Some? && Permits(p.granted.value.basis, p.granted.value.policy)
  {
    SecondResolves(crew, first, second, Some(src), Some(src));
    FlowRun(crew, before);
    LateDocumentInHand(PageRun(crew, before), SessionRun(crew, before), first, second, id, c, src);
    RunSnoc(crew, before, LookupEnds(0, Found(id, Some(c)), Some(src)), (h: string) => None);
  }

  /**
   A lookup that ends late overwrites the stash without a RESOLVED the machine takes: the first customer's code,
   of a campaign in hand and required online, is recorded under the grant the second session got.
   */
  lemma LateLookupIsRecorded(crew: Crew, first: string, second: string, id: string, c: string, src: Source, raw: string)
    requires crew.canOverride && first != second && id != "" && MustVerify(src, c) && ValidateOrderNumber(raw).ok
    ensures var events := LookupOut(first, second, Some(src), Some(src))
                          + [LookupEnds(0, Found(id, Some(c)), Some(src))];
            var records := PageRun(crew, events + OverrideScript(raw)).records;
            && |records| == 1 && records[0].code == id && records[0].sessionCode == Some(second)
            && records[0].stash.tokenHash == first && !Permits(records[0].stash.basis, records[0].stash.policy)
  {
    var before := LookupOut(first, second, Some(src), Some(src));
    var events := before + [LookupEnds(0, Found(id, Some(c)), Some(src))];
    LateLookupSwaps(crew, first, second, id, c, src, before);
    OverrideIff(crew, events, raw);
    LateStashRefused(first, second, id, c, src);
  }
}
