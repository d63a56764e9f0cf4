/**
 A scan from end to end: the resolver's answer becomes the page's result, and an override the page records
 becomes a queued attempt.
 */
module ScanJourney {
  import opened Prelude
  import opened Redemption
  import opened SyncClock
  import opened ScanResolver
  import opened CampaignPolicy
  import opened SubmitSupport
  import Machine = SubmitMachine
  import opened SubmitFlow
  import opened SubmitOverride
  import Protocol = RedemptionProtocol
  import Line = HeadOfLine

  // ----- from the resolver to the page -----

  /** The resolver's answer as the page maps it; of several offers the first decides. */
  function ResultOf(v: ScanAnswer): ScanResult {
    match v
    case OfferReady(offers) => if offers == [] then Unmapped else Offered(offers[0].id, offers[0].campaign)
    case SpentLocally => SpentCode
    case DeferToServer => SpentCode
    case ExpiredLocally => Dead
    case Embedded(offer, _) => EmbeddedOffer(offer.campaign, offer.faceValue)
    case UnknownCode => NoSuchCode
  }

  /** A page event, with what the device held and the QR described when the resolver ran for it. */
  datatype Seen = Seen(e: PageEvent, view: View, embedded: Option<Descriptor>)

  function EventsOf(run: seq<Seen>): seq<PageEvent> { seq(|run|, (k: nat) requires k < |run| => run[k].e) }

  /**
   Where a scan leads while its session resolves, from what the device holds, at every connectivity: to the offer
   if it holds a live code for the hash; to the second lookup if one of its codes is redeemed; to the expired card
   if it only holds dead ones; to the unknown-code card if it holds none.
   */
  lemma ScanLands(crew: Crew, events: seq<PageEvent>, x: View, hash: string, embedded: Option<Descriptor>,
                  policy: Policy)
    requires PageRun(crew, events).m.scan == Machine.Resolving && PageRun(crew, events).m.overlay == Machine.NoPrompt
    ensures var q := PageRun(crew, events + [OnResult(hash, ResultOf(Resolve(x, hash, embedded)), policy)]);
            q.m.scan == if OfferHeld(x, hash) then Machine.OfferReady
                        else if exists d :: d in x.codes && d.tokenHash == hash && d.redeemedAt.Some?
                        then Machine.Resolving
                        else if !Unheld(x, hash) then Machine.ExpiredLocally
                        else Machine.UnknownCode
  {
    hide PageRun, Resolve, Unheld, OfferHeld;
    AnswersExactly(x, hash, embedded);
    var v := Resolve(x, hash, embedded);
    if v.OfferReady? {
      SomethingOffered(x, hash, embedded);
    }
    ResultLands(crew, events, hash, ResultOf(v), policy);
  }

  lemma SomethingOffered(x: View, hash: string, embedded: Option<Descriptor>)
    requires Resolve(x, hash, embedded).OfferReady?
    ensures Resolve(x, hash, embedded).offers != [] && Soonest(Resolve(x, hash, embedded).offers)
  {
    OrderedLists(x, hash);
  }

  /** A live code for the hash that none the resolver would offer with it expires before. */
  ghost predicate FirstOffered(x: View, hash: string, d: ReplicaCode) {
    var docs := if exists o :: o in x.offers && o.tokenHash == hash && LiveNow(o, x.now) then x.offers else x.codes;
    && d in docs && d.tokenHash == hash && LiveNow(d, x.now)
    && forall e :: e in docs && e.tokenHash == hash && LiveNow(e, x.now) ==> d.expiresAt.value <= e.expiresAt.value
  }

  lemma FirstIsOffered(x: View, hash: string, embedded: Option<Descriptor>)
    requires Resolve(x, hash, embedded).OfferReady?
    ensures Resolve(x, hash, embedded).offers != [] && FirstOffered(x, hash, Resolve(x, hash, embedded).offers[0])
  {
    hide Resolve;
    SomethingOffered(x, hash, embedded);
    var offers := Resolve(x, hash, embedded).offers;
    OffersExactly(x, hash, embedded, offers[0]);
    var docs := if exists o :: o in x.offers && o.tokenHash == hash && LiveNow(o, x.now) then x.offers else x.codes;
    forall e | e in docs && e.tokenHash == hash && LiveNow(e, x.now)
      ensures offers[0].expiresAt.value <= e.expiresAt.value
    {
      OffersExactly(x, hash, embedded, e);
      var i :| 0 <= i < |offers| && offers[i] == e;
    }
  }

  /**
   What a scan is granted for: the soonest to expire of the live codes held for the hash, under the campaign that
   code names; or the value the QR's own offer claims, and no code.
   */
  lemma ScanGranted(crew: Crew, events: seq<PageEvent>, x: View, hash: string, embedded: Option<Descriptor>,
                    policy: Policy)
    requires PageRun(crew, events).m.scan == Machine.Resolving
    requires PageRun(crew, events).m.overlay == Machine.NoPrompt
    ensures var s := PageRun(crew, events + [OnResult(hash, ResultOf(Resolve(x, hash, embedded)), policy)]).granted;
            && (OfferHeld(x, hash) ==> s.Some? && s.value.tokenHash == hash && exists d ::
                  && FirstOffered(x, hash, d) && s.value.codeId == Some(d.id)
                  && (s.value.requiresOnline <==>
                        d.campaign.Some? && d.campaign.value != "" && !Overridable(policy, d.campaign.value)))
            && (!OfferHeld(x, hash) && Unheld(x, hash) && embedded.Some? ==>
                  s.Some? && s.value.tokenHash == hash && s.value.codeId.None?
                  && s.value.value == embedded.value.faceValue)
  {
    AnswersExactly(x, hash, embedded);
    var v := Resolve(x, hash, embedded);
    if v.OfferReady? {
      FirstIsOffered(x, hash, embedded);
    }
    hide PageRun, Resolve, Unheld, OfferHeld, FirstOffered;
    if v.OfferReady? || v.Embedded? {
      ResultGranted(crew, events, hash, ResultOf(v), policy);
    }
  }

  /** So a code the device holds that is live by true time ends in its offer. */
  lemma LiveCodeIsReady(crew: Crew, events: seq<PageEvent>, x: View, hash: string, embedded: Option<Descriptor>,
                        policy: Policy, state: Option<ClockState>, skew: int, latency: int, t: int, d: ReplicaCode)
    requires PageRun(crew, events).m.scan == Machine.Resolving && PageRun(crew, events).m.overlay == Machine.NoPrompt
    requires Estimates(x, state, skew, latency, t) && Held(x, d, hash) && LiveNow(d, t)
    ensures var q := PageRun(crew, events + [OnResult(hash, ResultOf(Resolve(x, hash, embedded)), policy)]);
            q.m.scan == Machine.OfferReady
  {
    hide PageRun, Resolve;
    LiveCodesAreOffered(x, hash, embedded, state, skew, latency, t, d);
    AnswersExactly(x, hash, embedded);
    ScanLands(crew, events, x, hash, embedded, policy);
  }

  /** Every result the page gets is the resolver's. */
  predicate FromResolver(run: seq<Seen>) {
    forall k :: 0 <= k < |run| && run[k].e.OnResult? ==>
      run[k].e.result == ResultOf(Resolve(run[k].view, run[k].e.hash, run[k].embedded))
  }

  /** The k-th event of the run gave the page this stash's result, and the codes replica then held no row for it. */
  predicate GivenUnheld(run: seq<Seen>, k: nat, s: Stash) {
    && k < |run| && s.basis.Direct? && run[k].e == OnResult(s.tokenHash, s.basis.result, s.policy)
    && Unheld(run[k].view, s.tokenHash)
  }

  /** A stash made unseen was made after a failed lookup, or from a view without a row for its code. */
  lemma UnseenMeansUnheld(crew: Crew, run: seq<Seen>, s: Stash)
    requires FromResolver(run) && MadeIn(crew, EventsOf(run))(s) && Unseen(s.basis)
    ensures s.basis == AfterLookup(Threw) || s.basis == AfterLookup(NothingFound) || exists k :: GivenUnheld(run, k, s)
  {
    hide PageRun, Made, Resolve;
    var events := EventsOf(run);
    var k :| 0 <= k < |events| && MadeAt(crew, events, k, s);
    if Unsigned(s.basis) {
      var x := run[k];
      assert events[k] == x.e;
      MadeFrom(PageRun(crew, events[..k]), x.e, s);
      RefusalsAreGrounded(x.view, s.tokenHash, x.embedded);
      assert GivenUnheld(run, k, s);
    }
  }

  /**
   Against the codes as they were issued, in every run whose results are the resolver's: a record of a code that
   may not be overridden was made after its second lookup failed, or when no codes row the device held had its
   hash, or a late lookup put it under another code's grant. A code the replica holds has no other way round
   the policy.
   */
  lemma HeldCodesAreGuarded(crew: Crew, run: seq<Seen>, issued: Issued, i: nat)
    requires FromResolver(run) && TruthfulRun(crew, EventsOf(run), issued) && i < |PageRun(crew, EventsOf(run)).records|
    ensures var r := PageRun(crew, EventsOf(run)).records[i];
            var s := r.stash;
            !MayOverride(issued(s.tokenHash), s.policy) ==>
              || s.basis == AfterLookup(Threw) || s.basis == AfterLookup(NothingFound)
              || (exists k :: GivenUnheld(run, k, s)) || s != r.granted
  {
    var r := PageRun(crew, EventsOf(run)).records[i];
    GuardedUnlessUnseen(crew, EventsOf(run), issued, i);
    EveryStashIsMade(crew, EventsOf(run));
    if Unseen(r.stash.basis) {
      UnseenMeansUnheld(crew, run, r.stash);
    }
  }

  // ----- from the page to the queue -----

  /** The attempt a record is enqueued as. */
  function Queued(r: Record, id: AttemptId, d: DeviceId): Attempt { NewAttempt(id, r.code, d, r.unverified, r.audit) }

  /** Documents are named by uuids, and a token hash is 64 hex digits. */
  predicate WellNamed(s: Stash) {
    |s.tokenHash| == 64 && (CodeIn(s.basis).Some? ==> NamesCode(CodeIn(s.basis).value))
  }

  /**
   A record is queued as an attempt whose redeem is refused for good exactly when it is verified without a
   document in hand; unless a lookup ended late, exactly when its session's second lookup failed.
   */
  lemma NamelessExactly(crew: Crew, events: seq<PageEvent>, i: nat, id: AttemptId, d: DeviceId)
    requires i < |PageRun(crew, events).records| && WellNamed(PageRun(crew, events).records[i].stash)
    ensures var r := PageRun(crew, events).records[i];
            && (Nameless(Queued(r, id, d)) <==> !Unsigned(r.granted.basis) && CodeIn(r.stash.basis).None?)
            && (r.stash == r.granted ==>
                  (Nameless(Queued(r, id, d))
                   <==> r.granted.basis == AfterLookup(Threw) || r.granted.basis == AfterLookup(NothingFound)))
  {
    var r := PageRun(crew, events).records[i];
    RecordNamesStash(crew, events, i);
    VerifiedWithoutDocument(crew, events, i);
    HashNamesNoCode(r.stash.tokenHash);
  }

  /** The record a spent code's failed lookup leads to. */
  lemma FailedLookupIsNameless(crew: Crew, h: string, failed: Lookup, policy: Policy, raw: string, id: AttemptId,
                               d: DeviceId)
    requires crew.canOverride && |h| == 64 && !failed.Found? && ValidateOrderNumber(raw).ok
    ensures var events := SpentWaiting(h, policy) + [LookupEnds(0, failed, policy)] + OverrideScript(raw);
            |PageRun(crew, events).records| == 1 && Nameless(Queued(PageRun(crew, events).records[0], id, d))
  {
    var opening := SpentWaiting(h, policy) + [LookupEnds(0, failed, policy)];
    SpentOpens(crew, h, failed, policy, (x: string) => None);
    OverrideIff(crew, opening, raw);
    NamelessExactly(crew, opening + OverrideScript(raw), 0, id, d);
  }

  /** Such a record can be enqueued: the serialized enqueue asks no replica. */
  lemma NamelessIsQueued(w: Protocol.World, d: DeviceId, id: AttemptId, r: Record)
    requires Protocol.Initial(w) && d in w.devices && Nameless(Queued(r, id, d))
    ensures var ask := Protocol.Ask(r.unverified, r.audit);
            var w1 := Protocol.Next(w, Protocol.Enqueue(d, r.code, ask));
            var w2 := Protocol.Next(w1, Protocol.Find(d, r.code));
            var w3 := Protocol.Next(w2, Protocol.Insert(d, r.code, id));
            w3.devices[d].local.queue == map[id := Queued(r, id, d)] && w3.devices[d].order == [id]
  {
    var ask := Protocol.Ask(r.unverified, r.audit);
    var w1 := Protocol.Next(w, Protocol.Enqueue(d, r.code, ask));
    var w2 := Protocol.Next(w1, Protocol.Find(d, r.code));
    assert w1.devices[d].chains[r.code] == [Protocol.Waiting(ask)];
    assert w2.devices[d].chains[r.code] == [Protocol.FoundNone(ask)];
    forall e | e in w2.devices ensures id !in w2.devices[e].local.queue {
      assert Protocol.NewDevice(w.devices[e]);
    }
  }

  /**
   The failing input, end to end: a spent code is scanned, the page's lookup of it fails, and the override is
   recorded. Wherever that attempt is queued, no continuation of any run resolves it; and in a queue worked in
   order none resolves anything queued behind it.
   */
  lemma FailedLookupStrands(crew: Crew, h: string, failed: Lookup, policy: Policy, raw: string,
                            w: Protocol.World, steps: seq<Protocol.Step>, d: DeviceId, id: AttemptId,
                            more: seq<Protocol.Step>)
    requires crew.canOverride && |h| == 64 && !failed.Found? && ValidateOrderNumber(raw).ok
    requires Protocol.Initial(w) && d in w.devices && id in Protocol.Run(w, steps).devices[d].local.queue
    requires var records := PageRun(crew,
                                    SpentWaiting(h, policy) + [LookupEnds(0, failed, policy)]
                                    + OverrideScript(raw)).records;
             var a := Protocol.Run(w, steps).devices[d].local.queue[id];
             records != [] && a.code == records[0].code && a.unverified == records[0].unverified
    ensures !Protocol.ResolvedAt(Protocol.Run(w, steps + more), d, id)
    ensures forall i, j :: var order := Protocol.Run(w, steps).devices[d].order;
              0 <= i <= j < |order| && order[i] == id && Line.Orderly(w, steps + more) ==>
                !Protocol.ResolvedAt(Protocol.Run(w, steps + more), d, order[j])
  {
    FailedLookupIsNameless(crew, h, failed, policy, raw, id, d);
    var dev := Protocol.Run(w, steps).devices[d];
    assert Nameless(dev.local.queue[id]);
    Protocol.NothingIsStranded(w, steps, d, id);
    forall i, j | 0 <= i <= j < |dev.order| && dev.order[i] == id && Line.Orderly(w, steps + more)
      ensures !Protocol.ResolvedAt(Protocol.Run(w, steps + more), d, dev.order[j])
    {
      assert Line.Blocked(dev, dev.order[j]);
      Line.BlockedForGood(w, steps, more, d, dev.order[j]);
    }
  }
}
