/**
 The scan resolver: what a device answers about a scanned token hash from the codes and offers replicas it
 holds, the offer the QR itself describes, and the sync clock's estimate of the time.
 */
module ScanResolver {
  import opened Prelude
  import opened SyncClock

  datatype ReplicaCode = ReplicaCode(
    id: string, tokenHash: string, campaign: Option<string>, expiresAt: Option<int>, redeemedAt: Option<int>)

  /** The offer a QR describes itself, unauthenticated; `expiresAt` is None where it names no date. */
  datatype Descriptor = Descriptor(campaign: Option<string>, expiresAt: Option<Option<int>>, faceValue: Option<int>)

  /** resolveOffers' own comparison; an unreadable date compares false. */
  predicate OfferLive(c: ReplicaCode, now: int) {
    c.redeemedAt.None? && c.expiresAt.Some? && c.expiresAt.value > now
  }

  function Hashed(docs: seq<ReplicaCode>, hash: string): seq<ReplicaCode> {
    Where(docs, (d: ReplicaCode) => d.tokenHash == hash)
  }

  function ResolveOffers(offers: seq<ReplicaCode>, hash: string, now: int): seq<ReplicaCode> {
    Where(Hashed(offers, hash), (d: ReplicaCode) => OfferLive(d, now))
  }

  /** The held codes the resolver's second lookup may offer. */
  function LiveKnown(codes: seq<ReplicaCode>, hash: string, now: int): seq<ReplicaCode> {
    Where(Hashed(codes, hash), (d: ReplicaCode) => d.redeemedAt.None? && !ExpiredAt(d.expiresAt, now))
  }

  // ----- the offers in order -----

  function Expiry(d: ReplicaCode): int { if d.expiresAt.Some? then d.expiresAt.value else 0 }

  function Placed(d: ReplicaCode, s: seq<ReplicaCode>): seq<ReplicaCode> {
    if s == [] || Expiry(d) <= Expiry(s[0]) then [d] + s else [s[0]] + Placed(d, s[1..])
  }

  /** Soonest to expire first, as a stable sort leaves them. */
  function ByExpiry(s: seq<ReplicaCode>): seq<ReplicaCode> {
    if s == [] then [] else Placed(s[0], ByExpiry(s[1..]))
  }

  predicate Soonest(s: seq<ReplicaCode>) { forall i, j :: 0 <= i < j < |s| ==> Expiry(s[i]) <= Expiry(s[j]) }

  lemma SoonestFirst(h: ReplicaCode, rest: seq<ReplicaCode>)
    requires Soonest(rest) && forall x :: x in rest ==> Expiry(h) <= Expiry(x)
    ensures Soonest([h] + rest)
  {
  }

  lemma {:induction false} PlacedMeans(d: ReplicaCode, s: seq<ReplicaCode>)
    requires Soonest(s)
    ensures Soonest(Placed(d, s)) && multiset(Placed(d, s)) == multiset{d} + multiset(s)
    decreases |s|
  {
    if s == [] || Expiry(d) <= Expiry(s[0]) {
      SoonestFirst(d, s);
      assert multiset([d] + s) == multiset{d} + multiset(s);
    } else {
      assert s == [s[0]] + s[1..];
      PlacedMeans(d, s[1..]);
      var rest := Placed(d, s[1..]);
      forall x | x in rest ensures Expiry(s[0]) <= Expiry(x) {
        assert x in multiset(rest);
      }
      SoonestFirst(s[0], rest);
    }
  }

  lemma {:induction false} ByExpiryMeans(s: seq<ReplicaCode>)
    ensures Soonest(ByExpiry(s)) && multiset(ByExpiry(s)) == multiset(s)
    ensures forall x :: x in ByExpiry(s) <==> x in s
    decreases |s|
  {
    if s != [] {
      ByExpiryMeans(s[1..]);
      PlacedMeans(s[0], ByExpiry(s[1..]));
      assert s == [s[0]] + s[1..];
    }
    assert forall x :: x in ByExpiry(s) <==> x in multiset(ByExpiry(s));
  }

  /** The two spellings of "live" agree on every code, unreadable dates included. */
  lemma LiveIsNotExpired(c: ReplicaCode, now: int)
    ensures OfferLive(c, now) <==> c.redeemedAt.None? && !ExpiredAt(c.expiresAt, now)
  {
  }

  datatype ScanAnswer =
    | OfferReady(offers: seq<ReplicaCode>)
    | SpentLocally
    | DeferToServer
    | ExpiredLocally
    | Embedded(offer: Descriptor, expired: bool)
    | UnknownCode

  /** What the device holds and knows when it resolves. */
  datatype View = View(codes: seq<ReplicaCode>, offers: seq<ReplicaCode>, online: bool, now: int)

  /** The resolver past its payload parsing; `embedded` is the QR's own offer, if it has one. */
  function Resolve(x: View, hash: string, embedded: Option<Descriptor>): ScanAnswer {
    var listed := ResolveOffers(x.offers, hash, x.now);
    var known := Hashed(x.codes, hash);
    var live := LiveKnown(x.codes, hash, x.now);
    if listed != [] then OfferReady(ByExpiry(listed))
    else if live != [] then OfferReady(ByExpiry(live))
    else if known != [] then
      if exists d :: d in known && d.redeemedAt.Some? then (if x.online then DeferToServer else SpentLocally)
      else ExpiredLocally
    else if embedded.Some? then
      Embedded(embedded.value, embedded.value.expiresAt.Some? && ExpiredAt(embedded.value.expiresAt.value, x.now))
    else UnknownCode
  }

  predicate Holds(docs: seq<ReplicaCode>, d: ReplicaCode, hash: string) { d in docs && d.tokenHash == hash }

  /** Unredeemed in the replica and not expired at t; an unreadable date is expired. */
  predicate LiveNow(d: ReplicaCode, t: int) { d.redeemedAt.None? && d.expiresAt.Some? && t < d.expiresAt.value }

  /** Everything a resolver may offer is a code this device holds for the hash. */
  predicate Held(x: View, d: ReplicaCode, hash: string) {
    Holds(x.codes, d, hash) || Holds(x.offers, d, hash)
  }

  lemma ListsMean(x: View, hash: string)
    ensures forall d :: d in Hashed(x.codes, hash) <==> Holds(x.codes, d, hash)
    ensures forall d :: d in ResolveOffers(x.offers, hash, x.now) <==> Holds(x.offers, d, hash) && OfferLive(d, x.now)
    ensures forall d :: d in LiveKnown(x.codes, hash, x.now) <==> Holds(x.codes, d, hash) && OfferLive(d, x.now)
  {
    WhereMeans(x.codes, (d: ReplicaCode) => d.tokenHash == hash);
    WhereMeans(x.offers, (d: ReplicaCode) => d.tokenHash == hash);
    WhereMeans(Hashed(x.offers, hash), (d: ReplicaCode) => OfferLive(d, x.now));
    WhereMeans(Hashed(x.codes, hash), (d: ReplicaCode) => d.redeemedAt.None? && !ExpiredAt(d.expiresAt, x.now));
  }

  lemma OrderedLists(x: View, hash: string)
    ensures var listed, live := ResolveOffers(x.offers, hash, x.now), LiveKnown(x.codes, hash, x.now);
            && (forall d :: d in ByExpiry(listed) <==> d in listed) && (forall d :: d in ByExpiry(live) <==> d in live)
            && Soonest(ByExpiry(listed)) && Soonest(ByExpiry(live))
            && (listed != [] <==> ByExpiry(listed) != []) && (live != [] <==> ByExpiry(live) != [])
  {
    ByExpiryMeans(ResolveOffers(x.offers, hash, x.now));
    ByExpiryMeans(LiveKnown(x.codes, hash, x.now));
  }

  /** The view's clock is the device's estimate at true time t. */
  predicate Estimates(x: View, state: Option<ClockState>, skew: int, latency: int, t: int) {
    Within(state, skew, latency) && x.now == NowAt(state, t + skew)
  }

  /**
   An offered code is held for the hash, unredeemed in the replica and, by true time, dead for less than the
   bound; the soonest to expire come first.
   */
  lemma OffersAreLive(x: View, hash: string, embedded: Option<Descriptor>,
                      state: Option<ClockState>, skew: int, latency: int, t: int)
    requires Estimates(x, state, skew, latency, t)
    ensures var v := Resolve(x, hash, embedded);
            v.OfferReady? ==>
              && v.offers != []
              && (forall d :: d in v.offers ==>
                    && Held(x, d, hash) && d.redeemedAt.None?
                    && d.expiresAt.Some? && t < d.expiresAt.value + 1000 + latency)
              && (forall i, j :: 0 <= i < j < |v.offers| ==>
                    v.offers[i].expiresAt.value <= v.offers[j].expiresAt.value)
  {
    ListsMean(x, hash);
    OrderedLists(x, hash);
  }

  /**
   A device holding a code that is live by true time always offers something. It leaves that code out only
   when the code is missing from the offers replica and that replica lists other live offers.
   */
  lemma LiveCodesAreOffered(x: View, hash: string, embedded: Option<Descriptor>,
                            state: Option<ClockState>, skew: int, latency: int, t: int, d: ReplicaCode)
    requires Estimates(x, state, skew, latency, t) && Held(x, d, hash) && LiveNow(d, t)
    ensures var v := Resolve(x, hash, embedded);
            && v.OfferReady?
            && (d !in v.offers ==> v.offers == ByExpiry(ResolveOffers(x.offers, hash, x.now)) && d !in x.offers)
  {
    ListsMean(x, hash);
    OrderedLists(x, hash);
    if Holds(x.offers, d, hash) {
      assert d in ResolveOffers(x.offers, hash, x.now);
    } else {
      assert d in LiveKnown(x.codes, hash, x.now);
    }
  }

  /** No codes row the device holds has the hash. */
  predicate Unheld(x: View, hash: string) { forall d :: d in x.codes ==> d.tokenHash != hash }

  /** Only an offline device rejects on its own record of a redemption; "unknown" means no codes row has the hash. */
  lemma RefusalsAreGrounded(x: View, hash: string, embedded: Option<Descriptor>)
    ensures var v := Resolve(x, hash, embedded);
            && (v.SpentLocally? ==> !x.online && exists d :: Holds(x.codes, d, hash) && d.redeemedAt.Some?)
            && (v.UnknownCode? || v.Embedded? ==> Unheld(x, hash))
            && (v.ExpiredLocally? ==>
                  forall d :: Holds(x.codes, d, hash) ==> d.redeemedAt.None? && ExpiredAt(d.expiresAt, x.now))
  {
    ListsMean(x, hash);
    var known := Hashed(x.codes, hash);
    var v := Resolve(x, hash, embedded);
    if v.SpentLocally? {
      var d :| d in known && d.redeemedAt.Some?;
      assert Holds(x.codes, d, hash);
    }
    forall d | d in x.codes && d.tokenHash == hash ensures d in known {
    }
    if v.ExpiredLocally? {
      forall d | Holds(x.codes, d, hash) ensures d.redeemedAt.None? && ExpiredAt(d.expiresAt, x.now) {
        assert d in known && d !in LiveKnown(x.codes, hash, x.now);
      }
    }
  }

  /** Some live code is held for the hash, by either replica. */
  ghost predicate OfferHeld(x: View, hash: string) {
    exists d :: (d in x.offers || d in x.codes) && d.tokenHash == hash && LiveNow(d, x.now)
  }

  /** The codes offered: the offers replica's live ones for the hash, or if it has none the codes replica's. */
  lemma OffersExactly(x: View, hash: string, embedded: Option<Descriptor>, d: ReplicaCode)
    requires Resolve(x, hash, embedded).OfferReady?
    ensures d in Resolve(x, hash, embedded).offers <==>
              && d.tokenHash == hash && LiveNow(d, x.now)
              && (d in x.offers
                  || (d in x.codes && !exists o :: o in x.offers && o.tokenHash == hash && LiveNow(o, x.now)))
  {
    ListsMean(x, hash);
    OrderedLists(x, hash);
    var listed := ResolveOffers(x.offers, hash, x.now);
    if listed != [] {
      assert listed[0] in listed && Holds(x.offers, listed[0], hash);
    }
    hide ResolveOffers, LiveKnown, ByExpiry;
    if o :| o in x.offers && o.tokenHash == hash && LiveNow(o, x.now) {
      assert Holds(x.offers, o, hash) && OfferLive(o, x.now) && o in listed;
    }
    assert Holds(x.codes, d, hash) <==> d in x.codes && d.tokenHash == hash;
  }

  /**
   Which answer is given, exactly: offers while a live code is held; for a known customer without one, the
   server decides online and the device rejects offline if any of the codes is redeemed, else they are expired;
   for an unknown one the QR's own offer if there is one, flagged by its own date.
   */
  lemma AnswersExactly(x: View, hash: string, embedded: Option<Descriptor>)
    ensures var v := Resolve(x, hash, embedded);
            var redeemed := exists d :: d in x.codes && d.tokenHash == hash && d.redeemedAt.Some?;
            && (v.OfferReady? <==> OfferHeld(x, hash))
            && (v.SpentLocally? <==> !OfferHeld(x, hash) && redeemed && !x.online)
            && (v.DeferToServer? <==> !OfferHeld(x, hash) && redeemed && x.online)
            && (v.ExpiredLocally? <==> !OfferHeld(x, hash) && !Unheld(x, hash) && !redeemed)
            && (v.Embedded? <==> !OfferHeld(x, hash) && Unheld(x, hash) && embedded.Some?)
            && (v.UnknownCode? <==> !OfferHeld(x, hash) && Unheld(x, hash) && embedded.None?)
            && (v.Embedded? ==>
                  && v.offer == embedded.value
                  && (v.expired <==> match embedded.value.expiresAt
                                     case None => false
                                     case Some(None) => true
                                     case Some(Some(at)) => at <= x.now))
  {
    HeldMeans(x, hash);
    hide OfferHeld, Unheld, ResolveOffers, LiveKnown, Hashed, ByExpiry;
  }

  /** What the resolver asks of its lists, as facts about the replicas. */
  lemma HeldMeans(x: View, hash: string)
    ensures OfferHeld(x, hash) <==> ResolveOffers(x.offers, hash, x.now) != [] || LiveKnown(x.codes, hash, x.now) != []
    ensures Unheld(x, hash) <==> Hashed(x.codes, hash) == []
    ensures (exists d :: d in x.codes && d.tokenHash == hash && d.redeemedAt.Some?)
            <==> exists d :: d in Hashed(x.codes, hash) && d.redeemedAt.Some?
  {
    ListsMean(x, hash);
    var listed, live := ResolveOffers(x.offers, hash, x.now), LiveKnown(x.codes, hash, x.now);
    var known := Hashed(x.codes, hash);
    hide ResolveOffers, LiveKnown, Hashed;
    assert forall d :: d in listed <==> d in x.offers && d.tokenHash == hash && LiveNow(d, x.now);
    assert forall d :: d in live <==> d in x.codes && d.tokenHash == hash && LiveNow(d, x.now);
    assert forall d :: d in known <==> d in x.codes && d.tokenHash == hash;
    assert listed != [] ==> listed[0] in listed;
    assert live != [] ==> live[0] in live;
    assert known != [] ==> known[0] in known;
  }
}
