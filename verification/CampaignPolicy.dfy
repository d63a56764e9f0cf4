/**
 The campaign policy source: the mirror of the campaigns replica, its error latch, and what the page
 concludes from it about one campaign.
 */
module CampaignPolicy {
  import opened Prelude

  datatype Answer = Answer(requiresOnline: bool, unresolved: bool)

  /** policyFor: no campaign named, a replicated one, or a named one the replica does not hold. */
  function PolicyFor(byId: map<string, bool>, campaign: Option<string>): Option<Answer> {
    if campaign.None? || campaign.value == "" then None
    else if campaign.value in byId then Some(Answer(byId[campaign.value], false))
    else Some(Answer(true, true))
  }

  datatype SourceEvent = Docs(docs: seq<(string, bool)>) | Attached | Errored(message: string) | PullSucceeded | Settled

  datatype Source = Source(byId: map<string, bool>, attached: bool, ready: bool, lastError: Option<string>)

  const NO_SOURCE_YET := Source(map[], false, false, None)

  function Mirror(docs: seq<(string, bool)>): map<string, bool> {
    if docs == [] then map[] else Mirror(docs[..|docs| - 1])[docs[|docs| - 1].0 := docs[|docs| - 1].1]
  }

  function SourceStep(s: Source, e: SourceEvent): Source {
    match e
    case Docs(docs) => s.(byId := Mirror(docs))
    case Attached => s.(attached := true)
    case Errored(m) => if s.attached then s.(lastError := Some(m)) else s
    case PullSucceeded => if s.attached then s.(lastError := None) else s
    case Settled => if s.attached then s.(ready := true, lastError := None) else s
  }

  function SourceRun(events: seq<SourceEvent>): Source {
    if events == [] then NO_SOURCE_YET else SourceStep(SourceRun(events[..|events| - 1]), events[|events| - 1])
  }

  function Unresolved(s: Source): bool { s.attached && (!s.ready || s.lastError.Some?) }

  class CampaignPolicySource {
    var byId: map<string, bool>
    var attached: bool
    var ready: bool
    var lastError: Option<string>

    constructor ()
      ensures At() == NO_SOURCE_YET
    {
      byId, attached, ready, lastError := map[], false, false, None;
    }

    ghost function At(): Source
      reads this
    {
      Source(byId, attached, ready, lastError)
    }

    /** The replica's query emitted: clear the mirror and fill it again. */
    method OnDocs(docs: seq<(string, bool)>)
      modifies this`byId
      ensures At() == SourceStep(old(At()), Docs(docs))
    {
      byId := map[];
      var i := 0;
      while i < |docs|
        invariant 0 <= i <= |docs| && byId == Mirror(docs[..i])
        modifies this`byId
      {
        assert docs[..i + 1][..i] == docs[..i];
        byId := byId[docs[i].0 := docs[i].1];
        i := i + 1;
      }
      assert docs[..i] == docs;
    }

    /** The subscriptions exist only once a replica is attached. */
    method OnReplica(e: SourceEvent)
      requires !e.Docs?
      modifies this`attached, this`ready, this`lastError
      ensures At() == SourceStep(old(At()), e)
    {
      match e
      case Attached => attached := true;
      case Errored(m) => if attached { lastError := Some(m); }
      case PullSucceeded => if attached { lastError := None; }
      case Settled => if attached { ready, lastError := true, None; }
    }
  }

  predicate Clears(e: SourceEvent) { e.PullSucceeded? || e.Settled? }

  predicate AttachedBy(events: seq<SourceEvent>, n: nat)
    requires n <= |events|
  {
    exists i :: 0 <= i < n && events[i].Attached?
  }

  lemma {:induction false} ReadyMeaning(events: seq<SourceEvent>)
    ensures SourceRun(events).attached <==> AttachedBy(events, |events|)
    ensures SourceRun(events).ready <==> exists i :: 0 <= i < |events| && events[i].Settled? && AttachedBy(events, i)
    decreases |events|
  {
    if events != [] {
      var n := |events| - 1;
      var front := events[..n];
      ReadyMeaning(front);
      assert forall i :: 0 <= i < n ==> front[i] == events[i];
      assert forall i :: 0 <= i <= n ==> AttachedBy(front, i) == AttachedBy(events, i);
      if SourceRun(events).ready && !SourceRun(front).ready {
        assert events[n].Settled? && AttachedBy(events, n);
      }
    }
  }

  /** An error seen after attaching, with nothing after it that clears the latch. */
  predicate Standing(events: seq<SourceEvent>, i: nat) {
    && i < |events| && events[i].Errored? && AttachedBy(events, i)
    && forall j :: i < j < |events| ==> !Clears(events[j])
  }

  lemma StandingBefore(events: seq<SourceEvent>, i: nat)
    requires i + 1 < |events|
    ensures var n := |events| - 1; Standing(events, i) <==> Standing(events[..n], i) && !Clears(events[n])
  {
    var front := events[..|events| - 1];
    assert forall k :: 0 <= k < |front| ==> front[k] == events[k];
    assert AttachedBy(front, i) == AttachedBy(events, i);
  }

  /** The error latch: set exactly while an error has been seen that no successful pull or settling followed. */
  lemma {:induction false} LatchMeaning(events: seq<SourceEvent>)
    ensures SourceRun(events).lastError.Some? <==> exists i :: 0 <= i < |events| && Standing(events, i)
    decreases |events|
  {
    if events != [] {
      var n := |events| - 1;
      LatchMeaning(events[..n]);
      ReadyMeaning(events[..n]);
      AttachedSoFar(events, n);
      hide Standing, AttachedBy;
      LastStands(events);
      forall i | 0 <= i < n ensures Standing(events, i) <==> Standing(events[..n], i) && !Clears(events[n]) {
        StandingBefore(events, i);
      }
    }
  }

  lemma AttachedSoFar(events: seq<SourceEvent>, n: nat)
    requires n <= |events|
    ensures AttachedBy(events[..n], n) == AttachedBy(events, n)
  {
    assert forall k :: 0 <= k < n ==> events[..n][k] == events[k];
  }

  lemma LastStands(events: seq<SourceEvent>)
    requires events != []
    ensures var n := |events| - 1;
            && (Standing(events, n) <==> events[n].Errored? && AttachedBy(events, n))
            && (!AttachedBy(events, n) ==> forall i :: 0 <= i < n ==> !Standing(events, i))
  {
  }

  // ----- what the page reads from it -----

  /** The policy as read now; None is a source that failed to construct. */
  type Policy = Option<Source>

  function RequiresOnline(policy: Policy, campaign: Option<string>): bool {
    policy.Some? && var a := PolicyFor(policy.value.byId, campaign); a.Some? && a.value.requiresOnline
  }

  function PolicyUnresolved(policy: Policy, campaign: Option<string>): bool {
    if policy.None? then true
    else
      var a := PolicyFor(policy.value.byId, campaign);
      if campaign.None? || campaign.value == "" then Unresolved(policy.value)
      else a.None? || a.value.unresolved
  }

  /** A campaign this device may override: replicated here, and not required online. */
  predicate Overridable(policy: Policy, campaign: string) {
    policy.Some? ==> campaign in policy.value.byId && !policy.value.byId[campaign]
  }

  /** The policy lets a named campaign through exactly when it is overridable. */
  lemma RequiresOnlineExactly(policy: Policy, campaign: string)
    requires campaign != ""
    ensures !RequiresOnline(policy, Some(campaign)) <==> Overridable(policy, campaign)
  {
  }

  lemma {:induction false} MirrorMeans(docs: seq<(string, bool)>, c: string)
    ensures c in Mirror(docs) <==> exists i :: 0 <= i < |docs| && docs[i].0 == c
    ensures forall i :: 0 <= i < |docs| && docs[i].0 == c && (forall j :: i < j < |docs| ==> docs[j].0 != c) ==>
              Mirror(docs)[c] == docs[i].1
    decreases |docs|
  {
    if docs != [] {
      var front := docs[..|docs| - 1];
      MirrorMeans(front, c);
      assert forall i :: 0 <= i < |front| ==> front[i] == docs[i];
    }
  }

  /** What the source says of itself: attached, and never settled since or with an error standing. */
  lemma UnresolvedExactly(events: seq<SourceEvent>)
    ensures Unresolved(SourceRun(events)) <==>
              && AttachedBy(events, |events|)
              && ((forall i :: 0 <= i < |events| && AttachedBy(events, i) ==> !events[i].Settled?)
                  || exists i :: 0 <= i < |events| && Standing(events, i))
  {
    ReadyMeaning(events);
    LatchMeaning(events);
  }
}
