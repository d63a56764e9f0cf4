/** What single events do to the machine's snapshot, exactly, in the states a redemption passes through. */
module SubmitMoves {
  import opened Prelude
  import opened SubmitMachine
  import opened SubmitTable
  import opened SubmitRun

  /** The scan region moves alone, with the context the transition leaves. */
  function ScanMoved(m: Snapshot, sc: ScanState, c: Ctx): Snapshot { m.(scan := sc, ctx := c.(sc := sc)) }

  function ConnMoved(m: Snapshot, conn: Conn): Snapshot { m.(connectivity := conn, ctx := m.ctx.(conn := conn)) }

  predicate Clear(m: Snapshot, sc: ScanState) { Mirrored(m) && m.scan == sc && m.overlay == NoPrompt }

  lemma OnProbeTimeout(m: Snapshot)
    requires Mirrored(m)
    ensures Advance(m, Signal(ProbeTimeout)) == (ConnMoved(m, Offline), [])
  {
    assert ScanDecision(m.scan, m.ctx, Signal(ProbeTimeout)) == Stay();
  }

  lemma OnConnUp(m: Snapshot)
    requires Mirrored(m) && m.connectivity == Offline
    ensures Advance(m, Signal(ConnUp)) == (ConnMoved(m, Stale), [])
  {
    assert ScanDecision(m.scan, m.ctx, Signal(ConnUp)) == Stay();
  }

  lemma OnResubscribed(m: Snapshot)
    requires Clear(m, Idle) && m.connectivity == Stale
    ensures Advance(m, Signal(Resubscribed)) == (ConnMoved(m, Online), [])
  {
    assert ScanDecision(m.scan, m.ctx, Signal(Resubscribed)) == Stay();
  }

  lemma OnScan(m: Snapshot)
    requires Clear(m, Idle)
    ensures Advance(m, Signal(Scan)) == (ScanMoved(m, Scanning, m.ctx), [])
  {
  }

  lemma OnDecoded(m: Snapshot, code: string)
    requires Clear(m, Scanning) && m.ctx.sessionCode.None?
    ensures Advance(m, Event(QrDecoded, code, KOther(""), false))
            == (ScanMoved(m, Resolving, m.ctx.(sessionCode := Some(code))), [])
  {
  }

  /** Where a result leads. */
  function ResolvesTo(k: Kind, conn: Conn): Option<ScanState> {
    match k
    case KOfferReady => Some(OfferReady)
    case KUnknownCode => Some(UnknownCode)
    case KSpentLocally => Some(if conn == Online then OfferReady else SpentLocally)
    case KExpiredLocally => Some(ExpiredLocally)
    case KOther(_) => None
  }

  lemma OnResolved(m: Snapshot, k: Kind, requiresOnline: bool)
    requires Clear(m, Resolving) && !k.KOther?
    ensures Advance(m, Event(Resolved, "", k, requiresOnline))
            == (ScanMoved(m, ResolvesTo(k, m.connectivity).value,
                          m.ctx.(resolutionKind := Some(k), requiresOnline := requiresOnline)), [])
  {
  }

  lemma OnOrderOk(m: Snapshot)
    requires Clear(m, OfferReady)
    ensures Advance(m, Signal(OrderOk)) == (ScanMoved(m, ReadyToSubmit, m.ctx), [])
  {
  }

  lemma OnSubmitRefused(m: Snapshot)
    requires (Clear(m, ReadyToSubmit) || Clear(m, UnknownCode)) && m.connectivity != Online
    ensures Advance(m, Signal(Submit))
            == (ScanMoved(m, BlockedOffline, m.ctx.(overrideAvailable := m.ctx.canOverride && !m.ctx.requiresOnline,
                                                    gateReturn := Some(m.scan))), [])
  {
  }

  lemma OnOverrideRequest(m: Snapshot)
    requires Clear(m, BlockedOffline)
    ensures Advance(m, Signal(OverrideRequest))
            == (if m.ctx.overrideAvailable
                then ScanMoved(m, OverrideConfirming,
                               m.ctx.(unverifiedWarning := m.ctx.resolutionKind == Some(KUnknownCode)))
                else m, [])
  {
  }

  lemma OnOverrideConfirm(m: Snapshot)
    requires Clear(m, OverrideConfirming) || Clear(m, BlockedOffline)
    ensures Advance(m, Signal(OverrideConfirm))
            == (if m.scan == BlockedOffline then (m, [])
                else (ScanMoved(m, OverridePending, m.ctx),
                      [WriteAttempt(true, m.ctx.resolutionKind == Some(KUnknownCode))]))
  {
  }

  lemma OnDismiss(m: Snapshot)
    requires Mirrored(m) && (m.scan == OfferReady || m.scan == ReadyToSubmit || m.scan == UnknownCode)
    ensures Advance(m, Signal(Dismiss)) == (m.(overlay := NoPrompt, ctx := m.ctx.(ov := NoPrompt)), [])
  {
    assert ScanDecision(m.scan, m.ctx, Signal(Dismiss)) == Stay();
  }

  lemma OnNextCustomer(m: Snapshot)
    requires Clear(m, Resolving)
    ensures Advance(m, Signal(NextCustomer)) == (ScanMoved(m, Idle, ResetCtx(m.ctx)), [])
  {
  }

  /** A RESOLVED outside the resolving state, or under the prompt, is ignored. */
  lemma OnResolvedElsewhere(m: Snapshot, t: Event)
    requires Mirrored(m) && t.kind == Resolved && (m.scan != Resolving || m.overlay == Prompt)
    ensures Advance(m, t) == (m, [])
  {
    assert ScanDecision(m.scan, m.ctx, t) == Stay();
  }
}
