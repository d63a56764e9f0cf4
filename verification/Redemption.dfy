/**
 Offline redemption on one device: the queued attempt, the arbiter's atomic burn, and the push
 handler as an automaton that advances at each await point.
 */
module Redemption {
  import opened Prelude

  type AttemptId = string
  type CodeId = string
  type DeviceId = string

  // ----- names of codes -----

  predicate HexDigit(c: char) { '0' <= c <= '9' || 'a' <= c <= 'f' || 'A' <= c <= 'F' }

  /** `n` groups of four hex digits, a hyphen allowed between groups. */
  predicate HexGroups(s: string, n: nat) {
    if n == 0 then s == ""
    else
      && |s| >= 4 && HexDigit(s[0]) && HexDigit(s[1]) && HexDigit(s[2]) && HexDigit(s[3])
      && HexGroups(if n > 1 && |s| > 4 && s[4] == '-' then s[5..] else s[4..], n - 1)
  }

  /** What the uuid parameter of redeem accepts: eight groups, in braces or not. Anything else is HTTP 400. */
  predicate NamesCode(c: CodeId) {
    if |c| >= 2 && c[0] == '{' && c[|c| - 1] == '}' then HexGroups(c[1..|c| - 1], 8) else HexGroups(c, 8)
  }

  /** The digits, by their codes. */
  lemma HexDigitCodes(c: char)
    ensures var n := c as int; HexDigit(c) <==> 48 <= n <= 57 || 65 <= n <= 70 || 97 <= n <= 102
  {
  }

  lemma {:induction false} PlainGroups(s: string, n: nat)
    requires |s| == 4 * n && forall i :: 0 <= i < |s| ==> HexDigit(s[i])
    ensures HexGroups(s, n)
    decreases n
  {
    if n > 0 {
      PlainGroups(s[4..], n - 1);
    }
  }

  lemma {:induction false} LeadingGroups(a: string, b: string, k: nat, n: nat)
    requires |a| == 4 * k && n >= 1 && k >= 1 && forall i :: 0 <= i < |a| ==> HexDigit(a[i])
    requires HexGroups(b, n)
    ensures HexGroups(a + "-" + b, k + n)
    decreases k
  {
    var s := a + "-" + b;
    if k == 1 {
      assert s[5..] == b;
    } else {
      assert s[4..] == a[4..] + "-" + b;
      LeadingGroups(a[4..], b, k - 1, n);
    }
  }

  /** n hex digits, 0-9, a-f or A-F, by their codes. */
  predicate Hex(s: string, n: nat) {
    && |s| == n
    && forall i :: 0 <= i < n ==>
         var c := s[i] as int; 48 <= c <= 57 || 65 <= c <= 70 || 97 <= c <= 102
  }

  lemma HexMeans(s: string, n: nat)
    requires Hex(s, n)
    ensures forall i :: 0 <= i < n ==> HexDigit(s[i])
  {
    forall i | 0 <= i < n ensures HexDigit(s[i]) {
      HexDigitCodes(s[i]);
    }
  }

  /** A uuid names a code as it is usually written, and without its hyphens, in braces or not. */
  lemma UuidNamesCode(a: string, b: string, c: string, d: string, e: string)
    requires Hex(a, 8) && Hex(b, 4) && Hex(c, 4) && Hex(d, 4) && Hex(e, 12)
    ensures var s := a + "-" + (b + "-" + (c + "-" + (d + "-" + e))); NamesCode(s) && NamesCode("{" + s + "}")
    ensures var s := a + b + c + d + e; NamesCode(s) && NamesCode("{" + s + "}")
  {
    HexMeans(a, 8);
    HexMeans(b, 4);
    HexMeans(c, 4);
    HexMeans(d, 4);
    HexMeans(e, 12);
    PlainGroups(e, 3);
    LeadingGroups(d, e, 1, 3);
    LeadingGroups(c, d + "-" + e, 1, 4);
    LeadingGroups(b, c + "-" + (d + "-" + e), 1, 5);
    LeadingGroups(a, b + "-" + (c + "-" + (d + "-" + e)), 2, 6);
    PlainGroups(a + b + c + d + e, 8);
    var s, t := a + "-" + (b + "-" + (c + "-" + (d + "-" + e))), a + b + c + d + e;
    assert s[0] == a[0] && t[0] == a[0];
    assert ("{" + s + "}")[1..|s| + 1] == s && ("{" + t + "}")[1..|t| + 1] == t;
  }

  lemma {:induction false} GroupsLength(s: string, n: nat)
    requires HexGroups(s, n)
    ensures 4 * n <= |s| <= 5 * n
    decreases n
  {
    if n > 0 {
      GroupsLength(if n > 1 && |s| > 4 && s[4] == '-' then s[5..] else s[4..], n - 1);
    }
  }

  /** A token hash in hex, 64 characters, names no code. */
  lemma HashNamesNoCode(hash: string)
    requires |hash| == 64
    ensures !NamesCode(hash)
  {
    if NamesCode(hash) {
      if hash[0] == '{' && hash[|hash| - 1] == '}' {
        GroupsLength(hash[1..|hash| - 1], 8);
      } else {
        GroupsLength(hash, 8);
      }
    }
  }

  // ----- the arbiter -----

  datatype Reason = AlreadyUsed | Expired | NotFound | OtherReason(text: string)

  datatype Code = Code(expiresAt: int, redeemedBy: Option<DeviceId>, redeemedAt: Option<int>, updatedAt: int)

  type Codes = map<CodeId, Code>

  datatype Verdict = Verdict(ok: bool, reason: Option<Reason>)

  /** redeem(p_code, p_device): one conditional UPDATE, else the reason taxonomy. */
  function Redeem(codes: Codes, c: CodeId, d: DeviceId, now: int): (Codes, Verdict) {
    if c in codes && codes[c].redeemedBy.None? && codes[c].expiresAt > now then
      (codes[c := codes[c].(redeemedBy := Some(d), redeemedAt := Some(now), updatedAt := now)], Verdict(true, None))
    else if c !in codes then (codes, Verdict(false, Some(NotFound)))
    else if codes[c].redeemedBy.Some? then (codes, Verdict(false, Some(AlreadyUsed)))
    else (codes, Verdict(false, Some(Expired)))
  }

  /** Two calls for one code, in any order, at any times, by any devices: at most one is told it won. */
  lemma OneWinnerPerCode(codes: Codes, c: CodeId, d: DeviceId, t: int, d': DeviceId, t': int)
    ensures var (after, v) := Redeem(codes, c, d, t);
            var (final, v') := Redeem(after, c, d', t');
            && (v.ok ==> !v'.ok && v'.reason == Some(AlreadyUsed) && final == after)
            && (v.ok <==> c in codes && codes[c].redeemedBy.None? && codes[c].expiresAt > t)
            && (v.ok ==> after == codes[c := Code(codes[c].expiresAt, Some(d), Some(t), t)] && v.reason.None?)
            && (!v.ok ==> after == codes && v.reason == Some(if c !in codes then NotFound
                                                             else if codes[c].redeemedBy.Some? then AlreadyUsed
                                                             else Expired))
  {
  }

  // ----- the queued attempt -----

  datatype Status = Pending | Accepted | Rejected

  /** What a scan records about itself; carried verbatim into the server row. */
  datatype Audit = Audit(
    scannedAt: int, offlineOverride: bool, overrideBy: Option<string>, policyUnresolved: bool,
    posOrderNumber: Option<string>, posBusinessDate: string, redeemedValue: Option<int>)

  datatype Attempt = Attempt(
    id: AttemptId, code: CodeId, device: DeviceId, unverified: bool, audit: Audit,
    status: Status, reason: Option<Reason>,
    burnOk: Option<bool>, burnReason: Option<Reason>, landed: bool,
    winnerDevice: Option<DeviceId>, winnerAt: Option<int>)

  function NewAttempt(id: AttemptId, code: CodeId, device: DeviceId, unverified: bool, audit: Audit): Attempt {
    Attempt(id, code, device, unverified, audit, Pending, None, None, None, false, None, None)
  }

  type Queue = map<AttemptId, Attempt>

  /** A pending or accepted attempt for the code: what enqueueAttempt dedupes on. */
  predicate Live(q: Queue, c: CodeId, id: AttemptId) {
    id in q && q[id].code == c && q[id].status != Rejected
  }

  /** The server's scan_attempts row. */
  datatype Row = Row(
    id: AttemptId, codeId: Option<CodeId>, tokenHash: Option<string>, device: DeviceId, unverified: bool,
    audit: Audit, status: Status, reason: Option<Reason>)

  /** The body of the landing insert: the F-2 path for an unverified attempt, else the burn outcome. */
  function LandingRow(a: Attempt, me: DeviceId): Row {
    if a.unverified then Row(a.id, None, Some(a.code), me, true, a.audit, Accepted, None)
    else Row(a.id, Some(a.code), None, me, false, a.audit, OutcomeStatus(a), OutcomeReason(a))
  }

  predicate Won(a: Attempt) { a.burnOk == Some(true) }

  function OutcomeStatus(a: Attempt): Status { if a.unverified || Won(a) then Accepted else Rejected }

  function OutcomeReason(a: Attempt): Option<Reason> { if a.unverified || Won(a) then None else a.burnReason }

  /** A landing may be sent: nothing to burn, or the burn outcome is persisted. */
  predicate Decided(a: Attempt) { a.unverified || a.burnOk.Some? }

  /** A verified attempt whose code names no code: its redeem is answered 400 for good. */
  predicate Nameless(a: Attempt) { !a.unverified && !NamesCode(a.code) }

  // ----- the push handler, await point by await point -----

  datatype Winner = Winner(device: DeviceId, at: Option<int>)

  datatype Burn = Burn(ok: bool, reason: Option<Reason>, winner: Option<Winner>)

  /** Where the running handler stands; volatile. */
  datatype Flight =
    | Idle
    | Burning(id: AttemptId)                 // redeem sent
    | Judging(id: AttemptId)                 // already_used, waiting for the replica to name the winner
    | Persisting(id: AttemptId, burn: Burn)  // belt 1: about to patch the outcome
    | Landing(id: AttemptId)                 // insert sent
    | Resolving(id: AttemptId)               // insert confirmed, about to patch the status

  datatype Request = RedeemPost(id: AttemptId, code: CodeId) | LandPost(row: Row)

  datatype Local = Local(queue: Queue, flight: Flight, log: seq<Request>)

  datatype Input =
    | Begin(id: AttemptId)
    | RedeemAnswered(verdict: Verdict)
    | WinnerNamed(winner: Winner)
    | Persisted
    | LandAnswered(status: nat)
    | Resolved
    | Aborted

  predicate LandedOk(status: nat) { status == 201 || status == 409 }

  function Judge(verdict: Verdict): Burn {
    Burn(verdict.ok, if verdict.ok then None else verdict.reason, None)
  }

  /** Belt 2: the winner the replica names is this device, so the lost burn was our own. */
  function Arbitrate(me: DeviceId, w: Winner): Burn {
    if w.device == me then Burn(true, None, None) else Burn(false, Some(AlreadyUsed), Some(w))
  }

  function PatchBurn(a: Attempt, b: Burn): Attempt {
    a.(burnOk := Some(b.ok), burnReason := b.reason,
       winnerDevice := if b.winner.Some? then Some(b.winner.value.device) else None,
       winnerAt := if b.winner.Some? then b.winner.value.at else None)
  }

  function PatchResolved(a: Attempt): Attempt {
    a.(status := OutcomeStatus(a), reason := OutcomeReason(a), landed := true)
  }

  function SendLanding(l: Local, me: DeviceId, id: AttemptId): Local
    requires id in l.queue
  {
    l.(flight := Landing(id), log := l.log + [LandPost(LandingRow(l.queue[id], me))])
  }

  function LocalStep(l: Local, me: DeviceId, input: Input): Local {
    match input
    case Begin(id) =>
      if l.flight != Idle || id !in l.queue || l.queue[id].status != Pending then l
      else if Decided(l.queue[id]) then SendLanding(l, me, id)
      else l.(flight := Burning(id), log := l.log + [RedeemPost(id, l.queue[id].code)])
    case RedeemAnswered(v) =>
      if !l.flight.Burning? then l
      else if !v.ok && v.reason == Some(AlreadyUsed) then l.(flight := Judging(l.flight.id))
      else l.(flight := Persisting(l.flight.id, Judge(v)))
    case WinnerNamed(w) =>
      if l.flight.Judging? then l.(flight := Persisting(l.flight.id, Arbitrate(me, w))) else l
    case Persisted =>
      if l.flight.Persisting? && l.flight.id in l.queue then
        var id := l.flight.id;
        SendLanding(l.(queue := l.queue[id := PatchBurn(l.queue[id], l.flight.burn)]), me, id)
      else l
    case LandAnswered(s) =>
      if !l.flight.Landing? then l
      else if LandedOk(s) then l.(flight := Resolving(l.flight.id))
      else l.(flight := Idle)
    case Resolved =>
      if l.flight.Resolving? && l.flight.id in l.queue then
        var id := l.flight.id;
        Local(l.queue[id := PatchResolved(l.queue[id])], Idle, l.log)
      else l
    case Aborted => l.(flight := Idle)
  }

  function LocalRun(l: Local, me: DeviceId, inputs: seq<Input>): Local
    decreases |inputs|
  {
    if inputs == [] then l else LocalRun(LocalStep(l, me, inputs[0]), me, inputs[1..])
  }

  lemma RunCons(l: Local, me: DeviceId, input: Input, rest: seq<Input>)
    ensures LocalRun(l, me, [input] + rest) == LocalRun(LocalStep(l, me, input), me, rest)
  {
    assert ([input] + rest)[1..] == rest;
  }
}
