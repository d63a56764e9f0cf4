/**
 Many devices, one arbiter. Each device runs the serialized enqueue and the push handler of module
 Redemption; the network may delay, repeat or lose any request or response; pages crash; clocks tick;
 replicas lag. Everything here holds after every sequence of steps.
 */
module RedemptionProtocol {
  import opened Prelude
  import opened Redemption

  // ----- the world -----

  /** What a caller of the enqueue supplies besides the code. */
  datatype Ask = Ask(unverified: bool, audit: Audit)

  /** One call in a code's promise chain; only the chain's head runs. */
  datatype Call = Waiting(ask: Ask) | FoundNone(ask: Ask)

  /** `order` is the queue's attempts as they were inserted. */
  datatype Device = Device(
    local: Local, replica: Codes, chains: map<CodeId, seq<Call>>,
    answer: Option<Verdict>, landAnswer: Option<nat>, order: seq<AttemptId>)

  /** What the server holds. */
  datatype Server = Server(codes: Codes, now: int, rows: map<AttemptId, Row>)

  /** `history` lists the codes tables that have existed: what a replica may still be showing. */
  datatype World = World(server: Server, history: seq<Codes>, devices: map<DeviceId, Device>)

  datatype Step =
    | Tick(now: int)
    | CreateCode(code: CodeId, expiresAt: int)
    | ForeignBurn(code: CodeId, name: DeviceId)
    | Sync(d: DeviceId, version: nat, code: CodeId)
    | Enqueue(d: DeviceId, code: CodeId, ask: Ask)
    | Find(d: DeviceId, code: CodeId)
    | Insert(d: DeviceId, code: CodeId, id: AttemptId)
    | FailEnqueue(d: DeviceId, code: CodeId)
    | Push(d: DeviceId, input: Input)
    | ServeRedeem(d: DeviceId, k: nat, delivered: bool)
    | ServeLanding(d: DeviceId, k: nat, delivered: bool)
    | Crash(d: DeviceId)

  // ----- one device -----

  /**
   Inputs the handler can really receive: a verdict, 201 or 409 as the server's answer, any other status at any
   time, a winner the replica names.
   */
  predicate Receivable(dev: Device, input: Input) {
    match input
    case RedeemAnswered(v) => dev.answer == Some(v)
    case LandAnswered(s) => s == 201 || s == 409 ==> dev.landAnswer == Some(s)
    case WinnerNamed(w) =>
      && dev.local.flight.Judging? && dev.local.flight.id in dev.local.queue
      && var c := dev.local.queue[dev.local.flight.id].code;
         c in dev.replica && dev.replica[c].redeemedBy == Some(w.device) && dev.replica[c].redeemedAt == w.at
    case _ => true
  }

  function PushOne(dev: Device, d: DeviceId, input: Input): Device {
    dev.(local := LocalStep(dev.local, d, input), answer := None, landAnswer := None)
  }

  function ChainOf(dev: Device, c: CodeId): seq<Call> {
    if c in dev.chains then dev.chains[c] else []
  }

  ghost predicate NoneLive(q: Queue, c: CodeId) {
    forall id :: !Live(q, c, id)
  }

  ghost function FindOne(dev: Device, c: CodeId): Device {
    var chain := ChainOf(dev, c);
    if chain == [] || chain[0].FoundNone? then dev
    else if NoneLive(dev.local.queue, c) then dev.(chains := dev.chains[c := [FoundNone(chain[0].ask)] + chain[1..]])
    else dev.(chains := dev.chains[c := chain[1..]])
  }

  function InsertOne(dev: Device, d: DeviceId, c: CodeId, id: AttemptId): Device {
    var chain := ChainOf(dev, c);
    if chain == [] || chain[0].Waiting? then dev
    else
      var a := NewAttempt(id, c, d, chain[0].ask.unverified, chain[0].ask.audit);
      dev.(local := dev.local.(queue := dev.local.queue[id := a]), chains := dev.chains[c := chain[1..]],
           order := dev.order + [id])
  }

  // ----- the world's steps -----

  function Publish(w: World, codes: Codes): World {
    w.(server := w.server.(codes := codes), history := w.history + [codes])
  }

  ghost predicate Fresh(w: World, id: AttemptId) {
    forall d :: d in w.devices ==> id !in w.devices[d].local.queue
  }

  ghost predicate Enabled(w: World, s: Step) {
    match s
    case Tick(now) => now >= w.server.now
    case CreateCode(c, _) => c !in w.server.codes && NamesCode(c)
    case ForeignBurn(_, name) => name !in w.devices
    case Sync(d, v, c) => d in w.devices && v < |w.history| && c in w.history[v]
    case Enqueue(d, c, ask) => d in w.devices && (ask.unverified || !NamesCode(c) || c in w.devices[d].replica)
    case Find(d, _) => d in w.devices
    case Insert(d, _, id) => d in w.devices && Fresh(w, id)
    case FailEnqueue(d, _) => d in w.devices
    case Push(d, input) => d in w.devices && Receivable(w.devices[d], input)
    case ServeRedeem(d, k, _) =>
      && d in w.devices && k < |w.devices[d].local.log| && w.devices[d].local.log[k].RedeemPost?
      && NamesCode(w.devices[d].local.log[k].code)  // else HTTP 400: nothing is served, and the handler throws
    case ServeLanding(d, k, _) =>
      d in w.devices && k < |w.devices[d].local.log| && w.devices[d].local.log[k].LandPost?
    case Crash(d) => d in w.devices
  }

  function Answered(dev: Device, id: AttemptId, v: Verdict, delivered: bool): Device {
    if delivered && dev.local.flight == Burning(id) then dev.(answer := Some(v)) else dev
  }

  function LandingAnswered(dev: Device, id: AttemptId, status: nat, delivered: bool): Device {
    if delivered && dev.local.flight == Landing(id) then dev.(landAnswer := Some(status)) else dev
  }

  /** INSERT on the primary key: 201, or 409 with the existing row kept. */
  function Land(rows: map<AttemptId, Row>, row: Row): (map<AttemptId, Row>, nat) {
    if row.id in rows then (rows, 409) else (rows[row.id := row], 201)
  }

  ghost function DeviceStep(w: World, d: DeviceId, s: Step): Device
    requires d in w.devices && Enabled(w, s)
  {
    var dev := w.devices[d];
    match s
    case Sync(_, v, c) => dev.(replica := dev.replica[c := w.history[v][c]])
    case Enqueue(_, c, ask) => dev.(chains := dev.chains[c := ChainOf(dev, c) + [Waiting(ask)]])
    case Find(_, c) => FindOne(dev, c)
    case Insert(_, c, id) => InsertOne(dev, d, c, id)
    case FailEnqueue(_, c) =>
      dev.(chains := dev.chains[c := if ChainOf(dev, c) == [] then [] else ChainOf(dev, c)[1..]])
    case Push(_, input) => PushOne(dev, d, input)
    case Crash(_) => Device(dev.local.(flight := Idle), dev.replica, map[], None, None, dev.order)
    case _ => dev
  }

  ghost function Do(w: World, s: Step): World
    requires Enabled(w, s)
  {
    match s
    case Tick(now) => w.(server := w.server.(now := now))
    case CreateCode(c, x) => Publish(w, w.server.codes[c := Code(x, None, None, w.server.now)])
    case ForeignBurn(c, name) => Publish(w, Redeem(w.server.codes, c, name, w.server.now).0)
    case ServeRedeem(d, k, delivered) =>
      var post := w.devices[d].local.log[k];
      var (codes, v) := Redeem(w.server.codes, post.code, d, w.server.now);
      Publish(w, codes).(devices := w.devices[d := Answered(w.devices[d], post.id, v, delivered)])
    case ServeLanding(d, k, delivered) =>
      var row := w.devices[d].local.log[k].row;
      var (rows, status) := Land(w.server.rows, row);
      w.(server := w.server.(rows := rows),
         devices := w.devices[d := LandingAnswered(w.devices[d], row.id, status, delivered)])
    case _ => w.(devices := w.devices[s.d := DeviceStep(w, s.d, s)])
  }

  /** A step that is not possible now does nothing, so every sequence of steps is a run. */
  ghost function Next(w: World, s: Step): (v: World)
    ensures v.devices.Keys == w.devices.Keys
  {
    if Enabled(w, s) then Do(w, s) else w
  }

  ghost function Run(w: World, steps: seq<Step>): (v: World)
    ensures v.devices.Keys == w.devices.Keys
    decreases |steps|
  {
    if steps == [] then w else Next(Run(w, steps[..|steps| - 1]), steps[|steps| - 1])
  }

  predicate NewDevice(dev: Device) {
    dev == Device(Local(map[], Idle, []), map[], map[], None, None, [])
  }

  predicate AllNamed(codes: Codes) { forall c :: c in codes ==> NamesCode(c) }

  ghost predicate Initial(w: World) {
    && w.server.rows == map[] && w.history == [w.server.codes] && AllNamed(w.server.codes)
    && (forall d :: d in w.devices ==> NewDevice(w.devices[d]))
    && (forall c :: c in w.server.codes && w.server.codes[c].redeemedBy.Some? ==>
          w.server.codes[c].redeemedBy.value !in w.devices)
  }

  // ----- what is true of a code, for good -----

  predicate Names(s: Server, c: CodeId, d: DeviceId) {
    c in s.codes && s.codes[c].redeemedBy == Some(d)
  }

  predicate Dead(s: Server, c: CodeId) {
    c in s.codes && s.codes[c].redeemedBy.None? && s.codes[c].expiresAt <= s.now
  }

  predicate Burned(s: Server, c: CodeId) {
    c in s.codes && s.codes[c].redeemedBy.Some?
  }

  /** A burn outcome that agrees with the arbiter: won, lost to the device it names, or expired unused. */
  predicate Truthful(s: Server, c: CodeId, d: DeviceId, b: Burn) {
    if b.ok then Names(s, c, d) && b.reason.None? && b.winner.None?
    else if b.winner.Some? then
      && b.reason == Some(AlreadyUsed) && b.winner.value.device != d
      && Names(s, c, b.winner.value.device) && s.codes[c].redeemedAt == b.winner.value.at
    else b.reason == Some(Expired) && Dead(s, c)
  }

  /** Time does not run back; burned and dead codes keep their rows; rows are only added. */
  ghost predicate Evolves(s: Server, t: Server) {
    && s.now <= t.now
    && (forall c :: c in s.codes ==> c in t.codes)
    && (forall c :: c in s.codes && (Burned(s, c) || Dead(s, c)) ==> t.codes[c] == s.codes[c])
    && (forall id :: id in s.rows ==> id in t.rows && t.rows[id] == s.rows[id])
  }

  // ----- the invariant -----

  /** The outcome an attempt has persisted. */
  function OutcomeOf(a: Attempt): Burn
    requires a.burnOk.Some?
  {
    Burn(a.burnOk.value, a.burnReason,
         if a.winnerDevice.Some? then Some(Winner(a.winnerDevice.value, a.winnerAt)) else None)
  }

  predicate AttemptTrue(s: Server, d: DeviceId, a: Attempt) {
    && (a.unverified ==> a.burnOk.None?)
    && (!a.unverified && NamesCode(a.code) ==> a.code in s.codes)
    && (a.burnOk.Some? ==> Truthful(s, a.code, d, OutcomeOf(a)))
    && (a.burnOk.None? ==> a.burnReason.None? && a.winnerDevice.None? && a.winnerAt.None?)
    && (if a.status == Pending then !a.landed && a.reason.None?
        else a.landed && Decided(a) && a.status == OutcomeStatus(a) && a.reason == OutcomeReason(a) && a.id in s.rows)
  }

  ghost predicate QueueTrue(s: Server, d: DeviceId, q: Queue) {
    forall id :: id in q ==> q[id].id == id && AttemptTrue(s, d, q[id])
  }

  predicate Open(q: Queue, id: AttemptId) { id in q && q[id].status == Pending }

  predicate AnswerTrue(s: Server, c: CodeId, d: DeviceId, v: Verdict) {
    if !v.ok && v.reason == Some(AlreadyUsed) then Burned(s, c) else Truthful(s, c, d, Judge(v))
  }

  predicate FlightTrue(s: Server, d: DeviceId, dev: Device) {
    var q := dev.local.queue;
    match dev.local.flight
    case Idle => true
    case Burning(id) => Open(q, id) && !Decided(q[id])
        && (dev.answer.Some? ==> AnswerTrue(s, q[id].code, d, dev.answer.value))
    case Judging(id) => Open(q, id) && !Decided(q[id]) && Burned(s, q[id].code)
    case Persisting(id, b) => Open(q, id) && !Decided(q[id]) && Truthful(s, q[id].code, d, b)
    case Landing(id) => Open(q, id) && Decided(q[id])
        && (dev.landAnswer.Some? ==> id in s.rows)
    case Resolving(id) => Open(q, id) && Decided(q[id]) && id in s.rows
  }

  predicate PostTrue(d: DeviceId, q: Queue, r: Request) {
    match r
    case RedeemPost(id, c) => id in q && !q[id].unverified && q[id].code == c
    case LandPost(row) => row.id in q && Decided(q[row.id]) && row == LandingRow(q[row.id], d)
  }

  predicate LogTrue(d: DeviceId, q: Queue, log: seq<Request>) {
    forall k :: 0 <= k < |log| ==> PostTrue(d, q, log[k])
  }

  /** A replica document is some earlier version of the server's. */
  predicate Stale(s: Server, c: CodeId, seen: Code) {
    c in s.codes && (seen.redeemedBy.Some? ==> s.codes[c] == seen)
  }

  ghost predicate TableTrue(s: Server, table: Codes) {
    forall c :: c in table ==> Stale(s, c, table[c])
  }

  ghost predicate OneLive(q: Queue) {
    forall c, i, j :: Live(q, c, i) && Live(q, c, j) ==> i == j
  }

  predicate CallTrue(s: Server, c: CodeId, call: Call) { call.ask.unverified || !NamesCode(c) || c in s.codes }

  ghost predicate ChainsTrue(s: Server, q: Queue, chains: map<CodeId, seq<Call>>) {
    && (forall c, k :: c in chains && 0 <= k < |chains[c]| ==>
          CallTrue(s, c, chains[c][k]) && (chains[c][k].FoundNone? ==> k == 0))
    && (forall c :: c in chains && chains[c] != [] && chains[c][0].FoundNone? ==> NoneLive(q, c))
  }

  ghost predicate DeviceTrue(s: Server, d: DeviceId, dev: Device) {
    && QueueTrue(s, d, dev.local.queue)
    && FlightTrue(s, d, dev)
    && LogTrue(d, dev.local.queue, dev.local.log)
    && TableTrue(s, dev.replica)
    && OneLive(dev.local.queue)
    && ChainsTrue(s, dev.local.queue, dev.chains)
  }

  ghost predicate RowOwned(w: World, id: AttemptId) {
    && id in w.server.rows
    && var row := w.server.rows[id];
       && row.device in w.devices && id in w.devices[row.device].local.queue
       && var a := w.devices[row.device].local.queue[id];
          Decided(a) && row == LandingRow(a, row.device)
  }

  ghost predicate HasPosted(log: seq<Request>, c: CodeId) {
    exists k :: 0 <= k < |log| && log[k].RedeemPost? && log[k].code == c
  }

  ghost predicate BurnsOwned(codes: Codes, devices: map<DeviceId, Device>) {
    forall c :: c in codes && codes[c].redeemedBy.Some? && codes[c].redeemedBy.value in devices ==>
      HasPosted(devices[codes[c].redeemedBy.value].local.log, c)
  }

  ghost predicate UniqueIds(devices: map<DeviceId, Device>) {
    forall d, e, id :: d in devices && e in devices && id in devices[d].local.queue && id in devices[e].local.queue ==>
        d == e
  }

  ghost predicate WorldTrue(w: World) {
    && (forall d :: d in w.devices ==> DeviceTrue(w.server, d, w.devices[d]))
    && (forall i :: 0 <= i < |w.history| ==> TableTrue(w.server, w.history[i]))
    && |w.history| > 0 && w.history[|w.history| - 1] == w.server.codes && AllNamed(w.server.codes)
    && (forall id :: id in w.server.rows ==> RowOwned(w, id))
    && UniqueIds(w.devices)
    && BurnsOwned(w.server.codes, w.devices)
  }

  // ----- the server moves -----

  lemma AttemptStaysTrue(s: Server, t: Server, d: DeviceId, a: Attempt)
    requires Evolves(s, t) && AttemptTrue(s, d, a)
    ensures AttemptTrue(t, d, a)
  {
  }

  lemma TableStaysTrue(s: Server, t: Server, table: Codes)
    requires Evolves(s, t) && TableTrue(s, table)
    ensures TableTrue(t, table)
  {
  }

  lemma FlightStaysTrue(s: Server, t: Server, d: DeviceId, dev: Device)
    requires Evolves(s, t) && FlightTrue(s, d, dev)
    ensures FlightTrue(t, d, dev)
  {
  }

  lemma DeviceStaysTrue(s: Server, t: Server, d: DeviceId, dev: Device)
    requires Evolves(s, t) && DeviceTrue(s, d, dev)
    ensures DeviceTrue(t, d, dev)
  {
    forall id | id in dev.local.queue ensures AttemptTrue(t, d, dev.local.queue[id]) {
      AttemptStaysTrue(s, t, d, dev.local.queue[id]);
    }
    FlightStaysTrue(s, t, d, dev);
    TableStaysTrue(s, t, dev.replica);
  }

  /** The conditional UPDATE: a burned or dead code is never written, and the answer is true from then on. */
  lemma RedeemEvolves(s: Server, c: CodeId, d: DeviceId)
    ensures var (codes, v) := Redeem(s.codes, c, d, s.now);
            var t := s.(codes := codes);
            && Evolves(s, t)
            && (c in s.codes ==> AnswerTrue(t, c, d, v))
            && (forall x :: x in codes && codes[x].redeemedBy.Some? ==>
                  (x in s.codes && s.codes[x] == codes[x]) || (x == c && codes[x].redeemedBy == Some(d)))
  {
  }

  // ----- the push handler moves -----

  /** One document amended by a patch that keeps what identifies it. */
  predicate Amends(q: Queue, q': Queue, id: AttemptId) {
    && id in q && q'.Keys == q.Keys && (forall x :: x in q && x != id ==> q'[x] == q[x])
    && var a, b := q[id], q'[id];
       && b.id == a.id && b.code == a.code && b.unverified == a.unverified && b.audit == a.audit
       && (a.status == Rejected ==> b.status == Rejected)
       && (Decided(a) ==> b.burnOk == a.burnOk && b.burnReason == a.burnReason)
  }

  lemma AmendedLog(d: DeviceId, q: Queue, q': Queue, id: AttemptId, log: seq<Request>)
    requires Amends(q, q', id) && LogTrue(d, q, log)
    ensures LogTrue(d, q', log)
  {
    forall k | 0 <= k < |log| ensures PostTrue(d, q', log[k]) {
      assert PostTrue(d, q, log[k]);
    }
  }

  lemma AmendedLive(s: Server, q: Queue, q': Queue, id: AttemptId, chains: map<CodeId, seq<Call>>)
    requires Amends(q, q', id) && OneLive(q) && ChainsTrue(s, q, chains)
    ensures OneLive(q') && ChainsTrue(s, q', chains)
  {
    assert forall c, i :: Live(q', c, i) ==> Live(q, c, i);
  }

  lemma PersistedKeeps(s: Server, d: DeviceId, dev: Device)
    requires DeviceTrue(s, d, dev) && dev.local.flight.Persisting?
    ensures DeviceTrue(s, d, PushOne(dev, d, Persisted))
  {
    hide NamesCode, TableTrue;
    var id, b := dev.local.flight.id, dev.local.flight.burn;
    var q := dev.local.queue;
    var q' := q[id := PatchBurn(q[id], b)];
    assert AttemptTrue(s, d, q'[id]);
    AmendedLog(d, q, q', id, dev.local.log);
    AmendedLive(s, q, q', id, dev.chains);
  }

  lemma ResolvedKeeps(s: Server, d: DeviceId, dev: Device)
    requires DeviceTrue(s, d, dev) && dev.local.flight.Resolving?
    ensures DeviceTrue(s, d, PushOne(dev, d, Resolved))
  {
    hide Truthful, NamesCode, TableTrue;
    var id := dev.local.flight.id;
    var q := dev.local.queue;
    var q' := q[id := PatchResolved(q[id])];
    assert AttemptTrue(s, d, q'[id]);
    AmendedLog(d, q, q', id, dev.local.log);
    AmendedLive(s, q, q', id, dev.chains);
  }

  lemma PushKeeps(s: Server, d: DeviceId, dev: Device, input: Input)
    requires DeviceTrue(s, d, dev) && Receivable(dev, input)
    ensures DeviceTrue(s, d, PushOne(dev, d, input))
  {
    hide ChainsTrue, OneLive, NamesCode;
    match input
    case Persisted =>
      if dev.local.flight.Persisting? {
        PersistedKeeps(s, d, dev);
      }
    case Resolved =>
      if dev.local.flight.Resolving? {
        ResolvedKeeps(s, d, dev);
      }
    case WinnerNamed(w) =>
      var c := dev.local.queue[dev.local.flight.id].code;
      assert Stale(s, c, dev.replica[c]);
    case _ =>
  }

  // ----- the enqueue moves -----

  lemma InsertKeeps(s: Server, d: DeviceId, dev: Device, c: CodeId, id: AttemptId)
    requires DeviceTrue(s, d, dev) && id !in dev.local.queue
    ensures DeviceTrue(s, d, InsertOne(dev, d, c, id))
  {
    hide Truthful, LandingRow, NamesCode, TableTrue;
    var chain := ChainOf(dev, c);
    if chain != [] && chain[0].FoundNone? {
      var dev' := InsertOne(dev, d, c, id);
      var q, q' := dev.local.queue, dev'.local.queue;
      assert NoneLive(q, c);
      assert CallTrue(s, c, chain[0]);
      assert AttemptTrue(s, d, q'[id]);
      assert forall x, i :: Live(q', x, i) ==> Live(q, x, i) || (x == c && i == id);
      assert forall k :: 0 <= k < |dev.local.log| ==> PostTrue(d, q, dev.local.log[k]);
    }
  }

  lemma ChainsStep(s: Server, q: Queue, chains: map<CodeId, seq<Call>>, c: CodeId, calls: seq<Call>)
    requires ChainsTrue(s, q, chains)
    requires forall k :: 0 <= k < |calls| ==> CallTrue(s, c, calls[k]) && (calls[k].FoundNone? ==> k == 0)
    requires calls != [] && calls[0].FoundNone? ==> NoneLive(q, c)
    ensures ChainsTrue(s, q, chains[c := calls])
  {
  }

  lemma FindKeeps(s: Server, d: DeviceId, dev: Device, c: CodeId)
    requires DeviceTrue(s, d, dev)
    ensures DeviceTrue(s, d, FindOne(dev, c))
  {
    var chain := ChainOf(dev, c);
    if chain != [] && chain[0].Waiting? {
      ChainsStep(s, dev.local.queue, dev.chains, c,
                 if NoneLive(dev.local.queue, c) then [FoundNone(chain[0].ask)] + chain[1..] else chain[1..]);
    }
  }

  lemma DeviceStepKeeps(w: World, s: Step)
    requires WorldTrue(w) && LocalKind(s) && Enabled(w, s)
    ensures DeviceTrue(w.server, s.d, DeviceStep(w, s.d, s))
  {
    hide QueueTrue, LogTrue, OneLive, BurnsOwned, UniqueIds, RowOwned;
    var d := s.d;
    var dev := w.devices[d];
    match s
    case Sync(_, v, c) =>
      assert TableTrue(w.server, w.history[v]);
    case Enqueue(_, c, ask) =>
      assert ask.unverified || !NamesCode(c) || Stale(w.server, c, dev.replica[c]);
      ChainsStep(w.server, dev.local.queue, dev.chains, c, ChainOf(dev, c) + [Waiting(ask)]);
    case Find(_, c) => FindKeeps(w.server, d, dev, c);
    case Insert(_, c, id) => InsertKeeps(w.server, d, dev, c, id);
    case FailEnqueue(_, c) =>
      ChainsStep(w.server, dev.local.queue, dev.chains, c, if ChainOf(dev, c) == [] then [] else ChainOf(dev, c)[1..]);
    case Push(_, input) => PushKeeps(w.server, d, dev, input);
    case Crash(_) =>
  }

  // ----- what a device carries forward -----

  /** An attempt's identity never changes, a persisted burn never changes, a resolved attempt never changes. */
  predicate Carried(a: Attempt, b: Attempt) {
    && b.id == a.id && b.code == a.code && b.unverified == a.unverified && b.audit == a.audit
    && (a.burnOk.Some? ==> b.burnOk == a.burnOk && b.burnReason == a.burnReason
                           && b.winnerDevice == a.winnerDevice && b.winnerAt == a.winnerAt)
    && (a.status != Pending ==> b == a)
  }

  /** A redeem appended from queue `q` on is for an attempt whose outcome is not persisted there. */
  predicate NewPostsUndecided(q: Queue, log: seq<Request>, from: nat) {
    forall k :: from <= k < |log| && log[k].RedeemPost? && log[k].id in q ==> !Decided(q[log[k].id])
  }

  ghost predicate Carries(l: Local, m: Local) {
    && (forall id :: id in l.queue ==> id in m.queue && Carried(l.queue[id], m.queue[id]))
    && l.log <= m.log
    && NewPostsUndecided(l.queue, m.log, |l.log|)
  }

  lemma CarriesTransitive(l: Local, m: Local, n: Local)
    requires Carries(l, m) && Carries(m, n)
    ensures Carries(l, n)
  {
    forall k | |l.log| <= k < |n.log| && n.log[k].RedeemPost? && n.log[k].id in l.queue
      ensures !Decided(l.queue[n.log[k].id])
    {
      var id := n.log[k].id;
      if k < |m.log| {
        assert n.log[k] == m.log[k];
      } else {
        assert Carried(l.queue[id], m.queue[id]);
      }
    }
  }

  /** The row a patch is about to change is pending, and a burn is patched in once. */
  predicate Patchable(l: Local) {
    && (l.flight.Persisting? ==> Open(l.queue, l.flight.id) && !Decided(l.queue[l.flight.id]))
    && (l.flight.Resolving? ==> Open(l.queue, l.flight.id))
  }

  lemma FlyingIsPatchable(s: Server, d: DeviceId, dev: Device)
    requires FlightTrue(s, d, dev)
    ensures Patchable(dev.local)
  {
  }

  lemma LocalCarries(l: Local, me: DeviceId, input: Input)
    requires Patchable(l)
    ensures Carries(l, LocalStep(l, me, input)) && LocalStep(l, me, input).queue.Keys == l.queue.Keys
  {
  }

  lemma PushCarries(s: Server, d: DeviceId, dev: Device, input: Input)
    requires DeviceTrue(s, d, dev)
    ensures Carries(dev.local, PushOne(dev, d, input).local)
    ensures PushOne(dev, d, input).local.queue.Keys == dev.local.queue.Keys
  {
    hide Carries, LocalStep, Patchable, FlightTrue, QueueTrue, LogTrue, ChainsTrue;
    FlyingIsPatchable(s, d, dev);
    LocalCarries(dev.local, d, input);
  }

  ghost predicate Arrivals(w: World, d: DeviceId, q: Queue)
    requires d in w.devices
  {
    forall id :: id in q ==> id in w.devices[d].local.queue || Fresh(w, id)
  }

  predicate LocalKind(s: Step) {
    s.Sync? || s.Enqueue? || s.Find? || s.Insert? || s.FailEnqueue? || s.Push? || s.Crash?
  }

  lemma DeviceStepCarries(w: World, s: Step)
    requires WorldTrue(w) && LocalKind(s) && Enabled(w, s)
    ensures Carries(w.devices[s.d].local, DeviceStep(w, s.d, s).local)
    ensures Arrivals(w, s.d, DeviceStep(w, s.d, s).local.queue)
  {
    hide DeviceTrue, BurnsOwned, UniqueIds, RowOwned, TableTrue;
    var dev := w.devices[s.d];
    if s.Push? {
      PushCarries(w.server, s.d, dev, s.input);
    } else {
      var l, m := dev.local, DeviceStep(w, s.d, s).local;
      assert m.log == l.log;
      assert s.Insert? || m.queue == l.queue;
    }
  }

  // ----- every step keeps the invariant -----

  /** What every step gives: the invariant again, a server that only evolves, devices that only carry forward. */
  ghost predicate Onward(w: World, w': World) {
    && WorldTrue(w') && Evolves(w.server, w'.server) && w'.devices.Keys == w.devices.Keys
    && forall d :: d in w.devices ==> Carries(w.devices[d].local, w'.devices[d].local)
  }

  lemma OnwardSame(w: World)
    requires WorldTrue(w)
    ensures Onward(w, w)
  {
    Unmoved(w.devices);
  }

  lemma OnwardTransitive(u: World, v: World, w: World)
    requires Onward(u, v) && Onward(v, w)
    ensures Onward(u, w)
  {
    forall d | d in u.devices ensures Carries(u.devices[d].local, w.devices[d].local) {
      CarriesTransitive(u.devices[d].local, v.devices[d].local, w.devices[d].local);
    }
  }

  lemma RowsStayOwned(w: World, d: DeviceId, dev: Device)
    requires d in w.devices && Carries(w.devices[d].local, dev.local)
    requires forall id :: id in w.server.rows ==> RowOwned(w, id)
    ensures forall id :: id in w.server.rows ==> RowOwned(w.(devices := w.devices[d := dev]), id)
  {
    var w' := w.(devices := w.devices[d := dev]);
    forall id | id in w.server.rows ensures RowOwned(w', id) {
      assert RowOwned(w, id);
      if w.server.rows[id].device == d {
        assert Carried(w.devices[d].local.queue[id], dev.local.queue[id]);
      }
    }
  }

  lemma PostsStay(l: seq<Request>, m: seq<Request>, c: CodeId)
    requires l <= m && HasPosted(l, c)
    ensures HasPosted(m, c)
  {
    var k :| 0 <= k < |l| && l[k].RedeemPost? && l[k].code == c;
    assert m[k] == l[k];
  }

  lemma BurnsStayOwned(codes: Codes, devices: map<DeviceId, Device>, d: DeviceId, dev: Device)
    requires d in devices && devices[d].local.log <= dev.local.log && BurnsOwned(codes, devices)
    ensures BurnsOwned(codes, devices[d := dev])
  {
    forall c | c in codes && codes[c].redeemedBy == Some(d) ensures HasPosted(dev.local.log, c) {
      PostsStay(devices[d].local.log, dev.local.log, c);
    }
  }

  lemma Unmoved(devices: map<DeviceId, Device>)
    ensures forall d :: d in devices ==> Carries(devices[d].local, devices[d].local)
  {
  }

  lemma IdsStayUnique(w: World, d: DeviceId, dev: Device)
    requires UniqueIds(w.devices) && d in w.devices && Arrivals(w, d, dev.local.queue)
    ensures UniqueIds(w.devices[d := dev])
  {
  }

  lemma EvolvesSame(s: Server)
    ensures Evolves(s, s)
  {
  }

  lemma OthersStay(w: World, d: DeviceId, dev: Device)
    requires WorldTrue(w) && d in w.devices && DeviceTrue(w.server, d, dev) && Carries(w.devices[d].local, dev.local)
    ensures forall e :: e in w.devices ==>
              && DeviceTrue(w.server, e, w.devices[d := dev][e])
              && Carries(w.devices[e].local, w.devices[d := dev][e].local)
  {
    Unmoved(w.devices);
    hide DeviceTrue, Carries, RowOwned, BurnsOwned, UniqueIds, TableTrue;
  }

  lemma DevicesMove(w: World, devices: map<DeviceId, Device>)
    requires WorldTrue(w) && devices.Keys == w.devices.Keys
    requires forall e :: e in devices ==>
               DeviceTrue(w.server, e, devices[e]) && Carries(w.devices[e].local, devices[e].local)
    requires forall id :: id in w.server.rows ==> RowOwned(w.(devices := devices), id)
    requires UniqueIds(devices) && BurnsOwned(w.server.codes, devices)
    ensures Onward(w, w.(devices := devices))
  {
    EvolvesSame(w.server);
    hide DeviceTrue, RowOwned, BurnsOwned, UniqueIds, TableTrue, Carries, Evolves, AllNamed;
  }

  lemma OneDeviceMoves(w: World, d: DeviceId, dev: Device)
    requires WorldTrue(w) && d in w.devices && DeviceTrue(w.server, d, dev)
    requires Carries(w.devices[d].local, dev.local) && Arrivals(w, d, dev.local.queue)
    ensures Onward(w, w.(devices := w.devices[d := dev]))
  {
    assert w.devices[d].local.log <= dev.local.log;
    RowsStayOwned(w, d, dev);
    BurnsStayOwned(w.server.codes, w.devices, d, dev);
    IdsStayUnique(w, d, dev);
    OthersStay(w, d, dev);
    hide WorldTrue, Onward, DeviceTrue, RowOwned, BurnsOwned, UniqueIds, Carries, Arrivals;
    DevicesMove(w, w.devices[d := dev]);
  }

  /** The server evolves; every device and every table that existed stays true. */
  lemma AllStayTrue(w: World, t: Server)
    requires WorldTrue(w) && Evolves(w.server, t)
    ensures forall d :: d in w.devices ==> DeviceTrue(t, d, w.devices[d])
    ensures forall i :: 0 <= i < |w.history| ==> TableTrue(t, w.history[i])
  {
    forall d | d in w.devices ensures DeviceTrue(t, d, w.devices[d]) {
      DeviceStaysTrue(w.server, t, d, w.devices[d]);
    }
    forall i | 0 <= i < |w.history| ensures TableTrue(t, w.history[i]) {
      TableStaysTrue(w.server, t, w.history[i]);
    }
  }

  lemma OwnedAcross(w: World, w': World, id: AttemptId)
    requires RowOwned(w, id) && w'.devices == w.devices
    requires id in w'.server.rows && w'.server.rows[id] == w.server.rows[id]
    ensures RowOwned(w', id)
  {
  }

  /** The codes table or the clock moves: rows and devices stay. */
  lemma ServerMoves(w: World, w': World)
    requires WorldTrue(w) && w'.devices == w.devices
    requires Evolves(w.server, w'.server) && w'.server.rows == w.server.rows
    requires w'.history == w.history + [w'.server.codes]
             || (w'.history == w.history && w'.server.codes == w.server.codes)
    requires BurnsOwned(w'.server.codes, w.devices) && AllNamed(w'.server.codes)
    ensures Onward(w, w')
  {
    AllStayTrue(w, w'.server);
    forall id | id in w'.server.rows ensures RowOwned(w', id) {
      OwnedAcross(w, w', id);
    }
    assert TableTrue(w'.server, w'.server.codes);
    Unmoved(w.devices);
  }

  lemma CodeBurns(w: World, d: DeviceId, c: CodeId)
    requires WorldTrue(w) && d in w.devices && HasPosted(w.devices[d].local.log, c)
    ensures Onward(w, Publish(w, Redeem(w.server.codes, c, d, w.server.now).0))
  {
    RedeemEvolves(w.server, c, d);
    ServerMoves(w, Publish(w, Redeem(w.server.codes, c, d, w.server.now).0));
  }

  lemma RedeemAnswerTrue(s: Server, d: DeviceId, dev: Device, k: nat, delivered: bool)
    requires DeviceTrue(s, d, dev) && k < |dev.local.log| && dev.local.log[k].RedeemPost?
    requires NamesCode(dev.local.log[k].code)
    ensures var post := dev.local.log[k];
            var (codes, v) := Redeem(s.codes, post.code, d, s.now);
            && DeviceTrue(s.(codes := codes), d, dev)
            && DeviceTrue(s.(codes := codes), d, Answered(dev, post.id, v, delivered))
  {
    var post := dev.local.log[k];
    assert PostTrue(d, dev.local.queue, post);
    assert AttemptTrue(s, d, dev.local.queue[post.id]);
    RedeemEvolves(s, post.code, d);
    DeviceStaysTrue(s, s.(codes := Redeem(s.codes, post.code, d, s.now).0), d, dev);
  }

  lemma ServeRedeemKeeps(w: World, d: DeviceId, k: nat, delivered: bool)
    requires WorldTrue(w) && Enabled(w, ServeRedeem(d, k, delivered))
    ensures Onward(w, Do(w, ServeRedeem(d, k, delivered)))
  {
    var dev := w.devices[d];
    var post := dev.local.log[k];
    var (codes, v) := Redeem(w.server.codes, post.code, d, w.server.now);
    var w1 := Publish(w, codes);
    CodeBurns(w, d, post.code);
    RedeemAnswerTrue(w.server, d, dev, k, delivered);
    AnswerArrives(w, w1, d, Answered(dev, post.id, v, delivered));
  }

  lemma AnswerArrives(w: World, w1: World, d: DeviceId, dev: Device)
    requires Onward(w, w1) && w1.devices == w.devices && d in w.devices
    requires DeviceTrue(w1.server, d, dev) && dev.local == w.devices[d].local
    ensures Onward(w, w1.(devices := w.devices[d := dev]))
  {
    OneDeviceMoves(w1, d, dev);
    OnwardTransitive(w, w1, w1.(devices := w.devices[d := dev]));
  }

  /** A landing that meets an existing row meets its own: the row a retry would have written. */
  lemma LandingMeetsItself(w: World, d: DeviceId, row: Row)
    requires WorldTrue(w) && d in w.devices && PostTrue(d, w.devices[d].local.queue, LandPost(row))
    ensures row.id in w.server.rows ==> w.server.rows[row.id] == row
  {
    if row.id in w.server.rows {
      assert RowOwned(w, row.id);
    }
  }

  lemma RowLands(w: World, d: DeviceId, row: Row)
    requires WorldTrue(w) && d in w.devices && PostTrue(d, w.devices[d].local.queue, LandPost(row))
    ensures Onward(w, w.(server := w.server.(rows := Land(w.server.rows, row).0)))
  {
    hide DeviceTrue, BurnsOwned, UniqueIds, TableTrue, Carries;
    var w1 := w.(server := w.server.(rows := Land(w.server.rows, row).0));
    AllStayTrue(w, w1.server);
    if row.id !in w.server.rows {
      assert RowOwned(w1, row.id);
    }
    forall id | id in w.server.rows ensures RowOwned(w1, id) {
      OwnedAcross(w, w1, id);
    }
    Unmoved(w.devices);
  }

  lemma ServeLandingKeeps(w: World, d: DeviceId, k: nat, delivered: bool)
    requires WorldTrue(w) && Enabled(w, ServeLanding(d, k, delivered))
    ensures Onward(w, Do(w, ServeLanding(d, k, delivered)))
  {
    var dev := w.devices[d];
    var row := dev.local.log[k].row;
    assert PostTrue(d, dev.local.queue, LandPost(row));
    RowLands(w, d, row);
    var w1 := w.(server := w.server.(rows := Land(w.server.rows, row).0));
    LandingAnswerTrue(w1.server, d, dev, row, Land(w.server.rows, row).1, delivered);
    AnswerArrives(w, w1, d, LandingAnswered(dev, row.id, Land(w.server.rows, row).1, delivered));
  }

  lemma LandingAnswerTrue(s: Server, d: DeviceId, dev: Device, row: Row, status: nat, delivered: bool)
    requires DeviceTrue(s, d, dev) && row.id in s.rows
    ensures DeviceTrue(s, d, LandingAnswered(dev, row.id, status, delivered))
  {
  }

  lemma ServerStepKeeps(w: World, s: Step)
    requires WorldTrue(w) && (s.Tick? || s.CreateCode? || s.ForeignBurn?) && Enabled(w, s)
    ensures Onward(w, Do(w, s))
  {
    if s.ForeignBurn? {
      RedeemEvolves(w.server, s.code, s.name);
    }
    ServerMoves(w, Do(w, s));
  }

  lemma LocalStepKeeps(w: World, s: Step)
    requires WorldTrue(w) && LocalKind(s) && Enabled(w, s)
    ensures Onward(w, Do(w, s))
  {
    DeviceStepKeeps(w, s);
    DeviceStepCarries(w, s);
    OneDeviceMoves(w, s.d, DeviceStep(w, s.d, s));
  }

  lemma StepKeeps(w: World, s: Step)
    requires WorldTrue(w)
    ensures Onward(w, Next(w, s))
  {
    hide WorldTrue, Onward, Do;
    OnwardSame(w);
    if Enabled(w, s) {
      if LocalKind(s) {
        LocalStepKeeps(w, s);
      } else if s.ServeRedeem? {
        ServeRedeemKeeps(w, s.d, s.k, s.delivered);
      } else if s.ServeLanding? {
        ServeLandingKeeps(w, s.d, s.k, s.delivered);
      } else {
        ServerStepKeeps(w, s);
      }
    }
  }

  lemma {:induction false} RunKeeps(w: World, steps: seq<Step>)
    requires WorldTrue(w)
    ensures Onward(w, Run(w, steps))
    decreases |steps|
  {
    hide WorldTrue, Next, Carries, Evolves;
    OnwardSame(w);
    if steps != [] {
      var front := steps[..|steps| - 1];
      RunKeeps(w, front);
      StepKeeps(Run(w, front), steps[|steps| - 1]);
      OnwardTransitive(w, Run(w, front), Run(w, steps));
    }
  }

  lemma InitiallyTrue(w: World)
    requires Initial(w)
    ensures WorldTrue(w)
  {
  }

  // ----- the theorems -----

  predicate HoldsVerified(w: World, d: DeviceId, id: AttemptId, c: CodeId) {
    && d in w.devices && id in w.devices[d].local.queue
    && var a := w.devices[d].local.queue[id];
       !a.unverified && a.code == c
  }

  predicate AcceptedAt(w: World, d: DeviceId, id: AttemptId, c: CodeId) {
    HoldsVerified(w, d, id, c) && w.devices[d].local.queue[id].status == Accepted
  }

  predicate RejectedAt(w: World, d: DeviceId, id: AttemptId, c: CodeId) {
    HoldsVerified(w, d, id, c) && w.devices[d].local.queue[id].status == Rejected
  }

  lemma Reachable(w: World, steps: seq<Step>)
    requires Initial(w)
    ensures Onward(w, Run(w, steps))
  {
    InitiallyTrue(w);
    RunKeeps(w, steps);
  }

  lemma {:induction false} RunAppends(w: World, steps: seq<Step>, more: seq<Step>)
    ensures Run(w, steps + more) == Run(Run(w, steps), more)
    decreases |more|
  {
    if more == [] {
      assert steps + more == steps;
    } else {
      var front := more[..|more| - 1];
      assert (steps + more)[..|steps + more| - 1] == steps + front;
      RunAppends(w, steps, front);
    }
  }

  /** What a persisted or resolved attempt says agrees with the arbiter. */
  lemma AgreesNow(w: World, d: DeviceId, id: AttemptId, c: CodeId)
    requires WorldTrue(w) && HoldsVerified(w, d, id, c)
    ensures var a := w.devices[d].local.queue[id];
            && (a.status == Accepted ==> Names(w.server, c, d))
            && (a.status == Rejected ==>
                  if a.reason == Some(AlreadyUsed)
                  then a.winnerDevice.Some? && a.winnerDevice.value != d && Names(w.server, c, a.winnerDevice.value)
                       && w.server.codes[c].redeemedAt == a.winnerAt
                  else a.reason == Some(Expired) && Dead(w.server, c))
  {
    var a := w.devices[d].local.queue[id];
    assert AttemptTrue(w.server, d, a);
  }

  /** At most one verified attempt per code, over all devices, is ever accepted. */
  lemma SingleWinner(w: World, steps: seq<Step>, c: CodeId, d: DeviceId, i: AttemptId, e: DeviceId, j: AttemptId)
    requires Initial(w)
    requires AcceptedAt(Run(w, steps), d, i, c) && AcceptedAt(Run(w, steps), e, j, c)
    ensures d == e && i == j
  {
    Reachable(w, steps);
    var v := Run(w, steps);
    AgreesNow(v, d, i, c);
    AgreesNow(v, e, j, c);
    assert Live(v.devices[d].local.queue, c, i) && Live(v.devices[d].local.queue, c, j);
  }

  /** What a device shows a guest stays what the arbiter says, however the run goes on. */
  lemma Agreement(w: World, steps: seq<Step>, more: seq<Step>, d: DeviceId, id: AttemptId, c: CodeId)
    requires Initial(w)
    ensures AcceptedAt(Run(w, steps), d, id, c) ==>
              Names(Run(w, steps + more).server, c, d) && AcceptedAt(Run(w, steps + more), d, id, c)
    ensures RejectedAt(Run(w, steps), d, id, c) ==>
              !Names(Run(w, steps + more).server, c, d) && RejectedAt(Run(w, steps + more), d, id, c)
  {
    Reachable(w, steps);
    var v := Run(w, steps);
    RunKeeps(v, more);
    RunAppends(w, steps, more);
    if HoldsVerified(v, d, id, c) && v.devices[d].local.queue[id].status != Pending {
      assert Carried(v.devices[d].local.queue[id], Run(v, more).devices[d].local.queue[id]);
      AgreesNow(Run(v, more), d, id, c);
    }
  }

  /** The device the arbiter names holds a verified attempt for the code that is not rejected, and never will be. */
  lemma WinnerIsNotRejected(w: World, steps: seq<Step>, c: CodeId, d: DeviceId) returns (id: AttemptId)
    requires Initial(w) && d in w.devices && Names(Run(w, steps).server, c, d)
    ensures HoldsVerified(Run(w, steps), d, id, c) && !RejectedAt(Run(w, steps), d, id, c)
    ensures forall other :: HoldsVerified(Run(w, steps), d, other, c) ==>
              other == id && !RejectedAt(Run(w, steps), d, other, c)
  {
    Reachable(w, steps);
    var v := Run(w, steps);
    var log := v.devices[d].local.log;
    assert HasPosted(log, c);
    var k :| 0 <= k < |log| && log[k].RedeemPost? && log[k].code == c;
    assert PostTrue(d, v.devices[d].local.queue, log[k]);
    id := log[k].id;
    forall other | HoldsVerified(v, d, other, c) ensures !RejectedAt(v, d, other, c) && other == id {
      AgreesNow(v, d, other, c);
      AgreesNow(v, d, id, c);
      assert Live(v.devices[d].local.queue, c, other) && Live(v.devices[d].local.queue, c, id);
    }
  }

  lemma CarriedRow(s: Server, t: Server, d: DeviceId, a: Attempt, b: Attempt)
    requires Carried(a, b) && Decided(a) && AttemptTrue(s, d, a) && AttemptTrue(t, d, b)
    ensures Decided(b) && b.burnOk == a.burnOk && LandingRow(b, d) == LandingRow(a, d)
  {
  }

  /** Once persisted, a burn outcome is final, its attempt is never redeemed again, and a landed row never changes. */
  lemma BurnIsFinal(w: World, steps: seq<Step>, more: seq<Step>, d: DeviceId, id: AttemptId)
    requires Initial(w) && d in w.devices && id in Run(w, steps).devices[d].local.queue
    requires Decided(Run(w, steps).devices[d].local.queue[id])
    ensures var l, m := Run(w, steps).devices[d].local, Run(w, steps + more).devices[d].local;
            && id in m.queue && m.queue[id].burnOk == l.queue[id].burnOk
            && LandingRow(m.queue[id], d) == LandingRow(l.queue[id], d)
            && |l.log| <= |m.log|
            && (forall k :: |l.log| <= k < |m.log| && m.log[k].RedeemPost? ==> m.log[k].id != id)
    ensures var rows, rows' := Run(w, steps).server.rows, Run(w, steps + more).server.rows;
            id in rows ==> id in rows' && rows'[id] == rows[id]
  {
    Reachable(w, steps);
    RunAppends(w, steps, more);
    FinalFrom(Run(w, steps), more, d, id);
  }

  lemma FinalBetween(v: World, u: World, d: DeviceId, id: AttemptId)
    requires WorldTrue(v) && Onward(v, u) && d in v.devices && id in v.devices[d].local.queue
    requires Decided(v.devices[d].local.queue[id])
    ensures var l, m := v.devices[d].local, u.devices[d].local;
            && id in m.queue && m.queue[id].burnOk == l.queue[id].burnOk
            && LandingRow(m.queue[id], d) == LandingRow(l.queue[id], d)
            && |l.log| <= |m.log|
            && (forall k :: |l.log| <= k < |m.log| && m.log[k].RedeemPost? ==> m.log[k].id != id)
  {
    hide RowOwned, BurnsOwned, TableTrue, UniqueIds, FlightTrue, LogTrue, ChainsTrue, OneLive;
    CarriedRow(v.server, u.server, d, v.devices[d].local.queue[id], u.devices[d].local.queue[id]);
  }

  lemma FinalFrom(v: World, more: seq<Step>, d: DeviceId, id: AttemptId)
    requires WorldTrue(v) && d in v.devices && id in v.devices[d].local.queue && Decided(v.devices[d].local.queue[id])
    ensures var l, m := v.devices[d].local, Run(v, more).devices[d].local;
            && id in m.queue && m.queue[id].burnOk == l.queue[id].burnOk
            && LandingRow(m.queue[id], d) == LandingRow(l.queue[id], d)
            && |l.log| <= |m.log|
            && (forall k :: |l.log| <= k < |m.log| && m.log[k].RedeemPost? ==> m.log[k].id != id)
    ensures var rows, rows' := v.server.rows, Run(v, more).server.rows;
            id in rows ==> id in rows' && rows'[id] == rows[id]
  {
    RunKeeps(v, more);
    FinalBetween(v, Run(v, more), d, id);
  }

  /** A landing answered 409, at whatever time and from whatever retry, met exactly the row it carries. */
  lemma LandingIsIdempotent(w: World, steps: seq<Step>, d: DeviceId, k: nat)
    requires Initial(w) && Enabled(Run(w, steps), ServeLanding(d, k, true))
    ensures var v := Run(w, steps);
            var row := v.devices[d].local.log[k].row;
            Land(v.server.rows, row).1 == 409 ==> v.server.rows[row.id] == row
    ensures var v := Run(w, steps);
            var row := v.devices[d].local.log[k].row;
            Land(v.server.rows, row).0[row.id] == row
  {
    Reachable(w, steps);
    var v := Run(w, steps);
    var row := v.devices[d].local.log[k].row;
    assert PostTrue(d, v.devices[d].local.queue, LandPost(row));
    LandingMeetsItself(v, d, row);
  }

  /** A resolved attempt's server row says what the device shows. */
  lemma ResolvedMeansLanded(w: World, steps: seq<Step>, d: DeviceId, id: AttemptId)
    requires Initial(w) && d in w.devices && id in Run(w, steps).devices[d].local.queue
    ensures var v := Run(w, steps);
            var a := v.devices[d].local.queue[id];
            a.status != Pending ==> id in v.server.rows && v.server.rows[id] == LandingRow(a, d)
                                    && v.server.rows[id].status == a.status && v.server.rows[id].reason == a.reason
  {
    Reachable(w, steps);
    var v := Run(w, steps);
    var a := v.devices[d].local.queue[id];
    assert AttemptTrue(v.server, d, a);
    if a.status != Pending {
      assert RowOwned(v, id);
    }
  }

  /**
   The server's attempt table agrees with the arbiter: a row carries its scan's audit data; a verified row
   names its code and is accepted exactly if the arbiter names its device; an unverified one names no code,
   carries the scanned hash and is accepted.
   */
  lemma LandedRowsTellTheTruth(w: World, steps: seq<Step>, id: AttemptId)
    requires Initial(w) && id in Run(w, steps).server.rows
    ensures var v := Run(w, steps);
            var row := v.server.rows[id];
            && row.id == id && row.device in v.devices && id in v.devices[row.device].local.queue
            && var a := v.devices[row.device].local.queue[id];
               && row.audit == a.audit && row.unverified == a.unverified
               && (a.unverified ==> row.codeId == None && row.tokenHash == Some(a.code)
                                    && row.status == Accepted && row.reason == None)
               && (!a.unverified ==> row.codeId == Some(a.code) && row.tokenHash == None && row.status != Pending
                                     && (row.status == Accepted <==> Names(v.server, a.code, row.device))
                                     && (row.status == Accepted <==> row.reason == None)
                                     && (row.reason == Some(AlreadyUsed) <==>
                                           row.status == Rejected && Burned(v.server, a.code)))
  {
    Reachable(w, steps);
    var v := Run(w, steps);
    assert RowOwned(v, id);
    var d := v.server.rows[id].device;
    assert AttemptTrue(v.server, d, v.devices[d].local.queue[id]);
  }

  // ----- what was asked for -----

  ghost predicate Asked(steps: seq<Step>, d: DeviceId, c: CodeId, ask: Ask) {
    exists k :: 0 <= k < |steps| && steps[k] == Enqueue(d, c, ask)
  }

  ghost predicate AllAsked(steps: seq<Step>, d: DeviceId, dev: Device) {
    && (forall id :: id in dev.local.queue ==>
          && dev.local.queue[id].device == d
          && Asked(steps, d, dev.local.queue[id].code, Ask(dev.local.queue[id].unverified, dev.local.queue[id].audit)))
    && (forall c, k :: c in dev.chains && 0 <= k < |dev.chains[c]| ==> Asked(steps, d, c, dev.chains[c][k].ask))
  }

  lemma AskedStays(steps: seq<Step>, s: Step, d: DeviceId, c: CodeId, ask: Ask)
    ensures Asked(steps, d, c, ask) || s == Enqueue(d, c, ask) ==> Asked(steps + [s], d, c, ask)
  {
    if Asked(steps, d, c, ask) {
      var k :| 0 <= k < |steps| && steps[k] == Enqueue(d, c, ask);
      assert (steps + [s])[k] == Enqueue(d, c, ask);
    } else if s == Enqueue(d, c, ask) {
      assert (steps + [s])[|steps|] == s;
    }
  }

  lemma AllAskedStays(steps: seq<Step>, s: Step, d: DeviceId, dev: Device)
    requires AllAsked(steps, d, dev)
    ensures AllAsked(steps + [s], d, dev)
  {
    hide Asked;
    forall c, ask | Asked(steps, d, c, ask) ensures Asked(steps + [s], d, c, ask) {
      AskedStays(steps, s, d, c, ask);
    }
  }

  /** Nothing the handler does changes what an attempt was asked with. */
  lemma PushKeepsAsked(steps: seq<Step>, d: DeviceId, dev: Device, input: Input)
    requires AllAsked(steps, d, dev)
    ensures AllAsked(steps, d, PushOne(dev, d, input))
  {
    hide Asked;
  }

  lemma DeviceStepAsked(w: World, steps: seq<Step>, s: Step)
    requires LocalKind(s) && Enabled(w, s) && AllAsked(steps, s.d, w.devices[s.d])
    ensures AllAsked(steps + [s], s.d, DeviceStep(w, s.d, s))
  {
    hide Asked, NamesCode, LocalStep;
    AllAskedStays(steps, s, s.d, w.devices[s.d]);
    if s.Enqueue? {
      AskedStays(steps, s, s.d, s.code, s.ask);
    } else if s.Push? {
      PushKeepsAsked(steps + [s], s.d, w.devices[s.d], s.input);
    }
  }

  lemma {:induction false} RunAsked(w: World, steps: seq<Step>, d: DeviceId)
    requires Initial(w) && d in w.devices
    ensures AllAsked(steps, d, Run(w, steps).devices[d])
    decreases |steps|
  {
    if steps == [] {
      assert NewDevice(w.devices[d]);
    } else {
      var front, s := steps[..|steps| - 1], steps[|steps| - 1];
      var v := Run(w, front);
      RunAsked(w, front, d);
      assert steps == front + [s];
      hide Initial, AllAsked;
      AllAskedStays(front, s, d, v.devices[d]);
      if Enabled(v, s) && LocalKind(s) && s.d == d {
        DeviceStepAsked(v, front, s);
      } else {
        OthersAsked(v, steps, s, d);
      }
    }
  }

  lemma OthersAsked(v: World, steps: seq<Step>, s: Step, d: DeviceId)
    requires d in v.devices && AllAsked(steps, d, v.devices[d])
    requires !(Enabled(v, s) && LocalKind(s) && s.d == d)
    ensures AllAsked(steps, d, Next(v, s).devices[d])
  {
    hide Asked, DeviceStep;
  }

  /** Every queued attempt was asked for on its device by an enqueue of the run, for its code and with its data. */
  lemma QueuedAsAsked(w: World, steps: seq<Step>, d: DeviceId, id: AttemptId)
    requires Initial(w) && d in w.devices && id in Run(w, steps).devices[d].local.queue
    ensures var a := Run(w, steps).devices[d].local.queue[id];
            a.device == d && exists k :: 0 <= k < |steps| && steps[k] == Enqueue(d, a.code, Ask(a.unverified, a.audit))
  {
    RunAsked(w, steps, d);
  }

  /** So was every row of the server's attempt table. */
  lemma RowsAsAsked(w: World, steps: seq<Step>, id: AttemptId)
    requires Initial(w) && id in Run(w, steps).server.rows
    ensures var row := Run(w, steps).server.rows[id];
            && (row.unverified <==> row.tokenHash.Some?) && (row.unverified <==> row.codeId.None?)
            && var c := if row.unverified then row.tokenHash.value else row.codeId.value;
               exists k :: 0 <= k < |steps| && steps[k] == Enqueue(row.device, c, Ask(row.unverified, row.audit))
  {
    LandedRowsTellTheTruth(w, steps, id);
    QueuedAsAsked(w, steps, Run(w, steps).server.rows[id].device, id);
  }

  /** The serialized enqueue: no device ever holds two attempts for one code that are not rejected. */
  lemma OneLiveAttempt(w: World, steps: seq<Step>, d: DeviceId, c: CodeId, i: AttemptId, j: AttemptId)
    requires Initial(w) && d in w.devices
    requires Live(Run(w, steps).devices[d].local.queue, c, i) && Live(Run(w, steps).devices[d].local.queue, c, j)
    ensures i == j
  {
    Reachable(w, steps);
  }

  // ----- no reachable state strands an attempt -----

  predicate ResolvedAt(w: World, d: DeviceId, id: AttemptId) {
    d in w.devices && id in w.devices[d].local.queue && w.devices[d].local.queue[id].status != Pending
  }

  /** `steps` resolve the attempt from here. */
  ghost predicate Resolves(w: World, steps: seq<Step>, d: DeviceId, id: AttemptId) {
    ResolvedAt(Run(w, steps), d, id)
  }

  lemma StepFirst(w: World, s: Step, more: seq<Step>, d: DeviceId, id: AttemptId)
    requires Resolves(Next(w, s), more, d, id)
    ensures Resolves(w, [s] + more, d, id)
  {
    RunAppends(w, [s], more);
    assert [s][..0] == [];
    assert Run(w, [s]) == Next(Run(w, []), s);
  }

  predicate Flying(w: World, d: DeviceId, id: AttemptId, f: Flight) {
    d in w.devices && id in w.devices[d].local.queue && w.devices[d].local.flight == f
  }

  predicate LastPost(w: World, d: DeviceId, id: AttemptId)
    requires d in w.devices
  {
    var log := w.devices[d].local.log;
    log != [] && match log[|log| - 1] case RedeemPost(i, _) => i == id case LandPost(row) => row.id == id
  }

  /** No step takes up a row. */
  predicate BeginsNone(steps: seq<Step>) {
    forall k :: 0 <= k < |steps| && steps[k].Push? ==> !steps[k].input.Begin?
  }

  lemma CanResolve(w: World, d: DeviceId, id: AttemptId) returns (steps: seq<Step>)
    requires Flying(w, d, id, Resolving(id))
    ensures Resolves(w, steps, d, id) && BeginsNone(steps)
  {
    assert ResolvedAt(Next(w, Push(d, Resolved)), d, id);
    StepFirst(w, Push(d, Resolved), [], d, id);
    steps := [Push(d, Resolved)] + [];
  }

  lemma CanLand(w: World, d: DeviceId, id: AttemptId) returns (steps: seq<Step>)
    requires Flying(w, d, id, Landing(id)) && LastPost(w, d, id)
    requires var log := w.devices[d].local.log; log[|log| - 1].LandPost?
    ensures Resolves(w, steps, d, id) && BeginsNone(steps)
  {
    hide Resolves;
    var serve := ServeLanding(d, |w.devices[d].local.log| - 1, true);
    var w1 := Next(w, serve);
    var answer := Push(d, LandAnswered(w1.devices[d].landAnswer.value));
    steps := CanResolve(Next(w1, answer), d, id);
    StepFirst(w1, answer, steps, d, id);
    StepFirst(w, serve, [answer] + steps, d, id);
    steps := [serve] + ([answer] + steps);
  }

  lemma CanPersist(w: World, d: DeviceId, id: AttemptId, b: Burn) returns (steps: seq<Step>)
    requires Flying(w, d, id, Persisting(id, b)) && w.devices[d].local.queue[id].id == id
    ensures Resolves(w, steps, d, id) && BeginsNone(steps)
  {
    steps := CanLand(Next(w, Push(d, Persisted)), d, id);
    StepFirst(w, Push(d, Persisted), steps, d, id);
    steps := [Push(d, Persisted)] + steps;
  }

  lemma CanJudge(w: World, d: DeviceId, id: AttemptId) returns (steps: seq<Step>)
    requires Flying(w, d, id, Judging(id)) && w.devices[d].local.queue[id].id == id
    requires Burned(w.server, w.devices[d].local.queue[id].code)
    requires |w.history| > 0 && w.history[|w.history| - 1] == w.server.codes
    ensures Resolves(w, steps, d, id) && BeginsNone(steps)
  {
    hide Resolves, NamesCode;
    var c := w.devices[d].local.queue[id].code;
    var sync := Sync(d, |w.history| - 1, c);
    var w1 := Next(w, sync);
    var winner := Winner(w.server.codes[c].redeemedBy.value, w.server.codes[c].redeemedAt);
    steps := CanPersist(Next(w1, Push(d, WinnerNamed(winner))), d, id, Arbitrate(d, winner));
    StepFirst(w1, Push(d, WinnerNamed(winner)), steps, d, id);
    StepFirst(w, sync, [Push(d, WinnerNamed(winner))] + steps, d, id);
    steps := [sync] + ([Push(d, WinnerNamed(winner))] + steps);
  }

  lemma CanBurn(w: World, d: DeviceId, id: AttemptId) returns (steps: seq<Step>)
    requires Flying(w, d, id, Burning(id)) && w.devices[d].local.queue[id].id == id && LastPost(w, d, id)
    requires var log := w.devices[d].local.log; var c := w.devices[d].local.queue[id].code;
             log[|log| - 1] == RedeemPost(id, c) && c in w.server.codes
    requires AllNamed(w.server.codes)
    ensures Resolves(w, steps, d, id) && BeginsNone(steps)
  {
    hide Resolves, NamesCode;
    var serve := ServeRedeem(d, |w.devices[d].local.log| - 1, true);
    var w1 := Next(w, serve);
    var v := w1.devices[d].answer.value;
    var w2 := Next(w1, Push(d, RedeemAnswered(v)));
    if !v.ok && v.reason == Some(AlreadyUsed) {
      steps := CanJudge(w2, d, id);
    } else {
      steps := CanPersist(w2, d, id, Judge(v));
    }
    StepFirst(w1, Push(d, RedeemAnswered(v)), steps, d, id);
    StepFirst(w, serve, [Push(d, RedeemAnswered(v))] + steps, d, id);
    steps := [serve] + ([Push(d, RedeemAnswered(v))] + steps);
  }

  lemma CanBegin(w: World, d: DeviceId, id: AttemptId) returns (rest: seq<Step>)
    requires Flying(w, d, id, Idle) && Open(w.devices[d].local.queue, id)
    requires var a := w.devices[d].local.queue[id]; a.id == id && (a.unverified || a.code in w.server.codes)
    requires AllNamed(w.server.codes) && |w.history| > 0 && w.history[|w.history| - 1] == w.server.codes
    ensures Resolves(w, [Push(d, Begin(id))] + rest, d, id) && BeginsNone(rest)
  {
    var w1 := Next(w, Push(d, Begin(id)));
    if Decided(w.devices[d].local.queue[id]) {
      rest := CanLand(w1, d, id);
    } else {
      rest := CanBurn(w1, d, id);
    }
    StepFirst(w, Push(d, Begin(id)), rest, d, id);
  }

  lemma NamelessStaysPending(w: World, d: DeviceId, id: AttemptId)
    requires WorldTrue(w) && d in w.devices && id in w.devices[d].local.queue && Nameless(w.devices[d].local.queue[id])
    ensures !ResolvedAt(w, d, id)
  {
    assert AttemptTrue(w.server, d, w.devices[d].local.queue[id]);
  }

  /** Reload the page and take the attempt up. */
  lemma FromAnywhere(w: World, d: DeviceId, id: AttemptId) returns (rest: seq<Step>)
    requires WorldTrue(w) && d in w.devices && Open(w.devices[d].local.queue, id)
    requires !Nameless(w.devices[d].local.queue[id])
    ensures Resolves(w, [Crash(d)] + ([Push(d, Begin(id))] + rest), d, id) && BeginsNone(rest)
  {
    hide FlightTrue, LogTrue, ChainsTrue, TableTrue;
    assert AttemptTrue(w.server, d, w.devices[d].local.queue[id]);
    rest := CanBegin(Next(w, Crash(d)), d, id);
    StepFirst(w, Crash(d), [Push(d, Begin(id))] + rest, d, id);
  }

  lemma NamelessForGood(v: World, more: seq<Step>, d: DeviceId, id: AttemptId)
    requires WorldTrue(v) && d in v.devices && id in v.devices[d].local.queue && Nameless(v.devices[d].local.queue[id])
    ensures !ResolvedAt(Run(v, more), d, id)
  {
    hide WorldTrue;
    RunKeeps(v, more);
    assert Carried(v.devices[d].local.queue[id], Run(v, more).devices[d].local.queue[id]);
    NamelessStaysPending(Run(v, more), d, id);
  }

  /**
   From every reachable world, whatever was lost or crashed, some continuation resolves a queued attempt,
   exactly when it is unverified or its code names a code.
   */
  lemma NothingIsStranded(w: World, steps: seq<Step>, d: DeviceId, id: AttemptId)
    requires Initial(w) && d in w.devices && id in Run(w, steps).devices[d].local.queue
    ensures (exists more :: ResolvedAt(Run(w, steps + more), d, id))
            <==> !Nameless(Run(w, steps).devices[d].local.queue[id])
  {
    hide WorldTrue, Nameless;
    Reachable(w, steps);
    var v := Run(w, steps);
    if Nameless(v.devices[d].local.queue[id]) {
      forall more ensures !ResolvedAt(Run(w, steps + more), d, id) {
        RunAppends(w, steps, more);
        NamelessForGood(v, more, d, id);
      }
    } else if ResolvedAt(v, d, id) {
      assert steps + [] == steps;
    } else {
      var rest := FromAnywhere(v, d, id);
      RunAppends(w, steps, [Crash(d)] + ([Push(d, Begin(id))] + rest));
    }
  }

  // ----- why the enqueue is serialized -----

  /** A raw call of enqueueAttempt at its awaits: before its find, between find and insert, returned. */
  datatype RawCall = NotYet | SawNone | Returned

  /** Two raw calls for one code over one queue, to insert under `i` and `j`. */
  datatype Race = Race(queue: Queue, first: RawCall, second: RawCall)

  datatype Racers = Racers(d: DeviceId, code: CodeId, i: AttemptId, j: AttemptId, audit: Audit)

  function RawInsert(q: Queue, id: AttemptId, x: Racers): Queue {
    q[id := NewAttempt(id, x.code, x.d, false, x.audit)]
  }

  ghost function RawStep(q: Queue, call: RawCall, id: AttemptId, x: Racers): (Queue, RawCall) {
    match call
    case NotYet => (q, if NoneLive(q, x.code) then SawNone else Returned)
    case SawNone => (RawInsert(q, id, x), Returned)
    case Returned => (q, Returned)
  }

  /** One await of the first or the second call. */
  ghost function RaceStep(r: Race, x: Racers, second: bool): Race {
    if second then
      var (q, call) := RawStep(r.queue, r.second, x.j, x);
      Race(q, r.first, call)
    else
      var (q, call) := RawStep(r.queue, r.first, x.i, x);
      Race(q, call, r.second)
  }

  ghost function RaceRun(q: Queue, x: Racers, schedule: seq<bool>): Race
    decreases |schedule|
  {
    if schedule == [] then Race(q, NotYet, NotYet)
    else RaceStep(RaceRun(q, x, schedule[..|schedule| - 1]), x, schedule[|schedule| - 1])
  }

  function WinScript(id: AttemptId): seq<Input> {
    [Begin(id), RedeemAnswered(Verdict(true, None)), Persisted, LandAnswered(201), Resolved]
  }

  function EchoScript(id: AttemptId, d: DeviceId): seq<Input> {
    [Begin(id), RedeemAnswered(Verdict(false, Some(AlreadyUsed))), WinnerNamed(Winner(d, None)),
     Persisted, LandAnswered(201), Resolved]
  }

  /** From an answered burn on, whether it won or belt 2 made it a win, the attempt ends accepted. */
  lemma WinResolves(l: Local, d: DeviceId, id: AttemptId)
    requires id in l.queue && l.flight == Persisting(id, Burn(true, None, None)) && !l.queue[id].unverified
    ensures var m := LocalRun(l, d, [Persisted, LandAnswered(201), Resolved]);
            m.flight == Idle && m.queue == l.queue[id := PatchResolved(PatchBurn(l.queue[id], l.flight.burn))]
            && m.queue[id].status == Accepted
  {
    var l1 := LocalStep(l, d, Persisted);
    RunCons(l, d, Persisted, [LandAnswered(201), Resolved]);
    RunCons(l1, d, LandAnswered(201), [Resolved]);
    RunCons(LocalStep(l1, d, LandAnswered(201)), d, Resolved, []);
  }

  lemma WinAccepts(l: Local, d: DeviceId, id: AttemptId)
    requires l.flight == Idle && id in l.queue && l.queue[id].status == Pending && !Decided(l.queue[id])
    ensures var m := LocalRun(l, d, WinScript(id));
            m.flight == Idle && id in m.queue && m.queue[id].status == Accepted && m.queue == l.queue[id := m.queue[id]]
  {
    var l1 := LocalStep(l, d, Begin(id));
    var rest := [Persisted, LandAnswered(201), Resolved];
    assert WinScript(id) == [Begin(id)] + ([RedeemAnswered(Verdict(true, None))] + rest);
    RunCons(l, d, Begin(id), [RedeemAnswered(Verdict(true, None))] + rest);
    RunCons(l1, d, RedeemAnswered(Verdict(true, None)), rest);
    WinResolves(LocalStep(l1, d, RedeemAnswered(Verdict(true, None))), d, id);
  }

  lemma EchoAccepts(l: Local, d: DeviceId, id: AttemptId)
    requires l.flight == Idle && id in l.queue && l.queue[id].status == Pending && !Decided(l.queue[id])
    ensures var m := LocalRun(l, d, EchoScript(id, d));
            m.flight == Idle && id in m.queue && m.queue[id].status == Accepted && m.queue == l.queue[id := m.queue[id]]
  {
    var used := Verdict(false, Some(AlreadyUsed));
    var l1 := LocalStep(l, d, Begin(id));
    var l2 := LocalStep(l1, d, RedeemAnswered(used));
    var rest := [Persisted, LandAnswered(201), Resolved];
    assert EchoScript(id, d) == [Begin(id)] + ([RedeemAnswered(used)] + ([WinnerNamed(Winner(d, None))] + rest));
    RunCons(l, d, Begin(id), [RedeemAnswered(used)] + ([WinnerNamed(Winner(d, None))] + rest));
    RunCons(l1, d, RedeemAnswered(used), [WinnerNamed(Winner(d, None))] + rest);
    RunCons(l2, d, WinnerNamed(Winner(d, None)), rest);
    WinResolves(LocalStep(l2, d, WinnerNamed(Winner(d, None))), d, id);
  }

  /** Both finds done before either insert. */
  predicate Overlap(schedule: seq<bool>) { |schedule| >= 2 && schedule[0] != schedule[1] }

  ghost predicate Overlapped(q: Queue, x: Racers, r: Race) {
    && r.first != NotYet && r.second != NotYet
    && r.queue == (if r.first.Returned? then
                     if r.second.Returned? then RawInsert(RawInsert(q, x.i, x), x.j, x) else RawInsert(q, x.i, x)
                   else if r.second.Returned? then RawInsert(q, x.j, x) else q)
  }

  ghost predicate OneInserted(q: Queue, x: Racers, r: Race, second: bool) {
    if second then r.second.Returned? && r.queue == RawInsert(q, x.j, x) && !r.first.SawNone?
    else r.first.Returned? && r.queue == RawInsert(q, x.i, x) && !r.second.SawNone?
  }

  lemma RaceGoesOn(q: Queue, x: Racers, r: Race, second: bool)
    requires x.i != x.j
    ensures Overlapped(q, x, r) ==> Overlapped(q, x, RaceStep(r, x, second))
    ensures forall won :: OneInserted(q, x, r, won) ==> OneInserted(q, x, RaceStep(r, x, second), won)
  {
    assert RawInsert(RawInsert(q, x.i, x), x.j, x) == RawInsert(RawInsert(q, x.j, x), x.i, x);
    assert Live(RawInsert(q, x.i, x), x.code, x.i) && Live(RawInsert(q, x.j, x), x.code, x.j);
  }

  lemma {:induction false} RaceMeans(q: Queue, x: Racers, schedule: seq<bool>)
    requires NoneLive(q, x.code) && x.i != x.j && |schedule| >= 2
    ensures var r := RaceRun(q, x, schedule);
            if Overlap(schedule) then Overlapped(q, x, r) else OneInserted(q, x, r, schedule[0])
    decreases |schedule|
  {
    var front := schedule[..|schedule| - 1];
    if |schedule| == 2 {
      assert front[..0] == [];
      assert RaceRun(q, x, front) == RaceStep(Race(q, NotYet, NotYet), x, schedule[0]);
    } else {
      RaceMeans(q, x, front);
      RaceGoesOn(q, x, RaceRun(q, x, front), schedule[|schedule| - 1]);
    }
  }

  lemma SingleStepStarts(q: Queue, x: Racers, schedule: seq<bool>)
    requires |schedule| <= 1
    ensures var r := RaceRun(q, x, schedule); r.first.NotYet? || r.second.NotYet?
  {
    if schedule != [] {
      assert schedule[..0] == [];
    }
  }

  lemma BothAccepted(q: Queue, x: Racers)
    requires x.i != x.j
    ensures var raced := RawInsert(RawInsert(q, x.i, x), x.j, x);
            var end := LocalRun(LocalRun(Local(raced, Idle, []), x.d, WinScript(x.i)), x.d, EchoScript(x.j, x.d)).queue;
            x.i in end && x.j in end && end[x.i].status == Accepted && end[x.j].status == Accepted
  {
    var l := Local(RawInsert(RawInsert(q, x.i, x), x.j, x), Idle, []);
    WinAccepts(l, x.d, x.i);
    EchoAccepts(LocalRun(l, x.d, WinScript(x.i)), x.d, x.j);
  }

  /**
   Two raw calls for a code with nothing live, interleaved at their awaits in any way: both insert exactly
   when both finds come before the first insert; and the handler then accepts both attempts, the second
   because belt 2 reads the first one's burn as its own.
   */
  lemma UnserializedTwiceAccepted(q: Queue, x: Racers, schedule: seq<bool>)
    requires NoneLive(q, x.code) && x.i != x.j
    requires RaceRun(q, x, schedule).first.Returned? && RaceRun(q, x, schedule).second.Returned?
    ensures var raced := RaceRun(q, x, schedule).queue;
            && (Live(raced, x.code, x.i) && Live(raced, x.code, x.j) <==> Overlap(schedule))
            && (Overlap(schedule) ==>
                 var end := LocalRun(LocalRun(Local(raced, Idle, []), x.d, WinScript(x.i)), x.d,
                                     EchoScript(x.j, x.d)).queue;
                 x.i in end && x.j in end && end[x.i].status == Accepted && end[x.j].status == Accepted)
  {
    if |schedule| <= 1 {
      SingleStepStarts(q, x, schedule);
    } else {
      RaceMeans(q, x, schedule);
      BothAccepted(q, x);
      assert !Live(q, x.code, x.i) && !Live(q, x.code, x.j);
    }
  }
}
