/**
 The running actor. One event is broadcast to the three regions; guards read the context as it was
 before the event. A region without an enabled candidate trips the wildcard, which raises
 Unexpected once per tripped region.
 */
module SubmitRun {
  import opened Prelude
  import opened SubmitMachine
  import opened SubmitCompiler
  import opened SubmitTable

  datatype Snapshot = Snapshot(connectivity: Conn, overlay: Overlay, scan: ScanState, ctx: Ctx)

  function Boot(canOverride: bool): Snapshot {
    Snapshot(Online, NoPrompt, Idle,
             Ctx(canOverride, Online, NoPrompt, Idle, None, None, false, false, false, None, None, None))
  }

  /** The compiled machine: one candidate table per state of each region. */
  datatype Chart = Chart(
    conn: map<Conn, Table<Conn>>, overlay: map<Overlay, Table<Overlay>>, scan: map<ScanState, Table<ScanState>>)

  const CONN_STATES: set<Conn> := {Online, Offline, Stale}
  const OVERLAY_STATES: set<Overlay> := {NoPrompt, Prompt}
  const SCAN_STATE_NAMES: seq<ScanState> :=
    [Idle, Scanning, Resolving, OfferReady, ReadyToSubmit, UnknownCode, BlockedOffline, OverrideConfirming,
     OverridePending, Submitting, Redeemed, AlreadyUsed, SpentLocally, ExpiredLocally, Expired, NotFound,
     Failed, UnexpectedEvent]
  const SCAN_STATES: set<ScanState> := set s | s in SCAN_STATE_NAMES

  predicate Complete(k: Chart) {
    k.conn.Keys == CONN_STATES && k.overlay.Keys == OVERLAY_STATES && k.scan.Keys == SCAN_STATES
  }

  lemma StatesListed(c: Conn, o: Overlay, s: ScanState)
    ensures c in CONN_STATES && o in OVERLAY_STATES && s in SCAN_STATES
  {
    assert SCAN_STATE_NAMES[ReturnIndex(s)] == s;
  }

  function Shipped(): (k: Chart)
    ensures Complete(k)
  {
    Chart(map c | c in CONN_STATES :: ConnTable(c),
          map o | o in OVERLAY_STATES :: OverlayTable(o),
          map s | s in SCAN_STATES :: ScanTable(s))
  }

  function Pick<S>(table: Table<S>, c: Ctx, e: Event): Option<Decision<S>> {
    if e.kind in table then
      var d := FirstEnabled(table[e.kind], c, e);
      if d.Some? then Some(Chosen(d.value)) else None
    else None
  }

  function Landing<S>(d: Option<Decision<S>>, here: S): S {
    if d.Some? && d.value.target.Some? then d.value.target.value else here
  }

  datatype MicroStep = MicroStep(snap: Snapshot, effects: seq<Effect>, trips: nat)

  function Tripped<S>(d: Option<Decision<S>>): nat { if d.None? then 1 else 0 }

  /** The three regions' picks applied at once. Entry actions stamp the mirrors; only scan picks carry actions. */
  function Apply(s: Snapshot, e: Event, c: Option<Decision<Conn>>, o: Option<Decision<Overlay>>,
                 n: Option<Decision<ScanState>>): MicroStep {
    var trips := Tripped(c) + Tripped(o) + Tripped(n);
    var action := if n.Some? then n.value.action else Nothing;
    var acted := Act(action, s.ctx, e);
    var noted := if trips == 0 then acted
                 else acted.(unexpectedInfo := Some(TripInfo(e.kind, s.ctx.sc, s.ctx.conn, s.ctx.ov)),
                             unexpectedReturn := Some(s.ctx.sc));
    var conn, ov, sc := Landing(c, s.connectivity), Landing(o, s.overlay), Landing(n, s.scan);
    var stamped := noted.(conn := if conn == s.connectivity then noted.conn else conn,
                          ov := if ov == s.overlay then noted.ov else ov,
                          sc := if sc == s.scan then noted.sc else sc);
    MicroStep(Snapshot(conn, ov, sc, stamped), Emit(action, s.ctx), trips)
  }

  function Micro(k: Chart, s: Snapshot, e: Event): MicroStep {
    Apply(s, e, Pick(TableOf(k.conn, s.connectivity), s.ctx, e), Pick(TableOf(k.overlay, s.overlay), s.ctx, e),
          Pick(TableOf(k.scan, s.scan), s.ctx, e))
  }

  function TableOf<S(==)>(tables: map<S, Table<S>>, s: S): Table<S> {
    if s in tables then tables[s] else map[]
  }

  const RAISED := Event(Unexpected, "", KOther(""), false)

  /** Processing one raised event. */
  function Raised(k: Chart): Snapshot -> Snapshot {
    s => Micro(k, s, RAISED).snap
  }

  function Repeat<S>(f: S -> S, s: S, times: nat): S
    decreases times
  {
    if times == 0 then s else Repeat(f, f(s), times - 1)
  }

  /** A macrostep: the broadcast, then whatever it raised. */
  function Step(k: Chart, s: Snapshot, e: Event): (Snapshot, seq<Effect>) {
    Settled(Raised(k), Micro(k, s, e))
  }

  function Settled(process: Snapshot -> Snapshot, m: MicroStep): (Snapshot, seq<Effect>) {
    (Repeat(process, m.snap, m.trips), m.effects)
  }

  // ----- the step in decision form -----

  /** The mirrors in the context name the region values. */
  predicate Mirrored(s: Snapshot) {
    s.ctx.conn == s.connectivity && s.ctx.ov == s.overlay && s.ctx.sc == s.scan
  }

  /** What one declared event does, read from the decision form. */
  function Broadcast(s: Snapshot, e: Event): (Snapshot, seq<Effect>) {
    var d := ScanDecision(s.scan, s.ctx, e);
    var conn := Landing(Some(ConnDecision(s.connectivity, e.kind)), s.connectivity);
    var ov := Landing(Some(OverlayDecision(s.overlay, s.ctx, e)), s.overlay);
    var sc := Landing(Some(d), s.scan);
    (Snapshot(conn, ov, sc, Act(d.action, s.ctx, e).(conn := conn, ov := ov, sc := sc)), Emit(d.action, s.ctx))
  }

  /** An event outside the alphabet: the error card, the prompt closed, the session kept. */
  function Trip(s: Snapshot, e: Event): Snapshot {
    Snapshot(s.connectivity, NoPrompt, UnexpectedEvent,
             s.ctx.(ov := NoPrompt, sc := UnexpectedEvent, unexpectedReturn := Some(s.scan),
                    unexpectedInfo := Some(TripInfo(e.kind, s.scan, s.connectivity, s.overlay))))
  }

  function Advance(s: Snapshot, e: Event): (Snapshot, seq<Effect>) {
    if e.kind == Foreign then (Trip(s, e), []) else Broadcast(s, e)
  }

  /** A chart that decides every declared pair the way the decision form does, and no foreign event. */
  ghost predicate Decides(k: Chart)
  {
    && Complete(k)
    && (forall s, c, e :: s in k.conn ==>
          Pick(k.conn[s], c, e) == if e.kind == Foreign then None else Some(ConnDecision(s, e.kind)))
    && (forall s, c, e :: s in k.overlay ==>
          Pick(k.overlay[s], c, e) == if e.kind == Foreign then None else Some(OverlayDecision(s, c, e)))
    && (forall s, c, e :: s in k.scan ==>
          Pick(k.scan[s], c, e) == if e.kind == Foreign then None else Some(ScanDecision(s, c, e)))
  }

  lemma PickConn(s: Conn, c: Ctx, e: Event)
    ensures Pick(ConnTable(s), c, e) == if e.kind == Foreign then None else Some(ConnDecision(s, e.kind))
  {
    ConnLookup(s, e.kind);
    if e.kind != Foreign { ConnChoice(s, c, e); }
  }

  lemma PickOverlay(s: Overlay, c: Ctx, e: Event)
    ensures Pick(OverlayTable(s), c, e) == if e.kind == Foreign then None else Some(OverlayDecision(s, c, e))
  {
    OverlayLookup(s, e.kind);
    if e.kind != Foreign { OverlayChoice(s, c, e); }
  }

  lemma PickScan(s: ScanState, c: Ctx, e: Event)
    ensures Pick(ScanTable(s), c, e) == if e.kind == Foreign then None else Some(ScanDecision(s, c, e))
  {
    ScanLookup(s, e.kind);
    if e.kind != Foreign { ScanChoice(s, c, e); }
  }

  /** The shipped table, compiled, decides every pair. */
  lemma ShippedDecides()
    ensures Decides(Shipped())
  {
    var k := Shipped();
    forall s, c, e | s in k.conn
      ensures Pick(k.conn[s], c, e) == if e.kind == Foreign then None else Some(ConnDecision(s, e.kind))
    { PickConn(s, c, e); }
    forall s, c, e | s in k.overlay
      ensures Pick(k.overlay[s], c, e) == if e.kind == Foreign then None else Some(OverlayDecision(s, c, e))
    { PickOverlay(s, c, e); }
    forall s, c, e | s in k.scan
      ensures Pick(k.scan[s], c, e) == if e.kind == Foreign then None else Some(ScanDecision(s, c, e))
    { PickScan(s, c, e); }
  }

  lemma DeclaredMicro(k: Chart, s: Snapshot, e: Event)
    requires Decides(k) && Mirrored(s) && e.kind != Foreign
    ensures Micro(k, s, e) == MicroStep(Broadcast(s, e).0, Broadcast(s, e).1, 0)
    ensures Mirrored(Broadcast(s, e).0)
  {
    StatesListed(s.connectivity, s.overlay, s.scan);
    ActKeepsMirrors(ScanDecision(s.scan, s.ctx, e).action, s.ctx, e);
  }

  lemma ActKeepsMirrors(a: Action, c: Ctx, e: Event)
    ensures Act(a, c, e).conn == c.conn && Act(a, c, e).ov == c.ov && Act(a, c, e).sc == c.sc
    ensures Act(a, c, e).canOverride == c.canOverride
  {
  }

  lemma ForeignMicro(k: Chart, s: Snapshot, e: Event)
    requires Decides(k) && Mirrored(s) && e.kind == Foreign
    ensures Micro(k, s, e) == MicroStep(
              s.(ctx := s.ctx.(unexpectedInfo := Some(TripInfo(Foreign, s.scan, s.connectivity, s.overlay)),
                               unexpectedReturn := Some(s.scan))), [], 3)
  {
    StatesListed(s.connectivity, s.overlay, s.scan);
  }

  /** A raised event closes the prompt and shows the error card. */
  lemma RaisedBroadcast(s: Snapshot)
    ensures Broadcast(s, RAISED).0
            == Snapshot(s.connectivity, NoPrompt, UnexpectedEvent,
                        s.ctx.(conn := s.connectivity, ov := NoPrompt, sc := UnexpectedEvent))
  {
    assert OverlayDecision(s.overlay, s.ctx, RAISED) == if s.overlay == Prompt then Move(NoPrompt) else Stay();
    assert ScanDecision(s.scan, s.ctx, RAISED) == if s.scan == UnexpectedEvent then Stay() else Move(UnexpectedEvent);
  }

  lemma RaisedShows(k: Chart, s: Snapshot)
    requires Decides(k) && Mirrored(s)
    ensures Raised(k)(s) == Snapshot(s.connectivity, NoPrompt, UnexpectedEvent,
                                     s.ctx.(ov := NoPrompt, sc := UnexpectedEvent))
  {
    DeclaredMicro(k, s, RAISED);
    RaisedBroadcast(s);
  }

  lemma ForeignStep(k: Chart, s: Snapshot, e: Event)
    requires Decides(k) && Mirrored(s) && e.kind == Foreign
    ensures Repeat(Raised(k), Micro(k, s, e).snap, 3) == Trip(s, e)
  {
    ForeignMicro(k, s, e);
    var m := s.(ctx := s.ctx.(unexpectedInfo := Some(TripInfo(Foreign, s.scan, s.connectivity, s.overlay)),
                              unexpectedReturn := Some(s.scan)));
    RaisedShows(k, m);
    RaisedShows(k, Trip(s, e));
    RepeatSettles(Raised(k), m, Trip(s, e));
  }

  lemma RepeatSettles<S>(f: S -> S, a: S, b: S)
    requires f(a) == b && f(b) == b
    ensures Repeat(f, a, 3) == b
  {
    assert Repeat(f, b, 1) == Repeat(f, b, 0) == b;
    assert Repeat(f, b, 2) == Repeat(f, b, 1);
    assert Repeat(f, a, 3) == Repeat(f, b, 2);
  }

  lemma AdvanceMirrored(s: Snapshot, e: Event)
    requires Mirrored(s)
    ensures Mirrored(Advance(s, e).0) && Advance(s, e).0.ctx.canOverride == s.ctx.canOverride
  {
    ActKeepsMirrors(ScanDecision(s.scan, s.ctx, e).action, s.ctx, e);
  }

  /**
   The interpreted macrostep is the decision form: an alphabet event trips nothing, and a foreign
   event trips all three regions, whose three raised events settle on the error card.
   */
  lemma StepIsAdvance(k: Chart, s: Snapshot, e: Event)
    requires Decides(k) && Mirrored(s)
    ensures Step(k, s, e) == Advance(s, e)
  {
    if e.kind == Foreign {
      ForeignMicro(k, s, e);
      ForeignStep(k, s, e);
    } else {
      DeclaredMicro(k, s, e);
    }
  }

  // ----- compiling the chart -----

  lemma {:induction false} DistinctSize<T>(s: seq<T>)
    requires Distinct(s)
    ensures |set x | x in s| == |s|
  {
    if s != [] {
      var rest := s[1..];
      assert forall i, j :: 0 <= i < j < |rest| ==> rest[i] == s[i + 1] && rest[j] == s[j + 1];
      DistinctSize(rest);
      assert s[0] !in rest;
      assert (set x | x in s) == {s[0]} + set x | x in rest;
    }
  }

  lemma AlphabetListed()
    ensures Distinct(SCAN_EVENTS + CONN_EVENTS) && |SCAN_EVENTS + CONN_EVENTS| == 20
    ensures forall t :: t in SCAN_EVENTS + CONN_EVENTS <==> InAlphabet(t)
  {
    forall t ensures t in SCAN_EVENTS + CONN_EVENTS <==> InAlphabet(t) {
      ScanEventsAscend(t);
      ConnEventsAscend(t);
    }
    ScanEventsAscend(Scan);
    ConnEventsAscend(Scan);
    AscendingConcat(SCAN_EVENTS, CONN_EVENTS, 0, 16, 20);
    AscendingDistinct(SCAN_EVENTS + CONN_EVENTS, 0, 20);
  }

  lemma AlphabetSize<S>(m: Table<S>, alphabet: seq<EventType>)
    requires Distinct(alphabet) && |alphabet| == 20
    requires forall t :: t in alphabet <==> InAlphabet(t)
    requires forall t :: InAlphabet(t) ==> t in m
    ensures |AlphabetKeys(m)| == 20
  {
    DistinctSize(alphabet);
    assert AlphabetKeys(m) == set t | t in alphabet;
  }

  lemma ConnPairs(c: Conn)
    ensures |AlphabetKeys(ConnTable(c))| == 20
  {
    forall t | InAlphabet(t) ensures t in ConnTable(c) { ConnLookup(c, t); }
    AlphabetListed();
    AlphabetSize(ConnTable(c), SCAN_EVENTS + CONN_EVENTS);
  }

  lemma OverlayPairs(o: Overlay)
    ensures |AlphabetKeys(OverlayTable(o))| == 20
  {
    forall t | InAlphabet(t) ensures t in OverlayTable(o) { OverlayLookup(o, t); }
    AlphabetListed();
    AlphabetSize(OverlayTable(o), SCAN_EVENTS + CONN_EVENTS);
  }

  lemma ScanPairs(s: ScanState)
    ensures |AlphabetKeys(ScanTable(s))| == 20
  {
    forall t | InAlphabet(t) ensures t in ScanTable(s) { ScanLookup(s, t); }
    AlphabetListed();
    AlphabetSize(ScanTable(s), SCAN_EVENTS + CONN_EVENTS);
  }

  method CompileConn(compiler: TableCompiler) returns (tables: map<Conn, Table<Conn>>)
    modifies compiler
    ensures tables == map c | c in CONN_STATES :: ConnTable(c)
    ensures compiler.stateCount == old(compiler.stateCount) + |CONN_STATES|
    ensures compiler.declaredPairs == old(compiler.declaredPairs) + 20 * |CONN_STATES|
  {
    tables := map[];
    var todo := CONN_STATES;
    while todo != {}
      invariant todo <= CONN_STATES && tables.Keys == CONN_STATES - todo
      invariant forall c :: c in tables ==> tables[c] == ConnTable(c)
      invariant compiler.stateCount == old(compiler.stateCount) + |CONN_STATES| - |todo|
      invariant compiler.declaredPairs == old(compiler.declaredPairs) + 20 * (|CONN_STATES| - |todo|)
      decreases |todo|
    {
      var c :| c in todo;
      ConnCompiles(c);
      var built := compiler.PlainTable(ConnOn(c), ConnIgnores(c));
      ConnPairs(c);
      tables := tables[c := built.value];
      todo := todo - {c};
    }
  }

  method CompileOverlay(compiler: TableCompiler, states: set<Overlay>) returns (tables: map<Overlay, Table<Overlay>>)
    modifies compiler
    ensures tables == map o | o in states :: OverlayTable(o)
    ensures compiler.stateCount == old(compiler.stateCount) + |states|
    ensures compiler.declaredPairs == old(compiler.declaredPairs) + 20 * |states|
  {
    tables := map[];
    var todo := states;
    while todo != {}
      invariant todo <= states && tables.Keys == states - todo
      invariant forall o :: o in tables ==> tables[o] == OverlayTable(o)
      invariant compiler.stateCount == old(compiler.stateCount) + |states| - |todo|
      invariant compiler.declaredPairs == old(compiler.declaredPairs) + 20 * (|states| - |todo|)
      decreases |todo|
    {
      var o :| o in todo;
      OverlayCompiles(o);
      var built := compiler.PlainTable(OverlayOn(o), OverlayIgnores(o));
      OverlayPairs(o);
      tables := tables[o := built.value];
      todo := todo - {o};
    }
  }

  method CompileScanState(compiler: TableCompiler, s: ScanState) returns (table: Table<ScanState>)
    modifies compiler
    ensures table == ScanTable(s)
    ensures compiler.stateCount == old(compiler.stateCount) + 1
    ensures compiler.declaredPairs == old(compiler.declaredPairs) + 20
  {
    ScanCompiles(s);
    var built := compiler.ScanTable(s, ScanOn(s), ScanIgnores(s));
    ScanPairs(s);
    table := built.value;
  }

  method CompileScanStates(compiler: TableCompiler, states: set<ScanState>)
      returns (tables: map<ScanState, Table<ScanState>>)
    modifies compiler
    ensures tables == map s | s in states :: ScanTable(s)
    ensures compiler.stateCount == old(compiler.stateCount) + |states|
    ensures compiler.declaredPairs == old(compiler.declaredPairs) + 20 * |states|
  {
    hide ScanTable;
    tables := map[];
    var todo := states;
    while todo != {}
      invariant todo <= states && tables.Keys == states - todo
      invariant forall s :: s in tables ==> tables[s] == ScanTable(s)
      invariant compiler.stateCount == old(compiler.stateCount) + |states| - |todo|
      invariant compiler.declaredPairs == old(compiler.declaredPairs) + 20 * (|states| - |todo|)
      decreases |todo|
    {
      var s :| s in todo;
      var built := CompileScanState(compiler, s);
      tables := tables[s := built];
      todo := todo - {s};
    }
  }

  lemma StateCounts()
    ensures |CONN_STATES| == 3 && |OVERLAY_STATES| == 2 && |SCAN_STATES| == 18
  {
    assert forall i :: 0 <= i < 18 ==> ReturnIndex(SCAN_STATE_NAMES[i]) == i;
    forall i, j | 0 <= i < j < 18 ensures SCAN_STATE_NAMES[i] != SCAN_STATE_NAMES[j] {
      assert ReturnIndex(SCAN_STATE_NAMES[i]) != ReturnIndex(SCAN_STATE_NAMES[j]);
    }
    DistinctSize(SCAN_STATE_NAMES);
  }

  /** A chart whose macrostep is Advance wherever the mirrors agree. */
  ghost predicate Faithful(k: Chart) {
    Complete(k) && forall s, e :: Mirrored(s) ==> Step(k, s, e) == Advance(s, e)
  }

  lemma DecidingIsFaithful(k: Chart)
    requires Decides(k)
    ensures Faithful(k)
  {
    assert Complete(k);
    hide Decides, Step, Advance, Complete;
    forall s, e | Mirrored(s) ensures Step(k, s, e) == Advance(s, e) {
      StepIsAdvance(k, s, e);
    }
  }

  lemma ShippedFaithful()
    ensures Faithful(Shipped())
  {
    ShippedDecides();
    DecidingIsFaithful(Shipped());
  }

  /** The whole chart; the accounting comes out at 23 states and 23 * 20 declared alphabet pairs. */
  method CompileChart(compiler: TableCompiler) returns (chart: Chart)
    modifies compiler
    ensures Faithful(chart)
    ensures compiler.stateCount == old(compiler.stateCount) + 23
    ensures compiler.declaredPairs == old(compiler.declaredPairs) + 23 * 20
  {
    StateCounts();
    var c := CompileConn(compiler);
    var o := CompileOverlay(compiler, OVERLAY_STATES);
    var s := CompileScanStates(compiler, SCAN_STATES);
    chart := Chart(c, o, s);
    ShippedFaithful();
    assert chart == Shipped();
  }

  class SubmitActor {
    const chart: Chart
    var snap: Snapshot
    var effects: seq<Effect>

    constructor (canOverride: bool)
      ensures Faithful(chart) && snap == Boot(canOverride) && effects == []
    {
      var compiler := new TableCompiler();
      var compiled := CompileChart(compiler);
      chart := compiled;
      snap := Boot(canOverride);
      effects := [];
    }

    /** Take one broadcast's result, then process the events it raised, in turn. */
    method Finish(process: Snapshot -> Snapshot, m: MicroStep)
      modifies this
      ensures (snap, effects) == (Settled(process, m).0, old(effects) + Settled(process, m).1)
    {
      snap := m.snap;
      effects := effects + m.effects;
      var queued := m.trips;
      while queued > 0
        invariant Repeat(process, snap, queued) == Repeat(process, m.snap, m.trips)
        invariant effects == old(effects) + m.effects
      {
        snap := process(snap);
        queued := queued - 1;
      }
    }

    method Send(e: Event)
      modifies this
      ensures (snap, effects) == (Step(chart, old(snap), e).0, old(effects) + Step(chart, old(snap), e).1)
    {
      Finish(Raised(chart), Micro(chart, snap, e));
    }
  }

  // ----- runs -----

  /** Where the actor stands after a sequence of events. */
  function After(canOverride: bool, events: seq<Event>): Snapshot
    decreases |events|
  {
    if events == [] then Boot(canOverride)
    else Advance(After(canOverride, events[..|events| - 1]), events[|events| - 1]).0
  }

  /** The interpreted actor's run, macrostep by macrostep. */
  function Interpreted(k: Chart, canOverride: bool, events: seq<Event>): Snapshot
    decreases |events|
  {
    if events == [] then Boot(canOverride)
    else Step(k, Interpreted(k, canOverride, events[..|events| - 1]), events[|events| - 1]).0
  }

  /** Every run of the shipped chart is the run in decision form. */
  lemma {:induction false} InterpretedIsAfter(k: Chart, canOverride: bool, events: seq<Event>)
    requires Faithful(k)
    ensures Interpreted(k, canOverride, events) == After(canOverride, events)
    decreases |events|
  {
    if events != [] {
      var init := events[..|events| - 1];
      InterpretedIsAfter(k, canOverride, init);
      AfterMirrored(canOverride, init);
    }
  }

  /** What the last event of a sequence emitted. */
  function LastEffects(canOverride: bool, events: seq<Event>): seq<Effect>
    requires events != []
  {
    Advance(After(canOverride, events[..|events| - 1]), events[|events| - 1]).1
  }

  lemma {:induction false} AfterMirrored(canOverride: bool, events: seq<Event>)
    ensures Mirrored(After(canOverride, events)) && After(canOverride, events).ctx.canOverride == canOverride
    decreases |events|
  {
    if events != [] {
      var init, e := events[..|events| - 1], events[|events| - 1];
      AfterMirrored(canOverride, init);
      AdvanceMirrored(After(canOverride, init), e);
    }
  }

  /** The page never sends Unexpected itself. */
  predicate External(events: seq<Event>) {
    forall i :: 0 <= i < |events| ==> events[i].kind != Unexpected
  }

  predicate OverAlphabet(events: seq<Event>) {
    forall i :: 0 <= i < |events| ==> InAlphabet(events[i].kind)
  }

  /** The gate only ever remembers the two states it can close on. */
  predicate GateSane(c: Ctx) {
    c.gateReturn.Some? ==> c.gateReturn.value == ReadyToSubmit || c.gateReturn.value == UnknownCode
  }

  lemma GateStaysSane(s: Snapshot, e: Event)
    requires GateSane(s.ctx)
    ensures GateSane(Advance(s, e).0.ctx)
  {
    var d := ScanDecision(s.scan, s.ctx, e);
    assert d.action.CloseGate? ==> d.action.self == s.scan && (s.scan == ReadyToSubmit || s.scan == UnknownCode);
  }

  lemma AlphabetKeepsClear(s: Snapshot, e: Event)
    requires InAlphabet(e.kind) && s.scan != UnexpectedEvent && s.ctx.unexpectedReturn == None && GateSane(s.ctx)
    ensures Advance(s, e).0.scan != UnexpectedEvent && Advance(s, e).0.ctx.unexpectedReturn == None
  {
    assert ScanDecision(s.scan, s.ctx, e).target != Some(UnexpectedEvent);
  }

  /** Over the alphabet the error card is unreachable. */
  lemma {:induction false} NoTripOverAlphabet(canOverride: bool, events: seq<Event>)
    requires OverAlphabet(events)
    ensures After(canOverride, events).scan != UnexpectedEvent
    ensures After(canOverride, events).ctx.unexpectedReturn == None
    ensures GateSane(After(canOverride, events).ctx)
    decreases |events|
  {
    if events != [] {
      var init, e := events[..|events| - 1], events[|events| - 1];
      NoTripOverAlphabet(canOverride, init);
      AlphabetKeepsClear(After(canOverride, init), e);
      GateStaysSane(After(canOverride, init), e);
    }
  }

  /** RETRY undoes a trip: the interrupted state is back with its session, and only the prompt is gone. */
  lemma RetryUndoesTrip(s: Snapshot, foreign: Event, retry: Event)
    requires Mirrored(s) && foreign.kind == Foreign && retry.kind == Retry
    ensures var t := Advance(Advance(s, foreign).0, retry).0;
            if s.scan != UnexpectedEvent
            then t == s.(overlay := NoPrompt, ctx := s.ctx.(ov := NoPrompt, unexpectedReturn := Some(s.scan),
                         unexpectedInfo := Some(TripInfo(Foreign, s.scan, s.connectivity, s.overlay))))
            else t == Boot(s.ctx.canOverride).(connectivity := s.connectivity,
                        ctx := Boot(s.ctx.canOverride).ctx.(conn := s.connectivity))
  {
  }
}
