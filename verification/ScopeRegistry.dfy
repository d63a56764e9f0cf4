/**
 The page's registry of open replication scopes: a map of memoised promises and one memoised database
 promise, under any interleaving of opens, settlements, evictions and cancels.
 */
module ScopeRegistry {
  import opened Prelude
  import opened ScopeFilter
  import opened ScopeIdentity

  type Key = string

  /** A database promise, numbered by creation. */
  datatype DbState = Creating | Up | Down

  /**
   One openSyncScope promise. Rejected is the moment between its rejection and its catch handler;
   `cancels` counts the cancel calls its holders have made.
   */
  datatype Phase = Opening | Live | Rejected | Evicted

  datatype Handle = Handle(key: Key, db: nat, phase: Phase, cancels: nat)

  datatype Registry = Registry(
    openScopes: map<Key, nat>, handles: seq<Handle>, slot: Option<nat>, dbs: seq<DbState>)

  datatype Event =
    | Open(key: Key)
    | DbSettles(db: nat, ok: bool)
    | DbEvicts(db: nat)
    | Starts(h: nat)
    | Rejects(h: nat)
    | Evicts(h: nat)
    | Cancels(h: nat)

  /** Events the runtime can deliver: continuations of settled promises, and cancels by whoever holds a live handle. */
  predicate Possible(r: Registry, e: Event) {
    match e
    case Open(_) => true
    case DbSettles(p, _) => p < |r.dbs| && r.dbs[p] == Creating
    case DbEvicts(p) => p < |r.dbs| && r.dbs[p] == Down
    case Starts(h) => h < |r.handles| && r.handles[h].phase == Opening && r.handles[h].db < |r.dbs|
        && r.dbs[r.handles[h].db] == Up
    case Rejects(h) => h < |r.handles| && r.handles[h].phase == Opening
                       && r.handles[h].db < |r.dbs| && r.dbs[r.handles[h].db] != Creating
    case Evicts(h) => h < |r.handles| && r.handles[h].phase == Rejected
    case Cancels(h) => h < |r.handles| && r.handles[h].phase == Live
  }

  /** ensureDatabase: the memoised promise, or a new one. */
  function EnsureDatabase(r: Registry): (Registry, nat) {
    if r.slot.Some? then (r, r.slot.value)
    else (r.(slot := Some(|r.dbs|), dbs := r.dbs + [Creating]), |r.dbs|)
  }

  function AfterOpen(r: Registry, k: Key): Registry {
    if k in r.openScopes then r
    else
      var (r1, p) := EnsureDatabase(r);
      r1.(openScopes := r1.openScopes[k := |r1.handles|], handles := r1.handles + [Handle(k, p, Opening, 0)])
  }

  function SetPhase(r: Registry, h: nat, phase: Phase): Registry
    requires h < |r.handles|
  {
    r.(handles := r.handles[h := r.handles[h].(phase := phase)])
  }

  function Step(r: Registry, e: Event): Registry {
    if !Possible(r, e) then r
    else
      match e
      case Open(k) => AfterOpen(r, k)
      case DbSettles(p, ok) => r.(dbs := r.dbs[p := if ok then Up else Down])
      case DbEvicts(p) => if r.slot == Some(p) then r.(slot := None) else r
      case Starts(h) => SetPhase(r, h, Live)
      case Rejects(h) => SetPhase(r, h, Rejected)
      case Evicts(h) =>
        var k := r.handles[h].key;
        var r1 := SetPhase(r, h, Evicted);
        if k in r.openScopes && r.openScopes[k] == h then r1.(openScopes := r.openScopes - {k}) else r1
      case Cancels(h) =>
        r.(openScopes := r.openScopes - {r.handles[h].key},
           handles := r.handles[h := r.handles[h].(cancels := r.handles[h].cancels + 1)])
  }

  function Run(r: Registry, events: seq<Event>): Registry { FoldLeft(Step, r, events) }

  const EMPTY: Registry := Registry(map[], [], None, [])

  // ----- the page's object -----

  datatype OpenRefusal = FlagOff | NoClient | Malformed(why: Refusal)

  class SyncScopes {
    var openScopes: map<Key, nat>
    var databasePromise: Option<nat>
    var handles: seq<Handle>
    var dbs: seq<DbState>
    const readEnabled: bool
    const client: bool

    constructor (readEnabled: bool, client: bool)
      ensures At() == EMPTY && this.readEnabled == readEnabled && this.client == client
    {
      this.readEnabled, this.client := readEnabled, client;
      openScopes, databasePromise, handles, dbs := map[], None, [], [];
    }

    ghost function At(): Registry
      reads this
    {
      Registry(openScopes, handles, databasePromise, dbs)
    }

    method EnsureDb() returns (p: nat)
      modifies this`databasePromise, this`dbs
      ensures (At(), p) == EnsureDatabase(old(At()))
    {
      if databasePromise.None? {
        databasePromise := Some(|dbs|);
        dbs := dbs + [Creating];
      }
      p := databasePromise.value;
    }

    /** Refusals throw before any database work; an entry for the key is joined, not rivalled. */
    method OpenSyncScope(raw: Option<RawScope>, readable: string -> bool) returns (r: Result<nat, OpenRefusal>)
      modifies this
      ensures !readEnabled ==> r == Err(FlagOff)
      ensures readEnabled && !client ==> r == Err(NoClient)
      ensures readEnabled && client ==>
                match NormalizeScope(raw, readable)
                case Err(why) => r == Err(Malformed(why))
                case Ok(scope) =>
                  && r.Ok? && At() == Step(old(At()), Open(ScopeKey(scope)))
                  && ScopeKey(scope) in openScopes && openScopes[ScopeKey(scope)] == r.value
      ensures r.Err? ==> At() == old(At())
    {
      if !readEnabled { return Err(FlagOff); }
      if !client { return Err(NoClient); }
      var normal := NormalizeScope(raw, readable);
      if normal.Err? { return Err(Malformed(normal.error)); }
      var key := ScopeKey(normal.value);
      if key in openScopes { return Ok(openScopes[key]); }
      var p := EnsureDb();
      var h := |handles|;
      handles := handles + [Handle(key, p, Opening, 0)];
      openScopes := openScopes[key := h];
      r := Ok(h);
    }

    method DatabaseFailed(p: nat)
      requires Possible(At(), DbEvicts(p))
      modifies this`databasePromise
      ensures At() == Step(old(At()), DbEvicts(p))
    {
      if databasePromise == Some(p) { databasePromise := None; }
    }

    method OpenFailed(h: nat)
      requires Possible(At(), Evicts(h))
      modifies this`openScopes, this`handles
      ensures At() == Step(old(At()), Evicts(h))
    {
      var key := handles[h].key;
      handles := handles[h := handles[h].(phase := Evicted)];
      if key in openScopes && openScopes[key] == h { openScopes := openScopes - {key}; }
    }

    method Cancel(h: nat)
      requires Possible(At(), Cancels(h))
      modifies this`openScopes, this`handles
      ensures At() == Step(old(At()), Cancels(h))
    {
      openScopes := openScopes - {handles[h].key};
      handles := handles[h := handles[h].(cancels := handles[h].cancels + 1)];
    }
  }

  // ----- one uncancelled open per key -----

  /** A replication that is running or about to run, and that nobody has cancelled. */
  predicate Active(x: Handle) { (x.phase == Opening || x.phase == Live) && x.cancels == 0 }

  predicate Registered(r: Registry, h: nat) {
    h < |r.handles| && r.handles[h].key in r.openScopes && r.openScopes[r.handles[h].key] == h
  }

  /** Entries name their own key's handle, and every active handle is registered. */
  ghost predicate Sound(r: Registry) {
    && (forall k :: k in r.openScopes ==>
          r.openScopes[k] < |r.handles| && r.handles[r.openScopes[k]].key == k
          && r.handles[r.openScopes[k]].phase != Evicted && r.handles[r.openScopes[k]].cancels == 0)
    && (forall h :: 0 <= h < |r.handles| && Active(r.handles[h]) ==> Registered(r, h))
  }

  ghost predicate OneActivePerKey(r: Registry) {
    forall i, j :: 0 <= i < |r.handles| && 0 <= j < |r.handles| && Active(r.handles[i]) && Active(r.handles[j]) ==>
      r.handles[i].key == r.handles[j].key ==> i == j
  }

  /** No handle is cancelled a second time. */
  predicate CancelledOnce(r: Registry) {
    forall h :: 0 <= h < |r.handles| ==> r.handles[h].cancels <= 1
  }

  /** A repeated cancel while the key is registered to another, active handle. */
  predicate Breaks(r: Registry, e: Event) {
    && e.Cancels? && Possible(r, e) && r.handles[e.h].cancels > 0
    && r.handles[e.h].key in r.openScopes
    && r.openScopes[r.handles[e.h].key] < |r.handles| && Active(r.handles[r.openScopes[r.handles[e.h].key]])
  }

  /** The step that can break it, and exactly when. */
  lemma StepKeepsExactly(r: Registry, e: Event)
    requires Sound(r)
    ensures Sound(Step(r, e)) <==> !Breaks(r, e)
  {
    var r' := Step(r, e);
    if Possible(r, e) {
      match e
      case Cancels(h) => CancelKeepsExactly(r, h);
      case Evicts(h) => EvictKeeps(r, h);
      case _ => OtherStepsKeep(r, e);
    }
  }

  lemma OtherStepsKeep(r: Registry, e: Event)
    requires Sound(r) && Possible(r, e) && !e.Cancels? && !e.Evicts?
    ensures Sound(Step(r, e))
  {
  }

  /** A failed open removes its own entry and no other. */
  lemma EvictKeeps(r: Registry, h: nat)
    requires Sound(r) && Possible(r, Evicts(h))
    ensures Sound(Step(r, Evicts(h)))
    ensures forall k :: k in r.openScopes && r.openScopes[k] != h ==>
              k in Step(r, Evicts(h)).openScopes && Step(r, Evicts(h)).openScopes[k] == r.openScopes[k]
    ensures forall k :: k in Step(r, Evicts(h)).openScopes ==> k in r.openScopes && r.openScopes[k] != h
  {
  }

  lemma CancelKeepsExactly(r: Registry, h: nat)
    requires Sound(r) && Possible(r, Cancels(h))
    ensures Sound(Step(r, Cancels(h))) <==> !Breaks(r, Cancels(h))
  {
    var r' := Step(r, Cancels(h));
    if Breaks(r, Cancels(h)) {
      var other := r.openScopes[r.handles[h].key];
      assert other != h && Active(r'.handles[other]) && !Registered(r', other);
    } else {
      forall x | 0 <= x < |r'.handles| && Active(r'.handles[x]) ensures Registered(r', x) {
        assert x != h && Active(r.handles[x]) && Registered(r, x);
      }
    }
  }

  lemma SoundMeansOne(r: Registry)
    requires Sound(r)
    ensures OneActivePerKey(r)
  {
    forall i, j | 0 <= i < |r.handles| && 0 <= j < |r.handles| && Active(r.handles[i]) && Active(r.handles[j])
                  && r.handles[i].key == r.handles[j].key
      ensures i == j
    {
      assert Registered(r, i) && Registered(r, j);
    }
  }

  /** Once broken, the next open of the key is a rival of the one still active; otherwise it is not. */
  lemma RivalsExactly(r: Registry, h: nat)
    requires Sound(r) && Possible(r, Cancels(h))
    ensures OneActivePerKey(Step(Step(r, Cancels(h)), Open(r.handles[h].key))) <==> !Breaks(r, Cancels(h))
  {
    var k := r.handles[h].key;
    var r' := Step(r, Cancels(h));
    var s := Step(r', Open(k));
    if Breaks(r, Cancels(h)) {
      var other := r.openScopes[k];
      assert Active(s.handles[other]) && s.handles[other].key == k;
      assert Active(s.handles[|r'.handles|]) && s.handles[|r'.handles|].key == k;
    } else {
      CancelKeepsExactly(r, h);
      OtherStepsKeep(r', Open(k));
      SoundMeansOne(s);
    }
  }

  ghost predicate SoundThroughout(events: seq<Event>) {
    Sound(Run(EMPTY, events)) && (events != [] ==> SoundThroughout(events[..|events| - 1]))
  }

  predicate NeverBreaks(events: seq<Event>) {
    events != [] ==>
      && NeverBreaks(events[..|events| - 1])
      && !Breaks(Run(EMPTY, events[..|events| - 1]), events[|events| - 1])
  }

  /** Over a whole run: the registry holds every active open throughout exactly when no step of it breaks that. */
  lemma {:induction false} SoundThroughoutExactly(events: seq<Event>)
    ensures SoundThroughout(events) <==> NeverBreaks(events)
    decreases |events|
  {
    if events != [] {
      var before := Run(EMPTY, events[..|events| - 1]);
      SoundThroughoutExactly(events[..|events| - 1]);
      if Sound(before) {
        StepKeepsExactly(before, events[|events| - 1]);
      }
    }
  }

  lemma CancelsOnlyGrow(r: Registry, e: Event)
    ensures |r.handles| <= |Step(r, e).handles|
    ensures forall h :: 0 <= h < |r.handles| ==> r.handles[h].cancels <= Step(r, e).handles[h].cancels
    ensures CancelledOnce(Step(r, e)) ==> CancelledOnce(r)
  {
    var r' := Step(r, e);
    if CancelledOnce(r') {
      forall h | 0 <= h < |r.handles| ensures r.handles[h].cancels <= 1 {
        assert r'.handles[h].cancels <= 1;
      }
    }
  }

  /**
   Any interleaving of opens, failures, evictions and cancels in which no handle is cancelled twice keeps
   at most one uncancelled open per key, and the registry holds exactly the open ones.
   */
  lemma {:induction false} OneOpenPerKey(events: seq<Event>)
    requires CancelledOnce(Run(EMPTY, events))
    ensures Sound(Run(EMPTY, events)) && OneActivePerKey(Run(EMPTY, events))
    decreases |events|
  {
    if events != [] {
      var before := Run(EMPTY, events[..|events| - 1]);
      var e := events[|events| - 1];
      CancelsOnlyGrow(before, e);
      OneOpenPerKey(events[..|events| - 1]);
      if e.Cancels? && Possible(before, e) {
        assert Step(before, e).handles[e.h].cancels <= 1;
      }
      StepKeepsExactly(before, e);
    }
    SoundMeansOne(Run(EMPTY, events));
  }

  lemma OpenThenCancel(k: Key)
    ensures Run(EMPTY, [Open(k), DbSettles(0, true), Starts(0)])
            == Registry(map[k := 0], [Handle(k, 0, Live, 0)], Some(0), [Up])
  {
    FoldThree(Step, EMPTY, Open(k), DbSettles(0, true), Starts(0));
    var r1 := Step(EMPTY, Open(k));
    assert r1 == Registry(map[k := 0], [Handle(k, 0, Opening, 0)], Some(0), [Creating]);
    assert Step(r1, DbSettles(0, true)).dbs == [Up];
  }

  lemma CancelReopen(k: Key, r: Registry)
    requires r == Registry(map[k := 0], [Handle(k, 0, Live, 0)], Some(0), [Up])
    ensures var s := Run(r, [Cancels(0), Open(k)]);
            s == Registry(map[k := 1], [Handle(k, 0, Live, 1), Handle(k, 0, Opening, 0)], Some(0), [Up])
  {
    FoldTwo(Step, r, Cancels(0), Open(k));
    assert Step(r, Cancels(0)) == Registry(map[], [Handle(k, 0, Live, 1)], Some(0), [Up]);
  }

  /** Cancelling one handle twice around a re-open: the second cancel breaks it, and the open after that is a rival. */
  lemma DoubleCancelRivals(k: Key)
    ensures !OneActivePerKey(Run(EMPTY, [Open(k), DbSettles(0, true), Starts(0)]
                                        + [Cancels(0), Open(k)] + [Cancels(0), Open(k)]))
  {
    hide OneActivePerKey;
    var first, again: seq<Event> := [Open(k), DbSettles(0, true), Starts(0)], [Cancels(0), Open(k)];
    FoldAppend(Step, EMPTY, first, again);
    FoldAppend(Step, EMPTY, first + again, again);
    OpenThenCancel(k);
    CancelReopen(k, Run(EMPTY, first));
    FoldTwo(Step, Run(EMPTY, first + again), Cancels(0), Open(k));
    RivalsExactly(Run(EMPTY, first + again), 0);
  }

  // ----- one database -----

  /** Every database promise but the memoised one has failed, and the memoised one is evicted only after failing. */
  ghost predicate OneDatabase(r: Registry) {
    && (r.slot.Some? ==> r.slot.value < |r.dbs|)
    && (forall p :: 0 <= p < |r.dbs| && r.slot != Some(p) ==> r.dbs[p] == Down)
    && (forall h :: 0 <= h < |r.handles| ==> r.handles[h].db < |r.dbs|)
  }

  /** At most one database is ever open or being created, and a failure costs a retry, not the page. */
  lemma {:induction false} OneDatabaseEver(events: seq<Event>)
    ensures OneDatabase(Run(EMPTY, events))
    ensures var r := Run(EMPTY, events);
            forall p, q :: 0 <= p < |r.dbs| && 0 <= q < |r.dbs| && r.dbs[p] != Down && r.dbs[q] != Down ==> p == q
    decreases |events|
  {
    if events != [] {
      OneDatabaseEver(events[..|events| - 1]);
      DatabaseStep(Run(EMPTY, events[..|events| - 1]), events[|events| - 1]);
    }
  }

  lemma DatabaseStep(r: Registry, e: Event)
    requires OneDatabase(r)
    ensures OneDatabase(Step(r, e))
  {
  }

  /**
   A failed database costs a retry, not the page: while the failed promise is memoised its eviction is due and no
   other eviction clears it, and once it ran the next open creates a new database.
   */
  lemma RetryAfterDatabaseFails(events: seq<Event>, k: Key)
    requires var r := Run(EMPTY, events);
             && r.slot.Some? && r.slot.value < |r.dbs| && r.dbs[r.slot.value] == Down && k !in r.openScopes
    ensures var r := Run(EMPTY, events);
            && Possible(r, DbEvicts(r.slot.value))
            && (forall p :: p != r.slot.value ==> Step(r, DbEvicts(p)) == r)
            && var s := Step(Step(r, DbEvicts(r.slot.value)), Open(k));
               && |s.handles| == |r.handles| + 1 && s.handles[|r.handles|] == Handle(k, |r.dbs|, Opening, 0)
               && s.dbs == r.dbs + [Creating] && s.slot == Some(|r.dbs|)
               && k in s.openScopes && s.openScopes[k] == |r.handles|
  {
  }

  /** A failed open costs a retry too: once its entry is evicted, the next open of the key starts a new one. */
  lemma RetryAfterOpenFails(events: seq<Event>, h: nat)
    requires Possible(Run(EMPTY, events), Evicts(h)) && Registered(Run(EMPTY, events), h)
    ensures var r := Run(EMPTY, events);
            var k := r.handles[h].key;
            var s := Step(Step(r, Evicts(h)), Open(k));
            && |s.handles| == |r.handles| + 1 && s.handles[h].phase == Evicted
            && s.handles[|r.handles|].key == k && s.handles[|r.handles|].phase == Opening
            && s.handles[|r.handles|].cancels == 0
            && k in s.openScopes && s.openScopes[k] == |r.handles|
            && (forall j :: j in r.openScopes && j != k ==> j in s.openScopes && s.openScopes[j] == r.openScopes[j])
  {
  }
}
