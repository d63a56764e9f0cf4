/**
 A replica kept by keyset pulls over a table that changes underneath it: complete at every step above the
 highest window bound any pull has used, so above the true-time bound when a calibrated clock computes it,
 and equal to the filtered table a bounded number of pulls after the writes stop.
 */
module PullCompleteness {
  import opened Prelude
  import opened PullReplication
  import SyncClock

  /**
   `served` is the highest key any answer has carried; the checkpoint may lag it after a crash. `window` is
   the highest bound any pull has used, None while no pull was bounded.
   */
  datatype Sync = Sync(table: Table, replica: Table, checkpoint: Key, served: Key, window: Option<int>)

  datatype Step =
    | Write(row: Row)
    | Pull(window: Option<int>, batchSize: nat)
    | PullUnsaved(window: Option<int>, batchSize: nat)  // documents stored, checkpoint lost in a crash

  predicate NotBelow(lo: Option<int>, w: Option<int>) {
    lo.Some? ==> w.Some? && lo.value <= w.value
  }

  function Higher(a: Option<int>, b: Option<int>): Option<int> { if NotBelow(a, b) then b else a }

  /** Writes stamp a key above everything served and above the version they replace. */
  predicate Enabled(s: Sync, step: Step) {
    match step
    case Write(row) => Below(s.served, KeyOf(row)) && (row.id in s.table ==> Below(KeyOf(s.table[row.id]), KeyOf(row)))
    case Pull(_, n) => n >= 1
    case PullUnsaved(_, n) => n >= 1
  }

  function Store(replica: Table, docs: seq<Row>): Table {
    if docs == [] then replica else Store(replica, docs[..|docs| - 1])[docs[|docs| - 1].id := docs[|docs| - 1]]
  }

  function Highest(a: Key, b: Key): Key { if Below(a, b) then b else a }

  ghost function Batch(s: Sync, w: Option<int>, n: nat): seq<Row>
    requires Keyed(s.table)
  {
    Serve(s.table, PullQuery(Stored(s.checkpoint), w, n))
  }

  ghost function Pulled(s: Sync, w: Option<int>, n: nat, saved: bool): Sync
    requires Keyed(s.table)
  {
    var docs := Batch(s, w, n);
    var cp := NextCheckpoint(s.checkpoint, docs);
    Sync(s.table, Store(s.replica, docs),
         if saved then cp else s.checkpoint, Highest(s.served, cp), Higher(s.window, w))
  }

  ghost function Next(s: Sync, step: Step): (s': Sync)
    requires Keyed(s.table)
    ensures Keyed(s'.table)
  {
    if !Enabled(s, step) then s
    else
      match step
      case Write(row) => s.(table := s.table[row.id := row])
      case Pull(w, n) => Pulled(s, w, n, true)
      case PullUnsaved(w, n) => Pulled(s, w, n, false)
  }

  ghost function Run(s: Sync, steps: seq<Step>): (s': Sync)
    requires Keyed(s.table)
    ensures Keyed(s'.table)
    decreases |steps|
  {
    if steps == [] then s else Next(Run(s, steps[..|steps| - 1]), steps[|steps| - 1])
  }

  ghost predicate Initial(s: Sync) {
    && Keyed(s.table) && s.replica == map[] && s.checkpoint == EPOCH && s.served == EPOCH && s.window == None
    && forall id :: id in s.table ==> Below(EPOCH, KeyOf(s.table[id]))
  }

  // ----- the invariant -----

  /** Held at its current version. */
  predicate HeldCurrent(s: Sync, id: RowId) {
    id in s.table && id in s.replica && s.replica[id] == s.table[id]
  }

  /** Every row at or below the checkpoint and above the highest bound used is held at its current version. */
  ghost predicate Complete(s: Sync) {
    forall id :: id in s.table && AtMost(KeyOf(s.table[id]), s.checkpoint) && InWindow(s.table[id], s.window) ==>
        HeldCurrent(s, id)
  }

  /** Nothing held is invented or ahead: it is the current row or an older version of it. */
  ghost predicate NotAhead(s: Sync) {
    forall id :: id in s.replica ==>
      id in s.table && (s.replica[id] == s.table[id] || Below(KeyOf(s.replica[id]), KeyOf(s.table[id])))
  }

  ghost predicate Sound(s: Sync) {
    && Keyed(s.table) && Complete(s) && NotAhead(s) && AtMost(s.checkpoint, s.served) && AtMost(EPOCH, s.checkpoint)
    && forall id :: id in s.table ==> Below(EPOCH, KeyOf(s.table[id]))
  }

  lemma {:induction false} StoreHolds(replica: Table, docs: seq<Row>, t: Table)
    requires Keyed(t) && forall d :: d in docs ==> d in t.Values
    ensures var r := Store(replica, docs);
            && (forall d :: d in docs ==> d.id in r && r[d.id] == d)
            && (forall id :: id in r ==> (id in t && r[id] == t[id]) || (id in replica && r[id] == replica[id]))
            && (forall id :: id in replica && id in t && replica[id] == t[id] ==> id in r && r[id] == t[id])
    decreases |docs|
  {
    if docs != [] {
      var last := docs[|docs| - 1];
      StoreHolds(replica, docs[..|docs| - 1], t);
      assert last in docs && last in t.Values;
      forall d | d in docs ensures d.id in Store(replica, docs) && Store(replica, docs)[d.id] == d {
        var i :| 0 <= i < |docs| && docs[i] == d;
        assert d in t.Values;
        if i < |docs| - 1 {
          assert docs[..|docs| - 1][i] == d;
        }
      }
    }
  }

  /** A row in the window and not above the advanced checkpoint was below the old one or is in the batch. */
  lemma BatchCovers(t: Table, cp: Key, w: Option<int>, n: nat, r: Row)
    requires Keyed(t) && n >= 1 && r in t.Values && InWindow(r, w)
    ensures var docs := Serve(t, BuildPull(cp, w, n));
            AtMost(KeyOf(r), NextCheckpoint(cp, docs)) ==> AtMost(KeyOf(r), cp) || r in docs
    ensures AtMost(cp, NextCheckpoint(cp, Serve(t, BuildPull(cp, w, n))))
    ensures forall d :: d in Serve(t, BuildPull(cp, w, n)) ==> d in t.Values
  {
    BatchAdvances(t, cp, w, n);
    BatchFromTable(t, cp, w, n);
    var docs := Serve(t, BuildPull(cp, w, n));
    var cp' := NextCheckpoint(cp, docs);
    if Below(cp, KeyOf(r)) && AtMost(KeyOf(r), cp') {
      assert r in Remaining(t, cp, w) && r !in Remaining(t, cp', w);
      assert r in docs + Ordered(Remaining(t, cp', w));
    }
  }

  lemma BatchFromTable(t: Table, cp: Key, w: Option<int>, n: nat)
    requires Keyed(t) && n >= 1
    ensures forall d :: d in Serve(t, BuildPull(cp, w, n)) ==> d in t.Values
    ensures AtMost(cp, NextCheckpoint(cp, Serve(t, BuildPull(cp, w, n))))
  {
    BatchAdvances(t, cp, w, n);
    var docs := Serve(t, BuildPull(cp, w, n));
    forall d | d in docs ensures d in t.Values {
      assert d in docs + Ordered(Remaining(t, NextCheckpoint(cp, docs), w));
      assert d in Remaining(t, cp, w);
    }
  }

  lemma PullKeepsComplete(s: Sync, w: Option<int>, n: nat, saved: bool)
    requires Sound(s) && n >= 1
    ensures Sound(Pulled(s, w, n, saved))
  {
    var docs := Batch(s, w, n);
    var s' := Pulled(s, w, n, saved);
    BatchFromTable(s.table, s.checkpoint, w, n);
    StoreHolds(s.replica, docs, s.table);
    forall id | id in s.table && AtMost(KeyOf(s.table[id]), s'.checkpoint) && InWindow(s.table[id], s'.window)
      ensures HeldCurrent(s', id)
    {
      var r := s.table[id];
      assert r in s.table.Values;
      BatchCovers(s.table, s.checkpoint, w, n, r);
      if r !in docs {
        assert HeldCurrent(s, id);
      }
    }
  }

  lemma StepKeeps(s: Sync, step: Step)
    requires Sound(s)
    ensures Sound(Next(s, step))
    ensures AtMost(s.checkpoint, Next(s, step).checkpoint)
  {
    if Enabled(s, step) {
      match step
      case Write(row) =>
      case Pull(w, n) =>
        PullKeepsComplete(s, w, n, true);
        BatchFromTable(s.table, s.checkpoint, w, n);
      case PullUnsaved(w, n) => PullKeepsComplete(s, w, n, false);
    }
  }

  /**
   Completeness in every run, under concurrent writes, lost responses and windows that move either way; the
   checkpoint never regresses.
   */
  lemma {:induction false} ReplicaComplete(s: Sync, steps: seq<Step>)
    requires Sound(s)
    ensures Sound(Run(s, steps)) && AtMost(s.checkpoint, Run(s, steps).checkpoint)
    decreases |steps|
  {
    if steps != [] {
      ReplicaComplete(s, steps[..|steps| - 1]);
      StepKeeps(Run(s, steps[..|steps| - 1]), steps[|steps| - 1]);
    }
  }

  lemma InitiallySound(s: Sync)
    requires Initial(s)
    ensures Sound(s)
  {
  }

  /** From an empty replica on, whatever happens, nothing the checkpoint has passed is missing, stale or invented. */
  lemma CompleteFromStart(s: Sync, steps: seq<Step>, id: RowId)
    requires Initial(s)
    ensures var r := Run(s, steps);
            && (id in r.table && AtMost(KeyOf(r.table[id]), r.checkpoint) && InWindow(r.table[id], r.window) ==>
                HeldCurrent(r, id))
            && (id in r.replica ==> id in r.table && AtMost(KeyOf(r.replica[id]), KeyOf(r.table[id])))
  {
    InitiallySound(s);
    ReplicaComplete(s, steps);
  }

  // ----- convergence -----

  ghost function Pulls(s: Sync, windows: seq<Option<int>>, n: nat): Sync
    requires Keyed(s.table)
    decreases |windows|
  {
    if windows == [] then s else Pulls(Pulled(s, windows[0], n, true), windows[1..], n)
  }

  lemma Inside(t: Table, cp: Key, cp': Key, lo: Option<int>, w: Option<int>)
    requires NotBelow(lo, w) && AtMost(cp, cp')
    ensures Remaining(t, cp', w) <= Remaining(t, cp, w) <= Remaining(t, cp, lo)
    ensures Remaining(t, cp, w) - Remaining(t, cp', w) <= Remaining(t, cp, lo) - Remaining(t, cp', lo)
  {
  }

  /** A full batch leaves that many fewer rows, counted at any lower bound; a short one leaves none in its window. */
  lemma FewerRemain(s: Sync, lo: Option<int>, w: Option<int>, n: nat)
    requires Keyed(s.table) && NotBelow(lo, w) && n >= 1
    ensures var s' := Pulled(s, w, n, true);
            if |Batch(s, w, n)| == n
            then |Remaining(s.table, s'.checkpoint, lo)| <= |Remaining(s.table, s.checkpoint, lo)| - n
            else Remaining(s.table, s'.checkpoint, s'.window) == {}
  {
    hide KeyOrder, BuildPull, Serve, Store, Ascending;
    var cp' := Pulled(s, w, n, true).checkpoint;
    ServeRemaining(s.table, s.checkpoint, w, n);
    BatchAdvances(s.table, s.checkpoint, w, n);
    Inside(s.table, s.checkpoint, cp', lo, w);
    Inside(s.table, cp', cp', lo, lo);
    Inside(s.table, s.checkpoint, cp', lo, lo);
    SubsetSize(Remaining(s.table, s.checkpoint, w) - Remaining(s.table, cp', w),
               Remaining(s.table, s.checkpoint, lo) - Remaining(s.table, cp', lo));
    Inside(s.table, cp', cp', w, Higher(s.window, w));
  }

  /** The replica is the filtered table: current rows above the highest bound used, and stale ones only below it. */
  ghost predicate Agrees(s: Sync) {
    && (forall id :: id in s.table && InWindow(s.table[id], s.window) ==> HeldCurrent(s, id))
    && (forall id :: id in s.replica && !HeldCurrent(s, id) ==> id in s.table && !InWindow(s.table[id], s.window))
  }

  lemma NothingRemains(s: Sync)
    requires Sound(s) && Remaining(s.table, s.checkpoint, s.window) == {}
    ensures Agrees(s)
  {
    forall id | id in s.table && InWindow(s.table[id], s.window) ensures HeldCurrent(s, id) {
      assert s.table[id] in s.table.Values;
      assert s.table[id] !in Remaining(s.table, s.checkpoint, s.window);
    }
  }

  lemma Budget(k: nat, n: nat, before: nat, after: nat)
    requires before <= (k + 1) * n && after <= before - n
    ensures after <= k * n
  {
    assert (k + 1) * n == k * n + n;
  }

  /** Either nothing is left to deliver, or no more than k batches of n rows, counted at the bound `lo`. */
  ghost predicate Left(s: Sync, lo: Option<int>, k: nat, n: nat)
    requires Keyed(s.table)
  {
    Remaining(s.table, s.checkpoint, s.window) == {} || |Remaining(s.table, s.checkpoint, lo)| <= k * n
  }

  lemma EmptyStays(s: Sync, w: Option<int>, n: nat)
    requires Keyed(s.table) && n >= 1 && Remaining(s.table, s.checkpoint, s.window) == {}
    ensures Remaining(s.table, Pulled(s, w, n, true).checkpoint, Pulled(s, w, n, true).window) == {}
  {
    var s' := Pulled(s, w, n, true);
    BatchFromTable(s.table, s.checkpoint, w, n);
    Inside(s.table, s.checkpoint, s'.checkpoint, s.window, s'.window);
  }

  lemma OneBatchLess(s: Sync, lo: Option<int>, w: Option<int>, k: nat, n: nat)
    requires Keyed(s.table) && NotBelow(lo, w) && n >= 1 && Left(s, lo, k + 1, n)
    ensures Left(Pulled(s, w, n, true), lo, k, n)
  {
    var s' := Pulled(s, w, n, true);
    if Remaining(s.table, s.checkpoint, s.window) == {} {
      EmptyStays(s, w, n);
    } else {
      FewerRemain(s, lo, w, n);
      if |Batch(s, w, n)| == n {
        Budget(k, n, |Remaining(s.table, s.checkpoint, lo)|, |Remaining(s.table, s'.checkpoint, lo)|);
      }
    }
  }

  lemma NoneLeft(s: Sync, lo: Option<int>, n: nat)
    requires Sound(s) && Left(s, lo, 0, n) && NotBelow(lo, s.window)
    ensures Agrees(s)
  {
    Inside(s.table, s.checkpoint, s.checkpoint, lo, s.window);
    NothingRemains(s);
  }

  lemma PullOne(s: Sync, lo: Option<int>, w: Option<int>, k: nat, n: nat)
    requires Sound(s) && n >= 1 && NotBelow(lo, w) && Left(s, lo, k + 1, n)
    ensures var s' := Pulled(s, w, n, true);
            Sound(s') && Left(s', lo, k, n) && NotBelow(lo, s'.window) && s'.table == s.table
  {
    PullKeepsComplete(s, w, n, true);
    OneBatchLess(s, lo, w, k, n);
  }

  /**
   After writes stop, ceil(remaining / batch size) pulls make the replica agree, however their windows move:
   what remains is counted at any bound `lo` that none of them lies below.
   */
  lemma {:induction false} Converges(s: Sync, windows: seq<Option<int>>, lo: Option<int>, n: nat)
    requires Sound(s) && n >= 1 && (windows == [] ==> NotBelow(lo, s.window))
    requires forall w :: w in windows ==> NotBelow(lo, w)
    requires Left(s, lo, |windows|, n)
    ensures Sound(Pulls(s, windows, n)) && Agrees(Pulls(s, windows, n)) && Pulls(s, windows, n).table == s.table
    decreases |windows|
  {
    if windows == [] {
      NoneLeft(s, lo, n);
    } else {
      PullOne(s, lo, windows[0], |windows| - 1, n);
      Converges(Pulled(s, windows[0], n, true), windows[1..], lo, n);
    }
  }

  // ----- windows computed by the calibrated clock -----

  /** A step at true time `at` on a device whose clock state is `clock`. */
  datatype Timed = Timed(step: Step, at: int, clock: Option<SyncClock.ClockState>)

  function StepsOf(timed: seq<Timed>): seq<Step> {
    if timed == [] then [] else StepsOf(timed[..|timed| - 1]) + [timed[|timed| - 1].step]
  }

  /** A pull asks with the window its calibrated clock computes. */
  predicate Calibrated(x: Timed, kind: ReplicaKind, skew: int, latency: int) {
    match x.step
    case Write(_) => true
    case Pull(w, _) => Asks(x, w, kind, skew, latency)
    case PullUnsaved(w, _) => Asks(x, w, kind, skew, latency)
  }

  predicate Asks(x: Timed, w: Option<int>, kind: ReplicaKind, skew: int, latency: int) {
    SyncClock.Within(x.clock, skew, latency) && w == WindowAt(kind, SyncClock.NowAt(x.clock, x.at + skew))
  }

  /** No estimate leads true time, so no bound used is above the true-time bound. */
  lemma {:induction false} BoundsTrail(s: Sync, timed: seq<Timed>, kind: ReplicaKind, skew: int, latency: int, t: int)
    requires Keyed(s.table) && s.window == None
    requires forall x :: x in timed ==> Calibrated(x, kind, skew, latency) && x.at <= t
    ensures NotBelow(Run(s, StepsOf(timed)).window, WindowAt(kind, t))
    decreases |timed|
  {
    if timed != [] {
      var front, last := timed[..|timed| - 1], timed[|timed| - 1];
      assert last in timed;
      BoundsTrail(s, front, kind, skew, latency, t);
      assert StepsOf(timed)[..|StepsOf(timed)| - 1] == StepsOf(front);
      assert Run(s, StepsOf(timed)) == Next(Run(s, StepsOf(front)), last.step);
      hide Run, Next;
      WindowAfter(Run(s, StepsOf(front)), last.step);
    }
  }

  /** A step leaves the highest bound, or raises it to the one it used. */
  lemma WindowAfter(s: Sync, step: Step)
    requires Keyed(s.table)
    ensures Next(s, step).window == s.window
            || (!step.Write? && Next(s, step).window == Higher(s.window, step.window))
  {
  }

  function Raised(w: Option<int>, ms: int): Option<int> { if w.None? then None else Some(w.value + ms) }

  /**
   With windows from the calibrated clock, whichever way they moved, nothing the checkpoint has passed is
   missing or stale if it is inside the window of true time; nor, then, if it expires a second plus the
   latency after the bound the device computes now.
   */
  lemma HeldInTrueWindow(s: Sync, timed: seq<Timed>, kind: ReplicaKind, skew: int, latency: int, t: int,
                         clock: Option<SyncClock.ClockState>, id: RowId)
    requires Initial(s) && SyncClock.Within(clock, skew, latency)
    requires forall x :: x in timed ==> Calibrated(x, kind, skew, latency) && x.at <= t
    ensures var r := Run(s, StepsOf(timed));
            var now := SyncClock.NowAt(clock, t + skew);
            id in r.table && AtMost(KeyOf(r.table[id]), r.checkpoint) ==>
              && (InWindow(r.table[id], WindowAt(kind, t)) ==> HeldCurrent(r, id))
              && (InWindow(r.table[id], Raised(WindowAt(kind, now), 1000 + latency)) ==> HeldCurrent(r, id))
  {
    CompleteFromStart(s, StepsOf(timed), id);
    BoundsTrail(s, timed, kind, skew, latency, t);
  }

  /**
   In true time: of the rows the checkpoint has passed, a codes replica holds current every one that lives or
   died less than two days ago, an offers replica every one that lives, a campaigns replica every one.
   */
  lemma HeldByKind(s: Sync, timed: seq<Timed>, kind: ReplicaKind, skew: int, latency: int, t: int, id: RowId)
    requires Initial(s) && forall x :: x in timed ==> Calibrated(x, kind, skew, latency) && x.at <= t
    ensures var r := Run(s, StepsOf(timed));
            id in r.table && AtMost(KeyOf(r.table[id]), r.checkpoint)
            && (match kind
                case CampaignsReplica => true
                case CodesReplica => r.table[id].expiresAt.Some? && t < r.table[id].expiresAt.value + 172_800_000
                case OffersReplica => r.table[id].expiresAt.Some? && t < r.table[id].expiresAt.value) ==>
              HeldCurrent(r, id)
  {
    CompleteFromStart(s, StepsOf(timed), id);
    BoundsTrail(s, timed, kind, skew, latency, t);
  }

  // ----- what the bound and the id half of the key are for -----

  /** The bare cursor: strictly later timestamps only. */
  function BareCursor(ts: int, n: nat): (q: Query)
    ensures KeyOrder(q.order)
  {
    OrderMeans();
    Query(Gt(UpdatedAt, ts), None, [UpdatedAt, Id], n)
  }

  lemma PairOrdered(a: Row, b: Row, s: set<Row>)
    requires s == {a, b} && Below(KeyOf(a), KeyOf(b))
    ensures DistinctKeys(s) && Ordered(s) == [a, b]
  {
    AscendingUnique([a, b], Ordered(s));
  }

  /** A batch boundary inside a tie: the bare cursor never delivers the second row, the keyset walk does. */
  lemma BareCursorLosesRow(a: Row, b: Row, ts: int)
    requires ts < a.updatedAt == b.updatedAt && a.id < b.id && EPOCH.updatedAt < a.updatedAt
    ensures var t: Table := map[a.id := a, b.id := b];
            && Keyed(t) && Serve(t, BareCursor(ts, 1)) == [a]
            && (forall n, ts' :: ts' >= a.updatedAt ==> Serve(t, BareCursor(ts', n)) == [])
            && Walk(t, None, None, 1) == [a, b]
  {
    var t: Table := map[a.id := a, b.id := b];
    PairTable(a, b, t);
    hide Serve, Walk, Keyed;
    BareServes(t, a, b, ts);
    TieWalked(t, a, b);
  }

  lemma PairTable(a: Row, b: Row, t: Table)
    requires t == map[a.id := a, b.id := b] && a.id != b.id
    ensures Keyed(t) && t.Values == {a, b}
  {
    assert t[a.id] == a && t[b.id] == b;
    assert a in t.Values && b in t.Values;
  }

  lemma TieWalked(t: Table, a: Row, b: Row)
    requires Keyed(t) && t.Values == {a, b} && Below(EPOCH, KeyOf(a)) && Below(KeyOf(a), KeyOf(b))
    ensures Walk(t, None, None, 1) == [a, b]
  {
    assert Remaining(t, EPOCH, None) == {a, b};
    hide Walk, Ordered;
    PairOrdered(a, b, {a, b});
    WalkDeliversAll(t, None, None, 1);
  }

  lemma BareServes(t: Table, a: Row, b: Row, ts: int)
    requires Keyed(t) && t.Values == {a, b} && ts < a.updatedAt == b.updatedAt && a.id < b.id
    ensures Serve(t, BareCursor(ts, 1)) == [a]
    ensures forall n, ts' :: ts' >= a.updatedAt ==> Serve(t, BareCursor(ts', n)) == []
  {
    TableKeysDistinct(t);
    assert Matching(t, BareCursor(ts, 1)) == {a, b};
    PairOrdered(a, b, {a, b});
    forall n, ts' | ts' >= a.updatedAt ensures Serve(t, BareCursor(ts', n)) == [] {
      assert Matching(t, BareCursor(ts', n)) == {};
    }
  }

  /**
   Why completeness stops at the highest bound: a row the window shut out while the checkpoint passed its
   key, and that a later window lets in again, is not held, and no later pull asks for it.
   */
  lemma WindowBackLosesRow(s: Sync, w: Option<int>, w': Option<int>, n: nat, id: RowId)
    requires Sound(s) && n >= 1
    requires id in s.table && id !in s.replica && !InWindow(s.table[id], w) && InWindow(s.table[id], w')
    requires AtMost(KeyOf(s.table[id]), Pulled(s, w, n, true).checkpoint)
    ensures id !in Pulled(s, w, n, true).replica
    ensures forall cp, m :: AtMost(Pulled(s, w, n, true).checkpoint, cp) ==>
              s.table[id] !in Matching(s.table, BuildPull(cp, w', m))
  {
    var docs := Batch(s, w, n);
    BatchFromTable(s.table, s.checkpoint, w, n);
    StoreHolds(s.replica, docs, s.table);
    ShutOut(s, w, n, id);
    StoreOnly(s.replica, docs, id);
    forall cp, m | AtMost(Pulled(s, w, n, true).checkpoint, cp)
      ensures s.table[id] !in Matching(s.table, BuildPull(cp, w', m))
    {
      PullMeans(s.table[id], cp, w', m);
    }
  }

  lemma ShutOut(s: Sync, w: Option<int>, n: nat, id: RowId)
    requires Keyed(s.table) && n >= 1 && id in s.table && !InWindow(s.table[id], w)
    ensures forall d :: d in Batch(s, w, n) ==> d.id != id
  {
    BatchAdvances(s.table, s.checkpoint, w, n);
    BatchFromTable(s.table, s.checkpoint, w, n);
    var docs := Batch(s, w, n);
    forall d | d in docs ensures d.id != id {
      assert d in docs + Ordered(Remaining(s.table, NextCheckpoint(s.checkpoint, docs), w));
      assert d in Remaining(s.table, s.checkpoint, w);
    }
  }

  lemma {:induction false} StoreOnly(replica: Table, docs: seq<Row>, id: RowId)
    requires id !in replica && forall d :: d in docs ==> d.id != id
    ensures id !in Store(replica, docs)
    decreases |docs|
  {
    if docs != [] {
      assert docs[|docs| - 1] in docs;
      StoreOnly(replica, docs[..|docs| - 1], id);
    }
  }
}
