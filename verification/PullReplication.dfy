/**
 Keyset pull replication: bounded, checkpointed batches over a table that keeps changing.
 A timestamp is its microseconds and a uuid its 128-bit number, so both compare as PostgreSQL does.
 */
module PullReplication {
  import opened Prelude
  import SyncClock

  type RowId = nat

  /** `expiresAt` is None for a table without that column; `content` stands for the other columns. */
  datatype Row = Row(id: RowId, updatedAt: int, expiresAt: Option<int>, content: string)

  datatype Key = Key(updatedAt: int, id: RowId)

  function KeyOf(r: Row): Key { Key(r.updatedAt, r.id) }

  predicate Below(a: Key, b: Key) {
    a.updatedAt < b.updatedAt || (a.updatedAt == b.updatedAt && a.id < b.id)
  }

  predicate AtMost(a: Key, b: Key) { a == b || Below(a, b) }

  // ----- the checkpoint and the query -----

  const EPOCH: Key := Key(0, 0)

  /** What RxDB hands back: nothing on the first pull, a pair, or a legacy pair without an id. */
  datatype RawCheckpoint = RawCheckpoint(updatedAt: Option<int>, id: Option<RowId>)

  function NormalizeCheckpoint(cp: Option<RawCheckpoint>): Key {
    if cp.None? || cp.value.updatedAt.None? then EPOCH
    else Key(cp.value.updatedAt.value, if cp.value.id.Some? then cp.value.id.value else EPOCH.id)
  }

  /** What RxDB stores after a batch, and hands back at the next pull. */
  function Stored(cp: Key): Option<RawCheckpoint> { Some(RawCheckpoint(Some(cp.updatedAt), Some(cp.id))) }

  datatype Column = UpdatedAt | Id | ExpiresAt

  datatype Cond =
    | Gt(column: Column, bound: int)
    | Eq(column: Column, bound: int)
    | Both(left: Cond, right: Cond)
    | Either(left: Cond, right: Cond)

  datatype Query = Query(keyset: Cond, window: Option<Cond>, order: seq<Column>, limit: nat)

  function Field(r: Row, c: Column): Option<int> {
    match c
    case UpdatedAt => Some(r.updatedAt)
    case Id => Some(r.id)
    case ExpiresAt => r.expiresAt
  }

  /** A comparison with NULL is not true. */
  predicate Holds(r: Row, c: Cond) {
    match c
    case Gt(column, bound) => Field(r, column).Some? && Field(r, column).value > bound
    case Eq(column, bound) => Field(r, column) == Some(bound)
    case Both(left, right) => Holds(r, left) && Holds(r, right)
    case Either(left, right) => Holds(r, left) || Holds(r, right)
  }

  predicate Satisfies(r: Row, q: Query) {
    Holds(r, q.keyset) && (q.window.Some? ==> Holds(r, q.window.value))
  }

  function KeysetPredicate(cp: Key): Cond {
    Either(Gt(UpdatedAt, cp.updatedAt), Both(Eq(UpdatedAt, cp.updatedAt), Gt(Id, cp.id)))
  }

  /** The lexicographic order of an ORDER BY; a column that is NULL in either row decides nothing. */
  predicate Precedes(order: seq<Column>, a: Row, b: Row) {
    && order != []
    && var x, y := Field(a, order[0]), Field(b, order[0]);
       && x.Some? && y.Some? && (x.value < y.value || (x.value == y.value && Precedes(order[1..], a, b)))
  }

  /** Sorting as asked is sorting by key. */
  ghost predicate KeyOrder(order: seq<Column>) {
    forall a, b :: Precedes(order, a, b) <==> Below(KeyOf(a), KeyOf(b))
  }

  lemma OrderMeans()
    ensures KeyOrder([UpdatedAt, Id])
  {
    var order := [UpdatedAt, Id];
    assert order[1..] == [Id] && order[1..][1..] == [];
    forall a, b ensures Precedes(order, a, b) <==> Below(KeyOf(a), KeyOf(b)) {
      assert Precedes([Id], a, b) <==> a.id < b.id;
    }
  }

  function BuildPull(cp: Key, window: Option<int>, batchSize: nat): (q: Query)
    ensures KeyOrder(q.order)
  {
    OrderMeans();
    Query(KeysetPredicate(cp),
          if window.Some? then Some(Gt(ExpiresAt, window.value)) else None, [UpdatedAt, Id], batchSize)
  }

  /** One pull's query, from what RxDB hands back. */
  function PullQuery(raw: Option<RawCheckpoint>, window: Option<int>, batchSize: nat): (q: Query)
    ensures KeyOrder(q.order)
  {
    BuildPull(NormalizeCheckpoint(raw), window, batchSize)
  }

  /** The three replicas; campaigns have no expiry, so they are pulled without a window. */
  datatype ReplicaKind = CampaignsReplica | CodesReplica | OffersReplica

  function WindowAt(kind: ReplicaKind, now: int): Option<int> {
    match kind
    case CampaignsReplica => None
    case CodesReplica => Some(SyncClock.CodesWindow(now))
    case OffersReplica => Some(SyncClock.OffersWindow(now))
  }

  predicate InWindow(r: Row, window: Option<int>) {
    window.Some? ==> r.expiresAt.Some? && r.expiresAt.value > window.value
  }

  predicate Wanted(r: Row, cp: Key, window: Option<int>) {
    Below(cp, KeyOf(r)) && InWindow(r, window)
  }

  /** The compound predicate is the lexicographic order the ORDER BY sorts by. */
  lemma PullMeans(r: Row, cp: Key, window: Option<int>, batchSize: nat)
    ensures Satisfies(r, BuildPull(cp, window, batchSize)) <==> Wanted(r, cp, window)
  {
    assert Holds(r, Both(Eq(UpdatedAt, cp.updatedAt), Gt(Id, cp.id))) <==> r.updatedAt == cp.updatedAt && r.id > cp.id;
    assert Holds(r, Gt(UpdatedAt, cp.updatedAt)) <==> r.updatedAt > cp.updatedAt;
  }

  /**
   Which rows a pull asks for, by what RxDB hands back and by the replica: those after the stored pair, the
   stored timestamp with the zero id, or the epoch; and of codes those that live or died in the last two days,
   of offers those that live.
   */
  lemma PullSelects(r: Row, raw: Option<RawCheckpoint>, kind: ReplicaKind, now: int, batchSize: nat)
    ensures Satisfies(r, PullQuery(raw, WindowAt(kind, now), batchSize)) <==>
              && (match raw
                  case Some(RawCheckpoint(Some(ts), Some(id))) => r.updatedAt > ts || (r.updatedAt == ts && r.id > id)
                  case Some(RawCheckpoint(Some(ts), None)) => r.updatedAt > ts || (r.updatedAt == ts && r.id > 0)
                  case _ => r.updatedAt > 0 || (r.updatedAt == 0 && r.id > 0))
              && (match kind
                  case CampaignsReplica => true
                  case CodesReplica => r.expiresAt.Some? && r.expiresAt.value > now - 172_800_000
                  case OffersReplica => r.expiresAt.Some? && r.expiresAt.value > now)
  {
    PullMeans(r, NormalizeCheckpoint(raw), WindowAt(kind, now), batchSize);
  }

  // ----- the server -----

  type Table = map<RowId, Row>

  ghost predicate Keyed(t: Table) {
    forall id :: id in t ==> t[id].id == id
  }

  predicate Ascending(s: seq<Row>) {
    forall i, j :: 0 <= i < j < |s| ==> Below(KeyOf(s[i]), KeyOf(s[j]))
  }

  ghost predicate DistinctKeys(s: set<Row>) {
    forall a, b :: a in s && b in s && KeyOf(a) == KeyOf(b) ==> a == b
  }

  lemma {:induction false} HasLeast(s: set<Row>) returns (least: Row)
    requires s != {} && DistinctKeys(s)
    ensures least in s && forall r :: r in s && r != least ==> Below(KeyOf(least), KeyOf(r))
    decreases |s|
  {
    var x :| x in s;
    var rest := s - {x};
    assert forall r :: r in s && r != x ==> r in rest;
    if rest == {} {
      least := x;
    } else {
      var y := HasLeast(rest);
      assert KeyOf(x) != KeyOf(y);
      forall r | r in s && r != x && r != y ensures r in rest {}
      least := if Below(KeyOf(x), KeyOf(y)) then x else y;
    }
  }

  ghost predicate IsLeast(s: set<Row>, r: Row) {
    r in s && forall x :: x in s && x != r ==> Below(KeyOf(r), KeyOf(x))
  }

  /** The rows in key order. */
  ghost function Ordered(s: set<Row>): (r: seq<Row>)
    requires DistinctKeys(s)
    ensures Ascending(r) && |r| == |s|
    ensures forall x :: x in r <==> x in s
    decreases |s|
  {
    if s == {} then []
    else
      assert exists x :: IsLeast(s, x) by { var least := HasLeast(s); assert IsLeast(s, least); }
      var least :| IsLeast(s, least);
      var rest := Ordered(s - {least});
      assert forall i :: 0 <= i < |rest| ==> rest[i] in s - {least};
      [least] + rest
  }

  lemma {:induction false} AscendingUnique(a: seq<Row>, b: seq<Row>)
    requires Ascending(a) && Ascending(b)
    requires forall x :: x in a <==> x in b
    ensures a == b
    decreases |a|
  {
    assert b != [] ==> b[0] in b;
    if a != [] {
      assert a[0] in b;
      assert b[0] in a;
      assert a[0] == b[0];
      forall x ensures x in a[1..] <==> x in b[1..] {
        if x in a[1..] {
          var i :| 0 <= i < |a[1..]| && a[1..][i] == x;
          assert a[i + 1] == x && x in b;
          var j :| 0 <= j < |b| && b[j] == x;
          assert b[1..][j - 1] == x;
        }
        if x in b[1..] {
          var j :| 0 <= j < |b[1..]| && b[1..][j] == x;
          assert b[j + 1] == x && x in a;
          var i :| 0 <= i < |a| && a[i] == x;
          assert a[1..][i - 1] == x;
        }
      }
      AscendingUnique(a[1..], b[1..]);
    }
  }

  ghost function Matching(t: Table, q: Query): set<Row> {
    set r | r in t.Values && Satisfies(r, q)
  }

  lemma TableKeysDistinct(t: Table)
    requires Keyed(t)
    ensures DistinctKeys(t.Values)
  {
  }

  function Take(s: seq<Row>, n: nat): seq<Row> { if |s| <= n then s else s[..n] }

  /** One SELECT: filter, order, limit; asked for in key order, as every pull is. */
  ghost function Serve(t: Table, q: Query): seq<Row>
    requires Keyed(t) && KeyOrder(q.order)
  {
    TableKeysDistinct(t);
    Take(Ordered(Matching(t, q)), q.limit)
  }

  // ----- the handler -----

  /** An HTTP answer: its Date header, if readable, and its rows. */
  datatype Response = Response(status: nat, date: Option<int>, rows: seq<Row>)

  datatype Pulled = Pulled(documents: seq<Row>, checkpoint: Key)

  datatype Sent = Sent(checkpoint: Key, query: Query)

  function NextCheckpoint(cp: Key, rows: seq<Row>): Key {
    if rows == [] then cp else KeyOf(rows[|rows| - 1])
  }

  class PullHandler {
    const kind: ReplicaKind
    const clock: SyncClock.SyncClock
    var requestLog: seq<Sent>
    var successes: nat

    constructor (kind: ReplicaKind, clock: SyncClock.SyncClock)
      ensures this.kind == kind && this.clock == clock && requestLog == [] && successes == 0
    {
      this.kind, this.clock, requestLog, successes := kind, clock, [], 0;
    }

    /** One pull; `sentAt` and `readAt` are the device clock's readings. Err is the handler's throw. */
    method Pull(raw: Option<RawCheckpoint>, batchSize: nat, sentAt: int, readAt: int, server: Query -> Response)
        returns (r: Result<Pulled, nat>)
      modifies this, clock
      ensures var cp := NormalizeCheckpoint(raw);
              var q := PullQuery(raw, WindowAt(kind, old(clock.Now(sentAt))), batchSize);
              && requestLog == old(requestLog) + [Sent(cp, q)]
              && (if server(q).status == 200
                  then && r == Ok(Pulled(server(q).rows, NextCheckpoint(cp, server(q).rows)))
                       && clock.state == SyncClock.Captured(old(clock.state), server(q).date, readAt)
                       && successes == old(successes) + 1
                  else r == Err(server(q).status) && clock.state == old(clock.state) && successes == old(successes))
    {
      var cp := NormalizeCheckpoint(raw);
      var q := PullQuery(raw, WindowAt(kind, clock.Now(sentAt)), batchSize);
      requestLog := requestLog + [Sent(cp, q)];
      var res := server(q);
      if res.status != 200 {
        return Err(res.status);
      }
      var _ := clock.CaptureFromResponse(res.date, readAt);
      successes := successes + 1;
      r := Ok(Pulled(res.rows, if |res.rows| > 0 then KeyOf(res.rows[|res.rows| - 1]) else cp));
    }
  }

  // ----- the walk over a quiet table -----

  /** Rows above the checkpoint and inside the window: what remains to be delivered. */
  ghost function Remaining(t: Table, cp: Key, window: Option<int>): set<Row> {
    set r | r in t.Values && Wanted(r, cp, window)
  }

  lemma ServeRemaining(t: Table, cp: Key, window: Option<int>, n: nat)
    requires Keyed(t)
    ensures DistinctKeys(Remaining(t, cp, window))
    ensures Serve(t, BuildPull(cp, window, n)) == Take(Ordered(Remaining(t, cp, window)), n)
  {
    TableKeysDistinct(t);
    forall r | r in t.Values ensures Satisfies(r, BuildPull(cp, window, n)) <==> Wanted(r, cp, window) {
      PullMeans(r, cp, window, n);
    }
    assert Matching(t, BuildPull(cp, window, n)) == Remaining(t, cp, window);
  }

  /** Cutting a sorted list after position k leaves exactly what lies above the k-th key. */
  lemma CutAt(sorted: seq<Row>, k: nat, r: Row)
    requires Ascending(sorted) && k < |sorted|
    ensures r in sorted[k + 1..] <==> r in sorted && Below(KeyOf(sorted[k]), KeyOf(r))
  {
    if r in sorted[k + 1..] {
      var i :| 0 <= i < |sorted[k + 1..]| && sorted[k + 1..][i] == r;
      assert sorted[k + 1 + i] == r;
    }
    if r in sorted && Below(KeyOf(sorted[k]), KeyOf(r)) {
      var i :| 0 <= i < |sorted| && sorted[i] == r;
      assert i > k;
      assert sorted[k + 1..][i - k - 1] == r;
    }
  }

  lemma RemainingAfter(t: Table, cp: Key, window: Option<int>, k: nat)
    requires Keyed(t) && DistinctKeys(Remaining(t, cp, window)) && k < |Ordered(Remaining(t, cp, window))|
    ensures var sorted := Ordered(Remaining(t, cp, window));
            && Below(cp, KeyOf(sorted[k])) && DistinctKeys(Remaining(t, KeyOf(sorted[k]), window))
            && sorted[k + 1..] == Ordered(Remaining(t, KeyOf(sorted[k]), window))
  {
    var sorted := Ordered(Remaining(t, cp, window));
    var rest := Remaining(t, KeyOf(sorted[k]), window);
    assert sorted[k] in Remaining(t, cp, window);
    TableKeysDistinct(t);
    forall r ensures r in sorted[k + 1..] <==> r in rest {
      CutAt(sorted, k, r);
    }
    AscendingUnique(sorted[k + 1..], Ordered(rest));
  }

  lemma TakeSplits(sorted: seq<Row>, n: nat)
    requires n >= 1 && sorted != []
    ensures var batch := Take(sorted, n);
            batch != [] && batch[|batch| - 1] == sorted[|batch| - 1] && sorted == batch + sorted[|batch|..]
  {
  }

  /** The rest after a batch is exactly what the advanced checkpoint selects. */
  lemma BatchAdvances(t: Table, cp: Key, window: Option<int>, n: nat)
    requires Keyed(t) && n >= 1
    ensures var all := Remaining(t, cp, window);
            var batch := Serve(t, BuildPull(cp, window, n));
            var cp' := NextCheckpoint(cp, batch);
            && DistinctKeys(all) && DistinctKeys(Remaining(t, cp', window))
            && AtMost(cp, cp') && (batch == [] <==> all == {})
            && Ordered(all) == batch + Ordered(Remaining(t, cp', window))
  {
    hide KeyOrder, BuildPull, DistinctKeys, Ascending;
    ServeRemaining(t, cp, window, n);
    var sorted := Ordered(Remaining(t, cp, window));
    if sorted != [] {
      TakeSplits(sorted, n);
      RemainingAfter(t, cp, window, |Take(sorted, n)| - 1);
    }
  }

  /** Pull until a batch comes back empty, each time with what RxDB stored after the one before. */
  ghost function Walk(t: Table, raw: Option<RawCheckpoint>, window: Option<int>, n: nat): seq<Row>
    requires Keyed(t) && n >= 1
    decreases |Remaining(t, NormalizeCheckpoint(raw), window)|
  {
    var cp := NormalizeCheckpoint(raw);
    var batch := Serve(t, PullQuery(raw, window, n));
    if batch == [] then []
    else
      BatchAdvances(t, cp, window, n);
      batch + Walk(t, Stored(NextCheckpoint(cp, batch)), window, n)
  }

  /**
   From whatever RxDB hands back, for any batch size and ties of any length, the walk ends and delivers each row
   above that checkpoint exactly once, in key order.
   */
  lemma {:induction false} WalkDeliversAll(t: Table, raw: Option<RawCheckpoint>, window: Option<int>, n: nat)
    requires Keyed(t) && n >= 1
    ensures var all := Remaining(t, NormalizeCheckpoint(raw), window);
            DistinctKeys(all) && Walk(t, raw, window, n) == Ordered(all)
    decreases |Remaining(t, NormalizeCheckpoint(raw), window)|
  {
    var cp := NormalizeCheckpoint(raw);
    BatchAdvances(t, cp, window, n);
    var batch := Serve(t, PullQuery(raw, window, n));
    if batch != [] {
      WalkDeliversAll(t, Stored(NextCheckpoint(cp, batch)), window, n);
    }
  }
}
