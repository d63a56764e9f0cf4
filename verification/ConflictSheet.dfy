/**
 The overwritten-answers sheet: which records it holds, how they are grouped and counted, the retention
 sweep over the local store, and the document chips.
 */
module ConflictSheet {
  import opened Prelude
  import Text

  const COLLAPSE_MAX_ROWS_PER_GROUP: nat := 2
  const MS_PER_DAY: int := 86_400_000

  datatype Status = Open | Restored | Kept | Dismissed

  /** `overwrittenAt` is None where the stamp does not parse; `hasDiscarded` is a discarded value that is not null. */
  datatype Record = Record(
    id: string, docId: string, submissionId: string, hasDiscarded: bool, fieldRemoved: bool,
    status: Status, overwrittenAt: Option<int>)

  // ----- retention -----

  /** The start of the window of `days` days that ends now. */
  function Floor(now: int, days: int): int { now - days * MS_PER_DAY }

  predicate Retained(r: Record, floor: int) {
    r.overwrittenAt.Some? ==> r.overwrittenAt.value >= floor
  }

  lemma {:induction false} WhereTwice(rs: seq<Record>, f: Record -> bool, g: Record -> bool)
    ensures Where(Where(rs, f), g) == Where(rs, r => f(r) && g(r))
    decreases |rs|
  {
    if rs != [] {
      var front, last := rs[..|rs| - 1], rs[|rs| - 1];
      WhereTwice(front, f, g);
      if f(last) {
        var kept := Where(front, f);
        assert (kept + [last])[..|kept + [last]| - 1] == kept;
      } else {
        assert Where(rs, f) == Where(front, f);
      }
    }
  }

  lemma {:induction false} WhereSame(rs: seq<Record>, f: Record -> bool, g: Record -> bool)
    requires forall r :: r in rs ==> f(r) == g(r)
    ensures Where(rs, f) == Where(rs, g)
    decreases |rs|
  {
    if rs != [] {
      assert rs[|rs| - 1] in rs;
      WhereSame(rs[..|rs| - 1], f, g);
    }
  }

  function WithinRetention(rs: seq<Record>, floor: int): seq<Record> {
    Where(rs, (r: Record) => Retained(r, floor))
  }

  // ----- the store and its sweep -----

  predicate DistinctIds(rs: seq<Record>) {
    forall i, j :: 0 <= i < j < |rs| ==> rs[i].id != rs[j].id
  }

  function IndexOf(rs: seq<Record>, id: string): (i: nat)
    ensures i <= |rs| && (i < |rs| ==> rs[i].id == id) && forall j :: 0 <= j < i ==> rs[j].id != id
  {
    FirstIndex(rs, (r: Record) => r.id == id)
  }

  class MemoryStore {
    var rows: seq<Record>

    constructor (seed: seq<Record>)
      ensures rows == seed
    {
      rows := seed;
    }

    /** Replace the first row with the record's id where it stands, or append: counting rule 5. */
    method Upsert(rec: Record)
      modifies this
      ensures var i := IndexOf(old(rows), rec.id);
              rows == if i < |old(rows)| then old(rows)[i := rec] else old(rows) + [rec]
      ensures DistinctIds(old(rows)) ==> DistinctIds(rows)
    {
      var i := 0;
      while i < |rows| && rows[i].id != rec.id
        invariant 0 <= i <= |rows| && rows == old(rows)
        invariant forall j :: 0 <= j < i ==> rows[j].id != rec.id
      {
        i := i + 1;
      }
      if i < |rows| {
        rows := rows[i := rec];
      } else {
        rows := rows + [rec];
      }
    }

    method Remove(id: string)
      modifies this
      ensures rows == Where(old(rows), (r: Record) => r.id != id)
    {
      var out: seq<Record> := [];
      var i := 0;
      while i < |rows|
        invariant 0 <= i <= |rows| && rows == old(rows)
        invariant out == Where(rows[..i], (r: Record) => r.id != id)
      {
        assert rows[..i + 1][..i] == rows[..i];
        if rows[i].id != id { out := out + [rows[i]]; }
        i := i + 1;
      }
      assert rows[..i] == rows;
      rows := out;
    }

    /**
     sweepExpired: remove every record whose id no retained record carries; where ids are distinct, as the store
     keeps them, the records left are those with an unreadable stamp or one inside the window, in order.
     */
    method Sweep(now: int, days: int) returns (removed: nat)
      modifies this
      ensures rows == Where(old(rows), (r: Record) => KeptBy(old(rows), Floor(now, days), r.id))
      ensures DistinctIds(old(rows)) ==>
                rows == Where(old(rows), (r: Record) =>
                  r.overwrittenAt.None? || r.overwrittenAt.value >= now - days * 86_400_000)
      ensures removed == |old(rows)| - |rows|
    {
      hide Where, KeptBy, Survives, CountGone, DistinctIds;
      var all, floor := rows, Floor(now, days);
      removed := 0;
      var i := 0;
      NothingGone(all, floor);
      while i < |all|
        invariant 0 <= i <= |all|
        invariant rows == Where(all, Survives(all, floor, i))
        invariant removed == CountGone(all[..i], all, floor)
      {
        GoneNext(all, floor, i);
        if !KeptBy(all, floor, all[i].id) {
          DropOne(all, floor, i);
          Remove(all[i].id);
          removed := removed + 1;
        } else {
          KeepOne(all, floor, i);
        }
        i := i + 1;
      }
      assert all[..i] == all;
      SurvivorsAreKept(all, floor);
      CountGoneIs(all, all, floor);
      if DistinctIds(all) {
        SweepLeavesRetained(all, now, days);
      }
    }
  }

  /** Still in the store when the sweep has gone through the first n records. */
  function Survives(all: seq<Record>, floor: int, n: nat): Record -> bool {
    (r: Record) => KeptBy(all, floor, r.id) || forall j :: 0 <= j < n && j < |all| ==> all[j].id != r.id
  }

  lemma NothingGone(all: seq<Record>, floor: int)
    ensures Where(all, Survives(all, floor, 0)) == all && CountGone(all[..0], all, floor) == 0
  {
    WhereAll(all, Survives(all, floor, 0));
  }

  lemma KeepOne(all: seq<Record>, floor: int, n: nat)
    requires n < |all| && KeptBy(all, floor, all[n].id)
    ensures Where(all, Survives(all, floor, n)) == Where(all, Survives(all, floor, n + 1))
  {
    WhereSame(all, Survives(all, floor, n), Survives(all, floor, n + 1));
  }

  lemma SurvivorsAreKept(all: seq<Record>, floor: int)
    ensures Where(all, Survives(all, floor, |all|)) == Where(all, (r: Record) => KeptBy(all, floor, r.id))
  {
    WhereSame(all, Survives(all, floor, |all|), (r: Record) => KeptBy(all, floor, r.id));
  }

  lemma DropOne(all: seq<Record>, floor: int, n: nat)
    requires n < |all| && !KeptBy(all, floor, all[n].id)
    ensures Where(Where(all, Survives(all, floor, n)), (r: Record) => r.id != all[n].id)
            == Where(all, Survives(all, floor, n + 1))
  {
    var f, g := Survives(all, floor, n), (r: Record) => r.id != all[n].id;
    WhereTwice(all, f, g);
    WhereSame(all, r => f(r) && g(r), Survives(all, floor, n + 1));
  }

  predicate KeptBy(all: seq<Record>, floor: int, id: string) {
    exists i :: 0 <= i < |all| && all[i].id == id && Retained(all[i], floor)
  }

  lemma {:induction false} WhereAll(rs: seq<Record>, keep: Record -> bool)
    requires forall r :: r in rs ==> keep(r)
    ensures Where(rs, keep) == rs
    decreases |rs|
  {
    if rs != [] {
      assert rs[|rs| - 1] in rs;
      WhereAll(rs[..|rs| - 1], keep);
    }
  }

  function CountGone(rs: seq<Record>, all: seq<Record>, floor: int): nat {
    if rs == [] then 0
    else CountGone(rs[..|rs| - 1], all, floor) + if KeptBy(all, floor, rs[|rs| - 1].id) then 0 else 1
  }

  lemma GoneNext(all: seq<Record>, floor: int, n: nat)
    requires n < |all|
    ensures CountGone(all[..n + 1], all, floor)
            == CountGone(all[..n], all, floor) + if KeptBy(all, floor, all[n].id) then 0 else 1
  {
    assert all[..n + 1][..n] == all[..n];
  }

  lemma {:induction false} CountGoneIs(rs: seq<Record>, all: seq<Record>, floor: int)
    ensures CountGone(rs, all, floor) == |rs| - |Where(rs, (r: Record) => KeptBy(all, floor, r.id))|
    decreases |rs|
  {
    if rs != [] {
      CountGoneIs(rs[..|rs| - 1], all, floor);
    }
  }

  /** With distinct ids a sweep leaves the records in retention, in order. */
  lemma SweepLeavesRetained(rs: seq<Record>, now: int, days: int)
    requires DistinctIds(rs)
    ensures Where(rs, (r: Record) => KeptBy(rs, Floor(now, days), r.id)) == WithinRetention(rs, Floor(now, days))
            == Where(rs, (r: Record) => r.overwrittenAt.None? || r.overwrittenAt.value >= now - days * 86_400_000)
  {
    var floor := Floor(now, days);
    forall r | r in rs ensures KeptBy(rs, floor, r.id) == Retained(r, floor) {
      var i :| 0 <= i < |rs| && rs[i] == r;
      if KeptBy(rs, floor, r.id) {
        var j :| 0 <= j < |rs| && rs[j].id == r.id && Retained(rs[j], floor);
        assert i == j;
      }
    }
    WhereSame(rs, (r: Record) => KeptBy(rs, floor, r.id), (r: Record) => Retained(r, floor));
    WithinMeans(rs, now, days);
  }

  /** Retention: an unreadable stamp is kept, any other must lie in the window. */
  lemma WithinMeans(rs: seq<Record>, now: int, days: int)
    ensures WithinRetention(rs, Floor(now, days))
            == Where(rs, (r: Record) => r.overwrittenAt.None? || r.overwrittenAt.value >= now - days * 86_400_000)
  {
    WhereSame(rs, (r: Record) => Retained(r, Floor(now, days)),
              (r: Record) => r.overwrittenAt.None? || r.overwrittenAt.value >= now - days * 86_400_000);
  }

  // ----- the sheet -----

  datatype Kind = Answer | Removed | Unidentified

  function KindOf(r: Record): Kind {
    if !r.hasDiscarded then Unidentified else if r.fieldRemoved then Removed else Answer
  }

  predicate Handled(r: Record) { r.status == Restored || r.status == Kept }

  predicate IsAnswer(r: Record) { KindOf(r) != Unidentified }

  /** Counting rule 7: still to review, and with a field to write back to. */
  predicate IsBatchTarget(r: Record) { KindOf(r) == Answer && !Handled(r) }

  function GroupKey(r: Record): string {
    if r.docId != "" then r.docId else if r.submissionId != "" then r.submissionId else r.id
  }

  datatype Group = Group(docId: string, rows: seq<Record>)

  function Count(rs: seq<Record>, p: Record -> bool): nat { |Where(rs, p)| }

  /** A record count as a weight on groups. */
  function Counting(p: Record -> bool): Group -> nat { (g: Group) => Count(g.rows, p) }

  function ChipBase(g: Group): nat { Count(g.rows, IsAnswer) }

  function ChipPlus(g: Group): nat { Count(g.rows, Not(IsAnswer)) }

  function At(gs: seq<Group>, key: string): (i: nat)
    ensures i <= |gs| && (i < |gs| ==> gs[i].docId == key) && forall j :: 0 <= j < i ==> gs[j].docId != key
  {
    FirstIndex(gs, (g: Group) => g.docId == key)
  }

  function AddTo(gs: seq<Group>, r: Record): seq<Group> {
    var i := At(gs, GroupKey(r));
    if i < |gs| then gs[i := Group(gs[i].docId, gs[i].rows + [r])] else gs + [Group(GroupKey(r), [r])]
  }

  /** Groups in the order their documents first appear. */
  function Grouped(rs: seq<Record>): seq<Group> {
    if rs == [] then [] else AddTo(Grouped(rs[..|rs| - 1]), rs[|rs| - 1])
  }

  lemma FirstPlace(gs: seq<Group>, r: Record, i: nat)
    requires i <= |gs| && (i < |gs| ==> gs[i].docId == GroupKey(r))
    requires forall j :: 0 <= j < i ==> gs[j].docId != GroupKey(r)
    ensures AddTo(gs, r) ==
            if i < |gs| then gs[i := Group(gs[i].docId, gs[i].rows + [r])] else gs + [Group(GroupKey(r), [r])]
  {
    assert At(gs, GroupKey(r)) == i;
  }

  lemma GroupedNext(rs: seq<Record>, n: nat)
    requires n < |rs|
    ensures Grouped(rs[..n + 1]) == AddTo(Grouped(rs[..n]), rs[n])
  {
    assert rs[..n + 1][..n] == rs[..n];
  }

  method GroupByDoc(rs: seq<Record>) returns (gs: seq<Group>)
    ensures gs == Grouped(rs)
  {
    gs := [];
    var n := 0;
    assert gs == Grouped(rs[..0]);
    hide Grouped, AddTo, At;
    while n < |rs|
      invariant 0 <= n <= |rs| && gs == Grouped(rs[..n])
    {
      var key := GroupKey(rs[n]);
      var i := 0;
      while i < |gs| && gs[i].docId != key
        invariant 0 <= i <= |gs|
        invariant forall j :: 0 <= j < i ==> gs[j].docId != key
      {
        i := i + 1;
      }
      FirstPlace(gs, rs[n], i);
      GroupedNext(rs, n);
      if i < |gs| {
        gs := gs[i := Group(gs[i].docId, gs[i].rows + [rs[n]])];
      } else {
        gs := gs + [Group(key, [rs[n]])];
      }
      n := n + 1;
    }
    assert rs[..n] == rs;
  }

  function Total<T>(gs: seq<T>, f: T -> nat): nat {
    if gs == [] then 0 else Total(gs[..|gs| - 1], f) + f(gs[|gs| - 1])
  }

  lemma {:induction false} TotalSplit<T>(gs: seq<T>, hs: seq<T>, f: T -> nat)
    ensures Total(gs + hs, f) == Total(gs, f) + Total(hs, f)
    decreases |hs|
  {
    if hs == [] {
      assert gs + hs == gs;
    } else {
      assert (gs + hs)[..|gs + hs| - 1] == gs + hs[..|hs| - 1];
      TotalSplit(gs, hs[..|hs| - 1], f);
    }
  }

  lemma TotalOne<T>(g: T, f: T -> nat)
    ensures Total([g], f) == f(g)
  {
    assert [g][..0] == [];
  }

  lemma TotalAround<T>(before: seq<T>, g: T, after: seq<T>, f: T -> nat)
    ensures Total(before + [g] + after, f) == Total(before, f) + f(g) + Total(after, f)
  {
    TotalSplit(before + [g], after, f);
    TotalSplit(before, [g], f);
    TotalOne(g, f);
  }

  lemma TotalPut<T>(gs: seq<T>, i: nat, g: T, f: T -> nat)
    requires i < |gs|
    ensures Total(gs[i := g], f) == Total(gs, f) - f(gs[i]) + f(g)
  {
    TotalAround(gs[..i], gs[i], gs[i + 1..], f);
    TotalAround(gs[..i], g, gs[i + 1..], f);
    assert gs == gs[..i] + [gs[i]] + gs[i + 1..];
    assert gs[i := g] == gs[..i] + [g] + gs[i + 1..];
  }

  lemma CountMore(rs: seq<Record>, r: Record, p: Record -> bool)
    ensures Count(rs + [r], p) == Count(rs, p) + if p(r) then 1 else 0
  {
    assert (rs + [r])[..|rs + [r]| - 1] == rs;
  }

  lemma AddToCounts(gs: seq<Group>, r: Record, p: Record -> bool)
    ensures Total(AddTo(gs, r), Counting(p)) == Total(gs, Counting(p)) + if p(r) then 1 else 0
  {
    var i := At(gs, GroupKey(r));
    if i < |gs| {
      TotalPut(gs, i, Group(gs[i].docId, gs[i].rows + [r]), Counting(p));
      CountMore(gs[i].rows, r, p);
    } else {
      var g := Group(GroupKey(r), [r]);
      TotalSplit(gs, [g], Counting(p));
      TotalOne(g, Counting(p));
      CountMore([], r, p);
      assert [] + [r] == [r];
    }
  }

  /** Counting any kind of record group by group counts it over the whole sheet. */
  lemma {:induction false} GroupingCounts(rs: seq<Record>, p: Record -> bool)
    ensures Total(Grouped(rs), Counting(p)) == Count(rs, p)
    decreases |rs|
  {
    if rs != [] {
      GroupingCounts(rs[..|rs| - 1], p);
      AddToCounts(Grouped(rs[..|rs| - 1]), rs[|rs| - 1], p);
    }
  }

  /** A group holds only its own document's records, and no other group does. */
  predicate Sorted(gs: seq<Group>) {
    && (forall i, j :: 0 <= i < j < |gs| ==> gs[i].docId != gs[j].docId)
    && (forall i, k :: 0 <= i < |gs| && 0 <= k < |gs[i].rows| ==> GroupKey(gs[i].rows[k]) == gs[i].docId)
  }

  lemma AddToSorted(gs: seq<Group>, r: Record)
    requires Sorted(gs)
    ensures Sorted(AddTo(gs, r))
  {
    assert At(gs, GroupKey(r)) < |gs| ==> gs[At(gs, GroupKey(r))].docId == GroupKey(r);
  }

  lemma {:induction false} GroupsAreDocuments(rs: seq<Record>)
    ensures Sorted(Grouped(rs))
    decreases |rs|
  {
    if rs != [] {
      GroupsAreDocuments(rs[..|rs| - 1]);
      AddToSorted(Grouped(rs[..|rs| - 1]), rs[|rs| - 1]);
    }
  }

  function Both(p: Record -> bool, q: Record -> bool): Record -> bool { r => p(r) && q(r) }

  function Not(p: Record -> bool): Record -> bool { r => !p(r) }

  lemma {:induction false} CountSplits(rs: seq<Record>, p: Record -> bool, q: Record -> bool)
    ensures Count(rs, p) == Count(rs, Both(p, q)) + Count(rs, Both(p, Not(q)))
    decreases |rs|
  {
    if rs != [] {
      CountSplits(rs[..|rs| - 1], p, q);
    }
  }

  lemma {:induction false} CountComplement(rs: seq<Record>, p: Record -> bool)
    ensures Count(rs, p) + Count(rs, Not(p)) == |rs|
    decreases |rs|
  {
    if rs != [] {
      CountComplement(rs[..|rs| - 1], p);
    }
  }

  datatype Totals = Totals(answers: nat, still: nat, handled: nat, unidentified: nat, checklists: nat)

  datatype Sheet = Sheet(totals: Totals, shown: seq<Group>, hiddenGroups: nat, hiddenAnswers: nat, collapsed: bool)

  /**
   The three sorts of the sheet: records within a group, groups newest first, which decides the groups that
   survive the cap, and the survivors in the order they are drawn.
   */
  datatype Sorts = Sorts(rows: seq<Record> -> seq<Record>, newestFirst: seq<Group> -> seq<Group>,
                         drawn: seq<Group> -> seq<Group>)

  function InEach(gs: seq<Group>, order: seq<Record> -> seq<Record>): seq<Group> {
    if gs == [] then []
    else InEach(gs[..|gs| - 1], order) + [Group(gs[|gs| - 1].docId, order(gs[|gs| - 1].rows))]
  }

  /** The rows of all groups, one group after another. */
  function Flattened(gs: seq<Group>): seq<Record> {
    if gs == [] then [] else Flattened(gs[..|gs| - 1]) + gs[|gs| - 1].rows
  }

  function SortedGroups(live: seq<Record>, sorts: Sorts): seq<Group> {
    sorts.newestFirst(InEach(Grouped(live), sorts.rows))
  }

  function TotalsOf(groups: seq<Group>): Totals {
    var allRows := Flattened(groups);
    var answerRows := Where(allRows, IsAnswer);
    Totals(|answerRows|, Count(answerRows, Not(Handled)), Count(answerRows, Handled), |allRows| - |answerRows|,
           |groups|)
  }

  /** How many records the batches of all groups would restore. */
  function BatchTotal(groups: seq<Group>): nat { Total(groups, Counting(IsBatchTarget)) }

  /** The sheet of the retained records. */
  function BuildSheet(live: seq<Record>, sorts: Sorts, maxGroups: nat): Sheet {
    var groups := SortedGroups(live, sorts);
    var cap := if |groups| <= maxGroups then |groups| else maxGroups;
    Sheet(TotalsOf(groups), sorts.drawn(groups[..cap]), |groups| - cap, Total(groups[cap..], Chipped()),
          |groups| > 1 || exists i :: 0 <= i < |groups| && |groups[i].rows| > COLLAPSE_MAX_ROWS_PER_GROUP)
  }

  ghost predicate Rearranges<T(!new)>(order: seq<T> -> seq<T>) {
    forall s: seq<T> :: multiset(order(s)) == multiset(s)
  }

  ghost predicate AllRearrange(sorts: Sorts) {
    Rearranges(sorts.rows) && Rearranges(sorts.newestFirst) && Rearranges(sorts.drawn)
  }

  lemma Cut<T>(hs: seq<T>, i: nat)
    requires i < |hs|
    ensures hs == hs[..i] + [hs[i]] + hs[i + 1..]
  {
  }

  lemma TotalWithout<T>(hs: seq<T>, i: nat, f: T -> nat)
    requires i < |hs|
    ensures Total(hs, f) == Total(hs[..i] + hs[i + 1..], f) + f(hs[i])
  {
    Cut(hs, i);
    TotalAround(hs[..i], hs[i], hs[i + 1..], f);
    TotalSplit(hs[..i], hs[i + 1..], f);
  }

  lemma MultisetWithout<T>(hs: seq<T>, i: nat)
    requires i < |hs|
    ensures multiset(hs[..i] + hs[i + 1..]) == multiset(hs) - multiset{hs[i]}
  {
    assert hs == hs[..i] + [hs[i]] + hs[i + 1..];
  }

  lemma {:induction false} TotalOfMultiset<T>(gs: seq<T>, hs: seq<T>, f: T -> nat)
    requires multiset(gs) == multiset(hs)
    ensures Total(gs, f) == Total(hs, f) && |gs| == |hs|
    decreases |gs|
  {
    assert |gs| == |multiset(gs)| == |hs|;
    if gs != [] {
      var front, g := gs[..|gs| - 1], gs[|gs| - 1];
      assert gs == front + [g];
      assert g in multiset(hs);
      var i :| 0 <= i < |hs| && hs[i] == g;
      TotalWithout(hs, i, f);
      MultisetWithout(hs, i);
      TotalOfMultiset(front, hs[..i] + hs[i + 1..], f);
    }
  }

  function RowCount(): Group -> nat { (g: Group) => |g.rows| }

  function Chipped(): Group -> nat { (g: Group) => ChipBase(g) + ChipPlus(g) }

  function One(p: Record -> bool): Record -> nat { (r: Record) => if p(r) then 1 else 0 }

  lemma {:induction false} CountIsTotal(rs: seq<Record>, p: Record -> bool)
    ensures Count(rs, p) == Total(rs, One(p))
    decreases |rs|
  {
    if rs != [] {
      CountIsTotal(rs[..|rs| - 1], p);
    }
  }

  lemma {:induction false} InEachCounts(gs: seq<Group>, order: seq<Record> -> seq<Record>, p: Record -> bool)
    requires Rearranges(order)
    ensures Total(InEach(gs, order), Counting(p)) == Total(gs, Counting(p)) && |InEach(gs, order)| == |gs|
    decreases |gs|
  {
    if gs != [] {
      var rows := gs[|gs| - 1].rows;
      InEachCounts(gs[..|gs| - 1], order, p);
      TotalOfMultiset(order(rows), rows, One(p));
      CountIsTotal(rows, p);
      CountIsTotal(order(rows), p);
    }
  }

  lemma {:induction false} FlattenedCounts(gs: seq<Group>, p: Record -> bool)
    ensures Count(Flattened(gs), p) == Total(gs, Counting(p))
    decreases |gs|
  {
    if gs != [] {
      var front, rows := gs[..|gs| - 1], gs[|gs| - 1].rows;
      FlattenedCounts(front, p);
      TotalSplit(Flattened(front), rows, One(p));
      CountIsTotal(Flattened(front), p);
      CountIsTotal(rows, p);
      CountIsTotal(Flattened(front) + rows, p);
    }
  }

  /** Whatever the sorts do, the rows flattened out of the groups count as the retained records do. */
  lemma SheetCounts(live: seq<Record>, sorts: Sorts, p: Record -> bool)
    requires AllRearrange(sorts)
    ensures Count(Flattened(SortedGroups(live, sorts)), p) == Count(live, p)
    ensures |SortedGroups(live, sorts)| == |Grouped(live)|
  {
    var each := InEach(Grouped(live), sorts.rows);
    FlattenedCounts(SortedGroups(live, sorts), p);
    TotalOfMultiset(SortedGroups(live, sorts), each, Counting(p));
    InEachCounts(Grouped(live), sorts.rows, p);
    GroupingCounts(live, p);
  }

  function Always(): Record -> bool { (r: Record) => true }

  lemma CountAlways(rs: seq<Record>)
    ensures Count(rs, Always()) == |rs|
  {
    WhereAll(rs, Always());
  }

  lemma WhereBoth(rs: seq<Record>, p: Record -> bool, q: Record -> bool)
    ensures Count(Where(rs, p), q) == Count(rs, Both(p, q))
  {
    WhereTwice(rs, p, q);
    WhereSame(rs, r => p(r) && q(r), Both(p, q));
  }

  /** The totals, counted over the grouped rows, are counts of the retained records and of their documents. */
  lemma TotalsMean(live: seq<Record>, sorts: Sorts)
    requires AllRearrange(sorts)
    ensures var t := TotalsOf(SortedGroups(live, sorts));
            && t.answers == Count(live, IsAnswer) && t.unidentified == Count(live, Not(IsAnswer))
            && t.still == Count(live, Both(IsAnswer, Not(Handled))) && t.handled == Count(live, Both(IsAnswer, Handled))
            && t.checklists == |Documents(live)|
  {
    var rows := Flattened(SortedGroups(live, sorts));
    SheetCounts(live, sorts, IsAnswer);
    SheetCounts(live, sorts, Not(IsAnswer));
    SheetCounts(live, sorts, Both(IsAnswer, Handled));
    SheetCounts(live, sorts, Both(IsAnswer, Not(Handled)));
    WhereBoth(rows, IsAnswer, Handled);
    WhereBoth(rows, IsAnswer, Not(Handled));
    CountComplement(rows, IsAnswer);
    GroupsPerDocument(live);
  }

  /** The documents that have a record. */
  function Documents(rs: seq<Record>): set<string> { set r | r in rs :: GroupKey(r) }

  lemma DocumentsMore(rs: seq<Record>, r: Record)
    ensures Documents(rs + [r]) == Documents(rs) + {GroupKey(r)}
  {
    forall d | d in Documents(rs) ensures d in Documents(rs + [r]) {
      var x :| x in rs && GroupKey(x) == d;
      assert x in rs + [r];
    }
    assert r in rs + [r];
  }

  function DocIds(gs: seq<Group>): set<string> { set g | g in gs :: g.docId }

  lemma AddToDocIds(gs: seq<Group>, r: Record)
    ensures DocIds(AddTo(gs, r)) == DocIds(gs) + {GroupKey(r)}
    ensures |AddTo(gs, r)| == |gs| + if GroupKey(r) in DocIds(gs) then 0 else 1
  {
    var i, hs := At(gs, GroupKey(r)), AddTo(gs, r);
    forall k | 0 <= k < |gs| ensures hs[k].docId == gs[k].docId && hs[k] in hs {
    }
    assert i < |hs| && hs[i] in hs && hs[i].docId == GroupKey(r);
  }

  /** The sheet's checklists are the documents that have a record. */
  lemma {:induction false} GroupsPerDocument(rs: seq<Record>)
    ensures |Grouped(rs)| == |Documents(rs)| && DocIds(Grouped(rs)) == Documents(rs)
    decreases |rs|
  {
    if rs != [] {
      var front, r := rs[..|rs| - 1], rs[|rs| - 1];
      GroupsPerDocument(front);
      assert rs == front + [r];
      DocumentsMore(front, r);
      AddToDocIds(Grouped(front), r);
    }
  }

  lemma {:induction false} ChipsAreRows(gs: seq<Group>)
    ensures Total(gs, Chipped()) == Total(gs, RowCount()) == Total(gs, Counting(Always()))
    decreases |gs|
  {
    if gs != [] {
      ChipsAreRows(gs[..|gs| - 1]);
      CountComplement(gs[|gs| - 1].rows, IsAnswer);
      CountAlways(gs[|gs| - 1].rows);
    }
  }

  /**
   Conservation: shown rows and hidden answers add up to the records in retention, answers are those still
   to review plus those handled, and every retained record is either an answer or counted unidentified.
   */
  lemma SheetConserves(live: seq<Record>, sorts: Sorts, maxGroups: nat)
    requires AllRearrange(sorts)
    ensures var s := BuildSheet(live, sorts, maxGroups);
            && Total(s.shown, RowCount()) + s.hiddenAnswers == |live|
            && |s.shown| + s.hiddenGroups == s.totals.checklists && |s.shown| <= maxGroups
            && s.totals.still + s.totals.handled == s.totals.answers
            && s.totals.answers + s.totals.unidentified == |live|
  {
    var groups := SortedGroups(live, sorts);
    var cap := if |groups| <= maxGroups then |groups| else maxGroups;
    SheetCounts(live, sorts, Always());
    FlattenedCounts(groups, Always());
    CountAlways(live);
    ChipsAreRows(groups);
    assert groups == groups[..cap] + groups[cap..];
    TotalSplit(groups[..cap], groups[cap..], RowCount());
    ChipsAreRows(groups[cap..]);
    TotalOfMultiset(sorts.drawn(groups[..cap]), groups[..cap], RowCount());
    TotalsMean(live, sorts);
    CountSplits(live, IsAnswer, Handled);
    CountComplement(live, IsAnswer);
  }

  /** The sheet of all records, at a time and for a window. */
  function SheetOf(rs: seq<Record>, now: int, days: int, sorts: Sorts, maxGroups: nat): Sheet {
    BuildSheet(WithinRetention(rs, Floor(now, days)), sorts, maxGroups)
  }

  /** Stamped inside the window, or unreadably. */
  predicate InWindow(r: Record, now: int, days: int) {
    r.overwrittenAt.None? || r.overwrittenAt.value >= now - days * 86_400_000
  }

  lemma CountWithin(rs: seq<Record>, now: int, days: int, p: Record -> bool, q: Record -> bool)
    requires forall r :: q(r) <==> InWindow(r, now, days) && p(r)
    ensures Count(WithinRetention(rs, Floor(now, days)), p) == Count(rs, q)
  {
    var within := (r: Record) => r.overwrittenAt.None? || r.overwrittenAt.value >= now - days * 86_400_000;
    WithinMeans(rs, now, days);
    WhereBoth(rs, within, p);
    WhereSame(rs, Both(within, p), q);
  }

  /** The documents of the records in the window: the document's id, else the submission's, else the record's. */
  lemma DocumentsWithin(rs: seq<Record>, now: int, days: int)
    ensures Documents(WithinRetention(rs, Floor(now, days)))
            == set r | r in rs && InWindow(r, now, days) ::
                 if r.docId != "" then r.docId else if r.submissionId != "" then r.submissionId else r.id
  {
    WhereMeans(rs, (r: Record) => Retained(r, Floor(now, days)));
  }

  /**
   What the sheet counts, in the records' own fields: answers are the retained records with a discarded value,
   handled the restored and the kept ones, unidentified those without a value; checklists are documents.
   */
  lemma SheetMeans(rs: seq<Record>, now: int, days: int, sorts: Sorts, maxGroups: nat)
    requires AllRearrange(sorts)
    ensures var t := SheetOf(rs, now, days, sorts, maxGroups).totals;
            && t.answers == Count(rs, (r: Record) => InWindow(r, now, days) && r.hasDiscarded)
            && t.unidentified == Count(rs, (r: Record) => InWindow(r, now, days) && !r.hasDiscarded)
            && t.handled == Count(rs, (r: Record) =>
                 InWindow(r, now, days) && r.hasDiscarded && (r.status == Restored || r.status == Kept))
            && t.still == Count(rs, (r: Record) =>
                 InWindow(r, now, days) && r.hasDiscarded && (r.status == Open || r.status == Dismissed))
            && t.checklists == |set r | r in rs && InWindow(r, now, days) ::
                 if r.docId != "" then r.docId else if r.submissionId != "" then r.submissionId else r.id|
  {
    TotalsMean(WithinRetention(rs, Floor(now, days)), sorts);
    DocumentsWithin(rs, now, days);
    hide Count, InWindow, WithinRetention, TotalsOf, SortedGroups, Documents;
    CountWithin(rs, now, days, IsAnswer, (r: Record) => InWindow(r, now, days) && r.hasDiscarded);
    CountWithin(rs, now, days, Not(IsAnswer), (r: Record) => InWindow(r, now, days) && !r.hasDiscarded);
    CountWithin(rs, now, days, Both(IsAnswer, Handled), (r: Record) =>
      InWindow(r, now, days) && r.hasDiscarded && (r.status == Restored || r.status == Kept));
    CountWithin(rs, now, days, Both(IsAnswer, Not(Handled)), (r: Record) =>
      InWindow(r, now, days) && r.hasDiscarded && (r.status == Open || r.status == Dismissed));
  }

  /**
   The batches restore the open answers that still have a field; that is all that is still to review unless
   some of it is a removed field's.
   */
  lemma BatchesMean(live: seq<Record>, sorts: Sorts)
    requires AllRearrange(sorts)
    ensures var groups := SortedGroups(live, sorts);
            && BatchTotal(groups) == Count(live, (r: Record) =>
                 r.hasDiscarded && !r.fieldRemoved && r.status != Restored && r.status != Kept)
            && TotalsOf(groups).still == BatchTotal(groups) + Count(live, (r: Record) =>
                 r.hasDiscarded && r.fieldRemoved && r.status != Restored && r.status != Kept)
  {
    hide TotalsOf, SortedGroups, Flattened;
    var still := Both(IsAnswer, Not(Handled));
    var whole := (r: Record) => !r.fieldRemoved;
    SheetCounts(live, sorts, IsBatchTarget);
    FlattenedCounts(SortedGroups(live, sorts), IsBatchTarget);
    TotalsMean(live, sorts);
    CountSplits(live, still, whole);
    WhereSame(live, Both(still, whole), IsBatchTarget);
    WhereSame(live, IsBatchTarget, (r: Record) =>
      r.hasDiscarded && !r.fieldRemoved && r.status != Restored && r.status != Kept);
    WhereSame(live, Both(still, Not(whole)), (r: Record) =>
      r.hasDiscarded && r.fieldRemoved && r.status != Restored && r.status != Kept);
  }

  /** The sheet folds its rows when they are of several documents, or more than two. */
  lemma CollapsedMeans(live: seq<Record>, sorts: Sorts, maxGroups: nat)
    requires AllRearrange(sorts)
    ensures var s := BuildSheet(live, sorts, maxGroups); s.collapsed <==> s.totals.checklists > 1 || |live| > 2
  {
    var groups := SortedGroups(live, sorts);
    SheetCounts(live, sorts, Always());
    FlattenedCounts(groups, Always());
    CountAlways(live);
    ChipsAreRows(groups);
    if |groups| == 1 {
      assert groups == [groups[0]];
      TotalOne(groups[0], RowCount());
    }
  }

  predicate Rising<T>(s: seq<T>, rank: T -> int) {
    forall i, j :: 0 <= i < j < |s| ==> rank(s[i]) <= rank(s[j])
  }

  /** The sorts are what they are named for, by some rank of records and of groups. */
  ghost predicate Orders(sorts: Sorts, at: Record -> int, newest: Group -> int) {
    && AllRearrange(sorts)
    && (forall rs :: Rising(sorts.rows(rs), at)) && (forall gs :: Rising(sorts.drawn(gs), newest))
    && (forall gs :: Rising(sorts.newestFirst(gs), (g: Group) => -newest(g)))
  }

  lemma {:induction false} EachIsRising(gs: seq<Group>, order: seq<Record> -> seq<Record>, at: Record -> int)
    requires forall rs :: Rising(order(rs), at)
    ensures forall g :: g in InEach(gs, order) ==> Rising(g.rows, at)
    decreases |gs|
  {
    if gs != [] {
      EachIsRising(gs[..|gs| - 1], order, at);
    }
  }

  /**
   The cap hides no group newer than one it shows; the shown ones are drawn oldest first, and so are the rows of
   each.
   */
  lemma CapKeepsNewest(live: seq<Record>, sorts: Sorts, at: Record -> int, newest: Group -> int, maxGroups: nat)
    requires Orders(sorts, at, newest)
    ensures var s := BuildSheet(live, sorts, maxGroups);
            && Rising(s.shown, newest) && (forall g :: g in s.shown ==> Rising(g.rows, at))
            && exists hidden: seq<Group> ::
                 && |hidden| == s.hiddenGroups
                 && multiset(s.shown) + multiset(hidden) == multiset(InEach(Grouped(live), sorts.rows))
                 && forall g, h :: g in s.shown && h in hidden ==> newest(g) >= newest(h)
  {
    hide Rising, BuildSheet, SortedGroups, InEach, Grouped;
    var each, groups := InEach(Grouped(live), sorts.rows), SortedGroups(live, sorts);
    var s := BuildSheet(live, sorts, maxGroups);
    var cap := SheetShows(live, sorts, maxGroups);
    EachIsRising(Grouped(live), sorts.rows, at);
    CapCuts(each, groups, s.shown, cap, newest);
    var hidden := groups[cap..];
    assert |hidden| == s.hiddenGroups;
  }

  /** How many groups are shown, and which. */
  lemma SheetShows(live: seq<Record>, sorts: Sorts, maxGroups: nat) returns (cap: nat)
    ensures var groups := SortedGroups(live, sorts);
            var s := BuildSheet(live, sorts, maxGroups);
            && groups == sorts.newestFirst(InEach(Grouped(live), sorts.rows))
            && cap <= |groups| && s.shown == sorts.drawn(groups[..cap]) && s.hiddenGroups == |groups| - cap
  {
    var groups := SortedGroups(live, sorts);
    cap := if |groups| <= maxGroups then |groups| else maxGroups;
  }

  lemma CapCuts(each: seq<Group>, groups: seq<Group>, drawn: seq<Group>, cap: nat, newest: Group -> int)
    requires multiset(groups) == multiset(each) && Rising(groups, (g: Group) => -newest(g))
    requires cap <= |groups| && multiset(drawn) == multiset(groups[..cap])
    ensures forall g :: g in drawn ==> g in each
    ensures |groups[cap..]| == |groups| - cap && multiset(drawn) + multiset(groups[cap..]) == multiset(each)
    ensures forall g, h :: g in drawn && h in groups[cap..] ==> newest(g) >= newest(h)
  {
    assert groups == groups[..cap] + groups[cap..];
    forall g | g in drawn ensures g in groups[..cap] && g in each {
      assert g in multiset(drawn) && g in multiset(groups[..cap]);
      assert g in multiset(groups) && g in multiset(each);
    }
    forall g, h | g in drawn && h in groups[cap..] ensures newest(g) >= newest(h) {
      var i :| 0 <= i < cap && groups[i] == g;
      var j :| 0 <= j < |groups[cap..]| && groups[cap..][j] == h;
      assert groups[cap + j] == h;
    }
  }

  /** The same record with another status. */
  predicate Restatused(r: Record, r': Record) { r' == r.(status := r'.status) }

  lemma {:induction false} RetainedAlike(rs: seq<Record>, rs': seq<Record>, floor: int)
    requires |rs| == |rs'| && forall i :: 0 <= i < |rs| ==> Restatused(rs[i], rs'[i])
    ensures var live, live' := WithinRetention(rs, floor), WithinRetention(rs', floor);
            |live| == |live'| && forall i :: 0 <= i < |live| ==> Restatused(live[i], live'[i])
    decreases |rs|
  {
    if rs != [] {
      RetainedAlike(rs[..|rs| - 1], rs'[..|rs| - 1], floor);
    }
  }

  lemma {:induction false} CountedAlike(rs: seq<Record>, rs': seq<Record>)
    requires |rs| == |rs'| && forall i :: 0 <= i < |rs| ==> Restatused(rs[i], rs'[i])
    ensures Count(rs, IsAnswer) == Count(rs', IsAnswer) && Documents(rs) == Documents(rs')
    decreases |rs|
  {
    if rs != [] {
      var n := |rs| - 1;
      CountedAlike(rs[..n], rs'[..n]);
      assert rs == rs[..n] + [rs[n]] && rs' == rs'[..n] + [rs'[n]];
      DocumentsMore(rs[..n], rs[n]);
      DocumentsMore(rs'[..n], rs'[n]);
    }
  }

  /**
   Restore, keep and undo change statuses: the headline, the unidentified count, the checklists and the sum
   of "still to review" and "handled" do not move, however the sheet is sorted before and after.
   */
  lemma HeadlineStable(rs: seq<Record>, rs': seq<Record>, floor: int, sorts: Sorts, sorts': Sorts, maxGroups: nat)
    requires |rs| == |rs'| && forall i :: 0 <= i < |rs| ==> Restatused(rs[i], rs'[i])
    requires AllRearrange(sorts) && AllRearrange(sorts')
    ensures var t := BuildSheet(WithinRetention(rs, floor), sorts, maxGroups).totals;
            var t' := BuildSheet(WithinRetention(rs', floor), sorts', maxGroups).totals;
            && t.answers == t'.answers && t.unidentified == t'.unidentified && t.checklists == t'.checklists
            && t.still + t.handled == t'.still + t'.handled
  {
    var live, live' := WithinRetention(rs, floor), WithinRetention(rs', floor);
    RetainedAlike(rs, rs', floor);
    CountedAlike(live, live');
    TotalsMean(live, sorts);
    TotalsMean(live', sorts');
    SheetConserves(live, sorts, maxGroups);
    SheetConserves(live', sorts', maxGroups);
  }

  // ----- the document chips -----

  /** `·`, which no generated document id contains. */
  const DOT: char := '\U{00b7}'

  predicate SubPrefixed(s: string) {
    && |s| >= 4 && (s[0] == 's' || s[0] == 'S') && (s[1] == 'u' || s[1] == 'U') && (s[2] == 'b' || s[2] == 'B')
    && (s[3] == '-' || s[3] == '_')
  }

  function WithoutDashes(s: string): (r: string)
    ensures forall c :: c in r ==> c in s
  {
    if s == "" then "" else (if s[0] == '-' then "" else [s[0]]) + WithoutDashes(s[1..])
  }

  function ShortDocId(s: string): string {
    if |s| <= 12 then s
    else
      var core := WithoutDashes(if SubPrefixed(s) then s[4..] else s);
      "sub_" + if |core| <= 6 then core else core[..6]
  }

  lemma {:induction false} DashesDropOut(a: string, c: char)
    ensures WithoutDashes(a + [c]) == WithoutDashes(a) + if c == '-' then "" else [c]
    decreases |a|
  {
    if a == "" {
      assert a + [c] == [c] && [c][1..] == "";
    } else {
      assert (a + [c])[1..] == a[1..] + [c];
      DashesDropOut(a[1..], c);
    }
  }

  lemma {:induction false} DashesAreDropped(s: string)
    ensures WithoutDashes(s) == Where(s, (c: char) => c != '-')
    decreases |s|
  {
    if s != "" {
      assert s == s[..|s| - 1] + [s[|s| - 1]];
      DashesDropOut(s[..|s| - 1], s[|s| - 1]);
      DashesAreDropped(s[..|s| - 1]);
    }
  }

  lemma PrefixSpelled(s: string)
    requires |s| >= 4
    ensures SubPrefixed(s) <==>
              s[..4] in {"sub-", "Sub-", "sUb-", "suB-", "SUb-", "SuB-", "sUB-", "SUB-",
                         "sub_", "Sub_", "sUb_", "suB_", "SUb_", "SuB_", "sUB_", "SUB_"}
  {
    assert s[..4] == [s[0], s[1], s[2], s[3]];
  }

  /** A short id is its own chip; a long one keeps six characters, without a leading sub- or sub_ and its hyphens. */
  lemma ShortForms(s: string)
    ensures ShortDocId(s) ==
              if |s| <= 12 then s
              else
                var named := s[..4] in {"sub-", "Sub-", "sUb-", "suB-", "SUb-", "SuB-", "sUB-", "SUB-",
                                        "sub_", "Sub_", "sUb_", "suB_", "SUb_", "SuB_", "sUB_", "SUB_"};
                var core := Where(if named then s[4..] else s, (c: char) => c != '-');
                "sub_" + if |core| <= 6 then core else core[..6]
  {
    if |s| > 12 {
      PrefixSpelled(s);
      hide SubPrefixed, WithoutDashes;
      DashesAreDropped(s);
      DashesAreDropped(s[4..]);
    }
  }

  lemma ShortHasNoDot(s: string)
    requires DOT !in s
    ensures DOT !in ShortDocId(s)
  {
    if |s| > 12 {
      var core := WithoutDashes(if SubPrefixed(s) then s[4..] else s);
      assert DOT !in core;
      assert DOT !in "sub_";
      assert DOT !in core[..if |core| <= 6 then |core| else 6];
    }
  }

  function Digit(d: nat): char
    requires d < 10
  {
    "0123456789"[d]
  }

  function Decimal(n: nat): string {
    if n < 10 then [Digit(n)] else Decimal(n / 10) + [Digit(n % 10)]
  }

  lemma {:induction false} DecimalInjective(m: nat, n: nat)
    requires Decimal(m) == Decimal(n)
    ensures m == n
    decreases m
  {
    DecimalLength(m);
    DecimalLength(n);
    var a, b := Decimal(m), Decimal(n);
    assert a[|a| - 1] == Digit(m % 10) && b[|b| - 1] == Digit(n % 10);
    if m >= 10 && n >= 10 {
      assert a[..|a| - 1] == Decimal(m / 10) && b[..|b| - 1] == Decimal(n / 10);
      DecimalInjective(m / 10, n / 10);
    }
  }

  lemma DecimalLength(n: nat)
    ensures |Decimal(n)| >= 1 && (n >= 10 <==> |Decimal(n)| >= 2)
  {
  }

  /** The i-th document sharing a chip, counting from zero. */
  function LabelAt(chip: string, i: nat): string {
    if i == 0 then chip else chip + [DOT] + Decimal(i + 1)
  }

  lemma {:induction false} DecimalNoDot(n: nat)
    ensures DOT !in Decimal(n)
  {
    if n >= 10 {
      DecimalNoDot(n / 10);
    }
  }

  lemma DotsApart(a: string, m: nat, b: string, n: nat)
    requires |a| < |b|
    ensures a + [DOT] + Decimal(m) != b + [DOT] + Decimal(n)
  {
    var x, y := a + [DOT] + Decimal(m), b + [DOT] + Decimal(n);
    DecimalNoDot(m);
    assert y[|b|] == DOT;
    if |b| < |x| {
      assert x[|b|] == Decimal(m)[|b| - |a| - 1];
    }
  }

  /** The last dot of a numbered chip is the one before its ordinal. */
  lemma LastDot(a: string, m: nat, b: string, n: nat)
    ensures a + [DOT] + Decimal(m) == b + [DOT] + Decimal(n) <==> a == b && m == n
  {
    var x, y := a + [DOT] + Decimal(m), b + [DOT] + Decimal(n);
    if |a| < |b| {
      DotsApart(a, m, b, n);
    } else if |b| < |a| {
      DotsApart(b, n, a, m);
    } else if x == y {
      assert a == x[..|a|] && b == y[..|b|];
      assert Decimal(m) == x[|a| + 1..] && Decimal(n) == y[|b| + 1..];
      DecimalInjective(m, n);
    }
  }

  /** Documents that share the chip of `id` and sort before it. */
  function Before(ids: set<string>, id: string): set<string> {
    set x | x in ids && ShortDocId(x) == ShortDocId(id) && x != id && Text.AtMost(x, id)
  }

  /** A document's chip depends on the set of documents on the sheet, not on the order they are drawn in. */
  function ChipOf(ids: set<string>, id: string): string {
    LabelAt(ShortDocId(id), |Before(ids, id)|)
  }

  lemma BeforeGrows(ids: set<string>, a: string, b: string)
    requires a in ids && b in ids && a != b && ShortDocId(a) == ShortDocId(b) && Text.AtMost(a, b)
    ensures |Before(ids, a)| < |Before(ids, b)|
  {
    Text.AtMostTotal(a, b);
    forall x | x in Before(ids, a) ensures x in Before(ids, b) {
      Text.AtMostTransitive(x, a, b);
      if x == b {
        Text.AtMostTotal(a, b);
      }
    }
    assert a in Before(ids, b) && a !in Before(ids, a);
    SubsetSize(Before(ids, a), Before(ids, b) - {a});
  }

  function SharersOf(ids: seq<string>, chip: string): seq<string> {
    if ids == [] then []
    else
      var before := SharersOf(ids[..|ids| - 1], chip);
      if ShortDocId(ids[|ids| - 1]) == chip then before + [ids[|ids| - 1]] else before
  }

  lemma {:induction false} SharersMean(ids: seq<string>, chip: string)
    requires Distinct(ids)
    ensures Distinct(SharersOf(ids, chip))
    ensures forall id :: id in SharersOf(ids, chip) <==> id in ids && ShortDocId(id) == chip
    decreases |ids|
  {
    if ids != [] {
      SharersMean(ids[..|ids| - 1], chip);
      assert ids == ids[..|ids| - 1] + [ids[|ids| - 1]];
    }
  }

  function Elements(ids: seq<string>): set<string> { set d | d in ids }

  lemma {:induction false} ElementsCount(s: seq<string>)
    requires Distinct(s)
    ensures |Elements(s)| == |s|
    decreases |s|
  {
    if s != [] {
      var front, last := s[..|s| - 1], s[|s| - 1];
      ElementsCount(front);
      assert s == front + [last];
      assert Elements(s) == Elements(front) + {last};
    }
  }

  /** Sorting the sharers of a chip puts each document at its rank. */
  lemma SortedRank(ids: seq<string>, chip: string, i: nat)
    requires Distinct(ids) && i < |Text.Sorted(SharersOf(ids, chip))|
    ensures var id := Text.Sorted(SharersOf(ids, chip))[i];
            id in ids && ShortDocId(id) == chip && |Before(Elements(ids), id)| == i
  {
    var sharers := SharersOf(ids, chip);
    var s := Text.Sorted(sharers);
    SharersMean(ids, chip);
    Text.SortedSorts(sharers);
    SameElements(sharers, s);
    var id := s[i];
    var all := Elements(ids);
    forall x ensures x in Before(all, id) <==> x in s[..i] {
      if x in Before(all, id) {
        var j :| 0 <= j < |s| && s[j] == x;
        Text.AtMostTotal(x, id);
        assert j < i;
        assert s[..i][j] == x;
      }
      if x in s[..i] {
        var j :| 0 <= j < i && s[j] == x;
        assert x in s && Text.AtMost(s[j], s[i]);
      }
    }
    assert Before(all, id) == Elements(s[..i]);
    ElementsCount(s[..i]);
  }

  /** A rearrangement of distinct elements is distinct and has the same elements. */
  lemma SameElements(a: seq<string>, b: seq<string>)
    requires multiset(a) == multiset(b) && Distinct(a)
    ensures Distinct(b) && forall x :: x in a <==> x in b
  {
    forall x ensures x in a <==> x in b {
      assert x in multiset(a) <==> x in multiset(b);
    }
    forall i, j | 0 <= i < j < |b| ensures b[i] != b[j] {
      if b[i] == b[j] {
        assert b == b[..i] + [b[i]] + b[i + 1..j] + [b[j]] + b[j + 1..];
        assert multiset(b)[b[i]] >= 2;
        OnceOnly(a, b[i]);
      }
    }
  }

  lemma {:induction false} OnceOnly(a: seq<string>, x: string)
    requires Distinct(a)
    ensures multiset(a)[x] <= 1
    decreases |a|
  {
    if a != [] {
      var front := a[..|a| - 1];
      OnceOnly(front, x);
      assert a == front + [a[|a| - 1]];
      assert x in front <==> multiset(front)[x] > 0;
    }
  }

  method Unique(docIds: seq<string>) returns (ids: seq<string>)
    ensures Distinct(ids) && forall d :: d in ids <==> d in docIds
  {
    ids := [];
    for n := 0 to |docIds|
      invariant Distinct(ids) && forall d :: d in ids <==> d in docIds[..n]
    {
      assert docIds[..n + 1] == docIds[..n] + [docIds[n]];
      if docIds[n] !in ids { ids := ids + [docIds[n]]; }
    }
    assert docIds[..|docIds|] == docIds;
  }

  /** The sharers of each short id, in the order the documents appear. */
  method ShareOut(ids: seq<string>) returns (byChip: map<string, seq<string>>)
    requires Distinct(ids)
    ensures forall id :: id in ids ==> ShortDocId(id) in byChip
    ensures forall c :: c in byChip ==> byChip[c] == SharersOf(ids, c)
  {
    byChip := map[];
    for n := 0 to |ids|
      invariant forall id :: id in ids[..n] ==> ShortDocId(id) in byChip
      invariant forall c :: c !in byChip ==> SharersOf(ids[..n], c) == []
      invariant forall c :: c in byChip ==> byChip[c] == SharersOf(ids[..n], c)
    {
      assert ids[..n + 1][..n] == ids[..n] && ids[..n + 1] == ids[..n] + [ids[n]];
      var chip := ShortDocId(ids[n]);
      byChip := byChip[chip := (if chip in byChip then byChip[chip] else []) + [ids[n]]];
    }
    assert ids[..|ids|] == ids;
  }

  lemma RankedLabel(ids: seq<string>, chip: string, i: nat)
    requires Distinct(ids) && i < |Text.Sorted(SharersOf(ids, chip))|
    ensures LabelAt(chip, i) == ChipOf(Elements(ids), Text.Sorted(SharersOf(ids, chip))[i])
  {
    SortedRank(ids, chip, i);
  }

  /** Number the sharers of one chip in order. */
  method Number(chip: string, ordered: seq<string>, given: map<string, string>, ghost chipOf: string -> string)
      returns (out: map<string, string>)
    requires forall i :: 0 <= i < |ordered| ==> LabelAt(chip, i) == chipOf(ordered[i])
    requires forall id :: id in given ==> given[id] == chipOf(id)
    ensures forall id :: id in out <==> id in given || id in ordered
    ensures forall id :: id in out ==> out[id] == chipOf(id)
  {
    out := given;
    for i := 0 to |ordered|
      invariant forall id :: id in out <==> id in given || id in ordered[..i]
      invariant forall id :: id in out ==> out[id] == chipOf(id)
    {
      assert ordered[..i + 1] == ordered[..i] + [ordered[i]];
      out := out[ordered[i] := if i == 0 then chip else chip + [DOT] + Decimal(i + 1)];
      assert out[ordered[i]] == LabelAt(chip, i);
    }
    assert ordered[..|ordered|] == ordered;
  }

  lemma SortedSharers(ids: seq<string>, chip: string)
    requires Distinct(ids)
    ensures forall id :: id in Text.Sorted(SharersOf(ids, chip)) <==> id in ids && ShortDocId(id) == chip
  {
    SharersMean(ids, chip);
    Text.SortedSorts(SharersOf(ids, chip));
    SameElements(SharersOf(ids, chip), Text.Sorted(SharersOf(ids, chip)));
  }

  /** assignDocChips: share out the short ids, then number each chip's sharers in id order. */
  method AssignDocChips(docIds: seq<string>) returns (out: map<string, string>)
    ensures out.Keys == Elements(docIds)
    ensures forall id :: id in out ==> out[id] == ChipOf(Elements(docIds), id)
  {
    var ids := Unique(docIds);
    assert Elements(ids) == Elements(docIds);
    ghost var chipOf := (id: string) => ChipOf(Elements(ids), id);
    var byChip := ShareOut(ids);
    out := map[];
    var todo := byChip.Keys;
    while todo != {}
      invariant todo <= byChip.Keys
      invariant forall id :: id in out <==> id in ids && ShortDocId(id) !in todo
      invariant forall id :: id in out ==> out[id] == chipOf(id)
      decreases |todo|
    {
      var chip :| chip in todo;
      var ordered := Text.Sorted(byChip[chip]);
      SortedSharers(ids, chip);
      forall i | 0 <= i < |ordered| ensures LabelAt(chip, i) == chipOf(ordered[i]) {
        RankedLabel(ids, chip, i);
      }
      out := Number(chip, ordered, out, chipOf);
      todo := todo - {chip};
    }
  }

  lemma PlainShort(s: string)
    requires |s| > 12 && '-' !in s && !SubPrefixed(s)
    ensures ShortDocId(s) == "sub_" + s[..6]
  {
    DashesGone(s);
  }

  lemma {:induction false} DashesGone(s: string)
    requires '-' !in s
    ensures WithoutDashes(s) == s
    decreases |s|
  {
    if s != "" {
      DashesGone(s[1..]);
    }
  }

  // ----- when the chips are distinct -----

  ghost predicate AllDistinct(ids: set<string>) {
    forall a, b :: a in ids && b in ids && a != b ==> ChipOf(ids, a) != ChipOf(ids, b)
  }

  function Sharers(ids: set<string>, chip: string): set<string> { set x | x in ids && ShortDocId(x) == chip }

  /** The short id of `x` spells the n-th chip of documents whose short id is `s`, and there are that many. */
  predicate Spells(ids: set<string>, x: string, s: string, n: nat) {
    x in ids && n >= 2 && ShortDocId(x) == s + [DOT] + Decimal(n) && |Sharers(ids, s)| >= n
  }

  lemma {:induction false} Listed(ids: set<string>) returns (s: seq<string>)
    ensures Distinct(s) && Elements(s) == ids
    decreases |ids|
  {
    if ids == {} {
      s := [];
    } else {
      var x :| x in ids;
      var rest := Listed(ids - {x});
      s := rest + [x];
      assert forall d :: d in rest <==> d in Elements(rest);
      assert forall d :: d in s <==> d in rest || d == x;
      assert Elements(s) == ids;
    }
  }

  /** Among the documents sharing a chip every rank is taken. */
  lemma Ranked(ids: set<string>, chip: string, i: nat) returns (id: string)
    requires i < |Sharers(ids, chip)|
    ensures id in ids && ChipOf(ids, id) == LabelAt(chip, i) && ShortDocId(id) == chip
  {
    var s := Listed(ids);
    var sharers := SharersOf(s, chip);
    SharersMean(s, chip);
    assert Elements(sharers) == Sharers(ids, chip);
    ElementsCount(sharers);
    Text.SortedSorts(sharers);
    assert |Text.Sorted(sharers)| == |multiset(Text.Sorted(sharers))| == |multiset(sharers)|;
    SortedRank(s, chip, i);
    id := Text.Sorted(sharers)[i];
  }

  lemma SpellingCollides(ids: set<string>, x: string, s: string, n: nat)
    requires Spells(ids, x, s, n)
    ensures !AllDistinct(ids)
  {
    var chip := ShortDocId(x);
    assert x in Sharers(ids, chip) && s != chip;
    assert |Sharers(ids, chip)| > 0;
    var a := Ranked(ids, chip, 0);
    var b := Ranked(ids, s, n - 1);
    assert ChipOf(ids, a) == ChipOf(ids, b) && a != b;
  }

  lemma SameShort(ids: set<string>, a: string, b: string)
    requires a in ids && b in ids && a != b && ShortDocId(a) == ShortDocId(b)
    ensures |Before(ids, a)| != |Before(ids, b)|
  {
    Text.AtMostTotal(a, b);
    if Text.AtMost(a, b) {
      BeforeGrows(ids, a, b);
    } else {
      BeforeGrows(ids, b, a);
    }
  }

  lemma CollisionSpells(ids: set<string>, a: string, b: string)
    requires a in ids && b in ids && a != b && ChipOf(ids, a) == ChipOf(ids, b)
    requires |Before(ids, a)| <= |Before(ids, b)|
    ensures Spells(ids, a, ShortDocId(b), |Before(ids, b)| + 1)
  {
    var i, j := |Before(ids, a)|, |Before(ids, b)|;
    if ShortDocId(a) == ShortDocId(b) {
      SameShort(ids, a, b);
    }
    if i > 0 {
      LastDot(ShortDocId(a), i + 1, ShortDocId(b), j + 1);
    } else if j > 0 {
      SubsetSize(Before(ids, b) + {b}, Sharers(ids, ShortDocId(b)));
    }
  }

  /**
   The chips of a sheet are distinct exactly when no document's short id spells a numbered chip that is
   given out: `s`, a dot and an ordinal n, where at least n documents have the short id `s`.
   */
  lemma ChipsDistinctExactly(ids: set<string>)
    ensures AllDistinct(ids) <==> !exists x, s, n :: Spells(ids, x, s, n)
  {
    if exists x, s, n :: Spells(ids, x, s, n) {
      var x, s, n :| Spells(ids, x, s, n);
      SpellingCollides(ids, x, s, n);
    }
    if !AllDistinct(ids) {
      var a, b :| a in ids && b in ids && a != b && ChipOf(ids, a) == ChipOf(ids, b);
      if |Before(ids, a)| <= |Before(ids, b)| {
        CollisionSpells(ids, a, b);
      } else {
        CollisionSpells(ids, b, a);
      }
    }
  }

  lemma SpellingHasDot(ids: set<string>, x: string, s: string, n: nat)
    requires Spells(ids, x, s, n)
    ensures DOT in x
  {
    assert ShortDocId(x)[|s|] == DOT;
    if DOT !in x {
      ShortHasNoDot(x);
    }
  }

  /** Ids without the dot get distinct chips. */
  lemma ChipsDistinct(ids: set<string>)
    requires forall x :: x in ids ==> DOT !in x
    ensures AllDistinct(ids)
  {
    ChipsDistinctExactly(ids);
    forall x, s, n | Spells(ids, x, s, n) ensures DOT in x {
      SpellingHasDot(ids, x, s, n);
    }
  }

  /** Any two long ids that share their first six characters, and the short id spelling the second one's chip. */
  lemma DottedIdCollides(a: string, b: string)
    requires |a| > 12 && '-' !in a && !SubPrefixed(a) && |b| > 12 && '-' !in b && !SubPrefixed(b)
    requires a[..6] == b[..6] && a != b
    ensures !AllDistinct({a, b, "sub_" + a[..6] + [DOT] + "2"})
  {
    var chip := "sub_" + a[..6];
    var c := chip + [DOT] + "2";
    var ids := {a, b, c};
    PlainShort(a);
    PlainShort(b);
    assert Decimal(2) == "2";
    assert Sharers(ids, chip) == {a, b};
    assert Spells(ids, c, chip, 2);
    ChipsDistinctExactly(ids);
  }
}
