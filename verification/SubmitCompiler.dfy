/**
 The table compiler, as the loops that fill the event maps and bump the counters, and what its
 output always offers: an enabled candidate, in every context, for every declared event.
 */
module SubmitCompiler {
  import opened Prelude
  import opened SubmitMachine

  // ----- BuildOn -----

  lemma DistinctSnoc<T>(s: seq<T>, last: T)
    ensures Distinct(s + [last]) <==> Distinct(s) && last !in s
  {
    var t := s + [last];
    if Distinct(t) {
      assert forall i, j :: 0 <= i < j < |s| ==> t[i] == s[i] && t[j] == s[j];
      assert t[|s|] == last;
      assert forall i :: 0 <= i < |s| ==> t[i] == s[i] && t[i] != t[|s|];
    }
  }

  /** BuildOn throws exactly on a repeated declaration; otherwise it merges both lists and nothing else. */
  lemma {:induction false} BuildOnMeaning<S>(on: Table<S>, ignores: seq<EventType>)
    ensures BuildOn(on, ignores).Some? <==> Distinct(ignores) && (forall ev :: ev in ignores ==> ev !in on)
    ensures BuildOn(on, ignores).Some? ==>
              var m := BuildOn(on, ignores).value;
              && (forall ev :: ev in m <==> ev in on || ev in ignores)
              && (forall ev :: ev in m ==> m[ev] == if ev in on then on[ev] else [NoOp()])
    decreases |ignores|
  {
    if ignores != [] {
      var init, last := ignores[..|ignores| - 1], ignores[|ignores| - 1];
      BuildOnMeaning(on, init);
      DistinctSnoc(init, last);
      assert ignores == init + [last];
      assert forall ev :: ev in ignores <==> ev in init || ev == last;
    }
  }

  function InAlphabetOf(ts: set<EventType>): set<EventType> {
    set t | t in ts && InAlphabet(t)
  }

  function AlphabetKeys<S>(m: Table<S>): set<EventType> {
    InAlphabetOf(m.Keys)
  }

  lemma CountOne(counted: set<EventType>, t: EventType)
    requires t !in counted
    ensures |InAlphabetOf(counted + {t})| == |InAlphabetOf(counted)| + if InAlphabet(t) then 1 else 0
  {
    assert InAlphabetOf(counted + {t}) == if InAlphabet(t) then InAlphabetOf(counted) + {t} else InAlphabetOf(counted);
  }

  /** The compiler's two counters, which createSubmitMachine reports through declaredPairs(). */
  class TableCompiler {
    var declaredPairs: nat
    var stateCount: nat

    constructor ()
      ensures declaredPairs == 0 && stateCount == 0
    {
      declaredPairs, stateCount := 0, 0;
    }

    method CountDeclared<S>(m: Table<S>)
      modifies this`declaredPairs
      ensures declaredPairs == old(declaredPairs) + |AlphabetKeys(m)|
    {
      var keys := m.Keys;
      ghost var counted: set<EventType> := {};
      while keys != {}
        invariant keys !! counted && keys + counted == m.Keys
        invariant declaredPairs == old(declaredPairs) + |InAlphabetOf(counted)|
        decreases |keys|
      {
        var t :| t in keys;
        CountOne(counted, t);
        keys, counted := keys - {t}, counted + {t};
        if InAlphabet(t) {
          declaredPairs := declaredPairs + 1;
        }
      }
      assert counted == m.Keys;
    }

    method Merge<S>(on: Table<S>, ignores: seq<EventType>) returns (r: Option<Table<S>>)
      modifies this`declaredPairs
      ensures r == BuildOn(on, ignores)
      ensures declaredPairs == old(declaredPairs) + if r.None? then 0 else |AlphabetKeys(r.value)|
    {
      var out := on;
      var i := 0;
      while i < |ignores|
        invariant 0 <= i <= |ignores|
        invariant BuildOn(on, ignores[..i]) == Some(out)
        invariant declaredPairs == old(declaredPairs)
      {
        assert ignores[..i + 1][..i] == ignores[..i];
        if ignores[i] in out {
          ThrownStays(on, ignores, i + 1);
          return None;
        }
        out := out[ignores[i] := [NoOp()]];
        i := i + 1;
      }
      assert ignores[..i] == ignores;
      CountDeclared(out);
      r := Some(out);
    }

    method WrapAll(merged: Table<ScanState>) returns (wrapped: Table<ScanState>)
      ensures wrapped == map t | t in merged :: Wrap(t, merged[t])
    {
      wrapped := merged;
      var keys := merged.Keys;
      while keys != {}
        invariant keys <= merged.Keys == wrapped.Keys
        invariant forall t :: t in merged ==> wrapped[t] == if t in keys then merged[t] else Wrap(t, merged[t])
        decreases |keys|
      {
        var t :| t in keys;
        wrapped := wrapped[t := Wrap(t, merged[t])];
        keys := keys - {t};
      }
    }

    method PlainTable<S>(on: Table<S>, ignores: seq<EventType>) returns (r: Option<Table<S>>)
      modifies this
      ensures r == BuildOn(on, ignores)
      ensures stateCount == old(stateCount) + 1
      ensures declaredPairs == old(declaredPairs) + if r.None? then 0 else |AlphabetKeys(r.value)|
    {
      stateCount := stateCount + 1;
      r := Merge(on, ignores);
    }

    method ScanTable(name: ScanState, on: Table<ScanState>, ignores: seq<EventType>)
      returns (r: Option<Table<ScanState>>)
      modifies this
      ensures r == CompileScan(name, on, ignores)
      ensures stateCount == old(stateCount) + 1
      ensures declaredPairs == old(declaredPairs) + if r.None? then 0 else |AlphabetKeys(r.value)|
    {
      stateCount := stateCount + 1;
      var built := Merge(on, ignores);
      if built.None? { return None; }
      var merged := built.value;
      if name != UnexpectedEvent {
        merged := merged[Unexpected := [Go(UnexpectedEvent)]];
      }
      assert AlphabetKeys(merged) == AlphabetKeys(built.value);
      var wrapped := WrapAll(merged);
      assert AlphabetKeys(wrapped) == AlphabetKeys(merged);
      r := Some(wrapped);
    }
  }

  lemma ThrownStays<S>(on: Table<S>, ignores: seq<EventType>, i: nat)
    requires i <= |ignores| && BuildOn(on, ignores[..i]).None?
    ensures BuildOn(on, ignores).None?
  {
    BuildOnMeaning(on, ignores[..i]);
    BuildOnMeaning(on, ignores);
    var some := ignores[..i];
    assert forall ev :: ev in some ==> ev in ignores;
    if Distinct(ignores) {
      assert forall a, b :: 0 <= a < b < i ==> some[a] == ignores[a] && some[b] == ignores[b];
      assert Distinct(some);
    }
  }

  /** Looking one event up in a compiled scan state. */
  lemma CompiledLookup(name: ScanState, on: Table<ScanState>, ignores: seq<EventType>, t: EventType)
    requires BuildOn(on, ignores).Some?
    ensures CompileScan(name, on, ignores).Some?
    ensures var m := CompileScan(name, on, ignores).value;
            && (t in m <==> t in on || t in ignores || (t == Unexpected && name != UnexpectedEvent))
            && (t in m ==> m[t] == Wrap(t,
                  if t == Unexpected && name != UnexpectedEvent then [Go(UnexpectedEvent)]
                  else if t in on then on[t] else [NoOp()]))
  {
    BuildOnMeaning(on, ignores);
  }

  // ----- candidate lists -----

  lemma {:induction false} FirstEnabledAt<S>(defs: seq<Def<S>>, c: Ctx, e: Event, i: nat)
    requires i < |defs| && Enabled(defs[i], c, e)
    requires forall j :: 0 <= j < i ==> !Enabled(defs[j], c, e)
    ensures FirstEnabled(defs, c, e) == Some(defs[i])
  {
    if i > 0 {
      FirstEnabledAt(defs[1..], c, e, i - 1);
    }
  }

  lemma {:induction false} FirstEnabledNone<S>(defs: seq<Def<S>>, c: Ctx, e: Event)
    requires forall j :: 0 <= j < |defs| ==> !Enabled(defs[j], c, e)
    ensures FirstEnabled(defs, c, e) == None
  {
    if defs != [] {
      FirstEnabledNone(defs[1..], c, e);
    }
  }

  /** The first candidate whose own guard holds, the overlay gate put aside. */
  function ByGuard<S>(defs: seq<Def<S>>, c: Ctx, e: Event): Option<Def<S>> {
    if defs == [] then None
    else if defs[0].guard.Some? ==> Holds(defs[0].guard.value, c, e) then Some(defs[0])
    else ByGuard(defs[1..], c, e)
  }

  /** As declared: the compiler has put no gate on a candidate yet. */
  predicate Ungated<S>(defs: seq<Def<S>>) {
    forall i :: 0 <= i < |defs| ==> !defs[i].gated
  }

  lemma {:induction false} WrapSplits<S>(t: EventType, d: Def<S>, rest: seq<Def<S>>)
    requires rest != []
    ensures Wrap(t, [d] + rest) == [if GateBypass(t) then d else GateOne(d)] + Wrap(t, rest)
  {
    var defs := [d] + rest;
    assert defs[|defs| - 1] == rest[|rest| - 1];
    if !GateBypass(t) {
      assert GateAll(defs) == [GateOne(d)] + GateAll(rest);
    }
  }

  /** The candidate a declared list means: the first whose guard holds, unless the prompt blocks the event. */
  ghost predicate Means<S>(chosen: Option<Def<S>>, t: EventType, defs: seq<Def<S>>, c: Ctx, e: Event) {
    if defs == [] then chosen.None?
    else
      var byGuard := ByGuard(defs, c, e);
      && chosen.Some?
      && (if byGuard.None? || (!GateBypass(t) && c.ov == Prompt)
          then chosen.value.target == None && chosen.value.action == Nothing
          else chosen.value.target == byGuard.value.target && chosen.value.action == byGuard.value.action)
  }

  lemma WrapOne<S>(t: EventType, d: Def<S>, c: Ctx, e: Event)
    requires !d.gated
    ensures Means(FirstEnabled(Wrap(t, [d]), c, e), t, [d], c, e)
  {
    var head := if GateBypass(t) then d else GateOne(d);
    assert Wrap(t, [d]) == if Guarded(head) then [head, NoOp()] else [head];
    assert ByGuard([d][1..], c, e).None?;
    if Guarded(head) && !Enabled(head, c, e) {
      FirstEnabledAt(Wrap(t, [d]), c, e, 1);
    }
  }

  /**
   Totality of the compiler: a wrapped list offers an enabled candidate in every context exactly
   when it is not empty, and that candidate is the first whose own guard holds; with the prompt
   open on an event the prompt blocks, or with every guard failed, it is the declared no-op.
   */
  lemma {:induction false} WrapMeaning<S>(t: EventType, defs: seq<Def<S>>, c: Ctx, e: Event)
    requires Ungated(defs)
    ensures Means(FirstEnabled(Wrap(t, defs), c, e), t, defs, c, e)
    decreases |defs|
  {
    if |defs| == 1 {
      assert defs == [defs[0]];
      WrapOne(t, defs[0], c, e);
    } else if |defs| > 1 {
      hide Wrap, Holds;
      var rest := defs[1..];
      assert defs == [defs[0]] + rest;
      WrapSplits(t, defs[0], rest);
      WrapMeaning(t, rest, c, e);
      EnabledFirst(if GateBypass(t) then defs[0] else GateOne(defs[0]), Wrap(t, rest), c, e);
    }
  }

  lemma EnabledFirst<S>(d: Def<S>, rest: seq<Def<S>>, c: Ctx, e: Event)
    ensures FirstEnabled([d] + rest, c, e) == if Enabled(d, c, e) then Some(d) else FirstEnabled(rest, c, e)
  {
    assert ([d] + rest)[1..] == rest;
  }

  lemma BareStays<S>(t: EventType)
    ensures Wrap<S>(t, [NoOp()]) == [Def(None, None, Nothing, false)]
  {
  }

  /** What a scan state declares for an event: its own list, a no-op, or the error card the compiler adds. */
  function Declared(name: ScanState, on: Table<ScanState>, t: EventType): seq<Def<ScanState>> {
    if t == Unexpected && name != UnexpectedEvent then [Go(UnexpectedEvent)] else if t in on then on[t] else [NoOp()]
  }

  /**
   Totality of a whole table: any declaration that names no event twice compiles, and no other does; the
   table answers exactly the declared events and the internal one; every answer, in every context, is what its
   declared list means, a candidate whenever that list is not empty; and an ignored event compiles to one bare
   no-op.
   */
  lemma TableMeaning(name: ScanState, on: Table<ScanState>, ignores: seq<EventType>, t: EventType, c: Ctx, e: Event)
    requires forall ev :: ev in on ==> Ungated(on[ev])
    ensures CompileScan(name, on, ignores).Some? <==> Distinct(ignores) && forall ev :: ev in ignores ==> ev !in on
    ensures CompileScan(name, on, ignores).Some? ==>
              var m := CompileScan(name, on, ignores).value;
              && (t in m <==> t in on || t in ignores || (t == Unexpected && name != UnexpectedEvent))
              && (t in m ==> Means(FirstEnabled(m[t], c, e), t, Declared(name, on, t), c, e))
              && (t in ignores && t != Unexpected ==> m[t] == [Def(None, None, Nothing, false)])
  {
    BuildOnMeaning(on, ignores);
    BareStays<ScanState>(t);
    if CompileScan(name, on, ignores).Some? {
      CompiledLookup(name, on, ignores, t);
      hide Wrap, CompileScan, BuildOn, Means;
      if t in CompileScan(name, on, ignores).value {
        WrapMeaning(t, Declared(name, on, t), c, e);
      }
    }
  }
}
