/**
 The field-level three-way merge: the loops refine one rule per field, and folding any number of
 forks of one baseline through it keeps the first change of each field and records every other.
 */
module ConflictMerge {
  import opened Prelude

  // ----- values and documents -----

  /** JSON, with `undefined` for an absent field. */
  datatype Json =
    | Undefined
    | Null
    | Bool(b: bool)
    | Number(n: int)
    | Text(s: string)
    | Array(items: seq<Json>)
    | Object(fields: map<string, Json>)

  /** valuesEqual: recursive over array positions, and over the left operand's keys once the key counts agree. */
  predicate ValuesEqual(a: Json, b: Json)
    decreases a
  {
    match (a, b)
    case (Array(x), Array(y)) => |x| == |y| && forall i :: 0 <= i < |x| ==> ValuesEqual(x[i], y[i])
    case (Object(x), Object(y)) => |x.Keys| == |y.Keys| && forall k :: k in x ==> k in y && ValuesEqual(x[k], y[k])
    case _ => a == b
  }

  /** The structural walk is equality of JSON values. */
  lemma {:induction false} ValuesEqualIsEquality(a: Json, b: Json)
    ensures ValuesEqual(a, b) <==> a == b
    decreases a
  {
    match (a, b)
    case (Array(x), Array(y)) =>
      if |x| == |y| {
        forall i | 0 <= i < |x| ensures ValuesEqual(x[i], y[i]) <==> x[i] == y[i] {
          ValuesEqualIsEquality(x[i], y[i]);
        }
        assert (forall i :: 0 <= i < |x| ==> x[i] == y[i]) <==> x == y;
      }
    case (Object(x), Object(y)) =>
      forall k | k in x && k in y ensures ValuesEqual(x[k], y[k]) <==> x[k] == y[k] {
        ValuesEqualIsEquality(x[k], y[k]);
      }
      if ValuesEqual(a, b) {
        assert x.Keys <= y.Keys;
        SameSize(x.Keys, y.Keys);
        assert x == y;
      }
    case _ =>
  }

  lemma SameSize(a: set<string>, b: set<string>)
    requires a <= b && |a| == |b|
    ensures a == b
  {
    assert |b - a| == |b| - |a|;
  }

  /** An object with its own keys in insertion order. */
  datatype Doc = Doc(keys: seq<string>, at: map<string, Json>) {
    ghost predicate Valid() { Distinct(keys) && forall k :: k in keys <==> k in at }
  }

  function Field(d: Doc, k: string): Json { if k in d.at then d.at[k] else Undefined }

  /** `document[k] = v` */
  function Put(d: Doc, k: string, v: Json): Doc {
    Doc(if k in d.at then d.keys else d.keys + [k], d.at[k := v])
  }

  // ----- one conflict -----

  /** RxConflictHandlerInput. */
  datatype Input = Input(assumed: Option<Doc>, fork: Option<Doc>, master: Option<Doc>) {
    ghost predicate Valid() {
      (assumed.Some? ==> assumed.value.Valid()) && (fork.Some? ==> fork.value.Valid())
          && (master.Some? ==> master.value.Valid())
    }
  }

  datatype Options = Options(reserved: seq<string>, provenance: seq<string>)

  const DEFAULTS := Options(
    ["_rev", "_meta", "_attachments", "_modified"],
    ["updated_by", "updated_at", "answered_by", "answered_at", "rejected_by", "rejected_at"])

  datatype Clash = Clash(field: string, discarded: Json, winner: Json)

  datatype Baseline = AssumedMaster | Absent

  datatype Resolution = Resolution(document: Doc, clashes: seq<Clash>, baseline: Baseline)

  datatype Error = MasterRequired

  function ForkOf(input: Input): Doc { if input.fork.Some? then input.fork.value else Doc([], map[]) }

  // ----- the rule for one field -----

  predicate Contested(assumed: Option<Doc>, k: string, f: Json, m: Json) {
    f != m && (assumed.Some? ==> f != Field(assumed.value, k) && m != Field(assumed.value, k))
  }

  /** The fork's edit survives exactly where it is the only change. */
  predicate ForkWins(assumed: Option<Doc>, k: string, f: Json, m: Json) {
    assumed.Some? && f != Field(assumed.value, k) && m == Field(assumed.value, k)
  }

  /** What the resolved document holds in field k. */
  function Winner(input: Input, opts: Options, k: string): Json
    requires input.master.Some?
  {
    var f, m := Field(ForkOf(input), k), Field(input.master.value, k);
    if k !in opts.reserved && ForkWins(input.assumed, k, f, m) then f else m
  }

  predicate Reported(input: Input, opts: Options, k: string)
    requires input.master.Some?
  {
    && k !in opts.reserved && k !in opts.provenance
    && Contested(input.assumed, k, Field(ForkOf(input), k), Field(input.master.value, k))
  }

  function ClashAt(input: Input, k: string): Clash
    requires input.master.Some?
  {
    Clash(k, Field(ForkOf(input), k), Field(input.master.value, k))
  }

  /** Clashes follow the order the fields are visited in. */
  function ClashesIn(input: Input, opts: Options, fields: seq<string>): seq<Clash>
    requires input.master.Some?
  {
    if fields == [] then []
    else
      var k := fields[|fields| - 1];
      ClashesIn(input, opts, fields[..|fields| - 1]) + if Reported(input, opts, k) then [ClashAt(input, k)] else []
  }

  /** The document, field by field. */
  function MergedIn(input: Input, opts: Options, fields: seq<string>): Doc
    requires input.master.Some?
  {
    if fields == [] then input.master.value
    else
      var k := fields[|fields| - 1];
      var f := Field(ForkOf(input), k);
      var before := MergedIn(input, opts, fields[..|fields| - 1]);
      if ForkWins(input.assumed, k, f, Field(input.master.value, k)) then Put(before, k, f) else before
  }

  // ----- mergeableFields -----

  function Added(keys: seq<string>, more: seq<string>, reserved: seq<string>): seq<string> {
    if more == [] then keys
    else
      var before := Added(keys, more[..|more| - 1], reserved);
      var k := more[|more| - 1];
      if k in reserved || k in before then before else before + [k]
  }

  function KeysOf(s: Option<Doc>): seq<string> { if s.Some? then s.value.keys else [] }

  /** The union of the states' unreserved keys, each once, at its first appearance. */
  function FieldsOf(states: seq<Option<Doc>>, reserved: seq<string>): seq<string> {
    if states == [] then []
    else Added(FieldsOf(states[..|states| - 1], reserved), KeysOf(states[|states| - 1]), reserved)
  }

  lemma {:induction false} AddedMeans(keys: seq<string>, more: seq<string>, reserved: seq<string>)
    requires Distinct(keys)
    ensures Distinct(Added(keys, more, reserved))
    ensures forall k :: k in Added(keys, more, reserved) <==> k in keys || (k in more && k !in reserved)
    decreases |more|
  {
    if more != [] {
      var front := more[..|more| - 1];
      AddedMeans(keys, front, reserved);
      assert more == front + [more[|more| - 1]];
    }
  }

  lemma {:induction false} FieldsOfMeans(states: seq<Option<Doc>>, reserved: seq<string>)
    ensures Distinct(FieldsOf(states, reserved))
    ensures forall k :: k in FieldsOf(states, reserved) <==>
              k !in reserved && exists i :: 0 <= i < |states| && k in KeysOf(states[i])
    decreases |states|
  {
    if states != [] {
      var front := states[..|states| - 1];
      FieldsOfMeans(front, reserved);
      AddedMeans(FieldsOf(front, reserved), KeysOf(states[|states| - 1]), reserved);
      forall k ensures k in FieldsOf(states, reserved) <==>
        k !in reserved && exists i :: 0 <= i < |states| && k in KeysOf(states[i])
      {
        if k in FieldsOf(front, reserved) {
          var i :| 0 <= i < |front| && k in KeysOf(front[i]);
          assert states[i] == front[i];
        }
        if exists i :: 0 <= i < |states| && k in KeysOf(states[i]) {
          var i :| 0 <= i < |states| && k in KeysOf(states[i]);
          assert i < |front| ==> front[i] == states[i];
        }
      }
    }
  }

  method MergeableFields(states: seq<Option<Doc>>, reserved: seq<string>) returns (keys: seq<string>)
    ensures keys == FieldsOf(states, reserved)
  {
    keys := [];
    var i := 0;
    while i < |states|
      invariant 0 <= i <= |states|
      invariant keys == FieldsOf(states[..i], reserved)
    {
      assert states[..i + 1][..i] == states[..i];
      if states[i].Some? {
        var own := states[i].value.keys;
        var j := 0;
        while j < |own|
          invariant 0 <= j <= |own|
          invariant keys == Added(FieldsOf(states[..i], reserved), own[..j], reserved)
        {
          assert own[..j + 1][..j] == own[..j];
          if own[j] !in reserved && own[j] !in keys {
            keys := keys + [own[j]];
          }
          j := j + 1;
        }
        assert own[..j] == own;
      }
      i := i + 1;
    }
    assert states[..i] == states;
  }

  // ----- resolveConflict -----

  function AllFields(input: Input, opts: Options): seq<string> {
    FieldsOf([input.assumed, Some(ForkOf(input)), input.master], opts.reserved)
  }

  function Resolve(input: Input, opts: Options): Result<Resolution, Error> {
    if input.master.None? then Err(MasterRequired)
    else
      var fields := AllFields(input, opts);
      Ok(Resolution(MergedIn(input, opts, fields), ClashesIn(input, opts, fields),
                    if input.assumed.Some? then AssumedMaster else Absent))
  }

  method ResolveConflict(input: Input, opts: Options) returns (r: Result<Resolution, Error>)
    ensures r == Resolve(input, opts)
  {
    if input.master.None? { return Err(MasterRequired); }
    var fork, master := ForkOf(input), input.master.value;
    var document := master;
    var clashes: seq<Clash> := [];
    var fields := MergeableFields([input.assumed, Some(fork), input.master], opts.reserved);
    FieldsOfMeans([input.assumed, Some(fork), input.master], opts.reserved);
    var i := 0;
    while i < |fields|
      invariant 0 <= i <= |fields|
      invariant document == MergedIn(input, opts, fields[..i])
      invariant clashes == ClashesIn(input, opts, fields[..i])
    {
      var k := fields[i];
      assert fields[..i + 1][..i] == fields[..i];
      assert k in fields && k !in opts.reserved;
      i := i + 1;
      var f, m := Field(fork, k), Field(master, k);
      ValuesEqualIsEquality(f, m);
      if ValuesEqual(f, m) { continue; }
      if input.assumed.None? {
        if k !in opts.provenance {
          clashes := clashes + [Clash(k, f, m)];
        }
        continue;
      }
      var a := Field(input.assumed.value, k);
      ValuesEqualIsEquality(f, a);
      ValuesEqualIsEquality(m, a);
      var forkChanged := !ValuesEqual(f, a);
      var masterChanged := !ValuesEqual(m, a);
      if forkChanged && !masterChanged {
        document := Put(document, k, f);
      } else if !forkChanged && masterChanged {
      } else if forkChanged && masterChanged {
        if k !in opts.provenance {
          clashes := clashes + [Clash(k, f, m)];
        }
      }
    }
    assert fields[..i] == fields;
    r := Ok(Resolution(document, clashes, if input.assumed.Some? then AssumedMaster else Absent));
  }

  // ----- what one resolution means -----

  /** A field no state holds, or a reserved one, is master's under the rule as well. */
  lemma UnvisitedAgree(input: Input, opts: Options, k: string)
    requires input.Valid() && input.master.Some?
    ensures Distinct(AllFields(input, opts))
    ensures k in AllFields(input, opts) ==> k !in opts.reserved
    ensures k !in AllFields(input, opts) ==>
              Winner(input, opts, k) == Field(input.master.value, k) && !Reported(input, opts, k)
  {
    var states := [input.assumed, Some(ForkOf(input)), input.master];
    FieldsOfMeans(states, opts.reserved);
    if k !in AllFields(input, opts) && k !in opts.reserved {
      assert k !in KeysOf(states[0]) && k !in KeysOf(states[1]) && k !in KeysOf(states[2]);
    }
  }

  lemma {:induction false} MergedInMeans(input: Input, opts: Options, fields: seq<string>, k: string)
    requires input.Valid() && input.master.Some? && Distinct(fields) && forall x :: x in fields ==> x !in opts.reserved
    ensures MergedIn(input, opts, fields).Valid()
    ensures Field(MergedIn(input, opts, fields), k)
            == if k in fields then Winner(input, opts, k) else Field(input.master.value, k)
    decreases |fields|
  {
    if fields != [] {
      var front := fields[..|fields| - 1];
      assert fields == front + [fields[|fields| - 1]];
      MergedInMeans(input, opts, front, k);
    }
  }

  lemma {:induction false} ClashesInMean(input: Input, opts: Options, fields: seq<string>)
    requires input.master.Some? && Distinct(fields)
    ensures var clashes := ClashesIn(input, opts, fields);
            && (forall c :: c in clashes ==>
                  c.field in fields && Reported(input, opts, c.field) && c == ClashAt(input, c.field))
            && (forall k :: k in fields && Reported(input, opts, k) ==> ClashAt(input, k) in clashes)
            && (forall i, j :: 0 <= i < j < |clashes| ==> clashes[i].field != clashes[j].field)
    decreases |fields|
  {
    if fields != [] {
      var front := fields[..|fields| - 1];
      assert fields == front + [fields[|fields| - 1]];
      ClashesInMean(input, opts, front);
      assert forall c :: c in ClashesIn(input, opts, front) ==> c.field in front;
    }
  }

  /** Every field of the resolved document obeys the one-field rule. */
  lemma DocumentObeys(input: Input, opts: Options, k: string)
    requires input.Valid() && input.master.Some?
    ensures Resolve(input, opts).value.document.Valid()
    ensures Field(Resolve(input, opts).value.document, k) == Winner(input, opts, k)
  {
    UnvisitedAgree(input, opts, k);
    forall x | x in AllFields(input, opts) ensures x !in opts.reserved { UnvisitedAgree(input, opts, x); }
    MergedInMeans(input, opts, AllFields(input, opts), k);
  }

  /** One record per contested field that is neither reserved nor provenance, and no other record. */
  lemma ClashesObey(input: Input, opts: Options, k: string)
    requires input.Valid() && input.master.Some?
    ensures var clashes := Resolve(input, opts).value.clashes;
            && (Reported(input, opts, k) <==> ClashAt(input, k) in clashes)
            && (Reported(input, opts, k) <==> exists c :: c in clashes && c.field == k)
            && (forall i, j :: 0 <= i < j < |clashes| ==> clashes[i].field != clashes[j].field)
            && (forall c :: c in clashes ==> c == ClashAt(input, c.field))
  {
    UnvisitedAgree(input, opts, k);
    ClashesInMean(input, opts, AllFields(input, opts));
  }

  /**
   The rule in full, for a field that is not reserved and with a baseline: an edit of one side alone stands, as
   does what both sides agree on, and where both changed it differently master stands and the discarded value
   is recorded, unless the field is provenance. The resolution says whether it had a baseline.
   */
  lemma RuleHolds(input: Input, opts: Options, k: string)
    requires input.Valid() && input.master.Some? && k !in opts.reserved
    ensures var r := Resolve(input, opts).value;
            var f, m, v := Field(ForkOf(input), k), Field(input.master.value, k), Field(r.document, k);
            var recorded := exists c :: c in r.clashes && c.field == k;
            if input.assumed.None? then
              && r.baseline == Absent && v == m
              && (recorded <==> f != m && k !in opts.provenance)
            else
              && r.baseline == AssumedMaster
              && var a := Field(input.assumed.value, k);
                 && (f != a && m == a ==> v == f && !recorded)
                 && (f == a || f == m ==> v == m && !recorded)
                 && (f != a && m != a && f != m ==>
                       v == m && (recorded <==> k !in opts.provenance)
                       && (recorded <==> Clash(k, f, m) in r.clashes))
  {
    DocumentObeys(input, opts, k);
    ClashesObey(input, opts, k);
  }

  /** Which fields are special as shipped: four of the protocol's are always master's, six name who and when. */
  lemma DefaultsMean(input: Input, k: string)
    requires input.Valid() && input.master.Some?
    ensures var r := Resolve(input, DEFAULTS).value;
            var f, m := Field(ForkOf(input), k), Field(input.master.value, k);
            var recorded := exists c :: c in r.clashes && c.field == k;
            && (k in {"_rev", "_meta", "_attachments", "_modified"} ==> Field(r.document, k) == m && !recorded)
            && (k in {"updated_by", "updated_at", "answered_by", "answered_at", "rejected_by", "rejected_at"} ==>
                  !recorded
                  && (input.assumed.Some? && m == Field(input.assumed.value, k) ==> Field(r.document, k) == f))
            && (k !in {"_rev", "_meta", "_attachments", "_modified", "updated_by", "updated_at", "answered_by",
                       "answered_at", "rejected_by", "rejected_at"} && input.assumed.None? ==>
                  (recorded <==> f != m))
  {
    DocumentObeys(input, DEFAULTS, k);
    ClashesObey(input, DEFAULTS, k);
    var reserved, provenance := DEFAULTS.reserved, DEFAULTS.provenance;
    assert k in reserved <==> k in {"_rev", "_meta", "_attachments", "_modified"} by {
      assert reserved[0] == "_rev" && reserved[1] == "_meta" && reserved[2] == "_attachments"
        && reserved[3] == "_modified";
    }
    assert k in provenance
      <==> k in {"updated_by", "updated_at", "answered_by", "answered_at", "rejected_by", "rejected_at"} by {
      assert provenance[0] == "updated_by" && provenance[1] == "updated_at" && provenance[2] == "answered_by"
        && provenance[3] == "answered_at" && provenance[4] == "rejected_by" && provenance[5] == "rejected_at";
    }
  }

  /** An edit of the fork is lost without a record exactly when it is contested provenance, or a reserved field. */
  lemma SilentLossExactly(input: Input, opts: Options, k: string)
    requires input.Valid() && input.master.Some?
    ensures var f := Field(ForkOf(input), k);
            var r := Resolve(input, opts).value;
            var edited := input.assumed.None? || f != Field(input.assumed.value, k);
            (edited && Field(r.document, k) != f && !(exists c :: c in r.clashes && c.field == k))
            <==> (edited && f != Field(input.master.value, k)
                  && (k in opts.reserved || (k in opts.provenance
                                             && !ForkWins(input.assumed, k, f, Field(input.master.value, k)))))
  {
    DocumentObeys(input, opts, k);
    ClashesObey(input, opts, k);
  }

  /** Without a baseline the document is master's, and every difference a user could see is recorded. */
  lemma NoBaseline(input: Input, opts: Options, k: string)
    requires input.Valid() && input.master.Some? && input.assumed.None?
    ensures var r := Resolve(input, opts).value;
            && Field(r.document, k) == Field(input.master.value, k)
            && (ClashAt(input, k) in r.clashes <==>
                  && k !in opts.reserved && k !in opts.provenance
                  && Field(ForkOf(input), k) != Field(input.master.value, k))
  {
    DocumentObeys(input, opts, k);
    ClashesObey(input, opts, k);
  }

  /** Handing the resolved document back as master changes no field and loses no record. */
  lemma ResolveAgain(input: Input, opts: Options, k: string)
    requires input.Valid() && input.master.Some?
    ensures var r := Resolve(input, opts).value;
            var again := Resolve(input.(master := Some(r.document)), opts);
            && again.Ok?
            && Field(again.value.document, k) == Field(r.document, k)
            && (ClashAt(input, k) in again.value.clashes <==> ClashAt(input, k) in r.clashes)
  {
    DocumentObeys(input, opts, k);
    ClashesObey(input, opts, k);
    var next := input.(master := Some(Resolve(input, opts).value.document));
    DocumentObeys(next, opts, k);
    ClashesObey(next, opts, k);
  }

  /** With a baseline, a field that is a boolean in all three states is never a clash. */
  lemma BooleansNeverClash(input: Input, opts: Options, k: string)
    requires input.Valid() && input.master.Some? && input.assumed.Some?
    requires Field(input.assumed.value, k).Bool? && Field(ForkOf(input), k).Bool? && Field(input.master.value, k).Bool?
    ensures forall c :: c in Resolve(input, opts).value.clashes ==> c.field != k
  {
    ClashesObey(input, opts, k);
  }

  lemma NoneReported(input: Input, opts: Options)
    requires input.Valid() && input.master.Some? && forall k :: !Reported(input, opts, k)
    ensures Resolve(input, opts).Ok? && Resolve(input, opts).value.clashes == []
  {
    var clashes := Resolve(input, opts).value.clashes;
    assert clashes != [] ==> clashes[0] in clashes;
    UnvisitedAgree(input, opts, "");
    ClashesInMean(input, opts, AllFields(input, opts));
  }

  /** The delete the rule lets through: the tombstone and master's edit both land, and nothing is recorded. */
  lemma SilentDelete(v: Json, w: Json)
    requires v != w
    ensures var a := Doc(["value", "_deleted"], map["value" := v, "_deleted" := Bool(false)]);
            var f := Doc(["value", "_deleted"], map["value" := v, "_deleted" := Bool(true)]);
            var m := Doc(["value", "_deleted"], map["value" := w, "_deleted" := Bool(false)]);
            var input := Input(Some(a), Some(f), Some(m));
            && input.Valid()
            && Field(Resolve(input, DEFAULTS).value.document, "_deleted") == Bool(true)
            && Field(Resolve(input, DEFAULTS).value.document, "value") == w
            && Resolve(input, DEFAULTS).value.clashes == []
  {
    var a := Doc(["value", "_deleted"], map["value" := v, "_deleted" := Bool(false)]);
    var f := Doc(["value", "_deleted"], map["value" := v, "_deleted" := Bool(true)]);
    var m := Doc(["value", "_deleted"], map["value" := w, "_deleted" := Bool(false)]);
    var input := Input(Some(a), Some(f), Some(m));
    assert input.Valid();
    assert forall k :: k != "value" && k != "_deleted" ==> Field(f, k) == Field(m, k);
    assert forall k :: !Reported(input, DEFAULTS, k);
    assert Winner(input, DEFAULTS, "_deleted") == Bool(true) && Winner(input, DEFAULTS, "value") == w;
    hide Resolve, Reported, Winner, Field;
    DocumentObeys(input, DEFAULTS, "_deleted");
    DocumentObeys(input, DEFAULTS, "value");
    NoneReported(input, DEFAULTS);
  }

  // ----- many forks of one baseline -----

  ghost predicate AllValid(forks: seq<Doc>) {
    forall i :: 0 <= i < |forks| ==> forks[i].Valid()
  }

  function Against(a: Doc, fork: Doc, m: Doc): Input { Input(Some(a), Some(fork), Some(m)) }

  /** Master after the forks are pushed one by one, each resolved against the master it then meets. */
  function Folded(a: Doc, forks: seq<Doc>, m: Doc, opts: Options): Doc {
    if forks == [] then m
    else Resolve(Against(a, forks[|forks| - 1], Folded(a, forks[..|forks| - 1], m, opts)), opts).value.document
  }

  /** What was recorded when fork i was pushed. */
  function RecordedAt(a: Doc, forks: seq<Doc>, m: Doc, opts: Options, i: nat): seq<Clash>
    requires i < |forks|
  {
    Resolve(Against(a, forks[i], Folded(a, forks[..i], m, opts)), opts).value.clashes
  }

  predicate Edits(a: Doc, fork: Doc, k: string) { Field(fork, k) != Field(a, k) }

  /** The value the first editor of k gives it: an editor already in master, then the forks in order. */
  function FirstEdit(a: Doc, forks: seq<Doc>, m: Doc, k: string): Json {
    if forks == [] then Field(m, k)
    else
      var before := FirstEdit(a, forks[..|forks| - 1], m, k);
      if before != Field(a, k) then before else Field(forks[|forks| - 1], k)
  }

  lemma {:induction false} FirstChangerWins(a: Doc, forks: seq<Doc>, m: Doc, opts: Options, k: string)
    requires a.Valid() && m.Valid() && AllValid(forks) && k !in opts.reserved
    ensures Folded(a, forks, m, opts).Valid() && Field(Folded(a, forks, m, opts), k) == FirstEdit(a, forks, m, k)
    decreases |forks|
  {
    if forks != [] {
      var front := forks[..|forks| - 1];
      assert forks[|forks| - 1].Valid() && AllValid(front);
      FirstChangerWins(a, front, m, opts, k);
      DocumentObeys(Against(a, forks[|forks| - 1], Folded(a, front, m, opts)), opts, k);
    }
  }

  /** Reserved fields are never touched by any fork. */
  lemma {:induction false} ReservedAreMasters(a: Doc, forks: seq<Doc>, m: Doc, opts: Options, k: string)
    requires a.Valid() && m.Valid() && AllValid(forks) && k in opts.reserved
    ensures Folded(a, forks, m, opts).Valid() && Field(Folded(a, forks, m, opts), k) == Field(m, k)
    decreases |forks|
  {
    if forks != [] {
      var front := forks[..|forks| - 1];
      assert forks[|forks| - 1].Valid() && AllValid(front);
      ReservedAreMasters(a, front, m, opts, k);
      DocumentObeys(Against(a, forks[|forks| - 1], Folded(a, front, m, opts)), opts, k);
    }
  }

  lemma {:induction false} OnceEditedStays(a: Doc, forks: seq<Doc>, m: Doc, k: string, i: nat)
    requires i <= |forks|
    ensures FirstEdit(a, forks[..i], m, k) != Field(a, k) ==>
            FirstEdit(a, forks, m, k) == FirstEdit(a, forks[..i], m, k)
    ensures FirstEdit(a, forks[..i], m, k) == Field(a, k) && i < |forks| && Edits(a, forks[i], k) ==>
              FirstEdit(a, forks, m, k) == Field(forks[i], k)
    decreases |forks|
  {
    if i == |forks| {
      assert forks[..i] == forks;
    } else {
      var front := forks[..|forks| - 1];
      assert front[..i] == forks[..i];
      OnceEditedStays(a, front, m, k, i);
    }
  }

  /**
   No edit is lost: a fork's edit of an ordinary field ends in the final document, or it was recorded,
   with the value that beat it, when that fork was pushed; never both.
   */
  lemma NoEditLost(a: Doc, forks: seq<Doc>, m: Doc, opts: Options, i: nat, k: string)
    requires a.Valid() && m.Valid() && AllValid(forks) && i < |forks|
    requires k !in opts.reserved && k !in opts.provenance && Edits(a, forks[i], k)
    ensures var final := Field(Folded(a, forks, m, opts), k);
            var mine := Field(forks[i], k);
            final != Field(a, k)
            && (final != mine <==> Clash(k, mine, final) in RecordedAt(a, forks, m, opts, i))
            && (final == mine <==> !(exists c :: c in RecordedAt(a, forks, m, opts, i) && c.field == k))
  {
    FirstChangerWins(a, forks, m, opts, k);
    assert AllValid(forks[..i]) && forks[i].Valid();
    FirstChangerWins(a, forks[..i], m, opts, k);
    OnceEditedStays(a, forks, m, k, i);
    ClashesObey(Against(a, forks[i], Folded(a, forks[..i], m, opts)), opts, k);
  }

  /** Every fork that edits k gives it the same value; disjoint edit sets are the special case of one editor. */
  ghost predicate Agreeing(a: Doc, forks: seq<Doc>, k: string) {
    forall i, j :: 0 <= i < |forks| && 0 <= j < |forks| && Edits(a, forks[i], k) && Edits(a, forks[j], k) ==>
      Field(forks[i], k) == Field(forks[j], k)
  }

  lemma {:induction false} AgreedValue(a: Doc, forks: seq<Doc>, m: Doc, k: string, i: nat)
    requires Agreeing(a, forks, k) && Field(m, k) == Field(a, k)
    ensures i < |forks| && Edits(a, forks[i], k) ==> FirstEdit(a, forks, m, k) == Field(forks[i], k)
    ensures (forall j :: 0 <= j < |forks| ==> !Edits(a, forks[j], k)) ==> FirstEdit(a, forks, m, k) == Field(a, k)
    decreases |forks|
  {
    if forks != [] {
      var front := forks[..|forks| - 1];
      assert forall j :: 0 <= j < |front| ==> front[j] == forks[j];
      AgreedValue(a, front, m, k, i);
      if exists j :: 0 <= j < |front| && Edits(a, front[j], k) {
        var j :| 0 <= j < |front| && Edits(a, front[j], k);
        AgreedValue(a, front, m, k, j);
        assert Edits(a, forks[j], k);
      }
    }
  }

  /** And nothing is recorded for such a field. */
  lemma AgreementRecordsNothing(a: Doc, forks: seq<Doc>, m: Doc, opts: Options, i: nat, k: string)
    requires a.Valid() && m.Valid() && AllValid(forks) && i < |forks|
    requires Agreeing(a, forks, k) && Field(m, k) == Field(a, k)
    ensures forall c :: c in RecordedAt(a, forks, m, opts, i) ==> c.field != k
  {
    assert AllValid(forks[..i]) && forks[i].Valid();
    var input := Against(a, forks[i], Folded(a, forks[..i], m, opts));
    if k in opts.reserved {
      ReservedAreMasters(a, forks[..i], m, opts, k);
    } else {
      FirstChangerWins(a, forks[..i], m, opts, k);
      OnceEditedStays(a, forks, m, k, i);
      AgreedValue(a, forks, m, k, i);
    }
    ClashesObey(input, opts, k);
  }

  /** When no two forks edit a field differently, the order of the pushes does not matter to it. */
  lemma OrderIrrelevant(a: Doc, forks: seq<Doc>, shuffled: seq<Doc>, m: Doc, opts: Options, k: string)
    requires a.Valid() && m.Valid() && AllValid(forks) && multiset(forks) == multiset(shuffled)
    requires k !in opts.reserved ==> Agreeing(a, forks, k)
    ensures Field(Folded(a, forks, m, opts), k) == Field(Folded(a, shuffled, m, opts), k)
  {
    forall d ensures d in shuffled <==> d in forks {
      assert d in multiset(shuffled) <==> d in multiset(forks);
    }
    assert forall i :: 0 <= i < |shuffled| ==> shuffled[i] in forks;
    if k in opts.reserved {
      ReservedAreMasters(a, forks, m, opts, k);
      ReservedAreMasters(a, shuffled, m, opts, k);
    } else {
      FirstChangerWins(a, forks, m, opts, k);
      FirstChangerWins(a, shuffled, m, opts, k);
      if Field(m, k) != Field(a, k) {
        OnceEditedStays(a, forks, m, k, 0);
        OnceEditedStays(a, shuffled, m, k, 0);
      } else if exists i :: 0 <= i < |forks| && Edits(a, forks[i], k) {
        var i :| 0 <= i < |forks| && Edits(a, forks[i], k);
        assert forks[i] in shuffled;
        var j :| 0 <= j < |shuffled| && shuffled[j] == forks[i];
        AgreedValue(a, forks, m, k, i);
        AgreedValue(a, shuffled, m, k, j);
      } else {
        forall j | 0 <= j < |shuffled| ensures !Edits(a, shuffled[j], k) {
          assert shuffled[j] in forks;
        }
        AgreedValue(a, forks, m, k, 0);
        AgreedValue(a, shuffled, m, k, 0);
      }
    }
  }

  // ----- the sheet's who-and-when -----

  const PAIRS: seq<(string, string)> := [("answered_by", "answered_at"), ("rejected_by", "rejected_at"),
                                         ("updated_by", "updated_at")]

  datatype Who = Who(actor: Json, at: Json)

  function OrNull(v: Json): Json { if v == Undefined then Null else v }

  /**
   describeConflict's loop over the pairs: the first of answered_by, rejected_by and updated_by that master has of
   its own decides; a missing value is null.
   */
  method WinnerOf(master: Doc) returns (who: Who)
    ensures var own := (k: string) => if k in master.at && master.at[k] != Undefined then master.at[k] else Null;
            who == if "answered_by" in master.at then Who(own("answered_by"), own("answered_at"))
                   else if "rejected_by" in master.at then Who(own("rejected_by"), own("rejected_at"))
                   else if "updated_by" in master.at then Who(own("updated_by"), own("updated_at"))
                   else Who(Null, Null)
  {
    var i := 0;
    while i < |PAIRS|
      invariant 0 <= i <= |PAIRS|
      invariant forall j :: 0 <= j < i ==> PAIRS[j].0 !in master.at
    {
      var pair := PAIRS[i];
      if pair.0 in master.at {
        assert i > 0 ==> PAIRS[0].0 !in master.at;
        assert i > 1 ==> PAIRS[1].0 !in master.at;
        return Who(OrNull(master.at[pair.0]), OrNull(Field(master, pair.1)));
      }
      i := i + 1;
    }
    assert PAIRS[0].0 !in master.at && PAIRS[1].0 !in master.at && PAIRS[2].0 !in master.at;
    who := Who(Null, Null);
  }
}
