/**
 The scope filter tree: its printer into PostgREST's logic grammar, a parser for that grammar, what a
 tree selects, and what the query built from it selects.
 */
module ScopeFilter {
  import opened Prelude
  import opened Text

  datatype Filter =
    | Eq(column: string, value: string)
    | Gte(column: string, value: string)
    | IsNull(column: string)
    | In(column: string, values: seq<string>)
    | And(clauses: seq<Filter>)
    | Or(clauses: seq<Filter>)

  // ----- the printer -----

  function Escaped(v: string): string {
    if v == "" then ""
    else (if v[0] == '\\' then "\\\\" else if v[0] == '"' then "\\\"" else [v[0]]) + Escaped(v[1..])
  }

  function QuoteValue(v: string): string { "\"" + Escaped(v) + "\"" }

  function QuotedAll(vs: seq<string>): seq<string> {
    seq(|vs|, (i: nat) requires i < |vs| => QuoteValue(vs[i]))
  }

  function Serialize(f: Filter): string
    decreases f
  {
    match f
    case Eq(c, v) => "\"" + c + "\".eq." + QuoteValue(v)
    case Gte(c, v) => "\"" + c + "\".gte." + QuoteValue(v)
    case IsNull(c) => "\"" + c + "\".is.null"
    case In(c, vs) => "\"" + c + "\".in.(" + JoinedBy(QuotedAll(vs), ',') + ")"
    case And(cs) => "and(" + JoinedBy(SerializeAll(cs), ',') + ")"
    case Or(cs) => "or(" + JoinedBy(SerializeAll(cs), ',') + ")"
  }

  function SerializeAll(fs: seq<Filter>): (r: seq<string>)
    ensures |r| == |fs|
    decreases fs
  {
    if fs == [] then [] else [Serialize(fs[0])] + SerializeAll(fs[1..])
  }

  // ----- the grammar's parser -----

  /** The rest of `s` after `prefix`. */
  function After(s: string, prefix: string): Option<string> {
    if |prefix| <= |s| && s[..|prefix|] == prefix then Some(s[|prefix|..]) else None
  }

  /** A quoted value up to its closing quote; a backslash takes the next character as it is. */
  function ReadQuoted(s: string): (r: Option<(string, string)>)
    ensures r.Some? ==> |r.value.1| < |s|
  {
    if s == "" then None
    else if s[0] == '"' then Some(("", s[1..]))
    else if s[0] == '\\' then
      if |s| < 2 then None
      else
        var r := ReadQuoted(s[2..]);
        if r.None? then None else Some(([s[1]] + r.value.0, r.value.1))
    else
      var r := ReadQuoted(s[1..]);
      if r.None? then None else Some(([s[0]] + r.value.0, r.value.1))
  }

  /** A column up to its closing quote; columns are not escaped. */
  function ReadColumn(s: string): (r: Option<(string, string)>)
    ensures r.Some? ==> |r.value.1| < |s|
  {
    if s == "" then None
    else if s[0] == '"' then Some(("", s[1..]))
    else
      var r := ReadColumn(s[1..]);
      if r.None? then None else Some(([s[0]] + r.value.0, r.value.1))
  }

  /** Quoted values separated by commas, up to the closing parenthesis. */
  function ReadValues(s: string): (r: Option<(seq<string>, string)>)
    ensures r.Some? ==> |r.value.1| < |s|
    decreases |s|
  {
    if s == "" || s[0] != '"' then None
    else
      var v := ReadQuoted(s[1..]);
      if v.None? || v.value.1 == "" then None
      else if v.value.1[0] == ')' then Some(([v.value.0], v.value.1[1..]))
      else if v.value.1[0] == ',' then
        var more := ReadValues(v.value.1[1..]);
        if more.None? then None else Some(([v.value.0] + more.value.0, more.value.1))
      else None
  }

  function Parse(s: string): (r: Option<(Filter, string)>)
    ensures r.Some? ==> |r.value.1| < |s|
    decreases |s|, 0
  {
    if After(s, "and(").Some? then
      var r := ParseArgs(After(s, "and(").value);
      if r.None? then None else Some((And(r.value.0), r.value.1))
    else if After(s, "or(").Some? then
      var r := ParseArgs(After(s, "or(").value);
      if r.None? then None else Some((Or(r.value.0), r.value.1))
    else if s == "" || s[0] != '"' then None
    else
      var c := ReadColumn(s[1..]);
      if c.None? then None else ParseOp(c.value.0, c.value.1)
  }

  function ParseOp(c: string, s: string): (r: Option<(Filter, string)>)
    ensures r.Some? ==> |r.value.1| < |s|
  {
    if After(s, ".eq.\"").Some? then
      var v := ReadQuoted(After(s, ".eq.\"").value);
      if v.None? then None else Some((Eq(c, v.value.0), v.value.1))
    else if After(s, ".gte.\"").Some? then
      var v := ReadQuoted(After(s, ".gte.\"").value);
      if v.None? then None else Some((Gte(c, v.value.0), v.value.1))
    else if After(s, ".is.null").Some? then Some((IsNull(c), After(s, ".is.null").value))
    else if After(s, ".in.()").Some? then Some((In(c, []), After(s, ".in.()").value))
    else if After(s, ".in.(").Some? then
      var v := ReadValues(After(s, ".in.(").value);
      if v.None? then None else Some((In(c, v.value.0), v.value.1))
    else None
  }

  /** Clauses up to the closing parenthesis; there may be none. */
  function ParseArgs(s: string): (r: Option<(seq<Filter>, string)>)
    ensures r.Some? ==> |r.value.1| < |s|
    decreases |s|, 2
  {
    if After(s, ")").Some? then Some(([], After(s, ")").value)) else ParseList(s)
  }

  function ParseList(s: string): (r: Option<(seq<Filter>, string)>)
    ensures r.Some? ==> |r.value.1| < |s|
    decreases |s|, 1
  {
    var f := Parse(s);
    if f.None? || f.value.1 == "" then None
    else if f.value.1[0] == ')' then Some(([f.value.0], f.value.1[1..]))
    else if f.value.1[0] == ',' then
      var more := ParseList(f.value.1[1..]);
      if more.None? then None else Some(([f.value.0] + more.value.0, more.value.1))
    else None
  }

  // ----- the round trip -----

  /** Columns are printed unescaped, so they must not hold the quote that ends them. */
  predicate Printable(f: Filter)
    decreases f
  {
    match f
    case And(cs) => AllPrintable(cs)
    case Or(cs) => AllPrintable(cs)
    case _ => '"' !in f.column
  }

  predicate AllPrintable(fs: seq<Filter>)
    decreases fs
  {
    fs == [] || (Printable(fs[0]) && AllPrintable(fs[1..]))
  }

  lemma {:induction false} QuotedReads(v: string, rest: string)
    ensures ReadQuoted(Escaped(v) + "\"" + rest) == Some((v, rest))
    decreases |v|
  {
    if v != "" {
      QuotedReads(v[1..], rest);
      var head := if v[0] == '\\' then "\\\\" else if v[0] == '"' then "\\\"" else [v[0]];
      var tail := Escaped(v[1..]) + "\"" + rest;
      assert Escaped(v) + "\"" + rest == head + tail;
      assert (head + tail)[|head|..] == tail;
      assert [v[0]] + v[1..] == v;
    } else {
      assert ("" + "\"" + rest)[1..] == rest;
    }
  }

  lemma {:induction false} ColumnReads(c: string, rest: string)
    requires '"' !in c
    ensures ReadColumn(c + "\"" + rest) == Some((c, rest))
    decreases |c|
  {
    if c != "" {
      ColumnReads(c[1..], rest);
      assert (c + "\"" + rest)[1..] == c[1..] + "\"" + rest;
      assert [c[0]] + c[1..] == c;
    } else {
      assert ("" + "\"" + rest)[1..] == rest;
    }
  }

  /** One quoted value, and what follows it. */
  lemma QuotedHead(v: string, rest: string)
    ensures var s := QuoteValue(v) + rest;
            s != "" && s[0] == '"' && ReadQuoted(s[1..]) == Some((v, rest))
  {
    QuotedReads(v, rest);
    assert (QuoteValue(v) + rest)[1..] == Escaped(v) + "\"" + rest;
  }

  lemma {:induction false} ValuesRead(vs: seq<string>, rest: string)
    requires vs != []
    ensures ReadValues(JoinedBy(QuotedAll(vs), ',') + ")" + rest) == Some((vs, rest))
    decreases |vs|
  {
    hide QuoteValue, ReadQuoted;
    var q := QuotedAll(vs);
    assert q[0] == QuoteValue(vs[0]);
    if |vs| == 1 {
      QuotedHead(vs[0], ")" + rest);
      assert JoinedBy(q, ',') + ")" + rest == QuoteValue(vs[0]) + (")" + rest);
      assert [vs[0]] == vs;
    } else {
      assert q[1..] == QuotedAll(vs[1..]);
      var more := JoinedBy(q[1..], ',') + ")" + rest;
      ValuesRead(vs[1..], rest);
      QuotedHead(vs[0], "," + more);
      assert JoinedBy(q, ',') + ")" + rest == QuoteValue(vs[0]) + ("," + more);
      assert ("," + more)[1..] == more;
      assert [vs[0]] + vs[1..] == vs;
    }
  }

  lemma AfterIs(prefix: string, rest: string)
    ensures After(prefix + rest, prefix) == Some(rest)
  {
  }

  lemma Differs(s: string, prefix: string, i: nat)
    requires i < |prefix| && (i < |s| ==> s[i] != prefix[i])
    ensures After(s, prefix).None?
  {
    if |prefix| <= |s| {
      assert s[..|prefix|][i] == s[i];
    }
  }

  lemma EqReads(c: string, v: string, rest: string)
    ensures ParseOp(c, ".eq." + QuoteValue(v) + rest) == Some((Eq(c, v), rest))
  {
    var body := Escaped(v) + "\"" + rest;
    assert ".eq." + QuoteValue(v) + rest == ".eq.\"" + body;
    AfterIs(".eq.\"", body);
    QuotedReads(v, rest);
  }

  lemma GteReads(c: string, v: string, rest: string)
    ensures ParseOp(c, ".gte." + QuoteValue(v) + rest) == Some((Gte(c, v), rest))
  {
    var body := Escaped(v) + "\"" + rest;
    var s := ".gte." + QuoteValue(v) + rest;
    assert s == ".gte.\"" + body;
    Differs(s, ".eq.\"", 1);
    AfterIs(".gte.\"", body);
    QuotedReads(v, rest);
  }

  lemma IsReads(c: string, rest: string)
    ensures ParseOp(c, ".is.null" + rest) == Some((IsNull(c), rest))
  {
    var s := ".is.null" + rest;
    Differs(s, ".eq.\"", 1);
    Differs(s, ".gte.\"", 1);
    AfterIs(".is.null", rest);
  }

  lemma InReads(c: string, vs: seq<string>, rest: string)
    ensures ParseOp(c, ".in.(" + JoinedBy(QuotedAll(vs), ',') + ")" + rest) == Some((In(c, vs), rest))
  {
    var s := ".in.(" + JoinedBy(QuotedAll(vs), ',') + ")" + rest;
    Differs(s, ".eq.\"", 1);
    Differs(s, ".gte.\"", 1);
    Differs(s, ".is.null", 2);
    if vs == [] {
      assert s == ".in.()" + rest;
      AfterIs(".in.()", rest);
    } else {
      var body := JoinedBy(QuotedAll(vs), ',') + ")" + rest;
      assert QuotedAll(vs)[0] == QuoteValue(vs[0]);
      assert s == ".in.(" + body && body[0] == '"' && s[5] == body[0];
      Differs(s, ".in.()", 5);
      AfterIs(".in.(", body);
      ValuesRead(vs, rest);
    }
  }

  /** What follows the quoted column. */
  function OpText(f: Filter): string
    requires !f.And? && !f.Or?
  {
    match f
    case Eq(_, v) => ".eq." + QuoteValue(v)
    case Gte(_, v) => ".gte." + QuoteValue(v)
    case IsNull(_) => ".is.null"
    case In(_, vs) => ".in.(" + JoinedBy(QuotedAll(vs), ',') + ")"
  }

  lemma LeafText(f: Filter)
    requires !f.And? && !f.Or?
    ensures Serialize(f) == "\"" + f.column + "\"" + OpText(f)
  {
    match f
    case Eq(c, v) => assert "\".eq." == "\"" + ".eq.";
    case Gte(c, v) => assert "\".gte." == "\"" + ".gte.";
    case IsNull(c) => assert "\".is.null" == "\"" + ".is.null";
    case In(c, vs) => assert "\".in.(" == "\"" + ".in.(";
  }

  lemma OpReads(f: Filter, rest: string)
    requires !f.And? && !f.Or?
    ensures ParseOp(f.column, OpText(f) + rest) == Some((f, rest))
  {
    match f
    case Eq(c, v) => EqReads(c, v, rest);
    case Gte(c, v) => GteReads(c, v, rest);
    case IsNull(c) => IsReads(c, rest);
    case In(c, vs) => InReads(c, vs, rest);
  }

  lemma LeafShape(c: string, op: string, rest: string)
    ensures var s := "\"" + c + "\"" + op + rest;
            s[0] == '"' && s[1..] == c + "\"" + (op + rest)
  {
  }

  lemma LeafReads(f: Filter, rest: string)
    requires !f.And? && !f.Or? && '"' !in f.column
    ensures Parse(Serialize(f) + rest) == Some((f, rest))
  {
    LeafText(f);
    LeafShape(f.column, OpText(f), rest);
    var s := Serialize(f) + rest;
    Differs(s, "and(", 0);
    Differs(s, "or(", 0);
    ColumnReads(f.column, OpText(f) + rest);
    OpReads(f, rest);
  }

  /** Whatever follows it, a printed tree parses back to itself and stops there. */
  lemma {:induction false} ParsesBack(f: Filter, rest: string)
    requires Printable(f)
    ensures Parse(Serialize(f) + rest) == Some((f, rest))
    decreases f, 0
  {
    match f
    case And(cs) =>
      assert Serialize(f) + rest == "and(" + (JoinedBy(SerializeAll(cs), ',') + ")" + rest);
      AfterIs("and(", JoinedBy(SerializeAll(cs), ',') + ")" + rest);
      ArgsRead(cs, rest);
    case Or(cs) =>
      assert Serialize(f) + rest == "or(" + (JoinedBy(SerializeAll(cs), ',') + ")" + rest);
      AfterIs("or(", JoinedBy(SerializeAll(cs), ',') + ")" + rest);
      ArgsRead(cs, rest);
    case _ => LeafReads(f, rest);
  }

  lemma {:induction false} ArgsRead(cs: seq<Filter>, rest: string)
    requires AllPrintable(cs)
    ensures ParseArgs(JoinedBy(SerializeAll(cs), ',') + ")" + rest) == Some((cs, rest))
    decreases cs, 1
  {
    if cs == [] {
      assert "" + ")" + rest == ")" + rest;
      AfterIs(")", rest);
    } else {
      ListReads(cs, rest);
      StartsPlain(cs[0]);
      var s := JoinedBy(SerializeAll(cs), ',') + ")" + rest;
      assert s[0] == Serialize(cs[0])[0];
    }
  }

  lemma JoinedMore(q: seq<string>, rest: string)
    requires |q| > 1
    ensures JoinedBy(q, ',') + ")" + rest == q[0] + ("," + (JoinedBy(q[1..], ',') + ")" + rest))
  {
  }

  lemma StartsPlain(f: Filter)
    ensures Serialize(f) != "" && Serialize(f)[0] != ')'
  {
  }

  lemma {:induction false} ListReads(cs: seq<Filter>, rest: string)
    requires cs != [] && AllPrintable(cs)
    ensures ParseList(JoinedBy(SerializeAll(cs), ',') + ")" + rest) == Some((cs, rest))
    decreases cs, 0
  {
    var q := SerializeAll(cs);
    if |cs| == 1 {
      ParsesBack(cs[0], ")" + rest);
      assert JoinedBy(q, ',') + ")" + rest == Serialize(cs[0]) + (")" + rest);
      assert [cs[0]] == cs;
    } else {
      assert q[1..] == SerializeAll(cs[1..]);
      var more := JoinedBy(q[1..], ',') + ")" + rest;
      ListReads(cs[1..], rest);
      ParsesBack(cs[0], "," + more);
      JoinedMore(q, rest);
      assert ("," + more)[1..] == more;
      assert [cs[0]] + cs[1..] == cs;
    }
  }

  /** Different trees never print alike. */
  lemma SerializeInjective(f: Filter, g: Filter)
    requires Printable(f) && Printable(g) && Serialize(f) == Serialize(g)
    ensures f == g
  {
    ParsesBack(f, "");
    ParsesBack(g, "");
    assert Serialize(f) + "" == Serialize(f);
    assert Serialize(g) + "" == Serialize(g);
  }

  // ----- what a tree selects -----

  /** A row's columns as text; a missing entry is NULL. */
  type Row = map<string, string>

  predicate Denotes(f: Filter, row: Row, atLeast: (string, string) -> bool)
    decreases f
  {
    match f
    case Eq(c, v) => c in row && row[c] == v
    case Gte(c, v) => c in row && atLeast(row[c], v)
    case IsNull(c) => c !in row
    case In(c, vs) => c in row && row[c] in vs
    case And(cs) => forall i :: 0 <= i < |cs| ==> Denotes(cs[i], row, atLeast)
    case Or(cs) => exists i :: 0 <= i < |cs| && Denotes(cs[i], row, atLeast)
  }

  // ----- the query applyScope builds -----

  /** One request parameter; PostgREST ANDs them, and reads an `or` parameter as a logic list. */
  datatype Param =
    | EqParam(column: string, value: string)
    | GteParam(column: string, value: string)
    | IsParam(column: string)
    | InParam(column: string, values: seq<string>)
    | OrParam(list: string)

  type Query = seq<Param>

  function ApplyScope(q: Query, f: Filter): Query
    decreases f, 1
  {
    match f
    case Eq(c, v) => q + [EqParam(c, v)]
    case Gte(c, v) => q + [GteParam(c, v)]
    case IsNull(c) => q + [IsParam(c)]
    case In(c, vs) => q + [InParam(c, vs)]
    case Or(cs) => q + [OrParam(JoinedBy(SerializeAll(cs), ','))]
    case And(cs) => ApplyAll(q, cs)
  }

  /** The reduce over the clauses of a top-level `and`. */
  function ApplyAll(q: Query, cs: seq<Filter>): Query
    decreases cs, 0
  {
    if cs == [] then q else ApplyAll(ApplyScope(q, cs[0]), cs[1..])
  }

  /** The server's reading of one parameter; an unreadable `or` list is a 400 and selects nothing. */
  predicate Admits(p: Param, row: Row, atLeast: (string, string) -> bool) {
    match p
    case EqParam(c, v) => c in row && row[c] == v
    case GteParam(c, v) => c in row && atLeast(row[c], v)
    case IsParam(c) => c !in row
    case InParam(c, vs) => c in row && row[c] in vs
    case OrParam(list) =>
      var parsed := ParseArgs(list + ")");
      parsed.Some? && parsed.value.1 == "" && Denotes(Or(parsed.value.0), row, atLeast)
  }

  predicate Selects(q: Query, row: Row, atLeast: (string, string) -> bool) {
    forall i :: 0 <= i < |q| ==> Admits(q[i], row, atLeast)
  }

  lemma SelectsMore(q: Query, p: Param, row: Row, atLeast: (string, string) -> bool)
    ensures Selects(q + [p], row, atLeast) <==> Selects(q, row, atLeast) && Admits(p, row, atLeast)
  {
    assert (q + [p])[|q|] == p;
    assert forall i :: 0 <= i < |q| ==> (q + [p])[i] == q[i];
  }

  /** The built query selects exactly the rows the tree denotes, among those it already selected. */
  lemma {:induction false} ApplyScopeMeans(q: Query, f: Filter, row: Row, atLeast: (string, string) -> bool)
    requires Printable(f)
    ensures Selects(ApplyScope(q, f), row, atLeast) <==> Selects(q, row, atLeast) && Denotes(f, row, atLeast)
    decreases f, 1
  {
    match f
    case Eq(c, v) => SelectsMore(q, EqParam(c, v), row, atLeast);
    case Gte(c, v) => SelectsMore(q, GteParam(c, v), row, atLeast);
    case IsNull(c) => SelectsMore(q, IsParam(c), row, atLeast);
    case In(c, vs) => SelectsMore(q, InParam(c, vs), row, atLeast);
    case Or(cs) =>
      var list := JoinedBy(SerializeAll(cs), ',');
      SelectsMore(q, OrParam(list), row, atLeast);
      ArgsRead(cs, "");
      assert list + ")" + "" == list + ")";
    case And(cs) => ApplyAllMeans(q, cs, row, atLeast);
  }

  lemma {:induction false} ApplyAllMeans(q: Query, cs: seq<Filter>, row: Row, atLeast: (string, string) -> bool)
    requires AllPrintable(cs)
    ensures Selects(ApplyAll(q, cs), row, atLeast) <==>
              Selects(q, row, atLeast) && forall i :: 0 <= i < |cs| ==> Denotes(cs[i], row, atLeast)
    decreases cs, 0
  {
    if cs != [] {
      ApplyScopeMeans(q, cs[0], row, atLeast);
      ApplyAllMeans(ApplyScope(q, cs[0]), cs[1..], row, atLeast);
      assert forall i :: 0 <= i < |cs| ==> cs[i] == if i == 0 then cs[0] else cs[1..][i - 1];
    }
  }
}
