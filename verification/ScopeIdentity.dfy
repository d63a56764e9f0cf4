/**
 Replication scopes: what normalizeScope admits, the filter and live clause of each collection, and
 the two identities of a scope, the fingerprint input and the registry key.
 */
module ScopeIdentity {
  import opened Prelude
  import opened ScopeFilter
  import opened Text

  // ----- the whitelists -----

  predicate IdChar(c: char) { 'A' <= c <= 'Z' || 'a' <= c <= 'z' || '0' <= c <= '9' || c == '_' || c == '-' }

  /** /^[A-Za-z0-9_-]+$/ */
  predicate ScopeId(s: string) { s != "" && forall i :: 0 <= i < |s| ==> IdChar(s[i]) }

  predicate Digit(c: char) { '0' <= c <= '9' }

  /** `\d{2}` separated by `sep`, n times, at the front of s. */
  predicate Pairs(s: string, n: nat, sep: char)
    requires n >= 1
  {
    && |s| >= 2 && Digit(s[0]) && Digit(s[1])
    && (n > 1 ==> |s| > 2 && s[2] == sep && Pairs(s[3..], n - 1, sep))
  }

  predicate Zone(s: string) { s == "Z" || (|s| == 6 && (s[0] == '+' || s[0] == '-') && Pairs(s[1..], 2, ':')) }

  predicate Fraction(s: string, n: nat) {
    |s| > n && s[0] == '.' && (forall i :: 1 <= i <= n ==> Digit(s[i])) && (s[n + 1..] == "" || Zone(s[n + 1..]))
  }

  predicate TimeOfDay(s: string) {
    && Pairs(s, 3, ':') && |s| >= 8
    && (s[8..] == "" || Zone(s[8..]) || exists n :: 1 <= n <= 6 && Fraction(s[8..], n))
  }

  /** SCOPE_DATE_RE */
  predicate DateShape(s: string) {
    && |s| >= 10 && Digit(s[0]) && Digit(s[1]) && Pairs(s[2..], 3, '-')
    && (|s| == 10 || (s[10] == 'T' && TimeOfDay(s[11..])))
  }

  predicate DateChar(c: char) { Digit(c) || c == '-' || c == ':' || c == '.' || c == '+' || c == 'T' || c == 'Z' }

  lemma {:induction false} PairsChars(s: string, n: nat, sep: char)
    requires n >= 1 && Pairs(s, n, sep) && DateChar(sep)
    ensures |s| >= 3 * n - 1 && forall i :: 0 <= i < 3 * n - 1 ==> DateChar(s[i])
    decreases n
  {
    if n > 1 {
      PairsChars(s[3..], n - 1, sep);
      assert forall i :: 3 <= i < 3 * n - 1 ==> s[i] == s[3..][i - 3];
    }
  }

  lemma ZoneChars(s: string)
    requires Zone(s)
    ensures forall i :: 0 <= i < |s| ==> DateChar(s[i])
  {
    if s != "Z" {
      PairsChars(s[1..], 2, ':');
      assert forall i :: 1 <= i < |s| ==> s[i] == s[1..][i - 1];
    }
  }

  lemma TimeChars(s: string)
    requires TimeOfDay(s)
    ensures forall i :: 0 <= i < |s| ==> DateChar(s[i])
  {
    PairsChars(s, 3, ':');
    var tail := s[8..];
    assert forall i :: 8 <= i < |s| ==> s[i] == tail[i - 8];
    if tail != "" {
      if Zone(tail) {
        ZoneChars(tail);
      } else {
        var n :| 1 <= n <= 6 && Fraction(tail, n);
        assert forall i :: n + 1 <= i < |tail| ==> tail[i] == tail[n + 1..][i - n - 1];
        if tail[n + 1..] != "" {
          ZoneChars(tail[n + 1..]);
        }
      }
    }
  }

  /** No date floor carries a separator or a grammar character. */
  lemma DateChars(s: string)
    requires DateShape(s)
    ensures forall i :: 0 <= i < |s| ==> DateChar(s[i])
  {
    PairsChars(s[2..], 3, '-');
    assert forall i :: 2 <= i < 10 ==> s[i] == s[2..][i - 2];
    if |s| > 10 {
      TimeChars(s[11..]);
      assert forall i :: 11 <= i < |s| ==> s[i] == s[11..][i - 11];
    }
  }

  // ----- the same forms, position by position -----

  /** Digits at every position but those in `seps`, which hold `sep`. */
  predicate DigitsBut(s: string, seps: set<int>, sep: char) {
    forall i :: 0 <= i < |s| ==> if i in seps then s[i] == sep else '0' <= s[i] <= '9'
  }

  /** Nothing, Z, or a signed hour and minute. */
  predicate ZoneAt(s: string) {
    s == "" || s == "Z" || (|s| == 6 && (s[0] == '+' || s[0] == '-') && DigitsBut(s[1..], {2}, ':'))
  }

  /** YYYY-MM-DD, or that, T, hh:mm:ss, one to six decimals or none, and a zone or none. */
  predicate DateAt(s: string) {
    && |s| >= 10 && DigitsBut(s[..10], {4, 7}, '-')
    && (|s| > 10 ==>
          && |s| >= 19 && s[10] == 'T' && DigitsBut(s[11..19], {2, 5}, ':')
          && var rest := s[19..];
             ZoneAt(rest)
             || exists n :: 2 <= n <= 7 && n <= |rest| && rest[0] == '.' && DigitsBut(rest[1..n], {}, ' ')
                            && ZoneAt(rest[n..]))
  }

  lemma PairsAt(s: string, sep: char)
    requires |s| >= 8
    ensures Pairs(s, 3, sep) <==> DigitsBut(s[..8], {2, 5}, sep)
  {
    assert s[3..][3..] == s[6..];
    assert Pairs(s, 3, sep) <==> Digit(s[0]) && Digit(s[1]) && s[2] == sep && Pairs(s[3..], 2, sep);
    assert Pairs(s[3..], 2, sep) <==> Digit(s[3]) && Digit(s[4]) && s[5] == sep && Pairs(s[6..], 1, sep);
    if DigitsBut(s[..8], {2, 5}, sep) {
      assert forall i :: 0 <= i < 8 ==> s[..8][i] == s[i];
    }
  }

  lemma ZonesAgree(s: string)
    ensures ZoneAt(s) <==> s == "" || Zone(s)
  {
    if |s| == 6 {
      var t := s[1..];
      assert Pairs(t, 2, ':') <==> Digit(t[0]) && Digit(t[1]) && t[2] == ':' && Pairs(t[3..], 1, ':');
      assert Pairs(t[3..], 1, ':') <==> Digit(t[3]) && Digit(t[4]);
    }
  }

  lemma FractionsAgree(s: string)
    ensures (exists n :: 1 <= n <= 6 && Fraction(s, n))
            <==> exists n :: 2 <= n <= 7 && n <= |s| && s[0] == '.' && DigitsBut(s[1..n], {}, ' ') && ZoneAt(s[n..])
  {
    if n :| 1 <= n <= 6 && Fraction(s, n) {
      ZonesAgree(s[n + 1..]);
      assert DigitsBut(s[1..n + 1], {}, ' ');
    }
    if n :| 2 <= n <= 7 && n <= |s| && s[0] == '.' && DigitsBut(s[1..n], {}, ' ') && ZoneAt(s[n..]) {
      ZonesAgree(s[n..]);
      assert forall i :: 1 <= i <= n - 1 ==> s[i] == s[1..n][i - 1];
      assert Fraction(s, n - 1);
    }
  }

  /** The recursive recogniser of a date floor admits exactly those forms. */
  lemma DateShapeExactly(s: string)
    ensures DateShape(s) <==> DateAt(s)
  {
    if |s| >= 10 {
      PairsAt(s[2..], '-');
      assert forall i :: 0 <= i < 8 ==> s[2..][..8][i] == s[..10][i + 2];
      assert DigitsBut(s[..10], {4, 7}, '-') <==> Digit(s[0]) && Digit(s[1]) && DigitsBut(s[2..][..8], {2, 5}, '-') by {
        if Digit(s[0]) && Digit(s[1]) && DigitsBut(s[2..][..8], {2, 5}, '-') {
          forall i | 0 <= i < 10 ensures if i in {4, 7} then s[..10][i] == '-' else '0' <= s[..10][i] <= '9' {
            assert i >= 2 ==> s[..10][i] == s[2..][..8][i - 2];
          }
        }
      }
      if |s| > 10 {
        TimesAgree(s);
      }
    }
  }

  lemma TimesAgree(s: string)
    requires |s| > 10
    ensures s[10] == 'T' && TimeOfDay(s[11..]) <==>
              && |s| >= 19 && s[10] == 'T' && DigitsBut(s[11..19], {2, 5}, ':')
              && var rest := s[19..];
                 ZoneAt(rest)
                 || exists n :: 2 <= n <= 7 && n <= |rest| && rest[0] == '.' && DigitsBut(rest[1..n], {}, ' ')
                                && ZoneAt(rest[n..])
  {
    var t := s[11..];
    if |t| >= 8 {
      PairsAt(t, ':');
      assert t[..8] == s[11..19] && t[8..] == s[19..];
      ZonesAgree(t[8..]);
      FractionsAgree(t[8..]);
    }
  }

  /** The characters of an id, by their codes. */
  lemma IdCharCodes(c: char)
    ensures var n := c as int;
            IdChar(c) <==> 48 <= n <= 57 || 65 <= n <= 90 || 97 <= n <= 122 || n == 45 || n == 95
  {
  }

  // ----- normalizeScope -----

  datatype Mode = NoMode | Named(name: string) | NotAString

  /** What a caller passes; a field that is absent or not a string is None. */
  datatype RawScope = RawScope(
    mode: Mode, userId: Option<string>, checklistId: Option<string>, templateId: Option<string>,
    since: Option<string>, fieldIds: seq<Option<string>>, templateIds: seq<Option<string>>)

  datatype Scope =
    | Fill(userId: string, checklistId: string, templateId: string, fieldIds: seq<string>)
    | List(userId: string, since: string, templateIds: seq<string>)

  datatype Refusal = NoScope | UserRequired | BadUser | BadSince | NoTemplates | BadTemplates | UnknownMode
                   | ChecklistRequired | BadChecklist | BadTemplate | BadFields

  /** `.filter((t) => typeof t === 'string' && t !== '')` */
  function Texts(s: seq<Option<string>>): seq<string> {
    if s == [] then []
    else
      var last := s[|s| - 1];
      Texts(s[..|s| - 1]) + if last.Some? && last.value != "" then [last.value] else []
  }

  predicate Given(s: Option<string>) { s.Some? && s.value != "" }

  predicate AllIds(s: seq<string>) { forall i :: 0 <= i < |s| ==> ScopeId(s[i]) }

  /** `readable` is Date.parse answering a number. */
  function NormalizeScope(raw: Option<RawScope>, readable: string -> bool): Result<Scope, Refusal> {
    if raw.None? then Err(NoScope)
    else
      var r := raw.value;
      if r.mode == Named("list") then
        var ids := Texts(r.templateIds);
        if !Given(r.userId) then Err(UserRequired)
        else if !ScopeId(r.userId.value) then Err(BadUser)
        else if !(r.since.Some? && DateShape(r.since.value) && readable(r.since.value)) then Err(BadSince)
        else if ids == [] then Err(NoTemplates)
        else if !AllIds(ids) then Err(BadTemplates)
        else Ok(List(r.userId.value, r.since.value, ids))
      else if r.mode != NoMode && r.mode != Named("fill") then Err(UnknownMode)
      else if !Given(r.checklistId) then Err(ChecklistRequired)
      else if !ScopeId(r.checklistId.value) then Err(BadChecklist)
      else if !(r.templateId.Some? && ScopeId(r.templateId.value)) then Err(BadTemplate)
      else if !Given(r.userId) then Err(UserRequired)
      else if !ScopeId(r.userId.value) then Err(BadUser)
      else if !AllIds(Texts(r.fieldIds)) then Err(BadFields)
      else Ok(Fill(r.userId.value, r.checklistId.value, r.templateId.value, Texts(r.fieldIds)))
  }

  /** What every admitted scope satisfies. */
  predicate Normal(s: Scope) {
    match s
    case Fill(u, c, t, fs) => ScopeId(u) && ScopeId(c) && ScopeId(t) && AllIds(fs)
    case List(u, since, ts) => ScopeId(u) && DateShape(since) && ts != [] && AllIds(ts)
  }

  function AllGiven(s: seq<string>): seq<Option<string>> {
    seq(|s|, (i: nat) requires i < |s| => Some(s[i]))
  }

  /** A normalised scope handed back to a function that normalises again. */
  function AsRaw(s: Scope): RawScope {
    match s
    case Fill(u, c, t, fs) => RawScope(Named("fill"), Some(u), Some(c), Some(t), None, AllGiven(fs), [])
    case List(u, since, ts) => RawScope(Named("list"), Some(u), None, None, Some(since), [], AllGiven(ts))
  }

  lemma {:induction false} TextsOfGiven(s: seq<string>)
    requires AllIds(s)
    ensures Texts(AllGiven(s)) == s
    decreases |s|
  {
    if s != [] {
      var front := s[..|s| - 1];
      assert s[|s| - 1] != "";
      assert AllGiven(s)[..|s| - 1] == AllGiven(front);
      TextsOfGiven(front);
    }
  }

  /** The strings kept are the non-empty ones given, in order. */
  lemma {:induction false} TextsAreGiven(s: seq<Option<string>>)
    ensures AllGiven(Texts(s)) == Where(s, (x: Option<string>) => x.Some? && x.value != "")
    decreases |s|
  {
    if s != [] {
      TextsAreGiven(s[..|s| - 1]);
    }
  }

  /** A scope that is normal, with a floor Date.parse reads, is its own normal form; no other one is. */
  lemma NormalExactly(s: Scope, readable: string -> bool)
    ensures NormalizeScope(Some(AsRaw(s)), readable) == Ok(s) <==> Normal(s) && (s.List? ==> readable(s.since))
  {
    var ids := if s.Fill? then s.fieldIds else s.templateIds;
    if AllIds(ids) {
      TextsOfGiven(ids);
    }
  }

  /** Every field of an admitted scope is the field given, and its ids are the non-empty strings given, in order. */
  lemma NormalizeKeeps(raw: Option<RawScope>, readable: string -> bool)
    requires NormalizeScope(raw, readable).Ok?
    ensures raw.Some?
    ensures var r := raw.value;
            var given := (x: Option<string>) => x.Some? && x.value != "";
            match NormalizeScope(raw, readable).value
            case Fill(u, c, t, fs) =>
              && (r.mode == Named("fill") || r.mode == NoMode) && r.userId == Some(u) && r.checklistId == Some(c)
              && r.templateId == Some(t) && AllGiven(fs) == Where(r.fieldIds, given)
            case List(u, since, ts) =>
              && r.mode == Named("list") && r.userId == Some(u) && r.since == Some(since)
              && AllGiven(ts) == Where(r.templateIds, given)
  {
    TextsAreGiven(raw.value.fieldIds);
    TextsAreGiven(raw.value.templateIds);
  }

  /** A field that is a whitelisted id. */
  predicate IsId(s: Option<string>) { s.Some? && ScopeId(s.value) }

  /** What is refused, and for which field: the first thing wrong, in the order the source looks. */
  lemma RefusedFor(raw: Option<RawScope>, readable: string -> bool)
    ensures match NormalizeScope(raw, readable)
            case Ok(_) => true
            case Err(NoScope) => raw == None
            case Err(UnknownMode) => raw.Some? && raw.value.mode !in {NoMode, Named("fill"), Named("list")}
            case Err(ChecklistRequired) =>
              && raw.Some? && raw.value.mode in {NoMode, Named("fill")}
              && (raw.value.checklistId == None || raw.value.checklistId == Some(""))
            case Err(BadChecklist) => raw.Some? && raw.value.checklistId.Some? && !IsId(raw.value.checklistId)
            case Err(BadTemplate) => raw.Some? && IsId(raw.value.checklistId) && !IsId(raw.value.templateId)
            case Err(UserRequired) =>
              raw.Some? && (raw.value.userId == None || raw.value.userId == Some(""))
            case Err(BadUser) => raw.Some? && raw.value.userId.Some? && !IsId(raw.value.userId)
            case Err(BadSince) =>
              && raw.Some? && raw.value.mode == Named("list") && IsId(raw.value.userId)
              && !(raw.value.since.Some? && DateShape(raw.value.since.value) && readable(raw.value.since.value))
            case Err(NoTemplates) =>
              raw.Some? && raw.value.mode == Named("list")
              && forall i :: 0 <= i < |raw.value.templateIds| ==>
                   raw.value.templateIds[i] == None || raw.value.templateIds[i] == Some("")
            case Err(BadTemplates) =>
              raw.Some? && raw.value.mode == Named("list")
              && exists x :: x in raw.value.templateIds && x.Some? && x.value != "" && !ScopeId(x.value)
            case Err(BadFields) =>
              raw.Some? && raw.value.mode in {NoMode, Named("fill")}
              && exists x :: x in raw.value.fieldIds && x.Some? && x.value != "" && !ScopeId(x.value)
  {
    if raw.Some? {
      BadOneGiven(raw.value.templateIds);
      BadOneGiven(raw.value.fieldIds);
    }
  }

  lemma {:induction false} TextsMean(s: seq<Option<string>>)
    ensures forall x :: x in Texts(s) <==> x != "" && Some(x) in s
    decreases |s|
  {
    if s != [] {
      TextsMean(s[..|s| - 1]);
      assert s == s[..|s| - 1] + [s[|s| - 1]];
    }
  }

  lemma BadOneGiven(s: seq<Option<string>>)
    ensures Texts(s) == [] <==> forall i :: 0 <= i < |s| ==> s[i] == None || s[i] == Some("")
    ensures AllIds(Texts(s)) <==> !exists x :: x in s && x.Some? && x.value != "" && !ScopeId(x.value)
  {
    hide Texts, ScopeId;
    TextsMean(s);
    var kept := Texts(s);
    if kept != [] {
      assert kept[0] in kept;
    }
    forall i | 0 <= i < |s| && s[i].Some? && s[i].value != "" ensures s[i].value in kept {
    }
    if !AllIds(kept) {
      var i :| 0 <= i < |kept| && !ScopeId(kept[i]);
      assert kept[i] in kept && Some(kept[i]) in s;
    }
  }

  /**
   Only whitelisted ids and floors pass, a list scope is never unbounded, and normalising twice is
   normalising once.
   */
  lemma NormalizeAdmits(raw: Option<RawScope>, readable: string -> bool)
    ensures var r := NormalizeScope(raw, readable);
            r.Ok? ==> Normal(r.value) && NormalizeScope(Some(AsRaw(r.value)), readable) == r
  {
    var r := NormalizeScope(raw, readable);
    if r.Ok? {
      match r.value
      case Fill(u, c, t, fs) => TextsOfGiven(fs);
      case List(u, since, ts) => TextsOfGiven(ts);
    }
  }

  // ----- the filters -----

  datatype Collection = Templates | Checklists | Responses | Approvals | Other

  function FilterFor(c: Collection, s: Scope): Option<Filter> {
    match s
    case List(_, since, ts) => (
      match c
      case Templates => Some(In("id", ts))
      case Checklists => Some(And([In("template_id", ts), Gte("submitted_at", since)]))
      case Responses => Some(Gte("answered_at", since))
      case Approvals => Some(Gte("rejected_at", since))
      case Other => None)
    case Fill(_, checklist, template, fs) => (
      match c
      case Templates => Some(Eq("id", template))
      case Checklists => Some(Eq("id", checklist))
      case Responses =>
        if fs != [] then Some(Or([Eq("submission_id", checklist), And([IsNull("submission_id"), In("field_id", fs)])]))
        else Some(Eq("submission_id", checklist))
      case Approvals => Some(Eq("submission_id", checklist))
      case Other => None)
  }

  /** Every collection but an unknown one has a filter, and its columns print unescaped. */
  lemma FilterPrints(c: Collection, s: Scope)
    ensures FilterFor(c, s).None? <==> c == Other
    ensures c != Other ==> Printable(FilterFor(c, s).value)
  {
    if c != Other {
      match FilterFor(c, s).value
      case And(cs) => PairPrints(cs[0], cs[1]);
      case Or(cs) =>
        PairPrints(cs[1].clauses[0], cs[1].clauses[1]);
        PairPrints(cs[0], cs[1]);
      case _ =>
    }
  }

  lemma PairPrints(f: Filter, g: Filter)
    requires Printable(f) && Printable(g)
    ensures AllPrintable([f, g]) && Printable(And([f, g])) && Printable(Or([f, g]))
  {
    assert [f, g][1..] == [g] && [g][1..] == [];
  }

  predicate Holds(row: Row, column: string, value: string) { column in row && row[column] == value }

  /** A draft: a response not yet tied to any submission. */
  predicate Draft(row: Row) { "submission_id" !in row }

  /**
   An open checklist's rows: the checklist, its template, its own rejections and responses, and drafts on its
   fields.
   */
  lemma FillSelects(c: Collection, s: Scope, row: Row, atLeast: (string, string) -> bool)
    requires s.Fill? && c != Other
    ensures Denotes(FilterFor(c, s).value, row, atLeast) <==>
              match c
              case Templates => Holds(row, "id", s.templateId)
              case Checklists => Holds(row, "id", s.checklistId)
              case Responses =>
                Holds(row, "submission_id", s.checklistId)
                || (Draft(row) && exists f :: f in s.fieldIds && Holds(row, "field_id", f))
              case Approvals => Holds(row, "submission_id", s.checklistId)
  {
    if c == Responses && s.fieldIds != [] {
      var draft := And([IsNull("submission_id"), In("field_id", s.fieldIds)]);
      var clauses := [Eq("submission_id", s.checklistId), draft];
      assert Denotes(clauses[0], row, atLeast) <==> Holds(row, "submission_id", s.checklistId);
      assert Denotes(draft.clauses[0], row, atLeast) <==> Draft(row);
      assert Denotes(draft.clauses[1], row, atLeast) <==> exists f :: f in s.fieldIds && Holds(row, "field_id", f);
      assert Denotes(clauses[1], row, atLeast)
        <==> Denotes(draft.clauses[0], row, atLeast) && Denotes(draft.clauses[1], row, atLeast);
    }
  }

  /**
   A list scope's rows: the assigned templates, their checklists submitted at or above the floor, and the
   responses and rejections at or above it; never all history but for the templates.
   */
  lemma ListSelects(c: Collection, s: Scope, row: Row, atLeast: (string, string) -> bool)
    requires s.List? && c != Other
    ensures Denotes(FilterFor(c, s).value, row, atLeast) <==>
              match c
              case Templates => exists t :: t in s.templateIds && Holds(row, "id", t)
              case Checklists =>
                (exists t :: t in s.templateIds && Holds(row, "template_id", t))
                && "submitted_at" in row && atLeast(row["submitted_at"], s.since)
              case Responses => "answered_at" in row && atLeast(row["answered_at"], s.since)
              case Approvals => "rejected_at" in row && atLeast(row["rejected_at"], s.since)
  {
    if c == Checklists {
      var clauses := [In("template_id", s.templateIds), Gte("submitted_at", s.since)];
      assert Denotes(clauses[0], row, atLeast) <==> exists t :: t in s.templateIds && Holds(row, "template_id", t);
      assert Denotes(clauses[1], row, atLeast)
        <==> "submitted_at" in row && atLeast(row["submitted_at"], s.since);
    }
  }

  // ----- the live leg -----

  /** `column=op.value`, the one clause Realtime accepts. */
  function LiveClause(c: Collection, s: Scope): Option<string> {
    match s
    case List(_, since, ts) => (
      match c
      case Templates => Some("id=in.(" + JoinedBy(ts, ',') + ")")
      case Checklists => Some("submitted_at=gte." + since)
      case Approvals => Some("rejected_at=gte." + since)
      case _ => None)
    case Fill(_, checklist, template, _) => (
      match c
      case Templates => Some("id=eq." + template)
      case Checklists => Some("id=eq." + checklist)
      case Approvals => Some("submission_id=eq." + checklist)
      case _ => None)
  }

  /** Realtime's reading of a clause: one comparison, unquoted, `in` a comma-separated list. */
  predicate LiveAdmits(clause: string, row: Row, atLeast: (string, string) -> bool) {
    && CutAt(clause, '=').Some?
    && var (column, rest) := CutAt(clause, '=').value;
       && CutAt(rest, '.').Some?
       && var (op, value) := CutAt(rest, '.').value;
          && column in row
          && (if op == "eq" then row[column] == value
              else if op == "gte" then atLeast(row[column], value)
              else op == "in" && |value| >= 2 && value[0] == '(' && value[|value| - 1] == ')'
                   && row[column] in Split(value[1..|value| - 1], ','))
  }

  lemma IdsAreSafe(s: string, c: char)
    requires ScopeId(s) && !IdChar(c)
    ensures c !in s
  {
  }

  lemma ClauseReads(column: string, op: string, value: string)
    requires '=' !in column && '.' !in op
    ensures var clause := column + "=" + (op + "." + value);
            CutAt(clause, '=') == Some((column, op + "." + value)) && CutAt(op + "." + value, '.') == Some((op, value))
  {
    CutFinds(column, '=', op + "." + value);
    CutFinds(op, '.', value);
  }

  lemma LiveEq(column: string, value: string, row: Row, atLeast: (string, string) -> bool)
    requires '=' !in column
    ensures LiveAdmits(column + "=eq." + value, row, atLeast) <==> Holds(row, column, value)
  {
    ClauseReads(column, "eq", value);
    assert column + "=" + ("eq" + "." + value) == column + "=eq." + value;
  }

  lemma LiveGte(column: string, value: string, row: Row, atLeast: (string, string) -> bool)
    requires '=' !in column
    ensures LiveAdmits(column + "=gte." + value, row, atLeast) <==> column in row && atLeast(row[column], value)
  {
    ClauseReads(column, "gte", value);
    assert column + "=" + ("gte" + "." + value) == column + "=gte." + value;
  }

  lemma LiveIn(column: string, ids: seq<string>, row: Row, atLeast: (string, string) -> bool)
    requires '=' !in column && AllIds(ids) && ids != []
    ensures LiveAdmits(column + "=in.(" + JoinedBy(ids, ',') + ")", row, atLeast)
            <==> exists t :: t in ids && Holds(row, column, t)
  {
    var value := "(" + JoinedBy(ids, ',') + ")";
    ClauseReads(column, "in", value);
    assert column + "=" + ("in" + "." + value) == column + "=in.(" + JoinedBy(ids, ',') + ")";
    assert value[1..|value| - 1] == JoinedBy(ids, ',');
    forall i | 0 <= i < |ids| ensures ',' !in ids[i] { IdsAreSafe(ids[i], ','); }
    SplitJoinedBy(ids, ',');
  }

  /**
   The rows a live clause admits, exactly; responses have none, in either mode. Of two clauses of a list's
   checklists it carries the floor.
   */
  lemma LiveExactly(c: Collection, s: Scope, row: Row, atLeast: (string, string) -> bool)
    requires Normal(s)
    ensures LiveClause(c, s).None? <==> c == Responses || c == Other
    ensures LiveClause(c, s).Some? ==>
              (LiveAdmits(LiveClause(c, s).value, row, atLeast) <==>
                 match s
                 case Fill(_, checklist, template, _) =>
                   if c == Templates then Holds(row, "id", template)
                   else if c == Checklists then Holds(row, "id", checklist)
                   else Holds(row, "submission_id", checklist)
                 case List(_, since, ts) =>
                   if c == Templates then exists t :: t in ts && Holds(row, "id", t)
                   else if c == Checklists then "submitted_at" in row && atLeast(row["submitted_at"], since)
                   else "rejected_at" in row && atLeast(row["rejected_at"], since))
  {
    hide LiveAdmits;
    if s.List? {
      LiveIn("id", s.templateIds, row, atLeast);
      assert "id" + "=in.(" == "id=in.(";
      LiveGte("submitted_at", s.since, row, atLeast);
      assert "submitted_at" + "=gte." == "submitted_at=gte.";
      LiveGte("rejected_at", s.since, row, atLeast);
      assert "rejected_at" + "=gte." == "rejected_at=gte.";
    } else {
      LiveEq("id", if c == Templates then s.templateId else s.checklistId, row, atLeast);
      assert "id" + "=eq." == "id=eq.";
      LiveEq("submission_id", s.checklistId, row, atLeast);
      assert "submission_id" + "=eq." == "submission_id=eq.";
    }
  }

  /** The live filter is coarser than the pull: every row in the pull scope passes it. */
  lemma PullPassesLive(c: Collection, s: Scope, row: Row, atLeast: (string, string) -> bool)
    requires Normal(s) && c != Other && Denotes(FilterFor(c, s).value, row, atLeast)
    ensures LiveClause(c, s).Some? ==> LiveAdmits(LiveClause(c, s).value, row, atLeast)
  {
    hide LiveAdmits, LiveClause, FilterFor;
    LiveExactly(c, s, row, atLeast);
    if s.List? {
      ListSelects(c, s, row, atLeast);
    } else {
      FillSelects(c, s, row, atLeast);
    }
  }

  // ----- the fingerprint input -----

  const NUL: char := '\0'

  function Identity(s: Scope): string {
    match s
    case List(u, _, _) => "list:" + u
    case Fill(u, c, _, _) => "fill:" + (u + ":" + c)
  }

  function FingerprintInput(c: Collection, s: Scope): string
    requires c != Other
  {
    Identity(s) + [NUL] + Serialize(FilterFor(c, s).value)
  }

  lemma IdentityHasNoNul(s: Scope)
    requires Normal(s)
    ensures NUL !in Identity(s)
  {
    IdsAreSafe(s.userId, NUL);
    assert NUL !in "list:" && NUL !in "fill:" && NUL !in ":";
    if s.Fill? {
      IdsAreSafe(s.checklistId, NUL);
    }
  }

  lemma IdentityInjective(s: Scope, t: Scope)
    requires Normal(s) && Normal(t) && Identity(s) == Identity(t)
    ensures s.Fill? == t.Fill? && s.userId == t.userId && (s.Fill? ==> s.checklistId == t.checklistId)
  {
    assert Identity(s)[0] == (if s.List? then 'l' else 'f');
    assert Identity(t)[0] == (if t.List? then 'l' else 'f');
    assert Identity(s)[5..] == Identity(t)[5..];
    if s.List? {
      assert Identity(s)[5..] == s.userId && Identity(t)[5..] == t.userId;
    } else {
      assert Identity(s)[5..] == s.userId + [':'] + s.checklistId;
      assert Identity(t)[5..] == t.userId + [':'] + t.checklistId;
      IdsAreSafe(s.userId, ':');
      IdsAreSafe(t.userId, ':');
      CutFinds(s.userId, ':', s.checklistId);
      CutFinds(t.userId, ':', t.checklistId);
    }
  }

  /** Two replications hash the same input only if mode, crew member, open checklist and filter all agree. */
  lemma FingerprintInputInjective(c: Collection, s: Scope, d: Collection, t: Scope)
    requires c != Other && d != Other && Normal(s) && Normal(t)
    requires FingerprintInput(c, s) == FingerprintInput(d, t)
    ensures s.Fill? == t.Fill? && s.userId == t.userId && (s.Fill? ==> s.checklistId == t.checklistId)
    ensures FilterFor(c, s) == FilterFor(d, t)
  {
    IdentityHasNoNul(s);
    IdentityHasNoNul(t);
    CutFinds(Identity(s), NUL, Serialize(FilterFor(c, s).value));
    CutFinds(Identity(t), NUL, Serialize(FilterFor(d, t).value));
    IdentityInjective(s, t);
    FilterPrints(c, s);
    FilterPrints(d, t);
    SerializeInjective(FilterFor(c, s).value, FilterFor(d, t).value);
  }

  // ----- the registry key -----

  function KeyParts(s: Scope): seq<string> {
    match s
    case List(u, since, ts) => ["list", u, since, JoinedBy(Sorted(ts), '+')]
    case Fill(u, c, t, fs) => ["fill", u, c, t, JoinedBy(Sorted(fs), '+')]
  }

  function ScopeKey(s: Scope): string { JoinedBy(KeyParts(s), NUL) }

  /** The same scope, up to the order its ids were listed in. */
  predicate SameScope(s: Scope, t: Scope) {
    match (s, t)
    case (List(u, since, ts), List(u', since', ts')) => u == u' && since == since' && multiset(ts) == multiset(ts')
    case (Fill(u, c, t, fs), Fill(u', c', t', fs')) => u == u' && c == c' && t == t' && multiset(fs) == multiset(fs')
    case _ => false
  }

  /** Sorted ids are whitelisted ids, so joining them with `+` can be undone. */
  lemma IdsJoinInjective(a: seq<string>, b: seq<string>)
    requires AllIds(a) && AllIds(b)
    ensures JoinedBy(Sorted(a), '+') == JoinedBy(Sorted(b), '+') <==> multiset(a) == multiset(b)
  {
    SortedIds(a);
    SortedIds(b);
    var x, y := Sorted(a), Sorted(b);
    if multiset(a) == multiset(b) {
      AscendingUnique(x, y);
    } else if x != [] && y != [] {
      forall i | 0 <= i < |x| ensures '+' !in x[i] { IdsAreSafe(x[i], '+'); }
      forall i | 0 <= i < |y| ensures '+' !in y[i] { IdsAreSafe(y[i], '+'); }
      SplitJoinedBy(x, '+');
      SplitJoinedBy(y, '+');
    } else {
      NonEmptyJoins(x);
      NonEmptyJoins(y);
    }
  }

  lemma NonEmptyJoins(x: seq<string>)
    requires AllIds(x)
    ensures JoinedBy(x, '+') == "" <==> x == []
  {
  }

  lemma SortedIds(a: seq<string>)
    requires AllIds(a)
    ensures AllIds(Sorted(a)) && Ascending(Sorted(a)) && multiset(Sorted(a)) == multiset(a)
  {
    SortedSorts(a);
    forall i | 0 <= i < |Sorted(a)| ensures ScopeId(Sorted(a)[i]) {
      assert Sorted(a)[i] in multiset(Sorted(a));
      assert Sorted(a)[i] in a;
    }
  }

  lemma {:induction false} JoinedChars(x: seq<string>)
    requires AllIds(x)
    ensures NUL !in JoinedBy(x, '+')
    decreases |x|
  {
    if x != [] {
      IdsAreSafe(x[0], NUL);
      JoinedChars(x[1..]);
    }
  }

  lemma PartsHaveNoNul(s: Scope)
    requires Normal(s)
    ensures forall i :: 0 <= i < |KeyParts(s)| ==> NUL !in KeyParts(s)[i]
  {
    IdsAreSafe(s.userId, NUL);
    assert NUL !in "list" && NUL !in "fill";
    if s.List? {
      DateChars(s.since);
      SortedIds(s.templateIds);
      JoinedChars(Sorted(s.templateIds));
    } else {
      IdsAreSafe(s.checklistId, NUL);
      IdsAreSafe(s.templateId, NUL);
      SortedIds(s.fieldIds);
      JoinedChars(Sorted(s.fieldIds));
    }
  }

  /** One registry entry per scope: keys agree exactly when the scopes do. */
  lemma ScopeKeyExact(s: Scope, t: Scope)
    requires Normal(s) && Normal(t)
    ensures ScopeKey(s) == ScopeKey(t) <==> SameScope(s, t)
  {
    PartsHaveNoNul(s);
    PartsHaveNoNul(t);
    SplitJoinedBy(KeyParts(s), NUL);
    SplitJoinedBy(KeyParts(t), NUL);
    var a, b := KeyParts(s), KeyParts(t);
    assert ScopeKey(s) == ScopeKey(t) <==> a == b;
    if s.List? && t.List? {
      IdsJoinInjective(s.templateIds, t.templateIds);
      assert a == b <==> a[1] == b[1] && a[2] == b[2] && a[3] == b[3];
    } else if s.Fill? && t.Fill? {
      IdsJoinInjective(s.fieldIds, t.fieldIds);
      assert a == b <==> a[1] == b[1] && a[2] == b[2] && a[3] == b[3] && a[4] == b[4];
    } else {
      assert |a| != |b|;
    }
  }
}
