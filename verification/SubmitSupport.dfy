/** The order number the crew types: trimmed, then one to six decimal digits. */
module SubmitSupport {

  /** What String.prototype.trim removes: white space and line terminators. */
  predicate JsSpace(c: char) {
    || c == ' ' || '\t' <= c <= '\r' || c == '\U{a0}' || c == '\U{1680}' || '\U{2000}' <= c <= '\U{200a}'
    || c == '\U{2028}' || c == '\U{2029}' || c == '\U{202f}' || c == '\U{205f}' || c == '\U{3000}' || c == '\U{feff}'
  }

  predicate Blank(s: string) { forall i :: 0 <= i < |s| ==> JsSpace(s[i]) }

  function TrimStart(s: string): string {
    if s != "" && JsSpace(s[0]) then TrimStart(s[1..]) else s
  }

  function TrimEnd(s: string): string {
    if s != "" && JsSpace(s[|s| - 1]) then TrimEnd(s[..|s| - 1]) else s
  }

  predicate OrderNumber(v: string) {
    1 <= |v| <= 6 && forall i :: 0 <= i < |v| ==> '0' <= v[i] <= '9'
  }

  datatype Validation = Validation(ok: bool, value: string)

  function ValidateOrderNumber(raw: string): Validation {
    var value := TrimEnd(TrimStart(raw));
    Validation(OrderNumber(value), value)
  }

  lemma {:induction false} StartTrimmed(s: string) returns (before: string)
    ensures s == before + TrimStart(s) && Blank(before)
    decreases |s|
  {
    before := "";
    if s != "" && JsSpace(s[0]) {
      var rest := StartTrimmed(s[1..]);
      before := [s[0]] + rest;
    }
  }

  lemma {:induction false} EndTrimmed(s: string) returns (after: string)
    ensures s == TrimEnd(s) + after && Blank(after)
    decreases |s|
  {
    after := "";
    if s != "" && JsSpace(s[|s| - 1]) {
      var rest := EndTrimmed(s[..|s| - 1]);
      after := rest + [s[|s| - 1]];
    }
  }

  lemma {:induction false} TrimsStart(before: string, v: string)
    requires Blank(before) && v != "" && !JsSpace(v[0])
    ensures TrimStart(before + v) == v
    decreases |before|
  {
    if before == "" {
      assert before + v == v;
    } else {
      assert (before + v)[1..] == before[1..] + v;
      TrimsStart(before[1..], v);
    }
  }

  lemma {:induction false} TrimsEnd(v: string, after: string)
    requires Blank(after) && v != "" && !JsSpace(v[|v| - 1])
    ensures TrimEnd(v + after) == v
    decreases |after|
  {
    if after == "" {
      assert v + after == v;
    } else {
      assert (v + after)[..|v + after| - 1] == v + after[..|after| - 1];
      TrimsEnd(v, after[..|after| - 1]);
    }
  }

  lemma DigitIn(c: char)
    ensures '0' <= c <= '9' <==> c in "0123456789"
  {
    var digits := "0123456789";
    if '0' <= c <= '9' {
      assert digits[c as int - '0' as int] == c;
    }
  }

  lemma DigitsOnly(v: string)
    ensures OrderNumber(v) <==> 1 <= |v| <= 6 && forall i :: 0 <= i < |v| ==> v[i] in "0123456789"
  {
    forall i | 0 <= i < |v| ensures '0' <= v[i] <= '9' <==> v[i] in "0123456789" {
      DigitIn(v[i]);
    }
  }

  /** White space alone: the characters String.prototype.trim removes, by their codes. */
  predicate White(s: string) {
    forall i :: 0 <= i < |s| ==>
      var n := s[i] as int;
      9 <= n <= 13 || n in {32, 160, 5760, 8232, 8233, 8239, 8287, 12288, 65279} || 8192 <= n <= 8202
  }

  lemma BlankIsWhite(s: string)
    ensures White(s) <==> Blank(s)
  {
    forall i | 0 <= i < |s|
      ensures JsSpace(s[i]) <==>
                var n := s[i] as int;
                9 <= n <= 13 || n in {32, 160, 5760, 8232, 8233, 8239, 8287, 12288, 65279} || 8192 <= n <= 8202
    {
    }
  }

  lemma TrimmedAround(raw: string, v: string)
    ensures ValidateOrderNumber(raw) == Validation(true, v)
            <==> OrderNumber(v) && exists before, after :: Blank(before) && Blank(after) && raw == before + v + after
  {
    if ValidateOrderNumber(raw) == Validation(true, v) {
      var before := StartTrimmed(raw);
      var after := EndTrimmed(TrimStart(raw));
      assert raw == before + v + after;
    }
    if OrderNumber(v) && exists before, after :: Blank(before) && Blank(after) && raw == before + v + after {
      var before, after :| Blank(before) && Blank(after) && raw == before + v + after;
      assert raw == before + (v + after);
      TrimsStart(before, v + after);
      TrimsEnd(v, after);
    }
  }

  /** An entry validates as `v` exactly when it is an order number `v` with nothing but white space around it. */
  lemma ValidateExactly(raw: string, v: string)
    ensures ValidateOrderNumber(raw) == Validation(true, v)
            <==> && 1 <= |v| <= 6 && (forall i :: 0 <= i < |v| ==> v[i] in "0123456789")
                 && exists before, after :: White(before) && White(after) && raw == before + v + after
  {
    hide ValidateOrderNumber, OrderNumber, Blank, White;
    TrimmedAround(raw, v);
    DigitsOnly(v);
    forall s ensures White(s) <==> Blank(s) {
      BlankIsWhite(s);
    }
  }
}
