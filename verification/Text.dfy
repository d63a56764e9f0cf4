/** Text as the repository cuts, joins and sorts it. */
module Text {
  import opened Prelude

  /** The text before the first `sep`, and the text after it. */
  function CutAt(s: string, sep: char): Option<(string, string)> {
    if s == "" then None
    else if s[0] == sep then Some(("", s[1..]))
    else
      var r := CutAt(s[1..], sep);
      if r.None? then None else Some(([s[0]] + r.value.0, r.value.1))
  }

  function Split(s: string, sep: char): seq<string>
    decreases |s|
  {
    if CutAt(s, sep).None? then [s]
    else
      CutShorter(s, sep);
      [CutAt(s, sep).value.0] + Split(CutAt(s, sep).value.1, sep)
  }

  lemma {:induction false} CutShorter(s: string, sep: char)
    ensures CutAt(s, sep).Some? ==> |CutAt(s, sep).value.1| < |s|
    decreases |s|
  {
    if s != "" && s[0] != sep {
      CutShorter(s[1..], sep);
    }
  }

  lemma {:induction false} CutFinds(a: string, sep: char, b: string)
    requires sep !in a
    ensures CutAt(a + [sep] + b, sep) == Some((a, b))
    decreases |a|
  {
    if a == "" {
      assert ("" + [sep] + b)[1..] == b;
    } else {
      assert (a + [sep] + b)[1..] == a[1..] + [sep] + b;
      CutFinds(a[1..], sep, b);
      assert [a[0]] + a[1..] == a;
    }
  }

  lemma {:induction false} CutMisses(a: string, sep: char)
    requires sep !in a
    ensures CutAt(a, sep).None?
    decreases |a|
  {
    if a != "" {
      CutMisses(a[1..], sep);
    }
  }

  function JoinedBy(parts: seq<string>, sep: char): string {
    if parts == [] then "" else if |parts| == 1 then parts[0] else parts[0] + [sep] + JoinedBy(parts[1..], sep)
  }

  lemma {:induction false} SplitJoinedBy(parts: seq<string>, sep: char)
    requires parts != [] && forall i :: 0 <= i < |parts| ==> sep !in parts[i]
    ensures Split(JoinedBy(parts, sep), sep) == parts
    decreases |parts|
  {
    if |parts| == 1 {
      CutMisses(parts[0], sep);
    } else {
      CutFinds(parts[0], sep, JoinedBy(parts[1..], sep));
      SplitJoinedBy(parts[1..], sep);
    }
  }

  // ----- code-unit order -----

  /** Code-unit order, as Array.prototype.sort compares strings. */
  predicate AtMost(a: string, b: string) {
    a == "" || (b != "" && (a[0] < b[0] || (a[0] == b[0] && AtMost(a[1..], b[1..]))))
  }

  /** A prefix comes first, and otherwise the first code unit that differs decides. */
  lemma {:induction false} AtMostExactly(a: string, b: string)
    ensures AtMost(a, b) <==>
              a <= b || exists i :: 0 <= i < |a| && i < |b| && a[..i] == b[..i] && a[i] < b[i]
    decreases |a|
  {
    if a != "" && b != "" {
      AtMostExactly(a[1..], b[1..]);
      if a[0] == b[0] {
        if i :| 0 <= i < |a[1..]| && i < |b[1..]| && a[1..][..i] == b[1..][..i] && a[1..][i] < b[1..][i] {
          assert a[..i + 1] == [a[0]] + a[1..][..i] && b[..i + 1] == [b[0]] + b[1..][..i];
        }
        if i :| 0 <= i < |a| && i < |b| && a[..i] == b[..i] && a[i] < b[i] {
          assert a[1..][..i - 1] == a[..i][1..] && b[1..][..i - 1] == b[..i][1..];
        }
        assert a <= b <==> a[1..] <= b[1..] by {
          assert a == [a[0]] + a[1..] && b == [b[0]] + b[1..];
        }
      } else if a[0] < b[0] {
        assert a[..0] == b[..0];
      } else {
        assert forall i :: 0 < i < |a| && i < |b| && a[..i] == b[..i] ==> a[..i][0] == b[..i][0];
      }
    }
  }

  lemma {:induction false} AtMostTotal(a: string, b: string)
    ensures AtMost(a, b) || AtMost(b, a)
    ensures AtMost(a, b) && AtMost(b, a) ==> a == b
    decreases |a|
  {
    if a != "" && b != "" {
      AtMostTotal(a[1..], b[1..]);
      assert a == [a[0]] + a[1..] && b == [b[0]] + b[1..];
    }
  }

  lemma {:induction false} AtMostTransitive(a: string, b: string, c: string)
    requires AtMost(a, b) && AtMost(b, c)
    ensures AtMost(a, c)
    decreases |a|
  {
    if a != "" && a[0] == b[0] == c[0] {
      AtMostTransitive(a[1..], b[1..], c[1..]);
    }
  }

  predicate Ascending(s: seq<string>) {
    forall i, j :: 0 <= i <= j < |s| ==> AtMost(s[i], s[j])
  }

  function Inserted(x: string, s: seq<string>): seq<string> {
    if s == [] || AtMost(x, s[0]) then [x] + s else [s[0]] + Inserted(x, s[1..])
  }

  function Sorted(s: seq<string>): seq<string> {
    if s == [] then [] else Inserted(s[0], Sorted(s[1..]))
  }

  lemma {:induction false} InsertedKeeps(x: string, s: seq<string>)
    requires Ascending(s)
    ensures Ascending(Inserted(x, s)) && multiset(Inserted(x, s)) == multiset{x} + multiset(s)
    decreases |s|
  {
    AtMostTotal(x, x);
    if s == [] {
    } else if AtMost(x, s[0]) {
      forall i | 0 <= i < |s| ensures AtMost(x, s[i]) {
        AtMostTransitive(x, s[0], s[i]);
      }
    } else {
      AtMostTotal(x, s[0]);
      assert s == [s[0]] + s[1..];
      InsertedKeeps(x, s[1..]);
      var r := Inserted(x, s[1..]);
      forall i | 0 <= i < |r| ensures AtMost(s[0], r[i]) {
        assert r[i] in multiset(r);
        assert r[i] == x || r[i] in s[1..];
      }
    }
  }

  lemma {:induction false} SortedSorts(s: seq<string>)
    ensures Ascending(Sorted(s)) && multiset(Sorted(s)) == multiset(s)
    decreases |s|
  {
    if s != [] {
      SortedSorts(s[1..]);
      InsertedKeeps(s[0], Sorted(s[1..]));
      assert s == [s[0]] + s[1..];
    }
  }

  lemma {:induction false} AscendingUnique(a: seq<string>, b: seq<string>)
    requires Ascending(a) && Ascending(b) && multiset(a) == multiset(b)
    ensures a == b
    decreases |a|
  {
    assert |a| == |multiset(a)| == |multiset(b)| == |b|;
    if a != [] {
      assert a[0] in multiset(b) && b[0] in multiset(a);
      AtMostTotal(a[0], b[0]);
      assert a == [a[0]] + a[1..] && b == [b[0]] + b[1..];
      assert multiset(a[1..]) == multiset(a) - multiset{a[0]};
      AscendingUnique(a[1..], b[1..]);
    }
  }
}
