/** Trimming, case folding and the splitting of cause and consequence texts. */
module Statements {

  // Go's Unicode-aware upper and lower casing, left open: no result depends on the tables.
  datatype Folding = Folding(upper: string -> string, lower: string -> string) {
    // The name under which a safeguard is grouped: ToUpper(TrimSpace(key)).
    function Key(independenceKey: string): string { upper(TrimSpace(independenceKey)) }
  }

  // unicode.IsSpace
  predicate IsSpace(c: char) {
    c in {'\t', '\n', '\U{0B}', '\U{0C}', '\r', ' ', '\U{85}', '\U{A0}', '\U{1680}',
          '\U{2028}', '\U{2029}', '\U{202F}', '\U{205F}', '\U{3000}'}
    || '\U{2000}' <= c <= '\U{200A}'
  }

  predicate IsSeparator(c: char) { c == ';' || c == '\n' || c == '|' || c == '\U{3002}' }

  function TrimLeft(s: string): string {
    if s != "" && IsSpace(s[0]) then TrimLeft(s[1..]) else s
  }

  function TrimRight(s: string): string {
    if s != "" && IsSpace(s[|s| - 1]) then TrimRight(s[..|s| - 1]) else s
  }

  // strings.TrimSpace
  function TrimSpace(s: string): string { TrimRight(TrimLeft(s)) }

  // len(s): the bytes of the UTF-8 encoding.
  function ByteLength(s: string): (n: nat)
    ensures |s| <= n <= 4 * |s|
  {
    if s == "" then 0
    else
      ByteLength(s[1..])
      + if s[0] < '\U{80}' then 1 else if s[0] < '\U{800}' then 2 else if s[0] < '\U{10000}' then 3 else 4
  }

  // ----- strings.FieldsFunc

  function Run(s: string): (n: nat)
    ensures n <= |s|
    ensures forall i | 0 <= i < n :: !IsSeparator(s[i])
    ensures n < |s| ==> IsSeparator(s[n])
  {
    if s == "" || IsSeparator(s[0]) then 0 else 1 + Run(s[1..])
  }

  // The maximal separator-free stretches of s.
  function Fields(s: string): (r: seq<string>)
    ensures forall p | p in r :: p != "" && SeparatorFree(p)
    decreases |s|
  {
    if s == "" then []
    else if IsSeparator(s[0]) then Fields(s[1..])
    else [s[..Run(s)]] + Fields(s[Run(s)..])
  }

  predicate SeparatorFree(s: string) { forall i | 0 <= i < |s| :: !IsSeparator(s[i]) }

  // ----- the specification of splitStatements

  function Lowered(fold: Folding, s: seq<string>): set<string> { set p | p in s :: fold.lower(p) }

  function Distinct(fold: Folding, parts: seq<string>): seq<string> {
    if parts == [] then []
    else
      var rest, part := Distinct(fold, parts[..|parts| - 1]), TrimSpace(parts[|parts| - 1]);
      if part == "" || fold.lower(part) in Lowered(fold, rest) then rest else rest + [part]
  }

  function Split(fold: Folding, value: string): seq<string> {
    var clean := Distinct(fold, Fields(value));
    if clean == [] then ["unspecified"] else clean
  }

  method SplitStatements(fold: Folding, value: string) returns (r: seq<string>)
    ensures r == Split(fold, value)
  {
    var parts := Fields(value);
    var clean: seq<string> := [];
    var seen: set<string> := {};
    for i := 0 to |parts|
      invariant clean == Distinct(fold, parts[..i])
      invariant seen == Lowered(fold, clean)
    {
      assert parts[..i + 1][..i] == parts[..i];
      var part := TrimSpace(parts[i]);
      if part == "" { continue; }
      var key := fold.lower(part);
      if key in seen { continue; }
      seen := seen + {key};
      clean := clean + [part];
    }
    assert parts[..|parts|] == parts;
    return if clean == [] then ["unspecified"] else clean;
  }

  // ----- what a statement list looks like

  predicate Trimmed(s: string) { s == "" || (!IsSpace(s[0]) && !IsSpace(s[|s| - 1])) }

  ghost predicate WellFormed(fold: Folding, r: seq<string>) {
    && (forall p | p in r :: p != "" && Trimmed(p) && SeparatorFree(p))
    && (forall i, j | 0 <= i < j < |r| :: fold.lower(r[i]) != fold.lower(r[j]))
  }

  lemma {:induction false} TrimLeftKeeps(s: string)
    ensures TrimLeft(s) == "" || !IsSpace(TrimLeft(s)[0])
    ensures SeparatorFree(s) ==> SeparatorFree(TrimLeft(s))
    ensures s != "" && !IsSpace(s[0]) ==> TrimLeft(s) == s
  {
    if s != "" && IsSpace(s[0]) { TrimLeftKeeps(s[1..]); }
  }

  lemma {:induction false} TrimRightKeeps(s: string)
    ensures TrimRight(s) == "" || !IsSpace(TrimRight(s)[|TrimRight(s)| - 1])
    ensures SeparatorFree(s) ==> SeparatorFree(TrimRight(s))
    ensures TrimRight(s) <= s
    ensures s != "" && !IsSpace(s[|s| - 1]) ==> TrimRight(s) == s
  {
    if s != "" && IsSpace(s[|s| - 1]) { TrimRightKeeps(s[..|s| - 1]); }
  }

  lemma TrimSpaceTrims(s: string)
    ensures Trimmed(TrimSpace(s))
    ensures SeparatorFree(s) ==> SeparatorFree(TrimSpace(s))
  {
    TrimLeftKeeps(s);
    TrimRightKeeps(TrimLeft(s));
  }

  lemma TrimSpaceIdle(s: string)
    requires Trimmed(s)
    ensures TrimSpace(s) == s
  {
    if s != "" {
      TrimLeftKeeps(s);
      TrimRightKeeps(s);
    }
  }

  lemma {:induction false} DistinctWellFormed(fold: Folding, parts: seq<string>)
    requires forall p | p in parts :: SeparatorFree(p)
    ensures WellFormed(fold, Distinct(fold, parts))
  {
    if parts != [] {
      var n := |parts| - 1;
      assert parts[n] in parts;
      DistinctWellFormed(fold, parts[..n]);
      TrimSpaceTrims(parts[n]);
    }
  }

  lemma UnspecifiedWellFormed(fold: Folding)
    ensures WellFormed(fold, ["unspecified"])
  {
    assert Trimmed("unspecified") && SeparatorFree("unspecified");
  }

  lemma SplitWellFormed(fold: Folding, value: string)
    ensures Split(fold, value) != []
    ensures WellFormed(fold, Split(fold, value))
  {
    DistinctWellFormed(fold, Fields(value));
    UnspecifiedWellFormed(fold);
  }

  // ----- first occurrences

  // The folded form under which field j is looked up; blank fields have none.
  predicate Says(fold: Folding, field: string, key: string) {
    TrimSpace(field) != "" && fold.lower(TrimSpace(field)) == key
  }

  // No statement is lost: every non-blank field is listed up to case.
  ghost predicate Covers(fold: Folding, fields: seq<string>, r: seq<string>) {
    forall f | f in fields && TrimSpace(f) != "" :: fold.lower(TrimSpace(f)) in Lowered(fold, r)
  }

  // r[i] is field number at[i], trimmed, and no earlier field says the same.
  ghost predicate FirstAt(fold: Folding, fields: seq<string>, p: string, at: nat) {
    && at < |fields| && p == TrimSpace(fields[at])
    && forall j | 0 <= j < at :: !Says(fold, fields[j], fold.lower(p))
  }

  ghost predicate FirstOccurrences(fold: Folding, fields: seq<string>, r: seq<string>, at: seq<nat>) {
    && |at| == |r|
    && (forall i | 0 <= i < |r| :: FirstAt(fold, fields, r[i], at[i]))
    && (forall i, j | 0 <= i < j < |at| :: at[i] < at[j])
  }

  lemma {:induction false} DistinctCovers(fold: Folding, fields: seq<string>)
    ensures Covers(fold, fields, Distinct(fold, fields))
  {
    if fields != [] {
      var n := |fields| - 1;
      var rest, part := Distinct(fold, fields[..n]), TrimSpace(fields[n]);
      DistinctCovers(fold, fields[..n]);
      assert fields == fields[..n] + [fields[n]];
      assert Lowered(fold, rest + [part]) == Lowered(fold, rest) + {fold.lower(part)};
    }
  }

  lemma {:induction false} DistinctKeepsFirst(fold: Folding, fields: seq<string>) returns (at: seq<nat>)
    ensures FirstOccurrences(fold, fields, Distinct(fold, fields), at)
  {
    at := [];
    if fields != [] {
      var n := |fields| - 1;
      var front := fields[..n];
      at := DistinctKeepsFirst(fold, front);
      var rest, part := Distinct(fold, front), TrimSpace(fields[n]);
      forall i | 0 <= i < |rest| ensures FirstAt(fold, fields, rest[i], at[i]) {
        assert FirstAt(fold, front, rest[i], at[i]);
      }
      if part != "" && fold.lower(part) !in Lowered(fold, rest) {
        DistinctCovers(fold, front);
        forall j | 0 <= j < n ensures !Says(fold, fields[j], fold.lower(part)) {
          assert front[j] in front;
        }
        at := at + [n];
      }
    }
  }

  /** The statements come in the order of their first occurrence, and none is missing. */
  lemma SplitInOrder(fold: Folding, value: string) returns (at: seq<nat>)
    requires exists f :: f in Fields(value) && TrimSpace(f) != ""
    ensures FirstOccurrences(fold, Fields(value), Split(fold, value), at)
    ensures Covers(fold, Fields(value), Split(fold, value))
  {
    DistinctCovers(fold, Fields(value));
    at := DistinctKeepsFirst(fold, Fields(value));
  }

  lemma {:induction false} NothingDistinct(fold: Folding, fields: seq<string>)
    requires forall f | f in fields :: TrimSpace(f) == ""
    ensures Distinct(fold, fields) == []
  {
    if fields != [] {
      assert fields[|fields| - 1] in fields;
      NothingDistinct(fold, fields[..|fields| - 1]);
    }
  }

  // A text that says nothing still gives one statement.
  lemma SplitOfBlank(fold: Folding, value: string)
    requires forall f | f in Fields(value) :: TrimSpace(f) == ""
    ensures Split(fold, value) == ["unspecified"]
  {
    NothingDistinct(fold, Fields(value));
  }

  // ----- what trimming and splitting into fields are

  lemma {:induction false} TrimLeftCuts(s: string) returns (n: nat)
    ensures n <= |s| && TrimLeft(s) == s[n..] && forall i | 0 <= i < n :: IsSpace(s[i])
  {
    n := 0;
    if s != "" && IsSpace(s[0]) {
      var m := TrimLeftCuts(s[1..]);
      n := m + 1;
      assert s[1..][m..] == s[n..];
      assert forall i | 1 <= i < n :: s[i] == s[1..][i - 1];
    }
  }

  lemma {:induction false} TrimRightCuts(s: string) returns (n: nat)
    ensures n <= |s| && TrimRight(s) == s[..n] && forall i | n <= i < |s| :: IsSpace(s[i])
  {
    n := |s|;
    if s != "" && IsSpace(s[|s| - 1]) {
      var m := TrimRightCuts(s[..|s| - 1]);
      n := m;
      assert forall i | n <= i < |s| - 1 :: s[i] == s[..|s| - 1][i];
    }
  }

  /** TrimSpace cuts off blanks at both ends, as many as there are, and nothing else. */
  lemma TrimSpaceCuts(s: string) returns (from: nat, to: nat)
    ensures from <= to <= |s| && TrimSpace(s) == s[from..to]
    ensures (forall i | 0 <= i < from :: IsSpace(s[i])) && (forall i | to <= i < |s| :: IsSpace(s[i]))
    ensures TrimSpace(s) != "" ==> !IsSpace(s[from]) && !IsSpace(s[to - 1])
  {
    from := TrimLeftCuts(s);
    var n := TrimRightCuts(s[from..]);
    to := from + n;
    assert s[from..][..n] == s[from..to];
    TrimSpaceTrims(s);
    assert forall i | to <= i < |s| :: s[i] == s[from..][i - from];
  }

  lemma BlanksAreSpaces()
    ensures forall c | c in " \t\n\r" :: IsSpace(c)
    ensures forall c | 'a' <= c <= 'z' || 'A' <= c <= 'Z' || '0' <= c <= '9' || c in "-_.,;:|" :: !IsSpace(c)
  {
  }

  lemma FieldsStep(s: string)
    requires s != ""
    ensures Fields(s) == if IsSeparator(s[0]) then Fields(s[1..]) else [s[..Run(s)]] + Fields(s[Run(s)..])
  {
  }

  /** A separator always parts the fields before it from those after it, and a text without
      separators is one field; this determines the fields of every text. */
  lemma {:induction false} FieldsPart(x: string, c: char, y: string)
    requires c in {';', '\n', '|', '\U{3002}'}
    ensures Fields(x + [c] + y) == Fields(x) + Fields(y)
    decreases |x|
  {
    var s := x + [c] + y;
    FieldsStep(s);
    if x == "" {
      assert s[0] == c && s[1..] == y;
    } else {
      FieldsStep(x);
      RunOfPrefix(x, c, y);
      var n := if IsSeparator(x[0]) then 1 else Run(x);
      hide Fields, Run, IsSeparator;
      PrefixOf(x, c, y, n);
      FieldsPart(x[n..], c, y);
    }
  }

  lemma PrefixOf(x: string, c: char, y: string, n: nat)
    requires 0 < n <= |x|
    ensures var s := x + [c] + y; s[0] == x[0] && s[..n] == x[..n] && s[n..] == x[n..] + [c] + y
  {
  }

  lemma {:induction false} RunOfPrefix(x: string, c: char, y: string)
    requires IsSeparator(c)
    ensures Run(x + [c] + y) == Run(x)
  {
    var s := x + [c] + y;
    if x != "" && !IsSeparator(x[0]) {
      assert s[0] == x[0] && s[1..] == x[1..] + [c] + y;
      RunOfPrefix(x[1..], c, y);
    } else {
      assert s[0] == if x == "" then c else x[0];
    }
  }

  lemma FieldAlone(x: string)
    requires forall c | c in x :: c !in {';', '\n', '|', '\U{3002}'}
    ensures Fields(x) == if x == "" then [] else [x]
  {
    if x != "" {
      assert forall i | 0 <= i < |x| :: x[i] in x;
      assert Run(x) == |x|;
      FieldsStep(x);
      assert x[..|x|] == x && x[|x|..] == "";
    }
  }

  lemma {:induction false} ByteLengthAdds(s: string, t: string)
    ensures ByteLength(s + t) == ByteLength(s) + ByteLength(t)
  {
    if s == "" {
      assert s + t == t;
    } else {
      assert (s + t)[0] == s[0] && (s + t)[1..] == s[1..] + t;
      ByteLengthAdds(s[1..], t);
    }
  }

  /** The bytes of a key are those of its characters in UTF-8. */
  lemma ByteLengthOfChar(c: char)
    ensures ByteLength("") == 0
    ensures ByteLength([c]) == if c as int <= 0x7F then 1 else if c as int <= 0x7FF then 2 else if c as int <= 0xFFFF then 3 else 4
  {
    assert [c][1..] == "";
  }

  // ----- the round trip

  function Join(parts: seq<string>, separator: char): string {
    if parts == [] then ""
    else if |parts| == 1 then parts[0]
    else parts[0] + [separator] + Join(parts[1..], separator)
  }

  lemma {:induction false} RunStops(p: string, s: string)
    requires SeparatorFree(p)
    requires s == "" || IsSeparator(s[0])
    ensures Run(p + s) == |p|
  {
    if p == "" {
      assert p + s == s;
    } else {
      assert (p + s)[1..] == p[1..] + s;
      RunStops(p[1..], s);
    }
  }

  lemma {:induction false} FieldsJoin(parts: seq<string>, separator: char)
    requires IsSeparator(separator)
    requires forall p | p in parts :: p != "" && SeparatorFree(p)
    ensures Fields(Join(parts, separator)) == parts
  {
    if parts != [] {
      var p := parts[0];
      var tail := if |parts| == 1 then "" else [separator] + Join(parts[1..], separator);
      assert p in parts;
      assert Join(parts, separator) == p + tail;
      RunStops(p, tail);
      assert (p + tail)[..|p|] == p && (p + tail)[|p|..] == tail;
      if |parts| > 1 {
        assert tail[1..] == Join(parts[1..], separator);
        FieldsJoin(parts[1..], separator);
      }
    }
  }

  lemma {:induction false} DistinctIdle(fold: Folding, r: seq<string>)
    requires WellFormed(fold, r)
    ensures Distinct(fold, r) == r
  {
    if r != [] {
      var n := |r| - 1;
      assert r[n] in r;
      assert WellFormed(fold, r[..n]);
      DistinctIdle(fold, r[..n]);
      TrimSpaceIdle(r[n]);
    }
  }

  // Joining well-formed statements with any separator and splitting again is the identity ...
  lemma SplitJoin(fold: Folding, r: seq<string>, separator: char)
    requires r != [] && WellFormed(fold, r)
    requires separator in {';', '\n', '|', '\U{3002}'}
    ensures Split(fold, Join(r, separator)) == r
  {
    FieldsJoin(r, separator);
    DistinctIdle(fold, r);
  }

  // ... so splitting loses nothing that splitting its own output could still find.
  lemma SplitRoundTrip(fold: Folding, value: string, separator: char)
    requires separator in {';', '\n', '|', '\U{3002}'}
    ensures Split(fold, Join(Split(fold, value), separator)) == Split(fold, value)
  {
    SplitWellFormed(fold, value);
    SplitJoin(fold, Split(fold, value), separator);
  }
}
