/** The string operations of the source's language that the model needs, with the facts proved about them. */
module Text {

  // ------------------------------------------------------------------ search

  predicate At(s: string, sep: string, i: int) {
    0 <= i && i + |sep| <= |s| && s[i..i + |sep|] == sep
  }

  function FirstAt(s: string, sep: string, from: nat): (r: int)
    ensures r == -1 || (from <= r && At(s, sep, r))
    ensures forall i :: from <= i && At(s, sep, i) ==> 0 <= r <= i
    decreases |s| - from
  {
    if |s| < from + |sep| then -1
    else if At(s, sep, from) then from
    else FirstAt(s, sep, from + 1)
  }

  /** The first place `sep` occurs, or -1. */
  function IndexOf(s: string, sep: string): (r: int)
    ensures r == -1 || At(s, sep, r)
    ensures forall i :: At(s, sep, i) ==> 0 <= r <= i
  {
    FirstAt(s, sep, 0)
  }

  /** `s` cut at every occurrence of `sep`, from the left and without overlaps. */
  function Split(s: string, sep: string): (r: seq<string>)
    requires sep != []
    ensures r != []
  {
    var i := IndexOf(s, sep);
    if i < 0 then [s] else [s[..i]] + Split(s[i + |sep|..], sep)
  }

  function Join(parts: seq<string>, sep: string): string {
    if parts == [] then ""
    else if |parts| == 1 then parts[0]
    else parts[0] + sep + Join(parts[1..], sep)
  }

  /** Nothing after the end of `a + sep` changes where `sep` first occurs in it. */
  lemma FirstPlace(a: string, sep: string, b: string)
    ensures IndexOf(a + sep + b, sep) == IndexOf(a + sep, sep) >= 0
  {
    var s := a + sep + b;
    assert s[|a|..|a| + |sep|] == sep && (a + sep)[|a|..|a| + |sep|] == sep;
    assert At(s, sep, |a|) && At(a + sep, sep, |a|);
    var i, j := IndexOf(a + sep, sep), IndexOf(s, sep);
    assert s[j..j + |sep|] == (a + sep)[j..j + |sep|] && At(a + sep, sep, j);
    assert s[i..i + |sep|] == (a + sep)[i..i + |sep|] && At(s, sep, i);
  }

  /** What comes before the first `sep` in `a + sep + b` is `a` exactly when no earlier `sep` starts inside `a`. */
  lemma FirstPart(a: string, sep: string, b: string)
    requires sep != []
    ensures Split(a + sep + b, sep)[0] == a <==> IndexOf(a + sep, sep) == |a|
    ensures IndexOf(a + sep, sep) == |a| ==> IndexOf(a + sep + b, sep) == |a| && Split(a + sep + b, sep) == [a] + Split(b, sep)
  {
    var s := a + sep + b;
    FirstPlace(a, sep, b);
    assert s[..|a|] == a && s[|a| + |sep|..] == b;
  }

  lemma IndexOfGrows(s: string, t: string, sep: string)
    requires IndexOf(s, sep) >= 0
    ensures IndexOf(s + t, sep) == IndexOf(s, sep)
  {
    var i := IndexOf(s, sep);
    assert (s + t)[i..i + |sep|] == s[i..i + |sep|] && At(s + t, sep, i);
    var j := IndexOf(s + t, sep);
    assert s[j..j + |sep|] == (s + t)[j..j + |sep|] && At(s, sep, j);
  }

  lemma SplitFirst(s: string, t: string, sep: string)
    requires sep != [] && IndexOf(s, sep) >= 0
    ensures var i := IndexOf(s, sep); Split(s + t, sep) == [s[..i]] + Split(s[i + |sep|..] + t, sep)
  {
    var i := IndexOf(s, sep);
    IndexOfGrows(s, t, sep);
    assert (s + t)[i + |sep|..] == s[i + |sep|..] + t && (s + t)[..i] == s[..i];
  }

  /**
   * Cutting a text that grows: what was cut off before stays, and only the last
   * part has to be cut again together with what is new.
   */
  lemma {:induction false} SplitGrows(s: string, t: string, sep: string)
    requires sep != []
    ensures var parts := Split(s, sep);
            Split(s + t, sep) == parts[..|parts| - 1] + Split(parts[|parts| - 1] + t, sep)
    decreases |s|
  {
    var i := IndexOf(s, sep);
    if i >= 0 {
      var rest := s[i + |sep|..];
      SplitFirst(s, t, sep);
      SplitGrows(rest, t, sep);
      var parts, more := Split(s, sep), Split(rest, sep);
      assert parts == [s[..i]] + more;
      assert parts[..|parts| - 1] == [s[..i]] + more[..|more| - 1];
    }
  }

  lemma {:induction false} JoinFirst(parts: seq<string>, sep: string)
    requires |parts| > 1
    ensures Join(parts, sep) == parts[0] + sep + Join(parts[1..], sep)
  {
  }

  /** Cutting loses nothing, and the parts are cut off as early as possible: no part but the last runs into a separator. */
  lemma {:induction false} SplitMeans(s: string, sep: string)
    requires sep != []
    ensures var parts := Split(s, sep);
            && Join(parts, sep) == s
            && IndexOf(parts[|parts| - 1], sep) == -1
            && forall k :: 0 <= k < |parts| - 1 ==> IndexOf(parts[k] + sep, sep) == |parts[k]|
    decreases |s|
  {
    var i := IndexOf(s, sep);
    if i >= 0 {
      var rest := s[i + |sep|..];
      SplitMeans(rest, sep);
      assert s == s[..i] + sep + rest;
      FirstPlace(s[..i], sep, rest);
      assert Split(s, sep)[1..] == Split(rest, sep);
    }
  }

  /** The characters of a separator are where it occurs. */
  lemma AtChar(s: string, sep: string, i: int, k: nat)
    requires At(s, sep, i) && k < |sep|
    ensures s[i + k] == sep[k]
  {
    assert s[i..i + |sep|][k] == s[i + k];
  }

  /** A one-character separator that does not occur in `a` occurs first right after it. */
  lemma IndexOfAfter(a: string, c: char)
    requires c !in a
    ensures IndexOf(a + [c], [c]) == |a|
  {
    var i := IndexOf(a + [c], [c]);
    assert At(a + [c], [c], |a|);
    assert (a + [c])[i] == [c][0];
  }

  lemma IndexOfChar(a: string, c: char, b: string)
    requires c !in a
    ensures IndexOf(a + [c] + b, [c]) == |a|
  {
    IndexOfAfter(a, c);
    FirstPart(a, [c], b);
  }

  lemma CharAt(s: string, c: char, i: int)
    requires At(s, [c], i)
    ensures c in s
  {
    assert s[i..i + 1][0] == s[i];
  }

  lemma {:induction false} SplitJoin(parts: seq<string>, c: char)
    requires parts != [] && forall k :: 0 <= k < |parts| ==> c !in parts[k]
    ensures Split(Join(parts, [c]), [c]) == parts
  {
    if |parts| == 1 {
      if IndexOf(parts[0], [c]) >= 0 { CharAt(parts[0], c, IndexOf(parts[0], [c])); }
    } else {
      IndexOfAfter(parts[0], c);
      FirstPart(parts[0], [c], Join(parts[1..], [c]));
      SplitJoin(parts[1..], c);
    }
  }

  // -------------------------------------------------------------- characters

  /** White space and line ends, as `trim` removes them. */
  predicate IsSpace(c: char) {
    c == ' ' || '\t' <= c <= '\r' || c == '\U{A0}' || c == '\U{1680}' || '\U{2000}' <= c <= '\U{200A}'
    || c == '\U{2028}' || c == '\U{2029}' || c == '\U{202F}' || c == '\U{205F}' || c == '\U{3000}' || c == '\U{FEFF}'
  }

  function TrimLeft(s: string): string {
    if s != [] && IsSpace(s[0]) then TrimLeft(s[1..]) else s
  }

  function TrimRight(s: string): string {
    if s != [] && IsSpace(s[|s| - 1]) then TrimRight(s[..|s| - 1]) else s
  }

  function Trim(s: string): string {
    TrimRight(TrimLeft(s))
  }

  predicate AllSpace(s: string) {
    forall k :: 0 <= k < |s| ==> IsSpace(s[k])
  }

  lemma {:induction false} TrimLeftMeans(s: string) returns (left: string)
    ensures s == left + TrimLeft(s) && AllSpace(left)
    ensures TrimLeft(s) == [] || !IsSpace(TrimLeft(s)[0])
  {
    if s != [] && IsSpace(s[0]) {
      left := TrimLeftMeans(s[1..]);
      left := [s[0]] + left;
    } else {
      left := [];
    }
  }

  lemma {:induction false} TrimRightMeans(s: string) returns (right: string)
    ensures s == TrimRight(s) + right && AllSpace(right)
    ensures TrimRight(s) == [] || !IsSpace(TrimRight(s)[|TrimRight(s)| - 1])
  {
    if s != [] && IsSpace(s[|s| - 1]) {
      right := TrimRightMeans(s[..|s| - 1]);
      right := right + [s[|s| - 1]];
    } else {
      right := [];
    }
  }

  /** Trimming takes off space at both ends, all of it and nothing else. */
  lemma TrimMeans(s: string) returns (left: string, right: string)
    ensures s == left + Trim(s) + right && AllSpace(left) && AllSpace(right)
    ensures Trim(s) == [] || (!IsSpace(Trim(s)[0]) && !IsSpace(Trim(s)[|Trim(s)| - 1]))
  {
    left := TrimLeftMeans(s);
    right := TrimRightMeans(TrimLeft(s));
    if Trim(s) != [] { assert TrimLeft(s)[0] == Trim(s)[0]; }
  }

  /** Nothing to trim. */
  lemma TrimSame(s: string)
    requires s == [] || (!IsSpace(s[0]) && !IsSpace(s[|s| - 1]))
    ensures Trim(s) == s
  {
  }

  lemma {:induction false} TrimRightKeeps(s: string)
    requires s != [] && !IsSpace(s[0])
    ensures TrimRight(s) != []
  {
    if IsSpace(s[|s| - 1]) { TrimRightKeeps(s[..|s| - 1]); }
  }

  function TrimAll(lines: seq<string>): (r: seq<string>)
    ensures |r| == |lines| && forall k :: 0 <= k < |r| ==> r[k] == Trim(lines[k])
  {
    if lines == [] then [] else [Trim(lines[0])] + TrimAll(lines[1..])
  }

  predicate IsDigit(c: char) { '0' <= c <= '9' }

  function SkipDigits(s: string): (r: string)
    ensures |r| <= |s| && (s != [] && IsDigit(s[0]) ==> |r| < |s|)
  {
    if s != [] && IsDigit(s[0]) then SkipDigits(s[1..]) else s
  }

  /** Every run of digits replaced by one `#`. */
  function HashDigits(s: string): string
    decreases |s|
  {
    if s == [] then []
    else if IsDigit(s[0]) then "#" + HashDigits(SkipDigits(s))
    else [s[0]] + HashDigits(s[1..])
  }

  predicate AllDigits(s: string) {
    forall k :: 0 <= k < |s| ==> IsDigit(s[k])
  }

  lemma {:induction false} SkipDigitsEnds(s: string, rest: string)
    requires rest == [] || !IsDigit(rest[0])
    ensures SkipDigits(s + rest) == SkipDigits(s) + rest
  {
    if s == [] {
      assert s + rest == rest;
    } else if IsDigit(s[0]) {
      assert (s + rest)[1..] == s[1..] + rest;
      SkipDigitsEnds(s[1..], rest);
    }
  }

  lemma {:induction false} SkipAllDigits(s: string)
    requires AllDigits(s)
    ensures SkipDigits(s) == []
  {
    if s != [] { SkipAllDigits(s[1..]); }
  }

  lemma {:induction false} HashBefore(a: string, rest: string)
    requires rest != [] && !IsDigit(rest[0])
    ensures HashDigits(a + rest) == HashDigits(a) + HashDigits(rest)
    decreases |a|
  {
    if a == [] {
      assert a + rest == rest;
    } else if IsDigit(a[0]) {
      SkipDigitsEnds(a, rest);
      HashBefore(SkipDigits(a), rest);
      assert (a + rest)[0] == a[0];
    } else {
      assert (a + rest)[1..] == a[1..] + rest;
      HashBefore(a[1..], rest);
    }
  }

  /** Every character that is no digit stays, and what is before and after it is treated alone. */
  lemma HashAround(a: string, c: char, b: string)
    requires !IsDigit(c)
    ensures HashDigits(a + [c] + b) == HashDigits(a) + [c] + HashDigits(b)
  {
    assert a + [c] + b == a + ([c] + b) && ([c] + b)[1..] == b;
    HashBefore(a, [c] + b);
  }

  /** A whole number becomes one `#`. */
  lemma HashNumber(d: string)
    requires AllDigits(d)
    ensures HashDigits(d) == if d == [] then [] else "#"
  {
    SkipAllDigits(d);
    assert HashDigits([]) == [];
  }

  /** The two texts differ in nothing but the digits of the numbers they contain. */
  predicate SameButNumbers(s: string, t: string)
    decreases |s|
  {
    if s == [] || t == [] then s == t
    else if IsDigit(s[0]) && IsDigit(t[0]) then SameButNumbers(SkipDigits(s), SkipDigits(t))
    else s[0] == t[0] && !IsDigit(s[0]) && SameButNumbers(s[1..], t[1..])
  }

  lemma {:induction false} SameButNumbersHash(s: string, t: string)
    requires SameButNumbers(s, t)
    ensures HashDigits(s) == HashDigits(t)
    decreases |s|
  {
    if s != [] && t != [] {
      if IsDigit(s[0]) && IsDigit(t[0]) {
        SameButNumbersHash(SkipDigits(s), SkipDigits(t));
      } else {
        SameButNumbersHash(s[1..], t[1..]);
      }
    }
  }

  // --------------------------------------------------------------- sequences

  /** The distinct elements, in the order first seen. */
  function Distinct(s: seq<string>): seq<string> {
    if s == [] then []
    else
      var r := Distinct(s[..|s| - 1]);
      if s[|s| - 1] in r then r else r + [s[|s| - 1]]
  }

  /** The elements that are also in `other`. */
  function Within(s: seq<string>, other: seq<string>): seq<string> {
    if s == [] then [] else if s[0] in other then [s[0]] + Within(s[1..], other) else Within(s[1..], other)
  }

  /** The elements that are not in `other`. */
  function Without(s: seq<string>, other: seq<string>): seq<string> {
    if s == [] then [] else if s[0] !in other then [s[0]] + Without(s[1..], other) else Without(s[1..], other)
  }

  lemma {:induction false} DistinctFacts(s: seq<string>)
    ensures forall x :: x in Distinct(s) <==> x in s
    ensures forall i, j :: 0 <= i < j < |Distinct(s)| ==> Distinct(s)[i] != Distinct(s)[j]
  {
    if s != [] {
      DistinctFacts(s[..|s| - 1]);
      assert s == s[..|s| - 1] + [s[|s| - 1]];
    }
  }

  lemma {:induction false} WithinFacts(s: seq<string>, other: seq<string>)
    ensures forall x :: x in Within(s, other) <==> x in s && x in other
  {
    if s != [] { WithinFacts(s[1..], other); }
  }

  lemma {:induction false} WithoutFacts(s: seq<string>, other: seq<string>)
    ensures forall x :: x in Without(s, other) <==> x in s && x !in other
  {
    if s != [] { WithoutFacts(s[1..], other); }
  }

  /** Each element of a list without repeats stands in the order in which it is first seen. */
  lemma {:induction false} DistinctOrder(s: seq<string>, x: string)
    ensures Distinct(s + [x]) == Distinct(s) + if x in s then [] else [x]
  {
    assert (s + [x])[..|s|] == s;
    DistinctFacts(s);
  }

  /** Sorting into "in" and "not in" loses and repeats nothing. */
  lemma {:induction false} WithinWithout(s: seq<string>, other: seq<string>)
    ensures multiset(Within(s, other)) + multiset(Without(s, other)) == multiset(s)
  {
    if s != [] {
      WithinWithout(s[1..], other);
      assert s == [s[0]] + s[1..];
    }
  }
}
