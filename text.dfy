/**
 * String helpers with the semantics of the Python built-ins the application
 * uses: `str.split` on a separator, `sep.join`, the `in` substring test,
 * `str.lower`, `str.strip`, `int(str)` and decimal formatting.
 * Character classes are ASCII only (see README, "Left out").
 */
module Text {
  import opened Wrappers

  // ---------------------------------------------------------------------
  // Splitting on a single character and joining back
  // ---------------------------------------------------------------------

  /** `s.split(c)` for a one-character separator: never empty, one more part than separators. */
  function Split(s: string, c: char): (parts: seq<string>)
    ensures |parts| >= 1
    ensures forall i :: 0 <= i < |parts| ==> c !in parts[i]
    decreases |s|
  {
    if s == [] then [""]
    else if s[0] == c then [""] + Split(s[1..], c)
    else
      var rest := Split(s[1..], c);
      [[s[0]] + rest[0]] + rest[1..]
  }

  /** `sep.join(parts)`. */
  function Join(parts: seq<string>, sep: string): string
    decreases |parts|
  {
    if parts == [] then ""
    else if |parts| == 1 then parts[0]
    else parts[0] + sep + Join(parts[1..], sep)
  }

  lemma {:induction false} SplitNoSeparator(a: string, c: char)
    requires c !in a
    ensures Split(a, c) == [a]
    decreases |a|
  {
    if a != [] {
      SplitNoSeparator(a[1..], c);
      assert [a[0]] + a[1..] == a;
    }
  }

  lemma {:induction false} SplitAfterPart(a: string, c: char, b: string)
    requires c !in a
    ensures Split(a + [c] + b, c) == [a] + Split(b, c)
    decreases |a|
  {
    var s := a + [c] + b;
    if a == [] {
      assert s[0] == c && s[1..] == b;
    } else {
      assert s[0] == a[0] && s[1..] == a[1..] + [c] + b;
      SplitAfterPart(a[1..], c, b);
      assert [a[0]] + a[1..] == a;
    }
  }

  /** Splitting a join gives back the parts, provided none of them holds the separator. */
  lemma {:induction false} SplitJoin(parts: seq<string>, c: char)
    requires |parts| >= 1
    requires forall i :: 0 <= i < |parts| ==> c !in parts[i]
    ensures Split(Join(parts, [c]), c) == parts
    decreases |parts|
  {
    if |parts| == 1 {
      SplitNoSeparator(parts[0], c);
    } else {
      SplitJoin(parts[1..], c);
      SplitAfterPart(parts[0], c, Join(parts[1..], [c]));
      assert [parts[0]] + parts[1..] == parts;
    }
  }

  /** Joining a split gives back the string. */
  lemma {:induction false} JoinSplit(s: string, c: char)
    ensures Join(Split(s, c), [c]) == s
    decreases |s|
  {
    if s != [] {
      JoinSplit(s[1..], c);
      var rest := Split(s[1..], c);
      if s[0] == c {
        assert s == [c] + s[1..];
      } else if |rest| == 1 {
        assert s == [s[0]] + rest[0];
      } else {
        assert Join(rest, [c]) == rest[0] + [c] + Join(rest[1..], [c]);
        var parts := [[s[0]] + rest[0]] + rest[1..];
        assert parts[1..] == rest[1..];
        assert s == [s[0]] + s[1..];
      }
    }
  }

  // ---------------------------------------------------------------------
  // Substring search: `m in s` and `s.split(m)[-1]`
  // ---------------------------------------------------------------------

  /** The marker `m` occurs in `s` starting at position `j`. */
  predicate OccursAt(s: string, m: string, j: int) {
    0 <= j && j + |m| <= |s| && s[j..j + |m|] == m
  }

  /** Python's `m in s`. */
  predicate Contains(s: string, m: string) {
    exists j :: 0 <= j <= |s| && OccursAt(s, m, j)
  }

  /**
   * `str.split(m)` scanning `s` from position `j`, the current piece having
   * started at `start`: an occurrence at `j` cuts there and the scan goes on
   * after it; otherwise the scan moves one character on. The result is
   * where the last piece starts.
   */
  function CutFrom(s: string, m: string, j: nat, start: nat): (k: nat)
    requires |m| > 0 && start <= j <= |s|
    ensures start <= k <= |s|
    decreases |s| - j
  {
    if j + |m| > |s| then start
    else if s[j..j + |m|] == m then CutFrom(s, m, j + |m|, j + |m|)
    else CutFrom(s, m, j + 1, start)
  }

  /** Where `s.split(m)[-1]` starts, for a non-empty separator. */
  function LastPieceStart(s: string, m: string): (k: nat)
    requires |m| > 0
    ensures k <= |s|
  {
    CutFrom(s, m, 0, 0)
  }

  /** `s.split(m)[-1]`. */
  function LastPiece(s: string, m: string): string
    requires |m| > 0
  {
    s[LastPieceStart(s, m)..]
  }

  /** No occurrence of `m` starts at a position in `[a, b)`. */
  predicate NoneBetween(s: string, m: string, a: int, b: int) {
    forall p :: a <= p < b ==> !OccursAt(s, m, p)
  }

  /** The scan position `j` with the piece started at `start`, as the scan keeps them. */
  predicate ScanState(s: string, m: string, j: nat, start: nat) {
    && |m| > 0 && start <= j <= |s|
    && (start == 0 || (|m| <= start && OccursAt(s, m, start - |m|)))
    && NoneBetween(s, m, start, j)
  }

  /**
   * The scan keeps its two facts: the piece being read starts right after an
   * occurrence (or at the beginning), and holds none before the scan position;
   * so the piece it ends on holds none at all.
   */
  lemma {:induction false} CutFromSpec(s: string, m: string, j: nat, start: nat)
    requires ScanState(s, m, j, start)
    ensures ScanState(s, m, |s|, CutFrom(s, m, j, start))
    decreases |s| - j
  {
    if j + |m| > |s| {
      ScanEnd(s, m, j, start);
    } else if s[j..j + |m|] == m {
      ScanCut(s, m, j, start);
      CutFromSpec(s, m, j + |m|, j + |m|);
    } else {
      ScanSkip(s, m, j, start);
      CutFromSpec(s, m, j + 1, start);
    }
  }

  /** Too few characters are left for another occurrence: the scan stops. */
  lemma ScanEnd(s: string, m: string, j: nat, start: nat)
    requires ScanState(s, m, j, start) && j + |m| > |s|
    ensures CutFrom(s, m, j, start) == start && ScanState(s, m, |s|, start)
  {
  }

  /** An occurrence at the scan position: cut there and go on after it. */
  lemma ScanCut(s: string, m: string, j: nat, start: nat)
    requires ScanState(s, m, j, start) && j + |m| <= |s| && s[j..j + |m|] == m
    ensures CutFrom(s, m, j, start) == CutFrom(s, m, j + |m|, j + |m|)
    ensures ScanState(s, m, j + |m|, j + |m|)
  {
    assert OccursAt(s, m, j);
  }

  /** No occurrence at the scan position: move one character on. */
  lemma ScanSkip(s: string, m: string, j: nat, start: nat)
    requires ScanState(s, m, j, start) && j + |m| <= |s| && s[j..j + |m|] != m
    ensures CutFrom(s, m, j, start) == CutFrom(s, m, j + 1, start)
    ensures ScanState(s, m, j + 1, start)
  {
    assert !OccursAt(s, m, j);
  }

  /**
   * What `s.split(m)[-1]` promises: the last piece holds no occurrence of the
   * separator; when the separator occurs, an occurrence ends right where the
   * last piece starts; otherwise the last piece is the whole text.
   */
  lemma LastPieceSpec(s: string, m: string)
    requires |m| > 0
    ensures !Contains(LastPiece(s, m), m)
    ensures Contains(s, m) ==> |m| <= LastPieceStart(s, m) && OccursAt(s, m, LastPieceStart(s, m) - |m|)
    ensures !Contains(s, m) ==> LastPiece(s, m) == s
  {
    var k := LastPieceStart(s, m);
    CutFromSpec(s, m, 0, 0);
    assert NoneBetween(s, m, k, |s| + 1);
    forall q | 0 <= q <= |s| - k ensures !OccursAt(s[k..], m, q) {
      if OccursAt(s[k..], m, q) {
        OccursShifted(s, k, m, q);
      }
    }
    if k == 0 {
      assert s[0..] == s;
    }
  }

  /** A scan with no occurrence left ahead of it makes no more cuts. */
  lemma {:induction false} CutFromNoCut(s: string, m: string, j: nat, start: nat)
    requires |m| > 0 && start <= j <= |s| && NoneBetween(s, m, j, |s| + 1)
    ensures CutFrom(s, m, j, start) == start
    decreases |s| - j
  {
    if j + |m| <= |s| {
      assert !OccursAt(s, m, j);
      CutFromNoCut(s, m, j + 1, start);
    }
  }

  /** `(m + c).split(m)[-1] == c` when `c` itself does not contain the separator. */
  lemma LastPieceAfterMarker(m: string, c: string)
    requires |m| > 0 && !Contains(c, m)
    ensures LastPiece(m + c, m) == c
  {
    var s := m + c;
    assert s[0..|m|] == m;
    assert CutFrom(s, m, 0, 0) == CutFrom(s, m, |m|, |m|);
    forall p | |m| <= p < |s| + 1 ensures !OccursAt(s, m, p) {
      if OccursAt(s, m, p) {
        assert s[p..p + |m|] == c[p - |m|..p - |m| + |m|];
        assert OccursAt(c, m, p - |m|);
      }
    }
    CutFromNoCut(s, m, |m|, |m|);
    assert s[|m|..] == c;
  }

  /** An occurrence in `s[k..]` is an occurrence in `s`, `k` places further on. */
  lemma OccursShifted(s: string, k: nat, m: string, j: int)
    requires k <= |s| && OccursAt(s[k..], m, j)
    ensures OccursAt(s, m, k + j)
  {
    assert s[k + j..k + j + |m|] == s[k..][j..j + |m|];
  }

  // ---------------------------------------------------------------------
  // ASCII case and whitespace
  // ---------------------------------------------------------------------

  predicate IsUpper(c: char) { 'A' <= c <= 'Z' }

  function LowerChar(c: char): char {
    if IsUpper(c) then (c as int + 32) as char else c
  }

  /** `s.lower()` on the ASCII letters; every other character is kept. */
  function Lower(s: string): (r: string)
    ensures |r| == |s|
    ensures forall i :: 0 <= i < |s| ==> r[i] == LowerChar(s[i])
  {
    seq(|s|, i requires 0 <= i < |s| => LowerChar(s[i]))
  }

  /** Lower-casing leaves no upper-case letter and is idempotent. */
  lemma LowerIsLower(s: string)
    ensures forall i :: 0 <= i < |s| ==> !IsUpper(Lower(s)[i])
    ensures Lower(Lower(s)) == Lower(s)
  {
  }

  /** The characters Python's `str.isspace` accepts below 128. */
  predicate IsSpace(c: char) {
    c == ' ' || c == '\t' || c == '\n' || c == '\r' || c == '\U{B}' || c == '\U{C}'
    || c == '\U{1C}' || c == '\U{1D}' || c == '\U{1E}' || c == '\U{1F}'
  }

  function LeadingSpaces(s: string): (k: nat)
    ensures k <= |s|
    ensures forall i :: 0 <= i < k ==> IsSpace(s[i])
    ensures k < |s| ==> !IsSpace(s[k])
    decreases |s|
  {
    if s == [] || !IsSpace(s[0]) then 0 else 1 + LeadingSpaces(s[1..])
  }

  function TrailingSpaces(s: string): (k: nat)
    ensures k <= |s|
    ensures forall i :: |s| - k <= i < |s| ==> IsSpace(s[i])
    ensures k < |s| ==> !IsSpace(s[|s| - k - 1])
    decreases |s|
  {
    if s == [] || !IsSpace(s[|s| - 1]) then 0 else 1 + TrailingSpaces(s[..|s| - 1])
  }

  /**
   * `s.strip()`: `s` without its leading and trailing whitespace. What is
   * kept starts at the first non-space character; everything after it is space.
   */
  function Strip(s: string): (r: string)
    ensures LeadingSpaces(s) + |r| <= |s| && s[LeadingSpaces(s)..LeadingSpaces(s) + |r|] == r
    ensures forall i :: LeadingSpaces(s) + |r| <= i < |s| ==> IsSpace(s[i])
    ensures r == [] || (!IsSpace(r[0]) && !IsSpace(r[|r| - 1]))
    ensures r == [] <==> forall i :: 0 <= i < |s| ==> IsSpace(s[i])
  {
    var k := LeadingSpaces(s);
    var t := s[k..];
    var r := t[..|t| - TrailingSpaces(t)];
    assert s[k..k + |r|] == r;
    assert forall i :: k + |r| <= i < |s| ==> s[i] == t[i - k];
    r
  }

  /** A string that neither starts nor ends with whitespace is its own strip. */
  lemma StripUnpadded(s: string)
    requires s != [] && !IsSpace(s[0]) && !IsSpace(s[|s| - 1])
    ensures Strip(s) == s
  {
    assert LeadingSpaces(s) == 0 && TrailingSpaces(s) == 0;
    assert s[0..] == s && s[..|s|] == s;
  }

  /** A leading whitespace character is dropped by the strip. */
  lemma StripLeadingSpace(s: string)
    requires s != [] && IsSpace(s[0])
    ensures Strip(s) == Strip(s[1..])
  {
    assert LeadingSpaces(s) == 1 + LeadingSpaces(s[1..]);
    assert s[LeadingSpaces(s)..] == s[1..][LeadingSpaces(s[1..])..];
  }

  // ---------------------------------------------------------------------
  // Decimal integers: `int(s)` and `str(n)`
  // ---------------------------------------------------------------------

  predicate IsDigit(c: char) { '0' <= c <= '9' }

  /** A digit of `hexdigest()` or `token_hex()`: lower-case hexadecimal. */
  predicate IsLowerHex(c: char) { '0' <= c <= '9' || 'a' <= c <= 'f' }

  predicate AllDigits(s: string) {
    forall i :: 0 <= i < |s| ==> IsDigit(s[i])
  }

  function DigitValue(c: char): nat
    requires IsDigit(c)
  {
    c as int - '0' as int
  }

  /** The value of a string of decimal digits, most significant first. */
  function DigitsValue(s: string): nat
    requires AllDigits(s)
    decreases |s|
  {
    if s == [] then 0 else 10 * DigitsValue(s[..|s| - 1]) + DigitValue(s[|s| - 1])
  }

  /**
   * `int(s)` on an optional sign followed by at least one ASCII digit;
   * anything else is the `ValueError` case.
   */
  function ParseInt(s: string): (r: Option<int>)
    ensures r.Some? ==> |s| > 0
  {
    if |s| > 0 && (s[0] == '-' || s[0] == '+') then
      var d := s[1..];
      if |d| > 0 && AllDigits(d) then
        var v: int := DigitsValue(d);
        Some(if s[0] == '-' then -v else v)
      else None
    else if |s| > 0 && AllDigits(s) then Some(DigitsValue(s))
    else None
  }

  function DigitChar(d: nat): char
    requires d < 10
  {
    ('0' as int + d) as char
  }

  /** `str(n)` for a natural number. */
  function NatToString(n: nat): (r: string)
    ensures |r| > 0 && AllDigits(r)
    decreases n
  {
    if n < 10 then [DigitChar(n)] else NatToString(n / 10) + [DigitChar(n % 10)]
  }

  /** `str(i)` for any integer. */
  function IntToString(i: int): (r: string)
    ensures |r| > 0
  {
    if i < 0 then "-" + NatToString(-i) else NatToString(i)
  }

  lemma {:induction false} NatToStringValue(n: nat)
    ensures DigitsValue(NatToString(n)) == n
    decreases n
  {
    var r := NatToString(n);
    if n >= 10 {
      NatToStringValue(n / 10);
      assert r[..|r| - 1] == NatToString(n / 10);
    }
  }

  /** `int(str(i)) == i`. */
  lemma ParseIntToString(i: int)
    ensures ParseInt(IntToString(i)) == Some(i)
  {
    if i < 0 {
      NatToStringValue(-i);
      assert IntToString(i)[1..] == NatToString(-i);
    } else {
      NatToStringValue(i);
    }
  }

  /** Decimal formatting is injective: equal texts come from equal numbers. */
  lemma NatToStringInjective(a: nat, b: nat)
    requires NatToString(a) == NatToString(b)
    ensures a == b
  {
    NatToStringValue(a);
    NatToStringValue(b);
  }

  /** `int()` ignores leading zeros, so "02" reads as 2. */
  lemma {:induction false} LeadingZero(s: string)
    requires AllDigits(s)
    ensures AllDigits("0" + s) && DigitsValue("0" + s) == DigitsValue(s)
    decreases |s|
  {
    var z := "0" + s;
    if s != [] {
      assert z[..|z| - 1] == "0" + s[..|s| - 1];
      LeadingZero(s[..|s| - 1]);
    }
  }
}
