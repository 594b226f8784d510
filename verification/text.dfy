/**
 * The few pieces of Go's `strings`, `strconv` and `path/filepath` packages that the
 * configuration and request-handling code relies on, written over `string` (a
 * sequence of Unicode characters).
 */
module Text {
  import opened Wrappers

  // ---------------------------------------------------------------------------
  // strings.Contains(s, "..")
  // ---------------------------------------------------------------------------

  /** `strings.Contains(s, "..")`: two consecutive dots occur somewhere in `s`. */
  predicate HasDotDot(s: string) {
    exists i :: 0 <= i < |s| - 1 && s[i] == '.' && s[i + 1] == '.'
  }

  /** A ".." in a concatenation lies in one part or straddles the seam. */
  lemma {:induction false} DotDotConcat(a: string, b: string)
    ensures HasDotDot(a + b) <==>
              HasDotDot(a) || HasDotDot(b) || (|a| > 0 && |b| > 0 && a[|a| - 1] == '.' && b[0] == '.')
  {
    var s := a + b;
    if HasDotDot(s) {
      var i :| 0 <= i < |s| - 1 && s[i] == '.' && s[i + 1] == '.';
      if i + 1 < |a| {
        assert a[i] == '.' && a[i + 1] == '.';
      } else if i >= |a| {
        assert b[i - |a|] == '.' && b[i - |a| + 1] == '.';
      }
    }
    if HasDotDot(a) {
      var i :| 0 <= i < |a| - 1 && a[i] == '.' && a[i + 1] == '.';
      assert s[i] == '.' && s[i + 1] == '.';
    }
    if HasDotDot(b) {
      var i :| 0 <= i < |b| - 1 && b[i] == '.' && b[i + 1] == '.';
      assert s[|a| + i] == '.' && s[|a| + i + 1] == '.';
    }
    if |a| > 0 && |b| > 0 && a[|a| - 1] == '.' && b[0] == '.' {
      assert s[|a| - 1] == '.' && s[|a|] == '.';
    }
  }

  /** `strings.HasPrefix(s, p)`. */
  predicate HasPrefix(s: string, p: string) {
    |p| <= |s| && s[..|p|] == p
  }

  // ---------------------------------------------------------------------------
  // filepath.Join(dir, name) for two elements
  // ---------------------------------------------------------------------------

  /**
   * `filepath.Join(dir, name)` on a Unix system, without the lexical clean-up
   * (`filepath.Clean`) that Go applies to the joined result: empty elements are
   * skipped, and a single `/` separates two non-empty ones.
   */
  function JoinPath(dir: string, name: string): (p: string)
    ensures dir == "" ==> p == name
    ensures name == "" ==> p == dir
    ensures dir != "" && name != "" ==> HasPrefix(p, dir) && |name| <= |p| && p[|p| - |name|..] == name
  {
    if dir == "" then name
    else if name == "" then dir
    else if dir[|dir| - 1] == '/' then dir + name
    else dir + "/" + name
  }

  /** Joining never creates a "..": the separator keeps the parts' dots apart. */
  lemma {:induction false} JoinPathNoDotDot(dir: string, name: string)
    requires !HasDotDot(dir) && !HasDotDot(name)
    ensures !HasDotDot(JoinPath(dir, name))
  {
    if dir != "" && name != "" {
      if dir[|dir| - 1] == '/' {
        DotDotConcat(dir, name);
      } else {
        DotDotConcat(dir, "/");
        assert (dir + "/")[|dir + "/"| - 1] == '/';
        DotDotConcat(dir + "/", name);
        assert dir + "/" + name == (dir + "/") + name;
      }
    }
  }

  // ---------------------------------------------------------------------------
  // strings.TrimSpace
  // ---------------------------------------------------------------------------

  /** Go's `unicode.IsSpace`. */
  predicate IsSpace(c: char) {
    c == ' ' || c == '\t' || c == '\n' || c == '\U{B}' || c == '\U{C}' || c == '\r'
    || c == '\U{85}' || c == '\U{A0}' || c == '\U{1680}' || ('\U{2000}' <= c <= '\U{200A}')
    || c == '\U{2028}' || c == '\U{2029}' || c == '\U{202F}' || c == '\U{205F}' || c == '\U{3000}'
  }

  predicate AllSpace(s: string) {
    forall i :: 0 <= i < |s| ==> IsSpace(s[i])
  }

  /** Drops leading white space: the result is a suffix of `s` after an all-space prefix. */
  function TrimLeft(s: string): (r: string)
    ensures |r| <= |s| && r == s[|s| - |r|..]
    ensures AllSpace(s[..|s| - |r|])
    ensures r != [] ==> !IsSpace(r[0])
    decreases |s|
  {
    if s != [] && IsSpace(s[0]) then
      var r := TrimLeft(s[1..]);
      assert s[..|s| - |r|] == [s[0]] + s[1..][..|s[1..]| - |r|];
      AllSpaceConcat([s[0]], s[1..][..|s[1..]| - |r|]);
      r
    else s
  }

  /** Drops trailing white space: the result is a prefix of `s` before an all-space suffix. */
  function TrimRight(s: string): (r: string)
    ensures |r| <= |s| && r == s[..|r|]
    ensures AllSpace(s[|r|..])
    ensures r != [] ==> !IsSpace(r[|r| - 1])
    decreases |s|
  {
    if s != [] && IsSpace(s[|s| - 1]) then
      var r := TrimRight(s[..|s| - 1]);
      assert s[|r|..] == s[..|s| - 1][|r|..] + [s[|s| - 1]];
      AllSpaceConcat(s[..|s| - 1][|r|..], [s[|s| - 1]]);
      r
    else s
  }

  /**
   * `strings.TrimSpace`: the result is empty exactly when `s` is all white space,
   * and otherwise neither starts nor ends with white space.
   */
  function TrimSpace(s: string): (r: string)
    ensures r == [] <==> AllSpace(s)
    ensures r != [] ==> !IsSpace(r[0]) && !IsSpace(r[|r| - 1])
    ensures |r| <= |s|
  {
    var left := TrimLeft(s);
    var r := TrimRight(left);
    assert s == s[..|s| - |left|] + left;
    AllSpaceConcat(s[..|s| - |left|], left);
    assert r == [] ==> left[|r|..] == left;
    assert r != [] ==> r[0] == left[0];
    r
  }

  lemma AllSpaceConcat(a: string, b: string)
    ensures AllSpace(a + b) <==> AllSpace(a) && AllSpace(b)
  {
    if AllSpace(a + b) {
      forall i | 0 <= i < |a| ensures IsSpace(a[i]) {
        assert a[i] == (a + b)[i];
      }
      forall i | 0 <= i < |b| ensures IsSpace(b[i]) {
        assert b[i] == (a + b)[|a| + i];
      }
    }
    if AllSpace(a) && AllSpace(b) {
      forall i | 0 <= i < |a + b| ensures IsSpace((a + b)[i]) {
        if i < |a| {
          assert (a + b)[i] == a[i];
        } else {
          assert (a + b)[i] == b[i - |a|];
        }
      }
    }
  }

  // ---------------------------------------------------------------------------
  // strings.Split(key, ".")
  // ---------------------------------------------------------------------------

  /** `strings.Split(s, ".")`: the dot-free pieces between the dots (at least one). */
  function Split(s: string): (parts: seq<string>)
    ensures |parts| >= 1
    ensures forall k :: 0 <= k < |parts| ==> '.' !in parts[k]
    decreases |s|
  {
    if s == [] then [""]
    else
      var rest := Split(s[1..]);
      if s[0] == '.' then [""] + rest
      else [[s[0]] + rest[0]] + rest[1..]
  }

  /** `strings.Join(parts, ".")`, the inverse of Split. */
  function JoinDots(parts: seq<string>): string
    requires |parts| >= 1
  {
    if |parts| == 1 then parts[0] else parts[0] + "." + JoinDots(parts[1..])
  }

  lemma {:induction false} SplitJoin(s: string)
    ensures JoinDots(Split(s)) == s
    decreases |s|
  {
    if s != [] {
      var rest := Split(s[1..]);
      SplitJoin(s[1..]);
      if s[0] != '.' && |rest| > 1 {
        assert rest == [rest[0]] + rest[1..];
        assert JoinDots(rest) == rest[0] + "." + JoinDots(rest[1..]);
        assert s == [s[0]] + s[1..];
      }
    }
  }

  lemma {:induction false} SplitNoDot(a: string)
    requires '.' !in a
    ensures Split(a) == [a]
    decreases |a|
  {
    if a != [] {
      assert '.' !in a[1..] by { assert forall k :: 0 <= k < |a[1..]| ==> a[1..][k] == a[k + 1]; }
      SplitNoDot(a[1..]);
      assert [a[0]] + a[1..] == a;
    }
  }

  /** A key `section.name` with dot-free parts splits into exactly those two parts. */
  lemma {:induction false} SplitDotted(a: string, b: string)
    requires '.' !in a && '.' !in b
    ensures Split(a + "." + b) == [a, b]
    decreases |a|
  {
    var s := a + "." + b;
    if a == [] {
      assert s == "." + b && s[1..] == b;
      SplitNoDot(b);
    } else {
      assert s[1..] == a[1..] + "." + b;
      assert '.' !in a[1..] by { assert forall k :: 0 <= k < |a[1..]| ==> a[1..][k] == a[k + 1]; }
      SplitDotted(a[1..], b);
      assert [a[0]] + a[1..] == a;
    }
  }

  // ---------------------------------------------------------------------------
  // strconv.Atoi on a 64-bit platform
  // ---------------------------------------------------------------------------

  const MinInt64: int := -0x8000_0000_0000_0000
  const MaxInt64: int := 0x7FFF_FFFF_FFFF_FFFF

  predicate IsDigit(c: char) { '0' <= c <= '9' }

  predicate AllDigits(s: string) {
    forall i :: 0 <= i < |s| ==> IsDigit(s[i])
  }

  /** The value of a run of decimal digits, most significant first. */
  function DigitsValue(s: string): nat
    requires AllDigits(s)
    decreases |s|
  {
    if s == [] then 0 else 10 * DigitsValue(s[..|s| - 1]) + (s[|s| - 1] as int - '0' as int)
  }

  /**
   * `strconv.Atoi`: an optional sign followed by at least one decimal digit, whose
   * value fits a 64-bit `int`; anything else (the empty string included) is an error.
   */
  function Atoi(s: string): (r: Option<int>)
    ensures r.Some? ==> MinInt64 <= r.value <= MaxInt64
    ensures s == "" || s == "+" || s == "-" ==> r == None
    ensures r.Some? ==> forall i :: 0 < i < |s| ==> IsDigit(s[i])
  {
    var signed := s != [] && (s[0] == '+' || s[0] == '-');
    var digits := if signed then s[1..] else s;
    if digits == [] || !AllDigits(digits) then None
    else
      var magnitude: int := DigitsValue(digits);
      var n: int := if signed && s[0] == '-' then -magnitude else magnitude;
      if MinInt64 <= n <= MaxInt64 then Some(n) else None
  }

  /** The canonical decimal spelling of a natural number (`strconv.Itoa` for n >= 0). */
  function Decimal(n: nat): (s: string)
    ensures s != [] && AllDigits(s)
    decreases n
  {
    var last := ['0' + ((n % 10) as char)];
    if n < 10 then last else Decimal(n / 10) + last
  }

  lemma {:induction false} DecimalValue(n: nat)
    ensures DigitsValue(Decimal(n)) == n
    decreases n
  {
    var s := Decimal(n);
    if n >= 10 {
      DecimalValue(n / 10);
      assert s[..|s| - 1] == Decimal(n / 10);
    }
  }

  /** Atoi reads back every non-negative 64-bit value from its decimal spelling. */
  lemma AtoiDecimal(n: nat)
    requires n <= MaxInt64
    ensures Atoi(Decimal(n)) == Some(n)
  {
    DecimalValue(n);
  }
}
