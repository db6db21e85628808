/** String operations of the Kotlin and Java standard libraries that the crawler relies on,
    written out so that their edge cases are explicit. */
module Text {

  /** Kotlin's `Char.isWhitespace()`: Java's `Character.isWhitespace` or a Unicode space separator. */
  predicate IsWhitespace(c: char) {
    || c == ' '
    || ('\t' <= c <= '\r')
    || ('\U{001C}' <= c <= '\U{001F}')
    || c == '\U{00A0}' || c == '\U{1680}'
    || ('\U{2000}' <= c <= '\U{200A}')
    || c == '\U{2028}' || c == '\U{2029}' || c == '\U{202F}' || c == '\U{205F}' || c == '\U{3000}'
  }

  /** Kotlin's `isBlank()`: empty or whitespace only. */
  predicate IsBlank(s: string) {
    forall i :: 0 <= i < |s| ==> IsWhitespace(s[i])
  }

  /** The forward scan of Kotlin's `trim()`: the first index at or after `i` that does not
      hold whitespace, or `|s|`. */
  function SkipLeading(s: string, i: nat): (n: nat)
    requires i <= |s|
    ensures i <= n <= |s|
    ensures forall j :: i <= j < n ==> IsWhitespace(s[j])
    ensures n == |s| || !IsWhitespace(s[n])
    decreases |s| - i
  {
    if i < |s| && IsWhitespace(s[i]) then SkipLeading(s, i + 1) else i
  }

  /** The backward scan of Kotlin's `trim()`, which never passes `lo`: the end `e` of the
      longest prefix of `s[..j]` that does not end in whitespace, or `lo`. */
  function SkipTrailing(s: string, lo: nat, j: nat): (e: nat)
    requires lo <= j <= |s|
    ensures lo <= e <= j
    ensures forall k :: e <= k < j ==> IsWhitespace(s[k])
    ensures e == lo || !IsWhitespace(s[e - 1])
    decreases j
  {
    if j > lo && IsWhitespace(s[j - 1]) then SkipTrailing(s, lo, j - 1) else j
  }

  /** How many leading characters `trim()` drops. */
  function TrimOffset(s: string): (n: nat)
    ensures n <= |s|
  {
    SkipLeading(s, 0)
  }

  /** Kotlin's `trim()`: the infix of `s` left once leading and trailing whitespace is gone. */
  function Trim(s: string): (r: string)
    ensures TrimOffset(s) + |r| <= |s| && r == s[TrimOffset(s)..TrimOffset(s) + |r|]
    ensures r == [] || (!IsWhitespace(r[0]) && !IsWhitespace(r[|r| - 1]))
    ensures IsBlank(s[..TrimOffset(s)]) && IsBlank(s[TrimOffset(s) + |r|..])
    ensures r == [] <==> IsBlank(s)
  {
    var a := TrimOffset(s);
    var e := SkipTrailing(s, a, |s|);
    TrimEnds(s, a, e);
    s[a..e]
  }

  /** The two scans split `s` into a blank prefix, an infix with no whitespace at either end
      and a blank suffix; the infix is empty exactly when `s` is blank. */
  lemma TrimEnds(s: string, a: nat, e: nat)
    requires a == SkipLeading(s, 0) && e == SkipTrailing(s, a, |s|)
    ensures IsBlank(s[..a]) && IsBlank(s[e..])
    ensures e == a <==> IsBlank(s)
    ensures a == e || (!IsWhitespace(s[a..e][0]) && !IsWhitespace(s[a..e][e - a - 1]))
  {
    BlankRange(s, 0, a);
    BlankRange(s, e, |s|);
    if a == e {
      BlankRange(s, 0, |s|);
    } else {
      assert s[a..e][0] == s[a];
      assert s[a..e][e - a - 1] == s[e - 1];
      assert !IsBlank(s) by {
        assert !IsWhitespace(s[a]);
      }
    }
  }

  /** A range of whitespace positions is a blank slice. */
  lemma BlankRange(s: string, i: nat, j: nat)
    requires i <= j <= |s| && forall k :: i <= k < j ==> IsWhitespace(s[k])
    ensures IsBlank(s[i..j])
  {
    forall k | 0 <= k < j - i ensures IsWhitespace(s[i..j][k]) {
      assert s[i..j][k] == s[i + k];
    }
  }

  /** Trimming twice is trimming once. */
  lemma TrimIdempotent(s: string)
    ensures Trim(Trim(s)) == Trim(s)
  {
    var r := Trim(s);
    if r != [] {
      assert SkipLeading(r, 0) == 0;
      assert SkipTrailing(r, 0, |r|) == |r|;
      assert r[0..|r|] == r;
    }
  }

  predicate StartsWith(s: string, p: string) {
    |p| <= |s| && s[..|p|] == p
  }

  predicate EndsWith(s: string, p: string) {
    |p| <= |s| && s[|s| - |p|..] == p
  }

  /** Kotlin's `removePrefix`. */
  function RemovePrefix(s: string, p: string): (r: string)
    ensures StartsWith(s, p) ==> s == p + r
    ensures !StartsWith(s, p) ==> r == s
  {
    if StartsWith(s, p) then s[|p|..] else s
  }

  /** Kotlin's `removeSuffix`. */
  function RemoveSuffix(s: string, p: string): (r: string)
    ensures EndsWith(s, p) ==> s == r + p
    ensures !EndsWith(s, p) ==> r == s
  {
    if EndsWith(s, p) then s[..|s| - |p|] else s
  }

  /** Kotlin's `joinToString(sep)`. */
  function JoinWith(parts: seq<string>, sep: string): string
  {
    if |parts| == 0 then ""
    else if |parts| == 1 then parts[0]
    else parts[0] + sep + JoinWith(parts[1..], sep)
  }

  /** Kotlin's `appendLine` applied to each line in turn: every line followed by a line feed. */
  function AppendLines(lines: seq<string>): string
  {
    if lines == [] then "" else AppendLines(lines[..|lines| - 1]) + (lines[|lines| - 1] + "\n")
  }

  lemma {:induction false} AppendLinesConcat(a: seq<string>, b: seq<string>)
    ensures AppendLines(a + b) == AppendLines(a) + AppendLines(b)
    decreases |b|
  {
    if b == [] {
      assert a + b == a;
    } else {
      assert (a + b)[..|a + b| - 1] == a + b[..|b| - 1];
      AppendLinesConcat(a, b[..|b| - 1]);
      Assoc(AppendLines(a), AppendLines(b[..|b| - 1]), b[|b| - 1] + "\n");
    }
  }

  /** Lines written with `appendLine` split back into those lines, followed by whatever came
      after the last line feed. */
  lemma {:induction false} SplitAppendLines(lines: seq<string>, w: string)
    requires forall k :: 0 <= k < |lines| ==> Excludes(lines[k], '\n')
    requires Excludes(w, '\n')
    ensures SplitChar(AppendLines(lines) + w, '\n') == lines + [w]
    decreases |lines|
  {
    SplitCharNone(w, '\n');
    if lines == [] {
      assert "" + w == w;
    } else {
      var init := lines[..|lines| - 1];
      var line := lines[|lines| - 1];
      var x := AppendLines(init) + line;
      SplitAppendLines(init, line);
      assert AppendLines(lines) == AppendLines(init) + (line + "\n");
      Assoc(AppendLines(init), line, "\n");
      assert AppendLines(lines) + w == x + ['\n'] + w;
      SplitCharAppend(x, '\n', w);
      assert lines == init + [line];
    }
  }

  /** Joining one more part adds a separator and the part at the end. */
  lemma {:induction false} JoinWithSnoc(parts: seq<string>, x: string, sep: string)
    requires |parts| >= 1
    ensures JoinWith(parts + [x], sep) == JoinWith(parts, sep) + sep + x
    decreases |parts|
  {
    if |parts| > 1 {
      assert (parts + [x])[1..] == parts[1..] + [x];
      JoinWithSnoc(parts[1..], x, sep);
    }
  }

  /** Concatenation is associative; stated once so that long chains of appends need not be
      proved by extensionality. */
  lemma Assoc<T>(a: seq<T>, b: seq<T>, c: seq<T>)
    ensures a + (b + c) == (a + b) + c
  {
  }

  /** Concatenation of a sequence of strings. */
  function Concat(parts: seq<string>): string
  {
    if parts == [] then "" else Concat(parts[..|parts| - 1]) + parts[|parts| - 1]
  }

  /** The concatenation of the first i + 1 parts extends that of the first i by part i. */
  lemma ConcatPrefixSnoc(parts: seq<string>, i: nat)
    requires i < |parts|
    ensures Concat(parts[..i + 1]) == Concat(parts[..i]) + parts[i]
  {
    assert parts[..i + 1][..i] == parts[..i];
  }

  /** `c` repeated `n` times. */
  function Repeat(c: char, n: nat): (r: string)
    ensures |r| == n && forall i :: 0 <= i < n ==> r[i] == c
  {
    if n == 0 then "" else Repeat(c, n - 1) + [c]
  }

  function DigitChar(d: nat): char
    requires d < 10
  {
    "0123456789"[d]
  }

  predicate IsDigit(c: char) {
    '0' <= c <= '9'
  }

  /** Decimal rendering of a natural number, as Kotlin's string templates print an `Int` that is not negative. */
  function NatToString(n: nat): (r: string)
    ensures |r| >= 1 && forall i :: 0 <= i < |r| ==> IsDigit(r[i])
    decreases n
  {
    if n < 10 then [DigitChar(n)] else NatToString(n / 10) + [DigitChar(n % 10)]
  }

  lemma DigitCharInjective(a: nat, b: nat)
    requires a < 10 && b < 10 && DigitChar(a) == DigitChar(b)
    ensures a == b
  {
  }

  /** Distinct numbers print differently. */
  lemma {:induction false} NatToStringInjective(a: nat, b: nat)
    requires NatToString(a) == NatToString(b)
    ensures a == b
    decreases a
  {
    var sa, sb := NatToString(a), NatToString(b);
    if a < 10 && b < 10 {
      DigitCharInjective(a, b);
    } else if a >= 10 && b >= 10 {
      assert sa[|sa| - 1] == DigitChar(a % 10) && sb[|sb| - 1] == DigitChar(b % 10);
      DigitCharInjective(a % 10, b % 10);
      assert NatToString(a / 10) == sa[..|sa| - 1] == sb[..|sb| - 1] == NatToString(b / 10);
      NatToStringInjective(a / 10, b / 10);
    }
  }

  /** ASCII lower-casing (what Java's `(?i)` and `equalsIgnoreCase` amount to for ASCII patterns). */
  function LowerAscii(c: char): char {
    if 'A' <= c <= 'Z' then (c as int + 32) as char else c
  }

  predicate EqualsIgnoreCaseAscii(s: string, t: string) {
    |s| == |t| && forall i :: 0 <= i < |s| ==> LowerAscii(s[i]) == LowerAscii(t[i])
  }

  /** Java's `String.trim()`: drops leading and trailing characters up to U+0020. */
  function JavaTrim(s: string): (r: string)
    ensures |r| <= |s|
    ensures r == [] || (r[0] > ' ' && r[|r| - 1] > ' ')
  {
    if s != [] && s[0] <= ' ' then JavaTrim(s[1..])
    else if s != [] && s[|s| - 1] <= ' ' then JavaTrim(s[..|s| - 1])
    else s
  }

  /** Kotlin's `lines()`: split at "\r\n", "\n" and "\r"; always at least one (possibly empty) line. */
  function Lines(s: string): (r: seq<string>)
    ensures |r| >= 1
    ensures forall k :: 0 <= k < |r| ==> forall i :: 0 <= i < |r[k]| ==> r[k][i] != '\n' && r[k][i] != '\r'
  {
    SplitLines(s, "")
  }

  function SplitLines(s: string, current: string): (r: seq<string>)
    requires forall i :: 0 <= i < |current| ==> current[i] != '\n' && current[i] != '\r'
    ensures |r| >= 1
    ensures forall k :: 0 <= k < |r| ==> forall i :: 0 <= i < |r[k]| ==> r[k][i] != '\n' && r[k][i] != '\r'
    decreases |s|
  {
    if s == [] then [current]
    else if s[0] == '\r' && |s| > 1 && s[1] == '\n' then [current] + SplitLines(s[2..], "")
    else if s[0] == '\n' || s[0] == '\r' then [current] + SplitLines(s[1..], "")
    else SplitLines(s[1..], current + [s[0]])
  }

  /** Three line feeds start at position `i`. */
  predicate TripleAt(s: string, i: nat)
    requires i + 3 <= |s|
  {
    s[i] == '\n' && s[i + 1] == '\n' && s[i + 2] == '\n'
  }

  /** No three consecutive line feeds. */
  predicate NoTripleNewline(s: string) {
    forall i :: 0 <= i < |s| - 2 ==> !TripleAt(s, i)
  }

  lemma NoTripleNewlineInfix(s: string, a: nat, b: nat)
    requires a <= b <= |s| && NoTripleNewline(s)
    ensures NoTripleNewline(s[a..b])
  {
    var r := s[a..b];
    forall i | 0 <= i < |r| - 2
      ensures !TripleAt(r, i)
    {
      assert !TripleAt(s, a + i);
      assert r[i] == s[a + i] && r[i + 1] == s[a + i + 1] && r[i + 2] == s[a + i + 2];
    }
  }

  /** Kotlin's `split(c)`: the pieces between occurrences of `c`; always at least one. */
  function SplitChar(s: string, c: char): (r: seq<string>)
    ensures |r| >= 1
    decreases |s|
  {
    if s == [] then [""]
    else if s[0] == c then [""] + SplitChar(s[1..], c)
    else
      var rest := SplitChar(s[1..], c);
      [[s[0]] + rest[0]] + rest[1..]
  }

  predicate Excludes(s: string, c: char) {
    forall i :: 0 <= i < |s| ==> s[i] != c
  }

  lemma {:induction false} SplitCharNone(s: string, c: char)
    requires Excludes(s, c)
    ensures SplitChar(s, c) == [s]
    decreases |s|
  {
    if s != [] {
      SplitCharNone(s[1..], c);
      assert [s[0]] + s[1..] == s;
    }
  }

  /** A leading separator splits off an empty first line. */
  lemma SplitCharLead(c: char, rest: string)
    ensures SplitChar([c] + rest, c) == [""] + SplitChar(rest, c)
  {
    var s := [c] + rest;
    assert s != [] && s[0] == c;
    assert s[1..] == rest;
  }

  /** Splitting at a separator splits the two sides independently. */
  lemma {:induction false} SplitCharAppend(x: string, c: char, y: string)
    ensures SplitChar(x + [c] + y, c) == SplitChar(x, c) + SplitChar(y, c)
    decreases |x|
  {
    var s := x + [c] + y;
    if x == [] {
      assert s[1..] == y;
    } else {
      assert s[1..] == x[1..] + [c] + y;
      SplitCharAppend(x[1..], c, y);
    }
  }

  /** `split` undoes `joinToString` when no part contains the separator. */
  lemma {:induction false} SplitJoin(parts: seq<string>, c: char)
    requires |parts| >= 1
    requires forall k :: 0 <= k < |parts| ==> Excludes(parts[k], c)
    ensures SplitChar(JoinWith(parts, [c]), c) == parts
    decreases |parts|
  {
    SplitCharNone(parts[0], c);
    if |parts| > 1 {
      SplitJoin(parts[1..], c);
      SplitCharAppend(parts[0], c, JoinWith(parts[1..], [c]));
    }
  }

  /** A first piece without the separator splits off as one line. */
  lemma SplitCharCons(a: string, c: char, rest: string)
    requires Excludes(a, c)
    ensures SplitChar(a + [c] + rest, c) == [a] + SplitChar(rest, c)
  {
    SplitCharAppend(a, c, rest);
    SplitCharNone(a, c);
  }

  lemma ExcludesConcat(a: string, b: string, c: char)
    requires Excludes(a, c) && Excludes(b, c)
    ensures Excludes(a + b, c)
  {
    forall i | 0 <= i < |a + b| ensures (a + b)[i] != c {
      if i >= |a| {
        assert (a + b)[i] == b[i - |a|];
      }
    }
  }

  lemma StartsWithLonger(s: string, p: string, q: string)
    requires StartsWith(s, p + q)
    ensures StartsWith(s, p)
  {
    assert s[..|p|] == s[..|p + q|][..|p|] == (p + q)[..|p|] == p;
  }
}
