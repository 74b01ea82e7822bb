/** The few Python `str` built-ins the fleet scripts rely on, on `seq<char>`. */
module PyText {

  /** Characters for which Python's `str.isspace()` holds; `str.strip()` removes these. */
  predicate IsSpace(c: char) {
    ('\t' <= c <= '\r') || ('\U{1c}' <= c <= '\U{1f}') || c == ' ' || c == '\U{85}' || c == '\U{a0}'
    || c == '\U{1680}' || ('\U{2000}' <= c <= '\U{200a}') || c == '\U{2028}' || c == '\U{2029}'
    || c == '\U{202f}' || c == '\U{205f}' || c == '\U{3000}'
  }

  /** Characters at which Python's `str.splitlines()` ends a line. */
  predicate IsLineBreak(c: char) {
    ('\n' <= c <= '\r') || ('\U{1c}' <= c <= '\U{1e}') || c == '\U{85}' || c == '\U{2028}' || c == '\U{2029}'
  }

  /** Index of the first character `str.strip()` keeps (|s| when every character is white space). */
  function StripStart(s: string): (a: nat)
    ensures a <= |s|
    ensures forall k :: 0 <= k < a ==> IsSpace(s[k])
    ensures a < |s| ==> !IsSpace(s[a])
  {
    if s == [] || !IsSpace(s[0]) then 0 else 1 + StripStart(s[1..])
  }

  /** One past the last character `str.strip()` keeps. */
  function StripEnd(s: string): (b: nat)
    ensures StripStart(s) <= b <= |s|
    ensures forall k :: b <= k < |s| ==> IsSpace(s[k])
    ensures b > StripStart(s) ==> !IsSpace(s[b - 1])
  {
    if |s| == StripStart(s) || !IsSpace(s[|s| - 1]) then |s|
    else
      assert StripStart(s[..|s| - 1]) == StripStart(s) by { StripStartPrefix(s); }
      StripEnd(s[..|s| - 1])
  }

  lemma {:induction false} StripStartPrefix(s: string)
    requires StripStart(s) < |s| - 1
    ensures StripStart(s[..|s| - 1]) == StripStart(s)
  {
    if IsSpace(s[0]) {
      assert s[1..][..|s[1..]| - 1] == s[..|s| - 1][1..];
      StripStartPrefix(s[1..]);
    }
  }

  /** Python's `s.strip()`: `s` without its leading and trailing white space. */
  function Strip(s: string): (r: string)
    ensures |r| <= |s|
    ensures r == [] || (!IsSpace(r[0]) && !IsSpace(r[|r| - 1]))
  {
    s[StripStart(s)..StripEnd(s)]
  }

  /** Stripping twice is stripping once. */
  lemma StripIdempotent(s: string)
    ensures Strip(Strip(s)) == Strip(s)
  {
    var r := Strip(s);
    if r != [] {
      assert StripStart(r) == 0;
      assert StripEnd(r) == |r|;
    }
  }

  /** `strip()` keeps exactly the span from the first to the last character that is not white space. */
  lemma StripSpan(s: string, a: nat, b: nat)
    requires a <= b <= |s|
    requires forall k :: 0 <= k < a ==> IsSpace(s[k])
    requires forall k :: b <= k < |s| ==> IsSpace(s[k])
    requires a < b ==> !IsSpace(s[a]) && !IsSpace(s[b - 1])
    ensures Strip(s) == s[a..b]
  {
    if a < b {
      assert StripStart(s) == a;
      assert StripEnd(s) == b;
    } else {
      assert StripStart(s) == |s|;
    }
  }

  /** Leading white space makes no difference to `strip()`. */
  lemma StripAfterSpaces(s: string, a: nat)
    requires a <= |s|
    requires forall k :: 0 <= k < a ==> IsSpace(s[k])
    ensures Strip(s[a..]) == Strip(s)
  {
    var t := s[a..];
    var i, j := StripStart(t), StripEnd(t);
    forall k | 0 <= k < a + i ensures IsSpace(s[k]) {
      if a <= k { assert s[k] == t[k - a]; }
    }
    forall k | a + j <= k < |s| ensures IsSpace(s[k]) {
      assert s[k] == t[k - a];
    }
    if i < j {
      assert s[a + i] == t[i] && s[a + j - 1] == t[j - 1];
    }
    StripSpan(s, a + i, a + j);
    assert s[a + i..a + j] == t[i..j];
  }

  /** The result of `strip()` is empty exactly when the text holds nothing but white space. */
  lemma StripEmpty(s: string)
    ensures Strip(s) == [] <==> forall k :: 0 <= k < |s| ==> IsSpace(s[k])
  {
  }

  /** ASCII lower-casing of one character. */
  function LowerChar(c: char): char {
    if 'A' <= c <= 'Z' then (c as int + 32) as char else c
  }

  /** Lower-casing as far as the markers `error`, `warn` and `fail` can tell (see README). */
  function Lower(s: string): (r: string)
    ensures |r| == |s|
    ensures forall k :: 0 <= k < |s| ==> r[k] == LowerChar(s[k])
  {
    seq(|s|, k requires 0 <= k < |s| => LowerChar(s[k]))
  }

  /** `k` occurs in `s` starting at position `p`. */
  predicate OccursAt(s: string, k: string, p: int) {
    0 <= p && p + |k| <= |s| && s[p..p + |k|] == k
  }

  /** Python's `k in s` for strings: `k` is a substring of `s`. */
  function Contains(s: string, k: string): (b: bool)
    ensures b <==> exists p :: OccursAt(s, k, p)
  {
    if |s| < |k| then false
    else if s[..|k|] == k then assert OccursAt(s, k, 0); true
    else
      var b := Contains(s[1..], k);
      assert forall p :: OccursAt(s[1..], k, p) ==> OccursAt(s, k, p + 1);
      assert forall p :: OccursAt(s, k, p) && p > 0 ==> OccursAt(s[1..], k, p - 1);
      b
  }

  /** Python's `s.startswith(p)`. */
  predicate StartsWith(s: string, p: string) {
    |p| <= |s| && s[..|p|] == p
  }

  /** Index of the first `c` in `s`, |s| when there is none. */
  function IndexOf(s: string, c: char): (i: nat)
    ensures i <= |s|
    ensures i < |s| ==> s[i] == c
    ensures forall k :: 0 <= k < i ==> s[k] != c
  {
    if s == [] || s[0] == c then 0 else 1 + IndexOf(s[1..], c)
  }

  /** Python's `sep.join(parts)`. */
  function Join(sep: string, parts: seq<string>): string
  {
    if parts == [] then []
    else if |parts| == 1 then parts[0]
    else parts[0] + sep + Join(sep, parts[1..])
  }

  /** Every part appears in the newline-joined text. */
  lemma {:induction false} JoinContains(parts: seq<string>, x: string)
    requires x in parts
    ensures Contains(Join("\n", parts), x)
  {
    var j := Join("\n", parts);
    if x == parts[0] {
      if |parts| > 1 {
        assert j == x + ("\n" + Join("\n", parts[1..]));
        assert j[..|x|] == x;
      }
      assert OccursAt(j, x, 0);
    } else {
      JoinContains(parts[1..], x);
      var rest := Join("\n", parts[1..]);
      var p :| OccursAt(rest, x, p);
      var off := |parts[0]| + 1;
      assert j == (parts[0] + "\n") + rest;
      assert j[off + p..off + p + |x|] == rest[p..p + |x|];
      assert OccursAt(j, x, off + p);
    }
  }

  /** Length of the first line of `s`, up to (not including) the first line break. */
  function LineEnd(s: string): (k: nat)
    ensures k <= |s|
    ensures forall i :: 0 <= i < k ==> !IsLineBreak(s[i])
    ensures k < |s| ==> IsLineBreak(s[k])
  {
    if s == [] || IsLineBreak(s[0]) then 0 else 1 + LineEnd(s[1..])
  }

  /** Python's `s.splitlines()`: lines without their terminators; `\r\n` ends one line; a final
      terminator does not start an empty line. */
  function SplitLines(s: string): (lines: seq<string>)
    decreases |s|
  {
    if s == [] then []
    else
      var k := LineEnd(s);
      if k == |s| then [s]
      else
        var skip := if s[k] == '\r' && k + 1 < |s| && s[k + 1] == '\n' then 2 else 1;
        [s[..k]] + SplitLines(s[k + skip..])
  }

  /** Text holding each line followed by `\n`, as a file written line by line. */
  function Terminated(lines: seq<string>): string
  {
    if lines == [] then [] else lines[0] + "\n" + Terminated(lines[1..])
  }

  /** `splitlines()` recovers the lines of a text written one line at a time. */
  lemma {:induction false} SplitTerminated(lines: seq<string>)
    requires forall l, i :: l in lines && 0 <= i < |l| ==> !IsLineBreak(l[i])
    ensures SplitLines(Terminated(lines)) == lines
  {
    if lines != [] {
      var s := Terminated(lines);
      var l := lines[0];
      assert s == l + ("\n" + Terminated(lines[1..]));
      LineEndAt(l, "\n" + Terminated(lines[1..]));
      assert s[|l| + 1..] == Terminated(lines[1..]);
      SplitTerminated(lines[1..]);
    }
  }

  lemma {:induction false} LineEndAt(l: string, rest: string)
    requires forall i :: 0 <= i < |l| ==> !IsLineBreak(l[i])
    requires rest != [] && IsLineBreak(rest[0])
    ensures LineEnd(l + rest) == |l|
  {
    if l != [] {
      assert (l + rest)[1..] == l[1..] + rest;
      LineEndAt(l[1..], rest);
    }
  }

  /** Python's `os.path.basename(p)`: the text after the last `/`. */
  function Basename(p: string): (r: string)
    ensures |r| <= |p| && r == p[|p| - |r|..]
    ensures forall i :: 0 <= i < |r| ==> r[i] != '/'
    ensures |r| == |p| || p[|p| - |r| - 1] == '/'
  {
    if p == [] || p[|p| - 1] == '/' then []
    else Basename(p[..|p| - 1]) + [p[|p| - 1]]
  }

  /** Python's `str(n)` for an integer. */
  function Decimal(n: int): (r: string)
    ensures r != []
    ensures r[0] == '-' <==> n < 0
    ensures n < 0 ==> NumberOf(r[1..]) == -n && IsNumeral(r[1..])
    ensures n >= 0 ==> NumberOf(r) == n && IsNumeral(r)
  {
    if n < 0 then "-" + Digits(-n) else Digits(n)
  }

  /** A non-empty run of decimal digits with no superfluous leading zero. */
  predicate IsNumeral(s: string) {
    s != [] && (forall i :: 0 <= i < |s| ==> '0' <= s[i] <= '9') && (|s| > 1 ==> s[0] != '0')
  }

  /** The number a run of decimal digits spells. */
  function NumberOf(s: string): nat
  {
    if s == [] then 0
    else
      var d := s[|s| - 1] as int - '0' as int;
      10 * NumberOf(s[..|s| - 1]) + (if 0 <= d <= 9 then d else 0)
  }

  /** The decimal digits of `n`. */
  function Digits(n: nat): (r: string)
    ensures IsNumeral(r) && NumberOf(r) == n
  {
    if n < 10 then [('0' as int + n) as char]
    else
      var r := Digits(n / 10) + [('0' as int + n % 10) as char];
      assert r[..|r| - 1] == Digits(n / 10);
      r
  }
}
