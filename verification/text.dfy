/**
 * The JavaScript string operations the guide code relies on: `String.prototype.trim`,
 * `includes`, `Array.prototype.join("\n")`, `split("\n")` and the decimal rendering of a
 * number inside a template literal.
 */
module Text {

  /** JavaScript's WhiteSpace and LineTerminator characters outside the range U+2000..U+200A. */
  const Spaces: set<char> := {
    ' ', '\t', '\n', '\r', '\U{B}', '\U{C}', '\U{A0}', '\U{1680}',
    '\U{2028}', '\U{2029}', '\U{202F}', '\U{205F}', '\U{3000}', '\U{FEFF}'}

  /** The characters `trim` removes and `\s` matches: `Spaces` and U+2000..U+200A. */
  predicate IsSpace(c: char) {
    c in Spaces || ('\U{2000}' <= c <= '\U{200A}')
  }

  /** Neither end of `s` is white space (the fixed points of `Trim`). */
  predicate IsTrimmed(s: string) {
    s == [] || (!IsSpace(s[0]) && !IsSpace(s[|s| - 1]))
  }

  /** Drops the leading white space: the result is a suffix of `s` that starts with a non-space. */
  function TrimStart(s: string): (r: string)
    ensures |r| <= |s|
    ensures r == [] || !IsSpace(r[0])
    decreases |s|
  {
    if |s| > 0 && IsSpace(s[0]) then TrimStart(s[1..]) else s
  }

  /** Drops the trailing white space: the result is a prefix of `s` that ends with a non-space. */
  function TrimEnd(s: string): (r: string)
    ensures |r| <= |s|
    ensures r == [] || !IsSpace(r[|r| - 1])
    decreases |s|
  {
    if |s| > 0 && IsSpace(s[|s| - 1]) then TrimEnd(s[..|s| - 1]) else s
  }

  /** `TrimStart` keeps a suffix of `s` and drops only white space. */
  lemma {:induction false} TrimStartSuffix(s: string)
    ensures TrimStart(s) == s[|s| - |TrimStart(s)|..]
    ensures forall k | 0 <= k < |s| - |TrimStart(s)| :: IsSpace(s[k])
    decreases |s|
  {
    if |s| > 0 && IsSpace(s[0]) {
      TrimStartSuffix(s[1..]);
      assert forall k | 1 <= k < |s| :: s[k] == s[1..][k - 1];
    }
  }

  /** `TrimEnd` keeps a prefix of `s` and drops only white space. */
  lemma {:induction false} TrimEndPrefix(s: string)
    ensures TrimEnd(s) == s[..|TrimEnd(s)|]
    ensures forall k | |TrimEnd(s)| <= k < |s| :: IsSpace(s[k])
    decreases |s|
  {
    if |s| > 0 && IsSpace(s[|s| - 1]) {
      TrimEndPrefix(s[..|s| - 1]);
      assert forall k | 0 <= k < |s| - 1 :: s[k] == s[..|s| - 1][k];
    }
  }

  /** `r` is the slice of `s` starting at `i`, and everything before and after it is white space. */
  predicate IsSpacedSlice(s: string, r: string, i: int) {
    && 0 <= i && i + |r| <= |s| && r == s[i..i + |r|]
    && (forall k | 0 <= k < i :: IsSpace(s[k]))
    && (forall k | i + |r| <= k < |s| :: IsSpace(s[k]))
  }

  /** `s.trim()`: the slice of `s` left after removing white space at both ends. */
  function Trim(s: string): (r: string)
    ensures IsTrimmed(r)
  {
    var t := TrimStart(s);
    TrimEndPrefix(t);
    TrimEnd(t)
  }

  /** What `Trim` leaves is a slice of `s` with only white space around it. */
  lemma TrimSlice(s: string)
    ensures exists i :: IsSpacedSlice(s, Trim(s), i)
  {
    var t := TrimStart(s);
    var r, i := TrimEnd(t), |s| - |t|;
    TrimStartSuffix(s);
    TrimEndPrefix(t);
    assert r == Trim(s);
    assert t == s[i..] && r == t[..|r|];
    forall k | 0 <= k < |r| ensures r[k] == s[i + k] {
      assert r[k] == t[k] == s[i + k];
    }
    assert r == s[i..i + |r|];
    forall k | i + |r| <= k < |s| ensures IsSpace(s[k]) {
      assert s[k] == t[k - i];
    }
    assert IsSpacedSlice(s, r, i);
  }

  /** A string with no white space at either end is its own trim. */
  lemma TrimmedIsFixpoint(s: string)
    requires IsTrimmed(s)
    ensures Trim(s) == s
  {
  }

  /** `s.trim()` is idempotent. */
  lemma TrimIdempotent(s: string)
    ensures Trim(Trim(s)) == Trim(s)
  {
    TrimmedIsFixpoint(Trim(s));
  }

  /** `k` occurs in `s` starting at index `i`. */
  predicate OccursAt(s: string, k: string, i: int) {
    0 <= i <= |s| - |k| && s[i..i + |k|] == k
  }

  /** `s.includes(k)`: `k` occurs in `s` as a contiguous piece. */
  predicate Contains(s: string, k: string) {
    exists i | 0 <= i <= |s| - |k| :: OccursAt(s, k, i)
  }

  /** `ks.some((k) => s.includes(k))`. */
  predicate ContainsAny(s: string, ks: seq<string>) {
    exists j | 0 <= j < |ks| :: Contains(s, ks[j])
  }

  /** A piece whose first character does not occur in `s` does not occur in `s`. */
  lemma FirstCharAbsent(s: string, k: string)
    requires k != [] && k[0] !in s
    ensures !Contains(s, k)
  {
    forall i | 0 <= i <= |s| - |k| ensures !OccursAt(s, k, i) {
      assert s[i..i + |k|][0] == s[i];
    }
  }

  /** No piece of `ks` occurs in `s` when none of their first characters does. */
  lemma FirstCharsAbsent(s: string, ks: seq<string>)
    requires forall j | 0 <= j < |ks| :: ks[j] != [] && ks[j][0] !in s
    ensures !ContainsAny(s, ks)
  {
    forall j | 0 <= j < |ks| ensures !Contains(s, ks[j]) {
      FirstCharAbsent(s, ks[j]);
    }
  }

  /** `lines.join("\n")`; the empty list joins to the empty string. */
  function JoinLines(lines: seq<string>): string {
    if |lines| == 0 then ""
    else if |lines| == 1 then lines[0]
    else lines[0] + "\n" + JoinLines(lines[1..])
  }

  /** The index of the first line feed in `s`, or `|s|` when there is none. */
  function FirstNewline(s: string): (i: nat)
    ensures i <= |s|
    ensures '\n' !in s[..i]
    ensures i < |s| ==> s[i] == '\n'
  {
    if s == [] || s[0] == '\n' then 0
    else
      var j := FirstNewline(s[1..]);
      assert s[..1 + j] == [s[0]] + s[1..][..j];
      1 + j
  }

  /**
   * `s.split("\n")`: the pieces between line feeds, in order. There is always at least one
   * piece (the empty string splits into `[""]`), and no piece holds a line feed.
   */
  function SplitLines(s: string): (r: seq<string>)
    ensures |r| >= 1
    ensures forall j | 0 <= j < |r| :: '\n' !in r[j]
    decreases |s|
  {
    var i := FirstNewline(s);
    if i == |s| then
      assert s[..i] == s;
      [s]
    else
      [s[..i]] + SplitLines(s[i + 1..])
  }

  /** Lines with no line feed in them survive a join followed by a split. */
  lemma {:induction false} SplitJoin(lines: seq<string>)
    requires |lines| >= 1
    requires forall j | 0 <= j < |lines| :: '\n' !in lines[j]
    ensures SplitLines(JoinLines(lines)) == lines
    decreases |lines|
  {
    var s := JoinLines(lines);
    var i := FirstNewline(s);
    if |lines| == 1 {
      assert s == lines[0];
      assert i == |s|;
    } else {
      var l0, rest := lines[0], JoinLines(lines[1..]);
      assert s == l0 + "\n" + rest;
      assert s[|l0|] == '\n';
      assert i == |l0|;
      assert s[..i] == l0;
      assert s[i + 1..] == rest;
      SplitJoin(lines[1..]);
      assert SplitLines(s) == [l0] + lines[1..];
    }
  }

  /** Splitting at line feeds and joining again gives back the text. */
  lemma {:induction false} JoinSplit(s: string)
    ensures JoinLines(SplitLines(s)) == s
    decreases |s|
  {
    var i := FirstNewline(s);
    if i < |s| {
      var tail := SplitLines(s[i + 1..]);
      JoinSplit(s[i + 1..]);
      var r := [s[..i]] + tail;
      assert SplitLines(s) == r;
      assert |r| >= 2 && r[0] == s[..i] && r[1..] == tail;
      assert JoinLines(r) == s[..i] + "\n" + JoinLines(tail);
      assert s == s[..i] + [s[i]] + s[i + 1..];
    } else {
      assert s[..i] == s;
    }
  }

  /** The character for a decimal digit. */
  function DigitChar(d: nat): (c: char)
    requires d < 10
    ensures '0' <= c <= '9'
  {
    (48 + d) as char
  }

  /** The value of a string of decimal digits. */
  function DigitsValue(s: string): nat
    requires forall k | 0 <= k < |s| :: '0' <= s[k] <= '9'
  {
    if s == [] then 0
    else DigitsValue(s[..|s| - 1]) * 10 + ((s[|s| - 1] as int) - 48)
  }

  /**
   * The decimal text of a natural number, as a template literal prints it: one or more
   * digits, with no leading zero unless the number is zero.
   */
  function NatToString(n: nat): (r: string)
    ensures |r| >= 1
    ensures forall k | 0 <= k < |r| :: '0' <= r[k] <= '9'
    ensures r[0] == '0' ==> n == 0
  {
    if n < 10 then [DigitChar(n)] else NatToString(n / 10) + [DigitChar(n % 10)]
  }

  /** Reading the printed digits back gives the number. */
  lemma {:induction false} NatToStringRoundTrip(n: nat)
    ensures DigitsValue(NatToString(n)) == n
  {
    if n >= 10 {
      var p, c := NatToString(n / 10), DigitChar(n % 10);
      var r := p + [c];
      assert NatToString(n) == r;
      assert r[..|r| - 1] == p && r[|r| - 1] == c;
      assert DigitsValue(r) == DigitsValue(p) * 10 + ((c as int) - 48);
      NatToStringRoundTrip(n / 10);
      assert n == (n / 10) * 10 + n % 10;
    }
  }
}
