/**
 * The JavaScript string operations the source relies on, written out:
 * `startsWith`, `endsWith`, `includes`, `trim`, `toLowerCase` (ASCII letters),
 * `split`, `replace` with a string pattern, the two anchored/global scheme
 * regexes of the domain cleaning chain, and decimal formatting of integers.
 */
module Text {

  predicate StartsWith(s: string, p: string) {
    |p| <= |s| && s[..|p|] == p
  }

  predicate EndsWith(s: string, p: string) {
    |p| <= |s| && s[|s| - |p|..] == p
  }

  /** `s.includes(p)`. */
  predicate Contains(s: string, p: string)
    decreases |s|
  {
    StartsWith(s, p) || (|s| > 0 && Contains(s[1..], p))
  }

  /** Every character of a contained string occurs in the containing one. */
  lemma {:induction false} ContainsChars(s: string, p: string, c: char)
    requires Contains(s, p) && c in p
    ensures c in s
  {
    if StartsWith(s, p) {
      assert c in s[..|p|];
    } else {
      ContainsChars(s[1..], p, c);
    }
  }

  /**
   * The characters `String.prototype.trim` and the regex class `\s` treat as
   * white space: the ECMAScript WhiteSpace and LineTerminator code points.
   */
  predicate IsSpace(c: char) {
    var n := c as int;
    (9 <= n <= 13) || n == 32 || n == 0xA0 || n == 0x1680 || (0x2000 <= n <= 0x200A)
    || n == 0x2028 || n == 0x2029 || n == 0x202F || n == 0x205F || n == 0x3000 || n == 0xFEFF
  }

  function TrimStart(s: string): (r: string)
    ensures |r| <= |s| && r == s[|s| - |r|..]
    ensures forall i :: 0 <= i < |s| - |r| ==> IsSpace(s[i])
    ensures r == [] || !IsSpace(r[0])
  {
    if |s| > 0 && IsSpace(s[0]) then TrimStart(s[1..]) else s
  }

  function TrimEnd(s: string): (r: string)
    ensures |r| <= |s| && r == s[..|r|]
    ensures forall i :: |r| <= i < |s| ==> IsSpace(s[i])
    ensures r == [] || !IsSpace(r[|r| - 1])
  {
    if |s| > 0 && IsSpace(s[|s| - 1]) then TrimEnd(s[..|s| - 1]) else s
  }

  /** `s.trim()`: the longest slice of `s` that neither starts nor ends with white space. */
  function Trim(s: string): (r: string)
    ensures r == [] || (!IsSpace(r[0]) && !IsSpace(r[|r| - 1]))
  {
    TrimEnd(TrimStart(s))
  }

  /** Trimming only removes characters. */
  lemma TrimKeepsChars(s: string)
    ensures forall c :: c in Trim(s) ==> c in s
  {
    var a := TrimStart(s);
    var t := TrimEnd(a);
    assert forall i :: 0 <= i < |t| ==> t[i] == a[i];
    assert forall i :: 0 <= i < |a| ==> a[i] == s[|s| - |a| + i];
  }

  lemma TrimIdempotent(s: string)
    ensures Trim(Trim(s)) == Trim(s)
  {
    var t := Trim(s);
    assert TrimStart(t) == t;
    assert TrimEnd(t) == t;
  }

  /** A string that neither starts nor ends with white space is its own trim. */
  lemma TrimOfTrimmed(s: string)
    requires s == [] || (!IsSpace(s[0]) && !IsSpace(s[|s| - 1]))
    ensures Trim(s) == s
  {
    assert TrimStart(s) == s;
    assert TrimEnd(s) == s;
  }

  /** Trimming an all-white-space string leaves it empty, and only then. */
  lemma TrimEmpty(s: string)
    ensures Trim(s) == [] <==> forall i :: 0 <= i < |s| ==> IsSpace(s[i])
  {
    var a := TrimStart(s);
    if a != [] {
      assert TrimEnd(a) != [];
      assert !IsSpace(s[|s| - |a|]);
    }
  }

  function LowerChar(c: char): char {
    if 'A' <= c <= 'Z' then (c as int + 32) as char else c
  }

  /** `s.toLowerCase()` on ASCII letters; every other character is unchanged. */
  function Lower(s: string): (r: string)
    ensures |r| == |s|
    ensures forall i :: 0 <= i < |s| ==> r[i] == LowerChar(s[i])
    ensures forall i :: 0 <= i < |r| ==> !('A' <= r[i] <= 'Z')
  {
    seq(|s|, i requires 0 <= i < |s| => LowerChar(s[i]))
  }

  /** A case-insensitive `startsWith` for an all-lower-case pattern, as a `/i` regex compares. */
  predicate StartsWithNoCase(s: string, p: string) {
    |p| <= |s| && Lower(s[..|p|]) == p
  }

  /**
   * `s.split(sep)` for a separator that is any one character of `seps`:
   * `split("/")`, `split("\n")`, `split(/[,;]/)`.
   */
  function Split(s: string, seps: set<char>): (r: seq<string>)
    ensures |r| >= 1
    ensures forall k, i :: 0 <= k < |r| && 0 <= i < |r[k]| ==> r[k][i] !in seps
    ensures StartsWith(s, r[0])
  {
    if |s| == 0 then [[]]
    else
      var rest := Split(s[1..], seps);
      if s[0] in seps then [[]] + rest
      else
        var first := [s[0]] + rest[0];
        assert s[..|first|] == [s[0]] + s[1..][..|rest[0]|];
        [first] + rest[1..]
  }

  /** A string holding no separator splits into itself alone. */
  lemma {:induction false} SplitWithoutSeparator(s: string, seps: set<char>)
    requires forall i :: 0 <= i < |s| ==> s[i] !in seps
    ensures Split(s, seps) == [s]
  {
    if |s| > 0 {
      SplitWithoutSeparator(s[1..], seps);
      assert s == [s[0]] + s[1..];
    }
  }

  /** A string that starts with a separator splits into an empty piece followed by the pieces of the rest. */
  lemma SplitConsSeparator(x: char, t: string, seps: set<char>)
    requires x in seps
    ensures Split([x] + t, seps) == [[]] + Split(t, seps)
  {
    assert ([x] + t)[1..] == t;
  }

  /** Any other first character joins the first piece of the rest. */
  lemma SplitConsChar(x: char, t: string, seps: set<char>)
    requires x !in seps
    ensures Split([x] + t, seps) == [[x] + Split(t, seps)[0]] + Split(t, seps)[1..]
  {
    assert ([x] + t)[1..] == t;
  }

  lemma ConcatAssoc<T>(p: seq<T>, q: seq<T>, r: seq<T>)
    ensures (p + q) + r == p + (q + r)
  {
  }

  /** Adding `x` to the first piece commutes with appending further pieces. */
  lemma PiecesConsAppend(x: char, p: seq<string>, q: seq<string>)
    requires |p| >= 1
    ensures ([[x] + p[0]] + p[1..]) + q == [[x] + (p + q)[0]] + (p + q)[1..]
  {
    assert (p + q)[0] == p[0];
    assert (p + q)[1..] == p[1..] + q;
  }

  /** The inductive step of `SplitAtSeparator` when the first character is itself a separator. */
  lemma SplitAtSeparatorConsSeparator(x: char, t: string, c: char, b: string, seps: set<char>)
    requires x in seps
    requires Split(t + [c] + b, seps) == Split(t, seps) + Split(b, seps)
    ensures Split([x] + (t + [c] + b), seps) == Split([x] + t, seps) + Split(b, seps)
  {
    var restA, tail := Split(t, seps), Split(b, seps);
    SplitConsSeparator(x, t + [c] + b, seps);
    SplitConsSeparator(x, t, seps);
    ConcatAssoc([[]], restA, tail);
  }

  /** The inductive step of `SplitAtSeparator` when the first character is not a separator. */
  lemma SplitAtSeparatorConsChar(x: char, t: string, c: char, b: string, seps: set<char>)
    requires x !in seps
    requires Split(t + [c] + b, seps) == Split(t, seps) + Split(b, seps)
    ensures Split([x] + (t + [c] + b), seps) == Split([x] + t, seps) + Split(b, seps)
  {
    var restA, tail := Split(t, seps), Split(b, seps);
    SplitConsChar(x, t + [c] + b, seps);
    SplitConsChar(x, t, seps);
    PiecesConsAppend(x, restA, tail);
  }

  /** A separator splits the string into the pieces before it followed by the pieces after it. */
  lemma {:induction false} SplitAtSeparator(a: string, c: char, b: string, seps: set<char>)
    requires c in seps
    ensures Split(a + [c] + b, seps) == Split(a, seps) + Split(b, seps)
  {
    if |a| == 0 {
      assert a + [c] + b == [c] + b;
      SplitConsSeparator(c, b, seps);
    } else {
      var t := a[1..];
      SplitAtSeparator(t, c, b, seps);
      if a[0] in seps {
        SplitAtSeparatorConsSeparator(a[0], t, c, b, seps);
      } else {
        SplitAtSeparatorConsChar(a[0], t, c, b, seps);
      }
      assert a + [c] + b == [a[0]] + (t + [c] + b);
      assert a == [a[0]] + t;
    }
  }

  /** `pieces.join(c)`. */
  function Join(pieces: seq<string>, c: char): string
    requires |pieces| >= 1
  {
    if |pieces| == 1 then pieces[0] else pieces[0] + [c] + Join(pieces[1..], c)
  }

  lemma JoinConsFirst(x: char, pieces: seq<string>, c: char)
    requires |pieces| >= 1
    ensures Join([[x] + pieces[0]] + pieces[1..], c) == [x] + Join(pieces, c)
  {
    var ps := [[x] + pieces[0]] + pieces[1..];
    assert ps[1..] == pieces[1..];
  }

  /** Splitting on one character and joining with it again gives back the string. */
  lemma {:induction false} SplitJoin(s: string, c: char)
    ensures Join(Split(s, {c}), c) == s
  {
    if |s| > 0 {
      var rest := Split(s[1..], {c});
      SplitJoin(s[1..], c);
      if s[0] == c {
        var ps := [[]] + rest;
        assert ps[1..] == rest;
        assert s == [c] + s[1..];
      } else {
        JoinConsFirst(s[0], rest, c);
        assert s == [s[0]] + s[1..];
      }
    }
  }

  /** `s.replace(/https?:\/\//g, "")`: every left-to-right, non-overlapping scheme prefix is deleted. */
  function RemoveSchemes(s: string): (r: string)
    ensures |r| <= |s|
    decreases |s|
  {
    if |s| == 0 then []
    else if StartsWith(s, "http://") then RemoveSchemes(s[7..])
    else if StartsWith(s, "https://") then RemoveSchemes(s[8..])
    else [s[0]] + RemoveSchemes(s[1..])
  }

  /** Text with no colon holds no scheme to remove. */
  lemma {:induction false} RemoveSchemesWithoutColon(s: string)
    requires ':' !in s
    ensures RemoveSchemes(s) == s
  {
    if |s| > 0 {
      assert !StartsWith(s, "http://") by { assert |s| < 7 || s[4] != ':'; }
      assert !StartsWith(s, "https://") by { assert |s| < 8 || s[5] != ':'; }
      assert ':' !in s[1..] by { assert forall c :: c in s[1..] ==> c in s; }
      RemoveSchemesWithoutColon(s[1..]);
      assert s == [s[0]] + s[1..];
    }
  }

  /** `s.replace(/^p/, "")` for a literal `p`: drop one leading occurrence. */
  function DropPrefix(s: string, p: string): (r: string)
    ensures (StartsWith(s, p) && s == p + r) || (!StartsWith(s, p) && r == s)
  {
    if StartsWith(s, p) then s[|p|..] else s
  }

  /** `s.replace(pat, rep)` with a string pattern: only the first occurrence is replaced. */
  function ReplaceFirst(s: string, pat: string, rep: string): (r: string)
    ensures !Contains(s, pat) ==> r == s
    decreases |s|
  {
    if StartsWith(s, pat) then rep + s[|pat|..]
    else if |s| == 0 then s
    else [s[0]] + ReplaceFirst(s[1..], pat, rep)
  }

  function DigitChar(d: nat): char
    requires d < 10
  {
    ('0' as int + d) as char
  }

  /** `${n}` for a non-negative integer. */
  function NatToString(n: nat): (r: string)
    ensures |r| >= 1
    ensures forall i :: 0 <= i < |r| ==> '0' <= r[i] <= '9'
  {
    if n < 10 then [DigitChar(n)] else NatToString(n / 10) + [DigitChar(n % 10)]
  }

  function DigitsValue(s: string): int
    requires forall i :: 0 <= i < |s| ==> '0' <= s[i] <= '9'
  {
    if |s| == 0 then 0 else 10 * DigitsValue(s[..|s| - 1]) + (s[|s| - 1] as int - '0' as int)
  }

  /** The decimal text of a number reads back as that number. */
  lemma {:induction false} NatToStringRoundTrip(n: nat)
    ensures DigitsValue(NatToString(n)) == n
  {
    if n >= 10 {
      NatToStringRoundTrip(n / 10);
      var s := NatToString(n);
      assert s[..|s| - 1] == NatToString(n / 10);
    }
  }
}
