/** The JavaScript string operations the core relies on (`trim`, `trimEnd`,
    `toLowerCase`, `startsWith`, `includes`, `indexOf`, `replace` with a string
    pattern, `split` with a string or case-insensitive pattern, `join`), written
    over `seq<char>`. Case folding covers the ASCII letters; whitespace is the
    set `IsSpace` lists. */
module Strings {
  import opened Wrappers

  predicate IsSpace(c: char) {
    c == ' ' || c == '\t' || c == '\n' || c == '\r' || c == '\U{B}' || c == '\U{C}'
    || c == '\U{A0}' || c == '\U{FEFF}' || c == '\U{2028}' || c == '\U{2029}'
    || c == '\U{1680}' || ('\U{2000}' <= c <= '\U{200A}') || c == '\U{202F}' || c == '\U{205F}' || c == '\U{3000}'
  }

  /** `String.prototype.trimStart` */
  function TrimStart(s: string): (r: string)
    ensures |r| <= |s| && r == s[|s| - |r|..]
    ensures r == [] || !IsSpace(r[0])
    ensures forall i :: 0 <= i < |s| - |r| ==> IsSpace(s[i])
  {
    if s != [] && IsSpace(s[0]) then
      var t := s[1..];
      var r := TrimStart(t);
      assert forall i :: 1 <= i < |s| - |r| ==> s[i] == t[i - 1];
      r
    else s
  }

  /** `String.prototype.trimEnd` */
  function TrimEnd(s: string): (r: string)
    ensures |r| <= |s| && r == s[..|r|]
    ensures r == [] || !IsSpace(r[|r| - 1])
    ensures forall i :: |r| <= i < |s| ==> IsSpace(s[i])
  {
    if s != [] && IsSpace(s[|s| - 1]) then TrimEnd(s[..|s| - 1]) else s
  }

  /** `String.prototype.trim`: a slice of `s` with no whitespace at either end */
  function Trim(s: string): (r: string)
    ensures |r| <= |s|
    ensures r == [] || (!IsSpace(r[0]) && !IsSpace(r[|r| - 1]))
  {
    TrimEnd(TrimStart(s))
  }

  /** Trimming twice is trimming once */
  lemma {:induction false} TrimIdempotent(s: string)
    ensures Trim(Trim(s)) == Trim(s)
  {
    var t := TrimStart(s);
    var u := TrimEnd(t);
    if u != [] {
      assert u[0] == t[0];
    }
    assert TrimStart(u) == u;
  }

  /** Leading whitespace does not change the trimmed text */
  lemma {:induction false} TrimLeadingSpace(c: char, s: string)
    requires IsSpace(c)
    ensures Trim([c] + s) == Trim(s)
  {
    assert ([c] + s)[1..] == s;
  }

  function LowerChar(c: char): char {
    if 'A' <= c <= 'Z' then (c as int + 32) as char else c
  }

  /** `String.prototype.toLowerCase`, ASCII letters only */
  function Lower(s: string): (r: string)
    ensures |r| == |s|
    ensures forall i :: 0 <= i < |s| ==> r[i] == LowerChar(s[i])
  {
    if s == [] then [] else [LowerChar(s[0])] + Lower(s[1..])
  }

  predicate StartsWith(s: string, prefix: string) {
    prefix <= s
  }

  /** `pat` occurs in `s` at position `i` */
  predicate OccursAt(s: string, pat: string, i: nat) {
    i + |pat| <= |s| && s[i..i + |pat|] == pat
  }

  /** `s.includes(pat)` */
  predicate Contains(s: string, pat: string) {
    exists i: nat | i <= |s| :: OccursAt(s, pat, i)
  }

  /** `s.indexOf(pat)`, searching from position `from` */
  function IndexOfFrom(s: string, pat: string, from: nat): (r: Option<nat>)
    decreases |s| - from
    ensures r.Some? ==> from <= r.value && OccursAt(s, pat, r.value)
    ensures r.Some? ==> forall j: nat :: from <= j < r.value ==> !OccursAt(s, pat, j)
    ensures r.None? ==> forall j: nat :: from <= j ==> !OccursAt(s, pat, j)
  {
    if from + |pat| > |s| then None
    else if s[from..from + |pat|] == pat then Some(from)
    else IndexOfFrom(s, pat, from + 1)
  }

  function IndexOf(s: string, pat: string): (r: Option<nat>)
    ensures r.Some? <==> Contains(s, pat)
    ensures r.Some? ==> OccursAt(s, pat, r.value) && forall j: nat :: j < r.value ==> !OccursAt(s, pat, j)
  {
    IndexOfFrom(s, pat, 0)
  }

  /** `s.replace(pat, rep)` with a string pattern: only the first occurrence is replaced */
  function ReplaceFirst(s: string, pat: string, rep: string): (r: string)
    ensures !Contains(s, pat) ==> r == s
    ensures Contains(s, pat) ==> |r| == |s| - |pat| + |rep|
  {
    match IndexOf(s, pat)
    case None => s
    case Some(i) => s[..i] + rep + s[i + |pat|..]
  }

  /** `parts.join(sep)` */
  function Join(parts: seq<string>, sep: string): string {
    if parts == [] then ""
    else if |parts| == 1 then parts[0]
    else parts[0] + sep + Join(parts[1..], sep)
  }

  /** Joining keeps every non-empty part, so the result is non-empty */
  lemma {:induction false} JoinNonEmpty(parts: seq<string>, sep: string, x: string)
    requires x in parts && x != ""
    ensures Join(parts, sep) != ""
  {
    if |parts| > 1 && parts[0] != x {
      assert x in parts[1..];
      JoinNonEmpty(parts[1..], sep, x);
    }
  }

  /** `pat` occurs at `i` in `s`, ignoring ASCII case (as the `i` flag of a regular expression does) */
  predicate OccursAtIgnoreCase(s: string, pat: string, i: nat) {
    i + |pat| <= |s| && Lower(s[i..i + |pat|]) == Lower(pat)
  }

  predicate Matches(s: string, pat: string, i: nat, ignoreCase: bool) {
    if ignoreCase then OccursAtIgnoreCase(s, pat, i) else OccursAt(s, pat, i)
  }

  /** A character put in front shifts every match by one */
  lemma {:induction false} MatchesAfterChar(c: char, t: string, pat: string, j: nat, ignoreCase: bool)
    ensures Matches([c] + t, pat, j + 1, ignoreCase) <==> Matches(t, pat, j, ignoreCase)
  {
    if j + |pat| <= |t| {
      assert ([c] + t)[j + 1..j + 1 + |pat|] == t[j..j + |pat|];
    }
  }

  function FirstMatch(s: string, pat: string, from: nat, ignoreCase: bool): (r: Option<nat>)
    decreases |s| - from
    ensures r.Some? ==> from <= r.value && r.value + |pat| <= |s| && Matches(s, pat, r.value, ignoreCase)
    ensures r.Some? ==> forall j: nat :: from <= j < r.value ==> !Matches(s, pat, j, ignoreCase)
    ensures r.None? ==> forall j: nat :: from <= j ==> !Matches(s, pat, j, ignoreCase)
  {
    if from + |pat| > |s| then None
    else if Matches(s, pat, from, ignoreCase) then Some(from)
    else FirstMatch(s, pat, from + 1, ignoreCase)
  }

  /** `s.split(pat)` for a non-empty string pattern, or `s.split(/pat/gi)` when `ignoreCase` */
  function Split(s: string, pat: string, ignoreCase: bool): (r: seq<string>)
    requires |pat| > 0
    decreases |s|
    ensures |r| >= 1
  {
    match FirstMatch(s, pat, 0, ignoreCase)
    case None => [s]
    case Some(i) => [s[..i]] + Split(s[i + |pat|..], pat, ignoreCase)
  }

  /** Number of (possibly overlapping) occurrences of `pat` in `s` */
  function Count(s: string, pat: string): (r: nat)
    requires |pat| > 0
    ensures |s| < |pat| ==> r == 0
  {
    if |s| < |pat| then 0
    else (if s[..|pat|] == pat then 1 else 0) + Count(s[1..], pat)
  }

  /** At most one occurrence starts at each position where the pattern fits */
  lemma {:induction false} CountBound(s: string, pat: string)
    requires |pat| > 0
    ensures |s| >= |pat| ==> Count(s, pat) <= |s| - |pat| + 1
  {
    if |s| > |pat| {
      CountBound(s[1..], pat);
    }
  }

  function DigitChar(d: nat): char
    requires d < 10
  {
    "0123456789"[d]
  }

  function NatToString(n: nat): (r: string)
    ensures |r| >= 1
  {
    if n < 10 then [DigitChar(n)] else NatToString(n / 10) + [DigitChar(n % 10)]
  }

  /** `String(n)` / template interpolation of an integer */
  function IntToString(n: int): string {
    if n < 0 then "-" + NatToString(-n) else NatToString(n)
  }

  /** JavaScript truthiness of a string */
  predicate Truthy(s: string) {
    s != []
  }
}
