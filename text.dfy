/** The handful of JavaScript string primitives the core relies on:
    `trim`, `indexOf`/`includes`, `split(sep)[0]`, `toLowerCase` and
    `toUpperCase`, and the character classes `\s`, `.` and `[A-Z]` of its
    regular expressions. A JavaScript string is modelled as `seq<char>`. */
module Text {
  import opened Wrappers

  /** ECMAScript LineTerminator: the characters `.` in a regular expression does not match. */
  predicate IsLineTerminator(c: char) {
    c == '\n' || c == '\r' || c == '\U{2028}' || c == '\U{2029}'
  }

  /** ECMAScript WhiteSpace plus LineTerminator: what `trim` removes and `\s` matches. */
  predicate IsWhitespace(c: char) {
    || c == '\t' || c == '\U{B}' || c == '\U{C}' || c == ' ' || c == '\U{A0}' || c == '\U{FEFF}'
    || c == '\U{1680}' || ('\U{2000}' <= c <= '\U{200A}') || c == '\U{202F}' || c == '\U{205F}'
    || c == '\U{3000}' || IsLineTerminator(c)
  }

  /** `[A-Z]` */
  predicate IsAsciiUpper(c: char) {
    'A' <= c <= 'Z'
  }

  predicate OccursAt(s: string, pat: string, i: nat) {
    i + |pat| <= |s| && s[i..i + |pat|] == pat
  }

  /** `s.indexOf(pat, from)`, with "not found" as `None`. */
  function IndexOfFrom(s: string, pat: string, from: nat): (r: Option<nat>)
    decreases |s| - from
    ensures r.Some? ==> from <= r.value && OccursAt(s, pat, r.value)
    ensures forall j :: from <= j && (r.None? || j < r.value) ==> !OccursAt(s, pat, j)
  {
    if from + |pat| > |s| then None
    else if OccursAt(s, pat, from) then Some(from)
    else IndexOfFrom(s, pat, from + 1)
  }

  function IndexOf(s: string, pat: string): (r: Option<nat>)
    ensures r.Some? ==> OccursAt(s, pat, r.value)
    ensures forall j :: 0 <= j && (r.None? || j < r.value) ==> !OccursAt(s, pat, j)
  {
    IndexOfFrom(s, pat, 0)
  }

  /** `s.includes(pat)` */
  predicate Contains(s: string, pat: string) {
    IndexOf(s, pat).Some?
  }

  lemma ContainsIff(s: string, pat: string)
    ensures Contains(s, pat) <==> exists i :: OccursAt(s, pat, i)
  {
    if !Contains(s, pat) {
      assert forall i :: 0 <= i ==> !OccursAt(s, pat, i);
    }
  }

  lemma OccursAtWitness(s: string, pat: string, i: nat)
    requires OccursAt(s, pat, i)
    ensures Contains(s, pat)
  {
    ContainsIff(s, pat);
  }

  /** A pattern cannot start where its first character is missing. */
  lemma NoOccurrenceWithoutFirstChar(s: string, pat: string)
    requires pat != []
    ensures !Contains(s, pat) <==> forall i :: 0 <= i <= |s| - |pat| && s[i] == pat[0] ==> !OccursAt(s, pat, i)
  {
    ContainsIff(s, pat);
    forall i: nat | OccursAt(s, pat, i) ensures s[i] == pat[0] {
      assert s[i..i + |pat|][0] == s[i];
    }
  }

  /** `t` is a contiguous piece of `s`. */
  ghost predicate IsInfix(t: string, s: string) {
    exists k :: InfixAt(t, s, k)
  }

  ghost predicate InfixAt(t: string, s: string, k: int) {
    0 <= k <= |s| - |t| && s[k..k + |t|] == t
  }

  /** A pattern absent from a string is absent from every piece of it. */
  lemma {:induction false} InfixAvoids(t: string, s: string, pat: string)
    requires IsInfix(t, s) && !Contains(s, pat)
    ensures !Contains(t, pat)
  {
    var k :| InfixAt(t, s, k);
    if Contains(t, pat) {
      var i := IndexOf(t, pat).value;
      var j := k + i;
      forall m | j <= m < j + |pat| ensures s[m] == t[m - k] { }
      assert s[j..j + |pat|] == t[i..i + |pat|];
      OccursAtWitness(s, pat, k + i);
    }
  }

  lemma InfixTrans(a: string, b: string, c: string)
    requires IsInfix(a, b) && IsInfix(b, c)
    ensures IsInfix(a, c)
  {
    var i :| InfixAt(a, b, i);
    var j :| InfixAt(b, c, j);
    forall n | 0 <= n < |a| ensures c[j + i + n] == a[n] {
      assert a[n] == b[i + n] == c[j + i + n];
    }
    assert c[j + i..j + i + |a|] == a;
    assert InfixAt(a, c, j + i);
  }

  /** A prefix ending before the first occurrence of `sep` does not contain it. */
  lemma PrefixBeforeOccurrence(s: string, sep: string, i: nat)
    requires sep != [] && i <= |s|
    requires forall j :: 0 <= j < i ==> !OccursAt(s, sep, j)
    ensures !Contains(s[..i], sep)
  {
    var r := s[..i];
    forall j: nat | j + |sep| <= |r| ensures !OccursAt(r, sep, j) {
      forall m | j <= m < j + |sep| ensures r[m] == s[m] { }
      assert r[j..j + |sep|] == s[j..j + |sep|];
      assert !OccursAt(s, sep, j);
    }
    ContainsIff(r, sep);
  }

  /** `s.split(sep)[0]`: the text before the first `sep`, or all of `s`. */
  function BeforeFirst(s: string, sep: string): (r: string)
    requires sep != []
    ensures r <= s
    ensures !Contains(r, sep)
    ensures |r| < |s| ==> OccursAt(s, sep, |r|)
    ensures forall j :: 0 <= j < |r| ==> !OccursAt(s, sep, j)
    ensures IndexOf(s, sep).None? ==> r == s
  {
    var found := IndexOf(s, sep);
    if found.None? then s
    else
      var i := found.value;
      var r := s[..i];
      PrefixBeforeOccurrence(s, sep, i);
      r
  }

  ghost predicate NoSurroundingWhitespace(s: string) {
    s == [] || (!IsWhitespace(s[0]) && !IsWhitespace(s[|s| - 1]))
  }

  function TrimStart(s: string): (r: string)
    ensures |r| <= |s| && r == s[|s| - |r|..]
    ensures r == [] || !IsWhitespace(r[0])
    ensures forall i :: 0 <= i < |s| - |r| ==> IsWhitespace(s[i])
  {
    if s != [] && IsWhitespace(s[0]) then TrimStart(s[1..]) else s
  }

  function TrimEnd(s: string): (r: string)
    ensures |r| <= |s| && r == s[..|r|]
    ensures r == [] || !IsWhitespace(r[|r| - 1])
    ensures forall i :: |r| <= i < |s| ==> IsWhitespace(s[i])
  {
    if s != [] && IsWhitespace(s[|s| - 1]) then TrimEnd(s[..|s| - 1]) else s
  }

  /** `r` is `s` with the whitespace before index `i` and after `i + |r|` cut off. */
  ghost predicate TrimmedAt(r: string, s: string, i: int) {
    && InfixAt(r, s, i)
    && (forall j :: 0 <= j < i ==> IsWhitespace(s[j]))
    && (forall j :: i + |r| <= j < |s| ==> IsWhitespace(s[j]))
  }

  /** Trimming the end of the suffix of `s` from `i` leaves a piece of `s`
      at `i` followed by whitespace only. */
  lemma TrimEndAt(t: string, s: string, i: nat)
    requires i <= |s| && t == s[i..]
    ensures InfixAt(TrimEnd(t), s, i)
    ensures forall j :: i + |TrimEnd(t)| <= j < |s| ==> IsWhitespace(s[j])
  {
    var r := TrimEnd(t);
    assert s[i..i + |r|] == s[i..][..|r|];
    forall j | i + |r| <= j < |s| ensures IsWhitespace(s[j]) {
      assert s[j] == t[j - i];
    }
  }

  /** Trimming the start, then the end, leaves no whitespace at either end. */
  lemma {:induction false} TrimEnds(s: string)
    ensures NoSurroundingWhitespace(TrimEnd(TrimStart(s)))
  {
    var t := TrimStart(s);
    var r := TrimEnd(t);
    if r != [] {
      assert r[0] == t[0];
    }
  }

  /** Trimming the start, then the end, cuts whitespace only. */
  lemma {:induction false} TrimCuts(s: string)
    ensures TrimmedAt(TrimEnd(TrimStart(s)), s, |s| - |TrimStart(s)|)
  {
    TrimEndAt(TrimStart(s), s, |s| - |TrimStart(s)|);
  }

  /** `s.trim()`: drops leading and trailing whitespace and nothing else. */
  function Trim(s: string): (r: string)
    ensures NoSurroundingWhitespace(r)
    ensures exists i :: TrimmedAt(r, s, i)
    ensures IsInfix(r, s)
    ensures NoSurroundingWhitespace(s) ==> r == s
  {
    TrimEnds(s);
    TrimCuts(s);
    TrimEnd(TrimStart(s))
  }

  /** `toLowerCase` on one character, for the Latin-1 range. */
  function LowerChar(c: char): char {
    if 'A' <= c <= 'Z' || ('\U{C0}' <= c <= '\U{DE}' && c != '\U{D7}') then (c as int + 32) as char else c
  }

  /** `toUpperCase` on one character, for the Latin-1 range, where every
      letter but 'ß' has a one-character capital. */
  function UpperChar(c: char): char {
    if 'a' <= c <= 'z' || ('\U{E0}' <= c <= '\U{FE}' && c != '\U{F7}') then (c as int - 32) as char
    else if c == '\U{FF}' then '\U{178}'
    else if c == '\U{B5}' then '\U{39C}'
    else c
  }

  /** The upper case of one character: 'ß' becomes "SS". */
  function UpperOf(c: char): string {
    if c == '\U{DF}' then "SS" else [UpperChar(c)]
  }

  function ToLower(s: string): (r: string)
    ensures |r| == |s| && forall i :: 0 <= i < |s| ==> r[i] == LowerChar(s[i])
  {
    seq(|s|, i requires 0 <= i < |s| => LowerChar(s[i]))
  }

  /** `s.toUpperCase()`: the length is kept unless the text holds a 'ß'. */
  function ToUpper(s: string): (r: string)
    ensures |r| >= |s|
    ensures (forall i :: 0 <= i < |s| ==> s[i] != '\U{DF}') ==>
      |r| == |s| && forall i :: 0 <= i < |s| ==> r[i] == UpperChar(s[i])
  {
    if s == [] then []
    else
      var rest := ToUpper(s[1..]);
      assert forall i :: 0 <= i < |s| - 1 ==> s[1..][i] == s[i + 1];
      UpperOf(s[0]) + rest
  }

  /** Upper-casing a concatenation upper-cases each part. */
  lemma {:induction false} ToUpperAppend(a: string, b: string)
    ensures ToUpper(a + b) == ToUpper(a) + ToUpper(b)
  {
    if a != [] {
      assert (a + b)[1..] == a[1..] + b;
      ToUpperAppend(a[1..], b);
    } else {
      assert a + b == b;
    }
  }

  /** Upper-casing leaves a string of ASCII capitals as it is. */
  lemma {:induction false} UpperOfCapitals(s: string)
    requires forall i :: 0 <= i < |s| ==> IsAsciiUpper(s[i])
    ensures ToUpper(s) == s
  {
    assert forall i :: 0 <= i < |s| ==> s[i] != '\U{DF}';
    var r := ToUpper(s);
    forall i | 0 <= i < |s| ensures r[i] == s[i] {
      assert r[i] == UpperChar(s[i]);
    }
  }

  /** Upper-casing is idempotent, 'ß' included. */
  lemma {:induction false} UpperIdempotent(s: string)
    ensures ToUpper(ToUpper(s)) == ToUpper(s)
  {
    if s != [] {
      var u := UpperOf(s[0]);
      assert ToUpper(u) == u by {
        if s[0] == '\U{DF}' {
          assert u[1..] == "S";
          assert "S"[1..] == [];
        } else {
          assert u[1..] == [];
        }
      }
      ToUpperAppend(u, ToUpper(s[1..]));
      UpperIdempotent(s[1..]);
    }
  }
}
