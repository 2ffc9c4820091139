/** The regular expressions the forms validate with, each replaced by the
    predicate it decides. A pattern is matched against the whole value
    (`^…$`, no flags), and `.` matches any character but a line terminator.
    The field rules are in src/app/components/Map/AddAlerta/AddAlerta.tsx
    and src/app/register/page.tsx. */
module Patterns {
  import opened Text
  import opened UfTable

  /** The patterns that occur in the forms. */
  datatype Pattern =
    | OneLine(min: nat, max: nat)   // /^.{min,max}$/
    | TwoCapitals                   // /^[A-Z]{2}$/
    | Email                         // /^[^\s@]+@[^\s@]+\.[^\s@]+$/
    | StrongPassword                // the password policy of the register page

  /** `pattern.test(value)` */
  predicate Matches(p: Pattern, s: string) {
    match p
    case OneLine(min, max) => IsOneLine(s) && min <= |s| <= max
    case TwoCapitals => IsUfCode(s)
    case Email => IsEmail(s)
    case StrongPassword => IsStrongPassword(s)
  }

  /** Every character is matched by `.` */
  predicate IsOneLine(s: string) {
    forall i :: 0 <= i < |s| ==> !IsLineTerminator(s[i])
  }

  /** `[^\s@]` */
  predicate IsEmailChar(c: char) {
    !IsWhitespace(c) && c != '@'
  }

  /** `[^\s@]+` over the slice `s[lo..hi]`. */
  predicate IsEmailRun(s: string, lo: nat, hi: nat) {
    lo < hi <= |s| && forall k :: lo <= k < hi ==> IsEmailChar(s[k])
  }

  /** `^[^\s@]+@[^\s@]+\.[^\s@]+$` read as a concatenation: a run, the '@' at
      `at`, a run, the '.' at `dot`, a run. */
  predicate EmailSplit(s: string, at: nat, dot: nat) {
    && at < dot < |s|
    && s[at] == '@' && s[dot] == '.'
    && IsEmailRun(s, 0, at) && IsEmailRun(s, at + 1, dot) && IsEmailRun(s, dot + 1, |s|)
  }

  /** The e-mail pattern matches when some way of cutting the value fits it. */
  predicate IsEmail(s: string) {
    exists at: nat, dot: nat :: at < dot < |s| && EmailSplit(s, at, dot)
  }

  /** `[a-z]`, `[A-Z]`, `\d` */
  predicate IsAsciiLower(c: char) { 'a' <= c <= 'z' }
  predicate IsAsciiDigit(c: char) { '0' <= c <= '9' }

  /** `[!@#$%^&*()_+\-=[\]{};':"\\|,.<>/?]` */
  predicate IsSpecial(c: char) {
    c in "!@#$%^&*()_+-=[]{};':\"\\|,.<>/?"
  }

  /** The lookahead `(?=.*[class])` at the start: a character of the class
      after a stretch of characters `.` matches. */
  predicate LookaheadFinds(s: string, inClass: char -> bool) {
    exists k :: 0 <= k < |s| && inClass(s[k]) && IsOneLine(s[..k])
  }

  /** `^(?=.*[a-z])(?=.*[A-Z])(?=.*\d)(?=.*[special]).{8,}$` */
  predicate IsStrongPassword(s: string) {
    && LookaheadFinds(s, IsAsciiLower)
    && LookaheadFinds(s, IsAsciiUpper)
    && LookaheadFinds(s, IsAsciiDigit)
    && LookaheadFinds(s, IsSpecial)
    && IsOneLine(s) && |s| >= 8
  }

  /** Some character of `s` is in the class. */
  predicate Has(s: string, inClass: char -> bool) {
    exists k :: 0 <= k < |s| && inClass(s[k])
  }

  /** The password pattern is the policy its message states: at least eight
      characters, a capital, a small letter, a digit and a special character
      (and, from `.`, no line break). */
  lemma StrongPasswordPolicy(s: string)
    ensures IsStrongPassword(s) <==>
      && |s| >= 8 && IsOneLine(s)
      && Has(s, IsAsciiLower) && Has(s, IsAsciiUpper) && Has(s, IsAsciiDigit) && Has(s, IsSpecial)
  {
    if IsOneLine(s) {
      PrefixOneLine(s, IsAsciiLower);
      PrefixOneLine(s, IsAsciiUpper);
      PrefixOneLine(s, IsAsciiDigit);
      PrefixOneLine(s, IsSpecial);
    }
  }

  /** On a one-line value a lookahead finds exactly what the value contains. */
  lemma PrefixOneLine(s: string, inClass: char -> bool)
    requires IsOneLine(s)
    ensures LookaheadFinds(s, inClass) <==> Has(s, inClass)
  {
    if Has(s, inClass) {
      var k :| 0 <= k < |s| && inClass(s[k]);
      assert IsOneLine(s[..k]);
    }
  }

  /** A value the e-mail pattern accepts has exactly one '@', no whitespace,
      a non-empty part before the '@', and after it a '.' that is neither
      the first nor the last character of the domain. */
  lemma EmailShape(s: string)
    requires IsEmail(s)
    ensures forall k :: 0 <= k < |s| ==> !IsWhitespace(s[k])
    ensures exists at :: 0 < at < |s| && s[at] == '@' && (forall k :: 0 <= k < |s| && k != at ==> s[k] != '@')
                         && HasInnerDot(s, at + 1)
  {
    var at: nat, dot: nat :| at < dot < |s| && EmailSplit(s, at, dot);
    assert HasInnerDot(s, at + 1) by {
      assert at + 1 < dot < |s| - 1 && s[dot] == '.';
    }
  }

  /** The domain `s[from..]` has a '.' with something on both sides. */
  predicate HasInnerDot(s: string, from: nat) {
    exists d :: from < d < |s| - 1 && s[d] == '.'
  }

  /** Conversely, such a value is accepted. */
  lemma EmailFromShape(s: string, at: nat)
    requires 0 < at < |s| && s[at] == '@'
    requires forall k :: 0 <= k < |s| ==> !IsWhitespace(s[k])
    requires forall k :: 0 <= k < |s| && k != at ==> s[k] != '@'
    requires HasInnerDot(s, at + 1)
    ensures IsEmail(s)
  {
    var d :| at + 1 < d < |s| - 1 && s[d] == '.';
    assert EmailSplit(s, at, d);
  }

  /** Cases from the register form. */
  lemma EmailExamples()
    ensures IsEmail("ana@chuva.br")
    ensures !IsEmail("ana@chuva")
    ensures !IsEmail("ana @chuva.br")
    ensures !IsEmail("@chuva.br")
  {
    assert EmailSplit("ana@chuva.br", 3, 9);
    forall at: nat, dot: nat | at < dot < 9 ensures !EmailSplit("ana@chuva", at, dot) {
    }
    var spaced := "ana @chuva.br";
    forall at: nat, dot: nat | at < dot < 13 ensures !EmailSplit(spaced, at, dot) {
      assert spaced[3] == ' ';
      assert forall k :: 0 <= k < 13 && spaced[k] == '@' ==> k == 4;
    }
    forall at: nat, dot: nat | at < dot < 9 ensures !EmailSplit("@chuva.br", at, dot) {
    }
  }

  /** A password meeting the whole policy. */
  lemma PasswordAccepted()
    ensures IsStrongPassword("Chuva#2025")
  {
    var good := "Chuva#2025";
    assert |good| == 10;
    forall i | 0 <= i < 10 ensures ' ' <= good[i] <= '~' { }
    assert IsOneLine(good);
    assert IsAsciiUpper(good[0]) && IsAsciiLower(good[1]) && IsSpecial(good[5]) && IsAsciiDigit(good[6]);
    StrongPasswordPolicy(good);
  }

  /** Without a capital the password is refused. */
  lemma PasswordWithoutCapital()
    ensures !IsStrongPassword("chuva#2025")
  {
    var noCapital := "chuva#2025";
    StrongPasswordPolicy(noCapital);
    assert !Has(noCapital, IsAsciiUpper);
  }

  /** Too short a password is refused. */
  lemma PasswordTooShort()
    ensures !IsStrongPassword("Ch#25")
  {
  }

  /** A value the `[A-Z]{2}` pattern accepts is left as it is by `toUpperCase`. */
  lemma TwoCapitalsUpper(s: string)
    requires Matches(TwoCapitals, s)
    ensures ToUpper(s) == s
  {
    UpperOfCapitals(s);
  }

  /** `.{min,max}` rejects a value with a line break whatever its length. */
  lemma OneLineRejectsBreak(min: nat, max: nat, s: string, i: nat)
    requires i < |s| && s[i] == '\n'
    ensures !Matches(OneLine(min, max), s)
  {
  }
}
