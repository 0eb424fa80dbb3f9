/** The sign-up page: the password-strength meter and the loading flag around the
    sign-up call. */
module SignUp {
  import opened Wrappers
  import opened Text

  predicate IsUpper(c: char) { 'A' <= c <= 'Z' }
  predicate IsDigit(c: char) { '0' <= c <= '9' }
  predicate IsAlphanumeric(c: char) { IsUpper(c) || ('a' <= c <= 'z') || IsDigit(c) }

  /** `/[A-Z]/.test(p)` */
  predicate HasUpper(p: string) { exists i :: 0 <= i < |p| && IsUpper(p[i]) }
  /** `/[0-9]/.test(p)` */
  predicate HasDigit(p: string) { exists i :: 0 <= i < |p| && IsDigit(p[i]) }
  /** `/[^A-Za-z0-9]/.test(p)` */
  predicate HasSpecial(p: string) { exists i :: 0 <= i < |p| && !IsAlphanumeric(p[i]) }

  function Point(b: bool): nat { if b then 1 else 0 }

  /** `password.length >= 8`: the length is counted in UTF-16 code units. */
  predicate LongEnough(p: string) { Utf16Length(p) >= 8 }

  /** `passwordStrength(p)`: 0 for the empty password, otherwise one point for each of
      length at least 8, an upper-case letter, a digit and a character outside A-Za-z0-9. */
  function PasswordStrength(p: string): (r: nat)
    ensures r <= 4
    ensures p == "" ==> r == 0
    ensures r == 4 <==> LongEnough(p) && HasUpper(p) && HasDigit(p) && HasSpecial(p)
    ensures r == 0 <==> !LongEnough(p) && !HasUpper(p) && !HasDigit(p) && !HasSpecial(p)
  {
    if p == "" then 0
    else Point(LongEnough(p)) + Point(HasUpper(p)) + Point(HasDigit(p)) + Point(HasSpecial(p))
  }

  /** The four ticks of the checklist under the meter, in display order. */
  datatype Checklist = Checklist(longEnough: bool, upper: bool, digit: bool, special: bool)

  /** The checklist's ticks; each runs its own test on the password, independently of
      the score's early return for the empty password. */
  function ChecklistOf(p: string): (c: Checklist)
    ensures c.longEnough <==> Utf16Length(p) >= 8
    ensures c.upper <==> exists i :: 0 <= i < |p| && IsUpper(p[i])
    ensures c.digit <==> exists i :: 0 <= i < |p| && IsDigit(p[i])
    ensures c.special <==> exists i :: 0 <= i < |p| && !IsAlphanumeric(p[i])
  {
    Checklist(LongEnough(p), HasUpper(p), HasDigit(p), HasSpecial(p))
  }

  function Ticked(c: Checklist): nat {
    Point(c.longEnough) + Point(c.upper) + Point(c.digit) + Point(c.special)
  }

  /** The score always equals the number of ticked checklist items; in particular the
      early return for "" agrees, since "" ticks nothing. */
  lemma StrengthCountsTicks(p: string)
    ensures PasswordStrength(p) == Ticked(ChecklistOf(p))
  {
    if p == "" {
      assert !HasUpper(p) && !HasDigit(p) && !HasSpecial(p);
    }
  }

  /** Appending a character never lowers the score: each criterion, once met, stays met. */
  lemma AppendNeverLowersStrength(p: string, c: char)
    ensures PasswordStrength(p + [c]) >= PasswordStrength(p)
  {
    var q := p + [c];
    Utf16LengthAppend(p, [c]);
    if HasUpper(p) {
      var i :| 0 <= i < |p| && IsUpper(p[i]);
      assert q[i] == p[i];
    }
    if HasDigit(p) {
      var i :| 0 <= i < |p| && IsDigit(p[i]);
      assert q[i] == p[i];
    }
    if HasSpecial(p) {
      var i :| 0 <= i < |p| && !IsAlphanumeric(p[i]);
      assert q[i] == p[i];
    }
  }

  /** A long password of lower-case letters only earns the length point and nothing else. */
  lemma LowercaseOnlyScoresOne(p: string)
    requires |p| >= 8
    requires forall i :: 0 <= i < |p| ==> 'a' <= p[i] <= 'z'
    ensures PasswordStrength(p) == 1
  {
    Utf16LengthOfBmp(p);
    assert !HasUpper(p) && !HasDigit(p) && !HasSpecial(p);
  }

  /** Each criterion can be met on its own: "Aaaaaaaa" scores 2 (length and upper case),
      "Aa1!aaaa" scores 4. */
  lemma StrengthExamples()
    ensures PasswordStrength("Aaaaaaaa") == 2
    ensures PasswordStrength("Aa1!aaaa") == 4
    ensures PasswordStrength("abc") == 0
  {
    var a := "Aaaaaaaa";
    Utf16LengthOfBmp(a);
    assert IsUpper(a[0]);
    assert !HasDigit(a) && !HasSpecial(a);
    var b := "Aa1!aaaa";
    Utf16LengthOfBmp(b);
    assert IsUpper(b[0]) && IsDigit(b[2]) && !IsAlphanumeric(b[3]);
    var c := "abc";
    assert !HasUpper(c) && !HasDigit(c) && !HasSpecial(c);
  }

  /** Four emoji are eight UTF-16 code units, so they earn the length point as well as
      the special-character point. */
  lemma FourEmojiScoreTwo()
    ensures PasswordStrength("\U{1F600}\U{1F600}\U{1F600}\U{1F600}") == 2
  {
    var e := "\U{1F600}\U{1F600}\U{1F600}\U{1F600}";
    assert e[..1][..0] == [];
    assert Utf16Length(e[..1]) == 2;
    assert e[..2][..1] == e[..1];
    assert Utf16Length(e[..2]) == 4;
    assert e[..3][..2] == e[..2];
    assert Utf16Length(e[..3]) == 6;
    assert e[..3] == e[..|e| - 1];
    assert !IsAlphanumeric(e[0]);
    assert !HasUpper(e) && !HasDigit(e);
  }

  /** The five labels, from score 0 up. */
  const StrengthLabels: seq<string> := ["Weak", "Fair", "Good", "Strong", "Very strong"]

  /** The label shown beside the meter; every score from 4 on reads "Very strong". */
  function StrengthLabel(strength: nat): (r: string)
    ensures strength < 4 ==> r == StrengthLabels[strength]
    ensures strength >= 4 ==> r == "Very strong"
  {
    if strength == 0 then "Weak"
    else if strength == 1 then "Fair"
    else if strength == 2 then "Good"
    else if strength == 3 then "Strong"
    else "Very strong"
  }

  /** The label mapping is total and tells the five reachable scores apart. */
  lemma LabelsDistinguishScores(a: nat, b: nat)
    requires a <= 4 && b <= 4 && a != b
    ensures StrengthLabel(a) != StrengthLabel(b)
  {
  }

  /** The meter (label, checklist) is rendered only for a non-empty password. */
  function Meter(p: string): (r: Option<(string, Checklist)>)
    ensures r.Some? <==> p != ""
    ensures r.Some? ==> r.value.0 == StrengthLabel(PasswordStrength(p)) && r.value.1 == ChecklistOf(p)
  {
    if p == "" then None else Some((StrengthLabel(PasswordStrength(p)), ChecklistOf(p)))
  }

  /** The sign-up form's submission state. `signUpCalls` records the (email, password,
      name) triples handed to the auth service. */
  class SignUpForm {
    var isLoading: bool
    var signUpCalls: seq<(string, string, string)>

    constructor ()
      ensures !isLoading && signUpCalls == []
    {
      isLoading := false;
      signUpCalls := [];
    }

    /** `handleSubmit` up to its await: set the loading flag, which also disables the
        submit button, and call sign-up. */
    method Submit(email: string, password: string, name: string)
      modifies this
      ensures isLoading
      ensures signUpCalls == old(signUpCalls) + [(email, password, name)]
    {
      isLoading := true;
      signUpCalls := signUpCalls + [(email, password, name)];
    }

    /** The `finally` after the await: the flag drops whether sign-up succeeded or threw. */
    method Settle()
      modifies this
      ensures !isLoading
      ensures signUpCalls == old(signUpCalls)
    {
      isLoading := false;
    }
  }
}
