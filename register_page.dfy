/**
 * The registration page's own logic (frontend/src/pages/Register.jsx): the
 * password strength meter, the guard that stops a submission whose two
 * passwords differ, and the message shown when registration fails.
 */
module RegisterPage {
  import opened Common

  predicate HasUpper(p: string) { exists i :: 0 <= i < |p| && IsUpperAscii(p[i]) }
  predicate HasDigit(p: string) { exists i :: 0 <= i < |p| && IsDigit(p[i]) }
  predicate HasSymbol(p: string) { exists i :: 0 <= i < |p| && !IsAsciiLetterOrDigit(p[i]) }

  function Point(b: bool): nat { if b then 1 else 0 }

  /** How many of the five criteria a password meets. */
  function Criteria(p: string): (n: nat)
    ensures n <= 5
  {
    Point(|p| >= 6) + Point(|p| >= 10) + Point(HasUpper(p)) + Point(HasDigit(p)) + Point(HasSymbol(p))
  }

  /** The strength shown: 0 for an empty password, else the criteria met, at most 4. */
  function Strength(p: string): (s: nat)
    ensures s <= 4
    ensures p == "" ==> s == 0
    ensures p != "" ==> s == if Criteria(p) < 4 then Criteria(p) else 4
  {
    if p == "" then 0 else if Criteria(p) < 4 then Criteria(p) else 4
  }

  /** `/[A-Z]/.test(p)` and its siblings, as a scan over the password. */
  method Scan(p: string) returns (upper: bool, digit: bool, symbol: bool)
    ensures upper == HasUpper(p) && digit == HasDigit(p) && symbol == HasSymbol(p)
  {
    upper, digit, symbol := false, false, false;
    var i := 0;
    while i < |p|
      invariant 0 <= i <= |p|
      invariant upper == exists j :: 0 <= j < i && IsUpperAscii(p[j])
      invariant digit == exists j :: 0 <= j < i && IsDigit(p[j])
      invariant symbol == exists j :: 0 <= j < i && !IsAsciiLetterOrDigit(p[j])
    {
      upper := upper || IsUpperAscii(p[i]);
      digit := digit || IsDigit(p[i]);
      symbol := symbol || !IsAsciiLetterOrDigit(p[i]);
      i := i + 1;
    }
  }

  /** `passwordStrength`: one point per criterion, capped at 4. */
  method PasswordStrength(p: string) returns (score: nat)
    ensures score == Strength(p)
  {
    if p == "" {
      return 0;
    }
    score := 0;
    if |p| >= 6 { score := score + 1; }
    if |p| >= 10 { score := score + 1; }
    var upper, digit, symbol := Scan(p);
    if upper { score := score + 1; }
    if digit { score := score + 1; }
    if symbol { score := score + 1; }
    if score > 4 {
      score := 4;
    }
  }

  /** Typing one more character never lowers the strength. */
  lemma StrengthMonotone(p: string, c: char)
    ensures Strength(p + [c]) >= Strength(p)
  {
    var q := p + [c];
    assert forall i :: 0 <= i < |p| ==> q[i] == p[i];
    if HasUpper(p) { var i :| 0 <= i < |p| && IsUpperAscii(p[i]); assert IsUpperAscii(q[i]); }
    if HasDigit(p) { var i :| 0 <= i < |p| && IsDigit(p[i]); assert IsDigit(q[i]); }
    if HasSymbol(p) { var i :| 0 <= i < |p| && !IsAsciiLetterOrDigit(p[i]); assert !IsAsciiLetterOrDigit(q[i]); }
  }

  /** The label index `strength - 1` is one of the four labels whenever a label is shown. */
  lemma LabelIndexInRange(p: string)
    ensures Strength(p) > 0 ==> 0 <= Strength(p) - 1 < 4
  {
  }

  /** Concrete scores: a short lower-case word is weak, a long mixed password is strongest. */
  lemma StrengthExamples()
    ensures Strength("abc") == 0
    ensures Strength("Abcdef1!xy") == 4
  {
    assert HasUpper("Abcdef1!xy") by { assert IsUpperAscii("Abcdef1!xy"[0]); }
    assert HasDigit("Abcdef1!xy") by { assert IsDigit("Abcdef1!xy"[6]); }
    assert !HasUpper("abc") && !HasDigit("abc") && !HasSymbol("abc") by {
      assert forall i :: 0 <= i < 3 ==> "abc"[i] in {'a', 'b', 'c'};
    }
  }

  // ---------------------------------------------------------------------------
  // Submission

  datatype Submit = PasswordsDiffer | Sent(password: string)

  /** `handleSubmit`'s guard: differing passwords stop the submission before any request. */
  function HandleSubmit(password1: string, password2: string): (r: Submit)
    ensures r.PasswordsDiffer? <==> password1 != password2
    ensures r.Sent? ==> r.password == password1 && r.password == password2
  {
    if password1 != password2 then PasswordsDiffer else Sent(password1)
  }

  /** The first field's value in an error body: a list of messages, a string, or anything else rendered as JSON. */
  datatype FieldValue = Messages(items: seq<string>) | Message(text: string) | Json(rendered: string)

  const DuplicateEmailEn := "A user with that email already exists."
  const DuplicateEmailAz := "Bu e-poçt ilə artıq hesab mövcuddur."
  const DuplicateEmailHint := "Bu e-poçt ilə artıq hesab mövcuddur. Zəhmət olmasa giriş edin və ya şifrənizi bərpa edin."
  const RegisterFallback := "Qeydiyyat zamanı xəta baş verdi"

  /** The duplicate e-mail error, in English or Azerbaijani. */
  predicate IsDuplicateEmail(m: string) { m == DuplicateEmailEn || m == DuplicateEmailAz }

  /**
   * The toast after a failed registration: the first field's first message,
   * a duplicate e-mail in either language replaced by a hint to sign in, the
   * fixed text without a body or field. `None` is `value[0]` of an empty list.
   */
  function RegisterError(firstField: Option<FieldValue>): (msg: Option<string>)
    ensures firstField.None? ==> msg == Some(RegisterFallback)
    ensures msg.Some? && msg.value != RegisterFallback ==> msg.value != DuplicateEmailEn && msg.value != DuplicateEmailAz
    ensures msg.None? <==> firstField == Some(Messages([]))
    ensures firstField.Some? && firstField.value.Messages? && |firstField.value.items| > 0 ==>
              var first := firstField.value.items[0];
              msg == Some(if IsDuplicateEmail(first) then DuplicateEmailHint else first)
    ensures firstField.Some? && firstField.value.Message? ==>
              var text := firstField.value.text;
              msg == Some(if IsDuplicateEmail(text) then DuplicateEmailHint else text)
    ensures firstField.Some? && firstField.value.Json? ==>
              var rendered := firstField.value.rendered;
              msg == Some(if IsDuplicateEmail(rendered) then DuplicateEmailHint else rendered)
  {
    if firstField.None? then Some(RegisterFallback)
    else
      var raw := match firstField.value
                 case Messages(items) => if |items| > 0 then Some(items[0]) else None
                 case Message(text) => Some(text)
                 case Json(rendered) => Some(rendered);
      if raw.Some? && IsDuplicateEmail(raw.value) then Some(DuplicateEmailHint) else raw
  }

  /** Both spellings of the duplicate e-mail error lead to the same hint. */
  lemma DuplicateEmailHinted(rest: seq<string>)
    ensures RegisterError(Some(Messages([DuplicateEmailEn] + rest))) == Some(DuplicateEmailHint)
    ensures RegisterError(Some(Message(DuplicateEmailAz))) == Some(DuplicateEmailHint)
  {
  }
}
