/** The `registerSchema` of auth-frontend/src/pages/Register.jsx: the yup
    rules a registration form must pass before the client posts its name,
    email and password to `/register`. */
module RegisterForm {
  import opened Common
  import opened Text
  import opened UserModel
  import opened AuthRoutes
  import opened PasswordStrength

  /** The characters at which a regular expression's `.` stops. */
  predicate IsLineTerminator(c: char) {
    c == '\n' || c == '\r' || c == '\U{2028}' || c == '\U{2029}'
  }

  /** The text before the first line terminator: all that a lookahead
      `(?=.*X)` anchored at `^` can search. */
  function FirstLine(s: string): string {
    if s == [] || IsLineTerminator(s[0]) then [] else [s[0]] + FirstLine(s[1..])
  }

  /** `FirstLine` is a prefix, and the whole string when it has no line
      terminator. */
  lemma {:induction false} FirstLinePrefix(s: string)
    ensures |FirstLine(s)| <= |s| && FirstLine(s) == s[..|FirstLine(s)|]
    ensures (forall k :: 0 <= k < |s| ==> !IsLineTerminator(s[k])) ==> FirstLine(s) == s
  {
    if s != [] && !IsLineTerminator(s[0]) {
      FirstLinePrefix(s[1..]);
    }
  }

  /** `name`: `required`, `min(2)`, `max(50)`. */
  predicate NameRule(name: string) {
    name != "" && 2 <= |name| <= 50
  }

  /** `email`: `required` and `email()`; the address syntax that yup checks
      is the parameter `isEmail`. */
  predicate EmailRule(email: string, isEmail: string -> bool) {
    email != "" && isEmail(email)
  }

  /** `password`: `required`, `min(6)`, and `^(?=.*[a-z])(?=.*[A-Z])(?=.*\d)`:
      a lowercase letter, an uppercase letter and a digit on the first line. */
  predicate PasswordRule(password: string) {
    && password != "" && |password| >= 6
    && HasLower(FirstLine(password)) && HasUpper(FirstLine(password)) && HasDigit(FirstLine(password))
  }

  /** `confirmPassword`: `oneOf([ref("password"), null])` and `required`,
      which refuses the empty string and `null`. */
  predicate ConfirmRule(confirm: string, password: string) {
    confirm != "" && confirm == password
  }

  /** `agreeToTerms`: `boolean().oneOf([true])`, which refuses `false` but,
      lacking `required`, lets an absent value through. */
  predicate TermsRule(agree: Option<bool>) {
    agree.None? || agree.value
  }

  /** The form's values. */
  datatype FormData = FormData(name: string, email: string, password: string, confirmPassword: string,
                               agreeToTerms: Option<bool>)

  /** The schema accepts the form. */
  predicate Accepts(form: FormData, isEmail: string -> bool) {
    && NameRule(form.name) && EmailRule(form.email, isEmail) && PasswordRule(form.password)
    && ConfirmRule(form.confirmPassword, form.password) && TermsRule(form.agreeToTerms)
  }

  /** The body the client posts to `/register` for an accepted form. */
  function RegisterRequest(form: FormData): RegisterBody {
    RegisterBody(Some(form.email), Some(form.password), Some(form.name))
  }

  /** Every criterion met anywhere is met in the first line. */
  lemma FirstLineCriteria(s: string)
    ensures HasLower(FirstLine(s)) ==> HasLower(s)
    ensures HasUpper(FirstLine(s)) ==> HasUpper(s)
    ensures HasDigit(FirstLine(s)) ==> HasDigit(s)
  {
    FirstLinePrefix(s);
    var f := FirstLine(s);
    if HasLower(f) {
      var i :| 0 <= i < |f| && IsLowerAscii(f[i]);
      assert s[i] == f[i];
    }
    if HasUpper(f) {
      var i :| 0 <= i < |f| && IsUpperAscii(f[i]);
      assert s[i] == f[i];
    }
    if HasDigit(f) {
      var i :| 0 <= i < |f| && IsDigit(f[i]);
      assert s[i] == f[i];
    }
  }

  /** A password the schema accepts meets four of the five strength
      criteria, so the meter shows it as "Good" or "Strong". */
  lemma AcceptedPasswordIsGood(password: string)
    requires PasswordRule(password)
    ensures 4 <= Score(password) <= 5
    ensures Level(Score(password)).caption in {"Good", "Strong"}
  {
    FirstLineCriteria(password);
    ScoreRange(password);
  }

  /** On a one-line password the schema's rule is exactly four of the
      meter's criteria: length, lowercase, uppercase and digit. */
  lemma SingleLinePasswordRule(password: string)
    requires forall k :: 0 <= k < |password| ==> !IsLineTerminator(password[k])
    ensures PasswordRule(password) <==>
              LongEnough(password) && HasLower(password) && HasUpper(password) && HasDigit(password)
  {
    FirstLinePrefix(password);
  }

  /** The schema looks only at the first line: `"\nabcD1"` meets all five
      criteria of the meter, yet the schema refuses it. */
  lemma SecondLineNotSearched()
    ensures Score("\nabcD1") == 5
    ensures !PasswordRule("\nabcD1")
  {
    var p := "\nabcD1";
    assert IsLowerAscii(p[1]) && IsUpperAscii(p[4]) && IsDigit(p[5]) && !IsAlphanumeric(p[0]);
    assert FirstLine(p) == [];
  }

  /** A form the schema accepts gets past the field checks of `/register`:
      no field is missing and the password is long enough. */
  lemma AcceptedFormPassesServerChecks(form: FormData, isEmail: string -> bool, records: map<string, User>)
    requires Accepts(form, isEmail)
    ensures RegisterOutcomeOf(records, RegisterRequest(form)) !in {MissingFields, ShortPassword}
  {
  }

  /** The server is laxer than the form: `"aaaaaa"` passes the field checks
      of `/register` though the schema refuses it for want of an uppercase
      letter and a digit. */
  lemma ServerAcceptsWhatFormRefuses(records: map<string, User>)
    ensures !PasswordRule("aaaaaa")
    ensures RegisterOutcomeOf(records, RegisterBody(Some("a@b"), Some("aaaaaa"), Some("Al")))
              !in {MissingFields, ShortPassword}
  {
    var p := "aaaaaa";
    FirstLineCriteria(p);
    assert !HasUpper(p) by {
      forall i | 0 <= i < |p| ensures !IsUpperAscii(p[i]) {
        assert p[i] == 'a';
      }
    }
  }

  /** `"Abcde1"` meets the schema's password rule. */
  lemma SamplePasswordAccepted()
    ensures PasswordRule("Abcde1")
  {
    var p := "Abcde1";
    FirstLinePrefix(p);
    assert IsLowerAscii(p[1]) && IsUpperAscii(p[0]) && IsDigit(p[5]);
  }

  /** A name of two spaces trims to nothing, and `"a@b"` is already a
      normal email. */
  lemma BlankNameFacts()
    ensures Trim("  ") == ""
    ensures NormalizeEmail("a@b") == "a@b"
  {
    assert TrimStart("  ") == "";
    ToLowerFixesNoUpper("a@b");
    TrimFixesExactlyUnpadded("a@b");
  }

  /** The schema does not trim the name, the server does: a name of two
      spaces passes the form, gets past the route's own checks, and is then
      refused by the `User` model's `required` validator, so `/register`
      answers 500. */
  lemma BlankNameAcceptedThenRefused(isEmail: string -> bool)
    requires isEmail("a@b")
    ensures Accepts(FormData("  ", "a@b", "Abcde1", "Abcde1", Some(true)), isEmail)
    ensures RegisterOutcomeOf(map[], RegisterRequest(FormData("  ", "a@b", "Abcde1", "Abcde1", Some(true))))
              == InvalidDocument
  {
    SamplePasswordAccepted();
    BlankNameFacts();
  }
}
