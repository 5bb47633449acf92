/** `getPasswordStrength` of auth-frontend/src/pages/Register.jsx, the meter
    shown under the password field while the user types, and the width of
    its progress bar. */
module PasswordStrength {
  import opened Common
  import opened Text

  /** `password.length >= 6`. */
  predicate LongEnough(p: string) { |p| >= 6 }

  /** `/[a-z]/.test(password)`. */
  predicate HasLower(p: string) { exists i :: 0 <= i < |p| && IsLowerAscii(p[i]) }

  /** `/[A-Z]/.test(password)`. */
  predicate HasUpper(p: string) { exists i :: 0 <= i < |p| && IsUpperAscii(p[i]) }

  /** `/\d/.test(password)`: ASCII digits only. */
  predicate HasDigit(p: string) { exists i :: 0 <= i < |p| && IsDigit(p[i]) }

  predicate IsAlphanumeric(c: char) { IsLowerAscii(c) || IsUpperAscii(c) || IsDigit(c) }

  /** `/[^A-Za-z0-9]/.test(password)`: any other character, spaces and line
      breaks included. */
  predicate HasSymbol(p: string) { exists i :: 0 <= i < |p| && !IsAlphanumeric(p[i]) }

  function Count(b: bool): nat { if b then 1 else 0 }

  /** How many of the five criteria the password meets. */
  function Score(p: string): nat {
    Count(LongEnough(p)) + Count(HasLower(p)) + Count(HasUpper(p)) + Count(HasDigit(p)) + Count(HasSymbol(p))
  }

  /** The object the function returns; `caption` is its `label`, and
      `strength` is absent (`None`) from the entries of the `strengths`
      table. */
  datatype Meter = Meter(strength: Option<nat>, caption: string, color: string)

  /** The `strengths` table, indexed by score minus one. */
  const Levels: seq<Meter> := [
    Meter(None, "Very Weak", "danger"),
    Meter(None, "Weak", "warning"),
    Meter(None, "Fair", "info"),
    Meter(None, "Good", "primary"),
    Meter(None, "Strong", "success")
  ]

  /** `strengths[strength - 1] || { label: "", color: "" }`. */
  function Level(score: nat): Meter {
    if 1 <= score <= |Levels| then Levels[score - 1] else Meter(None, "", "")
  }

  /** A non-empty password meets at least one criterion, since each of its
      characters is a lowercase letter, an uppercase letter, a digit or
      something else; no password meets more than five. So the table's
      fallback is never taken. */
  lemma ScoreRange(p: string)
    ensures Score(p) <= 5
    ensures p != "" ==> 1 <= Score(p)
  {
    if p != "" {
      var c := p[0];
      if IsLowerAscii(c) {
        assert HasLower(p);
      } else if IsUpperAscii(c) {
        assert HasUpper(p);
      } else if IsDigit(c) {
        assert HasDigit(p);
      } else {
        assert HasSymbol(p);
      }
    }
  }

  /** Typing more never lowers the score: each criterion that holds of a
      password holds of every extension of it. */
  lemma ScoreMonotone(p: string, more: string)
    ensures Score(p) <= Score(p + more)
  {
    var q := p + more;
    if HasLower(p) {
      var i :| 0 <= i < |p| && IsLowerAscii(p[i]);
      assert q[i] == p[i];
    }
    if HasUpper(p) {
      var i :| 0 <= i < |p| && IsUpperAscii(p[i]);
      assert q[i] == p[i];
    }
    if HasDigit(p) {
      var i :| 0 <= i < |p| && IsDigit(p[i]);
      assert q[i] == p[i];
    }
    if HasSymbol(p) {
      var i :| 0 <= i < |p| && !IsAlphanumeric(p[i]);
      assert q[i] == p[i];
    }
  }

  /** `getPasswordStrength(password)`, counting the criteria in a local
      variable as the source does. The empty password gets
      `{ strength: 0, label: "", color: "" }`; any other gets the table entry
      for its score, which always exists. */
  method GetPasswordStrength(password: string) returns (m: Meter)
    ensures password == "" ==> m == Meter(Some(0), "", "")
    ensures password != "" ==> 1 <= Score(password) <= 5 && m == Levels[Score(password) - 1]
  {
    if password == "" {
      return Meter(Some(0), "", "");
    }
    var strength: nat := 0;
    if |password| >= 6 { strength := strength + 1; }
    if HasLower(password) { strength := strength + 1; }
    if HasUpper(password) { strength := strength + 1; }
    if HasDigit(password) { strength := strength + 1; }
    if HasSymbol(password) { strength := strength + 1; }
    ScoreRange(password);
    m := Level(strength);
  }

  /** The progress bar's `width: (strength || 0) * 20` percent. */
  function ProgressWidth(m: Meter): nat {
    if m.strength.Some? then m.strength.value * 20 else 0
  }

  /** As written, the bar never fills: the empty password has strength 0,
      and every table entry lacks `strength`. `Abcde1!`, rated "Strong"
      with score 5, still gets a 0% bar. */
  lemma ProgressBarStaysEmpty(p: string)
    ensures ProgressWidth(Meter(Some(0), "", "")) == 0
    ensures ProgressWidth(Level(Score(p))) == 0
    ensures Score("Abcde1!") == 5 && Level(Score("Abcde1!")).caption == "Strong"
  {
    var s := "Abcde1!";
    assert IsLowerAscii(s[1]) && IsUpperAscii(s[0]) && IsDigit(s[5]) && !IsAlphanumeric(s[6]);
  }

  /** The meter the progress bar evidently expects: the table's caption
      and colour together with the score itself. */
  function IntendedMeter(p: string): Meter {
    var level := Level(Score(p));
    if p == "" then Meter(Some(0), "", "") else Meter(Some(Score(p)), level.caption, level.color)
  }

  /** With the score carried in `strength`, the bar grows in steps of 20%
      from 20% for any non-empty password to 100% for a "Strong" one, and
      the label and colour stay those of the source. */
  lemma IntendedWidthTracksScore(p: string)
    ensures ProgressWidth(IntendedMeter(p)) == 20 * Score(p)
    ensures p != "" ==> 20 <= ProgressWidth(IntendedMeter(p)) <= 100
    ensures p != "" ==> IntendedMeter(p).caption == Level(Score(p)).caption
                        && IntendedMeter(p).color == Level(Score(p)).color
  {
    ScoreRange(p);
  }
}
