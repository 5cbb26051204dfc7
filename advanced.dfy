/**
 * The eight rules of `django_advanced_password_validation/advanced_password_validation.py`.
 *
 * Each Python class is an immutable configuration object (its fields are set
 * in `__init__` only), so each becomes a datatype whose constructor takes the
 * `__init__` arguments with the same defaults. `validate` becomes `Validate`,
 * a function for the rules that are one `sum(...)`/`len(...)` expression and
 * a method for the three rules that loop, and `get_help_text` becomes
 * `HelpText`.
 */
module AdvancedPasswordValidation {
  import opened Text
  import opened Outcomes
  import opened DigitRuns

  /**
   * `text` reads `lead`, then `str(n)`, then a space and `unit`, with an "s"
   * added exactly when n != 1, then a full stop: how `ngettext` chooses
   * between the two f-strings of a message.
   */
  predicate Says(text: string, lead: string, n: int, unit: string) {
    text == lead + Decimal(n) + " " + unit + (if n == 1 then "" else "s") + "."
  }

  /** `Says` in the singular and in the plural, written as the source's two f-strings. */
  lemma SaysForms(lead: string, n: int, unit: string)
    ensures Says(lead + Decimal(n) + " " + unit + ".", lead, n, unit) <==> n == 1
    ensures Says(lead + Decimal(n) + " " + unit + "s.", lead, n, unit) <==> n != 1
  {
    var a := lead + Decimal(n) + " " + unit;
    assert a + "" + "." == a + ".";
    assert a + "s" + "." == a + "s.";
    if n == 1 {
      assert (a + "s.")[|a|] == 's' != '.' == (a + "" + ".")[|a|];
    } else {
      assert (a + ".")[|a|] == '.' != 's' == (a + "s" + ".")[|a|];
    }
  }

  /**
   * The shared shape of the four counting rules: reject when `count <
   * minimum`, with `ngettext(singular, plural, minimum)` as the message, code
   * "password_too_weak" and `params={param: minimum}`.
   */
  function AtLeast(count: nat, minimum: int, param: string, unit: string): (o: Outcome)
    ensures o.Reject? <==> count < minimum
    ensures o.Reject? ==> && o.code == Some(TOO_WEAK)
                          && o.params == map[param := minimum]
                          && Says(o.message, "Password must contain at least ", minimum, unit)
  {
    var lead := "Password must contain at least " + Decimal(minimum) + " " + unit;
    SaysForms("Password must contain at least ", minimum, unit);
    if count < minimum then
      Reject(Plural(minimum, lead + ".", lead + "s."), Some(TOO_WEAK), map[param := minimum])
    else
      Accept
  }

  /**
   * `ngettext(singular, plural, n) % {param: n}` for a pair of f-strings that
   * already hold `str(n)`: interpolation finds no placeholder and leaves the
   * chosen text as it is.
   */
  function FormatCount(lead: string, n: int, unit: string, param: string): (r: string)
    requires '%' !in lead && '%' !in unit
    ensures Says(r, lead, n, unit)
  {
    var text := lead + Decimal(n) + " " + unit;
    SaysForms(lead, n, unit);
    var t := Plural(n, text + ".", text + "s.");
    assert '%' !in t;
    InterpolateVerbatim(t, param, n);
    Interpolate(t, param, n)
  }

  /** The help text of the four counting rules: `ngettext(...) % {param: minimum}`. */
  function AtLeastHelp(minimum: int, param: string, unit: string): (r: string)
    requires '%' !in unit
    ensures Says(r, "Your password must contain at least ", minimum, unit)
  {
    FormatCount("Your password must contain at least ", minimum, unit, param)
  }

  /** Rejects a password with fewer than `minDigits` digits. */
  datatype ContainsDigitsValidator = ContainsDigitsValidator(minDigits: int := 1)
  {
    function Validate(password: string): (o: Outcome)
      ensures o.Reject? <==> Count(password, Digit) < minDigits
      ensures o.Reject? ==> && o.code == Some(TOO_WEAK)
                            && o.params == map["min_digits" := minDigits]
                            && Says(o.message, "Password must contain at least ", minDigits, "number")
    {
      AtLeast(Count(password, Digit), minDigits, "min_digits", "number")
    }

    function HelpText(): (r: string)
      ensures Says(r, "Your password must contain at least ", minDigits, "number")
    {
      AtLeastHelp(minDigits, "min_digits", "number")
    }
  }

  /** Rejects a password with fewer than `minUppercase` uppercase letters. */
  datatype ContainsUppercaseValidator = ContainsUppercaseValidator(minUppercase: int := 1)
  {
    function Validate(password: string): (o: Outcome)
      ensures o.Reject? <==> Count(password, Upper) < minUppercase
      ensures o.Reject? ==> && o.code == Some(TOO_WEAK)
                            && o.params == map["min_uppercase" := minUppercase]
                            && Says(o.message, "Password must contain at least ", minUppercase, "uppercase character")
    {
      AtLeast(Count(password, Upper), minUppercase, "min_uppercase", "uppercase character")
    }

    function HelpText(): (r: string)
      ensures Says(r, "Your password must contain at least ", minUppercase, "uppercase character")
    {
      AtLeastHelp(minUppercase, "min_uppercase", "uppercase character")
    }
  }

  /** Rejects a password with fewer than `minLowercase` lowercase letters. */
  datatype ContainsLowercaseValidator = ContainsLowercaseValidator(minLowercase: int := 1)
  {
    function Validate(password: string): (o: Outcome)
      ensures o.Reject? <==> Count(password, Lower) < minLowercase
      ensures o.Reject? ==> && o.code == Some(TOO_WEAK)
                            && o.params == map["min_lowercase" := minLowercase]
                            && Says(o.message, "Password must contain at least ", minLowercase, "lowercase character")
    {
      AtLeast(Count(password, Lower), minLowercase, "min_lowercase", "lowercase character")
    }

    function HelpText(): (r: string)
      ensures Says(r, "Your password must contain at least ", minLowercase, "lowercase character")
    {
      AtLeastHelp(minLowercase, "min_lowercase", "lowercase character")
    }
  }

  /** The rule's fixed character set: the space and the 32 ASCII punctuation characters. */
  const SPECIAL_CHARACTERS: string := " !\"#$%&'()*+,-./:;<=>?@[\\]^_`{|}~"

  /** The printable ASCII characters that are neither letters, digits nor the space. */
  predicate IsAsciiPunctuation(c: char) {
    || '!' <= c <= '/'
    || ':' <= c <= '@'
    || '[' <= c <= '`'
    || '{' <= c <= '~'
  }

  /** The special characters are exactly the space and ASCII punctuation. */
  lemma SpecialCharactersAreSpaceAndPunctuation(c: char)
    ensures c in SPECIAL_CHARACTERS <==> c == ' ' || IsAsciiPunctuation(c)
  {
  }

  /** Rejects a password with fewer than `minCharacters` special characters, counted with multiplicity. */
  datatype ContainsSpecialCharactersValidator = ContainsSpecialCharactersValidator(minCharacters: int := 1)
  {
    function Validate(password: string): (o: Outcome)
      ensures o.Reject? <==> Count(password, OneOf(SPECIAL_CHARACTERS)) < minCharacters
      ensures o.Reject? ==> && o.code == Some(TOO_WEAK)
                            && o.params == map["min_characters" := minCharacters]
                            && Says(o.message, "Password must contain at least ", minCharacters, "special character")
    {
      AtLeast(Count(password, OneOf(SPECIAL_CHARACTERS)), minCharacters, "min_characters", "special character")
    }

    function HelpText(): (r: string)
      ensures Says(r, "Your password must contain at least ", minCharacters, "special character")
    {
      AtLeastHelp(minCharacters, "min_characters", "special character")
    }
  }

  /** Rejects a password longer than `maxLength` characters. */
  datatype MaximumLengthValidator = MaximumLengthValidator(maxLength: int := 128)
  {
    /** The `ngettext(...) % {"max_length": ...}` text used both as message and as help text. */
    function AtMaximum(): (r: string)
      ensures Says(r, "Password must contain at maximum ", maxLength, "character")
    {
      FormatCount("Password must contain at maximum ", maxLength, "character", "max_length")
    }

    function Validate(password: string): (o: Outcome)
      ensures o.Reject? <==> |password| > maxLength
      ensures o.Reject? ==> && o.code == None && o.params == map[]
                            && Says(o.message, "Password must contain at maximum ", maxLength, "character")
    {
      if |password| > maxLength then Reject(AtMaximum(), None, map[]) else Accept
    }

    function HelpText(): (r: string)
      ensures Says(r, "Password must contain at maximum ", maxLength, "character")
    {
      AtMaximum()
    }
  }

  /** Positions i..i+n-1 of `s` (at least position i) all hold `s[i]`. */
  predicate RepeatRunAt(s: string, i: nat, n: int) {
    i < |s| && i + n <= |s| && forall j :: i <= j < i + n ==> s[j] == s[i]
  }

  /** Some character of `s` stands `n` times in a row (any character at all when n <= 0). */
  predicate HasRepeatRun(s: string, n: int) {
    exists i :: 0 <= i < |s| && RepeatRunAt(s, i, n)
  }

  /** `c * n in s` for a character `c` of `s` says that `s` has a run of `n` copies of a character. */
  lemma RepeatSubstringIsRun(s: string, k: nat, n: int)
    requires k < |s| && IsSubstring(Repeat(s[k], n), s)
    ensures HasRepeatRun(s, n)
  {
    if n <= 0 {
      assert RepeatRunAt(s, k, n);
    } else {
      var r := Repeat(s[k], n);
      var i :| 0 <= i <= |s| - |r| && r <= s[i..];
      assert s[i] == r[0] == s[k];
      forall j | i <= j < i + n
        ensures s[j] == s[i]
      {
        assert s[j] == s[i..][j - i] == r[j - i];
      }
      assert RepeatRunAt(s, i, n);
    }
  }

  /**
   * A run of `n` copies of `s[i]` makes `s[i] * n in s` true, and makes
   * `s.count(s[i])` at least `n - 1`: the pre-filter `password.count(c) >=
   * max_consecutive` of the source never hides a run of `max_consecutive + 1`.
   */
  lemma RunPassesPrefilter(s: string, i: nat, n: int)
    requires RepeatRunAt(s, i, n)
    ensures IsSubstring(Repeat(s[i], n), s)
    ensures Count(s, Exactly(s[i])) >= n - 1
  {
    var r := Repeat(s[i], n);
    if n <= 0 {
      assert r <= s[0..];
    } else {
      assert r <= s[i..];
      CountSlice(s, i, i + n, Exactly(s[i]));
      var run := s[i..i + n];
      forall j | 0 <= j < n
        ensures Exactly(s[i]).Has(run[j])
      {
        assert run[j] == s[i + j];
      }
      assert Count(run, Exactly(s[i])) == n;
    }
  }

  const REPEATING_MESSAGE: string := "Password contains consecutively repeating characters. e.g 'aaa' or '111'"
  const INCREASING_MESSAGE: string := "Password contains consecutively increasing digits. e.g '12345'"
  const DECREASING_MESSAGE: string := "Password contains consecutively decreasing digits. e.g '54321'"

  /** Rejects a password in which some character stands more than `maxConsecutive` times in a row. */
  datatype MaxConsecutiveCharactersValidator = MaxConsecutiveCharactersValidator(maxConsecutive: int := 3)
  {
    /** The character `c` passes the count pre-filter and `c * (max + 1)` occurs in `s`. */
    predicate Flagged(s: string, c: char) {
      Count(s, Exactly(c)) >= maxConsecutive && IsSubstring(Repeat(c, maxConsecutive + 1), s)
    }

    /** When no character of `s` is flagged, `s` has no run of `maxConsecutive + 1`. */
    lemma NoneFlaggedNoRun(s: string)
      requires forall j :: 0 <= j < |s| ==> !Flagged(s, s[j])
      ensures !HasRepeatRun(s, maxConsecutive + 1)
    {
      if HasRepeatRun(s, maxConsecutive + 1) {
        var i :| 0 <= i < |s| && RepeatRunAt(s, i, maxConsecutive + 1);
        RunPassesPrefilter(s, i, maxConsecutive + 1);
        assert Flagged(s, s[i]);
      }
    }

    /** The source's loop: for each character, a count pre-filter, then `c * (max + 1) in password`. */
    method Validate(password: string) returns (o: Outcome)
      ensures o.Reject? <==> HasRepeatRun(password, maxConsecutive + 1)
      ensures o.Reject? ==> o == Reject(REPEATING_MESSAGE, None, map[])
    {
      for k := 0 to |password|
        invariant forall j :: 0 <= j < k ==> !Flagged(password, password[j])
      {
        var c := password[k];
        if Count(password, Exactly(c)) >= maxConsecutive {
          var check := Repeat(c, maxConsecutive + 1);
          if IsSubstring(check, password) {
            RepeatSubstringIsRun(password, k, maxConsecutive + 1);
            return Reject(REPEATING_MESSAGE, None, map[]);
          }
        }
        assert forall j :: 0 <= j < k + 1 ==> !Flagged(password, password[j]) by {
          assert !Flagged(password, password[k]);
        }
      }
      NoneFlaggedNoRun(password);
      return Accept;
    }

    /** The fixed help text, worded as a prohibition where the rejection message reports a finding. */
    function HelpText(): (r: string)
      ensures r == "Password cannot contain consecutively repeating characters. e.g 'aaa' or '111'"
      ensures r != REPEATING_MESSAGE
    {
      "Password cannot contain consecutively repeating characters. e.g 'aaa' or '111'"
    }
  }

  /** Rejects a password where a digit's first occurrence is followed by `maxConsecutive` ascending digits. */
  datatype ConsecutivelyIncreasingDigitValidator = ConsecutivelyIncreasingDigitValidator(maxConsecutive: int := 3)
  {
    method Validate(password: string) returns (o: Outcome)
      ensures o.Reject? <==> AnchoredRunRejects(password, maxConsecutive, Increasing)
      ensures o.Reject? ==> o == Reject(INCREASING_MESSAGE, None, map[])
    {
      var found := ScanDigitRuns(password, maxConsecutive, Increasing);
      o := if found then Reject(INCREASING_MESSAGE, None, map[]) else Accept;
    }

    /**
     * The rule as its name and message describe it: reject exactly when some
     * `maxConsecutive + 1` adjacent digits ascend one step at a time.
     */
    method ValidateIntended(password: string) returns (o: Outcome)
      ensures o.Reject? <==> maxConsecutive >= 1 && HasDigitRun(password, maxConsecutive + 1, Increasing)
      ensures o.Reject? ==> o == Reject(INCREASING_MESSAGE, None, map[])
    {
      var found := StreakScan(password, maxConsecutive, Increasing);
      o := if found then Reject(INCREASING_MESSAGE, None, map[]) else Accept;
    }

    /** The fixed help text, worded as a prohibition where the rejection message reports a finding. */
    function HelpText(): (r: string)
      ensures r == "Password cannot contain consecutively increasing digits. e.g '12345'"
      ensures r != INCREASING_MESSAGE
    {
      "Password cannot contain consecutively increasing digits. e.g '12345'"
    }
  }

  /** Rejects a password where a digit's first occurrence is followed by `maxConsecutive` descending digits. */
  datatype ConsecutivelyDecreasingDigitValidator = ConsecutivelyDecreasingDigitValidator(maxConsecutive: int := 3)
  {
    method Validate(password: string) returns (o: Outcome)
      ensures o.Reject? <==> AnchoredRunRejects(password, maxConsecutive, Decreasing)
      ensures o.Reject? ==> o == Reject(DECREASING_MESSAGE, None, map[])
    {
      var found := ScanDigitRuns(password, maxConsecutive, Decreasing);
      o := if found then Reject(DECREASING_MESSAGE, None, map[]) else Accept;
    }

    /**
     * The rule as its name and message describe it: reject exactly when some
     * `maxConsecutive + 1` adjacent digits descend one step at a time.
     */
    method ValidateIntended(password: string) returns (o: Outcome)
      ensures o.Reject? <==> maxConsecutive >= 1 && HasDigitRun(password, maxConsecutive + 1, Decreasing)
      ensures o.Reject? ==> o == Reject(DECREASING_MESSAGE, None, map[])
    {
      var found := StreakScan(password, maxConsecutive, Decreasing);
      o := if found then Reject(DECREASING_MESSAGE, None, map[]) else Accept;
    }

    /** The fixed help text, worded as a prohibition where the rejection message reports a finding. */
    function HelpText(): (r: string)
      ensures r == "Password cannot contain consecutively decreasing digits. e.g '54321'"
      ensures r != DECREASING_MESSAGE
    {
      "Password cannot contain consecutively decreasing digits. e.g '54321'"
    }
  }

  /** The help texts of the three run rules do not depend on the configured limit. */
  lemma RunHelpTextsIgnoreLimit(m: int, n: int)
    ensures MaxConsecutiveCharactersValidator(m).HelpText() == MaxConsecutiveCharactersValidator(n).HelpText()
    ensures ConsecutivelyIncreasingDigitValidator(m).HelpText() == ConsecutivelyIncreasingDigitValidator(n).HelpText()
    ensures ConsecutivelyDecreasingDigitValidator(m).HelpText() == ConsecutivelyDecreasingDigitValidator(n).HelpText()
  {
  }
}
