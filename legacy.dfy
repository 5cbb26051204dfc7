/**
 * The earlier four-rule module, `django-advanced_password_validation/advanced_password_validation.py`.
 *
 * Its messages are `ngettext` templates holding a `%(name)d` placeholder:
 * `validate` raises the template unformatted, with the value in `params` (the
 * framework fills it in when it renders the error), and `get_help_text`
 * formats it with `%`. The special-character rule is a presence test over a
 * 21-character list and ignores its configured minimum.
 */
module LegacyPasswordValidation {
  import opened Text
  import opened Outcomes
  import Advanced = AdvancedPasswordValidation

  /**
   * `text` reads `lead`, the placeholder `%(param)d`, then a space and
   * `unit`, with an "s" added exactly when n != 1, then a full stop.
   */
  predicate SaysTemplate(text: string, lead: string, param: string, n: int, unit: string) {
    text == lead + Placeholder(param) + " " + unit + (if n == 1 then "" else "s") + "."
  }

  /** Filling the placeholder of such a template gives the text `Advanced.Says` describes. */
  lemma FillTemplate(text: string, lead: string, param: string, n: int, unit: string)
    requires '%' !in lead && '%' !in unit
    requires SaysTemplate(text, lead, param, n, unit)
    ensures Advanced.Says(Interpolate(text, param, n), lead, n, unit)
  {
    var sfx := if n == 1 then "" else "s";
    var post := " " + unit + sfx + ".";
    var head := lead + Placeholder(param);
    assert text == head + post by {
      assert text == head + " " + unit + sfx + ".";
      AppendAssoc(head, " ", unit, sfx, ".");
    }
    assert Interpolate(text, param, n) == lead + Decimal(n) + post by {
      assert '%' !in post;
      InterpolateAfter(lead, param, n, post);
      InterpolateVerbatim(post, param, n);
    }
    AppendAssoc(lead + Decimal(n), " ", unit, sfx, ".");
  }

  /** Concatenation regroups freely. */
  lemma AppendAssoc(a: string, b: string, c: string, d: string, e: string)
    ensures a + b + c + d + e == a + (b + c + d + e)
  {
  }

  /** The shared shape of the three counting rules and the message of the fourth. */
  function Template(minimum: int, param: string, unit: string): (r: string)
    ensures SaysTemplate(r, "Password must contain at least ", param, minimum, unit)
  {
    var lead := "Password must contain at least " + Placeholder(param) + " " + unit;
    assert lead + "" + "." == lead + "." && lead + "s" + "." == lead + "s.";
    Plural(minimum, lead + ".", lead + "s.")
  }

  /** `ngettext("Your password ... %(param)d ...", ..., minimum) % {param: minimum}`. */
  function HelpTemplate(minimum: int, param: string, unit: string): (r: string)
    requires '%' !in unit
    ensures Advanced.Says(r, "Your password must contain at least ", minimum, unit)
  {
    var lead := "Your password must contain at least " + Placeholder(param) + " " + unit;
    var t := Plural(minimum, lead + ".", lead + "s.");
    assert lead + "" + "." == lead + "." && lead + "s" + "." == lead + "s.";
    FillTemplate(t, "Your password must contain at least ", param, minimum, unit);
    Interpolate(t, param, minimum)
  }

  /** Reject when `count < minimum`, raising the unformatted template with its code and params. */
  function AtLeast(count: nat, minimum: int, param: string, unit: string): (o: Outcome)
    ensures o.Reject? <==> count < minimum
    ensures o.Reject? ==> && o.code == Some(TOO_WEAK)
                          && o.params == map[param := minimum]
                          && SaysTemplate(o.message, "Password must contain at least ", param, minimum, unit)
  {
    if count < minimum then Reject(Template(minimum, param, unit), Some(TOO_WEAK), map[param := minimum])
    else Accept
  }

  /** Rejects a password with fewer than `minNumerals` digits. */
  datatype ContainsNumeralsValidator = ContainsNumeralsValidator(minNumerals: int := 1)
  {
    function Validate(password: string): (o: Outcome)
      ensures o.Reject? <==> Count(password, Digit) < minNumerals
      ensures o.Reject? ==> && o.code == Some(TOO_WEAK)
                            && o.params == map["min_numerals" := minNumerals]
                            && SaysTemplate(o.message, "Password must contain at least ", "min_numerals", minNumerals, "number")
    {
      AtLeast(Count(password, Digit), minNumerals, "min_numerals", "number")
    }

    function HelpText(): (r: string)
      ensures Advanced.Says(r, "Your password must contain at least ", minNumerals, "number")
    {
      HelpTemplate(minNumerals, "min_numerals", "number")
    }
  }

  /** Rejects a password with fewer than `minUppercase` uppercase letters. */
  datatype ContainsUppercaseValidator = ContainsUppercaseValidator(minUppercase: int := 1)
  {
    function Validate(password: string): (o: Outcome)
      ensures o.Reject? <==> Count(password, Upper) < minUppercase
      ensures o.Reject? ==> && o.code == Some(TOO_WEAK)
                            && o.params == map["min_uppercase" := minUppercase]
                            && SaysTemplate(o.message, "Password must contain at least ", "min_uppercase", minUppercase, "uppercase character")
    {
      AtLeast(Count(password, Upper), minUppercase, "min_uppercase", "uppercase character")
    }

    function HelpText(): (r: string)
      ensures Advanced.Says(r, "Your password must contain at least ", minUppercase, "uppercase character")
    {
      HelpTemplate(minUppercase, "min_uppercase", "uppercase character")
    }
  }

  /** Rejects a password with fewer than `minLowercase` lowercase letters. */
  datatype ContainsLowercaseValidator = ContainsLowercaseValidator(minLowercase: int := 1)
  {
    function Validate(password: string): (o: Outcome)
      ensures o.Reject? <==> Count(password, Lower) < minLowercase
      ensures o.Reject? ==> && o.code == Some(TOO_WEAK)
                            && o.params == map["min_lowercase" := minLowercase]
                            && SaysTemplate(o.message, "Password must contain at least ", "min_lowercase", minLowercase, "lowercase character")
    {
      AtLeast(Count(password, Lower), minLowercase, "min_lowercase", "lowercase character")
    }

    function HelpText(): (r: string)
      ensures Advanced.Says(r, "Your password must contain at least ", minLowercase, "lowercase character")
    {
      HelpTemplate(minLowercase, "min_lowercase", "lowercase character")
    }
  }

  /** The rule's 21-character list, in the source's order. */
  const LEGACY_SPECIAL_CHARACTERS: string := "~!@#$%^&*()_+{}\":;'[]"

  /** The characters of the later 33-character set that the list leaves out. */
  const NOT_LISTED: string := " -.,/<>=?\\`|"

  /**
   * Accepts a password in which at least one listed character occurs;
   * `minCharacters` only appears in the message and help text.
   */
  datatype ContainsSpecialCharactersValidator = ContainsSpecialCharactersValidator(minCharacters: int := 1)
  {
    /** `not any(c in password for c in self.characters)`. */
    function Validate(password: string): (o: Outcome)
      ensures o.Reject? <==> forall i :: 0 <= i < |password| ==> password[i] !in LEGACY_SPECIAL_CHARACTERS
      ensures o.Reject? ==> && o.code == Some(TOO_WEAK)
                            && o.params == map["min_characters" := minCharacters]
                            && SaysTemplate(o.message, "Password must contain at least ", "min_characters", minCharacters, "special character")
    {
      var anyListed := exists k :: 0 <= k < |LEGACY_SPECIAL_CHARACTERS| && LEGACY_SPECIAL_CHARACTERS[k] in password;
      if !anyListed then
        Reject(Template(minCharacters, "min_characters", "special character"), Some(TOO_WEAK), map["min_characters" := minCharacters])
      else
        Accept
    }

    function HelpText(): (r: string)
      ensures Advanced.Says(r, "Your password must contain at least ", minCharacters, "special character")
    {
      HelpTemplate(minCharacters, "min_characters", "special character")
    }
  }

  /** Every listed character is in the later set. */
  lemma ListedCharactersAreSpecial(c: char)
    requires c in LEGACY_SPECIAL_CHARACTERS
    ensures c in Advanced.SPECIAL_CHARACTERS
  {
    Advanced.SpecialCharactersAreSpaceAndPunctuation(c);
  }

  /** Each character of `NOT_LISTED` is in the later set and not on the list. */
  lemma UnlistedAreAdded(c: char)
    requires c in NOT_LISTED
    ensures c in Advanced.SPECIAL_CHARACTERS && c !in LEGACY_SPECIAL_CHARACTERS
  {
    Advanced.SpecialCharactersAreSpaceAndPunctuation(c);
    var k :| 0 <= k < |NOT_LISTED| && NOT_LISTED[k] == c;
    forall i | 0 <= i < |LEGACY_SPECIAL_CHARACTERS|
      ensures LEGACY_SPECIAL_CHARACTERS[i] != c
    {
    }
  }

  /** Each character the later set has beyond the list is in `NOT_LISTED`. */
  lemma AddedAreUnlisted(c: char)
    requires c in Advanced.SPECIAL_CHARACTERS && c !in LEGACY_SPECIAL_CHARACTERS
    ensures c in NOT_LISTED
  {
    assert c in Advanced.SPECIAL_CHARACTERS[..16] || c in Advanced.SPECIAL_CHARACTERS[16..];
  }

  /**
   * The legacy digit rule and the later one agree: the same passwords are
   * rejected, the same help text is shown, and filling in the legacy
   * template gives the later message.
   */
  lemma NumeralsMatchDigits(n: int, password: string)
    ensures ContainsNumeralsValidator(n).Validate(password).Reject?
        == Advanced.ContainsDigitsValidator(n).Validate(password).Reject?
    ensures ContainsNumeralsValidator(n).HelpText() == Advanced.ContainsDigitsValidator(n).HelpText()
    ensures ContainsNumeralsValidator(n).Validate(password).Reject? ==>
              Interpolate(ContainsNumeralsValidator(n).Validate(password).message, "min_numerals", n)
              == Advanced.ContainsDigitsValidator(n).Validate(password).message
  {
    var o := ContainsNumeralsValidator(n).Validate(password);
    if o.Reject? {
      FillTemplate(o.message, "Password must contain at least ", "min_numerals", n, "number");
    }
  }

  /** As `NumeralsMatchDigits`, for the uppercase rule. */
  lemma UppercaseMatchesLater(n: int, password: string)
    ensures ContainsUppercaseValidator(n).Validate(password).Reject?
        == Advanced.ContainsUppercaseValidator(n).Validate(password).Reject?
    ensures ContainsUppercaseValidator(n).HelpText() == Advanced.ContainsUppercaseValidator(n).HelpText()
    ensures ContainsUppercaseValidator(n).Validate(password).Reject? ==>
              Interpolate(ContainsUppercaseValidator(n).Validate(password).message, "min_uppercase", n)
              == Advanced.ContainsUppercaseValidator(n).Validate(password).message
  {
    var o := ContainsUppercaseValidator(n).Validate(password);
    if o.Reject? {
      FillTemplate(o.message, "Password must contain at least ", "min_uppercase", n, "uppercase character");
    }
  }

  /** As `NumeralsMatchDigits`, for the lowercase rule. */
  lemma LowercaseMatchesLater(n: int, password: string)
    ensures ContainsLowercaseValidator(n).Validate(password).Reject?
        == Advanced.ContainsLowercaseValidator(n).Validate(password).Reject?
    ensures ContainsLowercaseValidator(n).HelpText() == Advanced.ContainsLowercaseValidator(n).HelpText()
    ensures ContainsLowercaseValidator(n).Validate(password).Reject? ==>
              Interpolate(ContainsLowercaseValidator(n).Validate(password).message, "min_lowercase", n)
              == Advanced.ContainsLowercaseValidator(n).Validate(password).message
  {
    var o := ContainsLowercaseValidator(n).Validate(password);
    if o.Reject? {
      FillTemplate(o.message, "Password must contain at least ", "min_lowercase", n, "lowercase character");
    }
  }

  /**
   * A password the legacy special-character rule accepts is accepted by the
   * later rule with a minimum of 1, whatever minimum the legacy rule was given.
   */
  lemma LegacySpecialAcceptImpliesLater(n: int, password: string)
    requires ContainsSpecialCharactersValidator(n).Validate(password).Accept?
    ensures Advanced.ContainsSpecialCharactersValidator(1).Validate(password).Accept?
  {
    var i :| 0 <= i < |password| && password[i] in LEGACY_SPECIAL_CHARACTERS;
    ListedCharactersAreSpecial(password[i]);
    assert OneOf(Advanced.SPECIAL_CHARACTERS).Has(password[i]);
  }

  /** The minimum plays no part: one '!' passes with a minimum of 5, and no listed character fails with a minimum of 0. */
  lemma LegacySpecialIgnoresMinimum()
    ensures ContainsSpecialCharactersValidator(5).Validate("!").Accept?
    ensures ContainsSpecialCharactersValidator(0).Validate("abc").Reject?
  {
    assert "!"[0] == LEGACY_SPECIAL_CHARACTERS[1];
    forall i | 0 <= i < |"abc"|
      ensures "abc"[i] !in LEGACY_SPECIAL_CHARACTERS
    {
      LettersAreNotListed("abc"[i]);
    }
  }

  /** A password whose only punctuation is unlisted fails the legacy rule, although the later rule accepts it. */
  lemma UnlistedPunctuationRejected(s: string)
    requires s == "a-b.c"
    ensures ContainsSpecialCharactersValidator(1).Validate(s).Reject?
    ensures Advanced.ContainsSpecialCharactersValidator(1).Validate(s).Accept?
  {
    forall i | 0 <= i < |s|
      ensures s[i] !in LEGACY_SPECIAL_CHARACTERS
    {
      if i == 1 || i == 3 {
        assert s[i] in NOT_LISTED;
        UnlistedAreAdded(s[i]);
      } else {
        LettersAreNotListed(s[i]);
      }
    }
    Advanced.SpecialCharactersAreSpaceAndPunctuation(s[1]);
  }

  /** No letter is on the list. */
  lemma LettersAreNotListed(c: char)
    requires IsLower(c) || IsUpper(c)
    ensures c !in LEGACY_SPECIAL_CHARACTERS
  {
    Advanced.SpecialCharactersAreSpaceAndPunctuation(c);
    if c in LEGACY_SPECIAL_CHARACTERS {
      ListedCharactersAreSpecial(c);
    }
  }
}
