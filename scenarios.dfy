/**
 * The concrete expectations of `tests/test_validators.py`, stated about the
 * model: outcomes and messages of single rules, and the rules configured in
 * `tests/settings.py` applied to the tests' two passwords.
 */
module ValidatorScenarios {
  import opened Text
  import opened Outcomes
  import opened DigitRuns
  import opened AdvancedPasswordValidation

  /** The digit rule with its default minimum of 1. */
  lemma DigitsExamples(good: string, bad: string)
    requires good == "1234567890" && bad == "abcdefghij"
    ensures ContainsDigitsValidator().Validate(good) == Accept
    ensures ContainsDigitsValidator().Validate(bad)
         == Reject("Password must contain at least 1 number.", Some("password_too_weak"), map["min_digits" := 1])
  {
    assert IsDigit(good[0]);
    assert forall i :: 0 <= i < |bad| ==> !IsDigit(bad[i]);
    assert Decimal(1) == "1" by {}
    assert "Password must contain at least " + "1" + " " + "number" + "" + "."
        == "Password must contain at least 1 number." by {}
  }

  /** The uppercase rule with its default minimum of 1. */
  lemma UppercaseExamples(good: string, bad: string)
    requires good == "ABCDEFGHIJ" && bad == "abcdefghij"
    ensures ContainsUppercaseValidator().Validate(good) == Accept
    ensures ContainsUppercaseValidator().Validate(bad)
         == Reject("Password must contain at least 1 uppercase character.", Some("password_too_weak"), map["min_uppercase" := 1])
  {
    assert IsUpper(good[0]);
    assert forall i :: 0 <= i < |bad| ==> !IsUpper(bad[i]);
    assert Decimal(1) == "1" by {}
    assert "Password must contain at least " + "1" + " " + "uppercase character" + "" + "."
        == "Password must contain at least 1 uppercase character." by {}
  }

  /** The lowercase rule with its default minimum of 1. */
  lemma LowercaseExamples(good: string, bad: string)
    requires good == "abcdefghij" && bad == "ABCDEFGHIJ"
    ensures ContainsLowercaseValidator().Validate(good) == Accept
    ensures ContainsLowercaseValidator().Validate(bad)
         == Reject("Password must contain at least 1 lowercase character.", Some("password_too_weak"), map["min_lowercase" := 1])
  {
    assert IsLower(good[0]);
    assert forall i :: 0 <= i < |bad| ==> !IsLower(bad[i]);
    assert Decimal(1) == "1" by {}
    assert "Password must contain at least " + "1" + " " + "lowercase character" + "" + "."
        == "Password must contain at least 1 lowercase character." by {}
  }

  /** Help texts choose the singular for a minimum of 1 and the plural otherwise. */
  lemma HelpTextExamples()
    ensures ContainsDigitsValidator(1).HelpText() == "Your password must contain at least 1 number."
    ensures ContainsDigitsValidator(2).HelpText() == "Your password must contain at least 2 numbers."
  {
    assert Decimal(1) == "1" by {}
    assert Decimal(2) == "2" by {}
    assert "Your password must contain at least " + "1" + " " + "number" + "" + "."
        == "Your password must contain at least 1 number." by {}
    assert "Your password must contain at least " + "2" + " " + "number" + "s" + "."
        == "Your password must contain at least 2 numbers." by {}
  }

  /** The uppercase help text for a minimum of 1 takes the singular. */
  lemma UppercaseHelpSingular()
    ensures ContainsUppercaseValidator(1).HelpText() == "Your password must contain at least 1 uppercase character."
  {
    assert Decimal(1) == "1" by {}
    assert "Your password must contain at least " + "1" + " " + "uppercase character" + "" + "."
        == "Your password must contain at least 1 uppercase character." by {}
  }

  /** The uppercase help text for a minimum of 2 takes the plural. */
  lemma UppercaseHelpPlural()
    ensures ContainsUppercaseValidator(2).HelpText() == "Your password must contain at least 2 uppercase characters."
  {
    assert Decimal(2) == "2" by {}
    assert "Your password must contain at least " + "2" + " " + "uppercase character" + "s" + "."
        == "Your password must contain at least 2 uppercase characters." by {}
  }

  /** The lowercase help text for a minimum of 1 takes the singular. */
  lemma LowercaseHelpSingular()
    ensures ContainsLowercaseValidator(1).HelpText() == "Your password must contain at least 1 lowercase character."
  {
    assert Decimal(1) == "1" by {}
    assert "Your password must contain at least " + "1" + " " + "lowercase character" + "" + "."
        == "Your password must contain at least 1 lowercase character." by {}
  }

  /** The lowercase help text for a minimum of 2 takes the plural. */
  lemma LowercaseHelpPlural()
    ensures ContainsLowercaseValidator(2).HelpText() == "Your password must contain at least 2 lowercase characters."
  {
    assert Decimal(2) == "2" by {}
    assert "Your password must contain at least " + "2" + " " + "lowercase character" + "s" + "."
        == "Your password must contain at least 2 lowercase characters." by {}
  }

  /** The help texts of the three run rules with the limit the tests configure. */
  lemma RunHelpTextExamples()
    ensures MaxConsecutiveCharactersValidator().HelpText()
         == "Password cannot contain consecutively repeating characters. e.g 'aaa' or '111'"
    ensures ConsecutivelyIncreasingDigitValidator(3).HelpText()
         == "Password cannot contain consecutively increasing digits. e.g '12345'"
    ensures ConsecutivelyDecreasingDigitValidator(3).HelpText()
         == "Password cannot contain consecutively decreasing digits. e.g '54321'"
  {
  }

  /** A password without digits passes both digit-run rules. */
  lemma LettersPassDigitRuns(s: string)
    requires s == "abcdefghij"
    ensures !AnchoredRunRejects(s, 3, Increasing)
    ensures !AnchoredRunRejects(s, 3, Decreasing)
  {
    assert forall k :: 0 <= k < |s| ==> !IsDigit(s[k]);
  }

  /** The help text of the length rule states its maximum. */
  lemma LengthHelpExample()
    ensures MaximumLengthValidator(12).HelpText() == "Password must contain at maximum 12 characters."
  {
    assert Decimal(12) == "12" by {}
    assert "Password must contain at maximum " + "12" + " " + "character" + "s" + "."
        == "Password must contain at maximum 12 characters." by {}
  }

  /** One character of the fixed set is enough for the default minimum of 1. */
  lemma SpecialAccepts(good: string)
    requires good == "!@#$%^&*()"
    ensures ContainsSpecialCharactersValidator().Validate(good) == Accept
  {
    SpecialCharactersAreSpaceAndPunctuation(good[0]);
  }

  /** Letters alone fail the special-character rule. */
  lemma SpecialRejects(bad: string)
    requires bad == "abcdefghij"
    ensures ContainsSpecialCharactersValidator().Validate(bad).Reject?
    ensures ContainsSpecialCharactersValidator().Validate(bad).code == Some("password_too_weak")
    ensures ContainsSpecialCharactersValidator().Validate(bad).params == map["min_characters" := 1]
  {
    assert forall i :: 0 <= i < |bad| ==> IsLower(bad[i]);
    forall i | 0 <= i < |bad|
      ensures !OneOf(SPECIAL_CHARACTERS).Has(bad[i])
    {
      SpecialCharactersAreSpaceAndPunctuation(bad[i]);
    }
  }

  /** The message of the special-character rule for its default minimum of 1. */
  lemma SpecialMessage(s: string)
    requires s == ""
    ensures ContainsSpecialCharactersValidator().Validate(s).message
         == "Password must contain at least 1 special character."
  {
    assert Decimal(1) == "1" by {}
    assert "Password must contain at least " + "1" + " " + "special character" + "" + "."
        == "Password must contain at least 1 special character." by {}
  }

  /** The maximum length is inclusive. */
  lemma LengthExamples()
    ensures MaximumLengthValidator(10).Validate("abcdefghij") == Accept
    ensures MaximumLengthValidator(10).Validate("abcdefghijk")
         == Reject("Password must contain at maximum 10 characters.", None, map[])
  {
    assert Decimal(10) == "10" by {}
    assert "Password must contain at maximum " + "10" + " " + "character" + "s" + "."
        == "Password must contain at maximum 10 characters." by {}
  }

  /** With the default limit of 3, ten distinct letters and three runs of three pass. */
  lemma RepeatExamplesPass()
    ensures !HasRepeatRun("abcdefghij", 4)
    ensures !HasRepeatRun("aaabbbccc", 4)
  {
    var t := "abcdefghij";
    forall i | 0 <= i < |t|
      ensures !RepeatRunAt(t, i, 4)
    {
      if i + 4 <= |t| {
        assert t[i + 1] != t[i];
      }
    }
    var s := "aaabbbccc";
    forall i | 0 <= i < |s|
      ensures !RepeatRunAt(s, i, 4)
    {
      if i + 4 <= |s| {
        assert s[i + 3] != s[i];
      }
    }
  }

  /** Four in a row do not pass. */
  lemma RepeatExampleFails()
    ensures HasRepeatRun("aaaabbbccc", 4)
  {
    assert RepeatRunAt("aaaabbbccc", 0, 4);
  }

  /** A password whose digits all come after the first seven characters has no window of 3 after a digit of "…123". */
  lemma IncreasingExamples()
    ensures !AnchoredRunRejects("abcdefg123", 3, Increasing)
    ensures AnchoredRunRejects("1234567890", 3, Increasing)
  {
    var s := "abcdefg123";
    forall k | 0 <= k < |s| && IsDigit(s[k])
      ensures !ContinuesFor(s, FirstIndex(s, s[k]), 3, Increasing)
    {
      var q := FirstIndex(s, s[k]);
      assert IsDigit(s[q]);
      assert q >= 7;
    }
    var t := "1234567890";
    FirstIndexAt(t, '1', 0);
    assert ContinuesFor(t, 0, 3, Increasing);
  }

  /** The descending rule on the tests' passwords. */
  lemma DecreasingExamples()
    ensures !AnchoredRunRejects("abcdefg321", 3, Decreasing)
    ensures AnchoredRunRejects("9876543210", 3, Decreasing)
  {
    var s := "abcdefg321";
    forall k | 0 <= k < |s| && IsDigit(s[k])
      ensures !ContinuesFor(s, FirstIndex(s, s[k]), 3, Decreasing)
    {
      var q := FirstIndex(s, s[k]);
      assert IsDigit(s[q]);
      assert q >= 7;
    }
    var t := "9876543210";
    FirstIndexAt(t, '9', 0);
    assert ContinuesFor(t, 0, 3, Decreasing);
  }

  /** The five rules of this package that the test settings configure accept "Abc$d1234!". */
  lemma ConfiguredRulesAccept(s: string)
    requires s == "Abc$d1234!"
    ensures ContainsDigitsValidator(1).Validate(s) == Accept
    ensures ContainsUppercaseValidator(1).Validate(s) == Accept
    ensures ContainsLowercaseValidator(1).Validate(s) == Accept
    ensures ContainsSpecialCharactersValidator(1).Validate(s) == Accept
    ensures MaximumLengthValidator(128).Validate(s) == Accept
  {
    assert IsDigit(s[5]) && IsUpper(s[0]) && IsLower(s[1]) && OneOf(SPECIAL_CHARACTERS).Has(s[3]);
  }

  /**
   * The empty password fails the four counting rules (each with the message
   * shown for its default minimum above) and passes the length rule.
   */
  lemma ConfiguredRulesRejectEmpty(s: string)
    requires s == ""
    ensures ContainsDigitsValidator(1).Validate(s).Reject?
    ensures ContainsUppercaseValidator(1).Validate(s).Reject?
    ensures ContainsLowercaseValidator(1).Validate(s).Reject?
    ensures ContainsSpecialCharactersValidator(1).Validate(s).Reject?
    ensures MaximumLengthValidator(128).Validate(s) == Accept
  {
  }
}
