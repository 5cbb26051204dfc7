# Advanced password validation, modelled in Dafny

A model of two Django password-validator modules:

- `django_advanced_password_validation/advanced_password_validation.py` has eight rules: minimum counts of digits, uppercase letters, lowercase letters and special characters; a maximum length; a limit on runs of one repeated character; and limits on runs of ascending and of descending digits.
- `django-advanced_password_validation/advanced_password_validation.py` is the earlier four-rule module. Its special-character rule tests for the presence of any of 21 listed characters.

Each validator class is an immutable configuration object, because its fields are assigned only in `__init__`. So each class becomes a Dafny `datatype` whose constructor takes the `__init__` arguments, with the same defaults. `validate(password)` becomes `Validate`, which returns an `Outcome`:

- `Accept` stands for returning `None`.
- `Reject(message, code, params)` stands for raising `ValidationError`.

`Validate` is a function where the source is a single `sum(...)`, `len(...)` or `any(...)` expression. It is a method with loops and invariants where the source loops: the repeat rule and the two digit-run rules. `get_help_text()` becomes `HelpText`.

The modules are:

- `Text` (`text.dfy`) covers the pieces of Python string behaviour the rules use: ASCII `isdigit`/`isupper`/`islower`, counting, `str.index`, `c * n`, `t in s`, `str(n)`, `ngettext`'s choice of form, and `%`-interpolation of a `%(name)d` placeholder.
- `Outcomes` (`outcome.dfy`) holds the result type and the `password_too_weak` code.
- `DigitRuns` (`digit_runs.dfy`) is the search of the two digit-run rules. The source's nested loops are proved equal to a specification, `AnchoredRunRejects`. That specification is proved sound against the property the rules are named after, `HasDigitRun`, and shown not to be complete. It also holds a one-pass scan, `StreakScan`, which decides `HasDigitRun` exactly.
- `AdvancedPasswordValidation` (`advanced.dfy`) holds the eight current rules.
- `LegacyPasswordValidation` (`legacy.dfy`) holds the four legacy rules and lemmas relating them to the current ones.
- `ValidatorScenarios` (`scenarios.dfy`) states the concrete expectations of `tests/test_validators.py` about the model. The exceptions are the special-character message and help text, which the tests expect with a suffix that the code does not produce; see "Left out".

`Says(text, lead, n, unit)` is the shape every counting message has: `lead`, then `str(n)`, a space, `unit`, an "s" exactly when `n != 1`, and a full stop. This is `ngettext` choosing between the source's singular and plural f-strings.

## Model

| member | source | states |
|---|---|---|
| Text.Count | django_advanced_password_validation/advanced_password_validation.py:35 | `sum(pred(c) for c in s)` is at most `len(s)`; it is 0 iff no character qualifies and `len(s)` iff all do |
| Text.CountAppend | django_advanced_password_validation/advanced_password_validation.py:35 | the count over `a + b` is the count over `a` plus the count over `b` |
| Text.CountSlice | django_advanced_password_validation/advanced_password_validation.py:276 | a slice never holds more characters of a class than the whole password (`str.count`) |
| Text.FirstIndex | django_advanced_password_validation/advanced_password_validation.py:324 | `password.index(c)` is a position holding `c`, and no earlier position holds `c` |
| Text.Repeat | django_advanced_password_validation/advanced_password_validation.py:277 | `c * n` has `max(n, 0)` characters, all equal to `c` |
| Text.IsSubstring | django_advanced_password_validation/advanced_password_validation.py:278 | `check in password`: holding means the check is no longer than the password, and a prefix of the password is always held |
| Text.NatDecimal | django_advanced_password_validation/advanced_password_validation.py:38 | `str(n)` for `n >= 0` is a non-empty string of digits with no leading zero |
| Text.NatDecimalRoundTrip | django_advanced_password_validation/advanced_password_validation.py:38 | reading back the digits of `str(n)` gives `n` |
| Text.Decimal | django_advanced_password_validation/advanced_password_validation.py:38 | `str(n)` is non-empty, holds no '%', and starts with '-' iff `n < 0` |
| Text.DecimalRoundTrip | django_advanced_password_validation/advanced_password_validation.py:38 | after an optional '-', `str(n)` is digits whose value is `\|n\|`, and the '-' is there iff `n < 0` |
| Text.Plural | django_advanced_password_validation/advanced_password_validation.py:37-41 | `ngettext(singular, plural, n)` without a catalog gives the singular form when `n == 1` and the plural form otherwise |
| Text.Interpolate | django-advanced_password_validation/advanced_password_validation.py:20-24 | `t % {key: v}` is empty exactly when `t` is, and a leading character other than '%' is kept in front |
| Text.InterpolateVerbatim | django_advanced_password_validation/advanced_password_validation.py:50-54 | `t % {...}` leaves a string with no '%' unchanged |
| Text.InterpolateCopies | django-advanced_password_validation/advanced_password_validation.py:20-24 | a leading character other than '%' is copied by `%` |
| Text.InterpolateAtPlaceholder | django-advanced_password_validation/advanced_password_validation.py:20-24 | `("%(key)d" + post) % {key: v}` is `str(v) + (post % {key: v})` |
| Text.InterpolateAfterStep | django-advanced_password_validation/advanced_password_validation.py:20-24 | the induction step of `InterpolateAfter`: one copied character is prepended to the rest |
| Text.InterpolateAfter | django-advanced_password_validation/advanced_password_validation.py:20-24 | `(pre + "%(key)d" + post) % {key: v}` is `pre + str(v) + (post % {key: v})` when `pre` has no '%' |
| AdvancedPasswordValidation.SaysForms | django_advanced_password_validation/advanced_password_validation.py:37-41 | the singular f-string has the `Says` shape iff `n == 1`, the plural one iff `n != 1` |
| AdvancedPasswordValidation.AtLeast | django_advanced_password_validation/advanced_password_validation.py:35-44 | rejects iff `count < minimum`, with code "password_too_weak", `params={param: minimum}` and the plural-correct message |
| AdvancedPasswordValidation.FormatCount | django_advanced_password_validation/advanced_password_validation.py:50-54 | `ngettext(...) % {param: n}` on f-strings that already hold `str(n)` gives the `Says` text |
| AdvancedPasswordValidation.AtLeastHelp | django_advanced_password_validation/advanced_password_validation.py:50-54 | the help text of a counting rule is "Your password must contain at least n unit(s)." with the plural chosen by `n != 1` |
| AdvancedPasswordValidation.ContainsDigitsValidator.Validate | django_advanced_password_validation/advanced_password_validation.py:35-44 | rejects iff the password has fewer than `min_digits` digits; the rejection carries "password_too_weak", `{"min_digits": min_digits}` and "Password must contain at least n number(s)." |
| AdvancedPasswordValidation.ContainsDigitsValidator.HelpText | django_advanced_password_validation/advanced_password_validation.py:46-54 | "Your password must contain at least n number(s).", singular iff `min_digits == 1` |
| AdvancedPasswordValidation.ContainsUppercaseValidator.Validate | django_advanced_password_validation/advanced_password_validation.py:83-92 | rejects iff fewer than `min_uppercase` uppercase letters, with the code, params and message of the source |
| AdvancedPasswordValidation.ContainsUppercaseValidator.HelpText | django_advanced_password_validation/advanced_password_validation.py:94-102 | help text in the `Says` shape, singular iff `min_uppercase == 1` |
| AdvancedPasswordValidation.ContainsLowercaseValidator.Validate | django_advanced_password_validation/advanced_password_validation.py:131-140 | rejects iff fewer than `min_lowercase` lowercase letters, with the code, params and message of the source |
| AdvancedPasswordValidation.ContainsLowercaseValidator.HelpText | django_advanced_password_validation/advanced_password_validation.py:142-150 | help text in the `Says` shape, singular iff `min_lowercase == 1` |
| AdvancedPasswordValidation.SpecialCharactersAreSpaceAndPunctuation | django_advanced_password_validation/advanced_password_validation.py:166 | the fixed set is exactly the space and the 32 ASCII punctuation characters |
| AdvancedPasswordValidation.ContainsSpecialCharactersValidator.Validate | django_advanced_password_validation/advanced_password_validation.py:180-189 | rejects iff fewer than `min_characters` characters of the set, counted with multiplicity, with the code, params and message of the source |
| AdvancedPasswordValidation.ContainsSpecialCharactersValidator.HelpText | django_advanced_password_validation/advanced_password_validation.py:191-199 | help text in the `Says` shape, singular iff `min_characters == 1` |
| AdvancedPasswordValidation.MaximumLengthValidator.AtMaximum | django_advanced_password_validation/advanced_password_validation.py:230-235 | "Password must contain at maximum n character(s).", singular iff `max_length == 1` |
| AdvancedPasswordValidation.MaximumLengthValidator.Validate | django_advanced_password_validation/advanced_password_validation.py:228-236 | rejects iff `len(password) > max_length`; the rejection has no code and no params |
| AdvancedPasswordValidation.MaximumLengthValidator.HelpText | django_advanced_password_validation/advanced_password_validation.py:238-246 | the same text as the rejection message |
| AdvancedPasswordValidation.RepeatSubstringIsRun | django_advanced_password_validation/advanced_password_validation.py:277-278 | `c * n in password` means the password holds `n` adjacent copies of a character |
| AdvancedPasswordValidation.RunPassesPrefilter | django_advanced_password_validation/advanced_password_validation.py:276-278 | a run of `n` copies of `c` makes `c * n in password` true and `password.count(c) >= n - 1`, so the count pre-filter never hides a run |
| AdvancedPasswordValidation.MaxConsecutiveCharactersValidator.NoneFlaggedNoRun | django_advanced_password_validation/advanced_password_validation.py:275-284 | when no character passes both tests of the loop, there is no run of `max_consecutive + 1` |
| AdvancedPasswordValidation.MaxConsecutiveCharactersValidator.Validate | django_advanced_password_validation/advanced_password_validation.py:275-284 | the source's loop rejects iff some character stands `max_consecutive + 1` times in a row, with the repeating-characters message and no code |
| AdvancedPasswordValidation.MaxConsecutiveCharactersValidator.HelpText | django_advanced_password_validation/advanced_password_validation.py:286-292 | "Password cannot contain consecutively repeating characters. e.g 'aaa' or '111'", which differs from the rejection message |
| AdvancedPasswordValidation.ConsecutivelyIncreasingDigitValidator.Validate | django_advanced_password_validation/advanced_password_validation.py:320-341 | the source's loops reject iff `AnchoredRunRejects(password, max_consecutive, Increasing)`, with the increasing-digits message |
| AdvancedPasswordValidation.ConsecutivelyIncreasingDigitValidator.ValidateIntended | django_advanced_password_validation/advanced_password_validation.py:320-341 | the intended rule: rejects iff `max_consecutive >= 1` and some `max_consecutive + 1` adjacent digits ascend by one |
| AdvancedPasswordValidation.ConsecutivelyIncreasingDigitValidator.HelpText | django_advanced_password_validation/advanced_password_validation.py:343-349 | "Password cannot contain consecutively increasing digits. e.g '12345'", which differs from the rejection message |
| AdvancedPasswordValidation.ConsecutivelyDecreasingDigitValidator.Validate | django_advanced_password_validation/advanced_password_validation.py:377-398 | the source's loops reject iff `AnchoredRunRejects(password, max_consecutive, Decreasing)`, with the decreasing-digits message |
| AdvancedPasswordValidation.ConsecutivelyDecreasingDigitValidator.ValidateIntended | django_advanced_password_validation/advanced_password_validation.py:377-398 | the intended rule: rejects iff `max_consecutive >= 1` and some `max_consecutive + 1` adjacent digits descend by one |
| AdvancedPasswordValidation.ConsecutivelyDecreasingDigitValidator.HelpText | django_advanced_password_validation/advanced_password_validation.py:400-406 | "Password cannot contain consecutively decreasing digits. e.g '54321'", which differs from the rejection message |
| AdvancedPasswordValidation.RunHelpTextsIgnoreLimit | django_advanced_password_validation/advanced_password_validation.py:286-406 | the help texts of the repeat rule (:286-292), the increasing-digit rule (:343-349) and the decreasing-digit rule (:400-406) do not depend on `max_consecutive` |
| DigitRuns.ContinuesForStep | django_advanced_password_validation/advanced_password_validation.py:327-331 | a window of `i` positions continues the digit iff the window of `i - 1` does and position `i` holds the next digit |
| DigitRuns.AnchoredRunRejects | django_advanced_password_validation/advanced_password_validation.py:320-341 | the condition under which the source's search raises: some digit's first occurrence (`password.index(c)`) is followed by `max_consecutive` digits continuing it; it can only hold when `1 <= max_consecutive < len(password)` |
| DigitRuns.ScanWindow | django_advanced_password_validation/advanced_password_validation.py:326-341 | the inner `for i in range(1, M + 1)` loop, with `count`, `digit` and the caught IndexError, reaches `count >= M` iff positions `index+1..index+M` exist and hold the next `M` digits |
| DigitRuns.ScanDigitRuns | django_advanced_password_validation/advanced_password_validation.py:320-341 | the outer loop raises iff some digit's first occurrence is followed by `M` continuing digits (`AnchoredRunRejects`) |
| DigitRuns.ContinuesForIsRun | django_advanced_password_validation/advanced_password_validation.py:327-339 | a window the loop accepts as a run is `M + 1` adjacent digits stepping by one |
| DigitRuns.AnchoredRunIsSound | django_advanced_password_validation/advanced_password_validation.py:320-341 | every rejection exhibits `M + 1` adjacent digits stepping by one, and `M >= 1` |
| DigitRuns.NoWrapAround | django_advanced_password_validation/advanced_password_validation.py:329 | '9' never continues upwards and '0' never downwards |
| DigitRuns.FirstIndexAt | django_advanced_password_validation/advanced_password_validation.py:324 | `password.index(c)` is the position of `c` that no earlier position holds |
| DigitRuns.AnchoredRunMissesLaterRun | django_advanced_password_validation/advanced_password_validation.py:324 | "1231234" contains "1234", yet the increasing rule with limit 3 accepts it |
| DigitRuns.RunEndingAtIsRun | django_advanced_password_validation/advanced_password_validation.py:327-331 | the run length tracked by the corrected scan is a real step run |
| DigitRuns.StepRunBoundsRunEndingAt | django_advanced_password_validation/advanced_password_validation.py:327-331 | a step run of `n` ending at a position makes the tracked run length there at least `n` |
| DigitRuns.StepRunSuffix | django_advanced_password_validation/advanced_password_validation.py:327-331 | the tail of a step run is a step run |
| DigitRuns.StreakScan | django_advanced_password_validation/advanced_password_validation.py:320-341 | the corrected scan finds a run iff `M >= 1` and the password has `M + 1` adjacent digits stepping by one |
| LegacyPasswordValidation.FillTemplate | django-advanced_password_validation/advanced_password_validation.py:20-24 | filling the `%(name)d` placeholder of a legacy template with `n` gives the text in the `Says` shape |
| LegacyPasswordValidation.Template | django-advanced_password_validation/advanced_password_validation.py:12-14 | the `ngettext` template holds the placeholder, with the plural chosen by `n != 1` |
| LegacyPasswordValidation.HelpTemplate | django-advanced_password_validation/advanced_password_validation.py:20-24 | `ngettext(...) % {name: n}` gives "Your password must contain at least n unit(s)." |
| LegacyPasswordValidation.AtLeast | django-advanced_password_validation/advanced_password_validation.py:10-17 | rejects iff `count < minimum`, raising the unformatted template with code "password_too_weak" and `params={name: minimum}` |
| LegacyPasswordValidation.ContainsNumeralsValidator.Validate | django-advanced_password_validation/advanced_password_validation.py:9-17 | rejects iff fewer than `min_numerals` digits, with the code, params and template of the source |
| LegacyPasswordValidation.ContainsNumeralsValidator.HelpText | django-advanced_password_validation/advanced_password_validation.py:19-24 | help text in the `Says` shape, singular iff `min_numerals == 1` |
| LegacyPasswordValidation.ContainsUppercaseValidator.Validate | django-advanced_password_validation/advanced_password_validation.py:31-39 | rejects iff fewer than `min_uppercase` uppercase letters, with the code, params and template of the source |
| LegacyPasswordValidation.ContainsUppercaseValidator.HelpText | django-advanced_password_validation/advanced_password_validation.py:41-46 | help text in the `Says` shape, singular iff `min_uppercase == 1` |
| LegacyPasswordValidation.ContainsLowercaseValidator.Validate | django-advanced_password_validation/advanced_password_validation.py:53-61 | rejects iff fewer than `min_lowercase` lowercase letters, with the code, params and template of the source |
| LegacyPasswordValidation.ContainsLowercaseValidator.HelpText | django-advanced_password_validation/advanced_password_validation.py:63-68 | help text in the `Says` shape, singular iff `min_lowercase == 1` |
| LegacyPasswordValidation.ContainsSpecialCharactersValidator.Validate | django-advanced_password_validation/advanced_password_validation.py:77-85 | rejects iff no character of the password is on the 21-character list, whatever `min_characters` is, with the code, params and template of the source |
| LegacyPasswordValidation.ContainsSpecialCharactersValidator.HelpText | django-advanced_password_validation/advanced_password_validation.py:87-92 | help text in the `Says` shape, singular iff `min_characters == 1` |
| LegacyPasswordValidation.ListedCharactersAreSpecial | django-advanced_password_validation/advanced_password_validation.py:74-75 | every listed character is in the current module's set |
| LegacyPasswordValidation.UnlistedAreAdded | django-advanced_password_validation/advanced_password_validation.py:74-75 | the space and `-.,/<>=?\`\|` are in the current set but not on the list |
| LegacyPasswordValidation.AddedAreUnlisted | django-advanced_password_validation/advanced_password_validation.py:74-75 | any character of the current set missing from the list is one of those twelve |
| LegacyPasswordValidation.LettersAreNotListed | django-advanced_password_validation/advanced_password_validation.py:74-75 | no letter is on the list |
| LegacyPasswordValidation.NumeralsMatchDigits | django-advanced_password_validation/advanced_password_validation.py:10-24 | the legacy and current digit rules reject the same passwords and give the same help text; the filled legacy template is the current message |
| LegacyPasswordValidation.UppercaseMatchesLater | django-advanced_password_validation/advanced_password_validation.py:32-46 | the same agreement for the uppercase rules |
| LegacyPasswordValidation.LowercaseMatchesLater | django-advanced_password_validation/advanced_password_validation.py:54-68 | the same agreement for the lowercase rules |
| LegacyPasswordValidation.LegacySpecialAcceptImpliesLater | django-advanced_password_validation/advanced_password_validation.py:78 | a password the legacy special rule accepts passes the current rule with a minimum of 1 |
| LegacyPasswordValidation.LegacySpecialIgnoresMinimum | django-advanced_password_validation/advanced_password_validation.py:77-85 | "!" passes with a minimum of 5, and "abc" fails with a minimum of 0 |
| LegacyPasswordValidation.UnlistedPunctuationRejected | django-advanced_password_validation/advanced_password_validation.py:74-78 | "a-b.c" fails the legacy rule and passes the current one |
| ValidatorScenarios.DigitsExamples | django_advanced_password_validation/tests/test_validators.py:21-32 | "1234567890" is accepted; "abcdefghij" is rejected with "password_too_weak" and "Password must contain at least 1 number." |
| ValidatorScenarios.UppercaseExamples | django_advanced_password_validation/tests/test_validators.py:45-55 | "ABCDEFGHIJ" is accepted; "abcdefghij" is rejected with the singular uppercase message |
| ValidatorScenarios.LowercaseExamples | django_advanced_password_validation/tests/test_validators.py:74-84 | "abcdefghij" is accepted; "ABCDEFGHIJ" is rejected with the singular lowercase message |
| ValidatorScenarios.HelpTextExamples | django_advanced_password_validation/tests/test_validators.py:35-42 | minimum 1 gives "1 number." and minimum 2 gives "2 numbers." |
| ValidatorScenarios.UppercaseHelpSingular | django_advanced_password_validation/tests/test_validators.py:62-66 | minimum 1 gives "Your password must contain at least 1 uppercase character." |
| ValidatorScenarios.UppercaseHelpPlural | django_advanced_password_validation/tests/test_validators.py:67-71 | minimum 2 gives "Your password must contain at least 2 uppercase characters." |
| ValidatorScenarios.LowercaseHelpSingular | django_advanced_password_validation/tests/test_validators.py:91-95 | minimum 1 gives "Your password must contain at least 1 lowercase character." |
| ValidatorScenarios.LowercaseHelpPlural | django_advanced_password_validation/tests/test_validators.py:96-100 | minimum 2 gives "Your password must contain at least 2 lowercase characters." |
| ValidatorScenarios.RunHelpTextExamples | django_advanced_password_validation/tests/test_validators.py:176-241 | the help texts of the repeat rule (tests :180-184), the increasing rule (:209-212) and the decreasing rule (:237-240) |
| ValidatorScenarios.LettersPassDigitRuns | django_advanced_password_validation/tests/test_validators.py:188-230 | "abcdefghij" passes the increasing (tests :195) and the decreasing (:223) rule with a limit of 3 |
| ValidatorScenarios.LengthHelpExample | django_advanced_password_validation/tests/test_validators.py:149-156 | a maximum of 12 gives "Password must contain at maximum 12 characters." |
| ValidatorScenarios.SpecialAccepts | django_advanced_password_validation/tests/test_validators.py:108-109 | "!@#$%^&*()" is accepted |
| ValidatorScenarios.SpecialRejects | django_advanced_password_validation/tests/test_validators.py:110-112 | "abcdefghij" is rejected with "password_too_weak" |
| ValidatorScenarios.SpecialMessage | django_advanced_password_validation/advanced_password_validation.py:183 | the singular message is "Password must contain at least 1 special character." as the code writes it |
| ValidatorScenarios.LengthExamples | django_advanced_password_validation/tests/test_validators.py:137-146 | with a maximum of 10, 10 characters pass and 11 fail with "... at maximum 10 characters." |
| ValidatorScenarios.RepeatExamplesPass | django_advanced_password_validation/tests/test_validators.py:165-167 | "abcdefghij" and "aaabbbccc" have no run of 4 |
| ValidatorScenarios.RepeatExampleFails | django_advanced_password_validation/tests/test_validators.py:168-169 | "aaaabbbccc" has a run of 4 |
| ValidatorScenarios.IncreasingExamples | django_advanced_password_validation/tests/test_validators.py:194-198 | limit 3 accepts "abcdefg123" and rejects "1234567890" |
| ValidatorScenarios.DecreasingExamples | django_advanced_password_validation/tests/test_validators.py:222-226 | limit 3 accepts "abcdefg321" and rejects "9876543210" |
| ValidatorScenarios.ConfiguredRulesAccept | django_advanced_password_validation/tests/test_validators.py:244-248 | the five configured rules of this package accept "Abc$d1234!" |
| ValidatorScenarios.ConfiguredRulesRejectEmpty | django_advanced_password_validation/tests/test_validators.py:251-268 | the empty password fails the four configured counting rules and passes the length rule |

## Left out

- Unicode: `isdigit`, `isupper` and `islower` are modelled on ASCII only. A non-ASCII digit such as '²' passes `isdigit()` but makes `int(c)` raise `ValueError` in the digit-run rules. That path is outside the model.
- Django's `ValidationError`, `gettext` and `ngettext` are foreign calls. They are modelled as the `Outcome` datatype, as the identity and as `Plural` (singular exactly when `n == 1`). Translation catalogs are not modelled.
- `Text.Interpolate` handles only `%(name)d` placeholders. That is the only conversion the sources use.
- The `user` argument of every `validate` is unused by the source and is not a parameter of the model.
- `validate_password`, which collects the errors of all configured validators, and Django's built-in validators (minimum length, common and numeric passwords, similarity to user attributes) are Django code and not part of this model. The configured scenarios state each of this package's rules separately.
- `setup.py` (packaging) is not part of this model. Of `tests/settings.py`, only the five validators of this package and their options (`tests/settings.py:69-88`) are modelled, by `ValidatorScenarios.ConfiguredRulesAccept` and `ValidatorScenarios.ConfiguredRulesRejectEmpty`; the rest is framework configuration.
- ValidatorScenarios.SpecialMessage: follows the code's message. The tests expect the special-character message and help text to end with the character list in parentheses (`tests/test_validators.py:114-115`, `:126-133`, `:265-266`), but the strings in the code (`advanced_password_validation.py:183-184`, `:196-197`) do not have that suffix.
- ValidatorScenarios.ConfiguredRulesRejectEmpty: states the four rejections but not their messages. The messages for a minimum of 1 are stated by the per-rule examples, and the test's fourth message carries the suffix described above.
- Integer width: configuration values are unbounded integers, as in Python. Negative and zero limits follow the source. A minimum of at most 0 always accepts in the seven counting rules; the legacy special-character rule ignores its minimum (`django-advanced_password_validation/advanced_password_validation.py:78`). A repeat limit of 0 or less rejects every non-empty password: every character passes the `password.count(c) >= max_consecutive` pre-filter, and `c * (max_consecutive + 1)` is `c` itself (limit 0) or the empty string (limit below 0), which occurs in the password either way.

## Findings

| source | as written | input that shows it | evidently intended | confidence | as-written member | corrected member |
|---|---|---|---|---|---|---|
| django_advanced_password_validation/advanced_password_validation.py:324 (and :381) | the run window starts at `password.index(c)`, the first occurrence of the digit, not at the current position | "1231234" with `max_consecutive=3`: it contains "1234" but is accepted, because only the windows after the first '1', '2', '3' and '4' are examined | reject iff some `max_consecutive + 1` adjacent digits step by one, as the rule's name and message say | not executed; high that the code accepts this input, medium that the authors meant otherwise | DigitRuns.AnchoredRunMissesLaterRun | AdvancedPasswordValidation.ConsecutivelyIncreasingDigitValidator.ValidateIntended |
