# Humanbo site logic in Dafny

This project models the logic inside the Humanbo marketing site, a React single-page application, and proves properties of it. Its centre is the form-validation engine of `src/utils/validation.ts`:

- three format predicates: e-mail, phone and name;
- the five-step password check, `validatePassword`;
- the rule-driven `validateForm`. It walks the rule keys and records at most one message per field: the message of the last check that failed.

Around it sit the small pieces of state and arithmetic that the pages carry:

- the contact form's submit and edit handlers;
- the sign-up form's password-strength score and its tiers;
- the pricing page's price and savings figures;
- the SEO head's title and address normalisation;
- the header's active-link test and its menu flags;
- the 404 page's suggestion search;
- the API client's header dictionary and `handleApiError`;
- the Time Wallet countdown;
- the careers and blog filters.

## Layout

Each module follows one source file; three shared modules provide the JavaScript primitives the code relies on.

- `wrappers.dfy` (`Wrappers`): `Option`. An optional prop, an undefined dictionary entry and `null` are `None`.
- `strings.dfy` (`Strings`):
  - the ECMAScript white-space class shared by `trim` and `\s`;
  - `trim`, `startsWith`, `includes` and ASCII `toLowerCase`;
  - string truthiness;
  - the decimal rendering that a template literal gives an integer, with its round trip through parsing.
- `seqs.dfy` (`Seqs`): `Array.prototype.filter` and `find` over sequences, with the facts the page filters use: partition, composition, subsequence and congruence.
- `validation.dfy` (`Validation`): `src/utils/validation.ts`. The per-field logic is functions. `ValidateForm` is the loop that builds the error dictionary, proved equal to the function `FormErrors`.
- `validation_examples.dfy` (`ValidationExamples`): worked cases of the validator. They include the documented examples: "Jo" is accepted while "J" and "John123" are refused.
- `contact_page.dfy`, `signup_page.dfy`, `pricing_page.dfy`, `seo_head.dfy`, `header.dfy`, `not_found_page.dfy`, `api.dfy`, `time_wallet_page.dfy`, `careers_page.dfy`, `blog_page.dfy`: one module per page or component. A component whose handlers update state is a class whose methods carry `modifies this`.

## Semantic choices

- **Trimming.** It is used only where the code trims: the blank test of `validateForm`, the name length, and the emptiness test of the 404 search. The format, length and custom checks see the raw value, because that is what the code passes them.
- **Falsy values.** A `minLength` or `maxLength` of 0 is falsy in JavaScript, so it is not checked. A label is used only when truthy (`rule.label || field`).
- **Several types at once.** `validateForm` tests the email, password, phone, name and url types one after another. A rule has a single `type`, so at most one of those applies, and the model folds them into one `FormatError`.
- **Last failing check wins.** Every check assigns `errors[field]`, so it overwrites what came before. `Overwrite` runs the format, min-length, max-length and custom checks in order. Its contract says the result is the message of the last check that fails.
- **Regular expressions** are written out as predicates over characters. `\s` is the ECMAScript white-space and line-terminator set. `[A-Z]`, `[a-z]` and `[0-9]` are ASCII ranges.
- **Rounding.** `Math.round(savings / monthlyCost * 100)` is computed exactly on rationals, as `floor((200·savings + monthlyCost) / (2·monthlyCost))`: the nearest integer, with halves rounded up.
- **Asynchronous steps.** `ContactPage.handleSubmit` awaits the submission, so it is two methods. `Submit` is the part up to the call and `Settle` the part after the answer or the throw. Timers are operations: `TimeWallet.TickOnce` is one interval firing, `RunTicks(k)` is `k` firings, `EndDemo` is the ten-second timeout, and `SignupForm.FinishSignup` is the two-second callback. A toast is returned as a `Notice` value.

## Model

| member | source | states |
|---|---|---|
| Validation.EmailCharacterisation | src/utils/validation.ts:2-5 | `isValidEmail` holds exactly when the address has no white space and exactly one '@', not first, followed by a domain holding a '.' that is neither its first nor its last character |
| Validation.ValidEmailHasShape | src/utils/validation.ts:2-5 | an address matching the pattern has the character-level shape |
| Validation.IsValidEmail | src/utils/validation.ts:2-5 | an accepted address has at least five characters, an '@' and a '.' |
| Validation.EmailShapeIsValid | src/utils/validation.ts:2-5 | an address of that shape matches the pattern |
| Validation.EmailPartOfShape | src/utils/validation.ts:3 | a block with no white space that avoids the single '@' is a `[^\s@]+` run |
| Validation.StripPhoneSeparators | src/utils/validation.ts:40 | the stripped number has no white space, '-', '(' or ')', holds every other character as many times as the input does, and keeps their order |
| Validation.MatchesPhonePattern | src/utils/validation.ts:39 | a match is one to seventeen characters, all digits but for a '+' in first position |
| Validation.IsValidPhone | src/utils/validation.ts:38-41 | an accepted number consists of digits, separators and '+' only |
| Validation.IsValidName | src/utils/validation.ts:44-46 | an accepted name has at least two characters, each a letter, white space, '-' or an apostrophe |
| Validation.PhoneIgnoresSeparator | src/utils/validation.ts:38-41 | inserting a separator anywhere never changes whether a phone number is accepted |
| Validation.NameCharacterisation | src/utils/validation.ts:44-46 | a name is accepted exactly when every character is a letter, white space, '-' or an apostrophe and at least two characters are not white space |
| Validation.PasswordFailures | src/utils/validation.ts:11-29 | one flag per requirement, in the order they are checked |
| Validation.Selected | src/utils/validation.ts:9-29 | the messages whose flag is set, in order; there are none exactly when no flag is set |
| Validation.ValidatePassword | src/utils/validation.ts:8-35 | the errors are the messages of the failed requirements in checking order; the password is valid exactly when there are none, which is exactly when it has at least eight characters, an upper-case letter, a lower-case letter, a digit and a character that is neither of these |
| Validation.SelectedFirst | src/utils/validation.ts:83-88 | the first selected message is the message of the first set flag |
| Validation.PasswordFirstError | src/utils/validation.ts:83-88 | an invalid password's first error is the message of the first requirement, in checking order, that it fails |
| Validation.Label | src/utils/validation.ts:68 | a truthy (present and non-empty) rule label is used; otherwise the field key |
| Validation.FormatError | src/utils/validation.ts:78-103 | an untyped field has no format error; a format error is never empty |
| Validation.FormatErrorMeaning | src/utils/validation.ts:78-103 | each typed field fails its format check exactly when its predicate rejects the value; a password field reports `validatePassword`'s first error |
| Validation.MinLengthError | src/utils/validation.ts:105-108 | a minimum that is set and not zero is reported exactly when the raw value is shorter |
| Validation.MaxLengthError | src/utils/validation.ts:110-113 | a maximum that is set and not zero is reported exactly when the raw value is longer |
| Validation.CustomError | src/utils/validation.ts:115-121 | the custom check counts exactly when it returns a non-empty message, and then gives that message |
| Validation.FieldChecks | src/utils/validation.ts:78-121 | the four checks of a non-blank value, in order, and no check's message is empty |
| Validation.Overwrite | src/utils/validation.ts:78-121 | with no failing check the recorded message stays; otherwise the result is the last failing check's message |
| Validation.OverwriteNone | src/utils/validation.ts:78-121 | no message is left exactly when none was recorded and no check fails |
| Validation.FieldError | src/utils/validation.ts:63-121 | a blank required field gets "<label> is required"; a blank optional field gets nothing; a message is never empty |
| Validation.FieldErrorOfValue | src/utils/validation.ts:78-121 | a non-blank value has a message exactly when some check fails |
| Validation.LastFailureWins | src/utils/validation.ts:78-121 | a non-blank value's message is that of the last check to fail |
| Validation.CustomCheckWins | src/utils/validation.ts:115-121 | a custom check returning a message always decides the field's message |
| Validation.FormErrors | src/utils/validation.ts:59-127 | every error key is a rule key and every message is non-empty |
| Validation.FormErrorsAt | src/utils/validation.ts:62-121 | a ruled field is in the error map exactly when its own checks give a message, and with that message |
| Validation.RequiredFieldPassed | src/utils/validation.ts:67-121 | a required field with no error is present, non-blank and passes all four checks |
| Validation.RequiredFieldBlank | src/utils/validation.ts:67-70 | a missing or blank required field is reported as "<label> is required" |
| Validation.ValidateForm | src/utils/validation.ts:59-128 | the loop builds exactly `FormErrors`, and the form is valid exactly when no error was recorded |
| Validation.FormIgnoresUnruledFields | src/utils/validation.ts:62-64 | data keys that no rule names do not affect the errors |
| ValidationExamples.EmailExamples | src/utils/validation.ts:2-5 | sample addresses accepted and refused |
| ValidationExamples.PlainDigitsAccepted | src/utils/validation.ts:39 | a first digit 1-9 followed by at most fifteen digits is accepted |
| ValidationExamples.PlainDigitsRefused | src/utils/validation.ts:39 | a number starting with 0 is refused |
| ValidationExamples.PhoneRefused | src/utils/validation.ts:38-41 | sample numbers refused |
| ValidationExamples.LettersAccepted | src/utils/validation.ts:44-46 | two or more ASCII letters form a valid name |
| ValidationExamples.TwoLetterNameAccepted | src/utils/validation.ts:44-46 | "Jo" is accepted |
| ValidationExamples.OneLetterNameRefused | src/utils/validation.ts:44-46 | "J" is refused |
| ValidationExamples.NameWithDigitsRefused | src/utils/validation.ts:44-46 | "John123" is refused |
| ValidationExamples.PaddedLetterRefused | src/utils/validation.ts:45 | a single letter padded with blanks is too short once trimmed |
| ValidationExamples.PasswordPriorityExamples | src/utils/validation.ts:8-35 | sample passwords report the first failed requirement |
| ValidationExamples.CustomOverridesLength | src/utils/validation.ts:105-121 | a custom message replaces a length message |
| ValidationExamples.RawLengthExample | src/utils/validation.ts:67-108 | the length check counts the untrimmed value |
| ValidationExamples.ZeroLimitsIgnored | src/utils/validation.ts:105-113 | limits of 0 are not checked |
| ValidationExamples.MaxLengthMessage | src/utils/validation.ts:110-113 | the too-long message names the label and the limit |
| ValidationExamples.RequiredExamples | src/utils/validation.ts:67-70 | a missing value and a blank value are both reported as required |
| ValidationExamples.OptionalEmptyExample | src/utils/validation.ts:73-75 | an empty optional field passes despite its minimum length |
| ValidationExamples.LetterNamePasses | src/utils/validation.ts:96-98 | a name field passes a name of two or more letters |
| ValidationExamples.EmailWithoutAtFails | src/utils/validation.ts:78-80 | an address without '@' gets the e-mail message |
| ValidationExamples.MinLengthMessage | src/utils/validation.ts:105-108 | the too-short message names the label and the limit |
| ValidationExamples.TooShortMessageText | src/utils/validation.ts:107 | the limit is rendered in decimal |
| ValidationExamples.ExampleRules | src/pages/ContactPage.tsx:23-28 | a contact-style rule set with three keys |
| ValidationExamples.ExampleNamePasses | src/utils/validation.ts:96-98 | in that form a name of letters raises no error |
| ValidationExamples.ExampleEmailFails | src/utils/validation.ts:78-80 | in that form an address without '@' is reported |
| ValidationExamples.ExampleMessageTooShort | src/utils/validation.ts:105-108 | in that form a short message is reported under its key |
| ValidationExamples.FormExample | src/utils/validation.ts:59-128 | the whole error map of that form: exactly the e-mail and message errors |
| ValidationExamples.FormExampleValues | src/utils/validation.ts:59-128 | concrete values meet what `FormExample` asks |
| ContactPage.EmptyForm | src/pages/ContactPage.tsx:11-17 | the five fields, all empty |
| ContactPage.ContactRules | src/pages/ContactPage.tsx:23-28 | four required fields, with no custom check and no maximum; the company field has no rule |
| ContactPage.FailureDetail | src/pages/ContactPage.tsx:51-56 | the toast detail is the answer's error or the fixed "Failed to send message", or the thrown value's message |
| ContactPage.ContactForm.constructor | src/pages/ContactPage.tsx:11-20 | an empty form, not loading, not submitted, no errors |
| ContactPage.ContactForm.Submit | src/pages/ContactPage.tsx:34-42 | an invalid form shows exactly the validator's errors, with loading unchanged and nothing sent; a valid one clears the errors, starts loading and is sent |
| ContactPage.ContactForm.Settle | src/pages/ContactPage.tsx:44-60 | loading ends whatever the outcome; only a success marks the form submitted |
| ContactPage.ContactForm.HandleChange | src/pages/ContactPage.tsx:63-71 | only the named field changes; an error showing for it is blanked and the others stay |
| ContactPage.ContactForm.SendAnother | src/pages/ContactPage.tsx:119-127 | all five fields are emptied and the form is no longer submitted |
| ContactPage.CompanyNeverValidated | src/pages/ContactPage.tsx:23-28 | the company field never carries an error |
| ContactPage.AcceptedFormIsComplete | src/pages/ContactPage.tsx:23-42 | a form that is sent has every required field filled, a valid name and e-mail, and a message of at least ten characters |
| ContactPage.AcceptedName | src/pages/ContactPage.tsx:24 | no name error means a valid name |
| ContactPage.AcceptedEmail | src/pages/ContactPage.tsx:25 | no e-mail error means a valid address |
| ContactPage.AcceptedMessage | src/pages/ContactPage.tsx:27 | no message error means at least ten characters |
| ContactPage.BlankFieldError | src/pages/ContactPage.tsx:23-28 | a ruled field of the empty form is reported as required under its label |
| ContactPage.ContactLabels | src/pages/ContactPage.tsx:24-27 | the labels of the four rules |
| ContactPage.EmptyFormErrors | src/pages/ContactPage.tsx:23-28 | the empty form gets exactly four errors: "Full Name", "Email Address", "Subject" and "Message" "is required" |
| SignupPage.CountTrue | src/pages/SignupPage.tsx:17-25 | the count is at most the number of flags, zero exactly when none is set, full exactly when all are |
| SignupPage.PasswordCriteria | src/pages/SignupPage.tsx:19-23 | the conditions met are exactly those `validatePassword` does not report |
| SignupPage.CalculatePasswordStrength | src/pages/SignupPage.tsx:17-25 | the score is the number of conditions met, at most five |
| SignupPage.CountComplement | src/pages/SignupPage.tsx:17-25 | flags and their negations together count every position once |
| SignupPage.SelectedCount | src/utils/validation.ts:8-35 | one message per failed requirement |
| SignupPage.StrengthPlusErrors | src/pages/SignupPage.tsx:17-25 | the score plus the number of password errors is five |
| SignupPage.StrengthFiveIffValid | src/pages/SignupPage.tsx:17-25 | a score of five is exactly a password that `validatePassword` accepts |
| SignupPage.EmptyPasswordStrength | src/pages/SignupPage.tsx:17-25 | the empty password scores 0 |
| SignupPage.StrengthText | src/pages/SignupPage.tsx:63-68 | Weak exactly at 2 or less, Fair at 3, Good at 4, Strong at 5 or more |
| SignupPage.StrengthColor | src/pages/SignupPage.tsx:56-61 | red exactly at 2 or less, orange at 3, yellow at 4, green at 5 or more |
| SignupPage.TiersAgree | src/pages/SignupPage.tsx:56-68 | the text and the colour always name the same tier |
| SignupPage.ValidPasswordIsStrong | src/pages/SignupPage.tsx:17-68 | an accepted password shows "Strong" on a green bar |
| SignupPage.EmptySignup | src/pages/SignupPage.tsx:5-11 | the five fields, all empty |
| SignupPage.SubmitDisabled | src/pages/SignupPage.tsx:234 | the button is enabled exactly when not loading and the passwords agree |
| SignupPage.SignupForm.constructor | src/pages/SignupPage.tsx:5-15 | an empty form, not loading, score 0 |
| SignupPage.SignupForm.HandleChange | src/pages/SignupPage.tsx:44-54 | only the named field changes; the score is recomputed exactly when the password changes and always matches the current password |
| SignupPage.SignupForm.HandleSubmit | src/pages/SignupPage.tsx:27-34 | differing passwords raise the alert and leave loading as it was; otherwise loading starts |
| SignupPage.SignupForm.FinishSignup | src/pages/SignupPage.tsx:37-41 | loading ends and nothing else changes |
| PricingPage.Toggle | src/pages/PricingPage.tsx:139 | the switch changes the cycle |
| PricingPage.ToggleTwice | src/pages/PricingPage.tsx:139 | two clicks restore the cycle |
| PricingPage.Plans | src/pages/PricingPage.tsx:8-76 | the three plans |
| PricingPage.ShownPrice | src/pages/PricingPage.tsx:107 | the monthly price, or the largest whole figure whose twelvefold fits in the yearly price |
| PricingPage.GetPrice | src/pages/PricingPage.tsx:105-109 | "Free" exactly for a plan with no monthly price, else "$" followed by decimal digits that read back as the figure shown |
| PricingPage.SavingsPercent | src/pages/PricingPage.tsx:113-115 | the percentage is within half a point of the exact saving, as rounding to nearest gives |
| PricingPage.GetSavings | src/pages/PricingPage.tsx:111-117 | no badge for a free plan; otherwise a badge exactly when the rounded percentage is positive, reading "Save N%" |
| PricingPage.SavingsShownIff | src/pages/PricingPage.tsx:111-117 | a badge appears exactly when the yearly price saves at least half a percent of twelve monthly payments |
| PricingPage.NoSavingsWithoutDiscount | src/pages/PricingPage.tsx:116 | a yearly price of twelve monthly payments or more never earns a badge |
| PricingPage.SavingsBadge | src/pages/PricingPage.tsx:197 | the badge shows only in the yearly cycle |
| PricingPage.StarterIsFree | src/pages/PricingPage.tsx:105-117 | Starter shows "Free" and no badge |
| PricingPage.YearlyFigures | src/pages/PricingPage.tsx:107-115 | yearly, Growth shows 24 and Enterprise 82, each saving 17 percent |
| PricingPage.MonthlyFigures | src/pages/PricingPage.tsx:107 | monthly, the list prices are shown |
| PricingPage.GrowthYearlyLabels | src/pages/PricingPage.tsx:105-117 | Growth in the yearly cycle reads "$24" and "Save 17%" |
| SeoHead.FullTitle | src/components/SEOHead.tsx:27 | the full title always contains "Humanbo"; a title already containing it is kept, any other gets " \| Humanbo" |
| SeoHead.FullTitleIdempotent | src/components/SEOHead.tsx:27 | normalising twice is normalising once |
| SeoHead.FullTitleExtends | src/components/SEOHead.tsx:27 | the full title starts with the title and adds at most the suffix |
| SeoHead.FullUrl | src/components/SEOHead.tsx:28 | the address always starts with "http"; one that already does is kept, any other is prefixed with the site address |
| SeoHead.FullUrlIdempotent | src/components/SEOHead.tsx:28 | normalising twice is normalising once |
| SeoHead.RelativePathUnderSite | src/components/SEOHead.tsx:28 | a path starting with "/" becomes the site address followed by that path |
| SeoHead.ArticleTagsOf | src/components/SEOHead.tsx:76-84 | the time tags are emitted exactly for an article with a non-empty value, the author tag exactly for an article |
| SeoHead.SeoHeadOf | src/components/SEOHead.tsx:16-28 | absent props take the defaults; a supplied title and address are normalised as FullTitle and FullUrl say; the article tags follow the page type and author with the defaults applied; the head always has a branded title and an http address |
| SeoHead.NonArticleHasNoArticleTags | src/components/SEOHead.tsx:76-84 | a page that is not an article emits no article tags |
| Header.IsActive | src/components/Header.tsx:35-39 | the home link is active exactly on "/"; any other link exactly where the path starts with it |
| Header.ActiveOnOwnPage | src/components/Header.tsx:35-39 | every link is active on its own page |
| Header.ActiveOnLongerPaths | src/components/Header.tsx:37 | a non-home link stays active on paths extending the current one |
| Header.HomeOnlyAtRoot | src/components/Header.tsx:36 | the home link is inactive away from "/" |
| Header.BlogActiveOnBlogger | src/components/Header.tsx:37 | "/blog" is active on "/blogger" |
| Header.HeaderState.constructor | src/components/Header.tsx:5-7 | menu closed and not scrolled |
| Header.HeaderState.ToggleMobileMenu | src/components/Header.tsx:189 | the menu flag flips and nothing else changes |
| Header.HeaderState.CloseMobileMenu | src/components/Header.tsx:216 | any menu link closes the menu |
| Header.HeaderState.HandleScroll | src/components/Header.tsx:13-15 | scrolled exactly when the offset is over 10 |
| NotFoundPage.Suggestions | src/pages/NotFoundPage.tsx:7-14 | the six suggestions |
| NotFoundPage.Matches | src/pages/NotFoundPage.tsx:22-26 | a match needs the query to be no longer than the title or the description it occurs in |
| NotFoundPage.FilterSuggestions | src/pages/NotFoundPage.tsx:18-29 | a blank query lists everything; any other lists, in order, exactly the suggestions whose lower-cased title or description contains the lower-cased query, each as many times as it is on offer |
| NotFoundPage.ShownIffMatches | src/pages/NotFoundPage.tsx:22-26 | a suggestion is listed exactly when it is on offer and matches |
| NotFoundPage.CaseInsensitive | src/pages/NotFoundPage.tsx:24-25 | queries differing only in case list the same suggestions |
| NotFoundPage.ShowsNoResults | src/pages/NotFoundPage.tsx:124 | "No results found" shows exactly when the list is empty, which a blank query never gives |
| NotFoundPage.PaddedQueryMissesBlog | src/pages/NotFoundPage.tsx:19-25 | the query is matched untrimmed: " blog" misses the Blog page that "blog" finds |
| NotFoundPage.MissingCharacter | src/pages/NotFoundPage.tsx:24-25 | a string lacking some character of the query does not contain it |
| Api.ApiBaseUrl | src/utils/api.ts:2 | the configured address when it is non-empty, else the default |
| Api.InitialHeaders | src/utils/api.ts:19-21 | exactly Content-Type: application/json |
| Api.WithAuthToken | src/utils/api.ts:80-82 | Authorization becomes "Bearer " + token and every other header is unchanged |
| Api.WithoutAuthToken | src/utils/api.ts:84-86 | only Authorization is removed |
| Api.SetThenRemoveAuthToken | src/utils/api.ts:80-86 | setting then removing the token restores a dictionary that had none |
| Api.SetAuthTokenTwice | src/utils/api.ts:80-82 | the second token replaces the first |
| Api.AuthTokenOnlyTouchesAuthorization | src/utils/api.ts:80-86 | apart from Authorization the dictionary is unchanged |
| Api.MergeHeaders | src/utils/api.ts:32-35 | per-call headers win key by key; the defaults fill in the rest |
| Api.RequestUrl | src/utils/api.ts:29 | the base address followed by the endpoint |
| Api.ProductDetails | src/utils/api.ts:120 | the path starts with "/products/" |
| Api.ProductDetailsRoundTrip | src/utils/api.ts:120 | the id reads back from its path |
| Api.ProductIdOf | src/utils/api.ts:120 | a path names an id exactly when it starts with the products prefix, and that id's details path is the path |
| Api.ProductPathRoundTrip | src/utils/api.ts:120 | every path under the prefix is the details path of the id it names |
| Api.ApiClient.constructor | src/utils/api.ts:17-22 | the given base address and the initial headers |
| Api.ApiClient.SetAuthToken | src/utils/api.ts:80-82 | the headers become `WithAuthToken` of the old ones |
| Api.ApiClient.RemoveAuthToken | src/utils/api.ts:84-86 | the headers become `WithoutAuthToken` of the old ones |
| Api.ApiClient.RequestFor | src/utils/api.ts:29-36 | the address and the merged headers handed to `fetch` |
| Api.HandleApiError | src/utils/api.ts:225-239 | a string as it is, else a truthy message, else a truthy error, else the fixed fallback |
| Api.HandleApiErrorEmpty | src/utils/api.ts:225-239 | only a thrown empty string gives an empty message |
| Api.ThrownError | src/pages/ContactPage.tsx:52 | the handler shows a thrown Error's message, or the fallback when the message is empty |
| Api.HandleThrownError | src/utils/api.ts:230-232 | a thrown Error's non-empty message is shown as it is |
| TimeWalletPage.Tick | src/pages/TimeWalletPage.tsx:18-24 | a used-up balance is held at 0, any other loses one; never negative |
| TimeWalletPage.BalanceAfter | src/pages/TimeWalletPage.tsx:18-24 | after a tick the balance is never negative and never above the start |
| TimeWalletPage.Countdown | src/pages/TimeWalletPage.tsx:18-24 | `k` ticks from `start` leave `start − k`, or 0 once it is used up |
| TimeWalletPage.DemoCountdown | src/pages/TimeWalletPage.tsx:5-24 | from 120, `k` ticks leave `120 − k` up to 120 ticks and 0 after |
| TimeWalletPage.BalanceTier | src/pages/TimeWalletPage.tsx:87-96 | exactly one tier: below 30, below 60, or the rest |
| TimeWalletPage.BalanceTextClass | src/pages/TimeWalletPage.tsx:88 | the figure's colour per tier |
| TimeWalletPage.BalanceBarClass | src/pages/TimeWalletPage.tsx:95 | the bar's colour per tier |
| TimeWalletPage.TickNeverImprovesTier | src/pages/TimeWalletPage.tsx:18-24 | a tick never moves the balance to a healthier tier |
| TimeWalletPage.Apps | src/pages/TimeWalletPage.tsx:8-13 | the four apps |
| TimeWalletPage.AppStatus | src/pages/TimeWalletPage.tsx:120-126 | Over exactly above the limit, Limit exactly at it, Good exactly below |
| TimeWalletPage.StatusText | src/pages/TimeWalletPage.tsx:126 | one of "Over", "Limit" or "Good" |
| TimeWalletPage.StatusTextDistinct | src/pages/TimeWalletPage.tsx:126 | the badge text determines the status |
| TimeWalletPage.DemoStatuses | src/pages/TimeWalletPage.tsx:8-13 | the data shows Over, Over, Limit and Good |
| TimeWalletPage.TimeWallet.constructor | src/pages/TimeWalletPage.tsx:5-6 | 120 minutes, demo off |
| TimeWalletPage.TimeWallet.StartDemo | src/pages/TimeWalletPage.tsx:16 | the demo is on and the balance unchanged |
| TimeWalletPage.TimeWallet.TickOnce | src/pages/TimeWalletPage.tsx:18-24 | the balance becomes `Tick` of the old one; the interval stops exactly when it was used up |
| TimeWalletPage.TimeWallet.RunTicks | src/pages/TimeWalletPage.tsx:17-25 | `k` firings leave `BalanceAfter(old balance, k)` |
| TimeWalletPage.TimeWallet.EndDemo | src/pages/TimeWalletPage.tsx:27-31 | the demo ends and the balance is 120 again |
| CareersPage.Jobs | src/pages/CareersPage.tsx:7-62 | the six openings |
| CareersPage.Departments | src/pages/CareersPage.tsx:97 | the filter buttons, "all" first |
| CareersPage.FilteredJobs | src/pages/CareersPage.tsx:99-101 | "all" lists every opening; any other department lists exactly its openings, in order, each as many times as the page holds it |
| CareersPage.ShowsNoPositions | src/pages/CareersPage.tsx:276 | "No positions found" shows exactly when the filtered list is empty, which for "all" means there are no openings |
| CareersPage.DepartmentsHaveOpenings | src/pages/CareersPage.tsx:97-101 | every listed department has an opening, so "No positions found" never shows for one |
| BlogPage.Posts | src/pages/BlogPage.tsx:7-63 | the six posts |
| BlogPage.Categories | src/pages/BlogPage.tsx:65 | the category buttons, "all" first |
| BlogPage.FilteredPosts | src/pages/BlogPage.tsx:67-69 | "all" lists every post; any other category lists exactly its posts, in order, each as many times as the page holds it |
| BlogPage.IsFeatured | src/pages/BlogPage.tsx:71 | the test `find` applies: the post's featured flag |
| BlogPage.ShowsNoArticles | src/pages/BlogPage.tsx:204 | "No articles found" shows exactly when the filtered list is empty, and then the grid is empty as well |
| BlogPage.FeaturedPost | src/pages/BlogPage.tsx:71 | the first featured post, or none when no post is featured |
| BlogPage.RegularPosts | src/pages/BlogPage.tsx:72 | exactly the posts not featured, in order |
| BlogPage.FeaturedAndRegularPartition | src/pages/BlogPage.tsx:71-72 | featured and regular posts together hold every post exactly once |
| BlogPage.GridPosts | src/pages/BlogPage.tsx:167 | the grid holds exactly the filtered posts that are not featured |
| BlogPage.GridForAllIsRegular | src/pages/BlogPage.tsx:167 | under "all" the grid is the regular posts |
| BlogPage.GridForCategory | src/pages/BlogPage.tsx:167 | under a category the grid is that category's regular posts, in order |
| BlogPage.FirstPostIsFeatured | src/pages/BlogPage.tsx:7-71 | the data features its first post |
| BlogPage.EmptyGridWithoutEmptyState | src/pages/BlogPage.tsx:204 | a filtered list of only featured posts leaves the grid empty while ShowsNoArticles is false |
| Strings.Trim | src/utils/validation.ts:67 | the result is empty exactly for an all-white-space string, and otherwise neither starts nor ends with white space |
| Strings.TrimIsSlice | src/utils/validation.ts:67 | trimming removes white space from the two ends only |
| Strings.TrimLengthAtLeastTwo | src/utils/validation.ts:45 | the trimmed length is at least two exactly when two characters are not white space |
| Strings.ToLower | src/pages/NotFoundPage.tsx:22-26 | same length; each ASCII upper-case letter becomes its lower-case letter and every other character is kept |
| Strings.StartsWith | src/components/SEOHead.tsx:28 | a string starts with a prefix exactly when it is that prefix followed by the rest |
| Strings.Contains | src/components/SEOHead.tsx:27 | a string only contains what is no longer than itself |
| Strings.NatToString | src/pages/PricingPage.tsx:108 | a non-empty run of decimal digits, with a leading '0' only for zero |
| Strings.IntToString | src/pages/PricingPage.tsx:116 | a leading '-' exactly for a negative number, then decimal digits |
| Strings.ToLowerKeepsWhitespace | src/pages/NotFoundPage.tsx:19-25 | lower-casing keeps a query blank exactly when it was |
| Strings.ParseNatToString | src/pages/PricingPage.tsx:108 | the decimal rendering of a figure reads back as that figure |
| Strings.ParseIntToString | src/pages/PricingPage.tsx:116 | the same for any integer, sign included |
| Seqs.Filter | src/pages/CareersPage.tsx:101 | every kept element is in the input and passes; every passing element is kept |
| Seqs.FilterIsSubsequence | src/pages/CareersPage.tsx:101 | a filter keeps order |
| Seqs.FilterCount | src/pages/CareersPage.tsx:101 | a filter keeps each passing value as many times as the input holds it, and no other |
| Seqs.FilterPartition | src/pages/BlogPage.tsx:71-72 | complementary filters split a sequence into two parts with the same multiset |
| Seqs.FilterTwice | src/pages/BlogPage.tsx:167 | filtering twice is filtering once by both tests |
| Seqs.Find | src/pages/BlogPage.tsx:71 | the first element passing the test, or none exactly when none passes |

## Left out

- `isValidURL` delegates to the browser's `URL` parser. It is a parameter `isValidUrl` of the validator, so the model says nothing about which addresses it accepts.
- Calling `fetch` and reading `response.json` in `ApiClient.request`, the mocked `contactAPI`, `newsletterAPI` and `authAPI` promises, and the thin `get`/`post`/`put`/`delete` wrappers are all network I/O and timers. The model covers only the address and headers that a request carries (`ApiClient.RequestFor`).
- Analytics tracking, toasts, the alert and the console output are side effects. A toast and the alert come back as return values (`Notice`, `mismatch`); the tracking calls are left out.
- Asynchronous interleavings are left out: a second submit while the first is in flight, or ticks racing the ten-second timeout. Each handler is modelled as a step run to completion.
- The Time Wallet progress-bar width, the signup strength-bar width and the other pixel and percentage styling are floating-point UI values used for display only.
- `showPassword` and `showConfirmPassword`, logo hover and load state, and the selected-plan highlight are cosmetic toggles with no logic.
- The SEO head's structured-data block and the plain meta tags copy their props through unchanged.
- Strings.ToLower: lowers ASCII letters only. Full Unicode case mapping is a large table outside this model. The suggestions and their sample queries are ASCII.
- String lengths count code points, not UTF-16 code units. They differ only for characters outside the Basic Multilingual Plane.
- PricingPage.SavingsPercent: computed on exact rationals rather than IEEE doubles, so rounding error in the division is not modelled.
- The pages that only render content are left out. These are the about, product, support, login and home pages, together with the footer, hero, theme and error-boundary components; none of them holds logic.
