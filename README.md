# Quiz app rule engines in Dafny

This project models the rule logic of a React Native quiz app written in
TypeScript. The app is mostly screens and API wrappers. What decides
anything is a set of small rule engines, and each one becomes a Dafny module
with proofs about it:

- **Review prompt** (`ReviewStorage`, `ReviewPrompt`). A key-value store holds
  three entries as strings: the dismiss count, the quiz count at the last
  review, and a don't-ask-again flag. A policy decides when to ask for a
  rating: at every tenth quiz, fewer than five dismissals, not opted out, and
  not already reviewed at that count. The `useReviewPrompt` hook updates the
  store on dismiss, opt-out and a submitted review. The store is a class
  over a `map<string, string>`. Counts pass through `toString`/`parseInt`,
  modelled in `Decimal` with both round trips proved.
- **Local user registry** (`MockAuth`). A stored list of users grows only by
  users whose email is new. Login returns the first user matching both
  credentials.
- **Question selection** (`QuizHelpers`). A Fisher-Yates loop runs in
  place on a fresh copy of the array; the first `count` questions are then
  kept. The loop is proved against a recursive specification `Shuffled`,
  which is proved to be a permutation.
- **Score statistics** (`ScoreStats`). Totals, the rounded accuracy and
  average, the best quiz, and the colour and label of a score. Division is
  exact rational division, with JavaScript's `Infinity` and `NaN` for
  division by zero.
- **Registration validators** (`Validation`). Each rule set is checked in
  react-hook-form's order: required, then minLength, then pattern, then
  validate; the first failing rule's message wins. Each regular expression
  becomes a predicate over characters.
- **Password reset** (`ResetPassword`). A PIN step and a password step,
  with ordered checks that gate one reset request.
- **Review modal** (`ReviewModal`). Star rating, feedback, a guarded
  submit, payload construction, and reset on success versus keep on failure.
- **Avatar initials** (`Avatar`). Split on spaces, take first characters,
  upper-case, keep two.

`Text` holds the ECMAScript character classes and `trim`. `Wrappers` holds
`Option`/`Outcome`, and `Toasts` the toast record.

Inputs that the app takes from its environment are parameters of the model:
- `Math.random()` results are a sequence of reals in [0, 1), one per loop
  iteration.
- The outcome of each network request is a parameter of its handler.
- The signed-in user's profile is a constant of the modal.

Nothing here calls the network, a clock or storage.

The repository has no quiz-session runner. `screen/QuizScreen.tsx` is a
static placeholder, and its state type is unused.

## Model

| member | source | states |
|---|---|---|
| `Decimal.Format` | utils/reviewStorage.ts:43 | `n.toString()` is a canonical numeral: digits only, no leading zero, and it begins with `0` exactly when `n` is 0 |
| `Decimal.Parse` | utils/reviewStorage.ts:37 | `parseInt(s, 10)` on a non-empty string of digits reads 0 exactly when every digit is `0`, so leading zeros add nothing |
| `Decimal.ParseFormat` | utils/reviewStorage.ts:37 | `parseInt(n.toString(), 10) == n` for every natural `n` |
| `Decimal.FormatParse` | utils/reviewStorage.ts:43 | every canonical numeral is the `toString` of the number it parses to |
| `ReviewStorage.ReadCount` | utils/reviewStorage.ts:35-38 | a missing count reads as 0; a present one reads as the number whose numeral is stored |
| `ReviewStorage.CountRoundTrip` | utils/reviewStorage.ts:51-58 | writing `n.toString()` under a count key and reading it back gives `n` |
| `ReviewStorage.DismissCount` | utils/reviewStorage.ts:35-38 | `getDismissCount`: 0 while nothing is stored, otherwise the number whose numeral is stored |
| `ReviewStorage.LastReviewQuizCount` | utils/reviewStorage.ts:51-54 | `getLastReviewQuizCount`: 0 while nothing is stored, otherwise the number whose numeral is stored |
| `ReviewStorage.BoolText` | utils/reviewStorage.ts:66 | `value.toString()` of a boolean, `"true"` or `"false"`; `FlagRoundTrip` reads it back |
| `ReviewStorage.DontAskAgain` | utils/reviewStorage.ts:60-63 | `getDontAskAgain`: true exactly when the entry holds `"true"`; `FlagReadsText` gives its readings |
| `ReviewStorage.FlagReadsText` | utils/reviewStorage.ts:60-67 | with nothing stored the flag reads false; after any text is written it reads true exactly when that text is `"true"`, which is what `setDontAskAgain(true)` writes |
| `ReviewStorage.FlagRoundTrip` | utils/reviewStorage.ts:60-67 | `setDontAskAgain(b)` then `getDontAskAgain()` gives `b` |
| `ReviewStorage.ShouldShowReview` | utils/reviewStorage.ts:69-86 | the prompt shows iff not opted out, dismissed fewer than 5 times, the count is a multiple of 10, and the count exceeds the last reviewed count |
| `ReviewStorage.MarkedAsReviewed` | utils/reviewStorage.ts:88-91 | the store after `markAsReviewed(c)`: the last count written as `c`, then the dismiss entry removed; `MarkedAsReviewedState` gives its readings |
| `ReviewStorage.MarkedAsReviewedState` | utils/reviewStorage.ts:88-91 | after `markAsReviewed(c)` the last count reads `c`, the dismiss count reads 0, the flag is unchanged, and the prompt is not due at `c` |
| `ReviewStorage.NextPromptAfterReview` | utils/reviewStorage.ts:79-83 | after a review at `c`, a later prompt comes only at a larger multiple of 10, at least `c + 10` when `c` was one |
| `ReviewStorage.SilencedForever` | utils/reviewStorage.ts:71-76 | once opted out or dismissed 5 times, the prompt shows for no count |
| `ReviewStorage.ReviewStore.constructor` | utils/reviewStorage.ts:11-32 | the store starts from a given map of well-formed entries |
| `ReviewStorage.ReviewStore.SetItem` | utils/reviewStorage.ts:18-24 | the map gains exactly the one entry |
| `ReviewStorage.ReviewStore.RemoveItem` | utils/reviewStorage.ts:25-31 | the map loses exactly the one key |
| `ReviewStorage.ReviewStore.IncrementDismissCount` | utils/reviewStorage.ts:40-45 | returns the previous count plus one, which a following read returns; the other two entries are unchanged |
| `ReviewStorage.ReviewStore.ResetDismissCount` | utils/reviewStorage.ts:47-49 | removes the dismiss entry so it reads 0; the other two entries are unchanged |
| `ReviewStorage.ReviewStore.SetLastReviewQuizCount` | utils/reviewStorage.ts:56-58 | the last count reads back as written; the other two entries are unchanged |
| `ReviewStorage.ReviewStore.SetDontAskAgain` | utils/reviewStorage.ts:65-67 | the flag reads back as written; both counts are unchanged |
| `ReviewStorage.ReviewStore.MarkAsReviewed` | utils/reviewStorage.ts:88-91 | the store becomes the marked map: last count `c`, dismissals cleared, flag kept, prompt not due at `c` |
| `ReviewPrompt.ReviewPromptState.constructor` | hooks/use-review-prompt.ts:5-6 | initially not shown and checking |
| `ReviewPrompt.ReviewPromptState.CheckShouldShow` | hooks/use-review-prompt.ts:12-17 | `shouldShow` becomes the policy's answer for the current count, and checking ends |
| `ReviewPrompt.ReviewPromptState.QuizzesCompletedChanged` | hooks/use-review-prompt.ts:8-10 | a changed quiz count re-runs the check; an unchanged one changes nothing |
| `ReviewPrompt.ReviewPromptState.HandleDismiss` | hooks/use-review-prompt.ts:19-27 | the dismiss count grows by exactly one and the prompt hides; from the fifth dismissal the flag is set and no count shows the prompt again |
| `ReviewPrompt.ReviewPromptState.HandleDontAskAgain` | hooks/use-review-prompt.ts:29-32 | the flag is written true, the prompt hides, and no count shows it again |
| `ReviewPrompt.ReviewPromptState.HandleSubmitSuccess` | hooks/use-review-prompt.ts:34-37 | the current count is marked reviewed and the prompt hides |
| `MockAuth.FirstMatch` | utils/mock-auth.ts:23 | the index of the first user matching both credentials, every earlier user failing to match, or the length when none matches |
| `MockAuth.AppendKeepsDistinct` | utils/mock-auth.ts:13-18 | appending a user whose email is new keeps stored emails pairwise distinct |
| `MockAuth.UserRegistry.constructor` | utils/mock-auth.ts:3-8 | nothing is stored at first, and the no-repeated-email invariant holds |
| `MockAuth.UserRegistry.GetUsers` | utils/mock-auth.ts:5-8 | the stored list, or the empty list when nothing is stored; no email occurs in it twice, since only `saveUser` writes it and it refuses a present email |
| `MockAuth.UserRegistry.SaveUser` | utils/mock-auth.ts:10-19 | a present email fails with "Email already exists" and the entry is unchanged; a new one is appended at the end; the no-repeated-email invariant is kept |
| `MockAuth.UserRegistry.LoginUser` | utils/mock-auth.ts:21-25 | a result is a stored user matching both credentials and is the first such; none is returned iff no stored user matches |
| `QuizHelpers.RandomIndex` | utils/quizHelpers.ts:7 | `Math.floor(r * (i + 1))` for `r` in [0, 1) is an index from 0 to `i` |
| `QuizHelpers.Draws` | utils/quizHelpers.ts:6-7 | the index drawn in iteration `k` is at most `k` |
| `QuizHelpers.Swap` | utils/quizHelpers.ts:8 | the destructuring swap keeps length and multiset |
| `QuizHelpers.Shuffled` | utils/quizHelpers.ts:4-11 | the loop read recursively: the last index is swapped with its drawn position and kept, the prefix before it is shuffled; the length is kept |
| `QuizHelpers.ShuffledIsPermutation` | utils/quizHelpers.ts:4-11 | the shuffle returns a permutation of its input |
| `QuizHelpers.ShortArraysUnchanged` | utils/quizHelpers.ts:6 | arrays of length 0 or 1 come back unchanged |
| `QuizHelpers.ShuffleStep` | utils/quizHelpers.ts:6-9 | one iteration's swap at `i` keeps the loop's invariant with `i - 1` |
| `QuizHelpers.ShuffleStart` | utils/quizHelpers.ts:6 | the invariant holds before the first iteration |
| `QuizHelpers.ShuffleDone` | utils/quizHelpers.ts:6 | when the loop stops, the array is the specified shuffle |
| `QuizHelpers.SwapElements` | utils/quizHelpers.ts:8 | the array becomes the swap of its old contents |
| `QuizHelpers.ShuffleIteration` | utils/quizHelpers.ts:7-8 | the body of the loop keeps the invariant |
| `QuizHelpers.ShuffleInPlace` | utils/quizHelpers.ts:6-9 | the loop leaves the array holding `Shuffled` of its old contents under the drawn indices |
| `QuizHelpers.ShuffleArray` | utils/quizHelpers.ts:4-11 | returns a fresh array holding the shuffle of the input, a permutation of it; the input is only read |
| `QuizHelpers.SliceEnd` | utils/quizHelpers.ts:19 | where `slice(0, end)` stops never passes the array's length |
| `QuizHelpers.Slice` | utils/quizHelpers.ts:19 | a fresh array holding a prefix: `min(end, n)` elements for a non-negative `end`, and `max(n + end, 0)` for a negative one, which counts from the back |
| `QuizHelpers.PrefixWithin` | utils/quizHelpers.ts:19 | a prefix holds no element more often than the whole |
| `QuizHelpers.SelectionWithinInput` | utils/quizHelpers.ts:14-20 | a prefix of the shuffle takes no question more often than the input has it, and only questions of the input |
| `QuizHelpers.GetRandomQuestions` | utils/quizHelpers.ts:14-20 | the first `count` (default 5) of the shuffled copy: `min(count, n)` questions for non-negative `count`, `max(n + count, 0)` for a negative one; each from the input, none more often than in the input |
| `ScoreStats.Round` | screen/ScoreScreen.tsx:28-29 | `Math.round` gives the integer within half a point, halves going up; `NaN` and `Infinity` pass through |
| `ScoreStats.Divide` | screen/ScoreScreen.tsx:57 | `a / b` is finite exactly when `b > 0`, and then a non-negative `q` with `q * b == a`; `NaN` exactly for 0 / 0, otherwise `Infinity` |
| `ScoreStats.TotalScore` | screen/ScoreScreen.tsx:20-23 | the sum of the scores, 0 exactly when every quiz scored 0 |
| `ScoreStats.TotalPossible` | screen/ScoreScreen.tsx:24-27 | the sum of the question counts, 0 exactly when no quiz has a question, which is when the accuracy divides by zero |
| `ScoreStats.TotalScoreAtMostPossible` | screen/ScoreScreen.tsx:20-27 | with no quiz scoring above its question count, the total score is at most the total possible |
| `ScoreStats.OverallAccuracy` | screen/ScoreScreen.tsx:28 | the integer nearest to 100 times total score over total possible; `NaN` for 0/0 and no finite value when nothing was possible |
| `ScoreStats.ScaledRatioBounds` | screen/ScoreScreen.tsx:28 | a ratio of at most one scaled by 100 lies in [0, 100] |
| `ScoreStats.OverallAccuracyInRange` | screen/ScoreScreen.tsx:28 | with consistent scores the accuracy is an integer from 0 to 100 |
| `ScoreStats.AverageScore` | screen/ScoreScreen.tsx:29 | the integer nearest to the mean score; `NaN` for an empty history |
| `ScoreStats.Percentage` | screen/ScoreScreen.tsx:57 | `(score / total) * 100` is finite exactly when the quiz has questions, and then `p * total == 100 * score`; otherwise JavaScript's value for division by zero |
| `ScoreStats.BestIndex` | screen/ScoreScreen.tsx:32-36 | when every quiz has at least one question, the best quiz has the greatest ratio and every earlier quiz a strictly smaller one, so ties go to the earliest |
| `ScoreStats.BestQuiz` | screen/ScoreScreen.tsx:32-36 | `bestQuiz` is in the history, which must not be empty; when every quiz has at least one question, no quiz has a greater ratio |
| `ScoreStats.ScaledRatioAtLeast` | screen/ScoreScreen.tsx:57-59 | `(a / b) * 100 >= k` exactly when `100a >= kb` |
| `ScoreStats.GetScoreColor` | screen/ScoreScreen.tsx:56-61 | green iff at least 80%, orange iff from 60% to below 80%, otherwise red; with no questions, green for a positive score and red for 0 |
| `ScoreStats.GetPerformanceLabel` | screen/ScoreScreen.tsx:63-69 | Excellent from 90, Great from 80, Good from 70, Fair from 60, else Needs Improvement; each band in both directions |
| `ScoreStats.LabelMonotone` | screen/ScoreScreen.tsx:63-69 | a higher percentage never gets a lower label |
| `ScoreStats.HistoryCardOf` | screen/ScoreScreen.tsx:216-224 | the card's percentage is the rounded ratio, its colour comes from the unrounded ratio and its label from the rounded one |
| `ScoreStats.ColorBands` | screen/ScoreScreen.tsx:56-61 | the colour bands stated on the exact percentage |
| `ScoreStats.RoundedBands` | screen/ScoreScreen.tsx:217-219 | rounding never moves a value across an integer threshold by more than half a point |
| `ScoreStats.CardColorAndLabel` | screen/ScoreScreen.tsx:216-224 | a green card is Great or better, an orange one Fair to Great, a red one Fair or worse; they disagree only for percentages in [79.5, 80) or [59.5, 60) |
| `ScoreStats.LabelAndColorDisagree` | screen/ScoreScreen.tsx:216-224 | 199 of 250 (79.6%) is labelled Great and drawn orange |
| `Text.Upper` | components/ui/avatar.tsx:12 | upper-casing keeps the length and works character by character |
| `Text.TrimStart` | app/modal.tsx:59 | removes leading whitespace only: a suffix whose first character is not whitespace |
| `Text.TrimEnd` | app/modal.tsx:59 | removes trailing whitespace only: a prefix whose last character is not whitespace |
| `Text.Trim` | app/modal.tsx:59 | the result has no whitespace at either end and is empty exactly when the input is all whitespace |
| `Text.TrimStartAfter` | app/modal.tsx:59 | whitespace in front of a string that starts otherwise is all that is removed |
| `Text.TrimEndBefore` | app/modal.tsx:59 | whitespace behind a string that ends otherwise is all that is removed |
| `Text.TrimAround` | app/modal.tsx:59 | `trim` of whitespace, a trimmed core and whitespace is the core |
| `Text.TrimIdempotent` | app/modal.tsx:59 | trimming twice is trimming once |
| `Validation.ValidateFullName` | utils/validation.ts:10-20 | no error iff at least 3 characters, all ASCII letters or whitespace; otherwise the required, length or pattern message, each in exactly its case |
| `Validation.ValidateEmail` | utils/validation.ts:28-34 | no error iff the address pattern matches; "Email is required" exactly for the empty string, "Invalid email address" otherwise |
| `Validation.EmailFromParts` | utils/validation.ts:31 | a local part, a domain and a suffix of two or more letters that fit their classes make an address |
| `Validation.EmailSplitUnique` | utils/validation.ts:31 | a match has one `@` and its `.` is the last dot, so the split is unique |
| `Validation.EmailCaseInsensitive` | utils/validation.ts:31 | under the `i` flag, upper-casing an address does not change whether it matches |
| `Validation.UpperKeepsChars` | utils/validation.ts:31 | upper-casing leaves no lower-case letter, raises each lower-case one, keeps every other character, and so keeps each character class of the address pattern and both separators |
| `Validation.ValidatePassword` | utils/validation.ts:41-51 | no error iff at least 8 characters and the three lookaheads succeed; otherwise the required, length or pattern message, each in exactly its case |
| `Validation.PasswordOnOneLine` | utils/validation.ts:48 | on one line the pattern asks exactly for a lower-case letter, an upper-case letter and a digit somewhere |
| `Validation.PasswordExtends` | utils/validation.ts:48 | the lookaheads restrict nothing else: any text appended to an accepted password keeps it accepted |
| `Validation.ValidateConfirmPassword` | utils/validation.ts:58-63 | no error iff non-empty and equal to the password; "Please confirm your password" exactly for the empty string, "Passwords do not match" otherwise |
| `Validation.AcceptedConfirmationIsStrong` | utils/validation.ts:4-65 | an accepted registration has a confirmation equal to a strong password of length at least 8, and an email containing `@` |
| `Validation.EmailExamples` | utils/validation.ts:31 | "user@example.com" matches; "user@example.c" does not |
| `Validation.NamePattern` | utils/validation.ts:17 | `/^[a-zA-Z\s]+$/`: at least one character, each an ASCII letter or `\s` whitespace |
| `Validation.EmailPattern` | utils/validation.ts:31 | the address regex: some split at an `@` and a later `.` into a local part, a domain and at least two letters, each part in its class |
| `Validation.PasswordPattern` | utils/validation.ts:48 | the three lookaheads: each finds its class at a position that `.*` reaches from the start |
| `ResetPassword.InitialStep` | screen/ResetPasswordScreen.tsx:29-31 | the step is never empty; the screen opens on the PIN form exactly when the `step` parameter is missing, empty or `"pin"`; any other text, such as `"foo"`, is kept as the step and opens the password form |
| `ResetPassword.ShowsPinForm` | screen/ResetPasswordScreen.tsx:153 | the PIN form is shown exactly when the step is `"pin"`, the password form for every other step |
| `ResetPassword.PinAccepted` | screen/ResetPasswordScreen.tsx:43 | the PIN step accepts exactly a PIN of six characters, digits or not |
| `ResetPassword.FailureMessage` | screen/ResetPasswordScreen.tsx:95-99 | the response's message if truthy, else the error's message if truthy, else "Failed to reset password"; never empty |
| `ResetPassword.PasswordCheck` | screen/ResetPasswordScreen.tsx:56-78 | passes iff both fields are non-empty, equal and at least 8 long; otherwise the missing-field, mismatch or length message, in that order |
| `ResetPassword.ContinueDisabled` | screen/ResetPasswordScreen.tsx:189 | Continue is disabled while loading or for a PIN not six characters long |
| `ResetPassword.ResetDisabled` | screen/ResetPasswordScreen.tsx:267 | Reset is disabled while loading or while either password field is empty |
| `ResetPassword.ButtonsMatchFirstChecks` | screen/ResetPasswordScreen.tsx:189-267 | when not loading, Continue is disabled exactly when the PIN is refused, and Reset exactly when the missing-field check fails |
| `ResetPassword.ResetPasswordForm.constructor` | screen/ResetPasswordScreen.tsx:29-37 | the form starts at the initial step with empty fields and no toast |
| `ResetPassword.ResetPasswordForm.SetPin` | screen/ResetPasswordScreen.tsx:32 | sets the PIN and nothing else |
| `ResetPassword.ResetPasswordForm.SetNewPassword` | screen/ResetPasswordScreen.tsx:33 | sets the new password and nothing else |
| `ResetPassword.ResetPasswordForm.SetConfirmPassword` | screen/ResetPasswordScreen.tsx:34 | sets the confirmation and nothing else |
| `ResetPassword.ResetPasswordForm.HandlePinSubmit` | screen/ResetPasswordScreen.tsx:42-53 | a PIN of length 6 moves to the password step; any other length leaves the step and shows the PIN error; digits are not checked |
| `ResetPassword.ResetPasswordForm.HandlePasswordSubmit` | screen/ResetPasswordScreen.tsx:55-105 | a request `{token: pin, password, confirmPassword}` is sent iff every check passes; the toast is the first failed check's message, the success message, or the failure fallback |
| `ResetPassword.ResetPasswordForm.BackToPinEntry` | screen/ResetPasswordScreen.tsx:283-285 | back to the PIN step, keeping the PIN and both passwords |
| `ReviewModal.Payload` | app/modal.tsx:55-60 | the name, or "Anonymous", and the email, or "", of the user; the rating; the feedback trimmed, empty exactly when it was all whitespace |
| `ReviewModal.PayloadFeedbackTrimmed` | app/modal.tsx:59 | feedback with whitespace around a core is sent as the core |
| `ReviewModal.CountFilled` | app/modal.tsx:130-138 | at most five stars are filled |
| `ReviewModal.FilledStarsArePrefix` | app/modal.tsx:130-138 | a rating of 1 to 5 fills exactly that many stars, the first ones |
| `ReviewModal.ReviewForm.StarFilled` | app/modal.tsx:138 | star `k` is drawn filled exactly when `k <= rating` |
| `ReviewModal.ReviewForm.SubmitDisabled` | app/modal.tsx:180 | the submit button, like both dismiss buttons (app/modal.tsx:194, 204), is disabled exactly while submitting |
| `ReviewModal.ReviewForm.constructor` | app/modal.tsx:34-37 | rating 0, empty feedback, not submitting, no toast, no callbacks yet |
| `ReviewModal.ReviewForm.HandleStarPress` | app/modal.tsx:39-41 | the pressed star becomes the rating, and stars up to it are filled |
| `ReviewModal.ReviewForm.SetFeedback` | app/modal.tsx:166 | sets the feedback and nothing else |
| `ReviewModal.ReviewForm.HandleSubmit` | app/modal.tsx:43-60 | with rating 0, an error toast and nothing sent; otherwise the payload is sent, the form is submitting and its buttons are disabled |
| `ReviewModal.ReviewForm.SubmitSettled` | app/modal.tsx:62-82 | success thanks the user, clears rating and feedback and calls `onSubmitSuccess`; failure shows the error and keeps both; either way submitting ends and the buttons are enabled again |
| `ReviewModal.ReviewForm.HandleDontAskAgain` | app/modal.tsx:85-89 | clears rating and feedback, then calls `onDontAskAgain` |
| `ReviewModal.ReviewForm.HandleMaybeLater` | app/modal.tsx:91-95 | clears rating and feedback, then calls `onClose` |
| `ReviewModal.SubmitRound` | app/modal.tsx:43-83 | a submit sends exactly when a star is chosen and always ends with the form not submitting |
| `Avatar.Split` | components/ui/avatar.tsx:9 | `split(" ")` gives at least one piece and no piece holds a space |
| `Avatar.JoinSpaces` | components/ui/avatar.tsx:9 | `join(" ")`, the inverse that `JoinSplit` proves for `split(" ")` |
| `Avatar.JoinSplit` | components/ui/avatar.tsx:9 | joining the pieces with spaces gives the name back |
| `Avatar.FirstChars` | components/ui/avatar.tsx:10-11 | `map((n) => n[0]).join("")`: each piece's first character, an empty piece adding nothing |
| `Avatar.FirstCharsAreWordStarts` | components/ui/avatar.tsx:10-11 | the first characters of the pieces are exactly the characters that begin a word; empty pieces add nothing |
| `Avatar.WordStarts` | components/ui/avatar.tsx:10-11 | there are never more word starts than characters |
| `Avatar.TakeTwo` | components/ui/avatar.tsx:13 | `slice(0, 2)` keeps the first two characters, or all when fewer |
| `Avatar.Initials` | components/ui/avatar.tsx:8-13 | at most two characters: the upper-cased word starts of the name, in order |
| `Avatar.ExtraSpacesIgnored` | components/ui/avatar.tsx:10-11 | spaces in front of or behind a name change no initial |
| `Avatar.WordThen` | components/ui/avatar.tsx:10-11 | a word contributes its first character once, when it follows a space or starts the name |
| `Avatar.TwoWords` | components/ui/avatar.tsx:8-13 | two words give their two upper-cased first characters |
| `Avatar.InitialsJohnDoe` | components/ui/avatar.tsx:8-13 | "John Doe" gives "JD" |
| `Avatar.StartsOfBoCy` | components/ui/avatar.tsx:10-11 | the words after the first of " Bo Cy" start with B and C |
| `Avatar.InitialsThreeWords` | components/ui/avatar.tsx:13 | a third word's initial is cut off: "Al Bo Cy" gives "AB" |
| `Avatar.InitialsEmpty` | components/ui/avatar.tsx:8-13 | an empty name gives "" |
| `Avatar.InitialsLeadingSpaces` | components/ui/avatar.tsx:10-12 | leading spaces add nothing and a lower-case initial is raised: "  ada" gives "A" |

## Left out

- Storage backends. The AsyncStorage/localStorage branch of utils/reviewStorage.ts:11-32 is one map. The JSON encoding of utils/mock-auth.ts:6-7,18 is a stored sequence of users. Operations are synchronous; `await` ordering is the statement order.
- `ReviewStorage.ReadCount`: does not model `parseInt` on text the app did not write (a partial or non-numeric entry, or `NaN`). The store's invariant says the counts hold the numerals the module writes.
- Numbers are unbounded: JavaScript's loss of precision above 2^53 in counts and sums is not modelled.
- `Decimal.Parse`: is defined on the empty string too, reading it as 0, where `parseInt("", 10)` is `NaN`. No caller reaches that case: counts are read only from canonical numerals, which are never empty.
- `Decimal.ParseFormat`: holds in JavaScript only below 10^21. From there `toString` switches to exponent form (`1e+21`), and `parseInt("1e+21", 10)` is 1. The model's `Format` always writes plain digits.
- `ScoreStats`: percentages are exact rationals, not IEEE doubles. Results that floating point would move across a threshold are not modelled.
- `formatDate` (screen/ScoreScreen.tsx:38-54): it needs dates and the locale.
- `Math.random()` is the input sequence `randoms`. Nothing is claimed about uniformity.
- Network calls are parameters of their handlers: the reset mutation's outcome, and the review submission's success. Request and response encodings are not modelled. Neither is `isPending`, outside the button predicates.
- Timers: the 1.5-second `setTimeout`. It redirects to `/login` after a reset, which is not modelled. For `onSubmitSuccess` (app/modal.tsx:72-74), the callback is recorded as invoked when the submission settles; the delay is not modelled.
- Unicode: `toUpperCase` is modelled on ASCII letters only. Other letters, and those whose upper case is longer (such as `ß`), are not. Strings are sequences of code points, not UTF-16 units.
- `Validation`: react-hook-form's plumbing in components/form/Form.tsx is not part of this model. Only the rules and their order are.
- `Validation.PasswordOnOneLine`: the lookaheads' `.` stops at a line terminator. So a letter or digit after the first line break does not count, and the "contains a lower-case letter, an upper-case letter and a digit" reading holds only for single-line passwords.
- `MockAuth.UserRegistry.GetUsers`: requires the registry's invariant. The model assumes that only `saveUser` writes the `"users"` entry; a list stored by other code, with a repeated email, is not modelled.
- `ResetPassword`: `showPassword`/`showConfirmPassword` toggles and navigation are left out; they are display state only.
- `ReviewModal`: the signed-in user comes from an ambient provider. Here it is a constant of the form, with `fullName` and `email` each possibly absent: the provider's own user type (provider/UserProvider.tsx) has no `fullName`.
- `ReviewModal.ReviewForm.SubmitSettled`: requires a send to be pending, because it stands for the second half of `handleSubmit` after its `await`.
- The quiz-session runner (timer, reveal, scoring, submission) does not exist in the repository (`screen/QuizScreen.tsx` is a placeholder). It is not part of this model.
- The API clients in services/, the React Query hooks, providers, screens' rendering, styles, navigation and mock data: they are I/O or presentation.
