# Brand check: analysis route and survey pages

A model of the brand-check survey of brand-check-v2 (a Next.js application), in Dafny.

- The survey page collects company details and twelve scores from 1 to 5. It
  validates them and sends the scores, in question order, to the analysis route.
- The updated survey page does the same. It also keeps a list of selected challenges
  and a free-text "その他" challenge, and sends an assembled memo with the scores.
- The analysis route checks the twelve scores and renders the scores and their average
  into a prompt for a language model. It takes the ```` ```json ```` fenced block out of
  the reply and maps every failure to an HTTP status.

The model has five modules:

- `Wrappers` (`wrappers.dfy`): `Option` and `Result`.
- `Strings` (`text.dfy`): `Array.prototype.join`, `String(n)` for integers, and
  substring search. `Split` states what a joined block of lines means.
- `AnalyzeRoute` (`analyze_route.dfy`): the route, as pure functions.
  - Request fields are `JsText` values (`undefined`, `null` or a string), so `x || "未入力"`
    and `${x}` behave as they do in JavaScript.
  - The language-model call and `JSON.parse` are function parameters of `Post`.
  - `toFixed(1)` of `sum / 12` is the integer number of tenths `(5|sum| + 3) / 6`. It is
    proved to be the nearest number of tenths, with ties going to the larger, as
    section 21.1.3.3 of ECMA-262 requires.
  - The lazy regular expression is modelled as the leftmost opener that has a closer,
    then the nearest closer.
- `SurveyOriginal` (`survey_original.dfy`): the question table, the validator, the
  score array, and the page's form state as the class `SurveyForm`.
- `SurveyUpdated` (`survey_updated.dfy`): the challenge list and its toggles, the memo
  builder, and the page's form state as the class `UpdatedSurveyForm`.

The survey pages' question labels and the route's category names are two different
tables. For example, 商品・サービス and KPI運用 on the survey are 製品・サービス and
KPI管理 in the route. The model keeps both tables.

## Model

| member | source | states |
|---|---|---|
| Strings.Join | app/api/analyze-with-ai/route.ts:36-38 | a join of no parts is empty; otherwise it starts with the first part and ends with the last |
| Strings.SplitJoin | app/api/analyze-with-ai/route.ts:36-38 | joining newline-free lines with "\n" and cutting the result at "\n" gives the lines back |
| Strings.JoinEmpty | app/survey/survey-page-updated.tsx:309 | a join of non-empty parts is empty exactly when there are no parts |
| Strings.DecimalRoundTrip | app/api/analyze-with-ai/route.ts:37 | the decimal digits `String(n)` writes read back as n |
| Strings.CanonicalDigits | app/api/analyze-with-ai/route.ts:37 | decimal digits with no leading zero are exactly the text `String` writes for their value, so sign, value and "no leading zero" fix the text |
| Strings.IntToString | app/api/analyze-with-ai/route.ts:37 | `String(i)` of an integer is non-empty and has no newline; `IntToStringReadsBack` with `CanonicalDigits` fixes its text |
| Strings.IntToStringReadsBack | app/api/analyze-with-ai/route.ts:37 | `String(i)` is a minus sign exactly when i is negative, then at least one decimal digit with no leading zero, and the digits read back as \|i\| |
| AnalyzeRoute.OrElse | app/api/analyze-with-ai/route.ts:48-56 | `v \|\| fallback` is the text itself when it is a non-empty string and the fallback otherwise, so it is never empty with a non-empty fallback |
| AnalyzeRoute.Interpolate | app/api/analyze-with-ai/route.ts:82 | `${v}` is the string itself for a string, "undefined" for `undefined` and "null" for `null`, so it is empty exactly for the empty string |
| AnalyzeRoute.ScoreLineReadsBack | app/api/analyze-with-ai/route.ts:37 | a score line is the category name, ": ", `String(score)` (a minus sign exactly for a negative score, then digits with no leading zero reading back as its magnitude) and "点" |
| AnalyzeRoute.ScoresWithLabels | app/api/analyze-with-ai/route.ts:36-38 | the score block starts with the line of the first score and ends with the line of the twelfth |
| AnalyzeRoute.ScoreBlockLines | app/api/analyze-with-ai/route.ts:36-38 | the score block splits at newlines into exactly the twelve score lines in input order, with no trailing newline |
| AnalyzeRoute.ScoreLineSingleLine | app/api/analyze-with-ai/route.ts:37 | a score line never contains a newline |
| AnalyzeRoute.SumOfConstant | app/api/analyze-with-ai/route.ts:41 | the sum of n copies of c is n·c |
| AnalyzeRoute.RoundedTenths | app/api/analyze-with-ai/route.ts:40-42 | the printed tenths are within half a tenth of \|sum\|/12, with a tie going to the larger |
| AnalyzeRoute.RoundedTenthsNearest | app/api/analyze-with-ai/route.ts:40-42 | no other number of tenths is closer to \|sum\|/12, and on a tie none is larger |
| AnalyzeRoute.TenthsReadBack | app/api/analyze-with-ai/route.ts:42 | n tenths written as whole tenths with no leading zero, "." and one digit read back as n |
| AnalyzeRoute.AverageTextReadsBack | app/api/analyze-with-ai/route.ts:40-42 | the average text is an optional "-" (exactly when the sum is negative), digits with no leading zero, ".", and one digit, and it reads back as the rounded tenths |
| AnalyzeRoute.AllTwosAverage | app/api/analyze-with-ai/route.ts:40-42 | twelve scores of 2 print as "2.0" |
| AnalyzeRoute.AverageText | app/api/analyze-with-ai/route.ts:40-42 | not stated on the function itself: `AverageTextReadsBack` states its sign, digits without a leading zero and point, and that it reads back as the rounded tenths; with `CanonicalDigits` this fixes the text `toFixed(1)` prints |
| AnalyzeRoute.AverageScore | app/api/analyze-with-ai/route.ts:40-42 | not stated on the function itself: it is the average text of the score sum, which `AverageTextReadsBack`, `RoundedTenthsNearest` and `CanonicalDigits` fix character by character: sign, whole tenths without a leading zero, point, digit |
| AnalyzeRoute.PromptSections | app/api/analyze-with-ai/route.ts:45-106 | the prompt holds the company and phase lines with the "未入力" placeholder, the score block followed by the average line, the memo with the "記載なし" placeholder and the phase-advice item, and it ends with the fenced JSON schema |
| AnalyzeRoute.AbsentPhaseLine | app/api/analyze-with-ai/route.ts:48-49 | an absent phase reads "未入力" on the phase line of the prompt |
| AnalyzeRoute.AbsentPhaseAdvice | app/api/analyze-with-ai/route.ts:82 | an absent phase is written as "undefined" in the phase-advice item, which has no placeholder |
| AnalyzeRoute.Prompt | app/api/analyze-with-ai/route.ts:45-106 | not stated on the function itself: `PromptSections`, `AbsentPhaseLine` and `AbsentPhaseAdvice` state what the prompt contains |
| AnalyzeRoute.IndexFrom | app/api/analyze-with-ai/route.ts:126 | the result is the first occurrence at or after the start, and None means there is none |
| AnalyzeRoute.FirstFence | app/api/analyze-with-ai/route.ts:126 | the matched span is a fence, and no fence starts earlier or, from the same start, ends earlier |
| AnalyzeRoute.ExtractFenced | app/api/analyze-with-ai/route.ts:126-127 | extraction succeeds exactly when an opener is followed by a closer, and yields the text between such a pair |
| AnalyzeRoute.ExtractedHasNoCloser | app/api/analyze-with-ai/route.ts:126 | the extracted text never contains "\n```" (the match is the shortest) |
| AnalyzeRoute.NoEarlierCloser | app/api/analyze-with-ai/route.ts:126 | a fence whose opener has no nearer closer holds no closer inside |
| AnalyzeRoute.FirstFenceAt | app/api/analyze-with-ai/route.ts:126 | a fence with no backquote before its opener and no closer inside is the span the regular expression matches |
| AnalyzeRoute.ExtractFencedRoundTrip | app/api/analyze-with-ai/route.ts:126 | a payload without "\n```", fenced after backquote-free text, is extracted unchanged whatever follows |
| AnalyzeRoute.Attempt | app/api/analyze-with-ai/route.ts:24-133 | not stated on the function itself: `Post`, `ErrorsBecomeDetails` and `MissingFenceFails` state which errors the `try` block throws |
| AnalyzeRoute.Post | app/api/analyze-with-ai/route.ts:23-143 | the status is 200, 400 or 500; 400 exactly when the scores are missing or not twelve, with "12項目のスコアが必要です"; 500 carries "AI分析に失敗しました" and, as details, exactly the message the `try` block threw; 200 exactly when an analysis is returned |
| AnalyzeRoute.RejectionCallsNothing | app/api/analyze-with-ai/route.ts:28-33 | a rejected score list gets the same 400 whatever the model and the parser would do |
| AnalyzeRoute.MissingFenceFails | app/api/analyze-with-ai/route.ts:122-142 | a reply without a fenced block (or with no text block) gives 500 with "AIのレスポンス形式が不正です" as details |
| AnalyzeRoute.SuccessComesFromFence | app/api/analyze-with-ai/route.ts:122-133 | a 200 response carries what the parser made of the fenced block of the reply to this request's prompt |
| AnalyzeRoute.FencedReplySucceeds | app/api/analyze-with-ai/route.ts:122-133 | conversely, a text reply whose fenced block parses gives 200 with exactly the parsed analysis |
| AnalyzeRoute.ErrorsBecomeDetails | app/api/analyze-with-ai/route.ts:134-142 | an unreadable body, a failed model call and a fenced block `JSON.parse` rejects each give 500 with that error's own message as details |
| SurveyOriginal.LabelsDifferFromCategoryNames | app/survey/page.tsx:8-21 | the survey labels and the route's category names have the same length but differ (entries 6 and 9 shown) |
| SurveyOriginal.InitialScores | app/survey/page.tsx:133-146 | the initial scores, written key by key, have exactly the twelve question ids as keys, each at 0 |
| SurveyOriginal.ValidateForm | app/survey/page.tsx:162-184 | it passes exactly when all four checks hold; each alert is given exactly when its check fails and every earlier check holds |
| SurveyOriginal.InitialScoresFailValidation | app/survey/page.tsx:133-184 | the all-zero initial scores never pass, and with identity and phase filled the form stops at the score check |
| SurveyOriginal.ClicksFromInitial | app/survey/page.tsx:155-160 | from the initial scores, clicks on the 1..5 buttons keep exactly the twelve keys and every score in 0..5, and a score is positive exactly when its question was clicked |
| SurveyOriginal.AnsweredIffEveryQuestionClicked | app/survey/page.tsx:173 | the score check passes exactly when every question has been clicked |
| SurveyOriginal.ScoreArray | app/survey/page.tsx:242-255 | the literal array has twelve entries, entry i being the score of the i-th id of the question table |
| SurveyOriginal.ScoreArrayFitsRoute | app/survey/page.tsx:242-255 | the array passes the route's length check, and after validation with button scores every entry is in 1..5 |
| SurveyOriginal.AnalysisRequest | app/survey/page.tsx:240-259 | the request body passes the route's score check and carries the scores in question order |
| SurveyOriginal.ValidatedFormReachesModel | app/survey/page.tsx:236-258 | a validated form never gets 400 from the route, and its prompt shows the real company name and phase |
| SurveyOriginal.SurveyForm.constructor | app/survey/page.tsx:116-146 | the seven text fields empty, the initial scores (all twelve at 0), privacy not agreed |
| SurveyOriginal.SurveyForm.HandleInputChange | app/survey/page.tsx:148-153 | only the named field changes |
| SurveyOriginal.SurveyForm.HandleScoreChange | app/survey/page.tsx:155-160 | only the question's score changes, and a button value keeps every score in 0..5 |
| SurveyOriginal.SurveyForm.SetAgreedToPrivacy | app/survey/page.tsx:486-487 | only the privacy flag changes |
| SurveyOriginal.SurveyForm.Validate | app/survey/page.tsx:162-184 | the validator on the current state; passing means every question scores at least 1 |
| SurveyUpdated.OtherIsNotAnOption | app/survey/survey-page-updated.tsx:105-135 | "その他" is not one of the ordinary challenge checkboxes |
| SurveyUpdated.Without | app/survey/survey-page-updated.tsx:199 | the filter removes every occurrence of the item and keeps every other item with its count |
| SurveyUpdated.WithoutAbsent | app/survey/survey-page-updated.tsx:207 | filtering out an absent item leaves the list as it is |
| SurveyUpdated.WithoutAppend | app/survey/survey-page-updated.tsx:199 | the filter keeps order: filtering a concatenation is the concatenation of the filtered parts |
| SurveyUpdated.Toggle | app/survey/survey-page-updated.tsx:206-210 | an unselected challenge is appended at the end and a selected one is filtered out, the rest keeping their order and counts; so the toggled challenge's membership flips and no other item's does |
| SurveyUpdated.ToggleTwice | app/survey/survey-page-updated.tsx:206-210 | toggling an absent challenge twice restores the list |
| SurveyUpdated.ToggleKeepsNoDup | app/survey/survey-page-updated.tsx:206-210 | a list without duplicates keeps none after a toggle |
| SurveyUpdated.ToggleChallenge | app/survey/survey-page-updated.tsx:194-212 | not stated on the function itself: `ToggleChallengeKeepsConsistent`, `ToggleChallengeEffect` and `ToggleChallengeTwice` state what a click does |
| SurveyUpdated.ToggleChallengeKeepsConsistent | app/survey/survey-page-updated.tsx:194-212 | every toggle keeps "その他 selected ⇔ box shown", no duplicates, and no free text while the box is hidden |
| SurveyUpdated.ToggleChallengeEffect | app/survey/survey-page-updated.tsx:194-212 | a toggle flips only the toggled challenge's membership: switched on, it is appended at the end; switched off, it is filtered out with the rest in order. "その他" also flips the flag and clears the text when switched off; other challenges touch neither |
| SurveyUpdated.ToggleChallengeTwice | app/survey/survey-page-updated.tsx:194-212 | on a consistent state, toggling an unselected challenge twice restores the state |
| SurveyUpdated.TogglesFromStartAreConsistent | app/survey/survey-page-updated.tsx:162-163 | from the initial empty list and hidden box, every series of clicks leaves the state consistent |
| SurveyUpdated.ChallengeMemo | app/survey/survey-page-updated.tsx:309 | not stated on the function itself: `MemoSections`, `MemoNeverFallsBack` and `ChallengeListPlaceholder` state what the memo holds |
| SurveyUpdated.ChallengeListPlaceholder | app/survey/survey-page-updated.tsx:309 | with non-empty challenge names, the challenge section reads "未選択" when nothing is selected and the "、"-joined selection otherwise |
| SurveyUpdated.MemoSections | app/survey/survey-page-updated.tsx:309 | the memo holds the mission, vision and challenge sections in order; it ends with "\nその他: " and the text when there is free text, and with the challenge section otherwise |
| SurveyUpdated.MemoNeverFallsBack | app/survey/survey-page-updated.tsx:309 | the memo is never empty, so the route never prints "記載なし" for it |
| SurveyUpdated.OtherLineOnlyWhenChosen | app/survey/survey-page-updated.tsx:309 | on a consistent state the memo has a free-text line only when "その他" is selected |
| SurveyUpdated.AnalysisRequest | app/survey/survey-page-updated.tsx:293-312 | the request body passes the route's score check and carries a non-empty memo |
| SurveyUpdated.SubmittedRequestPassesRoute | app/survey/survey-page-updated.tsx:295-308 | the submitted array has the twelve scores in question order, so the route never answers 400 |
| SurveyUpdated.SubmittedMemoReachesPrompt | app/survey/survey-page-updated.tsx:309 | the prompt carries the assembled memo under its heading |
| SurveyUpdated.UpdatedSurveyForm.constructor | app/survey/survey-page-updated.tsx:143-178 | the nine text fields empty, no challenges, hidden free-text box, all scores at 0, privacy not agreed |
| SurveyUpdated.UpdatedSurveyForm.HandleInputChange | app/survey/survey-page-updated.tsx:180-185 | only the named field changes, and the state stays consistent |
| SurveyUpdated.UpdatedSurveyForm.HandleScoreChange | app/survey/survey-page-updated.tsx:187-192 | only the question's score changes, and a button value keeps every score in 0..5 |
| SurveyUpdated.UpdatedSurveyForm.HandleChallengeToggle | app/survey/survey-page-updated.tsx:194-212 | the challenge state moves as `ToggleChallenge` says and stays consistent; switching "その他" off clears the free text; scores and privacy are unchanged |
| SurveyUpdated.UpdatedSurveyForm.SetAgreedToPrivacy | app/survey/survey-page-updated.tsx:614-615 | only the privacy flag changes |
| SurveyUpdated.UpdatedSurveyForm.Validate | app/survey/survey-page-updated.tsx:214-237 | `ValidateForm` on the current state, so its contract applies; passing means every question scores at least 1 |
| SurveyUpdated.UpdatedSurveyForm.Memo | app/survey/survey-page-updated.tsx:309 | the submitted memo is non-empty and has no free-text line while the box is hidden |

## Left out

- Supabase: the insert, select and update calls of both survey pages are not modelled. The request to the route is built from the form state, on the assumption that the database returns the inserted row unchanged.
- The notification `fetch`, the e-mail route it calls, and the handling of the route's reply on the pages (saving `ai_report`) are left out. They are external I/O.
- The language-model call is the `callModel` parameter of `Post`, and `JSON.parse` is its `parseJson` parameter. Request-body parse errors are an `Err` body.
- The route's "Unknown error" detail for a thrown value that is not an `Error` is left out. Every failure in the model carries a message.
- `AnalyzeRoute.Post` does not model a `scores` value that is not an array, non-integer scores, or an empty `content` array. The request is a record of an optional integer list and three `JsText` fields.
- `AnalyzeRoute.RoundedTenths`: the binary floating-point division is replaced by exact rational rounding. The two agree when every score and every running sum is an integer of magnitude below 12·2^48. The sum is then exact, and the double nearest sum/12 is within 1/64 of it. A twelfth that is not a tie lies at least 1/60 from the nearest halfway point between tenths, and a tie (.25 or .75) is itself a double. Above that bound they can differ: for sum = 12·2^49 + 2 the nearest double to sum/12 is 562949953421312.125, so `toFixed(1)` gives "562949953421312.1" where `AverageText` gives "562949953421312.2". The survey pages only send sums from 0 to 60.
- `AnalyzeRoute.AverageText`: sums of magnitude 12·2^48 or more are not modelled. There the rounded quotient can fall on the other side of a tenths boundary, the sum of doubles can become inexact from 2^53, and `toFixed` switches to exponent notation from 10^21.
- `Strings.IntToString`: scores of magnitude 10^21 or more, which `String` prints in exponent notation, and scores outside the exactly representable integers are not modelled.
- `data.challenges?.join('、')`: the `null` case of the optional chain is left out, because the challenges are always the submitted list.
- JSX rendering, `alert`, `router.push`, console logging and the `loading` flag are not modelled. The alerts are the messages of `SurveyOriginal.Check`.
- `SurveyUpdated.UpdatedSurveyForm.HandleInputChange` requires that "other_challenge" is only written while "その他" is checked. The only input with that name is rendered only then.
- The admin, login, results and thank-you pages and the notification route are not part of this model.
