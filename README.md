# resume-sense, modelled in Dafny

resume-sense is a Next.js service that stores uploaded resumes and scores them.
Three API routes do the work:

- `POST /api/analyze` extracts a resume's text from S3. It asks Gemini for an analysis, then OpenAI, then Gemini once more. It stores the analysis and moves the resume's status from PENDING through PROCESSING to COMPLETED, or to FAILED.
- `/api/resumes` lists the caller's resumes and records new uploads.
- `/api/dashboard` turns the caller's resumes into dashboard rows and statistics.

Each provider wrapper cleans code fences off the model's reply, parses it and tags it with the provider. When the call fails, the wrapper falls back to a deterministic heuristic scorer, except on key errors, which it rethrows.

The project models that core, one module per source file:

| module | file | models |
|---|---|---|
| `Scorer` | `scorer.dfy` | the fallback scorer (`generateFallbackAnalysis`, `generateOpenAIFallbackAnalysis`) |
| `Fences` | `fences.dfy` | the code-fence cleaning both provider wrappers apply before `JSON.parse` |
| `Providers` | `providers.dfy` | `analyzeResume`, `analyzeResumeWithOpenAI`: parsing, tagging, error triage |
| `ExtractText` | `extract_text.dfy` | the MIME-type dispatch of `extractTextFromS3` |
| `Store` | `store.dfy` | the user, resume, analysis and job-match tables, and the Prisma calls the routes make on them |
| `Auth` | `auth.dfy` | `getCurrentUser` (find or create) and `getCurrentUserOrThrow` |
| `ResumesRoute` | `resumes_route.dfy` | `GET` and `POST /api/resumes` |
| `DashboardRoute` | `dashboard_route.dfy` | `GET /api/dashboard`: rows and statistics |
| `AnalyzeRoute` | `analyze_route.dfy` | `POST /api/analyze` |
| `ScoreBands` | `score_bands.dfy` | `getScoreColor` and `getScoreBgColor` |

`Wrappers`, `Seqs`, `Text` and `Results` hold shared helpers. They cover:

- option and call outcomes;
- JavaScript truthiness of optional strings and numbers;
- filtering, taking and reversing sequences;
- whitespace, trimming, splitting, substring search and ASCII lower-casing;
- the analysis record.

Code that changes state is imperative Dafny:

- The database is a class, `Store.Database`. Its tables are sequence fields that the methods reassign.
- A counter, `clock`, hands out ids and creation times, so a later record has a larger id and a later `createdAt`.
- A ghost journal, `writes`, records every write that reached the database, so the routes' contracts can state the order of their writes.
- Each route handler is a method. Its contract gives the reply and the new tables in terms of the old tables, the outside world and the pure functions below.

The pure specification functions are:

- `Auth.Resolve` for sign-in;
- `Store.NewestFirst` and `ResumesRoute.Listing` for the listing;
- `DashboardRoute.DashboardOf` for the dashboard;
- `AnalyzeRoute.Cascade` and `AnalyzeRoute.Annotated` for the analysis.

Everything outside the service is a parameter of the model: Clerk, the request body, S3, the document parsers, the AI providers, `JSON.parse`, the email and phone regular expressions, and every database fault. The analyze route's contract gives the reply and the journal for each outcome the model can represent: 400, 404, success, and a 500 that carries the mapped message of the first fault met. A provider's parsed reply is modelled as a record of typed fields, so what an arbitrary JSON object would add is not captured. That covers extra keys (an `id` key among them) and values of the wrong JSON type, with the failures they cause in the analyze and dashboard routes (see "Left out").

## Model

| member | source | states |
|---|---|---|
| Scorer.ResumeScore | lib/gemini.ts:43-58 | the fallback score (base 30 plus the bonuses, then `Math.min(score, 100)` at line 88) always lies in [30, 100] |
| Scorer.AtsVerdict | lib/gemini.ts:60-66 | "Good" iff more than 8 skills and both an experience and an education match, whatever the length; "Poor" iff not Good and (fewer than 3 skills or fewer than 100 words); the verdict is one of the three words |
| Scorer.TipsFor | lib/gemini.ts:68-85 | 1 to 4 tips; each conditional tip is present iff its condition holds; the generic tip is present iff no condition holds, and then it is the only tip; otherwise the tips keep the fixed order length, skills, experience, education |
| Scorer.FormattingTips | lib/gemini.ts:69-85 | `formattingTips` has between 1 and 4 entries |
| Scorer.Heuristic | lib/gemini.ts:87-95 | the fallback analysis: score `ResumeScore`, verdict `AtsVerdict`, keyword lists `KeywordsMatched` and `KeywordsMissing`, tips `FormattingTips`; so the score is in [30, 100], at most 10 matched and 8 missing keywords, no keyword in both lists, and a verdict among Good/Average/Poor; one grammar note, the provider tag, and no grammar score or metadata |
| Scorer.GeminiFallback | lib/gemini.ts:11-96 | the Gemini copy's only grammar issue is the API-quota sentence and its provider is "Gemini (Fallback)" |
| Scorer.OpenAIFallback | lib/openai.ts:14-101 | the OpenAI copy's only grammar issue is the API-unavailability sentence and its provider is "OpenAI (Fallback)" |
| Scorer.FallbacksAgree | lib/openai.ts:14-101 | the two copies produce the same analysis apart from the grammar note and the provider tag |
| Scorer.WordCountIsRunsPlusOne | lib/gemini.ts:13 | `text.split(/\s+/).length` is the number of maximal whitespace runs plus one, so the empty text counts one word |
| Scorer.KeywordsMatchedAreFirstFound | lib/gemini.ts:37-40 | `keywordsMatched` (the slice on line 91) lists vocabulary terms that the lower-cased text mentions, in vocabulary order; it is a prefix of all found terms and, when shorter than 10, holds every found term |
| Scorer.KeywordsMissingAreUnfound | lib/gemini.ts:92 | `keywordsMissing` is the first eight vocabulary terms the text does not mention, in vocabulary order, or all of them when there are fewer; none of them is in `keywordsMatched` |
| Scorer.GoodVerdictScoresAtLeast65 | lib/gemini.ts:43-66 | a "Good" verdict implies a score of at least 65 |
| Scorer.NothingFoundInEmpty | lib/gemini.ts:38-40 | the empty text mentions no vocabulary term |
| Scorer.AllTipsFire | lib/gemini.ts:69-81 | when all four conditions hold, all four conditional tips are given, in order |
| Scorer.AllConditionsAllTips | lib/gemini.ts:69-85 | a short text with few skills and neither section gets the four conditional tip sentences in order, and not the generic one |
| Scorer.EmptyTextAnalysis | lib/gemini.ts:11-96 | for the empty text: one word, no skills, score 30, verdict "Poor", the four conditional tips, nothing matched, and the first eight vocabulary terms missing |
| Scorer.FullMarks | lib/gemini.ts:43-66 | every bonus at once adds up to 130, is capped to 100, and gives the verdict "Good" |
| Fences.CleanFencesTakesInfix | lib/gemini.ts:144-155 | what fence cleaning passes to `JSON.parse` is a substring of the reply with no whitespace at either end |
| Fences.StripsTakeInfix | lib/gemini.ts:147-155 | each of the three fence removals yields a substring of its input and keeps a trimmed input trimmed |
| Fences.UnfencedReplyUnchanged | lib/gemini.ts:144-155 | a reply with no leading or trailing fence after trimming reaches `JSON.parse` as the trimmed reply |
| Fences.JsonFenceRemoved | lib/gemini.ts:144-155 | a reply of the form "```json" + JSON + "```", padded with any whitespace, is cleaned to exactly the JSON text |
| Fences.PlainFenceRemoved | lib/openai.ts:149-160 | a reply of the form "```" + JSON + "```", padded with any whitespace, is cleaned to exactly the JSON text when the body does not start with "json" |
| Fences.TrimPadded | lib/gemini.ts:144 | `trim` removes exactly the surrounding whitespace of a body that neither starts nor ends with whitespace |
| Providers.ParseReply | lib/gemini.ts:142-164 | the parse succeeds iff `JSON.parse` accepts the cleaned reply; the result is the parsed object with `aiProvider` overwritten by the tag and nothing else changed; a failure throws "Failed to parse … response: " followed by the raw reply |
| Providers.KeyMarkersSpelledOut | lib/openai.ts:179 | Gemini rethrows on "API_KEY"; OpenAI rethrows on "API_KEY" or "api_key" |
| Providers.Classify | lib/gemini.ts:165-182 | a thrown value is `NotAnError` iff it is not an `Error`; it is a key error iff its message holds a key marker; each later branch is taken only when its substrings occur |
| Providers.Recover | lib/gemini.ts:165-183 | the catch block rethrows iff the caught value is an `Error` whose message holds a key marker; it then throws the fixed key-error message, and otherwise returns the fallback analysis |
| Providers.GeminiTry | lib/gemini.ts:138-161 | a successful Gemini call returns an analysis tagged "Gemini" |
| Providers.AnalyzeResume | lib/gemini.ts:98-184 | with no model, the Gemini fallback is returned; once the model exists, a call that fails without a key error ends in exactly the Gemini fallback; any result not tagged "Gemini" is that fallback; the only thing it throws is "Gemini API key is not configured properly"; any result is tagged "Gemini" or "Gemini (Fallback)" |
| Providers.ParseFailureEchoesReply | lib/gemini.ts:163 | the parse-failure message contains a key marker iff the raw reply does, so such a reply is rethrown as a key error |
| Providers.GeminiRethrowsOnlyOnKeyError | lib/gemini.ts:162-183 | `analyzeResume` throws iff the model exists and either the call threw an `Error` mentioning "API_KEY", or the reply does not parse and itself mentions "API_KEY" |
| Providers.GeminiSuccessTagged | lib/gemini.ts:157-161 | a reply that parses is returned as parsed, with `aiProvider` set to "Gemini" |
| Providers.GeminiProbeIgnored | lib/gemini.ts:101-117 | once the model object exists, the outcome of the "Hello" probe makes no difference |
| Providers.OpenAITry | lib/openai.ts:129-174 | a successful OpenAI call returns an analysis tagged "OpenAI GPT-4o" |
| Providers.AnalyzeResumeWithOpenAI | lib/openai.ts:103-201 | with no client, the OpenAI fallback is returned without a call; once a client exists, a call that fails without a key error ends in exactly the OpenAI fallback; any result not tagged "OpenAI GPT-4o" is that fallback; the only thing it throws is "OpenAI API key is not configured properly"; any result is tagged "OpenAI GPT-4o" or "OpenAI (Fallback)" |
| Providers.NoContentIsNotKeyError | lib/openai.ts:143-145 | the empty-content error mentions neither key marker |
| Providers.EmptyContentFallsBack | lib/openai.ts:141-145 | missing or empty response content ends in the OpenAI fallback |
| Providers.OpenAIRethrowsOnlyOnKeyError | lib/openai.ts:175-200 | `analyzeResumeWithOpenAI` throws iff a client exists and either the call threw an `Error` mentioning a key marker, or the non-empty content does not parse and mentions one |
| Providers.OpenAISuccessTagged | lib/openai.ts:163-169 | content that parses is returned as parsed, with `aiProvider` set to "OpenAI GPT-4o" |
| ExtractText.ExtractTextFromS3 | lib/extractText.ts:19-38 | text comes back only for the PDF and Word MIME types; a failed S3 fetch surfaces its own error, before any type check |
| ExtractText.SupportedTypesVerbatim | lib/extractText.ts:29-34 | a PDF yields pdf-parse's text unchanged and a Word document mammoth's raw text unchanged; a failed body read surfaces its error |
| ExtractText.OtherTypesRefused | lib/extractText.ts:35-37 | any other type throws "Unsupported file type" once the object has been fetched |
| ExtractText.TypeMatchIsCaseSensitive | lib/extractText.ts:29 | "APPLICATION/PDF" is refused: the type comparison is exact |
| ScoreBands.BandOf | app/components/dashboard/utils.ts:1-6 | the four bands are exactly ≥90, [80, 90), [70, 80) and <70 |
| ScoreBands.ScoreColor | app/components/dashboard/utils.ts:1-6 | `getScoreColor` returns one of the four text classes |
| ScoreBands.ScoreBgColor | app/components/dashboard/utils.ts:8-13 | `getScoreBgColor` returns one of the four background classes |
| ScoreBands.ColoursFollowBand | app/components/dashboard/utils.ts:1-13 | both functions return the colour of the score's band |
| ScoreBands.ColoursDistinguishBands | app/components/dashboard/utils.ts:1-13 | different bands get different colours in each palette |
| ScoreBands.SameBandInBothPalettes | app/components/dashboard/utils.ts:1-13 | two scores share a text colour iff they share a background colour |
| ScoreBands.BandingIsMonotone | app/components/dashboard/utils.ts:1-13 | a higher score never falls into a worse band |
| Store.UserWithClerkId | lib/auth.ts:13-15 | the lookup finds a user with that `clerkId`, and finds none iff no user has it |
| Store.WithStatus | app/api/analyze/route.ts:39-42 | a status update changes the status of the resumes with that id and nothing else, keeping every id and creation time |
| Store.WithStatusTwice | app/api/analyze/route.ts:97-100 | a second status write to a resume overrides the first |
| Store.NewestFirst | app/api/resumes/route.ts:10-17 | the query returns exactly the user's resumes; on a table kept in creation order they come in strictly descending `createdAt` |
| Store.Database.OwnedResume | app/api/analyze/route.ts:25-30 | `findFirst({ id, userId })` returns a resume with that id and owner, and returns none iff no such resume exists |
| Store.Database.CreateUser | lib/auth.ts:26-34 | the insert fails on a fault or a taken `clerkId`; otherwise it appends the user with a fresh id, and writes nothing on failure |
| Store.Database.CreateResume | app/api/resumes/route.ts:37-46 | the insert appends the resume with a fresh id and a later `createdAt` than every other, unless it faults |
| Store.Database.SetStatus | app/api/analyze/route.ts:39-42 | the update fails on a fault or with "Record to update not found." when no resume has the id; otherwise the table becomes `WithStatus` and the write is journalled |
| Store.Database.CreateAnalysis | app/api/analyze/route.ts:85-94 | the insert appends the analysis record with a fresh id, unless it faults |
| Auth.DisplayName | lib/auth.ts:30-32 | the name is present iff the first or the last name is non-empty; it is never empty; with both it is first + " " + last, otherwise whichever is non-empty |
| Auth.PrimaryEmail | lib/auth.ts:19 | the primary email is an address whose id is `primaryEmailAddressId`, and there is none iff no address has that id |
| Auth.Resolve | lib/auth.ts:4-44 | no user and an unchanged table unless Clerk has a user and the lookup does not throw; then the stored user with that `clerkId` when there is one, with the table unchanged; otherwise a new user with that `clerkId`, built from the primary email and `DisplayName`, is appended and returned exactly when Clerk gives a primary email and the insert does not throw, and else no user and an unchanged table |
| Auth.KnownUserReturned | lib/auth.ts:13-15 | a user already in the table is returned as stored and nothing is created |
| Auth.SecondSignInCreatesNothing | lib/auth.ts:13-39 | signing in again with the same Clerk user returns the same user and leaves the table as the first sign-in left it |
| Auth.GetCurrentUser | lib/auth.ts:4-44 | the result and the user table are those of `Resolve`; nothing else changes, and a created user is the only write |
| Auth.GetCurrentUserOrThrow | lib/auth.ts:46-54 | returns the resolved user, and throws "User not found" iff `getCurrentUser` yields null |
| ResumesRoute.NewUploadListedFirst | app/api/resumes/route.ts:10-17 | a newly appended resume heads its owner's listing |
| ResumesRoute.WithRelations | app/api/resumes/route.ts:12-15 | a listed resume carries exactly the analyses and matches that point at it |
| ResumesRoute.Listing | app/api/resumes/route.ts:10-17 | entry k is the k-th of the user's resumes in `NewestFirst` order with exactly its analyses and matches, so on a table in creation order the entries come in strictly descending `createdAt`; every resume of the user is listed and no one else's |
| ResumesRoute.Get | app/api/resumes/route.ts:6-24 | 200 with `Listing` iff sign-in and the query succeed, otherwise 500 "Failed to fetch resumes"; no resume, analysis or match changes |
| ResumesRoute.Post | app/api/resumes/route.ts:27-53 | 400 iff signed in with a readable body missing a field (`fileSize` 0 counts as missing); 201 iff in addition the insert succeeds, and then the user's new PENDING resume with the body's fields is appended with a fresh id; otherwise 500; only a 201 adds a resume |
| DashboardRoute.LatestAnalysis | app/api/dashboard/route.ts:15-18 | the analysis shown is one of the resume's, the newest on a table in creation order, and is absent iff the resume has none |
| DashboardRoute.RecentMatches | app/api/dashboard/route.ts:19-22 | at most five of the resume's matches, and all of them when it has fewer |
| DashboardRoute.RecentMatchesNewest | app/api/dashboard/route.ts:19-22 | on a table in creation order, the matches shown come newest first, and each is newer than every match of the resume that is left out |
| DashboardRoute.RowOf | app/api/dashboard/route.ts:28-49 | a row carries the resume's id, name, date and file fields; with an analysis, its score, `grammarScore \|\| 0`, `atsCompatibility \|\| 'Unknown'` and `keywordsMatched \|\| []`, and `skillMatch` the number of those keywords; an unanalysed resume shows zeros, "Unknown" and empty lists; suggestions are the grammar issues followed by the formatting tips; the job titles follow the matches; the status is lower-cased |
| DashboardRoute.Rows | app/api/dashboard/route.ts:28 | one row per resume, in the same order |
| DashboardRoute.RowStatusNames | app/api/dashboard/route.ts:45 | the lower-cased statuses are "pending", "processing", "completed" and "failed", all different |
| DashboardRoute.StatusCountsPartition | app/api/dashboard/route.ts:53-56 | the four status counts add up to the number of resumes, so the three counts shown leave out exactly the PENDING ones |
| DashboardRoute.RoundedMean | app/api/dashboard/route.ts:58-60 | 0 for no rows; otherwise the integer m with n(2m−1) ≤ 2·sum < n(2m+1), that is, `Math.round(sum / n)` |
| DashboardRoute.MeanWithinBounds | app/api/dashboard/route.ts:58-60 | the rounded mean of values in [lo, hi] lies in [lo, hi] |
| DashboardRoute.TotalMatchesCapped | app/api/dashboard/route.ts:57 | the job-match total adds at most five per resume, because it counts the fetched `take: 5` lists |
| DashboardRoute.DashboardOf | app/api/dashboard/route.ts:5-61 | row k is `RowOf` the user's k-th resume newest first, with its latest analysis and recent matches; the statistics are the number of the user's resumes, their COMPLETED, PROCESSING and FAILED counts, the sum of the fetched match lists, and `RoundedMean` of the rows' scores; so completed + processing + failed = total − pending, total matches ≤ 5 × resumes, and no resumes gives an average of 0 |
| DashboardRoute.AverageScoreInRange | app/api/dashboard/route.ts:58-60 | when every stored score is in [0, 100], so is the average score |
| DashboardRoute.Get | app/api/dashboard/route.ts:5-75 | 200 with `DashboardOf` iff sign-in and the query succeed, otherwise 500 "Failed to fetch dashboard data"; no resume, analysis or match changes |
| AnalyzeRoute.Cascade | app/api/analyze/route.ts:48-65 | the first call's analysis when it returns, named by its `aiProvider` or "Gemini", not a fallback; else OpenAI's, named by its `aiProvider` or "OpenAI"; else the third call's, named by its `aiProvider` or "Gemini (Fallback)", both flagged as fallbacks; it fails iff all three calls throw, and then with the Gemini key error; the provider is one of the four provider names and is the analysis's own `aiProvider` |
| AnalyzeRoute.LaterProvidersUnused | app/api/analyze/route.ts:52-65 | once a provider answers, the outcome of the later calls makes no difference |
| AnalyzeRoute.FallbackNotesAreSentinels | app/api/analyze/route.ts:68-73 | each fallback scorer's grammar note contains one of the two sentinels |
| AnalyzeRoute.FallbackScorersFlagged | app/api/analyze/route.ts:67-73 | an analysis from either fallback scorer is flagged as a fallback, whichever call returned it |
| AnalyzeRoute.FlagMeansFallback | app/api/analyze/route.ts:67-73 | `isFallback` holds iff Gemini's first call threw or some grammar issue contains a sentinel |
| AnalyzeRoute.Message | app/api/analyze/route.ts:79-81 | the message starts with "Analysis completed using " and the provider, and ends with " due to API limitations" when flagged, with nothing else added |
| AnalyzeRoute.MessageShowsFlag | app/api/analyze/route.ts:79-81 | for the providers' names, the message ends in the limitation clause iff the analysis is flagged |
| AnalyzeRoute.Annotated | app/api/analyze/route.ts:75-82 | the saved analysis is the cascade's analysis with only `metadata` replaced, by the flag, the provider and `Message` |
| AnalyzeRoute.ErrorMessage | app/api/analyze/route.ts:128-141 | a non-`Error` gives the generic message; for an `Error`, by priority: a key-variable name gives "AI analysis service is not configured", "AWS" gives "File storage service error", "Failed to parse" gives "AI analysis failed to generate proper response", and any other message is reported as it is |
| AnalyzeRoute.UnmarkedVerbatim | app/api/analyze/route.ts:138-140 | a message without markers is reported unchanged |
| AnalyzeRoute.KeyErrorVerbatim | app/api/analyze/route.ts:132-133 | the cascade's key error does not name a key variable, so it reaches the client unchanged rather than as "AI analysis service is not configured" |
| AnalyzeRoute.SignInErrorVerbatim | app/api/analyze/route.ts:129-141 | a failed sign-in is reported as "User not found" |
| AnalyzeRoute.UnsupportedTypeVerbatim | app/api/analyze/route.ts:129-141 | an unsupported file type is reported as "Unsupported file type" |
| AnalyzeRoute.Save | app/api/analyze/route.ts:84-100 | with a cascade result, the analysis record is appended with score `resumeScore \|\| 0` and status COMPLETED, and then the resume is set COMPLETED; it succeeds iff the cascade returned and both writes succeed; a failed cascade or insert is thrown as it is with nothing written; a failed COMPLETED write is thrown after the insert, which stays; the resumes are untouched on failure |
| AnalyzeRoute.Process | app/api/analyze/route.ts:38-100 | success iff PROCESSING, the cascade, the insert and COMPLETED all succeed, with the journal gaining exactly PROCESSING, the analysis, COMPLETED; a failure throws the first fault in that order (`FirstFault`) after exactly the writes before it (`WritesBeforeFault`), with the resume PROCESSING once that write went through and the analysis record present once inserted |
| AnalyzeRoute.Handle | app/api/analyze/route.ts:15-100 | 400 iff a field is missing and 404 iff the lookup finds no resume of this user, neither writing anything; on success, the reply, journal, analyses and resumes are as in `Process`; it throws iff a lookup fault or, for an owned resume, a later fault occurs, and then throws the first of them (`RouteFault`) after exactly the lifecycle writes before it, with the analysis table unchanged unless the insert went through, and then holding exactly the saved record |
| AnalyzeRoute.Recover | app/api/analyze/route.ts:115-145 | FAILED is written iff the resume exists and that update succeeds, after exactly the writes made before the failure; a failure of that write is swallowed; the reply is 500 with `ErrorMessage` of the original error |
| AnalyzeRoute.Run | app/api/analyze/route.ts:11-146 | the route after sign-in: 400, 404, 200 as in `Handle`; 500 iff the first fault (`RouteFault`) occurs, with `ErrorMessage` of that fault, the journal holding exactly the lifecycle writes before it and then FAILED exactly when the resume exists and that write succeeds, the resume FAILED, PROCESSING or untouched accordingly, and the analysis table unchanged unless the insert went through, and then holding exactly the saved record; a cascade failure is reported as the Gemini key error |
| AnalyzeRoute.Serve | app/api/analyze/route.ts:11-146 | a failed sign-in or an unreadable body gives 500 with the mapped message of that error and no writes; otherwise as `Run` |
| AnalyzeRoute.Post | app/api/analyze/route.ts:8-147 | the whole route against `Resolve`: users as sign-in leaves them; "User not found" on failed sign-in; an unreadable body gives 500 with its mapped message; 400/404 write nothing beyond sign-in; 200 writes exactly PROCESSING, the analysis, COMPLETED and returns the annotated analysis; otherwise 500 with `ErrorMessage` of the first fault, after exactly the lifecycle writes before it, then FAILED when the resume exists and that write succeeds, with the analysis table as `AbortedAnalyses` gives it; a cascade failure surfaces as the Gemini key error |

## Left out

- The network and SDK calls are parameters of the model, each an outcome that either returns a value or throws. This covers Clerk's `currentUser`, the Gemini and OpenAI calls, the S3 `GetObject` request, the stream read, `pdf-parse`, mammoth and `JSON.parse`. Their internals (prompts, retries, parsing) are outside the model.
- The Gemini model probe (lib/gemini.ts:102-117) is kept only as its outcome. `Providers.GeminiProbeIgnored` shows the probe's result cannot change the analysis once the model object exists.
- The email and phone regular expressions are abstract predicates (`Scorer.Detectors`), because their `\b` word-boundary semantics are not modelled.
- Lower-casing is ASCII only. Unicode case mapping is not modelled.
- Scores are integers. A provider's non-integer `resumeScore`, and JavaScript numbers in general, are not modelled.
- Record ids are natural numbers from one counter, and creation times equal ids, so there are no ties in `createdAt`. An empty `resumeId` string in a request is folded into "absent", which the route treats the same way.
- `Providers.ParseReply`: the parser parameter (`Providers.JsonParser`) yields only the fields of `Results.Analysis`, each at its expected JSON type: integers for the scores, strings for `atsCompatibility` and `aiProvider`, and string lists for the four lists. The source passes the parsed object on as it is, with any other keys and any values of other types; those are not modelled. The three lines below list what follows from that.
- `AnalyzeRoute.Post`: the 200 reply is built as `{ id: savedAnalysis.id, ...analysis, isFallback, aiProvider }` (app/api/analyze/route.ts:102-109). A provider reply with its own `id` key therefore replaces the saved id in the reply, and every extra key reaches both the reply and the stored `result`. The model's reply always carries the saved id and only the `Analysis` fields.
- `DashboardRoute.RowOf`: the row reads the stored result as it is (app/api/dashboard/route.ts:36-43). A numeric `atsCompatibility`, which a provider may return, passes through `|| 'Unknown'` as a number. A string `keywordsMatched` gives its character count as `skillMatch`. A string `grammarIssues` or `formattingTips` spreads into single characters, and a number there throws a `TypeError`, so the dashboard answers 500. The model's `Option<string>` and `Option<seq<string>>` fields cannot hold these values.
- `AnalyzeRoute.FallbackFlag`: when the first call answered, an analysis whose `grammarIssues` is truthy but not an array, or holds a non-string item, makes `.some`/`.includes` throw a `TypeError` (app/api/analyze/route.ts:69-72), which the route turns into a 500 and FAILED after the provider call. `Results.Analysis` types `grammarIssues` as an optional list of strings, so that path is not modelled.
- `AnalyzeRoute.FallbackFlag`: `isFallbackAnalysis` can be `undefined` in the source when `grammarIssues` is missing. The model treats that as `false`, which is how the response is read.
- `DashboardRoute.RowOf`: `uploadDate` is the creation time as a number, not its ISO-8601 text.
- The analysis record's `type` column, always 'OVERALL_ASSESSMENT' (app/api/analyze/route.ts:89), is not part of `Store.AnalysisRecord`. Nothing in the modelled routes reads it.
- Prisma's own error texts are represented only by "Record to update not found." and the unique-constraint message. Foreign-key checks on inserts are not modelled.
- `Providers.Classify`: its contract names only the substrings each triage branch saw, not that the earlier branches failed. The four non-key branches all return the same fallback, so the difference cannot be seen from outside.
- Logging (`console.log`/`console.error`) is not modelled.
- The module-load checks of environment variables (lib/gemini.ts:4-6, lib/openai.ts:4-11) are left out. Whether the OpenAI client exists is an input of `Providers.AnalyzeResumeWithOpenAI`.
- Concurrency is not modelled. Two analyze requests for one resume race on its status; each request is modelled alone.
- `ResumesRoute.Listing` does not fix the order of each resume's included analyses and matches, which the source leaves to the database.
- The upload route (presigned URLs), the `/api/resumes/[id]` route and all React pages and components are outside this model. So are the Gemini client construction and the Prisma client module (lib/prisma is not part of this model).
- On a failed ownership query, the route still writes FAILED to the requested id, whoever owns that resume. The model keeps this as the source does. `AnalyzeRoute.Post` states that the FAILED write depends only on whether a resume with that id exists.
