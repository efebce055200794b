# repaso-app core, modelled in Dafny

repaso-app is a study platform for the Puerto Rico psychology licensing exam
(the *reválida*). Most of it is React pages and thin wrappers over hosted
services. This project models the parts that hold decision rules, string
transformations and state transitions, and proves what they promise:

- **Provisioning webhook** (`auth_webhook.dfy`, module `AuthWebhook`). The
  function Supabase Auth calls when a user confirms their e-mail. It checks
  the shared secret, parses the payload and applies the "is the e-mail
  confirmed" heuristic. It extracts the user, then runs the ordered write
  plan: `profiles` upsert, `user_tenants` and `memberships` upserts when a
  default tenant is configured, and an `audit_log` insert. The plan runs over
  an abstract table map, which makes redelivery idempotence provable.
- **Generative-content requests** (`gemini.dfy`, module `Gemini`). The
  content type decides the model and the generation config. A bounded retry
  loop records its waits as data. A response normaliser tries JSON, then the
  `---RESPUESTA---` split, then placeholders. Errors map onto a closed set of
  messages. Content titles and model information are modelled too.
- **AI modal** (`ai_modal.dfy`, module `AIModal`). The modal context's state
  record, its open, close and reveal transitions, and the doubling-delay fetch
  loop. Closing during a load is an explicit sequence of steps.
- **Sign-up form** (`signup.dfy`, module `SignUp`). The ordered validator
  with its one e-mail regular expression, the submit gating, and the input
  handler.
- **Areas/topics join** (`areas_topics.dfy`, module `AreasTopics`). Fetched
  topics are grouped by `area_id`, merged into the ordered area list, and
  settled into hook state behind the `mounted` flag of the effect run that
  fetched them; every run has its own flag.
- **Card formatter** (`card_format.dfy`, module `CardFormat`). The lazy
  `**bold**` → `<strong>` replacement, then newline → `<br>`.
- **Theme persistence** (`theme.dfy`, module `ThemePersistence`). A browser
  object with local storage, cookies and the root `data-theme` attribute, plus
  the operations of `theme.ts`. The server-side cookie read of the root layout
  and the theme switcher's change handler act as cross-checks.
- **Study data** (`study_sections.dfy`, module `StudySections`). The constant
  table of eight sections and the structural facts it keeps.

Shared modules:

- `Wrappers`: `Option`.
- `Json`: values as `JSON.parse` produces them, JavaScript truthiness, `??`
  and optional member access.
- `JsText`: the ECMAScript whitespace and line-terminator sets, `trim`,
  `includes`, the case-insensitive split on a literal, decimal rendering, and
  the string `length` in UTF-16 code units.
- `ContentTypes`: the four content types.

Code that changes state step by step is a class, with one method per
operation. Each method's postcondition ties the new state to a specification
function, and the lemmas state the properties of those functions. Calls into
code that cannot be seen are parameters:

- the Gemini API and `fetch` are functions from attempt number to outcome;
- `JSON.parse` is a function from text to an optional value;
- `marked.parse` is a rendering function;
- database write outcomes are a record of per-table outcomes;
- the clock is a supplied timestamp.

Points where the code does something a reader might not expect, all of which
the model follows:

- The Gemini retry loop makes `MAX_RETRIES = 3` calls in total. So three
  failures followed by a success end in failure (`Gemini.ThreeFailuresGiveUp`).
- That loop retries every error, not only transient ones
  (`Gemini.RetryIgnoresErrorKind`).
- The webhook's writes are sequential `await`s, not parallel ones.
- A confirmed payload without a user id gets status 400.

## Model

| member | source | states |
|---|---|---|
| `AuthWebhook.AnyAccepted` | infra/database/supabase/functions/auth-webhook/index.ts:72-77 | true exactly when some candidate value is `true` or a string with non-whitespace content |
| `AuthWebhook.IsEmailConfirmedIff` | infra/database/supabase/functions/auth-webhook/index.ts:54-81 | confirmed iff the payload is truthy and the record (`record ?? user ?? payload`) has an accepted `email_confirmed_at`, `confirmed_at` or `email_confirmed`, or `event === "USER_VERIFIED"` |
| `AuthWebhook.ExtractUserFields` | infra/database/supabase/functions/auth-webhook/index.ts:87-101 | id comes from the record; first and last name come from `first_name`, else `firstName`, else null; metadata is kept |
| `AuthWebhook.ExtractUserNoMetadata` | infra/database/supabase/functions/auth-webhook/index.ts:95-99 | without `raw_user_meta_data` both names are null and metadata is `{}` |
| `AuthWebhook.HeaderSignature` | infra/database/supabase/functions/auth-webhook/index.ts:115-117 | `x-signature` when present and non-empty, else `x-supabase-webhook-source`, else `""` |
| `AuthWebhook.Screen` | infra/database/supabase/functions/auth-webhook/index.ts:119-159 | the check sequence only lets through a user whose id is truthy |
| `AuthWebhook.UpsertRowEffect` | infra/database/supabase/functions/auth-webhook/index.ts:178-182 | an upsert adds or merges the row under its conflict key, the payload's columns win, and every other key is untouched |
| `AuthWebhook.UpsertAbsorbs` | infra/database/supabase/functions/auth-webhook/index.ts:197-201 | a second upsert on the same key with at least the same columns absorbs the first |
| `AuthWebhook.Writes` | infra/database/supabase/functions/auth-webhook/index.ts:178-240 | the plan has four writes with a tenant and two without |
| `AuthWebhook.BadSecretRejected` | infra/database/supabase/functions/auth-webhook/index.ts:115-124 | a wrong secret gives 401 `invalid signature` with no writes, whatever the body parses to |
| `AuthWebhook.UnauthorizedIffBadSecret` | infra/database/supabase/functions/auth-webhook/index.ts:119-124 | status 401 happens exactly when the header secret differs from `WEBHOOK_SECRET` |
| `AuthWebhook.InvalidJsonRejected` | infra/database/supabase/functions/auth-webhook/index.ts:126-135 | a valid secret with an unparseable body gives 400 `invalid JSON` and no writes |
| `AuthWebhook.UnconfirmedIsNoOp` | infra/database/supabase/functions/auth-webhook/index.ts:145-151 | an unconfirmed payload gives 200 `{ok:false, reason:"email_not_confirmed"}` and no writes |
| `AuthWebhook.MissingIdRejected` | infra/database/supabase/functions/auth-webhook/index.ts:153-158 | a confirmed payload with no truthy id gives 400 `no user id` and no writes |
| `AuthWebhook.ProfileRowNames` | infra/database/supabase/functions/auth-webhook/index.ts:171-176 | the profile row has id and `created_at`, and carries each name only when it is truthy |
| `AuthWebhook.PlanOrder` | infra/database/supabase/functions/auth-webhook/index.ts:170-240 | profiles upsert on `id` first, tenant upserts on `(user_id, tenant_id)` with role `student` and status `trialing` only with a tenant, and the `user_confirmed` audit insert last |
| `AuthWebhook.RunRejects` | infra/database/supabase/functions/auth-webhook/index.ts:169-252 | the run reaches the catch exactly when some executed write's call rejects |
| `AuthWebhook.RunProfiles` | infra/database/supabase/functions/auth-webhook/index.ts:178-187 | the profiles table changes exactly by the upsert when that write succeeds |
| `AuthWebhook.RunUserTenants` | infra/database/supabase/functions/auth-webhook/index.ts:190-205 | user_tenants changes only with a tenant, an earlier write that did not throw, and a successful upsert |
| `AuthWebhook.RunMemberships` | infra/database/supabase/functions/auth-webhook/index.ts:208-224 | memberships changes only with a tenant, earlier writes that did not throw, and a successful upsert |
| `AuthWebhook.RunAuditLog` | infra/database/supabase/functions/auth-webhook/index.ts:227-243 | the audit log grows by exactly the audit row when no earlier write threw and the insert succeeded |
| `AuthWebhook.ErrorsDoNotStopLaterWrites` | infra/database/supabase/functions/auth-webhook/index.ts:184-187 | write errors that are returned, not thrown, leave every later write to happen |
| `AuthWebhook.InternalErrorIffRejection` | infra/database/supabase/functions/auth-webhook/index.ts:246-252 | the handler answers 500 exactly when some executed write's call rejects |
| `AuthWebhook.SecondRunAbsorbsFirst` | infra/database/supabase/functions/auth-webhook/index.ts:178-240 | replaying the plan leaves the keyed tables as if only the replay had run, and appends one audit row |
| `AuthWebhook.RowsDifferOnlyInStamp` | infra/database/supabase/functions/auth-webhook/index.ts:171-238 | two deliveries of one user produce rows that differ only in `created_at` |
| `AuthWebhook.RedeliveryIsIdempotent` | infra/database/supabase/functions/auth-webhook/index.ts:111-253 | redelivering an event gives the same response and keyed tables as one fresh delivery; the audit log grows by one per provisioning delivery |
| `AuthWebhook.UpsertAgainKeepsColumn` | infra/database/supabase/functions/auth-webhook/index.ts:178-182 | re-upserting an equal row keeps the key set and every column the rows agree on |
| `AuthWebhook.SecondRunKeepsColumn` | infra/database/supabase/functions/auth-webhook/index.ts:178-224 | a replay keeps the key sets and every column on which the two row sets agree |
| `AuthWebhook.RedeliveryChangesOnlyCreatedAt` | infra/database/supabase/functions/auth-webhook/index.ts:171-224 | a redelivery leaves one row per key and changes no column except `created_at` |
| `AuthWebhook.Database.constructor` | infra/database/supabase/functions/auth-webhook/index.ts:46-48 | the tables start as given |
| `AuthWebhook.Database.Upsert` | infra/database/supabase/functions/auth-webhook/index.ts:178-182 | reports the error flag and applies the upsert only when it does not fail |
| `AuthWebhook.Database.InsertAudit` | infra/database/supabase/functions/auth-webhook/index.ts:239-243 | reports the error flag and appends the row only when it does not fail |
| `AuthWebhook.ProfilePayload` | infra/database/supabase/functions/auth-webhook/index.ts:171-176 | builds the profile row that `ProfileRowNames` describes, adding the names one at a time |
| `AuthWebhook.ProvisionUser` | infra/database/supabase/functions/auth-webhook/index.ts:169-252 | executes the write plan in order on the database, with the effect and rejection flag of `Run` |
| `AuthWebhook.AuthWebhookHandler` | infra/database/supabase/functions/auth-webhook/index.ts:111-253 | the response and the new tables are those of `Handle` |
| `Gemini.UserPromptMentions` | src/lib/gemini.ts:25-42 | every user prompt contains the section and the topics |
| `Gemini.SchemaRequiresQuestionAndAnswer` | src/lib/gemini.ts:54-67 | the schema requires `question` and `answer`, both of type STRING |
| `Gemini.ModelFor` | src/lib/gemini.ts:74-96 | Pro exactly for `case`, Flash-Lite exactly for `mnemonic`, Flash otherwise |
| `Gemini.GenerationFor` | src/lib/gemini.ts:106-159 | 4096 tokens for `case` and 2048 otherwise; JSON and schema exactly for question/case; thinking budget unset for case, 0 for mnemonic, -1 for question/explain |
| `Gemini.TemperaturesRise` | src/lib/gemini.ts:118-152 | temperatures are 0.1, 0.15, 0.2 and 0.75, rising from case to question to explain to mnemonic |
| `Gemini.RequestForMentions` | src/lib/gemini.ts:175-200 | the request uses the type's model and config, and its prompt mentions section and topics |
| `Gemini.RetryFromFacts` | src/lib/gemini.ts:186-208 | at most three calls; wait k is 1000·2^k after a failure; it stops at the first success; giving up rethrows the last call's error without a wait |
| `Gemini.ThreeFailuresGiveUp` | src/lib/gemini.ts:186-208 | three failures give up with the third error after waits of 1000 and 2000 ms |
| `Gemini.RetryIgnoresErrorKind` | src/lib/gemini.ts:203-207 | the loop's outcome and waits do not depend on what the errors say |
| `Gemini.PieceOr` | src/lib/gemini.ts:251-252 | the trimmed piece when it is non-empty, else the placeholder |
| `Gemini.Fallback` | src/lib/gemini.ts:246-254 | the delimiter split always yields a non-empty, trimmed question and answer |
| `Gemini.FallbackWithoutDelimiter` | src/lib/gemini.ts:249-253 | without a delimiter, the question is the trimmed text and the answer is the missing-answer placeholder |
| `Gemini.FallbackAtFirstDelimiter` | src/lib/gemini.ts:249-253 | the question is the text before the first case-insensitive delimiter; the answer is the first piece after it |
| `Gemini.ParseOrSplit` | src/lib/gemini.ts:230-254 | the JSON-or-split path always has an answer, and both fields are trimmed |
| `Gemini.ParseOrSplitStructured` | src/lib/gemini.ts:233-240 | a parsed object with string `question` and `answer` yields both trimmed |
| `Gemini.Normalize` | src/lib/gemini.ts:215-267 | throws exactly on missing or empty text; has an answer exactly for question/case; trimmed fields |
| `Gemini.NormalizeStructured` | src/lib/gemini.ts:226-240 | for question/case with candidate text and a well-typed JSON object, the trimmed fields |
| `Gemini.NormalizeUnparsed` | src/lib/gemini.ts:226-261 | question/case without first-part text give the whole trimmed text as the question and the fixed not-parsed notice as the answer |
| `Gemini.NormalizeParsesCandidate` | src/lib/gemini.ts:226-254 | question/case with first-part text take the parse-or-split path on the whole response text |
| `Gemini.NormalizeFreeText` | src/lib/gemini.ts:264-267 | explain/mnemonic return only the trimmed text |
| `Gemini.ErrorMessage` | src/lib/gemini.ts:269-283 | every failure becomes one of the four fixed messages |
| `Gemini.ErrorMessageOrder` | src/lib/gemini.ts:275-283 | `quota`/`429` wins, then `safety`/`400`, then `network`/`fetch`; the generic message exactly when none occurs |
| `Gemini.GenerateFailuresAreFixed` | src/lib/gemini.ts:169-285 | fewer than three waits, and a failure always carries one of the four messages |
| `Gemini.JsonConfigMatchesAnswer` | src/lib/gemini.ts:113-267 | a generated response has an answer exactly when the config asked for JSON |
| `Gemini.Attempt` | src/lib/gemini.ts:186-208 | the `for` loop computes the attempts and waits of `RetryFrom` |
| `Gemini.GenerateContent` | src/lib/gemini.ts:169-285 | result and waits are those of `GenerateSpec` for the type's request |
| `Gemini.ContentTitle` | src/lib/gemini.ts:344-353 | the title ends with the section after a non-empty prefix |
| `Gemini.ContentTitleInjective` | src/lib/gemini.ts:344-353 | the title determines both the type and the section |
| `Gemini.GetModelInfo` | src/lib/gemini.ts:360-390 | reports the type's model, with cost Alto for case, Bajo for mnemonic and Medio otherwise |
| `AIModal.UserPromptMentions` | src/contexts/AIModalContext.tsx:53-65 | every modal prompt contains the section and the topics |
| `AIModal.TitleAgreesWithContentTitle` | src/contexts/AIModalContext.tsx:67-72 | the modal's titles are the library's content titles |
| `AIModal.Classify` | src/contexts/AIModalContext.tsx:83-93 | an attempt passes exactly on an ok status; 429 and 5xx throw an HTTP error |
| `AIModal.BackoffFromFacts` | src/contexts/AIModalContext.tsx:74-104 | fewer waits than remaining attempts, wait k is delay·2^k, and every waited-after attempt failed |
| `AIModal.BackoffEnds` | src/contexts/AIModalContext.tsx:74-104 | resolves with the first successful body; rejects with the last attempt's error or the body's JSON rejection; resolves to nothing only when no attempt is allowed |
| `AIModal.FailuresAreRetried` | src/contexts/AIModalContext.tsx:83-101 | a network failure or any non-ok status before the last attempt waits `delay` and retries with `delay * 2` |
| `AIModal.JsonRejectionIsNotRetried` | src/contexts/AIModalContext.tsx:93 | a body that is not JSON rejects at once, with no retry |
| `AIModal.FiveFailuresGiveUp` | src/contexts/AIModalContext.tsx:74-104 | five failures rethrow the fifth error after waits of 1000, 2000, 4000 and 8000 ms |
| `AIModal.FetchWithBackoff` | src/contexts/AIModalContext.tsx:74-104 | the loop computes the outcome and waits of `BackoffFrom` with delay 1000 |
| `AIModal.Contents` | src/contexts/AIModalContext.tsx:128-155 | a rejected fetch or a null result gives the error HTML; explain/mnemonic never have an answer |
| `AIModal.TextContentsSplit` | src/contexts/AIModalContext.tsx:131-145 | question/case render the text before the first delimiter as the question and the text after it, up to the next delimiter, as the answer; with no delimiter, the whole text and `''`; other types, the whole text and an empty answer |
| `AIModal.ContentsOfText` | src/contexts/AIModalContext.tsx:129 | the candidate text is used when truthy, else the fixed fallback text |
| `AIModal.NonStringTextIsError` | src/contexts/AIModalContext.tsx:132-155 | a truthy non-string candidate text makes `split` throw, which shows the error HTML |
| `AIModal.StartedOpensLoading` | src/contexts/AIModalContext.tsx:107-115 | open-start opens, starts loading, hides the answer, clears both contents and sets the title |
| `AIModal.CompletionWritesOnlyContents` | src/contexts/AIModalContext.tsx:133-154 | completion clears loading, writes both contents and changes nothing else |
| `AIModal.CloseDuringLoad` | src/contexts/AIModalContext.tsx:107-166 | a completion after a close leaves the modal closed and not loading |
| `AIModal.CloseKeepsLoadingAndTitle` | src/contexts/AIModalContext.tsx:158-166 | close hides everything and keeps `loading` and `modalTitle` |
| `AIModal.RevealTwiceRestores` | src/contexts/AIModalContext.tsx:168-173 | reveal flips only `showAnswer`; twice restores the state |
| `AIModal.AIModalProvider.constructor` | src/contexts/AIModalContext.tsx:35-42 | the initial state record |
| `AIModal.AIModalProvider.OpenStart` | src/contexts/AIModalContext.tsx:107-115 | the state becomes `Started` of the old state |
| `AIModal.AIModalProvider.OpenComplete` | src/contexts/AIModalContext.tsx:128-155 | the state becomes `Completed` with the contents of the fetched result |
| `AIModal.AIModalProvider.OpenModal` | src/contexts/AIModalContext.tsx:106-156 | open-start, five-attempt backoff fetch, then completion |
| `AIModal.AIModalProvider.CloseModal` | src/contexts/AIModalContext.tsx:158-166 | the state becomes `Closed` of the old state |
| `AIModal.AIModalProvider.RevealAnswer` | src/contexts/AIModalContext.tsx:168-173 | the state becomes `Revealed` of the old state |
| `SignUp.EmailMatchesIffShape` | apps/web/src/app/signup/page.tsx:47-48 | the regex matches exactly `local@domain`: one `@`, no whitespace, non-empty local part, and a domain with an inner `.` |
| `SignUp.FirstFailureIsFirst` | apps/web/src/app/signup/page.tsx:34-61 | no failure iff every check passes; otherwise the reported check fails and every earlier one passes |
| `SignUp.ValidateForm` | apps/web/src/app/signup/page.tsx:34-61 | null exactly when all checks pass |
| `SignUp.MessagesDistinct` | apps/web/src/app/signup/page.tsx:36-57 | each check has its own message |
| `SignUp.BlankFieldsRejected` | apps/web/src/app/signup/page.tsx:35-45 | whitespace-only first name, last name or e-mail is reported, in that order |
| `SignUp.PasswordBoundary` | apps/web/src/app/signup/page.tsx:52-54 | with earlier checks passing, a password of 5 UTF-16 code units is too short and one of 6 is not |
| `SignUp.EmojiPasswordLongEnough` | apps/web/src/app/signup/page.tsx:52-54 | with earlier checks passing, three emoji (six code units) are not reported as too short |
| `JsText.Utf16Length` | apps/web/src/app/signup/page.tsx:52 | the JavaScript `length` lies between the number of characters and twice it, and equals it iff no character is astral |
| `JsText.Utf16LengthAppend` | apps/web/src/app/signup/page.tsx:52 | the code units of a concatenation add up |
| `JsText.ThreeEmojiAreSixUnits` | apps/web/src/app/signup/page.tsx:52 | three emoji have `length` 6 |
| `SignUp.MismatchReportedLast` | apps/web/src/app/signup/page.tsx:56-58 | the mismatch message appears iff all earlier checks pass and the passwords differ |
| `SignUp.SubmitGating` | apps/web/src/app/signup/page.tsx:63-89 | sign-up is called iff validation passes; a failure sets only the error; after the call, loading is false, success follows a user with no error, and the error is the auth or the unexpected message |
| `SignUp.WithFieldChangesOnlyThatField` | apps/web/src/app/signup/page.tsx:91-97 | only the named field changes |
| `SignUp.SignUpPage.constructor` | apps/web/src/app/signup/page.tsx:10-19 | empty credentials, not loading, no error, no success |
| `SignUp.SignUpPage.HandleSubmit` | apps/web/src/app/signup/page.tsx:63-89 | state and call flag are those of `Submitted` |
| `SignUp.SignUpPage.HandleInputChange` | apps/web/src/app/signup/page.tsx:91-97 | only the named credential field takes the new value |
| `AreasTopics.GroupByArea` | packages/sdk/src/hooks-areas.ts:25-30 | each key maps to exactly the topics with that `area_id`, in fetched order; a key is present iff it has a topic |
| `AreasTopics.GroupOfLists` | packages/sdk/src/hooks-areas.ts:25-30 | the dictionary built topic by topic lists under each key exactly the topics with that key, in order, and has a key iff some topic has it |
| `AreasTopics.Merge` | packages/sdk/src/hooks-areas.ts:31-34 | one entry per area, in order, with the area kept |
| `AreasTopics.Join` | packages/sdk/src/hooks-areas.ts:25-34 | entry i is area i with exactly the topics whose `area_id` is its id, in fetched order |
| `AreasTopics.TopicsOfMembers` | packages/sdk/src/hooks-areas.ts:27-29 | a topic is in a group iff it was fetched with that key |
| `AreasTopics.TopicsOfAppend` | packages/sdk/src/hooks-areas.ts:26-30 | grouping keeps the fetched relative order |
| `AreasTopics.JoinedMatching` | packages/sdk/src/hooks-areas.ts:33 | an area with no matching topic gets `[]`; a topic matching no area appears nowhere |
| `AreasTopics.CountAddTopic` | packages/sdk/src/hooks-areas.ts:25-34 | one more topic adds as many entries as there are areas with its key |
| `AreasTopics.OccurrencesDistinct` | packages/sdk/src/hooks-areas.ts:31-34 | with distinct ids a key occurs once or not at all |
| `AreasTopics.JoinedCount` | packages/sdk/src/hooks-areas.ts:25-34 | with unique area ids, the total topic count is the number of topics matching some area |
| `AreasTopics.ZeroCount` | packages/sdk/src/hooks-areas.ts:31-34 | no topics give a count of zero |
| `AreasTopics.SettledOutcome` | packages/sdk/src/hooks-areas.ts:35-42 | loading ends; success clears the error and installs the areas joined with their topics, one entry per area; failure keeps the areas and sets the rejection's own message, or the default when it has none |
| `AreasTopics.CleanedRunStaysCleaned` | packages/sdk/src/hooks-areas.ts:19-47 | a run's `mounted` flag, once cleared by its cleanup, stays cleared whatever runs start or end later |
| `AreasTopics.StaleSettlementIgnored` | packages/sdk/src/hooks-areas.ts:19-47 | the settlement of a cleaned-up run leaves the hook unchanged, even after later runs were mounted |
| `AreasTopics.RemountIgnoresStaleRejection` | packages/sdk/src/hooks-areas.ts:19-47 | run, cleanup, run, then the first run's rejection: no error is set and the second run is still loading |
| `AreasTopics.StepsAppend` | packages/sdk/src/hooks-areas.ts:19-47 | running two event lists one after the other is running their concatenation |
| `AreasTopics.AreasHook.constructor` | packages/sdk/src/hooks-areas.ts:15-17 | no areas, loading, no error, no effect run yet |
| `AreasTopics.AreasHook.Mount` | packages/sdk/src/hooks-areas.ts:20-21 | a new run with its own flag set, and loading set |
| `AreasTopics.AreasHook.Unmount` | packages/sdk/src/hooks-areas.ts:45-47 | only the given run's flag is cleared; the state is unchanged |
| `AreasTopics.AreasHook.Settle` | packages/sdk/src/hooks-areas.ts:23-43 | while the given run is mounted the state becomes `Settled`; once that run is cleaned up nothing changes |
| `CardFormat.CloseFrom` | src/components/StudySectionCard.tsx:42 | a closing `**` found lies at or after the start |
| `CardFormat.CloseFromIsShortest` | src/components/StudySectionCard.tsx:42 | the closing `**` is the first one, with no line terminator before it; when none is found, every later `**` lies behind a line terminator |
| `CardFormat.MatchAt` | src/components/StudySectionCard.tsx:42 | a match opens with `**` at i and closes with `**` at least two characters later |
| `CardFormat.BreakLinesRemovesNewlines` | src/components/StudySectionCard.tsx:43 | no `\n` remains, and newline-free text is unchanged |
| `CardFormat.FormatCard` | src/components/StudySectionCard.tsx:42-43 | the output contains no `\n` |
| `CardFormat.BreakLinesAppend` | src/components/StudySectionCard.tsx:43 | the newline replacement works piecewise |
| `CardFormat.BoldWithoutMatch` | src/components/StudySectionCard.tsx:42 | text without a match is unchanged |
| `CardFormat.BoldAtFirstMatch` | src/components/StudySectionCard.tsx:42 | the leftmost match becomes `<strong>…</strong>` and the scan resumes after its closing `**` |
| `CardFormat.NoStarsOnlyBreaksLines` | src/components/StudySectionCard.tsx:42-43 | content without `**` changes only by the newline substitution |
| `CardFormat.BoldWhole` | src/components/StudySectionCard.tsx:42 | a text that is one match becomes one strong element |
| `CardFormat.BoldPair` | src/components/StudySectionCard.tsx:42 | `**x**` becomes `<strong>x</strong>` |
| `CardFormat.CloseFromReaches` | src/components/StudySectionCard.tsx:42 | the lazy scan stops at the first `**` on the same line |
| `CardFormat.FourStarsIsEmptyBold` | src/components/StudySectionCard.tsx:42 | `****` becomes `<strong></strong>` |
| `CardFormat.UnpairedStarsKept` | src/components/StudySectionCard.tsx:42 | an unpaired trailing `**` is kept literally |
| `CardFormat.BoldStopsAtLineBreak` | src/components/StudySectionCard.tsx:42-43 | `**a\nb**` keeps its asterisks and only gains a `<br>` |
| `ThemePersistence.Parse` | apps/web/src/lib/theme.ts:9 | accepts exactly the three theme names |
| `ThemePersistence.ParseName` | apps/web/src/lib/theme.ts:1-9 | every theme's name reads back as that theme |
| `ThemePersistence.StoredTheme` | apps/web/src/lib/theme.ts:6-14 | a theme only from readable storage under `repaso:theme` holding its exact name; null for any other stored value |
| `ThemePersistence.SetThenGet` | apps/web/src/lib/theme.ts:3-24 | after a write the read returns the theme, and other keys are kept |
| `ThemePersistence.MaxAgeDigits` | apps/web/src/lib/theme.ts:30 | one year of seconds renders as `31536000` |
| `ThemePersistence.CookieStringIs` | apps/web/src/lib/theme.ts:26-32 | the cookie is `repaso:theme=<t>; Path=/; Max-Age=31536000` |
| `ThemePersistence.CookiePairOfCookieString` | apps/web/src/lib/theme.ts:26-32 | the cookie's name-value pair (section 5.2 of RFC 6265) is `repaso:theme` and the theme name |
| `ThemePersistence.SystemTheme` | apps/web/src/lib/theme.ts:34-39 | never auto; light without a window; dark exactly when the media query matches |
| `ThemePersistence.AttributeFor` | apps/web/src/lib/theme.ts:44-49 | an attribute exactly for light and dark, equal to the theme's name |
| `ThemePersistence.ApplyIdempotent` | apps/web/src/lib/theme.ts:41-50 | applying twice equals applying once; only the attribute changes |
| `ThemePersistence.InitThemeResult` | apps/web/src/lib/theme.ts:52-57 | the stored theme, else auto, and the attribute is that of applying it |
| `ThemePersistence.ServerThemeAgreesWithApply` | apps/web/src/app/layout.tsx:26-30 | the server's attribute from the cookie equals what applying the cookie's theme sets; anything else gives none |
| `ThemePersistence.ServerSeesCookieTheme` | apps/web/src/app/layout.tsx:27-30 | after the cookie is written, the server reads back the attribute of that theme |
| `ThemePersistence.SwitcherChangeAgrees` | apps/web/src/components/ThemeSwitcher.tsx:22-27 | after a change, stored value, cookie, attribute and the server's reading all agree with the new theme |
| `ThemePersistence.Browser.constructor` | apps/web/src/lib/theme.ts:1-4 | the browser starts with the given environment and store |
| `ThemePersistence.Browser.GetStoredTheme` | apps/web/src/lib/theme.ts:6-14 | returns `StoredTheme` of the current store |
| `ThemePersistence.Browser.SetStoredTheme` | apps/web/src/lib/theme.ts:16-24 | the store becomes `WithStoredTheme` |
| `ThemePersistence.Browser.SetThemeCookie` | apps/web/src/lib/theme.ts:26-32 | the store becomes `WithCookie` |
| `ThemePersistence.Browser.GetSystemTheme` | apps/web/src/lib/theme.ts:34-39 | returns `SystemTheme` |
| `ThemePersistence.Browser.ApplyTheme` | apps/web/src/lib/theme.ts:41-50 | the store becomes `Applied` |
| `ThemePersistence.Browser.InitThemeFromStorage` | apps/web/src/lib/theme.ts:52-57 | result and store are those of `InitTheme` |
| `ThemePersistence.ThemeSwitcher.constructor` | apps/web/src/components/ThemeSwitcher.tsx:14 | the switcher starts at auto |
| `ThemePersistence.ThemeSwitcher.Mount` | apps/web/src/components/ThemeSwitcher.tsx:16-20 | the state and the browser become those of `InitTheme` |
| `ThemePersistence.ThemeSwitcher.HandleChange` | apps/web/src/components/ThemeSwitcher.tsx:22-27 | the state is the new theme and the browser is `SwitcherChanged` |
| `StudySections.Section1WellFormed` | src/data/studySections.ts:22-89 | section 1: id 1, subtitle `Peso: 15%`, four cards, buttons question/case/explain with the labels and colours of their types |
| `StudySections.Section2WellFormed` | src/data/studySections.ts:92-154 | section 2: id 2, weight `14%`, four cards, question/case/explain |
| `StudySections.Section3WellFormed` | src/data/studySections.ts:157-217 | section 3: id 3, weight `14%`, four cards, question/case/mnemonic |
| `StudySections.Section4WellFormed` | src/data/studySections.ts:220-268 | section 4: id 4, weight `13%`, four cards, question/explain |
| `StudySections.Section5WellFormed` | src/data/studySections.ts:271-321 | section 5: id 5, weight `12%`, four cards, question/mnemonic |
| `StudySections.Section6WellFormed` | src/data/studySections.ts:324-371 | section 6: id 6, weight `12%`, four cards, question/explain |
| `StudySections.Section7WellFormed` | src/data/studySections.ts:374-424 | section 7: id 7, weight `12%`, four cards, question/mnemonic |
| `StudySections.Section8WellFormed` | src/data/studySections.ts:427-474 | section 8: id 8, weight `8%`, four cards, question/explain |
| `StudySections.TableWellFormed` | src/data/studySections.ts:20-478 | eight sections, ids 1..8 in order, each with subtitle `Peso: ` + weight, weight equal to the chart value, four cards, first button question, distinct types, type-determined label and colours, one section name |
| `StudySections.ChartWeights` | src/components/ExamWeightsChart.tsx:22 | the chart weights never increase and sum to 100 |

## Left out

- `streamContent` (src/lib/gemini.ts:295-336) is not modelled. It forwards a streaming call to the Gemini SDK, so there is no logic of its own to state.
- `AuthWebhook.InternalErrorBody`: the 500 body keeps only `error: "internal_error"` and omits `details: String(err)` (infra/database/supabase/functions/auth-webhook/index.ts:248-251), because the text of a thrown exception is not part of the model.
- `isApiKeyConfigured` and the API-key placeholder in the modal context are configuration and are not modelled.
- `onSystemThemeChange` registers a media-query listener. Event subscription is not modelled.
- The contents of cards and the topics of buttons are left out. Card titles, button labels, colours and section names are kept. The Gemini and modal system prompts and user-prompt templates are kept verbatim, with the section and the topics as the holes.
- JSX, styling, routing, logging, `import.meta.env.DEV` branches and the React effect scheduler are not modelled. Effect runs, cleanups and settlements are explicit calls in any order; each run's `mounted` closure variable is its own entry of the hook's `runs` list. When React reruns the effect (for example because the page passes a new client) is not modelled.
- Real time is a list of waits, and `new Date().toISOString()` is a supplied timestamp.
- Temperatures are integer thousandths. No arithmetic is done on them in the source.
- `JSON.parse` results cannot hold `Date` values, so the `instanceof Date` test of `isEmailConfirmed` never succeeds and is not modelled.
- The last candidate in `isEmailConfirmed` (`type === "user.updated" && email_confirmed_at`) can only accept when `email_confirmed_at` already does. It adds no case.
- Header lookup is a map keyed by lower-case names. HTTP header names are case-insensitive, so this is what `Headers.get` sees.
- Object keys inherited from `Object.prototype` (`__proto__`, `constructor`) are not modelled in the topic grouping or in JSON objects.
- The database is an abstract table map. Upsert merges the payload's columns into the row with the same conflict key, as a PostgREST `merge-duplicates` upsert does. Row-level security, triggers and constraints of the hosted database are not modelled.
- `marked.parse` is an uninterpreted rendering function.
- `fetch` and the Gemini SDK call are given as functions from attempt number to outcome. The request payload is kept, but not its serialisation.
- `ThemePersistence.CookiePairOfCookieString`: reads the pair by splitting at the first `=` and `;` and omits the whitespace trimming of section 5.2 of RFC 6265, because the written cookie has none around its name and value.
- Storage throwing is a fixed property of the environment: every read throws or none does, and likewise for writes.
- `AuthWebhook.Screen`: states only that a user let through has a truthy id. The status codes of each path are stated by `BadSecretRejected`, `InvalidJsonRejected`, `UnconfirmedIsNoOp` and `MissingIdRejected` over `Handle`.
- `CardFormat.CloseFrom`: states only where the closing `**` lies. Shortest-match and line-terminator facts are stated separately by `CardFormat.CloseFromIsShortest`.
