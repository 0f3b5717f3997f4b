# think-tonic core, modelled in Dafny

This project models the working parts of think-tonic, a supply-chain innovation portal. People submit ideas, brainstorm with a language model that runs in the browser, browse a knowledge base, and see the top idea and usage analytics. A hosted edge function also answers supply-chain chat requests through a chat-completion service.

The model has one module per part of the program:

| module | file | models |
|---|---|---|
| `Text` | text.dfy | the JavaScript string operations the program relies on: `indexOf`, `split`, `join`, `trim` (ECMAScript white space and line terminators), `substring`, ASCII `toLowerCase`, decimal rendering of numbers |
| `Categories` | categories.dfy | the six idea categories and their display labels, shared by the form, the best-idea dialog and the dashboard |
| `LocalAI` | local_ai.dfy | `src/services/localAI.ts`: the brainstorming service (a class with `textGenerator` and `isInitialized`), its WebGPU-then-WASM set-up, the two prompts, extraction of the idea from the generated text, and the module-level singleton |
| `AIBrainstorming` | ai_brainstorming.dfy | `src/components/AIBrainstorming.tsx`: the chat session (a class), its welcome message, sending, and the Enter key |
| `IdeaSubmission` | idea_submission.dfy | `src/components/IdeaSubmissionForm.tsx`: the form (a class) and the users/ideas/counters store it writes to (a class), find-or-create of the submitter, best-effort counter |
| `Backend` | backend.dfy | the shape of a hosted-table answer: an error, or data that may be null |
| `KnowledgeBase` | knowledge_base.dfy | `src/components/KnowledgeBase.tsx`: loading, article submission, the case-insensitive search and the CSV export |
| `BestIdeaDisplay` | best_idea.dfy | `src/components/BestIdeaDisplay.tsx`: selection of the top-voted idea, icons, labels, share text, and the dialog's fetch |
| `AnalyticsDashboard` | analytics.dfy | `src/components/AnalyticsDashboard.tsx`: the charts, the headline numbers, slice colours and the fetch |
| `SupplyChainAI` | supply_chain_ai.dfy | `supabase/functions/supply-chain-ai/index.ts`: the request handler, the knowledge lookup, the system prompt and the message list |

Parts of the program change state step by step: the service, the chat session, the forms, the store and the views. Those are classes whose methods name what they modify. Each method's postcondition gives the whole new state in terms of the old one.

The lookups, prompts, search, export, selection and the edge function are pure functions. Lemmas relate each of them to a partner: an inverse, a reference definition, or an invariant.

The language model, the hosted tables and the completion service are not modelled. What they do for a given call is an input. A generator reply, a query answer and an upstream reply are datatypes. A failure is one of their cases.

## Model

| member | source | states |
|---|---|---|
| `Text.IndexOf` | src/services/localAI.ts:83 | finds the first occurrence of a substring, and finds one exactly when the substring occurs |
| `Text.JoinSplit` | src/services/localAI.ts:83-84 | joining the pieces of a split with the same separator gives back the original string |
| `Text.SplitJoin` | src/components/KnowledgeBase.tsx:154-157 | splitting a join on a one-character separator that no piece contains gives back the pieces |
| `Text.SplitPartsAreInfixes` | src/services/localAI.ts:83 | every piece of a split is a contiguous part of the split string |
| `Text.FirstLine` | src/services/localAI.ts:84 | `split("\n")[0]` is a prefix with no line break, and equals the whole text exactly when the text has no line break |
| `Text.Trim` | src/components/AIBrainstorming.tsx:82 | the trimmed text is a contiguous part of the input, with no white space at either end |
| `Text.TrimBlank` | src/components/AIBrainstorming.tsx:82 | trimming leaves nothing exactly when every character of the input is white space, so a blank message is one made only of white space |
| `Text.Prefix` | src/components/KnowledgeBase.tsx:137 | `substring(0, n)` is the first min(n, length) characters |
| `Text.ToLower` | src/components/KnowledgeBase.tsx:176 | lower-casing keeps the length and maps each character on its own, changing only A-Z |
| `Text.NatToStringRoundTrip` | src/components/KnowledgeBase.tsx:139 | reading back the decimal digits a number renders to gives the number |
| `Categories.LabelOr` | src/components/AnalyticsDashboard.tsx:20-27 | the six identifiers map to their non-empty labels; any other string gives the fallback |
| `Categories.LabelsCoverIds` | src/components/IdeaSubmissionForm.tsx:18-25 | the label table is keyed by exactly the six identifiers the form offers |
| `Categories.LabelDiffersFromId` | src/components/BestIdeaDisplay.tsx:95-105 | "label, or the identifier itself" returns the identifier exactly when it is unlisted |
| `LocalAI.CategoryContext` | src/services/localAI.ts:45-55 | a listed category gets its own guidance text; any other gets the general supply-chain text |
| `LocalAI.ContextsDistinct` | src/services/localAI.ts:46-53 | two different listed categories never share a guidance text |
| `LocalAI.GeneratePrompt` | src/services/localAI.ts:63-69 | the prompt contains the category, its guidance and the problem statement verbatim, and ends with the "Idea:" marker |
| `LocalAI.RefinePrompt` | src/services/localAI.ts:97-105 | the prompt contains the category, the current idea and the feedback verbatim, and ends with the "Refined Idea:" marker |
| `LocalAI.ExtractIdea` | src/services/localAI.ts:83-84 | the idea is a contiguous part of the generated text, and is empty only when that text is empty |
| `LocalAI.SplitSecondPiece` | src/services/localAI.ts:83 | `split(marker)[1]` exists exactly when the marker occurs, and is the text between the first marker and the next one (or the end) |
| `LocalAI.ExtractIdeaCases` | src/services/localAI.ts:80-84 | after a marker followed by non-blank text, the idea is that text's first line, trimmed, non-empty and without a line break; otherwise it is the output's first line, or all of it when that line is empty |
| `LocalAI.LocalAIBrainstorming.constructor` | src/services/localAI.ts:8-10 | a new service has no generator and is not initialised |
| `LocalAI.LocalAIBrainstorming.Initialize` | src/services/localAI.ts:12-43 | once initialised it does nothing and calls no pipeline; otherwise it tries WebGPU, then WASM only if WebGPU failed, keeps the first generator that loads, and fails with "Unable to initialize local AI model" when both fail |
| `LocalAI.LocalAIBrainstorming.GenerateIdea` | src/services/localAI.ts:57-89 | not ready: "AI model not initialized" and no generator call; ready: the generator gets the generate prompt, and its output yields the extracted idea; a throw or a missing text gives "Failed to generate idea" |
| `LocalAI.LocalAIBrainstorming.RefineIdea` | src/services/localAI.ts:91-123 | the same guard and failures as generating, with the refine prompt, the "Refined Idea:" marker and "Failed to refine idea" |
| `LocalAI.ServiceRegistry.GetBrainstormingService` | src/services/localAI.ts:127-135 | the first call stores a new service before initialising it and reports the failure, if any; later calls return the stored service unchanged |
| `LocalAI.FailedInitIsNotRetried` | src/services/localAI.ts:129-135 | after a failed first initialisation, the second call returns the stored uninitialised service, and generating fails without calling the generator |
| `LocalAI.ServiceRegistry.GetInitializedService` | src/services/localAI.ts:129-135 | corrected accessor: succeeds exactly when the stored service was ready or a load succeeds, and then returns a ready service |
| `LocalAI.FailedInitIsRetried` | src/services/localAI.ts:129-135 | with the corrected accessor, a later call whose load succeeds yields a ready service, and generating sends the prompt |
| `AIBrainstorming.DescriptionText` | src/components/AIBrainstorming.tsx:25-32 | a listed category gets its description; an unlisted one renders as "undefined" |
| `AIBrainstorming.WelcomeNamesCategory` | src/components/AIBrainstorming.tsx:61-66 | the welcome message names the category label and contains the category's description |
| `AIBrainstorming.BrainstormSession.constructor` | src/components/AIBrainstorming.tsx:35-39 | a new session has no messages, an empty input and no idea, and is initialising |
| `AIBrainstorming.BrainstormSession.InitializeAI` | src/components/AIBrainstorming.tsx:55-79 | the spinner stops; on success the list is exactly the welcome message; on failure it is unchanged |
| `AIBrainstorming.BrainstormSession.SendMessage` | src/components/AIBrainstorming.tsx:81-127 | a send happens exactly when the button is enabled. It appends the trimmed user message and clears the input. It refines exactly when an idea is current and generates otherwise. A reply is appended and becomes the current idea; a failure appends nothing more. Loading ends |
| `AIBrainstorming.BrainstormSession.HandleKeyPress` | src/components/AIBrainstorming.tsx:129-134 | Enter without Shift suppresses the default and sends; any other key changes nothing |
| `AIBrainstorming.TypeAndSend` | src/components/AIBrainstorming.tsx:81-127 | typing into an idle session and sending appends the trimmed text and the answer, makes the answer current, and asks to refine exactly when an idea was already current |
| `AIBrainstorming.GenerateThenRefine` | src/components/AIBrainstorming.tsx:81-127 | from mounting, a problem then feedback produce a generate call, then a refine call on the first idea, and a five-message log in order |
| `IdeaSubmission.UsersWithEmail` | src/components/IdeaSubmissionForm.tsx:44-47 | the ids listed are exactly those of the users whose email matches |
| `IdeaSubmission.LookupByEmail` | src/components/IdeaSubmissionForm.tsx:44-52 | a user found has the email; a user is found exactly when one id matches; with no matching user nothing is found |
| `IdeaSubmission.OnlyMatchListed` | src/components/IdeaSubmissionForm.tsx:44-48 | when one row alone has the email, its id is the only match |
| `IdeaSubmission.NoMatchListed` | src/components/IdeaSubmissionForm.tsx:44-48 | with no row carrying the email, nothing matches |
| `IdeaSubmission.UniqueMatchFound` | src/components/IdeaSubmissionForm.tsx:44-52 | when exactly one user has the email, the lookup finds that user's id, which the form reuses |
| `IdeaSubmission.TwoMatchesCounted` | src/components/IdeaSubmissionForm.tsx:44-48 | two users with the same email make at least two matches |
| `IdeaSubmission.DuplicateEmailLooksMissing` | src/components/IdeaSubmissionForm.tsx:44-53 | with two users sharing an email, `single()` finds nobody, so the form creates another user |
| `IdeaSubmission.Incremented` | src/components/IdeaSubmissionForm.tsx:77-79 | the category's counter goes up by one (from 0 when absent); every other counter is unchanged |
| `IdeaSubmission.Store.InsertUser` | src/components/IdeaSubmissionForm.tsx:54-61 | a successful insert appends the user with a fresh id and returns it; a failed one changes nothing |
| `IdeaSubmission.Store.InsertIdea` | src/components/IdeaSubmissionForm.tsx:65-74 | a successful insert appends the idea; a failed one changes nothing |
| `IdeaSubmission.Store.IncrementIdeaCount` | src/components/IdeaSubmissionForm.tsx:77-81 | a successful call increments the category's counter; a failed one changes nothing |
| `IdeaSubmission.BrainstormRequest` | src/components/IdeaSubmissionForm.tsx:205-214 | the button exists exactly when a category is chosen; it passes the category and its label, "Unknown" exactly when unlisted and the listed label otherwise |
| `IdeaSubmission.SubmissionForm.constructor` | src/components/IdeaSubmissionForm.tsx:28-35 | a new form holds the given data and is neither submitting nor closed |
| `IdeaSubmission.SubmissionForm.HandleSubmit` | src/components/IdeaSubmissionForm.tsx:38-99 | reuses the one user with this email or creates one. A failed user insert stores no idea; a failed idea insert touches no counter. A counter failure does not stop success. The form closes exactly on success, and submitting ends on every path |
| `IdeaSubmission.EmailNeedsBothParts` | src/components/IdeaSubmissionForm.tsx:126-133 | the e-mail field rejects an address with nothing before or nothing after the `@` |
| `IdeaSubmission.SubmissionForm.ClickSubmit` | src/components/IdeaSubmissionForm.tsx:111-226 | a click submits exactly when the button is enabled (not submitting, category chosen) and the browser's checks pass (name, title and description filled, a valid e-mail address); the submission then has `handleSubmit`'s full effect; otherwise nothing changes |
| `IdeaSubmission.SecondSubmissionReusesUser` | src/components/IdeaSubmissionForm.tsx:44-62 | two submissions with a new email create one user, and both ideas point at it |
| `KnowledgeBase.Filter` | src/components/KnowledgeBase.tsx:175-185 | the kept items are exactly the input items the test accepts |
| `KnowledgeBase.FilterAppend` | src/components/KnowledgeBase.tsx:175-185 | filtering keeps the input order: filtering a concatenation concatenates the filtered parts |
| `KnowledgeBase.FilterKeepsAll` | src/components/KnowledgeBase.tsx:175-185 | when every item passes, the list comes back unchanged |
| `KnowledgeBase.FilteredArticles` | src/components/KnowledgeBase.tsx:175-179 | an article is listed exactly when its title, content or category contains the term, ignoring case |
| `KnowledgeBase.FilteredIdeas` | src/components/KnowledgeBase.tsx:181-185 | an idea is listed exactly when its title, description or category contains the term, ignoring case |
| `KnowledgeBase.EmptyTermKeepsEverything` | src/components/KnowledgeBase.tsx:175-185 | an empty search term lists every article and every idea, in order |
| `KnowledgeBase.SearchIgnoresTermCase` | src/components/KnowledgeBase.tsx:175-179 | lower-casing the term does not change which articles are listed |
| `KnowledgeBase.Excerpt` | src/components/KnowledgeBase.tsx:137 | the first 100 characters (or all of a shorter text) followed by "...", added even when nothing was cut |
| `KnowledgeBase.ExportRows` | src/components/KnowledgeBase.tsx:133-152 | every article, then every idea, one row each in order, with type, title, excerpt, category and votes taken from it, and author "Anonymous" |
| `KnowledgeBase.CsvContent` | src/components/KnowledgeBase.tsx:154-157 | no CSV text exists for an empty export (the header read throws) |
| `KnowledgeBase.RowLineHasNoBreak` | src/components/KnowledgeBase.tsx:156 | a row whose values have no line break is written on one line |
| `KnowledgeBase.CsvLinesRecoverable` | src/components/KnowledgeBase.tsx:154-157 | with no line break in any value, the CSV text splits into the header "Type,Title,Content,Category,Votes,Author,Date" followed by exactly one line per row, in order |
| `KnowledgeBase.VotesRoundTrip` | src/components/KnowledgeBase.tsx:139 | the Votes column reads back as the vote count |
| `KnowledgeBase.KnowledgeBaseView.constructor` | src/components/KnowledgeBase.tsx:30-40 | the page starts loading, with empty lists, no search, a closed dialog and a blank draft |
| `KnowledgeBase.KnowledgeBaseView.FetchData` | src/components/KnowledgeBase.tsx:56-89 | the ideas are queried only if the articles query succeeded; the lists are replaced (null becoming empty) only when both succeed; loading ends |
| `KnowledgeBase.KnowledgeBaseView.HandleSubmitArticle` | src/components/KnowledgeBase.tsx:91-130 | a blank title or content sends nothing. Otherwise the untrimmed draft is sent as a user-submitted article. Success closes the dialog, resets the draft and reloads; failure changes nothing |
| `KnowledgeBase.KnowledgeBaseView.Visible` | src/components/KnowledgeBase.tsx:175-185 | with an empty search box, the page lists all articles and ideas |
| `BestIdeaDisplay.RankingTotal` | src/components/BestIdeaDisplay.tsx:46-47 | neither of two ideas ranks above the other exactly when they tie on both votes and creation time |
| `BestIdeaDisplay.SelectBest` | src/components/BestIdeaDisplay.tsx:46-49 | no idea for an empty table; otherwise one of the ideas, and no idea ranks above it |
| `BestIdeaDisplay.BestIsUniqueUpToKey` | src/components/BestIdeaDisplay.tsx:46-49 | any two top-ranked ideas have the same votes and the same creation time |
| `BestIdeaDisplay.SelectBestIsFirstOfSorted` | src/components/BestIdeaDisplay.tsx:46-49 | the first row of any sort of the table by votes, then creation time, both descending, has the selected idea's votes and creation time |
| `BestIdeaDisplay.CategoryIcon` | src/components/BestIdeaDisplay.tsx:83-93 | a listed category gets its icon; any other gets the light bulb |
| `BestIdeaDisplay.DefaultIconIffUnknown` | src/components/BestIdeaDisplay.tsx:83-93 | the light bulb shows exactly for categories outside the six |
| `BestIdeaDisplay.CategoryLabel` | src/components/BestIdeaDisplay.tsx:95-105 | a listed category gets its label; the result is the category itself exactly when it is unlisted |
| `BestIdeaDisplay.SubmitterName` | src/components/BestIdeaDisplay.tsx:125 | the submitter's non-empty name, else "Anonymous" |
| `BestIdeaDisplay.ShareSubject` | src/components/BestIdeaDisplay.tsx:118 | the subject is the fixed opening followed by the title |
| `BestIdeaDisplay.ShareBodyLines` | src/components/BestIdeaDisplay.tsx:119-127 | with single-line fields, the body splits into nine lines carrying the title, the category label, the description, the votes and the submitter at fixed positions |
| `BestIdeaDisplay.BestIdeaView.constructor` | src/components/BestIdeaDisplay.tsx:24-26 | no idea, not loading, dialog closed |
| `BestIdeaDisplay.BestIdeaView.FetchBestIdea` | src/components/BestIdeaDisplay.tsx:29-81 | a non-empty table shows its best idea in an opened dialog. An error, an exception or an empty table give their notice and leave the idea and the dialog alone. Loading ends on every path |
| `AnalyticsDashboard.VisitorChart` | src/components/AnalyticsDashboard.tsx:53-56 | one point per row, same order, with the row's count and its date rendered |
| `AnalyticsDashboard.IdeaChart` | src/components/AnalyticsDashboard.tsx:68-72 | one point per row, same order, with its category and count; the label is the listed one or the raw category |
| `AnalyticsDashboard.TotalSubmissionsAppend` | src/components/AnalyticsDashboard.tsx:111 | the total of two lists one after the other is the sum of their totals |
| `AnalyticsDashboard.TotalSubmissionsCases` | src/components/AnalyticsDashboard.tsx:111 | the total is 0 for no points, and one more point adds its count |
| `AnalyticsDashboard.ChartKeepsTotal` | src/components/AnalyticsDashboard.tsx:68-72 | the chart's total equals the sum of the analytics rows' counts |
| `AnalyticsDashboard.TotalBoundsEachCount` | src/components/AnalyticsDashboard.tsx:111 | with no negative count, the total is non-negative and at least every single count |
| `AnalyticsDashboard.TodayVisitors` | src/components/AnalyticsDashboard.tsx:110 | the last point's visitors, or 0 for an empty chart |
| `AnalyticsDashboard.SliceColor` | src/components/AnalyticsDashboard.tsx:216-218 | every slice gets a palette colour |
| `AnalyticsDashboard.ColorsDistinct` | src/components/AnalyticsDashboard.tsx:18 | the six palette colours are pairwise different |
| `AnalyticsDashboard.SliceColorsCycle` | src/components/AnalyticsDashboard.tsx:216-218 | slices six apart share a colour; any six neighbouring slices all differ |
| `AnalyticsDashboard.FetchAnalytics` | src/components/AnalyticsDashboard.tsx:42-93 | loading ends. A failed visitor query changes nothing else. A failed idea query leaves only the new visitor chart. Otherwise both charts are set, with a missing total becoming 0 |
| `AnalyticsDashboard.FirstWeek` | src/components/AnalyticsDashboard.tsx:45-49 | the visitor query as written returns the table's first seven days |
| `AnalyticsDashboard.FirstWeekMissesToday` | src/components/AnalyticsDashboard.tsx:44-49 | with more than seven days, "today" shows the seventh day recorded, which is older than the latest day |
| `AnalyticsDashboard.LatestWeek` | src/components/AnalyticsDashboard.tsx:44-49 | corrected query: the table's last seven days, oldest first |
| `AnalyticsDashboard.LatestWeekEndsToday` | src/components/AnalyticsDashboard.tsx:44-49 | with the corrected query, "today" is the latest day's count, and every day left out is earlier than every day shown |
| `SupplyChainAI.RenderEntryShowsContent` | supabase/functions/supply-chain-ai/index.ts:56 | the pretty-printed knowledge entry contains its description and every phrase of every list, quoted |
| `SupplyChainAI.FocusShownIffKnown` | supabase/functions/supply-chain-ai/index.ts:49-54 | the focus section is included exactly when the category is present and names a knowledge entry; the emptiness test adds nothing |
| `SupplyChainAI.FocusSection` | supabase/functions/supply-chain-ai/index.ts:54-57 | there is no focus section unless the category names an entry |
| `SupplyChainAI.SystemPromptShape` | supabase/functions/supply-chain-ai/index.ts:52-72 | the prompt always opens and closes with the fixed text. With a focus it names the category and carries the entry; without one it is the fixed text alone |
| `SupplyChainAI.Messages` | supabase/functions/supply-chain-ai/index.ts:82-86 | the list has 2 + (context length) messages: the system prompt, then the context in order (empty if absent), then the user message |
| `SupplyChainAI.ErrorResponse` | supabase/functions/supply-chain-ai/index.ts:105-112 | status 500 with the JSON and CORS headers, and the error's message, or "Failed to generate AI response" when the message is empty |
| `SupplyChainAI.Handle` | supabase/functions/supply-chain-ai/index.ts:39-114 | every response starts with the CORS headers. A preflight gets an empty 200 and sends nothing. An unreadable body is a 500 and sends nothing. Otherwise the message list is sent. A non-ok status becomes "OpenAI API error: <status>"; a request that throws, or a reply whose content cannot be read, becomes a 500 carrying that error's message. The answer is 200 with the reply text and the request's category exactly when everything succeeded |
| `SupplyChainAI.ErrorsAreExplained` | supabase/functions/supply-chain-ai/index.ts:105-112 | a response is 500 exactly when it carries an error, and that error message is never empty |

## Left out

- The Hugging Face `pipeline`, device selection inside the library, model loading and sampling (temperature, top_p, token limits) are left out. These are a foreign library and floating-point numerics. Whether each load succeeds, and what the generator returns, are inputs.
- The hosted tables, their query language and the RPCs (`increment_idea_count`, `increment_visitor_count`) are not modelled as a server. The idea counter is modelled as a map whose entries start at 0. The visitor increment the dashboard fires on mounting (`increment_visitor_count`) is left out: it is a hosted RPC whose effect on `visitor_analytics`, and its order against the dashboard's own read of that table, are not modelled.
- The chat-completion service, `fetch`, the API key's source and JSON parsing and serialisation are abstracted. The handler receives the parsed body (or the parse error), the key, and the service's reply. Responses carry a body datatype, not a JSON string. The `temperature` sent upstream is left out (a float).
- `SupplyChainAI.RenderEntry` writes strings without JSON escaping. No string in the knowledge base needs escaping.
- Toasts, `console` output, scrolling, JSX rendering and the dialog library are left out. Notices are returned only where a handler's outcome is chosen by them (the best-idea fetch). The best-idea button also opens the dialog through its trigger before the fetch; that is library behaviour and is not modelled.
- Message ids, `Date.now()`, timestamps and the random `user_id` of an article are left out.
- Locale-dependent date rendering (`toLocaleDateString`) is a function parameter.
- The CSV download (Blob, object URL, anchor click) and the `mailto:` percent-encoding (`encodeURIComponent`) are left out. The CSV and e-mail texts are modelled before encoding.
- `Text.ToLower`: only ASCII letters are folded; full Unicode case mapping is left out.
- `IdeaSubmission.SubmissionForm.ClickSubmit`: the browser's sanitising of the e-mail input's value (dropping line breaks and surrounding white space) and its validation messages are not modelled; the address is checked as typed.
- `Text.Prefix`: lengths are counted in Unicode code points, while JavaScript's `substring` counts UTF-16 code units. Text with a character outside the Basic Multilingual Plane (an emoji) before the cut is cut at a different place, and the model never splits a surrogate pair.
- `KnowledgeBase.Excerpt`: the 100-character cut counts code points rather than UTF-16 code units, for the same reason as `Text.Prefix`. Content holding "💡" followed by 100 letters keeps 99 letters in the model, where the browser keeps 98.
- JavaScript lookups of inherited object keys (such as `"constructor"` as a category) are not modelled. Every lookup table is a map of its own keys only.
- Asynchronous interleaving (React state batching, a second click while a request is pending) is left out. Each handler runs to completion as one step.
- `KnowledgeBase.KnowledgeBaseView.HandleSubmitArticle` reports the reload that `fetchData()` would start as a `reload` flag; the reload itself is `FetchData`.
- The pie label's percentage (a float) is left out.
- The knowledge base's own category list, and the presentational components outside the core (the welcome hero and the index page), are not part of this model.

## Findings

| source | as written | input that shows it | evidently intended | confidence | as-written member | corrected member |
|---|---|---|---|---|---|---|
| src/components/AnalyticsDashboard.tsx:44-49 | the visitor query orders dates ascending and keeps the first 7 rows, so it returns the seven earliest days; "today" (line 110) is then the seventh day ever recorded | a table with 8 days, numbered 1..8: days 1..7 are charted and "today" shows day 7 | the last 7 days, oldest first, so "today" is the latest day | high (not executed) | `AnalyticsDashboard.FirstWeekMissesToday` | `AnalyticsDashboard.LatestWeekEndsToday` |
| src/services/localAI.ts:129-135 | the singleton is stored before `initialize()` runs, so after a failed set-up every later call returns the stored uninitialised service and never retries | first call with both loads failing, second call with WASM loading: the second gets the dead service, and generating fails with "AI model not initialized" | a later call retries the set-up and hands out a ready service | medium (not executed) | `LocalAI.FailedInitIsNotRetried` | `LocalAI.FailedInitIsRetried` |
