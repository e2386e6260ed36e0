# Resume Analyzer dashboard: a Dafny model

The Resume Analyzer is a browser front end over a hosted generative model.
The user pastes a resume and a job description, then asks for three things.
One is an analysis with two scores, missing keywords and suggestions.
The other two are a cover letter and a set of interview questions.
All analysis happens remotely, so this model covers what the client itself decides:

- the dashboard's state machine. It has eight state slots: the two texts,
  three optional results, a loading flag, an optional error message and the
  selected tab. Three asynchronous handlers change them.
- the view rules the dashboard renders from that state.
- the score card's colour banding.

Each asynchronous handler is split into two atomic steps. `Start` runs from
the guard to the awaited service call. `Settle` runs from the settled call
to the `finally` clause. The service call is an opaque input: a `Success`
carrying the returned record, or a `Failure` carrying the thrown value.

Modules:

- `Results` (results.dfy): the result records, plus `Option`, `Thrown` and `Outcome`.
- `GeminiService` (gemini_service.dfy): the three service calls and their arguments.
  It also holds the fixed error each call throws on any failure.
- `DashboardState` (dashboard_state.dfy): the state as a value.
  It defines the start and settle functions, the view rules and lemmas about whole rounds.
- `DashboardComponent` (dashboard.dfy): the class `Dashboard` with the eight slots as fields.
  Its methods assign them in the source's order. Each method is proved to leave
  exactly the state the matching `DashboardState` function gives.
- `DashboardSession` (dashboard_session.dfy): the dashboard as a user drives it.
  A session is the state plus the call being awaited. An event is admitted only
  when the rendered view offers it, or when it is the reply to the awaited call.
  An invariant is proved over every admitted run from the first render.
  Exclusion of concurrent calls follows from it, although no handler checks the loading flag.
- `ScoreCard` (score_card.dfy): the two threshold chains, checked against a reference banding.

Two facts about the code shape the model:

- Only the empty string fails the analyze guard (components/Dashboard.tsx:28).
  Whitespace-only text passes.
- No handler reads `isLoading` (components/Dashboard.tsx:27-77).
  Only the disabled analyze button (line 90) and the loading panel (line 99),
  which hides the tab and generate buttons, keep a second call from being issued.
  `HandlersIgnoreLoading` states the handler-level behaviour.
  `OneCallAtATime` states the view-level exclusion.

## Model

| member | source | states |
|---|---|---|
| `GeminiService.FailureOf` | services/geminiService.ts:58-163 | Each entry point's failures reach the caller as an `Error` whose message is a fixed, non-empty text. Each entry point has its own text. |
| `DashboardState.StartAnalyze` | components/Dashboard.tsx:27-37 | A call is issued iff both texts are non-empty; only the empty string fails. A refused start stores exactly the validation message and changes nothing else. A permitted start sends both texts, sets loading, clears the error and all three results, and selects the analysis tab. The texts never change. |
| `DashboardState.SettleAnalyze` | components/Dashboard.tsx:39-46 | Loading ends either way. Success stores the returned record verbatim. Failure stores the `Error`'s message, or "An unknown error occurred." for any other thrown value. Nothing else changes. |
| `DashboardState.StartCoverLetter` | components/Dashboard.tsx:49-52 | A call is issued iff both texts are non-empty. Otherwise the state is unchanged, with no message. A permitted start only sets loading and clears the error. |
| `DashboardState.SettleCoverLetter` | components/Dashboard.tsx:53-61 | Loading ends. Success stores the letter and selects its tab. Failure keeps the previous letter and tab and stores the caught message. The analysis, the questions and the texts are untouched. |
| `DashboardState.StartQuestions` | components/Dashboard.tsx:64-67 | A call is issued iff the resume is non-empty; the job text plays no part, and only the resume is sent. A permitted start only sets loading and clears the error. |
| `DashboardState.SettleQuestions` | components/Dashboard.tsx:68-76 | Loading ends. Success stores the questions and selects their tab. Failure keeps the previous questions and tab and stores the caught message. The analysis and the letter are untouched. |
| `DashboardState.AnalyzeButtonEnabled` | components/Dashboard.tsx:88-90 | The analyze button is enabled iff not loading and both texts are non-empty. |
| `DashboardState.ErrorBannerShown` | components/Dashboard.tsx:95 | The banner is shown iff a non-empty message is stored. A stored empty message shows no banner. |
| `DashboardState.AnalyzeButtonShowsSpinner` | components/Dashboard.tsx:93 | The button shows a spinner iff loading with the analysis tab selected. The spinner only ever sits on a disabled button while the loading panel is shown. |
| `DashboardState.CaughtMessage` | components/Dashboard.tsx:43 | A caught `Error` yields its own message, whatever it is. Any other thrown value yields the fixed non-empty "An unknown error occurred.". The same expression appears at lines 58 and 73. |
| `DashboardState.ShownPanel` | components/Dashboard.tsx:99-128 | The loading view shows iff loading. Otherwise the analysis display shows iff an analysis is present, and the placeholder shows iff none is. |
| `DashboardState.EnabledButtonPassesGuard` | components/Dashboard.tsx:28-31 | A click on the enabled analyze button always passes the handler's guard and leaves no banner. |
| `DashboardState.AnalyzeRound` | components/Dashboard.tsx:27-47 | After a permitted start and its settle, the letter and the questions are absent, the tab is analysis, and loading is over. Success leaves the returned analysis and no error. Failure leaves no analysis and the caught message. |
| `DashboardState.CoverLetterRound` | components/Dashboard.tsx:49-62 | A whole cover-letter round never changes the analysis or the questions. The tab moves to the letter only on success. Failure keeps the previous letter and tab. |
| `DashboardState.QuestionsRound` | components/Dashboard.tsx:64-77 | A whole questions round never changes the analysis or the letter. The tab moves to the questions only on success. Failure keeps the previous questions and tab. |
| `DashboardState.QuestionsIgnoreJobText` | components/Dashboard.tsx:65-69 | Changing the job text changes neither whether the questions call is issued nor what it sends. |
| `DashboardState.HandlersIgnoreLoading` | components/Dashboard.tsx:27-77 | The handlers do not check the loading flag. Started while loading, each one still issues its call, and analyze still discards a present analysis. |
| `DashboardComponent.Dashboard.constructor` | components/Dashboard.tsx:17-25 | The first render has empty texts, no results, no error, no loading and the analysis tab. |
| `DashboardComponent.Dashboard.SetResumeText` | components/Dashboard.tsx:85 | Editing the resume changes the resume text alone. |
| `DashboardComponent.Dashboard.SetJobDescriptionText` | components/Dashboard.tsx:86 | Editing the job description changes that text alone. |
| `DashboardComponent.Dashboard.SetActiveTab` | components/AnalysisDisplay.tsx:18-25 | A tab button changes the selected tab alone. |
| `DashboardComponent.Dashboard.StartAnalyze` | components/Dashboard.tsx:27-37 | The fields and the issued call are exactly those of `DashboardState.StartAnalyze` applied to the previous fields. |
| `DashboardComponent.Dashboard.SettleAnalyze` | components/Dashboard.tsx:39-46 | The fields are exactly those of `DashboardState.SettleAnalyze` applied to the previous fields. |
| `DashboardComponent.Dashboard.StartCoverLetter` | components/Dashboard.tsx:49-52 | The fields and the issued call are exactly those of `DashboardState.StartCoverLetter`. |
| `DashboardComponent.Dashboard.SettleCoverLetter` | components/Dashboard.tsx:53-61 | The fields are exactly those of `DashboardState.SettleCoverLetter`. |
| `DashboardComponent.Dashboard.StartQuestions` | components/Dashboard.tsx:64-67 | The fields and the issued call are exactly those of `DashboardState.StartQuestions`. |
| `DashboardComponent.Dashboard.SettleQuestions` | components/Dashboard.tsx:68-76 | The fields are exactly those of `DashboardState.SettleQuestions`. |
| `DashboardSession.Offered` | components/Dashboard.tsx:85-115 | The text areas are always offered. The analyze click is offered iff the button is enabled. A tab click is offered iff the analysis display is shown (components/AnalysisDisplay.tsx:18-34). Each generate click is offered iff the analysis display is shown on its own tab while its result is absent (components/AnalysisDisplay.tsx:86-118). A reply is offered iff it answers the awaited call. No click is offered while loading. |
| `DashboardSession.Step` | components/Dashboard.tsx:85-114 | An edit or a tab button changes its own slot alone. A click runs exactly its handler's start step and awaits the call it issues. A reply runs exactly the matching settle step, after which no call is awaited and loading is over. |
| `DashboardSession.InitialInv` | components/Dashboard.tsx:17-25 | The first render satisfies the session invariant. |
| `DashboardSession.StepPreservesInv` | components/Dashboard.tsx:27-128 | Every event the view offers keeps the invariant. The invariant says: loading holds iff a call is awaited; a letter or questions exist only beside an analysis; a stored error is one of the service's fixed messages; while a call is awaited, its start step's effects still hold. |
| `DashboardSession.RunPreservesInv` | components/Dashboard.tsx:27-128 | The invariant holds after any admitted run from a session that has it. |
| `DashboardSession.ReachableInv` | components/Dashboard.tsx:80-128 | Every session reachable from the first render through the rendered view satisfies the invariant. |
| `DashboardSession.OneCallAtATime` | components/Dashboard.tsx:88-115 | In a session with the invariant, no button that issues a call is offered while a call is awaited. |
| `DashboardSession.SpinnerMeansAnalysisAwaited` | components/Dashboard.tsx:93 | The analyze button shows its spinner iff an analysis call is awaited, and never while a letter or questions are awaited. |
| `DashboardSession.ErrorsComeFromService` | components/Dashboard.tsx:28-45 | Through the view, the banner shows iff an error is stored. The stored error is never the validation message and never the unknown-error text. |
| `DashboardSession.EndToEndAnalysis` | components/Dashboard.tsx:27-46 | A sample run: two texts, a click and a successful reply. It ends with exactly the returned analysis on the analysis tab, not loading and without error, and the analysis display is shown. |
| `DashboardSession.CoverLetterCallReachable` | components/AnalysisDisplay.tsx:86-99 | A run through the view is admitted that ends with a cover-letter call awaited for the current texts. It goes: edit both texts, analyze, succeed, select the letter tab, click generate. |
| `DashboardSession.StaleReplyIsApplied` | components/Dashboard.tsx:39-41 | A reply is not checked against the texts it was computed from. An analysis requested for one resume is stored after the resume has been edited. |
| `ScoreCard.BandOf` | components/ScoreCard.tsx:14-18 | Green iff the score is at least 85, yellow iff it is 60 to 84, red iff it is below 60. |
| `ScoreCard.ScoreColor` | components/ScoreCard.tsx:14-18 | The text class is the class of the score's reference band. |
| `ScoreCard.StrokeColor` | components/ScoreCard.tsx:20-24 | The ring class is the class of the score's reference band. |
| `ScoreCard.Render` | components/ScoreCard.tsx:40-54 | The card shows the raw score. The text and the ring carry the classes of the score's reference band. |
| `ScoreCard.ClassesDistinguishBands` | components/ScoreCard.tsx:14-24 | Distinct bands have distinct text classes and distinct ring classes. |
| `ScoreCard.ColorsAgree` | components/ScoreCard.tsx:14-24 | The text has a band's class iff the ring has that band's class, iff the score is in that band. |
| `ScoreCard.BandMonotone` | components/ScoreCard.tsx:14-18 | A higher score never lands in a lower band. |
| `ScoreCard.NoClamping` | components/ScoreCard.tsx:40-54 | The card shows the raw score. Scores above 100 are green and negative scores are red, for both text and ring. |

## Left out

- The service's prompts, the remote model, its response schemas and the JSON parsing are left out. This is foreign behaviour behind the service calls.
  A successful call is assumed to return a well-formed record. The source casts the parsed JSON to the record type without checking it.
- The module-level check that an API key is set is environment configuration and is left out.
- Console logging of the original failure is left out.
- Overlapping calls are not modelled: each start and settle is an atomic step applied in order.
  Through the rendered view a second call cannot be issued while one is awaited, which `OneCallAtATime` shows.
  Calling a handler directly while loading could interleave two calls. That is a concurrency concern the model does not cover.
- React's scheduling is not modelled: batching of state updates, and handlers that close over the texts of the render they were created in.
  A start step reads the current texts.
- The score ring's circumference and offset are left out. They are floating-point arithmetic on pi.
- Theme toggling (App.tsx, Header.tsx), the text-area widgets, the spinner and the analysis display's markup are rendering only.
  The analysis display's tab and generate buttons are modelled as the events they trigger (`DashboardSession.Offered`).
