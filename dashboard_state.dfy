/** The dashboard's state as a value, and each of its three handlers split
    into the part that runs before the awaited service call ("start") and the
    part that runs when the call settles ("settle"). The view rules the
    dashboard renders from that state are here too. */
module DashboardState {
  import opened Results
  import opened GeminiService

  datatype Tab = AnalysisTab | CoverLetterTab | QuestionsTab

  /** The eight state slots of the dashboard. */
  datatype State = State(
    resumeText: string,
    jobDescriptionText: string,
    analysisResult: Option<AnalysisResult>,
    coverLetter: Option<CoverLetterResult>,
    interviewQuestions: Option<InterviewQuestionsResult>,
    isLoading: bool,
    error: Option<string>,
    activeTab: Tab)

  const MissingInputsMessage := "Please provide both a resume and a job description."
  const UnknownErrorMessage := "An unknown error occurred."

  /** The state when the dashboard is first rendered. */
  const Initial := State("", "", None, None, None, false, None, AnalysisTab)

  /** What the synchronous part of a handler leaves: the new state and the
      service call it issues, if it issues one. */
  datatype Started = Started(next: State, call: Option<Request>)

  /** The error text a `catch` clause stores: the message of an `Error`
      instance, whatever it is, and a fixed non-empty text for anything else. */
  function CaughtMessage(t: Thrown): (msg: string)
    ensures t.ErrorInstance? ==> msg == t.message
    ensures t.OtherValue? ==> msg == UnknownErrorMessage && msg != ""
  {
    match t
    case ErrorInstance(msg) => msg
    case OtherValue => UnknownErrorMessage
  }

  // ---------------------------------------------------------------- analyze

  /** Only the empty string fails the guard: whitespace is accepted. A
      refused start stores the validation message and nothing else; a
      permitted one discards all three results and returns to the analysis tab. */
  function StartAnalyze(s: State): (r: Started)
    ensures r.call.Some? <==> s.resumeText != "" && s.jobDescriptionText != ""
    ensures r.call.None? ==>
      r.next.error == Some(MissingInputsMessage) && r.next.(error := s.error) == s
    ensures r.call.Some? ==>
      && r.call.value == AnalyzeCall(s.resumeText, s.jobDescriptionText)
      && r.next.isLoading && r.next.error == None && r.next.activeTab == AnalysisTab
      && r.next.analysisResult == None && r.next.coverLetter == None && r.next.interviewQuestions == None
    ensures r.next.resumeText == s.resumeText && r.next.jobDescriptionText == s.jobDescriptionText
  {
    if s.resumeText == "" || s.jobDescriptionText == "" then
      Started(s.(error := Some(MissingInputsMessage)), None)
    else
      Started(
        s.(isLoading := true, error := None,
           analysisResult := None, coverLetter := None, interviewQuestions := None,
           activeTab := AnalysisTab),
        Some(AnalyzeCall(s.resumeText, s.jobDescriptionText)))
  }

  /** Success stores the returned record verbatim; failure stores the caught
      message. Either way loading ends, and nothing else changes. */
  function SettleAnalyze(s: State, outcome: Outcome<AnalysisResult>): (r: State)
    ensures !r.isLoading
    ensures outcome.Success? ==>
      r.analysisResult == Some(outcome.value) && r.error == s.error
    ensures outcome.Failure? && outcome.thrown.ErrorInstance? ==>
      r.analysisResult == s.analysisResult && r.error == Some(outcome.thrown.message)
    ensures outcome.Failure? && outcome.thrown.OtherValue? ==>
      r.analysisResult == s.analysisResult && r.error == Some(UnknownErrorMessage)
    ensures r.(analysisResult := s.analysisResult, error := s.error, isLoading := s.isLoading) == s
  {
    match outcome
    case Success(result) => s.(analysisResult := Some(result), isLoading := false)
    case Failure(thrown) => s.(error := Some(CaughtMessage(thrown)), isLoading := false)
  }

  // ----------------------------------------------------------- cover letter

  /** Either text empty: a silent no-op, with no message. Otherwise loading
      begins and the error is cleared; results and tab stay as they are. */
  function StartCoverLetter(s: State): (r: Started)
    ensures r.call.Some? <==> s.resumeText != "" && s.jobDescriptionText != ""
    ensures r.call.None? ==> r.next == s
    ensures r.call.Some? ==>
      && r.call.value == CoverLetterCall(s.resumeText, s.jobDescriptionText)
      && r.next.isLoading && r.next.error == None
      && r.next.(isLoading := s.isLoading, error := s.error) == s
  {
    if s.resumeText == "" || s.jobDescriptionText == "" then
      Started(s, None)
    else
      Started(s.(isLoading := true, error := None),
              Some(CoverLetterCall(s.resumeText, s.jobDescriptionText)))
  }

  /** Success stores the letter and switches to its tab; failure keeps the
      previous letter and tab. The analysis and the questions are never touched. */
  function SettleCoverLetter(s: State, outcome: Outcome<CoverLetterResult>): (r: State)
    ensures !r.isLoading
    ensures outcome.Success? ==>
      r.coverLetter == Some(outcome.value) && r.activeTab == CoverLetterTab && r.error == s.error
    ensures outcome.Failure? ==>
      r.coverLetter == s.coverLetter && r.activeTab == s.activeTab
    ensures outcome.Failure? && outcome.thrown.ErrorInstance? ==> r.error == Some(outcome.thrown.message)
    ensures outcome.Failure? && outcome.thrown.OtherValue? ==> r.error == Some(UnknownErrorMessage)
    ensures r.(coverLetter := s.coverLetter, activeTab := s.activeTab, error := s.error, isLoading := s.isLoading) == s
  {
    match outcome
    case Success(result) => s.(coverLetter := Some(result), activeTab := CoverLetterTab, isLoading := false)
    case Failure(thrown) => s.(error := Some(CaughtMessage(thrown)), isLoading := false)
  }

  // -------------------------------------------------------------- questions

  /** The guard looks at the resume alone, and only the resume is sent. */
  function StartQuestions(s: State): (r: Started)
    ensures r.call.Some? <==> s.resumeText != ""
    ensures r.call.None? ==> r.next == s
    ensures r.call.Some? ==>
      && r.call.value == QuestionsCall(s.resumeText)
      && r.next.isLoading && r.next.error == None
      && r.next.(isLoading := s.isLoading, error := s.error) == s
  {
    if s.resumeText == "" then
      Started(s, None)
    else
      Started(s.(isLoading := true, error := None), Some(QuestionsCall(s.resumeText)))
  }

  /** Success stores the questions and switches to their tab; failure keeps
      the previous questions and tab. The analysis and the letter are never touched. */
  function SettleQuestions(s: State, outcome: Outcome<InterviewQuestionsResult>): (r: State)
    ensures !r.isLoading
    ensures outcome.Success? ==>
      r.interviewQuestions == Some(outcome.value) && r.activeTab == QuestionsTab && r.error == s.error
    ensures outcome.Failure? ==>
      r.interviewQuestions == s.interviewQuestions && r.activeTab == s.activeTab
    ensures outcome.Failure? && outcome.thrown.ErrorInstance? ==> r.error == Some(outcome.thrown.message)
    ensures outcome.Failure? && outcome.thrown.OtherValue? ==> r.error == Some(UnknownErrorMessage)
    ensures r.(interviewQuestions := s.interviewQuestions, activeTab := s.activeTab, error := s.error, isLoading := s.isLoading) == s
  {
    match outcome
    case Success(result) => s.(interviewQuestions := Some(result), activeTab := QuestionsTab, isLoading := false)
    case Failure(thrown) => s.(error := Some(CaughtMessage(thrown)), isLoading := false)
  }

  // ------------------------------------------------------------- view rules

  /** The analyze button is disabled while loading or while either text is empty. */
  function AnalyzeButtonEnabled(s: State): (enabled: bool)
    ensures enabled <==> !s.isLoading && s.resumeText != "" && s.jobDescriptionText != ""
  {
    !(s.isLoading || s.resumeText == "" || s.jobDescriptionText == "")
  }

  /** The analyze button shows a spinner instead of its label while loading
      with the analysis tab selected; the spinner only ever sits on a
      disabled button. */
  function AnalyzeButtonShowsSpinner(s: State): (spinner: bool)
    ensures spinner <==> s.isLoading && s.activeTab == AnalysisTab
    ensures spinner ==> !AnalyzeButtonEnabled(s) && ShownPanel(s) == LoadingPanel
  {
    s.isLoading && s.activeTab == AnalysisTab
  }

  /** The error banner is rendered only for a present, non-empty message
      (an empty string is falsy). */
  function ErrorBannerShown(s: State): (shown: bool)
    ensures shown <==> s.error.Some? && s.error.value != ""
  {
    s.error.Some? && s.error.value != ""
  }

  /** What the right-hand panel shows. */
  datatype Panel = LoadingPanel | AnalysisPanel | PlaceholderPanel

  /** Loading wins over everything; otherwise the analysis display appears
      only when an analysis is present, whatever tab is selected. */
  function ShownPanel(s: State): (p: Panel)
    ensures p == LoadingPanel <==> s.isLoading
    ensures p == AnalysisPanel <==> !s.isLoading && s.analysisResult.Some?
    ensures p == PlaceholderPanel <==> !s.isLoading && s.analysisResult.None?
  {
    if s.isLoading then LoadingPanel
    else if s.analysisResult.Some? then AnalysisPanel
    else PlaceholderPanel
  }

  // ------------------------------------------------ properties of the rules

  /** A click on the enabled analyze button always gets past the handler's
      guard: the validation message is only reachable by calling the handler
      while the button is disabled. */
  lemma EnabledButtonPassesGuard(s: State)
    requires AnalyzeButtonEnabled(s)
    ensures StartAnalyze(s).call.Some?
    ensures !ErrorBannerShown(StartAnalyze(s).next)
  {
  }

  /** A whole permitted analyze round, start then settle: every earlier
      result is gone, and only a successful call leaves an analysis. */
  lemma AnalyzeRound(s: State, outcome: Outcome<AnalysisResult>)
    requires s.resumeText != "" && s.jobDescriptionText != ""
    ensures var r := SettleAnalyze(StartAnalyze(s).next, outcome);
      && !r.isLoading && r.activeTab == AnalysisTab
      && r.coverLetter == None && r.interviewQuestions == None
      && (outcome.Success? ==> r.analysisResult == Some(outcome.value) && r.error == None)
      && (outcome.Failure? ==> r.analysisResult == None && r.error == Some(CaughtMessage(outcome.thrown)))
  {
  }

  /** A whole permitted cover-letter round leaves the analysis and the
      questions as they were, and the tab moves only on success. */
  lemma CoverLetterRound(s: State, outcome: Outcome<CoverLetterResult>)
    requires s.resumeText != "" && s.jobDescriptionText != ""
    ensures var r := SettleCoverLetter(StartCoverLetter(s).next, outcome);
      && !r.isLoading
      && r.analysisResult == s.analysisResult && r.interviewQuestions == s.interviewQuestions
      && (outcome.Success? ==> r.coverLetter == Some(outcome.value) && r.activeTab == CoverLetterTab && r.error == None)
      && (outcome.Failure? ==>
            r.coverLetter == s.coverLetter && r.activeTab == s.activeTab
            && r.error == Some(CaughtMessage(outcome.thrown)))
  {
  }

  /** A whole permitted questions round leaves the analysis and the letter
      as they were, and the tab moves only on success. */
  lemma QuestionsRound(s: State, outcome: Outcome<InterviewQuestionsResult>)
    requires s.resumeText != ""
    ensures var r := SettleQuestions(StartQuestions(s).next, outcome);
      && !r.isLoading
      && r.analysisResult == s.analysisResult && r.coverLetter == s.coverLetter
      && (outcome.Success? ==> r.interviewQuestions == Some(outcome.value) && r.activeTab == QuestionsTab && r.error == None)
      && (outcome.Failure? ==>
            r.interviewQuestions == s.interviewQuestions && r.activeTab == s.activeTab
            && r.error == Some(CaughtMessage(outcome.thrown)))
  {
  }

  /** The questions handler ignores the job text: changing it changes
      neither whether the call is issued nor what is sent. */
  lemma QuestionsIgnoreJobText(s: State, job: string)
    ensures StartQuestions(s.(jobDescriptionText := job)).call == StartQuestions(s).call
    ensures StartQuestions(s.(jobDescriptionText := job)).next
         == StartQuestions(s).next.(jobDescriptionText := job)
  {
  }

  /** The handlers do not look at the loading flag: started while another
      call is in flight, analyze still discards a present analysis and
      issues a second call. Exclusion comes from the rendered view only. */
  lemma HandlersIgnoreLoading(s: State)
    requires s.isLoading && s.analysisResult.Some?
    requires s.resumeText != "" && s.jobDescriptionText != ""
    ensures StartAnalyze(s).call.Some? && StartAnalyze(s).next.analysisResult == None
    ensures StartCoverLetter(s).call.Some? && StartQuestions(s).call.Some?
  {
  }
}
