/** The dashboard component as the object it is at run time: eight state
    slots that its handlers assign one after another. Each asynchronous
    handler is two methods, the part before the awaited call and the part
    that runs when it settles; each method is proved to leave exactly the
    state the corresponding function of `DashboardState` describes. */
module DashboardComponent {
  import opened Results
  import opened GeminiService
  import DS = DashboardState

  class Dashboard {
    var resumeText: string
    var jobDescriptionText: string
    var analysisResult: Option<AnalysisResult>
    var coverLetter: Option<CoverLetterResult>
    var interviewQuestions: Option<InterviewQuestionsResult>
    var isLoading: bool
    var error: Option<string>
    var activeTab: DS.Tab

    /** The eight slots as one value. */
    function Snapshot(): DS.State
      reads this
    {
      DS.State(resumeText, jobDescriptionText, analysisResult, coverLetter,
               interviewQuestions, isLoading, error, activeTab)
    }

    constructor ()
      ensures Snapshot() == DS.Initial
    {
      resumeText := "";
      jobDescriptionText := "";
      analysisResult := None;
      coverLetter := None;
      interviewQuestions := None;
      isLoading := false;
      error := None;
      activeTab := DS.AnalysisTab;
    }

    /** The resume text area's change handler. */
    method SetResumeText(text: string)
      modifies this
      ensures Snapshot() == old(Snapshot()).(resumeText := text)
    {
      resumeText := text;
    }

    /** The job description text area's change handler. */
    method SetJobDescriptionText(text: string)
      modifies this
      ensures Snapshot() == old(Snapshot()).(jobDescriptionText := text)
    {
      jobDescriptionText := text;
    }

    /** The tab buttons of the analysis display change the tab alone. */
    method SetActiveTab(tab: DS.Tab)
      modifies this
      ensures Snapshot() == old(Snapshot()).(activeTab := tab)
    {
      activeTab := tab;
    }

    /** The analyze handler up to its awaited call; `call` is the call it
        issues, if it gets past its guard. */
    method StartAnalyze() returns (call: Option<Request>)
      modifies this
      ensures Snapshot() == DS.StartAnalyze(old(Snapshot())).next
      ensures call == DS.StartAnalyze(old(Snapshot())).call
    {
      if resumeText == "" || jobDescriptionText == "" {
        error := Some(DS.MissingInputsMessage);
        return None;
      }
      isLoading := true;
      error := None;
      analysisResult := None;
      coverLetter := None;
      interviewQuestions := None;
      activeTab := DS.AnalysisTab;
      call := Some(AnalyzeCall(resumeText, jobDescriptionText));
    }

    /** The analyze handler from the settled call to its `finally`. */
    method SettleAnalyze(outcome: Outcome<AnalysisResult>)
      modifies this
      ensures Snapshot() == DS.SettleAnalyze(old(Snapshot()), outcome)
    {
      match outcome {
        case Success(result) =>
          analysisResult := Some(result);
        case Failure(thrown) =>
          error := Some(DS.CaughtMessage(thrown));
      }
      isLoading := false;
    }

    /** The cover-letter handler up to its awaited call. */
    method StartCoverLetter() returns (call: Option<Request>)
      modifies this
      ensures Snapshot() == DS.StartCoverLetter(old(Snapshot())).next
      ensures call == DS.StartCoverLetter(old(Snapshot())).call
    {
      if resumeText == "" || jobDescriptionText == "" {
        return None;
      }
      isLoading := true;
      error := None;
      call := Some(CoverLetterCall(resumeText, jobDescriptionText));
    }

    /** The cover-letter handler from the settled call to its `finally`. */
    method SettleCoverLetter(outcome: Outcome<CoverLetterResult>)
      modifies this
      ensures Snapshot() == DS.SettleCoverLetter(old(Snapshot()), outcome)
    {
      match outcome {
        case Success(result) =>
          coverLetter := Some(result);
          activeTab := DS.CoverLetterTab;
        case Failure(thrown) =>
          error := Some(DS.CaughtMessage(thrown));
      }
      isLoading := false;
    }

    /** The questions handler up to its awaited call. */
    method StartQuestions() returns (call: Option<Request>)
      modifies this
      ensures Snapshot() == DS.StartQuestions(old(Snapshot())).next
      ensures call == DS.StartQuestions(old(Snapshot())).call
    {
      if resumeText == "" {
        return None;
      }
      isLoading := true;
      error := None;
      call := Some(QuestionsCall(resumeText));
    }

    /** The questions handler from the settled call to its `finally`. */
    method SettleQuestions(outcome: Outcome<InterviewQuestionsResult>)
      modifies this
      ensures Snapshot() == DS.SettleQuestions(old(Snapshot()), outcome)
    {
      match outcome {
        case Success(result) =>
          interviewQuestions := Some(result);
          activeTab := DS.QuestionsTab;
        case Failure(thrown) =>
          error := Some(DS.CaughtMessage(thrown));
      }
      isLoading := false;
    }
  }
}
