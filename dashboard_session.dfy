/** The dashboard as the user drives it through what is rendered: a session
    is the dashboard's state together with the service call it is waiting
    for, and an event is admitted only when the rendered view offers it (an
    enabled button, a visible tab or text area) or when it is the reply to
    the call in flight. Start and settle are atomic steps applied in order.
    Over every admitted run from the first render an invariant holds, from
    which the exclusion of concurrent calls follows even though no handler
    checks the loading flag. */
module DashboardSession {
  import opened Results
  import opened GeminiService
  import opened DashboardState

  /** The settled outcome of one call, by entry point. */
  datatype Reply =
    | AnalysisReply(analysis: Outcome<AnalysisResult>)
    | CoverLetterReply(letter: Outcome<CoverLetterResult>)
    | QuestionsReply(questions: Outcome<InterviewQuestionsResult>)

  datatype Event =
    | EditResume(resume: string)
    | EditJobDescription(job: string)
    | SelectTab(tab: Tab)
    | ClickAnalyze
    | ClickGenerateCoverLetter
    | ClickGenerateQuestions
    | Settle(reply: Reply)

  datatype Session = Session(state: State, inFlight: Option<Request>)

  const FirstRender := Session(Initial, None)

  /** A reply answers a call of its own entry point, and a failed call
      throws that entry point's fixed error. */
  predicate Answers(reply: Reply, call: Request)
  {
    match reply
    case AnalysisReply(o) => call.AnalyzeCall? && (o.Failure? ==> o.thrown == FailureOf(call))
    case CoverLetterReply(o) => call.CoverLetterCall? && (o.Failure? ==> o.thrown == FailureOf(call))
    case QuestionsReply(o) => call.QuestionsCall? && (o.Failure? ==> o.thrown == FailureOf(call))
  }

  /** Whether the rendered view offers an event. The text areas are always
      editable; the tab buttons and the two generate buttons exist only in
      the analysis display, and each generate button only on its own tab
      while its result is absent. */
  function Offered(m: Session, e: Event): (offered: bool)
    ensures e.EditResume? || e.EditJobDescription? ==> offered
    ensures e.ClickAnalyze? ==> (offered <==> AnalyzeButtonEnabled(m.state))
    ensures e.SelectTab? ==> (offered <==> ShownPanel(m.state) == AnalysisPanel)
    ensures e.ClickGenerateCoverLetter? ==>
      (offered <==> ShownPanel(m.state) == AnalysisPanel
                    && m.state.activeTab == CoverLetterTab && m.state.coverLetter == None)
    ensures e.ClickGenerateQuestions? ==>
      (offered <==> ShownPanel(m.state) == AnalysisPanel
                    && m.state.activeTab == QuestionsTab && m.state.interviewQuestions == None)
    ensures e.Settle? ==> (offered <==> m.inFlight.Some? && Answers(e.reply, m.inFlight.value))
    ensures offered && (e.ClickAnalyze? || e.ClickGenerateCoverLetter? || e.ClickGenerateQuestions?)
      ==> !m.state.isLoading
  {
    match e
    case EditResume(_) => true
    case EditJobDescription(_) => true
    case SelectTab(_) => ShownPanel(m.state) == AnalysisPanel
    case ClickAnalyze => AnalyzeButtonEnabled(m.state)
    case ClickGenerateCoverLetter =>
      ShownPanel(m.state) == AnalysisPanel && m.state.activeTab == CoverLetterTab && m.state.coverLetter == None
    case ClickGenerateQuestions =>
      ShownPanel(m.state) == AnalysisPanel && m.state.activeTab == QuestionsTab && m.state.interviewQuestions == None
    case Settle(reply) => m.inFlight.Some? && Answers(reply, m.inFlight.value)
  }

  /** The settle step of the handler a reply belongs to. */
  function SettleReply(s: State, reply: Reply): State
  {
    match reply
    case AnalysisReply(o) => SettleAnalyze(s, o)
    case CoverLetterReply(o) => SettleCoverLetter(s, o)
    case QuestionsReply(o) => SettleQuestions(s, o)
  }

  function Launch(r: Started): Session
  {
    Session(r.next, r.call)
  }

  /** Routes an event to the handler it triggers: an edit or a tab button
      changes its own slot alone, a click runs a start step and awaits the
      call it issues, and a reply runs the matching settle step. */
  function Step(m: Session, e: Event): (r: Session)
    ensures e.EditResume? ==> r == m.(state := m.state.(resumeText := e.resume))
    ensures e.EditJobDescription? ==> r == m.(state := m.state.(jobDescriptionText := e.job))
    ensures e.SelectTab? ==> r == m.(state := m.state.(activeTab := e.tab))
    ensures e.ClickAnalyze? ==> r == Session(StartAnalyze(m.state).next, StartAnalyze(m.state).call)
    ensures e.ClickGenerateCoverLetter? ==>
      r == Session(StartCoverLetter(m.state).next, StartCoverLetter(m.state).call)
    ensures e.ClickGenerateQuestions? ==>
      r == Session(StartQuestions(m.state).next, StartQuestions(m.state).call)
    ensures e.Settle? ==> r.inFlight == None && !r.state.isLoading
    ensures e.Settle? && e.reply.AnalysisReply? ==> r.state == SettleAnalyze(m.state, e.reply.analysis)
    ensures e.Settle? && e.reply.CoverLetterReply? ==> r.state == SettleCoverLetter(m.state, e.reply.letter)
    ensures e.Settle? && e.reply.QuestionsReply? ==> r.state == SettleQuestions(m.state, e.reply.questions)
  {
    match e
    case EditResume(text) => m.(state := m.state.(resumeText := text))
    case EditJobDescription(text) => m.(state := m.state.(jobDescriptionText := text))
    case SelectTab(tab) => m.(state := m.state.(activeTab := tab))
    case ClickAnalyze => Launch(StartAnalyze(m.state))
    case ClickGenerateCoverLetter => Launch(StartCoverLetter(m.state))
    case ClickGenerateQuestions => Launch(StartQuestions(m.state))
    case Settle(reply) => Session(SettleReply(m.state, reply), None)
  }

  function Run(m: Session, events: seq<Event>): Session
    decreases |events|
  {
    if events == [] then m else Run(Step(m, events[0]), events[1..])
  }

  /** Every event of the run is offered in the session it is applied to. */
  predicate Admitted(m: Session, events: seq<Event>)
    decreases |events|
  {
    events == [] || (Offered(m, events[0]) && Admitted(Step(m, events[0]), events[1..]))
  }

  /** What the state looks like while a call is awaited: the start step's
      effects, which nothing offered meanwhile can undo. */
  predicate AwaitingShape(s: State, call: Request)
  {
    && s.error == None
    && match call
       case AnalyzeCall(_, _) =>
         s.analysisResult == None && s.coverLetter == None && s.interviewQuestions == None
         && s.activeTab == AnalysisTab
       case CoverLetterCall(_, _) =>
         s.analysisResult.Some? && s.coverLetter == None && s.activeTab == CoverLetterTab
       case QuestionsCall(_) =>
         s.analysisResult.Some? && s.interviewQuestions == None && s.activeTab == QuestionsTab
  }

  /** The session invariant: the loading flag is set exactly while a call
      is awaited; a letter or questions exist only beside an analysis; any
      stored error is one of the service's fixed failure messages. */
  predicate Inv(m: Session)
  {
    && (m.state.isLoading <==> m.inFlight.Some?)
    && (m.state.coverLetter.Some? || m.state.interviewQuestions.Some? ==> m.state.analysisResult.Some?)
    && (m.state.error.Some? ==> IsFailureMessage(m.state.error.value))
    && (m.inFlight.Some? ==> AwaitingShape(m.state, m.inFlight.value))
  }

  lemma InitialInv()
    ensures Inv(FirstRender)
  {
  }

  /** Every offered event keeps the invariant. */
  lemma StepPreservesInv(m: Session, e: Event)
    requires Inv(m) && Offered(m, e)
    ensures Inv(Step(m, e))
  {
  }

  /** The invariant holds after any admitted run from a session that has it. */
  lemma {:induction false} RunPreservesInv(m: Session, events: seq<Event>)
    requires Inv(m) && Admitted(m, events)
    ensures Inv(Run(m, events))
    decreases |events|
  {
    if events != [] {
      StepPreservesInv(m, events[0]);
      RunPreservesInv(Step(m, events[0]), events[1..]);
    }
  }

  /** Every session reachable from the first render keeps the invariant. */
  lemma ReachableInv(events: seq<Event>)
    requires Admitted(FirstRender, events)
    ensures Inv(Run(FirstRender, events))
  {
    InitialInv();
    RunPreservesInv(FirstRender, events);
  }

  /** At most one call is in flight: while one is awaited, no button that
      issues a call is offered, so the next step that issues a call comes
      after the reply. */
  lemma OneCallAtATime(m: Session, e: Event)
    requires Inv(m) && m.inFlight.Some?
    requires e.ClickAnalyze? || e.ClickGenerateCoverLetter? || e.ClickGenerateQuestions?
    ensures !Offered(m, e)
  {
  }

  /** The analyze button shows its spinner exactly while an analysis is
      awaited, never while a letter or questions are. */
  lemma SpinnerMeansAnalysisAwaited(m: Session)
    requires Inv(m)
    ensures AnalyzeButtonShowsSpinner(m.state) <==> m.inFlight.Some? && m.inFlight.value.AnalyzeCall?
  {
  }

  /** Through the rendered view, the banner shows whenever an error is
      stored, and the error is never the validation message nor the text
      for an unknown thrown value. */
  lemma ErrorsComeFromService(m: Session)
    requires Inv(m)
    ensures ErrorBannerShown(m.state) <==> m.state.error.Some?
    ensures m.state.error != Some(MissingInputsMessage)
    ensures m.state.error != Some(UnknownErrorMessage)
  {
  }

  /** One step at the head of a run. */
  lemma RunCons(m: Session, e: Event, rest: seq<Event>)
    ensures Run(m, [e] + rest) == Run(Step(m, e), rest)
    ensures Admitted(m, [e] + rest) <==> Offered(m, e) && Admitted(Step(m, e), rest)
  {
  }

  /** The analysis a sample run receives. */
  const SampleAnalysis := AnalysisResult(
    78, 64, "Strong technical match...", ["Kubernetes"],
    [ActionVerbSuggestion("worked on", ["engineered", "architected"])],
    [ImprovementSuggestion("improved performance", Some("reduced latency by 40%"))],
    ["Add metrics to bullet points."])

  /** A sample run: two texts, a click and a successful reply leave exactly
      the returned analysis on the analysis tab, not loading and without
      error, with the analysis display shown. */
  lemma EndToEndAnalysis()
    ensures
      var result := SampleAnalysis;
      var events := [
        EditResume("Senior Engineer, 5 years Go and Rust"),
        EditJobDescription("Looking for a backend engineer skilled in distributed systems"),
        ClickAnalyze,
        Settle(AnalysisReply(Success(result)))];
      var m := Run(FirstRender, events);
      && Admitted(FirstRender, events)
      && m.state.analysisResult == Some(result)
      && m.state.activeTab == AnalysisTab && !m.state.isLoading && m.state.error == None
      && ShownPanel(m.state) == AnalysisPanel
  {
    var result := SampleAnalysis;
    var e1 := EditResume("Senior Engineer, 5 years Go and Rust");
    var e2 := EditJobDescription("Looking for a backend engineer skilled in distributed systems");
    var e3 := ClickAnalyze;
    var e4 := Settle(AnalysisReply(Success(result)));
    var m1 := Step(FirstRender, e1);
    var m2 := Step(m1, e2);
    var m3 := Step(m2, e3);
    var m4 := Step(m3, e4);
    assert m3.inFlight == Some(AnalyzeCall(m2.state.resumeText, m2.state.jobDescriptionText));
    RunCons(m3, e4, []);
    RunCons(m2, e3, [e4]);
    RunCons(m1, e2, [e3, e4]);
    RunCons(FirstRender, e1, [e2, e3, e4]);
    assert [e1] + [e2, e3, e4] == [e1, e2, e3, e4];
  }

  /** The generate buttons are reachable: after a successful analysis the
      user selects the cover-letter tab and clicks its button, and the view
      issues a cover-letter call with the current texts. */
  lemma CoverLetterCallReachable()
    ensures
      var events := [
        EditResume("a"), EditJobDescription("j"), ClickAnalyze,
        Settle(AnalysisReply(Success(SampleAnalysis))),
        SelectTab(CoverLetterTab), ClickGenerateCoverLetter];
      var m := Run(FirstRender, events);
      && Admitted(FirstRender, events)
      && m.inFlight == Some(CoverLetterCall("a", "j"))
      && m.state.isLoading && m.state.analysisResult == Some(SampleAnalysis)
  {
    var e1, e2, e3 := EditResume("a"), EditJobDescription("j"), ClickAnalyze;
    var e4 := Settle(AnalysisReply(Success(SampleAnalysis)));
    var e5, e6 := SelectTab(CoverLetterTab), ClickGenerateCoverLetter;
    var m1 := Step(FirstRender, e1);
    var m2 := Step(m1, e2);
    var m3 := Step(m2, e3);
    var m4 := Step(m3, e4);
    var m5 := Step(m4, e5);
    assert m3.inFlight == Some(AnalyzeCall("a", "j"));
    assert m4.state.analysisResult == Some(SampleAnalysis) && !m4.state.isLoading;
    RunCons(m5, e6, []);
    RunCons(m4, e5, [e6]);
    RunCons(m3, e4, [e5, e6]);
    RunCons(m2, e3, [e4, e5, e6]);
    RunCons(m1, e2, [e3, e4, e5, e6]);
    RunCons(FirstRender, e1, [e2, e3, e4, e5, e6]);
    assert [e1] + [e2, e3, e4, e5, e6] == [e1, e2, e3, e4, e5, e6];
  }

  /** Replies are not matched against the texts they were computed from:
      a resume edited while an analysis is awaited still receives the
      analysis of the earlier resume. */
  lemma StaleReplyIsApplied(result: AnalysisResult)
    ensures
      var events := [
        EditResume("a"), EditJobDescription("j"), ClickAnalyze,
        EditResume("b"), Settle(AnalysisReply(Success(result)))];
      var m := Run(FirstRender, events);
      && Admitted(FirstRender, events)
      && Run(FirstRender, events[..3]).inFlight == Some(AnalyzeCall("a", "j"))
      && m.state.analysisResult == Some(result) && m.state.resumeText == "b"
  {
    var e1, e2, e3, e4 := EditResume("a"), EditJobDescription("j"), ClickAnalyze, EditResume("b");
    var e5 := Settle(AnalysisReply(Success(result)));
    var m1 := Step(FirstRender, e1);
    var m2 := Step(m1, e2);
    var m3 := Step(m2, e3);
    var m4 := Step(m3, e4);
    assert m3.inFlight == Some(AnalyzeCall("a", "j"));
    RunCons(m4, e5, []);
    RunCons(m3, e4, [e5]);
    RunCons(m2, e3, [e4, e5]);
    RunCons(m1, e2, [e3, e4, e5]);
    RunCons(FirstRender, e1, [e2, e3, e4, e5]);
    assert [e1] + [e2, e3, e4, e5] == [e1, e2, e3, e4, e5];
    RunCons(m2, e3, []);
    RunCons(m1, e2, [e3]);
    RunCons(FirstRender, e1, [e2, e3]);
    assert [e1, e2, e3, e4, e5][..3] == [e1] + [e2, e3];
  }
}
