/** The three entry points of the generation service, seen from the
    dashboard: which arguments each receives, and what each throws when
    anything inside it goes wrong. Prompts, the remote model and JSON
    parsing are not part of this model. */
module GeminiService {
  import opened Results

  /** One call to an entry point, with the texts it is given. The
      questions entry point receives the resume alone. */
  datatype Request =
    | AnalyzeCall(resumeText: string, jobDescriptionText: string)
    | CoverLetterCall(resumeText: string, jobDescriptionText: string)
    | QuestionsCall(resumeText: string)

  const AnalysisFailedMessage := "Failed to get analysis from AI. Please check the console for details."
  const CoverLetterFailedMessage := "Failed to generate cover letter."
  const QuestionsFailedMessage := "Failed to generate interview questions."

  /** The one message an entry point's failures carry. */
  predicate IsFailureMessage(msg: string)
  {
    msg == AnalysisFailedMessage || msg == CoverLetterFailedMessage || msg == QuestionsFailedMessage
  }

  /** Each entry point catches every failure (network, response, parse)
      and rethrows an `Error` whose message is fixed per entry point. */
  function FailureOf(call: Request): (t: Thrown)
    ensures t.ErrorInstance? && IsFailureMessage(t.message) && t.message != ""
    ensures call.AnalyzeCall? <==> t.message == AnalysisFailedMessage
    ensures call.CoverLetterCall? <==> t.message == CoverLetterFailedMessage
    ensures call.QuestionsCall? <==> t.message == QuestionsFailedMessage
  {
    match call
    case AnalyzeCall(_, _) => ErrorInstance(AnalysisFailedMessage)
    case CoverLetterCall(_, _) => ErrorInstance(CoverLetterFailedMessage)
    case QuestionsCall(_) => ErrorInstance(QuestionsFailedMessage)
  }
}
