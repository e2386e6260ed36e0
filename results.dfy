/** The records the analysis service hands back, and the two wrappers the
    dashboard puts around them: an optional value (a `null`-able state slot)
    and the way an awaited call settles (it resolves, or it throws). */
module Results {

  datatype Option<+T> = None | Some(value: T)

  /** What a `catch` clause receives: an `Error` instance, whose `message`
      the dashboard shows, or any other thrown value. */
  datatype Thrown = ErrorInstance(message: string) | OtherValue

  /** How an awaited service call settles. */
  datatype Outcome<+T> = Success(value: T) | Failure(thrown: Thrown)

  datatype ActionVerbSuggestion = ActionVerbSuggestion(
    weakVerb: string,
    strongerAlternatives: seq<string>)

  /** `example` is the one optional field of the analysis record. */
  datatype ImprovementSuggestion = ImprovementSuggestion(
    suggestion: string,
    example: Option<string>)

  /** The two scores are plain integers: nothing on the client keeps them
      in 0..100, and they are displayed as received. */
  datatype AnalysisResult = AnalysisResult(
    relevanceScore: int,
    atsScore: int,
    summary: string,
    missingKeywords: seq<string>,
    actionVerbSuggestions: seq<ActionVerbSuggestion>,
    quantificationSuggestions: seq<ImprovementSuggestion>,
    generalFeedback: seq<string>)

  datatype CoverLetterResult = CoverLetterResult(coverLetter: string)

  /** Five questions are asked for, but nothing enforces the count. */
  datatype InterviewQuestionsResult = InterviewQuestionsResult(questions: seq<string>)
}
