/** The records that flow between the stages of the submission pipeline
    (newProcessSubmission.ts, the Submission, ProblemResponse and Business types). */
module SubmissionTypes {

  datatype Option<+T> = None | Some(value: T)

  /** What the report form hands to the pipeline. The optional `error` field of the
      source type is never read or written by the pipeline and is not modelled. */
  datatype Submission = Submission(problem: string, latitude: string, longitude: string)

  /** The email draft returned to the caller. */
  datatype ProblemResponse = ProblemResponse(subject: string, body: string)

  /** A business record; `error` is present only on the failure sentinel. */
  datatype Business = Business(address: string, name: string, email: string, error: Option<string>)

  /** How a stage or the whole pipeline ends: with a value, or with an exception
      that propagates out of `processSubmission` to its caller. */
  datatype Outcome = Returned(draft: ProblemResponse) | Threw

  /** The stages of the pipeline, recorded in the order they are started. */
  datatype Stage = AddressStage | BusinessStage | EmailStage
}
