/** The orchestrator, `processSubmission` (newProcessSubmission.ts:28-42): the address,
    business and email stages run one after the other, and the first stage that reports
    an error ends the pipeline with a fixed failure draft. The external services are
    parameters; `stages` records which stages were started, in order. */
module SubmissionPipeline {
  import opened SubmissionTypes
  import opened AddressResolver
  import opened BusinessIdentifier
  import opened EmailComposer
  import BodyCleaning

  const AddressFailureDraft := ProblemResponse("ERROR", "An unexpected error occured while trying to get the address")
  const BusinessFailureDraft := ProblemResponse("ERROR", "An unexpected error occured while trying to get the business data")

  /** The orchestration with the business stage as a parameter `lookup`. An address error
      returns the address-failure draft before the business stage; a business error
      returns the business-failure draft before the email stage; otherwise the email
      stage's outcome is the pipeline's. */
  method ProcessSubmissionWith(submission: Submission, geocode: (string, string) -> GeocodeReply,
                               lookup: string -> Business, chat: string -> ModelReply)
    returns (out: Outcome, stages: seq<Stage>)
    ensures var addr := ResolveAddress(geocode(submission.latitude, submission.longitude));
      addr.AddressError? ==> out == Returned(AddressFailureDraft) && stages == [AddressStage]
    ensures var addr := ResolveAddress(geocode(submission.latitude, submission.longitude));
      addr.AddressFound? && IsTruthy(lookup(addr.address).error) ==>
        out == Returned(BusinessFailureDraft) && stages == [AddressStage, BusinessStage]
    ensures var addr := ResolveAddress(geocode(submission.latitude, submission.longitude));
      addr.AddressFound? && !IsTruthy(lookup(addr.address).error) ==>
        out == GetEmailData(submission.problem, lookup(addr.address), submission.latitude, submission.longitude, chat) &&
        stages == [AddressStage, BusinessStage, EmailStage]
  {
    stages := [AddressStage];
    var addressRes := GetAddressData(submission.latitude, submission.longitude, geocode);
    if addressRes.AddressError? {
      return Returned(AddressFailureDraft), stages;
    }
    stages := stages + [BusinessStage];
    var businessRes := lookup(addressRes.address);
    if IsTruthy(businessRes.error) {
      return Returned(BusinessFailureDraft), stages;
    }
    stages := stages + [EmailStage];
    out := GetEmailData(submission.problem, businessRes, submission.latitude, submission.longitude, chat);
  }

  /** `processSubmission` with the stub business stage. With it the business-failure
      branch is never taken: whenever the business stage runs, the email stage runs too,
      and it receives the placeholder record for the resolved address. */
  method ProcessSubmission(submission: Submission, geocode: (string, string) -> GeocodeReply,
                           chat: string -> ModelReply)
    returns (out: Outcome, stages: seq<Stage>)
    ensures var addr := ResolveAddress(geocode(submission.latitude, submission.longitude));
      addr.AddressError? ==> out == Returned(AddressFailureDraft) && stages == [AddressStage]
    ensures var addr := ResolveAddress(geocode(submission.latitude, submission.longitude));
      addr.AddressFound? ==>
        out == GetEmailData(submission.problem, GetBusinessData(addr.address), submission.latitude, submission.longitude, chat) &&
        stages == [AddressStage, BusinessStage, EmailStage]
    ensures BusinessStage in stages ==> EmailStage in stages
  {
    out, stages := ProcessSubmissionWith(submission, geocode, GetBusinessData, chat);
  }

  /** A geocoder with no results: the address-failure draft, and only the address stage ran. */
  method NoResultsScenario(submission: Submission) returns (out: Outcome, stages: seq<Stage>)
    ensures out == Returned(AddressFailureDraft) && stages == [AddressStage]
  {
    FirstVicinityNone([]);
    out, stages := ProcessSubmission(submission, (lat, lon) => Results([]), message => ChatFailed);
  }

  /** A business stage that fails with the sentinel record: the business-failure draft,
      and the email stage never ran. */
  method BusinessErrorScenario(submission: Submission) returns (out: Outcome, stages: seq<Stage>)
    ensures out == Returned(BusinessFailureDraft) && stages == [AddressStage, BusinessStage]
  {
    var store := Place("14 Main St", ["store"]);
    assert TransitStation !in store.types;
    FirstVicinityAt([store], 0);
    SentinelIsDistinct("14 Main St");
    out, stages := ProcessSubmissionWith(submission, (lat, lon) => Results([store]),
                                         address => BusinessFailure, message => ChatFailed);
  }

  /** A reply whose body carries an escaped newline: the draft has a real newline there
      and the subject unchanged. */
  method EscapedNewlineScenario(submission: Submission) returns (out: Outcome, stages: seq<Stage>)
    ensures out == Returned(ProblemResponse("Re: Accessibility Issue", "Hello,\nThe ramp is broken."))
    ensures stages == [AddressStage, BusinessStage, EmailStage]
  {
    var store := Place("14 Main St", ["store"]);
    assert TransitStation !in store.types;
    FirstVicinityAt([store], 0);
    BodyCleaning.EscapedNewlineExample();
    out, stages := ProcessSubmission(submission, (lat, lon) => Results([store]),
                                     message => Reply("Re: Accessibility Issue", "Hello,\\nThe ramp is broken."));
  }
}
