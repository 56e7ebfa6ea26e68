/** The business stage, `getBusinessData` (newProcessSubmission.ts:68-124). The two
    knowledge-service requests are commented out, so the stage returns a fixed
    placeholder record built around the address it is given. */
module BusinessIdentifier {
  import opened SubmissionTypes

  const StubName := "Example Business"
  const StubEmail := "example@domain.xyz"
  const FailureMessage := "Failed to get the business data"

  /** The record of the `catch` branch: every field "Error" and the reason attached. */
  const BusinessFailure := Business("Error", "Error", "Error", Some(FailureMessage))

  /** A JavaScript condition `if (x.error)`: the field is present and not the empty string. */
  predicate IsTruthy(error: Option<string>) {
    error.Some? && error.value != ""
  }

  /** `getBusinessData` as it stands: the placeholder record for `address`. */
  function GetBusinessData(address: string): Business {
    Business(address, StubName, StubEmail, None)
  }

  /** The stub never reports an error, passes the address through unchanged, and gives
      every address the same name and email. */
  lemma StubBusinessSucceeds(address: string, other: string)
    ensures !IsTruthy(GetBusinessData(address).error)
    ensures GetBusinessData(address).address == address
    ensures GetBusinessData(address).name == GetBusinessData(other).name == StubName
    ensures GetBusinessData(address).email == GetBusinessData(other).email == StubEmail
  {
  }

  /** The sentinel is what the orchestrator's error test catches, and no address makes
      the stub produce it. */
  lemma SentinelIsDistinct(address: string)
    ensures IsTruthy(BusinessFailure.error)
    ensures GetBusinessData(address) != BusinessFailure
  {
  }
}
