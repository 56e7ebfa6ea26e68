# RapidReport submission pipeline, modelled in Dafny

RapidReport turns a user's report of an accessibility problem at their location into a
ready-to-send complaint email. The one piece of logic behind the page is
`processSubmission` in `src/services/newProcessSubmission.ts`. It runs three stages in order:

1. **Address stage** (`getAddressData`). It reverse-geocodes the coordinates and keeps the
   `vicinity` of the first result that is not a `transit_station`.
2. **Business stage** (`getBusinessData`). Today this is a stub that returns a placeholder
   name and email around the address.
3. **Email stage** (`getEmailData`). It sends a user message to a chat model, reads back a
   JSON `{subject, body}`, and cleans the body with three global replacements.

The first stage that reports an error ends the pipeline with a fixed `"ERROR"` draft.

The model is split across these files:

- `submission_types.dfy` (module `SubmissionTypes`): the records that pass between stages.
  These are the submission, the email draft (`ProblemResponse`) and the business record.
  It also defines `Outcome`, which is either a returned draft or `Threw` (an exception that
  leaves `processSubmission`), and `Stage`, the names of the stages.
- `address_resolver.dfy` (module `AddressResolver`): `GetAddressData` is the source's `for`
  loop with its early return. It is proved equal to the recursive reference
  `ResolveAddress`, and the first-match rule and the two error cases are proved about that
  reference.
- `business_identifier.dfy` (module `BusinessIdentifier`): the stub record, the `catch`
  branch's all-`"Error"` sentinel, and JavaScript truthiness of an `error` field.
- `body_cleaning.dfy` (module `BodyCleaning`): the three regular-expression passes
  `/\\n/g → "\n"`, `/\\./g → ""` and `/\\\\/g → "\\"`. All three patterns are a backslash
  plus one more character, so one function `Replace(pass, s)` covers them. It makes a
  left-to-right, non-overlapping global replacement over `seq<char>`.
- `email_composer.dfy` (module `EmailComposer`): the user message and the email stage.
- `submission_pipeline.dfy` (module `SubmissionPipeline`): the orchestrator and three
  end-to-end scenarios.

External services are function parameters:

- the geocoder: `(latitude, longitude) -> GeocodeReply`;
- the chat model: `userMessage -> ModelReply`.

`ProcessSubmissionWith` is `processSubmission` with the business stage as a parameter too.
This makes its business-failure branch reachable in the model. `ProcessSubmission` passes
the stub `GetBusinessData`, as the source does. It proves that, with the stub, the
business-failure branch is never taken. Each orchestrator also returns `stages`, the list
of stages it started. This is how the model states that a later stage was never invoked.

The second pass `/\\./g` deletes a backslash together with ANY following character except a
line terminator (`\n`, `\r`, U+2028, U+2029), not only an escaped dot. The model follows the
code. So after the second pass no two backslashes are left next to each other, and the
third pass never changes anything (`CleanBodyFacts`).

The orchestrator tests `if (res.error)`, which is JavaScript truthiness. An absent error or
an empty error string lets the pipeline continue. `IsTruthy` models this.

## Model

| member | source | states |
|---|---|---|
| `AddressResolver.GetAddressData` | src/services/newProcessSubmission.ts:44-66 | the loop's result equals `ResolveAddress` of the geocoder's reply for these coordinates |
| `AddressResolver.FirstVicinityAt` | src/services/newProcessSubmission.ts:50-57 | if entry `i` is not a transit station and every earlier entry is, the selected address is entry `i`'s vicinity |
| `AddressResolver.FirstVicinityFound` | src/services/newProcessSubmission.ts:50-57 | any selected address is the vicinity of some entry that is the first non-transit entry |
| `AddressResolver.FirstVicinityNone` | src/services/newProcessSubmission.ts:50-61 | no address is selected iff every entry, if any, is a transit station |
| `AddressResolver.ResolveAddressSpec` | src/services/newProcessSubmission.ts:44-66 | a failed fetch gives exactly the fetch error; "No businesses found nearby" iff all entries are transit stations (including none); otherwise the first non-transit vicinity with no error |
| `AddressResolver.SkipsTransitStation` | src/services/newProcessSubmission.ts:51-57 | a transit station followed by a store resolves to the store's address |
| `BusinessIdentifier.StubBusinessSucceeds` | src/services/newProcessSubmission.ts:111-115 | the stub never reports an error, keeps the address unchanged, and gives every address the same name and email |
| `BusinessIdentifier.SentinelIsDistinct` | src/services/newProcessSubmission.ts:116-122 | the catch-branch sentinel has a truthy error, and the stub never produces it |
| `BodyCleaning.Replace` | src/services/newProcessSubmission.ts:169-171 | one global replacement never lengthens the string |
| `BodyCleaning.ReplaceNoMatch` | src/services/newProcessSubmission.ts:169-171 | a pass leaves any string with no match unchanged |
| `BodyCleaning.ReplaceShrinks` | src/services/newProcessSubmission.ts:169-171 | a pass makes any string with a match strictly shorter |
| `BodyCleaning.ReplaceFixedIff` | src/services/newProcessSubmission.ts:169-171 | a pass changes the string iff its pattern occurs in it |
| `BodyCleaning.AnyEscapeClears` | src/services/newProcessSubmission.ts:170 | after the second pass, every backslash is last or followed by a line terminator |
| `BodyCleaning.CleanBodyFacts` | src/services/newProcessSubmission.ts:169-171 | the third pass never changes the string; the cleaned body has no escaped `n`, no escape pair and no double backslash; it is no longer than the input |
| `BodyCleaning.CleanBodyIdempotent` | src/services/newProcessSubmission.ts:169-171 | cleaning a cleaned body changes nothing |
| `BodyCleaning.PassOrderMatters` | src/services/newProcessSubmission.ts:169-171 | `\n\.` (written as backslash sequences) becomes `<newline>\.` after pass 1 and one real newline after pass 2, whereas pass 2 applied first deletes everything |
| `BodyCleaning.EscapedNewline` | src/services/newProcessSubmission.ts:169-171 | in a body whose only backslash is one escaped `n`, that escape becomes a real newline and nothing else changes |
| `BodyCleaning.EscapedNewlineExample` | src/services/newProcessSubmission.ts:169-171 | `Hello,\nThe ramp is broken.` with an escaped `n` comes out with a real newline |
| `EmailComposer.UserMessageLayout` | src/services/newProcessSubmission.ts:144 | the user message is the problem, `". "`, name, `" "`, address, `", "`, email, `" "`, latitude, `" "`, longitude, each at its offset |
| `EmailComposer.GetEmailData` | src/services/newProcessSubmission.ts:126-174 | a draft is returned iff the reply parses; its subject is the reply's subject unchanged; its body is the cleaned reply body, has none of the three patterns and is no longer than the reply body |
| `SubmissionPipeline.ProcessSubmissionWith` | src/services/newProcessSubmission.ts:28-42 | an address error gives the fixed address draft with only the address stage run; a truthy business error gives the fixed business draft with the email stage not run; otherwise the email stage's outcome after all three stages |
| `SubmissionPipeline.ProcessSubmission` | src/services/newProcessSubmission.ts:28-42 | with the stub, an address error gives the address draft, and otherwise the email stage always runs on the placeholder record for the resolved address |
| `SubmissionPipeline.NoResultsScenario` | src/services/newProcessSubmission.ts:29-33 | an empty geocoder result gives the address-failure draft after the address stage alone |
| `SubmissionPipeline.BusinessErrorScenario` | src/services/newProcessSubmission.ts:34-38 | a business stage returning the sentinel gives the business-failure draft without the email stage |
| `SubmissionPipeline.EscapedNewlineScenario` | src/services/newProcessSubmission.ts:39-41 | a reply body with an escaped `n` returns a draft with a real newline and the subject unchanged |

## Left out

- The HTTP calls are not modelled. These are the Google geocode `axios.get` and the
  construction of its URL and key (lines 45-47), and the `cohere.chat` request (lines
  135-162). Their replies are the `geocode` and `chat` parameters.
- The system prompt text and the JSON response schema sent to the chat model are not
  modelled. Only the user message is passed to `chat`, because the system prompt is a
  constant.
- `JSON.parse` and the reading of `message.content[0].text` are not modelled. A reply that
  does not parse, or has no string `body`, is the `Malformed` reply, and the stage then
  throws (`Threw`). A parsed reply whose `subject` is missing would pass `undefined` through.
  The model takes the subject to be a string.
- A geocoder entry without `types`, or a payload without `results`, throws inside the `try`.
  It surfaces as the fetch error. The model does not derive this from the payload. It is
  the `FetchFailed` reply. A missing `vicinity` (an `undefined` address) is not modelled.
- Characters: JavaScript's `.` matches one UTF-16 code unit. Dafny's `char` is a
  Unicode scalar value. So a backslash before a character outside the Basic Multilingual
  Plane is modelled as removing the whole character, where the source would leave a lone
  low surrogate.
- The live business lookup is commented out in the source (lines 103-109), so it is not
  modelled. The stub's `catch` branch cannot be reached. Its sentinel record is
  `BusinessFailure`.
- `console.log`/`console.error`, the module-level chat client, and `async`/`await` are not
  modelled. The stages run strictly one after another, so they are modelled as plain calls.
- The form in `src/app/page.tsx` is not part of this model. That covers its empty-field
  check, geolocation, image upload, and its `catch` of an exception thrown by the pipeline.
  `processSubmission` itself checks none of its inputs, so the model has no precondition.
  `src/app/social/page.tsx` and `src/app/layout.tsx` are presentational.
