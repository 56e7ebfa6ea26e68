/** The email stage, `getEmailData` (newProcessSubmission.ts:126-174): build the user
    message, ask the chat service for a JSON `{subject, body}` reply, and clean the body. */
module EmailComposer {
  import opened SubmissionTypes
  import opened BodyCleaning

  /** The chat service's reply as the stage reads it. `ChatFailed`: the request itself
      was rejected. `Malformed`: the reply text is not JSON, or has no string `body`, so
      `JSON.parse` or `.replace` throws. `Reply`: the parsed subject and body. */
  datatype ModelReply = ChatFailed | Malformed | Reply(subject: string, body: string)

  /** The user message sent to the chat service: the problem, then the business name,
      address and email, then the coordinates. */
  function UserMessage(problem: string, business: Business, latitude: string, longitude: string): string {
    problem + ". " + business.name + " " + business.address + ", " + business.email + " " + latitude + " " + longitude
  }

  /** Where each field sits in the user message, so that each can be read back from it. */
  lemma UserMessageLayout(problem: string, business: Business, latitude: string, longitude: string)
    ensures var m := UserMessage(problem, business, latitude, longitude);
      var n := |problem| + 2;
      var a := n + |business.name| + 1;
      var e := a + |business.address| + 2;
      var la := e + |business.email| + 1;
      var lo := la + |latitude| + 1;
      |m| == lo + |longitude| &&
      m[..|problem|] == problem && m[|problem|..n] == ". " &&
      m[n..n + |business.name|] == business.name && m[a - 1] == ' ' &&
      m[a..a + |business.address|] == business.address && m[e - 2..e] == ", " &&
      m[e..e + |business.email|] == business.email && m[la - 1] == ' ' &&
      m[la..la + |latitude|] == latitude && m[lo - 1] == ' ' &&
      m[lo..] == longitude
  {
  }

  /** `getEmailData`: the outcome for a chat service that answers `chat(message)`. The
      stage returns a draft exactly when the reply parses; the subject is passed through
      unchanged, and the body is the cleaned reply body, which contains none of the three
      patterns and is no longer than the reply body. */
  function GetEmailData(problem: string, business: Business, latitude: string, longitude: string,
                        chat: string -> ModelReply): (out: Outcome)
    ensures var reply := chat(UserMessage(problem, business, latitude, longitude));
      (out.Returned? <==> reply.Reply?) &&
      (out.Returned? ==>
        out.draft.subject == reply.subject &&
        out.draft.body == CleanBody(reply.body) &&
        |out.draft.body| <= |reply.body| &&
        !HasMatch(NewlineEscape, out.draft.body) &&
        !HasMatch(AnyEscape, out.draft.body) &&
        !HasMatch(DoubleBackslash, out.draft.body))
  {
    match chat(UserMessage(problem, business, latitude, longitude))
    case Reply(subject, body) =>
      CleanBodyFacts(body);
      Returned(ProblemResponse(subject, CleanBody(body)))
    case _ => Threw
  }
}
