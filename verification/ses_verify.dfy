/** The custom-resource handler that asks the email service to verify the notification
    address when the stack is created or updated, removes that identity when the stack is
    deleted, and reports the outcome to the stack's response URL. The email-service calls
    and the HTTPS PUT are actions in a trace; their outcomes are given up front. */
module SesVerify {
  import opened Wrappers

  /** The `Status` values of the response. */
  datatype Status = SUCCESS | FAILED

  /** The fields of the custom-resource event the handler reads. */
  datatype ResourceEvent = ResourceEvent(
    requestType: string,
    emailAddress: string,
    responseUrl: string,
    stackId: string,
    requestId: string,
    logicalResourceId: string)

  /** The `Data` of a response: a message on success, the caught error's message on failure. */
  datatype ResponseData = MessageData(message: string) | ErrorData(error: string)

  /** The JSON body PUT to the response URL. */
  datatype ResponseEnvelope = ResponseEnvelope(
    status: Status,
    reason: string,
    physicalResourceId: string,
    stackId: string,
    requestId: string,
    logicalResourceId: string,
    data: ResponseData)

  /** The reason given when the data carries no (non-empty) error message. */
  const DefaultReason: string := "See CloudWatch Logs"

  /** The message of every SUCCESS response, whatever the request type. */
  function SuccessMessage(email: string): string
  {
    "SES verification email sent to " + email
  }

  /** The response body for `status` and `data`: the reason is the error message when
      there is a non-empty one and the default otherwise; the identifiers are echoed from
      the event, and the physical id is the logical one. */
  function BuildEnvelope(event: ResourceEvent, status: Status, data: ResponseData): (env: ResponseEnvelope)
    ensures env.status == status && env.data == data
    ensures env.physicalResourceId == event.logicalResourceId && env.logicalResourceId == event.logicalResourceId
    ensures env.stackId == event.stackId && env.requestId == event.requestId
    ensures env.reason != ""
    ensures data.ErrorData? && data.error != "" ==> env.reason == data.error
    ensures !(data.ErrorData? && data.error != "") ==> env.reason == DefaultReason
  {
    var reason := if data.ErrorData? && data.error != "" then data.error else DefaultReason;
    ResponseEnvelope(status, reason, event.logicalResourceId, event.stackId, event.requestId,
                     event.logicalResourceId, data)
  }

  /** The email-service calls the handler makes. */
  datatype SesAction = VerifyEmailIdentity(emailAddress: string) | DeleteIdentity(identity: string)

  /** What the handler does, in order: email-service calls issued and responses sent. */
  datatype Effect = SesCall(action: SesAction) | SendResponse(url: string, envelope: ResponseEnvelope)

  /** How the handler's invocation ends: normally, or rejected with an error message. */
  datatype Completion = Completed | Rejected(error: string)

  /** The collaborators' answers: the error of the one email-service call, if it fails;
      the error of the first and of the second response PUT, if they fail. */
  datatype Collaborators = Collaborators(
    sesError: Option<string>,
    firstPutError: Option<string>,
    secondPutError: Option<string>)

  predicate IsVerifyRequest(requestType: string)
  {
    requestType == "Create" || requestType == "Update"
  }

  /** The number of email-service calls a request type leads to. */
  function CallCount(requestType: string): nat
  {
    if IsVerifyRequest(requestType) || requestType == "Delete" then 1 else 0
  }

  /** Handles one event. Create and Update issue one verify call for the address, Delete
      one delete call whose failure is ignored, any other type none; the calls come
      first, then only responses, each to the event's response URL. The first response is
      FAILED with the verify call's error when that call failed, and SUCCESS otherwise.
      When the SUCCESS PUT fails, a second response, FAILED with the PUT's error,
      follows. The invocation is rejected only when its last PUT fails. */
  method Handle(event: ResourceEvent, world: Collaborators) returns (trace: seq<Effect>, completion: Completion)
    ensures CallCount(event.requestType) < |trace|
    ensures IsVerifyRequest(event.requestType) ==> trace[0] == SesCall(VerifyEmailIdentity(event.emailAddress))
    ensures event.requestType == "Delete" ==> trace[0] == SesCall(DeleteIdentity(event.emailAddress))
    ensures forall i :: CallCount(event.requestType) <= i < |trace| ==>
              trace[i].SendResponse? && trace[i].url == event.responseUrl
    ensures var k := CallCount(event.requestType);
      IsVerifyRequest(event.requestType) && world.sesError.Some? ==>
        && |trace| == k + 1
        && trace[k].envelope == BuildEnvelope(event, FAILED, ErrorData(world.sesError.value))
        && completion == (if world.firstPutError.Some? then Rejected(world.firstPutError.value) else Completed)
    ensures var k := CallCount(event.requestType);
      !(IsVerifyRequest(event.requestType) && world.sesError.Some?) ==>
        && trace[k].envelope == BuildEnvelope(event, SUCCESS, MessageData(SuccessMessage(event.emailAddress)))
        && (world.firstPutError.None? ==> |trace| == k + 1 && completion == Completed)
        && (world.firstPutError.Some? ==>
              && |trace| == k + 2
              && trace[k + 1].envelope == BuildEnvelope(event, FAILED, ErrorData(world.firstPutError.value))
              && completion == (if world.secondPutError.Some? then Rejected(world.secondPutError.value) else Completed))
  {
    var email := event.emailAddress;
    var requestType := event.requestType;
    trace := [];
    // The error caught by the outer handler, if any.
    var caught: Option<string> := None;
    // How many responses have been attempted so far.
    var attempts := 0;

    if requestType == "Create" || requestType == "Update" {
      trace := trace + [SesCall(VerifyEmailIdentity(email))];
      caught := world.sesError;
    } else if requestType == "Delete" {
      trace := trace + [SesCall(DeleteIdentity(email))];
      // A failed delete is logged and skipped.
    }

    if caught.None? {
      var success := SendResponse(event.responseUrl, BuildEnvelope(event, SUCCESS, MessageData(SuccessMessage(email))));
      trace := trace + [success];
      attempts := 1;
      caught := world.firstPutError;
    }

    completion := Completed;
    if caught.Some? {
      var failed := SendResponse(event.responseUrl, BuildEnvelope(event, FAILED, ErrorData(caught.value)));
      trace := trace + [failed];
      var putError := if attempts == 0 then world.firstPutError else world.secondPutError;
      if putError.Some? {
        completion := Rejected(putError.value);
      }
    }
  }
}
