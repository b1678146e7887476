/** What the handler sees of the outside world: the inbound event, the calls it
    makes (its trace) and the outcomes of those calls. Every collaborator the
    handler cannot see (the Ed25519 verifier, json.loads, the parameter store,
    HTTP) is an oracle: a function from the call to its outcome. Each call
    happens at most once per request, so a function is as general as the
    real, nondeterministic collaborator. */
module World {
  import opened Wrappers
  import opened Python
  import opened Hex

  /** The Lambda event, with its two signature headers and its raw body. */
  datatype Event = Event(signature: string, timestamp: string, body: string)

  /** The JSON body of the workflow run request. */
  datatype WorkflowRequest = WorkflowRequest(inputs: map<string, Json>, responseMode: string, user: Json)

  /** One call the handler makes, in the order it makes them. The callback
      body is always `{"type": 4, "data": {"content": ackContent}}`, so only
      its content is recorded. */
  datatype Step =
    | Verify(message: string, signature: seq<byte>)
    | Decode(raw: string)
    | GetParameter(parameterName: string)
    | PostCallback(callbackUrl: string, ackContent: string)
    | PostWorkflow(workflowUrl: string, bearer: string, request: WorkflowRequest)
    | PostMessage(messagesUrl: string, botAuthorization: string, text: Json)
  {
    /** The position of this kind of call in the handler's fixed pipeline. */
    function Stage(): nat {
      match this
      case Verify(_, _) => 0
      case Decode(_) => 1
      case GetParameter(_) => 2
      case PostCallback(_, _) => 3
      case PostWorkflow(_, _, _) => 4
      case PostMessage(_, _, _) => 5
    }

    /** A call that leaves the process (parameter store or HTTP). */
    predicate Outbound() {
      Stage() >= 2
    }
  }

  datatype VerifyOutcome = Verified | BadSignature | VerifyRaised

  /** The acknowledgment post either returns a response (of any status) or raises. */
  datatype CallbackOutcome = Delivered | CallbackRaised

  /** The workflow post: a timeout, another request failure (including a
      non-2xx status via raise_for_status), or a response whose body may not
      be JSON. */
  datatype WorkflowOutcome = TimedOut | RequestFailed(reason: string) | Responded(body: Option<Json>)

  /** The channel message post either raises or returns a body that may not be JSON. */
  datatype MessageOutcome = MessageRaised | MessageReplied(body: Option<Json>)

  /** Configuration loaded at cold start, and the oracles. */
  datatype Env = Env(
    botToken: string,
    difyEndpoint: string,
    verify: (string, seq<byte>) -> VerifyOutcome,
    decode: string -> Option<Json>,
    parameter: string -> Option<string>,
    callback: (string, string) -> CallbackOutcome,
    workflow: (string, string, WorkflowRequest) -> WorkflowOutcome,
    message: (string, string, Json) -> MessageOutcome,
    containerStr: Json -> string)
}
