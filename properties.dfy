/** Consequences of the handler's contract: the signature gates everything,
    the calls follow the fixed pipeline, and each route returns its fixed
    response. Every lemma holds for every behaviour of the outside world. */
module DiscordProperties {
  import opened Wrappers
  import opened Python
  import opened Hex
  import opened World
  import opened DiscordApp

  /** The decoded payload, when the signature parsed and verified and the body is JSON. */
  ghost function Payload(env: Env, event: Event): Option<Json> {
    match FromHex(event.signature)
    case None => None
    case Some(signature) =>
      if env.verify(SignedMessage(event), signature) == Verified then env.decode(event.body) else None
  }

  /** The payload's `type` field, when there is a payload that has one. */
  ghost function EventType(env: Env, event: Event): Option<Json> {
    match Payload(env, event)
    case None => None
    case Some(payload) =>
      var kind := Path(payload, [Field("type")]);
      if kind.Ok? then Some(kind.value) else None
  }

  /** The handler returns one of its five fixed responses. */
  lemma ResponsesAreFixed(env: Env, event: Event, resp: Response, trace: seq<Step>)
    requires HandlerContract(env, event, resp, trace)
    ensures resp in {PingResponse, CommandResponse, BadSignatureResponse, NotFoundResponse, InternalErrorResponse}
    ensures resp.statusCode in {200, 401, 404, 500}
  {
  }

  /** A signature that verifies badly gives exactly the 401 response, and
      nothing runs after the verifier: no decoding, no outbound call. */
  lemma BadSignatureIs401(env: Env, event: Event, resp: Response, trace: seq<Step>)
    requires HandlerContract(env, event, resp, trace)
    ensures resp == BadSignatureResponse <==>
      FromHex(event.signature).Some? && env.verify(SignedMessage(event), FromHex(event.signature).value) == BadSignature
    ensures resp == BadSignatureResponse ==>
      trace == [Verify(SignedMessage(event), FromHex(event.signature).value)]
  {
  }

  /** A signature header that is not hex raises inside the try: 500, not 401,
      and not even the verifier is consulted. */
  lemma MalformedSignatureIs500(env: Env, event: Event, resp: Response, trace: seq<Step>)
    requires HandlerContract(env, event, resp, trace)
    requires FromHex(event.signature) == None
    ensures resp == InternalErrorResponse && trace == []
  {
  }

  /** A verified body that is not JSON gives 500 after the decode attempt. */
  lemma UndecodableBodyIs500(env: Env, event: Event, resp: Response, trace: seq<Step>)
    requires HandlerContract(env, event, resp, trace)
    requires FromHex(event.signature).Some?
    requires env.verify(SignedMessage(event), FromHex(event.signature).value) == Verified
    requires env.decode(event.body) == None
    ensures resp == InternalErrorResponse && |trace| == 2 && trace[1] == Decode(event.body)
  {
  }

  /** A verified ping (`type == 1`, in Python's sense of `==`) gets exactly
      `{'statusCode': 200, 'body': '{"type": 1}'}` and makes no outbound call. */
  lemma PingIs200(env: Env, event: Event, resp: Response, trace: seq<Step>)
    requires HandlerContract(env, event, resp, trace)
    requires EventType(env, event).Some? && EqualsInt(EventType(env, event).value, 1)
    ensures resp == Response(200, Some("{\"type\": 1}"))
    ensures |trace| == 2 && forall i | 0 <= i < |trace| :: !trace[i].Outbound()
  {
  }

  /** `True == 1` in Python, so a payload whose type is JSON `true` is a ping. */
  lemma BooleanTypeIsPing(env: Env, event: Event, resp: Response, trace: seq<Step>)
    requires HandlerContract(env, event, resp, trace)
    requires Payload(env, event) == Some(Dict(map["type" := Bool(true)]))
    ensures resp == PingResponse
  {
  }

  /** Exactly the verified payloads whose type is neither 1 nor 2 get the bare
      404, and they make no outbound call. */
  lemma UnknownTypeIs404(env: Env, event: Event, resp: Response, trace: seq<Step>)
    requires HandlerContract(env, event, resp, trace)
    ensures resp == NotFoundResponse <==>
      EventType(env, event).Some? && !EqualsInt(EventType(env, event).value, 1)
      && !EqualsInt(EventType(env, event).value, 2)
    ensures resp == NotFoundResponse ==> |trace| == 2 && trace[1] == Decode(event.body)
  {
  }

  /** The command path's calls are the last four stages of the pipeline, in order. */
  lemma CommandFollowsPipeline(env: Env, body: Json, ok: bool, calls: seq<Step>)
    requires CommandContract(env, body, ok, calls)
    ensures |calls| <= 4
    ensures forall k | 0 <= k < |calls| :: calls[k].Stage() == k + 2
  {
  }

  /** Every call sits at its own position of the fixed pipeline: verify,
      decode, secret lookup, acknowledgment, workflow run, channel post. So
      each call happens at most once and only after all those before it. */
  lemma TraceFollowsPipeline(env: Env, event: Event, resp: Response, trace: seq<Step>)
    requires HandlerContract(env, event, resp, trace)
    ensures |trace| <= 6
    ensures forall i | 0 <= i < |trace| :: trace[i].Stage() == i
  {
    if |trace| > 2 {
      CommandCase(env, event, resp, trace);
      var calls := trace[2..];
      CommandFollowsPipeline(env, Payload(env, event).value, resp == CommandResponse, calls);
      assert forall i | 2 <= i < |trace| :: trace[i] == calls[i - 2];
    }
  }

  /** No outbound call happens unless the signature verified, the body decoded
      and the payload is a command. */
  lemma VerificationGatesEffects(env: Env, event: Event, resp: Response, trace: seq<Step>)
    requires HandlerContract(env, event, resp, trace)
    ensures (exists i | 0 <= i < |trace| :: trace[i].Outbound()) ==>
      && EventType(env, event).Some? && EqualsInt(EventType(env, event).value, 2)
      && trace[0] == Verify(SignedMessage(event), FromHex(event.signature).value)
      && trace[1] == Decode(event.body)
  {
  }

  /** The workflow run, when it happens, comes right after the acknowledgment. */
  lemma AckPrecedesWorkflow(env: Env, event: Event, resp: Response, trace: seq<Step>)
    requires HandlerContract(env, event, resp, trace)
    ensures forall i | 0 <= i < |trace| && trace[i].PostWorkflow? :: i == 4 && trace[3].PostCallback?
  {
    TraceFollowsPipeline(env, event, resp, trace);
  }

  /** The secret looked up is `/dify/app/<command name>`; when it is missing
      the request ends in 500 before the acknowledgment. */
  lemma MissingSecretIs500(env: Env, event: Event, resp: Response, trace: seq<Step>)
    requires HandlerContract(env, event, resp, trace)
    requires |trace| >= 3 && trace[2].GetParameter? && env.parameter(trace[2].parameterName) == None
    ensures resp == InternalErrorResponse && |trace| == 3
    ensures trace[2].parameterName == SecretName(env, Path(Payload(env, event).value, NamePath).value)
  {
    CommandCase(env, event, resp, trace);
    assert trace[2..][0] == trace[2];
  }

  /** On the command path, a workflow error dict ends the path after the
      workflow run: its missing `data` raises before the channel post. */
  lemma CommandWorkflowErrorRaises(env: Env, body: Json, ok: bool, calls: seq<Step>)
    requires CommandContract(env, body, ok, calls)
    requires |calls| >= 3 && calls[2].PostWorkflow?
    requires var o := env.workflow(calls[2].workflowUrl, calls[2].bearer, calls[2].request);
      o.TimedOut? || o.RequestFailed?
    ensures !ok && |calls| == 3 && calls[1].PostCallback?
  {
  }

  /** A verified command payload: the handler's calls after verify and decode
      are those of the command path, and its response is the bare 200 or 500. */
  lemma CommandCase(env: Env, event: Event, resp: Response, trace: seq<Step>)
    requires HandlerContract(env, event, resp, trace)
    requires |trace| > 2
    ensures EventType(env, event).Some? && EqualsInt(EventType(env, event).value, 2)
    ensures trace[0] == Verify(SignedMessage(event), FromHex(event.signature).value)
    ensures trace[1] == Decode(event.body)
    ensures resp == CommandResponse || resp == InternalErrorResponse
    ensures CommandContract(env, Payload(env, event).value, resp == CommandResponse, trace[2..])
  {
  }

  /** When the workflow client returns its error dict (timeout or failed
      request), reading `data` from it raises: the request ends in 500 after
      the acknowledgment went out, and nothing is posted to the channel. */
  lemma WorkflowErrorIs500(env: Env, event: Event, resp: Response, trace: seq<Step>)
    requires HandlerContract(env, event, resp, trace)
    requires |trace| >= 5 && trace[4].PostWorkflow?
    requires var o := env.workflow(trace[4].workflowUrl, trace[4].bearer, trace[4].request);
      o.TimedOut? || o.RequestFailed?
    ensures resp == InternalErrorResponse
    ensures |trace| == 5 && trace[3].PostCallback?
  {
    CommandCase(env, event, resp, trace);
    var calls := trace[2..];
    assert calls[1] == trace[3] && calls[2] == trace[4];
    CommandWorkflowErrorRaises(env, Payload(env, event).value, resp == CommandResponse, calls);
  }

  /** The command path ends in the bare 200 exactly when all four outbound
      calls were made and the channel post answered with JSON. */
  lemma CommandSuccessIs200(env: Env, event: Event, resp: Response, trace: seq<Step>)
    requires HandlerContract(env, event, resp, trace)
    ensures resp == Response(200, None) <==>
      |trace| == 6 && trace[5].PostMessage? &&
      var o := env.message(trace[5].messagesUrl, trace[5].botAuthorization, trace[5].text);
      o.MessageReplied? && o.body.Some?
  {
    if |trace| > 2 {
      CommandCase(env, event, resp, trace);
      assert |trace| == 6 ==> trace[2..][3] == trace[5];
    }
  }

  /** The workflow inputs and the acknowledgment text of a command: `neko`
      maps its argument to `query` and echoes `text=`, `summary` maps it to
      `url` and echoes `url=`, any other name sends no input and echoes nothing. */
  lemma CommandInputsAndAck(env: Env, name: Json, body: Json)
    requires ParseCommand(name, body).Ok?
    ensures var c := ParseCommand(name, body).value;
      && (name == Str("neko") ==>
            var v := Path(body, ArgumentPath).value;
            Inputs(c) == map["query" := v] && AckText(env, c) == "<Input text=" + Format(v, env.containerStr) + ">")
      && (name == Str("summary") ==>
            var v := Path(body, ArgumentPath).value;
            Inputs(c) == map["url" := v] && AckText(env, c) == "<Input url=" + Format(v, env.containerStr) + ">")
      && (name != Str("neko") && name != Str("summary") ==>
            Inputs(c) == map[] && AckText(env, c) == "<Input >")
  {
  }

  /** Of the options, only `options[0]['value']` matters. */
  lemma OnlyFirstOptionValueMatters(name: Json, body1: Json, body2: Json)
    requires Path(body1, ArgumentPath) == Path(body2, ArgumentPath)
    ensures ParseCommand(name, body1) == ParseCommand(name, body2)
  {
  }

  /** `/neko text:Tama` asks the workflow for `{"query": "Tama"}` and
      acknowledges with `<Input text=Tama>`. */
  lemma NekoExample(env: Env)
    ensures var body := Dict(map["data" := Dict(map["name" := Str("neko"),
                                 "options" := List([Dict(map["value" := Str("Tama")])])])]);
      && ParseCommand(Str("neko"), body) == Ok(Neko(Str("Tama")))
      && Inputs(Neko(Str("Tama"))) == map["query" := Str("Tama")]
      && AckText(env, Neko(Str("Tama"))) == "<Input text=Tama>"
  {
  }
}
