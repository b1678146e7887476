/** The Lambda function behind the chat platform's interactions endpoint
    (discord/app.py): signature gate, event routing, the slash-command bridge
    to the workflow API, and the workflow client. */
module DiscordApp {
  import opened Wrappers
  import opened Python
  import opened Hex
  import opened World

  /** The dict the Lambda returns; `body` is absent on two paths. */
  datatype Response = Response(statusCode: int, body: Option<string>)

  /** The fixed responses; each body is the `json.dumps` of the value discord/app.py returns. */
  const PingResponse := Response(200, Some("{\"type\": 1}"))
  const CommandResponse := Response(200, None)
  const BadSignatureResponse := Response(401, Some("\"Bad Signature\""))
  const NotFoundResponse := Response(404, None)
  const InternalErrorResponse := Response(500, Some("\"Internal Server Error\""))

  /** Fixed parts of the names and URLs the handler builds. */
  const InteractionsBase: string := "https://discord.com/api/v10/interactions/"
  const CallbackSuffix: string := "/callback"
  const ChannelsBase: string := "https://discordapp.com/api/channels/"
  const MessagesSuffix: string := "/messages"
  const SecretPrefix: string := "/dify/app/"
  const WorkflowRunPath: string := "/v1/workflows/run"

  /** The payload fields the command path reads. */
  const NamePath := [Field("data"), Field("name")]
  const ChannelPath := [Field("channel_id")]
  const ArgumentPath := [Field("data"), Field("options"), Position(0), Field("value")]
  const IdPath := [Field("id")]
  const TokenPath := [Field("token")]
  const UserPath := [Field("member"), Field("user"), Field("username")]
  /** Where the text to post sits in the workflow's reply. */
  const TextPath := [Field("data"), Field("outputs"), Field("text")]

  /** `handle_ping`: a 200 whose body is the interaction response of type 1 (pong). */
  function HandlePing(): (r: Response)
    ensures r.statusCode == 200 && r.body == Some("{\"type\": 1}")
  {
    PingResponse
  }

  // ---------------------------------------------------------------------------
  // Commands

  /** A recognised command with its argument, or any other command name. */
  datatype Command = Neko(value: Json) | Summary(value: Json) | Unrecognized

  /** Which command `name` is; `options[0]['value']` of the payload is read
      only for the two recognised names. */
  function ParseCommand(name: Json, body: Json): Result<Command, Exception> {
    if name == Str("neko") then
      var v :- Path(body, ArgumentPath);
      Ok(Neko(v))
    else if name == Str("summary") then
      var v :- Path(body, ArgumentPath);
      Ok(Summary(v))
    else Ok(Unrecognized)
  }

  /** An unrecognised name never fails and never reads the options; a
      recognised one carries exactly `options[0]['value']`, or fails as
      reading it fails. */
  lemma ParseCommandCases(name: Json, body: Json)
    ensures ParseCommand(name, body) == Ok(Unrecognized) <==> name != Str("neko") && name != Str("summary")
    ensures ParseCommand(name, body).Ok? && ParseCommand(name, body).value.Neko? <==>
      name == Str("neko") && Path(body, ArgumentPath).Ok?
    ensures ParseCommand(name, body).Ok? && ParseCommand(name, body).value.Summary? <==>
      name == Str("summary") && Path(body, ArgumentPath).Ok?
    ensures ParseCommand(name, body).Ok? && !ParseCommand(name, body).value.Unrecognized? ==>
      ParseCommand(name, body).value.value == Path(body, ArgumentPath).value
    ensures ParseCommand(name, body).Err? ==> Path(body, ArgumentPath) == Err(ParseCommand(name, body).error)
  {
  }

  /** The workflow inputs of a command. */
  function Inputs(c: Command): map<string, Json> {
    match c
    case Neko(v) => map["query" := v]
    case Summary(v) => map["url" := v]
    case Unrecognized => map[]
  }

  /** The acknowledgment text echoing a command's argument. */
  function AckText(env: Env, c: Command): string {
    match c
    case Neko(v) => "<Input " + ("text=" + Format(v, env.containerStr)) + ">"
    case Summary(v) => "<Input " + ("url=" + Format(v, env.containerStr)) + ">"
    case Unrecognized => "<Input " + ">"
  }

  /** A recognised command puts its argument under its own key and nowhere
      else; any other name gives no inputs at all. */
  lemma InputsCarryArgument(c: Command)
    ensures "query" in Inputs(c) <==> c.Neko?
    ensures "url" in Inputs(c) <==> c.Summary?
    ensures c.Unrecognized? <==> Inputs(c) == map[]
    ensures !c.Unrecognized? ==> |Inputs(c)| == 1 && Inputs(c).Values == {c.value}
  {
  }

  /** The acknowledgment is `<Input ` and `>` around `text=` or `url=` and the
      argument as `str()` renders it, and around nothing for any other name. */
  lemma AckTextShape(env: Env, c: Command)
    ensures var r := AckText(env, c); |r| >= 8 && r[..7] == "<Input " && r[|r| - 1] == '>'
    ensures c.Unrecognized? <==> AckText(env, c) == "<Input >"
    ensures c.Neko? ==> var r := AckText(env, c); r[7..|r| - 1] == "text=" + Format(c.value, env.containerStr)
    ensures c.Summary? ==> var r := AckText(env, c); r[7..|r| - 1] == "url=" + Format(c.value, env.containerStr)
  {
  }

  function SecretName(env: Env, name: Json): string {
    SecretPrefix + Format(name, env.containerStr)
  }

  function CallbackUrl(env: Env, id: Json, token: Json): string {
    InteractionsBase + Format(id, env.containerStr) + "/"
      + Format(token, env.containerStr) + CallbackSuffix
  }

  function MessagesUrl(env: Env, channel: Json): string {
    ChannelsBase + Format(channel, env.containerStr) + MessagesSuffix
  }

  function WorkflowUrl(env: Env): string {
    env.difyEndpoint + WorkflowRunPath
  }

  // ---------------------------------------------------------------------------
  // Workflow client

  function ErrorDict(message: string): Json {
    Dict(map["error" := Str(message)])
  }

  /** What `send_dify_workflow` returns, or the exception it lets through. */
  function WorkflowReply(o: WorkflowOutcome): Result<Json, Exception> {
    match o
    case TimedOut => Ok(ErrorDict("Request timed out"))
    case RequestFailed(reason) => Ok(ErrorDict("Request failed: " + reason))
    case Responded(None) => Err(JsonDecodeError)
    case Responded(Some(j)) => Ok(j)
  }

  /** A failed request becomes a dict whose only key is `error`, a JSON reply
      is passed on unchanged, and only a reply that is not JSON raises. */
  lemma WorkflowReplyCases(o: WorkflowOutcome)
    ensures WorkflowReply(o).Err? <==> o == Responded(None)
    ensures WorkflowReply(o).Err? ==> WorkflowReply(o).error == JsonDecodeError
    ensures o.Responded? && o.body.Some? ==> WorkflowReply(o) == Ok(o.body.value)
    ensures o.TimedOut? || o.RequestFailed? ==>
      && WorkflowReply(o).Ok? && WorkflowReply(o).value.Dict?
      && WorkflowReply(o).value.fields.Keys == {"error"} && WorkflowReply(o).value.fields["error"].Str?
  {
  }

  /** Runs the workflow once, in blocking mode, and maps request failures to an
      error dict instead of raising; only a reply that is not JSON raises. */
  method SendDifyWorkflow(env: Env, inputs: map<string, Json>, user: Json, apiKey: string)
    returns (reply: Result<Json, Exception>, trace: seq<Step>)
    ensures trace == [PostWorkflow(WorkflowUrl(env), "Bearer " + apiKey, WorkflowRequest(inputs, "blocking", user))]
    ensures reply == WorkflowReply(env.workflow(trace[0].workflowUrl, trace[0].bearer, trace[0].request))
    ensures var o := env.workflow(trace[0].workflowUrl, trace[0].bearer, trace[0].request);
      && (o.TimedOut? ==> reply == Ok(Dict(map["error" := Str("Request timed out")])))
      && (o.RequestFailed? ==> reply == Ok(Dict(map["error" := Str("Request failed: " + o.reason)])))
      && (o.Responded? && o.body.Some? ==> reply == Ok(o.body.value))
      && (reply.Err? <==> o == Responded(None))
      && (reply.Err? ==> reply.error == JsonDecodeError)
  {
    var request := WorkflowRequest(inputs, "blocking", user);
    var url := WorkflowUrl(env);
    var bearer := "Bearer " + apiKey;
    trace := [PostWorkflow(url, bearer, request)];
    var outcome := env.workflow(url, bearer, request);
    match outcome
    case TimedOut =>
      reply := Ok(ErrorDict("Request timed out"));
    case RequestFailed(reason) =>
      reply := Ok(ErrorDict("Request failed: " + reason));
    case Responded(body) =>
      // response.json() sits after the try, so a non-JSON body raises
      if body.None? {
        reply := Err(JsonDecodeError);
      } else {
        reply := Ok(body.value);
      }
  }

  // ---------------------------------------------------------------------------
  // Command path

  /** What the command path does with a decoded payload `body`, for every
      behaviour of the outside world: each outbound call happens exactly when
      every lookup and call before it succeeded, with the contents given, and
      the path returns normally (`ok`) exactly when the channel post and its
      JSON reply succeeded. */
  ghost predicate CommandContract(env: Env, body: Json, ok: bool, trace: seq<Step>)
  {
    var name := Path(body, NamePath);
    var channel := Path(body, ChannelPath);
    && |trace| <= 4
    // 1. the secret lookup, once the command name and the channel id are read
    && (|trace| >= 1 <==> name.Ok? && channel.Ok?)
    && (|trace| >= 1 ==>
          var secret := SecretName(env, name.value);
          var command := ParseCommand(name.value, body);
          var id := Path(body, IdPath);
          var token := Path(body, TokenPath);
          && trace[0] == GetParameter(secret)
          // 2. the acknowledgment, once the key, the argument and the callback credentials are known
          && (|trace| >= 2 <==> env.parameter(secret).Some? && command.Ok? && id.Ok? && token.Ok?)
          && (|trace| >= 2 ==>
                var apiKey := env.parameter(secret).value;
                var user := Path(body, UserPath);
                && trace[1] == PostCallback(CallbackUrl(env, id.value, token.value), AckText(env, command.value))
                // 3. the workflow run, once the acknowledgment went out and the user name is read
                && (|trace| >= 3 <==> env.callback(trace[1].callbackUrl, trace[1].ackContent) == Delivered && user.Ok?)
                && (|trace| >= 3 ==>
                      var request := WorkflowRequest(Inputs(command.value), "blocking", user.value);
                      var reply := WorkflowReply(env.workflow(WorkflowUrl(env), "Bearer " + apiKey, request));
                      var text := if reply.Ok? then Path(reply.value, TextPath) else Err(reply.error);
                      && trace[2] == PostWorkflow(WorkflowUrl(env), "Bearer " + apiKey, request)
                      // 4. the channel post, once the reply holds data.outputs.text
                      && (|trace| >= 4 <==> text.Ok?)
                      && (|trace| >= 4 ==>
                            trace[3] == PostMessage(MessagesUrl(env, channel.value), "Bot " + env.botToken, text.value)))))
    && (ok <==>
          |trace| == 4 &&
          var o := env.message(trace[3].messagesUrl, trace[3].botAuthorization, trace[3].text);
          o.MessageReplied? && o.body.Some?)
  }

  /** The outcome of the command path: whether it returned normally, and its calls. */
  datatype Run = Run(ok: bool, trace: seq<Step>)

  /** The command path as a computation over the outside world, one stage at
      a time; each stage receives the calls made so far. */
  ghost function CommandRun(env: Env, body: Json): Run {
    var name := Path(body, NamePath);
    var channel := Path(body, ChannelPath);
    if name.Err? || channel.Err? then Run(false, [])
    else
      var secret := SecretName(env, name.value);
      Acknowledge(env, body, name.value, channel.value, env.parameter(secret), [GetParameter(secret)])
  }

  /** After the secret lookup: read the argument and the callback credentials, then acknowledge. */
  ghost function Acknowledge(env: Env, body: Json, name: Json, channel: Json, apiKey: Option<string>, done: seq<Step>): Run {
    var command := ParseCommand(name, body);
    var id := Path(body, IdPath);
    var token := Path(body, TokenPath);
    if apiKey.None? || command.Err? || id.Err? || token.Err? then Run(false, done)
    else
      var url := CallbackUrl(env, id.value, token.value);
      var ack := AckText(env, command.value);
      RunWorkflow(env, body, channel, apiKey.value, command.value, env.callback(url, ack), done + [PostCallback(url, ack)])
  }

  /** After the acknowledgment: read the user name, then run the workflow. */
  ghost function RunWorkflow(env: Env, body: Json, channel: Json, apiKey: string, command: Command,
                             delivery: CallbackOutcome, done: seq<Step>): Run {
    var user := Path(body, UserPath);
    if delivery == CallbackRaised || user.Err? then Run(false, done)
    else
      var request := WorkflowRequest(Inputs(command), "blocking", user.value);
      var bearer := "Bearer " + apiKey;
      PostReply(env, channel, WorkflowReply(env.workflow(WorkflowUrl(env), bearer, request)),
                done + [PostWorkflow(WorkflowUrl(env), bearer, request)])
  }

  /** After the workflow run: read data.outputs.text from its reply, then post it to the channel. */
  ghost function PostReply(env: Env, channel: Json, reply: Result<Json, Exception>, done: seq<Step>): Run {
    var text := if reply.Ok? then Path(reply.value, TextPath) else Err(reply.error);
    if text.Err? then Run(false, done)
    else
      var messagesUrl := MessagesUrl(env, channel);
      var authorization := "Bot " + env.botToken;
      var posted := env.message(messagesUrl, authorization, text.value);
      Run(posted.MessageReplied? && posted.body.Some?, done + [PostMessage(messagesUrl, authorization, text.value)])
  }

  /** The computation meets the stage-by-stage contract. */
  lemma CommandRunMeetsContract(env: Env, body: Json)
    ensures CommandContract(env, body, CommandRun(env, body).ok, CommandRun(env, body).trace)
  {
  }

  /** The argument-dependent part of `handle_application_command`: starting
      from `<Input `, a recognised command appends its argument to the
      acknowledgment text and puts it in the inputs; reading the argument
      raises when the payload lacks it. */
  method BuildCommandInput(env: Env, commandName: Json, body: Json)
    returns (r: Result<(string, map<string, Json>), Exception>)
    ensures var c := ParseCommand(commandName, body);
      && (r.Err? <==> c.Err?)
      && (r.Err? ==> r.error == c.error)
      && (r.Ok? ==> r.value == (AckText(env, c.value), Inputs(c.value)))
  {
    var commandInput := "<Input ";
    var inputs: map<string, Json> := map[];
    ghost var command := Unrecognized;
    if commandName == Str("neko") {
      var value :- Path(body, ArgumentPath);
      commandInput := commandInput + ("text=" + Format(value, env.containerStr));
      inputs := map["query" := value];
      command := Neko(value);
    } else if commandName == Str("summary") {
      var value :- Path(body, ArgumentPath);
      commandInput := commandInput + ("url=" + Format(value, env.containerStr));
      inputs := map["url" := value];
      command := Summary(value);
    }
    commandInput := commandInput + ">";
    assert ParseCommand(commandName, body) == Ok(command);
    return Ok((commandInput, inputs));
  }

  /** `handle_application_command`: builds the acknowledgment text and the
      workflow inputs step by step, then makes its four calls in order. A
      failed lookup or call raises, which `:-` models. */
  method HandleApplicationCommand(env: Env, body: Json) returns (r: Result<Response, Exception>, trace: seq<Step>)
    ensures Run(r.Ok?, trace) == CommandRun(env, body)
    ensures r.Ok? ==> r.value == CommandResponse
  {
    trace := [];
    var commandName :- Path(body, NamePath);
    var channelId :- Path(body, ChannelPath);
    var secret := SecretName(env, commandName);
    trace := [GetParameter(secret)];
    var apiKey := env.parameter(secret);
    assert CommandRun(env, body) == Acknowledge(env, body, commandName, channelId, apiKey, trace);
    if apiKey.None? {
      return Err(ParameterError), trace;
    }

    var built :- BuildCommandInput(env, commandName, body);
    var (commandInput, inputs) := built;
    ghost var command := ParseCommand(commandName, body).value;

    var id :- Path(body, IdPath);
    var token :- Path(body, TokenPath);
    var callbackUrl := CallbackUrl(env, id, token);
    trace := trace + [PostCallback(callbackUrl, commandInput)];
    assert CommandRun(env, body)
        == RunWorkflow(env, body, channelId, apiKey.value, command, env.callback(callbackUrl, commandInput), trace);
    if env.callback(callbackUrl, commandInput) == CallbackRaised {
      return Err(RequestError), trace;
    }

    var user :- Path(body, UserPath);
    var reply, workflowTrace := SendDifyWorkflow(env, inputs, user, apiKey.value);
    trace := trace + workflowTrace;
    assert CommandRun(env, body) == PostReply(env, channelId, reply, trace);
    if reply.Err? {
      return Err(reply.error), trace;
    }
    var text :- Path(reply.value, TextPath);

    var messagesUrl := MessagesUrl(env, channelId);
    var authorization := "Bot " + env.botToken;
    trace := trace + [PostMessage(messagesUrl, authorization, text)];
    var posted := env.message(messagesUrl, authorization, text);
    if posted == MessageRaised {
      return Err(RequestError), trace;
    }
    if posted.body.None? {
      // r.json(), evaluated for the log line after the post
      return Err(JsonDecodeError), trace;
    }
    return Ok(CommandResponse), trace;
  }

  // ---------------------------------------------------------------------------
  // Entry point

  /** The message the signature covers: the timestamp header, then the raw body. */
  function SignedMessage(event: Event): string {
    event.timestamp + event.body
  }

  /** What `lambda_handler` does with a well-formed event (both signature
      headers and the body present), for every behaviour of the outside world. */
  ghost predicate HandlerContract(env: Env, event: Event, resp: Response, trace: seq<Step>)
  {
    match FromHex(event.signature)
    case None =>
      // bytes.fromhex raises ValueError inside the try
      resp == InternalErrorResponse && trace == []
    case Some(signature) =>
      var message := SignedMessage(event);
      && |trace| >= 1
      && trace[0] == Verify(message, signature)
      && match env.verify(message, signature)
         case BadSignature => resp == BadSignatureResponse && |trace| == 1
         case VerifyRaised => resp == InternalErrorResponse && |trace| == 1
         case Verified =>
           && |trace| >= 2
           && trace[1] == Decode(event.body)
           && match env.decode(event.body)
              case None => resp == InternalErrorResponse && |trace| == 2
              case Some(payload) =>
                match Path(payload, [Field("type")])
                case Err(_) => resp == InternalErrorResponse && |trace| == 2
                case Ok(kind) =>
                  if EqualsInt(kind, 1) then resp == PingResponse && |trace| == 2
                  else if EqualsInt(kind, 2) then
                    && (resp == CommandResponse || resp == InternalErrorResponse)
                    && CommandContract(env, payload, resp == CommandResponse, trace[2..])
                  else resp == NotFoundResponse && |trace| == 2
  }

  /** `lambda_handler`: verify, decode, route; every exception raised inside
      the try other than a bad signature becomes a 500. */
  method LambdaHandler(env: Env, event: Event) returns (resp: Response, trace: seq<Step>)
    ensures HandlerContract(env, event, resp, trace)
  {
    trace := [];
    var signature := FromHex(event.signature);
    if signature.None? {
      return InternalErrorResponse, trace;
    }
    var message := SignedMessage(event);
    trace := trace + [Verify(message, signature.value)];
    var verdict := env.verify(message, signature.value);
    if verdict == BadSignature {
      return BadSignatureResponse, trace;
    } else if verdict == VerifyRaised {
      return InternalErrorResponse, trace;
    }

    trace := trace + [Decode(event.body)];
    var decoded := env.decode(event.body);
    if decoded.None? {
      return InternalErrorResponse, trace;
    }
    var body := decoded.value;
    var kind := Subscript(body, Field("type"));
    if kind.Err? {
      return InternalErrorResponse, trace;
    }

    if EqualsInt(kind.value, 1) {
      return HandlePing(), trace;
    } else if EqualsInt(kind.value, 2) {
      var outcome, commandTrace := HandleApplicationCommand(env, body);
      CommandRunMeetsContract(env, body);
      assert trace + commandTrace == [trace[0], trace[1]] + commandTrace;
      trace := trace + commandTrace;
      if outcome.Ok? {
        return outcome.value, trace;
      }
      return InternalErrorResponse, trace;
    }
    return NotFoundResponse, trace;
  }
}
