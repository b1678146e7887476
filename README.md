# Discord slash commands bridged to a Dify workflow: a Dafny model

The system is an AWS Lambda function behind a Discord interactions endpoint.
For each request it checks the Ed25519 signature over timestamp and body, then
decodes the JSON payload and routes it by `type`. A ping (`type` 1) gets the
fixed pong. A slash command (`type` 2) goes through these steps:

1. Look up the command's Dify API key in the SSM parameter store.
2. Post an immediate acknowledgment to Discord's interaction callback.
3. Run the Dify workflow in blocking mode with the command's argument as input.
4. Post the workflow's `data.outputs.text` to the channel.

Any other `type` gets a bare 404. A bad signature gets 401. Every other
exception raised inside the handler's `try` becomes 500.

The model describes one request as a decision procedure over the outside
world:

- `World.Env` holds the configuration loaded at cold start (bot token, Dify
  endpoint) and one oracle per collaborator: the Ed25519 verifier, `json.loads`,
  the parameter store, the three HTTP posts, and Python's `str()` of a list or
  dict. An oracle is a function from the call to its outcome, so a lemma that
  holds for every `Env` holds for every behaviour of the outside world.
- `DiscordApp.LambdaHandler`, `HandleApplicationCommand` and `SendDifyWorkflow`
  are imperative methods. Each grows a trace of `World.Step`s as discord/app.py
  makes its calls. The argument-dependent part of `handle_application_command`
  (the `+=` on the acknowledgment text and the inputs dict) is the helper
  method `BuildCommandInput`. The trace also records the two internal consultations,
  signature verification and decoding, so "nothing is decoded" can be stated.
- Raised exceptions are `Result` failures propagated with `:-`.
- `HandlerContract` and `CommandContract` state stage by stage which call
  happens when and with what content. `properties.dfy` derives the routing,
  gating and ordering properties from them.
- `bytes.fromhex`, applied to the signature header inside the `try`, is
  modelled exactly, because its failure decides 500 rather than 401.

Files: `wrappers.dfy` (Option, Result), `python.dfy` (JSON values, subscripts, `==`
against an integer, f-string formatting), `hex.dfy` (`bytes.fromhex`),
`world.dfy` (event, steps, outcomes, oracles), `app.dfy` (discord/app.py),
`properties.dfy` (lemmas).

Behaviour of discord/app.py that is easy to miss:

- A workflow timeout or request failure makes `send_dify_workflow` return
  `{'error': ...}`. Reading `response['data']` from that dict raises
  `KeyError` inside the `try`. The request therefore ends in 500, not 200,
  after the acknowledgment was already posted (`WorkflowErrorIs500`).
- The acknowledgment post is not guarded. A non-2xx answer is ignored, but a
  transport exception from `requests.post` raises. The request then ends in
  500 before the workflow runs.
- The secret lookup happens before the command's argument is read. An
  unrecognised command name therefore still looks up `/dify/app/<name>`.
- `Response.json()` on the workflow reply (line 64, after the `try`) and on
  the channel post's reply (line 128, evaluated for a log line) raise on a
  non-JSON body. Either gives 500.
- `body['type'] == 1` uses Python's `==`, so a JSON `true` type is a ping.

## Model

| member | source | states |
|---|---|---|
| Hex.FromHex | discord/app.py:152 | `bytes.fromhex(signature)` succeeds only if every character is a hex digit or ASCII whitespace, and yields at most half as many bytes as characters |
| Hex.ToHex | discord/app.py:152 | the hex form a signature is sent in has two characters per byte |
| Hex.FromHexToHex | discord/app.py:152 | every byte string survives hex encoding followed by `bytes.fromhex` |
| Hex.StrayCharacterRejected | discord/app.py:152 | one character that is neither hex digit nor whitespace makes `bytes.fromhex` raise |
| Python.SubscriptSucceeds | discord/app.py:83-84 | a subscript succeeds only on a dict holding the key, or on a list or string within its length; every other value raises |
| Python.DecimalRoundTrip | discord/app.py:93 | `str()` of an integer argument starts with `-` exactly when it is negative and reads back as the same integer |
| Python.FormatRendering | discord/app.py:89-119 | the f-strings and `.format` calls insert a string as it is, an integer as its decimal, `None`, `True` and `False` by name, and only a list or dict through its `repr` |
| DiscordApp.HandlePing | discord/app.py:66-72 | a ping is answered with status 200 and the body `{"type": 1}`, the pong |
| DiscordApp.ParseCommandCases | discord/app.py:91-101 | an unrecognised name never fails and never reads the options; `neko` and `summary` carry exactly `options[0]['value']`, or fail exactly when that lookup fails |
| DiscordApp.InputsCarryArgument | discord/app.py:91-101 | `neko` puts its argument under `query` and `summary` under `url`, each as the only entry; any other name gives `{}` |
| DiscordApp.AckTextShape | discord/app.py:85-104 | the acknowledgment is `<Input ` and `>` around `text=` or `url=` followed by `str()` of the argument, and around nothing for any other name |
| DiscordApp.BuildCommandInput | discord/app.py:85-104 | the text built with `+=` and the inputs dict are exactly the acknowledgment and inputs of the parsed command; it raises exactly when reading `options[0]['value']` of a recognised command raises, with that error |
| DiscordApp.WorkflowReplyCases | discord/app.py:54-64 | a timeout or failed request becomes a dict whose only key is `error`, a JSON reply is passed on unchanged, and only a non-JSON reply raises `JSONDecodeError` |
| DiscordApp.SendDifyWorkflow | discord/app.py:32-64 | makes one POST to `<endpoint>/v1/workflows/run` with `Bearer <key>` and body `{inputs, response_mode: 'blocking', user}`; a timeout gives `{'error': 'Request timed out'}`, another request failure gives `{'error': 'Request failed: ' + reason}`, a JSON reply is returned unchanged, and only a non-JSON reply raises |
| DiscordApp.CommandRunMeetsContract | discord/app.py:74-130 | the staged computation of the command path meets the stage-by-stage contract: each call happens exactly when all lookups and calls before it succeeded |
| DiscordApp.HandleApplicationCommand | discord/app.py:74-130 | the ack text and inputs built step by step with `+=`, and the four calls in order (secret, ack, workflow, channel post), equal the staged computation; a normal return is exactly `{'statusCode': 200}` |
| DiscordApp.LambdaHandler | discord/app.py:132-167 | the handler meets `HandlerContract`: malformed hex gives 500 with no call; 401 and 500 follow the verifier's verdict; then decode; then route on `type` to ping, command or 404; any exception gives 500 |
| DiscordProperties.ResponsesAreFixed | discord/app.py:130-167 | the response is one of the five fixed dicts (ping, bare 200, 401, 404, 500), so the status is 200, 401, 404 or 500 |
| DiscordProperties.BadSignatureIs401 | discord/app.py:151-162 | the response is `{'statusCode': 401, 'body': '"Bad Signature"'}` exactly when the hex parsed and the verifier rejected it; then the trace is the verification alone, with no decoding and no outbound call |
| DiscordProperties.MalformedSignatureIs500 | discord/app.py:152 | a signature header that is not hex gives 500 without consulting the verifier |
| DiscordProperties.UndecodableBodyIs500 | discord/app.py:153 | a verified body that is not JSON gives 500 after the decode attempt |
| DiscordProperties.PingIs200 | discord/app.py:155-156 | a verified payload whose `type == 1` gets `{'statusCode': 200, 'body': '{"type": 1}'}` with no outbound call |
| DiscordProperties.BooleanTypeIsPing | discord/app.py:155 | a payload whose type is JSON `true` is a ping, because `True == 1` |
| DiscordProperties.UnknownTypeIs404 | discord/app.py:155-158 | exactly the verified payloads whose type is neither 1 nor 2 get `{'statusCode': 404}` without a body, and they make no outbound call |
| DiscordProperties.CommandFollowsPipeline | discord/app.py:89-127 | the command path's calls are, in order, secret lookup, ack, workflow run and channel post, each at most once |
| DiscordProperties.TraceFollowsPipeline | discord/app.py:151-158 | the whole trace is a prefix of verify, decode, secret lookup, ack, workflow run, channel post |
| DiscordProperties.VerificationGatesEffects | discord/app.py:151-158 | any outbound call implies the signature verified, the body decoded and the type equals 2 |
| DiscordProperties.AckPrecedesWorkflow | discord/app.py:114-116 | a workflow run is always directly preceded by the acknowledgment |
| DiscordProperties.MissingSecretIs500 | discord/app.py:89 | the secret looked up is `/dify/app/<command name>`; when it is missing the request ends in 500 before the ack |
| DiscordProperties.CommandWorkflowErrorRaises | discord/app.py:116-125 | on the command path, an error dict from the workflow client raises before the channel post |
| DiscordProperties.CommandCase | discord/app.py:157-158 | when the trace goes past decoding, the payload is a command and the rest of the trace is the command path's |
| DiscordProperties.WorkflowErrorIs500 | discord/app.py:116-125 | a workflow timeout or failed request ends in 500 after the ack was posted, and nothing reaches the channel |
| DiscordProperties.CommandSuccessIs200 | discord/app.py:127-130 | the response is `{'statusCode': 200}` without a body exactly when all four outbound calls were made and the channel post answered with JSON |
| DiscordProperties.CommandInputsAndAck | discord/app.py:85-113 | `neko` gives inputs `{'query': v}` and ack `<Input text=v>`; `summary` gives `{'url': v}` and `<Input url=v>`; any other name gives `{}` and `<Input >` |
| DiscordProperties.OnlyFirstOptionValueMatters | discord/app.py:93-100 | two payloads with the same `options[0]['value']` give the same command |
| DiscordProperties.NekoExample | discord/app.py:92-96 | `/neko text:Tama` gives inputs `{'query': 'Tama'}` and ack `<Input text=Tama>` |

## Left out

- Ed25519 verification is an oracle over the signed message and the
  signature bytes (section 5.1.7 of RFC 8032). The model does not encode the
  message to UTF-8; the oracle receives the string. PyNaCl's `verify` raises
  `ValueError` for a signature that is not 64 bytes long, so such a request
  gets 500 and never 401; the `VerifyRaised` outcome allows this, but the
  model does not force it for those lengths.
- The lines outside the `try` are not modelled: the public key's
  `bytes.fromhex`, the header lookups and `event['body']`
  (discord/app.py:142-146). Their failures are uncaught. `World.Event` always
  holds both headers and a string body, and the public key sits inside the
  verifier oracle.
- `get_ssm_parameter` and the module-level configuration loads
  (discord/app.py:11-26) are foreign I/O. They appear as the `parameter`
  oracle and as `Env` fields.
- HTTP transport (`requests.post`, `raise_for_status`, `Response.json()`) is
  represented only by a trace step and an abstract outcome. Non-2xx answers
  to the two Discord posts are not raised by discord/app.py and are not
  distinguished. The 120-second timeout is not modelled; only its outcome is.
- JSON: decoding is an oracle. JSON floats are not modelled, so a `type` of
  `1.0` is outside the model. The serialisation of request bodies is
  represented by the structured step.
- Python's `str()` of a list or dict, used when such a value is formatted
  into a URL, secret name or ack text, is the `containerStr` oracle. Strings,
  integers, booleans and `None` are rendered as Python does.
- Logging has no behaviour and is not modelled.
- Concurrency and cold-start caching are not modelled: one request is one
  run of `LambdaHandler`.
- register-commands/app.py is not part of this model. It is a one-shot
  bootstrap that POSTs each of two constant command definitions in turn
  (register-commands/app.py:61-64).
