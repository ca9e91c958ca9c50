/** `analyze_error`: build the two prompts from the error, ask the model, and
    parse its reply; any exception on the way becomes a fixed degraded
    dictionary, so the call never raises. The model call is the parameter
    `complete`: what the chat-completion call gives back for a prompt pair. */
module Diagnosis {
  import opened Wrappers
  import opened Text
  import opened Json
  import opened Fence
  import opened ResponseParser

  /** The system and user messages sent to the model. */
  datatype Prompt = Prompt(system: string, user: string)

  /** The outcome of the chat-completion call: the text of the first choice,
      or the exception it raised (`str(e)`). */
  datatype ModelResult = Reply(content: string) | Failure(message: string)

  const SystemPrompt: string :=
    "You are a Senior Support Engineer working at a company like QuickNode. Output valid JSON only."

  // The fixed lines of the user prompt and the labels of its substituted lines.
  // Lines longer than 40 characters are written as concatenations of shorter
  // literals: the verifier reads the characters of a short literal, which
  // the newline lemmas below need, but not those of a long one.
  const ContextLine: string := "    [CONTEXT]"
  const EndpointLabel: string := "    Endpoint: "
  const MethodLabel: string := "    Method: "
  const CodeLabel: string := "    Error Code: "
  const MessageLabel: string := "    Error Message: \""
  const BlankLine: string := "    "
  const TaskLine: string := "    [TASK]"
  const KeysLine: string := "    Output a JSON object " + "with exactly two keys:"
  const RootCauseLine: string := "    1. \"root_cause\": A technical, " + "1-sentence explanation (Internal Note)."
  const ClientReplyLine: string := "    2. \"client_reply\": A polite, " + "professional markdown response. "
  const SignOffLine: string :=
    "       - Sign off simply as " + "\"Support Team\", you do not represent " + "any specific company."

  /** The lines of the user prompt: a fixed template with the endpoint,
      method, code and message each substituted into its own labelled line,
      in that order. */
  function PromptLines(rpcUrl: string, rpcMethod: string, code: string, message: string): seq<string>
  {
    [ "", ContextLine, EndpointLabel + rpcUrl, MethodLabel + rpcMethod, CodeLabel + code
    , MessageLabel + message + "\"", BlankLine, TaskLine, KeysLine, RootCauseLine
    , ClientReplyLine, SignOffLine, BlankLine ]
  }

  /** No fixed line of the template spans lines (the short lines). */
  lemma LabelLinesAreSingle()
    ensures '\n' !in ContextLine && '\n' !in EndpointLabel && '\n' !in MethodLabel && '\n' !in CodeLabel
    ensures '\n' !in MessageLabel && '\n' !in BlankLine && '\n' !in TaskLine
  {}

  /** No fixed line of the template spans lines (the first lines of the
      task). The long lines are split over two lemmas to keep each proof small. */
  lemma TaskLinesAreSingle()
    ensures '\n' !in KeysLine && '\n' !in RootCauseLine
  {}

  /** No fixed line of the template spans lines (the reply and sign-off lines). */
  lemma SignOffLinesAreSingle()
    ensures '\n' !in ClientReplyLine && '\n' !in SignOffLine
  {}

  /** The user prompt, the triple-quoted f-string of `analyze_error`: its
      lines joined by newlines (it opens with an empty line and closes with
      the indentation before the closing quotes). When no substituted value
      spans lines, it reads back line by line as the fixed template with each
      value on its own labelled line. */
  function UserPrompt(rpcUrl: string, rpcMethod: string, code: string, message: string): (r: string)
    ensures '\n' !in rpcUrl && '\n' !in rpcMethod && '\n' !in code && '\n' !in message ==>
      Split(r, '\n') == PromptLines(rpcUrl, rpcMethod, code, message)
  {
    var lines := PromptLines(rpcUrl, rpcMethod, code, message);
    var singles := '\n' !in rpcUrl && '\n' !in rpcMethod && '\n' !in code && '\n' !in message;
    assert singles ==> Split(Join(lines, '\n'), '\n') == lines by {
      if singles {
        LabelLinesAreSingle();
        TaskLinesAreSingle();
        SignOffLinesAreSingle();
        assert forall k :: 0 <= k < |lines| ==> '\n' !in lines[k];
        SplitJoin(lines, '\n');
      }
    }
    Join(lines, '\n')
  }

  /** The prompt pair for one error; `str()` is applied to code and message.
      The system message is fixed. Whenever no substituted text spans lines,
      code and message each land on their own labelled line of the user
      prompt, printed as Python's `str()` prints them; in particular a code
      that is a number, a boolean or `None` and a one-line string message do. */
  function BuildPrompt(rpcUrl: string, rpcMethod: string, errorCode: Json, errorMsg: Json): (p: Prompt)
    ensures p.system == SystemPrompt
    ensures '\n' !in rpcUrl && '\n' !in rpcMethod && '\n' !in Render(errorCode) && '\n' !in Render(errorMsg) ==>
      Split(p.user, '\n') == PromptLines(rpcUrl, rpcMethod, Render(errorCode), Render(errorMsg))
    ensures && '\n' !in rpcUrl && '\n' !in rpcMethod
            && (errorCode.JNull? || errorCode.JBool? || errorCode.JNum?)
            && (errorMsg.JStr? && '\n' !in errorMsg.s) ==>
      Split(p.user, '\n') == PromptLines(rpcUrl, rpcMethod, Render(errorCode), errorMsg.s)
  {
    Prompt(SystemPrompt, UserPrompt(rpcUrl, rpcMethod, Render(errorCode), Render(errorMsg)))
  }

  /** An error without a "message" member (`.get` gives `None`) shows the
      message line `Error Message: "None"`. */
  lemma MissingMessagePrintsNone(rpcUrl: string, rpcMethod: string, errorCode: Json)
    requires '\n' !in rpcUrl && '\n' !in rpcMethod && '\n' !in Render(errorCode)
    ensures Split(BuildPrompt(rpcUrl, rpcMethod, errorCode, JNull).user, '\n')[5] == MessageLabel + "None" + "\""
  {
    assert Render(JNull) == "None";
  }

  /** The dictionary `analyze_error` returns when anything fails. */
  function Degraded(detail: string): (r: Json)
    ensures r.JObj?
    ensures Get(r.fields, "root_cause") == JStr("AI Processing Failed")
    ensures Get(r.fields, "client_reply") == JStr("System Error: " + detail)
    ensures HasKey(r.fields, "root_cause") && HasKey(r.fields, "client_reply")
  {
    JObj([("root_cause", JStr("AI Processing Failed")), ("client_reply", JStr("System Error: " + detail))])
  }

  /** `analyze_error(api_key, rpc_url, error_code, error_msg, rpcMethod)`, with
      the client already constructed. It always returns a value: the parsed
      reply unchanged (no check of its keys or shape), or `Degraded(str(e))`
      for the first exception raised by the call or by the parser. */
  function AnalyzeError(rpcUrl: string, errorCode: Json, errorMsg: Json, rpcMethod: string,
                        complete: Prompt -> ModelResult, loads: Loads): (r: Json)
    ensures var reply := complete(BuildPrompt(rpcUrl, rpcMethod, errorCode, errorMsg));
      && (reply.Failure? ==> r == Degraded(reply.message))
      && (reply.Reply? && loads(reply.content).Decoded? ==> r == loads(reply.content).value)
      && (reply.Reply? && loads(reply.content).Raised? ==> r == Degraded(loads(reply.content).message))
      && (reply.Reply? && loads(reply.content).DecodeError? && (forall i, b, j :: !MatchesAt(reply.content, i, b, j)) ==>
            r == Degraded(NoJsonMessage))
      && (forall i: nat, b: nat, j: nat ::
            reply.Reply? && loads(reply.content).DecodeError? && FirstMatch(reply.content, i, b, j) ==>
              r == match loads(reply.content[b..j])
                   case Decoded(v) => v
                   case DecodeError(d) => Degraded(d)
                   case Raised(d) => Degraded(d))
  {
    match complete(BuildPrompt(rpcUrl, rpcMethod, errorCode, errorMsg))
    case Failure(e) => Degraded(e)
    case Reply(t) =>
      match CleanJsonOutput(t, loads)
      case Ok(v) => v
      case Err(e) => Degraded(Describe(e))
  }

  /** Whatever the model and the decoder do, the result is either the degraded
      dictionary or a value the decoder produced from the reply: from the whole
      text, or from the group of its first fenced block. */
  lemma AnalyzeResultOrigin(rpcUrl: string, errorCode: Json, errorMsg: Json, rpcMethod: string,
                            complete: Prompt -> ModelResult, loads: Loads)
    ensures var reply := complete(BuildPrompt(rpcUrl, rpcMethod, errorCode, errorMsg));
      var r := AnalyzeError(rpcUrl, errorCode, errorMsg, rpcMethod, complete, loads);
      || (exists d :: r == Degraded(d))
      || (reply.Reply? && loads(reply.content) == Decoded(r))
      || (reply.Reply? && exists i: nat, b: nat, j: nat ::
            FirstMatch(reply.content, i, b, j) && loads(reply.content[b..j]) == Decoded(r))
  {
    var reply := complete(BuildPrompt(rpcUrl, rpcMethod, errorCode, errorMsg));
    var r := AnalyzeError(rpcUrl, errorCode, errorMsg, rpcMethod, complete, loads);
    match reply
    case Failure(e) =>
      assert r == Degraded(e);
    case Reply(t) =>
      match loads(t)
      case Decoded(_) =>
      case Raised(e) =>
        assert r == Degraded(e);
      case DecodeError(_) =>
        match Search(t)
        case None =>
          assert r == Degraded(NoJsonMessage);
        case Some(m) =>
          match loads(t[m.bodyStart..m.bodyEnd])
          case Decoded(v) =>
            assert FirstMatch(t, m.start, m.bodyStart, m.bodyEnd) && loads(t[m.bodyStart..m.bodyEnd]) == Decoded(r);
          case DecodeError(d) =>
            assert r == Degraded(d);
          case Raised(d) =>
            assert r == Degraded(d);
  }
}
