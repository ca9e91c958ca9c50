/** The "Trigger Simulation" handler: send the envelope, classify the node's
    reply, and on a JSON-RPC error record it in the session state. The POST
    itself (a single attempt, 5 s timeout) is the parameter `post`: what
    `requests.post(rpc_input, json=payload, timeout=5).json()` gives back. */
module Simulator {
  import opened Wrappers
  import opened Text
  import opened Json
  import opened Scenarios

  /** The decoded response body, or `str(e)` of the exception raised by the
      POST or by `.json()` (connection error, timeout, body not JSON). */
  datatype PostOutcome = Received(data: Json) | Raised(message: string)

  /** Why the handler ends in its `except Exception` branch. */
  datatype Fault =
    | Transport(message: string)   // raised by the POST or by `.json()`
    | NotIterable(typeName: string)  // `"error" in data` on a number, boolean or None
    | NotKeyed(typeName: string)     // `data["error"]` on a list or a string
    | NoGet(typeName: string)        // `.get` on an "error" member that is not a dict

  /** How one simulation ends. */
  datatype Outcome =
    | RpcError(code: Json, message: Json)  // "RPC Error Caught!"
    | Succeeded(data: Json)                // "Transaction Succeeded (Unexpected)"
    | NetworkError(fault: Fault)           // "Connection Failed"

  /** Python's `"error" in data`, or `None` when that test raises. */
  function MentionsError(data: Json): (r: Option<bool>)
    ensures r.None? <==> data.JNull? || data.JBool? || data.JNum?
    ensures data.JObj? ==> r == Some(HasKey(data.fields, "error"))
  {
    match data
    case JObj(fields) => Some(HasKey(fields, "error"))
    case JArr(items) => Some(JStr("error") in items)
    case JStr(s) => Some(Contains(s, "error"))
    case _ => None
  }

  /** The classification of a reply. Only a dict whose "error" member is
      itself a dict is a JSON-RPC error, with `code` and `message` read by
      `.get` (so `None` when absent); a reply that does not mention "error"
      is a success; everything else is a network error. */
  function Classify(outcome: PostOutcome): (r: Outcome)
    ensures r.RpcError? <==>
      outcome.Received? && outcome.data.JObj? && HasKey(outcome.data.fields, "error")
      && Get(outcome.data.fields, "error").JObj?
    ensures r.RpcError? ==>
      var err := Get(outcome.data.fields, "error").fields;
      r.code == Get(err, "code") && r.message == Get(err, "message")
    ensures r.Succeeded? <==> outcome.Received? && MentionsError(outcome.data) == Some(false)
    ensures r.Succeeded? ==> r.data == outcome.data
    ensures outcome.Raised? ==> r == NetworkError(Transport(outcome.message))
  {
    match outcome
    case Raised(e) => NetworkError(Transport(e))
    case Received(data) =>
      match MentionsError(data)
      case None => NetworkError(NotIterable(TypeName(data)))
      case Some(false) => Succeeded(data)
      case Some(true) =>
        if !data.JObj? then NetworkError(NotKeyed(TypeName(data)))
        else
          var err := Get(data.fields, "error");
          if err.JObj? then RpcError(Get(err.fields, "code"), Get(err.fields, "message"))
          else NetworkError(NoGet(TypeName(err)))
  }

  /** The node's "insufficient funds" reply is classified as that JSON-RPC error. */
  lemma InsufficientFundsReply()
    ensures Classify(Received(JObj([("error", JObj([("code", JNum(-32000)), ("message", JStr("insufficient funds"))]))])))
      == RpcError(JNum(-32000), JStr("insufficient funds"))
  {
    var err := [("code", JNum(-32000)), ("message", JStr("insufficient funds"))];
    GetUniqueKey(err, 0, "code");
    GetUniqueKey(err, 1, "message");
    GetUniqueKey([("error", JObj(err))], 0, "error");
  }

  /** What the session state holds under "active_error" and "raw_debug". */
  datatype SessionValue = ErrorPair(code: Json, message: Json) | Debug(data: Json)

  /** The part of `st.session_state` this handler writes. */
  class Session {
    var state: map<string, SessionValue>

    /** "active_error" always holds a (code, message) pair and "raw_debug" a body. */
    ghost predicate Valid()
      reads this
    {
      && ("active_error" in state ==> state["active_error"].ErrorPair?)
      && ("raw_debug" in state ==> state["raw_debug"].Debug?)
    }

    /** The error waiting for diagnosis, if any. */
    function ActiveError(): (r: Option<(Json, Json)>)
      reads this
      requires Valid()
      ensures r.Some? <==> "active_error" in state
    {
      if "active_error" in state then
        Some((state["active_error"].code, state["active_error"].message))
      else None
    }

    constructor ()
      ensures Valid() && state == map[]
    {
      state := map[];
    }

    /** One press of "Trigger Simulation": build the envelope, post it, and
        store the error and the raw body when the node answers with a
        JSON-RPC error; any other ending leaves the session untouched. */
    method TriggerSimulation(rpcInput: string, params: seq<Json>, post: (string, Json) -> PostOutcome)
      returns (outcome: Outcome)
      requires Valid()
      modifies this
      ensures Valid()
      ensures outcome == Classify(post(rpcInput, Envelope(params)))
      ensures outcome.RpcError? ==>
        && ActiveError() == Some((outcome.code, outcome.message))
        && state == old(state)["active_error" := ErrorPair(outcome.code, outcome.message)]
                              ["raw_debug" := Debug(post(rpcInput, Envelope(params)).data)]
      ensures !outcome.RpcError? ==> state == old(state)
    {
      var payload := Envelope(params);
      var response := post(rpcInput, payload);
      if response.Raised? {
        outcome := NetworkError(Transport(response.message));
        return;
      }
      var data := response.data;
      var mentioned := MentionsError(data);
      if mentioned.None? {
        outcome := NetworkError(NotIterable(TypeName(data)));
      } else if !mentioned.value {
        outcome := Succeeded(data);
      } else if !data.JObj? {
        outcome := NetworkError(NotKeyed(TypeName(data)));
      } else {
        var err := Get(data.fields, "error");
        if !err.JObj? {
          outcome := NetworkError(NoGet(TypeName(err)));
        } else {
          var code := Get(err.fields, "code");
          var message := Get(err.fields, "message");
          state := state["active_error" := ErrorPair(code, message)];
          state := state["raw_debug" := Debug(data)];
          outcome := RpcError(code, message);
        }
      }
    }
  }
}
