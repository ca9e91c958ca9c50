/** `clean_json_output`: parse the model's reply as JSON, and when that fails
    with a `JSONDecodeError` parse the group of the first fenced block instead.
    `json.loads` itself is outside the model: it is the parameter `loads`, a
    total function that gives the decoded value, the text of the
    `JSONDecodeError` it raised, or the text of any other exception it raised
    (a `RecursionError` on deep nesting, a `ValueError` on an over-long
    integer). */
module ResponseParser {
  import opened Wrappers
  import opened Json
  import opened Fence

  /** The outcome of one `json.loads` call. */
  datatype Decoding =
    | Decoded(value: Json)
    | DecodeError(detail: string)  // `str()` of a `JSONDecodeError`
    | Raised(message: string)      // `str()` of any other exception

  /** `json.loads` on a text. */
  type Loads = string -> Decoding

  /** The exceptions `clean_json_output` lets escape. */
  datatype ParseError =
    | JsonDecodeError(detail: string)  // raised by decoding the fenced group
    | ValueError(message: string)      // no fenced block at all
    | Escaped(message: string)         // another exception of either `json.loads` call

  const NoJsonMessage: string := "AI did not return valid JSON."

  /** `str(e)` of a parse error. */
  function Describe(e: ParseError): string
  {
    match e
    case JsonDecodeError(d) => d
    case ValueError(m) => m
    case Escaped(m) => m
  }

  /** The result of the last `json.loads` call, whose exceptions all propagate. */
  function Propagate(d: Decoding): Result<Json, ParseError>
  {
    match d
    case Decoded(v) => Ok(v)
    case DecodeError(e) => Err(JsonDecodeError(e))
    case Raised(e) => Err(Escaped(e))
  }

  /** The two stages, strictly in order: the whole text, else the first
      fenced group, else `ValueError`. Only a `JSONDecodeError` of the whole
      text moves on to the fence; any other exception of it escapes at once.
      Every exception of decoding the group propagates. */
  function CleanJsonOutput(raw: string, loads: Loads): (r: Result<Json, ParseError>)
    ensures loads(raw).Decoded? ==> r == Ok(loads(raw).value)
    ensures loads(raw).Raised? ==> r == Err(Escaped(loads(raw).message))
    ensures loads(raw).DecodeError? && (forall i, b, j :: !MatchesAt(raw, i, b, j)) ==>
      r == Err(ValueError(NoJsonMessage))
    ensures forall i: nat, b: nat, j: nat :: loads(raw).DecodeError? && FirstMatch(raw, i, b, j) ==>
      r == match loads(raw[b..j])
           case Decoded(v) => Ok(v)
           case DecodeError(d) => Err(JsonDecodeError(d))
           case Raised(d) => Err(Escaped(d))
  {
    match loads(raw)
    case Decoded(v) => Ok(v)
    case Raised(e) => Err(Escaped(e))
    case DecodeError(_) =>
      match Search(raw)
      case Some(m) =>
        assert forall i, b, j :: FirstMatch(raw, i, b, j) ==> b == m.bodyStart && j == m.bodyEnd by {
          forall i, b, j | FirstMatch(raw, i, b, j) ensures b == m.bodyStart && j == m.bodyEnd {
            FirstMatchUnique(raw, i, b, j, m.start, m.bodyStart, m.bodyEnd);
          }
        }
        Propagate(loads(Group(raw, m)))
      case None => Err(ValueError(NoJsonMessage))
  }

  /** The parser fails exactly when the whole text does not decode, and
      either its decoding raised something other than a `JSONDecodeError` or
      there is no fenced block or its group does not decode. */
  lemma ParseFailsOnlyWhenBothStagesFail(raw: string, loads: Loads)
    ensures CleanJsonOutput(raw, loads).Err? <==>
      && !loads(raw).Decoded?
      && (|| loads(raw).Raised?
          || forall i: nat, b: nat, j: nat :: FirstMatch(raw, i, b, j) ==> !loads(raw[b..j]).Decoded?)
  {
    match Search(raw)
    case Some(m) =>
    case None =>
  }

  /** A text without a backtick holds no fenced block. */
  lemma NoBacktickNoFence(s: string)
    requires '`' !in s
    ensures Search(s) == None
  {
    forall i: nat, b: nat, j: nat ensures !MatchesAt(s, i, b, j) {
    }
  }

  /** Text that is not JSON and has no fence raises `ValueError`. */
  lemma PlainTextRaisesValueError(loads: Loads)
    requires loads("not json at all").DecodeError?
    ensures CleanJsonOutput("not json at all", loads) == Err(ValueError(NoJsonMessage))
  {
    NoBacktickNoFence("not json at all");
  }

  /** A `json`-tagged fenced object is returned as its decoded group. */
  lemma TaggedReplyParses(loads: Loads, v: Json)
    requires loads(TaggedReply).DecodeError?
    requires loads(SampleObject) == Decoded(v)
    ensures CleanJsonOutput(TaggedReply, loads) == Ok(v)
  {
    TaggedFenceExample();
  }

  /** An exception other than a `JSONDecodeError` while decoding the whole
      text escapes even when the text holds a fenced object. */
  lemma RaisedSkipsFence(loads: Loads, v: Json)
    requires loads(TaggedReply).Raised?
    requires loads(SampleObject) == Decoded(v)
    ensures CleanJsonOutput(TaggedReply, loads) == Err(Escaped(loads(TaggedReply).message))
    ensures Search(TaggedReply).Some?
  {
    TaggedFenceExample();
  }
}
