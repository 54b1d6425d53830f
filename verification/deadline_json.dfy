/**
 * `getJSONResponseFromDeadline`: `deadlinecommand -prettyJSON` answers with an
 * envelope `{"ok": ..., "result": ...}`; the submitter returns `result` when `ok` is
 * truthy and raises otherwise. Running the command and parsing its text are not part
 * of this model: the parsed value (or the parse failure) is the input.
 */
module DeadlineJson {
  import opened Wrappers

  datatype Json =
    | JNull
    | JBool(b: bool)
    | JNumber(n: real)
    | JString(s: string)
    | JArray(items: seq<Json>)
    | JObject(members: map<string, Json>)

  /** Python truthiness of the value `json.loads` returns. */
  predicate Truthy(j: Json) {
    match j
    case JNull => false
    case JBool(b) => b
    case JNumber(n) => n != 0.0
    case JString(s) => s != ""
    case JArray(items) => |items| > 0
    case JObject(members) => |members| > 0
  }

  /** The exceptions `getJSONResponseFromDeadline` lets escape. */
  datatype DeadlineError =
    | InvalidJson                 // json.loads failed; re-raised
    | NotSubscriptable            // TypeError: the answer is not a dict
    | MissingKey(key: string)     // KeyError
    | NotAString                  // TypeError: "..." + result for a non-string result
    | CommandFailed(message: string) // Exception(result)

  /** The envelope as Deadline writes it. */
  function Envelope(ok: bool, result: Json): Json {
    JObject(map["ok" := JBool(ok), "result" := result])
  }

  /** The value returned, or the exception raised, for a parsed answer (`None`: not JSON). */
  function UnwrapResponse(parsed: Option<Json>): Result<Json, DeadlineError> {
    match parsed
    case None => Failure(InvalidJson)
    case Some(j) =>
      if !j.JObject? then Failure(NotSubscriptable)
      else if "ok" !in j.members then Failure(MissingKey("ok"))
      else if "result" !in j.members then Failure(MissingKey("result"))
      else if Truthy(j.members["ok"]) then Success(j.members["result"])
      else if j.members["result"].JString? then Failure(CommandFailed(j.members["result"].s))
      else Failure(NotAString)
  }

  // ---------------------------------------------------------------------------
  // Properties
  // ---------------------------------------------------------------------------

  /** A successful envelope yields its result; a failed one raises with its message. */
  lemma EnvelopeRoundTrip(result: Json, message: string)
    ensures UnwrapResponse(Some(Envelope(true, result))) == Success(result)
    ensures UnwrapResponse(Some(Envelope(false, JString(message)))) == Failure(CommandFailed(message))
  {
  }

  /**
   * A value is returned exactly when the answer is an object with a truthy `ok` and a
   * `result`, and it is that `result`.
   */
  lemma UnwrapSucceedsExactly(parsed: Option<Json>)
    ensures UnwrapResponse(parsed).Success? <==>
      parsed.Some? && parsed.value.JObject?
      && "ok" in parsed.value.members && "result" in parsed.value.members
      && Truthy(parsed.value.members["ok"])
    ensures UnwrapResponse(parsed).Success? ==>
      UnwrapResponse(parsed).value == parsed.value.members["result"]
  {
  }

  /** With a falsy `ok`, the exception carries `result` whenever `result` is a string. */
  lemma FalsyOkRaises(members: map<string, Json>)
    requires "ok" in members && "result" in members && !Truthy(members["ok"])
    ensures UnwrapResponse(Some(JObject(members))).Failure?
    ensures members["result"].JString? ==>
      UnwrapResponse(Some(JObject(members))) == Failure(CommandFailed(members["result"].s))
  {
  }
}
