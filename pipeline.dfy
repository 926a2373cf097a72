/** The body of `get_gpt_estimate` (app.py): build the prompt, ask the
    language model, sanitize its answer, and turn every failure into a
    fixed error message. */
module Pipeline {
  import opened PyValue
  import opened Schema
  import opened Normalizer
  import opened PromptBuilder

  /** The three arguments `estimate` passes to `get_gpt_estimate`. */
  datatype Args = Args(procedure: Json, zipCode: Json, procedureCode: Json) {
    /** `lru_cache` hashes its arguments, so only hashable ones get through. */
    predicate Hashable() {
      PyValue.Hashable(procedure) && PyValue.Hashable(zipCode) && PyValue.Hashable(procedureCode)
    }
  }

  /** What the chat-completion call and `json.loads` can produce: no content
      (`None` or empty), text that is not JSON, a rate-limit error, another
      API error, any other exception, or a decoded JSON value. */
  datatype Completion =
    | NoContent
    | Unparsable
    | RateLimitHit
    | ApiFailure
    | OtherFailure
    | Parsed(value: Json)

  /** The failure kinds `get_gpt_estimate` tells apart. */
  datatype Failure = ParseFailure | RateLimited | UpstreamError | Unexpected

  /** What `get_gpt_estimate` returns: an estimate or an error dict. */
  datatype Reply = Estimated(estimate: Estimate) | Failed(failure: Failure)

  /** The fixed message of each failure kind. */
  function Message(f: Failure): string {
    match f
    case ParseFailure => "Unable to parse the estimate. Please try again."
    case RateLimited => "Rate limit exceeded. Please try again later."
    case UpstreamError => "An error occurred while fetching the estimate. Please try again."
    case Unexpected => "An unexpected error occurred while estimating the cost. Please try again."
  }

  /** The four messages have different lengths. */
  lemma MessageLengths()
    ensures |Message(ParseFailure)| == 47 && |Message(RateLimited)| == 44
    ensures |Message(UpstreamError)| == 64 && |Message(Unexpected)| == 73
  {
  }

  /** Distinct failure kinds give distinct messages. */
  lemma MessagesDistinct(f: Failure, g: Failure)
    ensures Message(f) == Message(g) <==> f == g
  {
    MessageLengths();
  }

  /** The failure each outcome of the model call leads to, or none. An empty
      response raises `ValueError`, which only the final `except Exception`
      catches. */
  function CompletionFailure(c: Completion): (r: Option<Failure>)
    ensures r.None? <==> c.Parsed?
  {
    match c
    case NoContent => Some(Unexpected)
    case Unparsable => Some(ParseFailure)
    case RateLimitHit => Some(RateLimited)
    case ApiFailure => Some(UpstreamError)
    case OtherFailure => Some(Unexpected)
    case Parsed(_) => None
  }

  /** `get_gpt_estimate(procedure, zip_code, procedure_code)` for a model
      that answers the prompt with `llm(prompt)`. */
  function GetGptEstimate(args: Args, llm: string -> Completion, lib: Builtins): (r: Reply)
    requires args.Hashable()
    ensures r.Estimated? ==> WellFormed(r.estimate)
  {
    var prompt := RequestPrompt(args.procedure, args.zipCode, args.procedureCode, lib);
    match llm(prompt)
    case Parsed(data) =>
      (match Sanitize(data, lib)
       case Ok(e) => Estimated(e)
       case Err(_) => Failed(Unexpected))
    case other => Failed(CompletionFailure(other).value)
  }

  /** `get_gpt_estimate` as the code runs it, with the imperative normalizer. */
  method RunPipeline(args: Args, llm: string -> Completion, lib: Builtins) returns (r: Reply)
    requires args.Hashable()
    ensures r == GetGptEstimate(args, llm, lib)
  {
    var prompt := RequestPrompt(args.procedure, args.zipCode, args.procedureCode, lib);
    var completion := llm(prompt);
    if !completion.Parsed? {
      return Failed(CompletionFailure(completion).value);
    }
    var sanitized := SanitizeEstimateData(completion.value, lib);
    if sanitized.Err? {
      return Failed(Unexpected);
    }
    return Estimated(sanitized.value);
  }

  /** How the reply is decided: the model's answer when it is JSON that the
      normalizer accepts, the unexpected-error message when the normalizer
      raises (a null `recovery_info`, list or cost range included), and the
      kind-specific message for each failed call. */
  lemma ReplyClassification(args: Args, llm: string -> Completion, lib: Builtins)
    requires args.Hashable()
    ensures var c := llm(RequestPrompt(args.procedure, args.zipCode, args.procedureCode, lib));
      var r := GetGptEstimate(args, llm, lib);
      && (r.Estimated? <==> c.Parsed? && Accepted(c.value))
      && (c.Parsed? && Accepted(c.value) ==> r == Estimated(Sanitize(c.value, lib).value))
      && (c.Parsed? && !Accepted(c.value) ==> r == Failed(Unexpected))
      && (c == Unparsable ==> r == Failed(ParseFailure))
      && (c == RateLimitHit ==> r == Failed(RateLimited))
      && (c == ApiFailure ==> r == Failed(UpstreamError))
      && (c == NoContent || c == OtherFailure ==> r == Failed(Unexpected))
  {
    var c := llm(RequestPrompt(args.procedure, args.zipCode, args.procedureCode, lib));
    if c.Parsed? {
      SanitizeOkIff(c.value, lib);
    }
  }

  /** `get_gpt_estimate` as written, on a client library whose `OpenAI`
      class does not carry the exception classes `RateLimitError` and
      `APIError` (the `openai` package exports them from the module). Python
      evaluates the `except` clauses in order, so every exception that is
      not a `JSONDecodeError` makes the lookup of `OpenAI.RateLimitError`
      raise `AttributeError`, which leaves the function uncaught. */
  function GetGptEstimateAsWritten(args: Args, llm: string -> Completion, lib: Builtins): (r: Result<Reply>)
    requires args.Hashable()
    ensures r.Ok? ==> r.value == GetGptEstimate(args, llm, lib)
  {
    match llm(RequestPrompt(args.procedure, args.zipCode, args.procedureCode, lib))
    case Parsed(data) =>
      (match Sanitize(data, lib)
       case Ok(e) => Ok(Estimated(e))
       case Err(_) => Err(AttributeError))
    case Unparsable => Ok(Failed(ParseFailure))
    case _ => Err(AttributeError)
  }

  /** On such a library, a rate-limited call ends in an uncaught
      `AttributeError` instead of the rate-limit message, and only JSON
      failures and accepted answers get the reply the handlers intend. */
  lemma RateLimitEscapesAsWritten(args: Args, lib: Builtins)
    requires args.Hashable()
    ensures GetGptEstimateAsWritten(args, _ => RateLimitHit, lib) == Err(AttributeError)
    ensures GetGptEstimate(args, _ => RateLimitHit, lib) == Failed(RateLimited)
  {
  }

  /** Exactly the outcomes that need no handler beyond the first keep the
      intended reply when the handlers' class lookups fail. */
  lemma AsWrittenAgreesIff(args: Args, llm: string -> Completion, lib: Builtins)
    requires args.Hashable()
    ensures var c := llm(RequestPrompt(args.procedure, args.zipCode, args.procedureCode, lib));
      GetGptEstimateAsWritten(args, llm, lib).Ok? <==> c == Unparsable || (c.Parsed? && Accepted(c.value))
  {
    var c := llm(RequestPrompt(args.procedure, args.zipCode, args.procedureCode, lib));
    if c.Parsed? {
      SanitizeOkIff(c.value, lib);
    }
  }

  /** The dict the endpoint serialises for a reply. */
  function ReplyJson(r: Reply): (j: Json)
    ensures j.JObj?
    ensures r.Failed? ==> j.fields == map[ErrorKey := JStr(Message(r.failure))]
    ensures r.Estimated? ==> forall k :: k in j.fields <==> k in TopLevelKeys
  {
    match r
    case Estimated(e) => EstimateJson(e)
    case Failed(f) => JObj(map[ErrorKey := JStr(Message(f))])
  }

  /** A client tells the two kinds of reply apart by the "error" key,
      which no estimate carries. */
  lemma ErrorKeyMarksFailure(r: Reply)
    ensures ErrorKey in ReplyJson(r).fields <==> r.Failed?
  {
  }
}
