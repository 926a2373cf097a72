/** The `/estimate` endpoint (app.py:19-37): validate the request body, call
    the memoised `get_gpt_estimate`, and answer with a status and a JSON body. */
module Route {
  import opened PyValue
  import opened Schema
  import opened Pipeline
  import opened Memo

  const ProcedureField := "procedure"
  const ZipCodeField := "zip_code"
  const ProcedureCodeField := "procedure_code"

  const InvalidRequest := "Invalid request data"
  const MissingField := "Missing procedure or ZIP code"
  const RouteFailure := "An unexpected error occurred. Please try again."

  datatype Response = Response(status: nat, body: Json)

  function ErrorBody(msg: string): (j: Json)
    ensures j.JObj? && j.fields.Keys == {ErrorKey} && j.fields[ErrorKey] == JStr(msg)
  {
    JObj(map[ErrorKey := JStr(msg)])
  }

  /** What the endpoint does with a decoded body before any model call:
      answer at once, or consult the memoised function with these arguments. */
  datatype Decision = Answer(response: Response) | Consult(args: Args)

  function Validate(body: Json): Decision {
    if !Truthy(body) then Answer(Response(400, ErrorBody(InvalidRequest)))
    // `.get` on a list, string, number or `True` raises `AttributeError`.
    else if !body.JObj? then Answer(Response(500, ErrorBody(RouteFailure)))
    else
      var args := Args(Get(body.fields, ProcedureField, JNull), Get(body.fields, ZipCodeField, JNull),
                       Get(body.fields, ProcedureCodeField, JStr("")));
      if !Truthy(args.procedure) || !Truthy(args.zipCode) then Answer(Response(400, ErrorBody(MissingField)))
      // `lru_cache` raises `TypeError` on a list or dict argument.
      else if !args.Hashable() then Answer(Response(500, ErrorBody(RouteFailure)))
      else Consult(args)
  }

  /** The whole request: the response and the cache afterwards. */
  function Handle(st: CacheState, body: Json, llm: string -> Completion, lib: Builtins): (Response, CacheState) {
    match Validate(body)
    case Answer(resp) => (resp, st)
    case Consult(args) =>
      var (reply, st') := Memoised(st, args, llm, lib);
      (Response(200, ReplyJson(reply)), st')
  }

  /** The arguments taken from a body: the procedure and ZIP code when given
      (`None` otherwise), and an empty procedure code when none is given. */
  lemma ArgumentsFromBody(body: Json)
    requires Validate(body).Consult?
    ensures body.JObj?
    ensures var args := Validate(body).args;
      && (ProcedureField in body.fields && args.procedure == body.fields[ProcedureField])
      && (ZipCodeField in body.fields && args.zipCode == body.fields[ZipCodeField])
      && args.procedureCode == (if ProcedureCodeField in body.fields then body.fields[ProcedureCodeField] else JStr(""))
  {
  }

  /** Each status and message of the endpoint, and exactly when it is given. */
  lemma StatusClassification(st: CacheState, body: Json, llm: string -> Completion, lib: Builtins)
    ensures var (resp, _) := Handle(st, body, llm, lib);
      var proc := if body.JObj? then Get(body.fields, ProcedureField, JNull) else JNull;
      var zip := if body.JObj? then Get(body.fields, ZipCodeField, JNull) else JNull;
      var code := if body.JObj? then Get(body.fields, ProcedureCodeField, JStr("")) else JNull;
      && (resp == Response(400, ErrorBody(InvalidRequest)) <==> !Truthy(body))
      && (resp == Response(400, ErrorBody(MissingField)) <==>
            Truthy(body) && body.JObj? && (!Truthy(proc) || !Truthy(zip)))
      && (resp == Response(500, ErrorBody(RouteFailure)) <==>
            Truthy(body) && (!body.JObj? || (Truthy(proc) && Truthy(zip) && (!Hashable(proc) || !Hashable(zip) || !Hashable(code)))))
      && (resp.status == 200 <==> Validate(body).Consult?)
      && (resp.status == 200 || resp.status == 400 || resp.status == 500)
  {
    assert InvalidRequest != MissingField by {
      assert |InvalidRequest| == 20 && |MissingField| == 29;
    }
  }

  /** A refused request leaves the cache as it was. */
  lemma RefusalKeepsCache(st: CacheState, body: Json, llm: string -> Completion, lib: Builtins)
    requires Validate(body).Answer?
    ensures Handle(st, body, llm, lib).1 == st
    ensures Handle(st, body, llm, lib).0.status != 200
  {
  }

  /** Failures of the estimate itself still answer 200, with the reply's
      error message under "error". */
  lemma FailedEstimateAnswers200(st: CacheState, body: Json, llm: string -> Completion, lib: Builtins)
    requires Validate(body).Consult?
    requires Memoised(st, Validate(body).args, llm, lib).0.Failed?
    ensures var resp := Handle(st, body, llm, lib).0;
      resp.status == 200
      && resp.body == ErrorBody(Message(Memoised(st, Validate(body).args, llm, lib).0.failure))
  {
  }

  /** An empty dict is falsy, so it is an invalid request rather than one
      missing its fields; a body with only a procedure misses its ZIP code. */
  lemma BodyExamples()
    ensures Validate(JObj(map[])) == Answer(Response(400, ErrorBody(InvalidRequest)))
    ensures Validate(JObj(map[ProcedureField := JStr("MRI Scan")])) == Answer(Response(400, ErrorBody(MissingField)))
    ensures Validate(JArr([JNull])) == Answer(Response(500, ErrorBody(RouteFailure)))
    ensures Validate(JObj(map[ProcedureField := JStr("MRI Scan"), ZipCodeField := JStr("10001")]))
         == Consult(Args(JStr("MRI Scan"), JStr("10001"), JStr("")))
  {
    var m := map[ProcedureField := JStr("MRI Scan")];
    assert ZipCodeField !in m;
    var m2 := map[ProcedureField := JStr("MRI Scan"), ZipCodeField := JStr("10001")];
    assert ProcedureCodeField !in m2;
  }

  /** The endpoint, with the memoised function behind it. */
  method Estimate(cache: EstimateCache, body: Json, llm: string -> Completion, lib: Builtins) returns (resp: Response)
    requires cache.Invariant()
    modifies cache
    ensures (resp, cache.State()) == Handle(old(cache.State()), body, llm, lib)
    ensures cache.Invariant()
  {
    var decision := Validate(body);
    if decision.Answer? {
      return decision.response;
    }
    var reply := cache.Call(decision.args, llm, lib);
    resp := Response(200, ReplyJson(reply));
  }
}
