/** `POST /api/analyze-leads`: asks the AI for an analysis of a set of
    leads. */
module AnalyzeLeads {
  import opened Wrappers
  import opened Http

  /** The response sent, and the text the upstream was called with
      (`None` when it was not called). */
  datatype Outcome = Outcome(response: Response, called: Option<JsonText>)

  /** The handler; `upstream` is what the upstream call would produce. The
      upstream gets `leads` re-encoded as JSON once more. */
  function Handle(req: Request, upstream: UpstreamResult): (r: Outcome)
    ensures r.response.status == 405 <==> req.verb != "POST"
    ensures r.response.status == 405 ==> r.response == MethodNotAllowed
    ensures r.response.status == 400 <==> req.verb == "POST" && !Truthy(Field(req.body, "leads"))
    ensures r.response.status == 400 ==> r.response.body == ErrorBody("Missing leads in request body")
    ensures r.called.Some? <==> req.verb == "POST" && Truthy(Field(req.body, "leads"))
    ensures r.called.Some? ==>
      r.called.value == Stringify(Field(req.body, "leads")) && r.response == UpstreamResponse(upstream)
    ensures r.response.status in {200, 400, 405, 500}
  {
    if req.verb != "POST" then
      Outcome(MethodNotAllowed, None)
    else
      var leads := Field(req.body, "leads");
      if !Truthy(leads) then
        Outcome(Response(400, ErrorBody("Missing leads in request body")), None)
      else
        Outcome(UpstreamResponse(upstream), Some(Stringify(leads)))
  }

  /** The method check comes first: a non-POST request is a 405 whatever
      its body. */
  lemma MethodCheckFirst(verb: string, b1: JsValue, b2: JsValue, u: UpstreamResult)
    requires verb != "POST"
    ensures Handle(Request(verb, b1), u) == Handle(Request(verb, b2), u)
  {
  }

  /** A request turned away never depends on what the upstream would do. */
  lemma RejectedIgnoresUpstream(req: Request, u1: UpstreamResult, u2: UpstreamResult)
    requires Handle(req, u1).called.None?
    ensures Handle(req, u1) == Handle(req, u2)
  {
  }

  /** An empty-string `leads` is falsy and turned away with 400, while an
      empty array is truthy and reaches the upstream. */
  lemma EmptyLeads(u: UpstreamResult)
    ensures Handle(Request("POST", Obj(map["leads" := Str("")])), u).response.status == 400
    ensures Handle(Request("POST", Obj(map["leads" := Arr([])])), u).called == Some(Stringify(Arr([])))
  {
  }
}
