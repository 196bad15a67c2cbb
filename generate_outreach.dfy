/** `POST /api/generate-outreach`: asks the AI for an outreach strategy for
    an industry and a product. */
module GenerateOutreach {
  import opened Wrappers
  import opened Http

  /** The upstream call's arguments: industry and product. */
  datatype Args = Args(industry: JsValue, product: JsValue)

  /** The response sent, and the arguments the upstream was called with
      (`None` when it was not called). */
  datatype Outcome = Outcome(response: Response, called: Option<Args>)

  /** Whether the body carries a truthy industry and a truthy product. */
  function HasInputs(body: JsValue): (ok: bool)
    ensures ok ==> body.Obj? && "industry" in body.fields && "product" in body.fields
    ensures body.Obj? && "industry" in body.fields && "product" in body.fields ==>
      (ok <==> Truthy(body.fields["industry"]) && Truthy(body.fields["product"]))
  {
    Truthy(Field(body, "industry")) && Truthy(Field(body, "product"))
  }

  /** The handler; `upstream` is what the upstream call would produce. */
  function Handle(req: Request, upstream: UpstreamResult): (r: Outcome)
    ensures r.response.status == 405 <==> req.verb != "POST"
    ensures r.response.status == 405 ==> r.response == MethodNotAllowed
    ensures r.response.status == 400 <==> req.verb == "POST" && !HasInputs(req.body)
    ensures r.response.status == 400 ==>
      r.response.body == ErrorBody("Missing industry or product in request body")
    ensures r.called.Some? <==> req.verb == "POST" && HasInputs(req.body)
    ensures r.called.Some? ==>
      r.called.value == Args(Field(req.body, "industry"), Field(req.body, "product"))
        && r.response == UpstreamResponse(upstream)
    ensures r.response.status in {200, 400, 405, 500}
  {
    if req.verb != "POST" then
      Outcome(MethodNotAllowed, None)
    else
      var industry := Field(req.body, "industry");
      var product := Field(req.body, "product");
      if !Truthy(industry) || !Truthy(product) then
        Outcome(Response(400, ErrorBody("Missing industry or product in request body")), None)
      else
        Outcome(UpstreamResponse(upstream), Some(Args(industry, product)))
  }

  /** The method check comes first: a non-POST request is a 405 whatever
      its body. */
  lemma MethodCheckFirst(verb: string, b1: JsValue, b2: JsValue, u: UpstreamResult)
    requires verb != "POST"
    ensures Handle(Request(verb, b1), u) == Handle(Request(verb, b2), u)
  {
  }

  /** A request turned away never depends on what the upstream would do. */
  lemma RejectedIgnoresUpstream(req: Request, u1: UpstreamResult, u2: UpstreamResult)
    requires Handle(req, u1).called.None?
    ensures Handle(req, u1) == Handle(req, u2)
  {
  }

  /** A POST with no body, or with an empty-string product, is a 400. */
  lemma MissingInputsRejected(industry: JsValue, u: UpstreamResult)
    ensures Handle(Request("POST", Undefined), u).response.status == 400
    ensures Handle(Request("POST", Obj(map["industry" := industry, "product" := Str("")])), u).response.status == 400
  {
  }
}
