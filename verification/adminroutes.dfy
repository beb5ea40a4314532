/**
 The server's admin routes: a shared secret read from the environment, the token a request
 presents (the `x-admin-token` header, else the `token` query parameter), and the 401 gate
 in front of every admin route.
*/
module AdminRoutes {
  import opened Wrappers
  import opened Http

  /** `process.env.ADMIN_TOKEN || ""`. */
  function ConfiguredToken(env: Option<string>): (t: string)
    ensures env.Some? ==> t == env.value
    ensures env.None? ==> t == []
  {
    env.ValueOr("")
  }

  /** The `token` query parameter as the query parser hands it over: absent, one string,
      a repeated parameter (an array) or a bracketed one (an object). */
  datatype Param = Missing | Single(s: string) | Repeated(values: seq<string>) | Nested

  /** A request as the gate sees it: the `x-admin-token` header and the `token` parameter. */
  datatype Request = Request(header: Option<string>, query: Param)

  /** The token a request presents: a string, or a value that is not a string. */
  datatype Presented = Str(s: string) | NotAString

  /** `header || query || ""`: the first truthy one; arrays and objects are truthy. */
  function PresentedToken(req: Request): (p: Presented)
    ensures req.header.Some? && req.header.value != [] ==> p == Str(req.header.value)
    ensures (req.header.None? || req.header.value == []) ==>
      match req.query
      case Missing => p == Str([])
      case Single(s) => p == Str(s)
      case _ => p == NotAString
  {
    if req.header.Some? && req.header.value != [] then Str(req.header.value)
    else match req.query
      case Missing => Str("")
      case Single(s) => if s != [] then Str(s) else Str("")
      case Repeated(_) => NotAString
      case Nested => NotAString
  }

  /** `auth`: the configured token is set and the presented token is that very string. */
  function Auth(config: string, req: Request): (ok: bool)
    ensures ok ==> config != []
    ensures ok <==> config != [] && PresentedToken(req) == Str(config)
  {
    |config| > 0 && PresentedToken(req) == Str(config)
  }

  /** Which requests pass, stated directly on the header and the query parameter. */
  lemma AuthCases(config: string, req: Request)
    ensures Auth(config, req) <==>
      config != [] &&
      (if req.header.Some? && req.header.value != [] then req.header.value == config
       else req.query == Single(config))
  {
  }

  /** Without a configured token nobody passes. */
  lemma EmptyConfigDenies(req: Request)
    ensures !Auth(ConfiguredToken(None), req)
    ensures !Auth(ConfiguredToken(Some("")), req)
  {
  }

  /** A wrong header is not rescued by a right query parameter. */
  lemma WrongHeaderShadowsQuery(config: string, h: string)
    requires h != [] && h != config
    ensures !Auth(config, Request(Some(h), Single(config)))
  {
  }

  /** The query parameter counts when the header is absent or empty. */
  lemma QueryUsedWithoutHeader(config: string, header: Option<string>)
    requires config != [] && (header.None? || header.value == [])
    ensures Auth(config, Request(header, Single(config)))
  {
  }

  /** A request that presents no token is refused. */
  lemma NoTokenDenies(config: string, header: Option<string>, query: Param)
    requires header.None? || header.value == []
    requires query.Missing? || query == Single([])
    ensures !Auth(config, Request(header, query))
  {
  }

  /** A repeated `token` parameter is never accepted, even when every copy is right. */
  lemma RepeatedQueryDenied(config: string, values: seq<string>)
    ensures !Auth(config, Request(None, Repeated(values)))
  {
  }

  // ---------------------------------------------------------------------------
  // Routes

  datatype Response = Response(status: int, body: Json)

  /** The answer to a request that fails the gate. */
  const Unauthorized: Response := Response(401, JObject(map["mensagem" := JString("Não autorizado")]))

  /** Every admin route: the gate answers first, and only a request that passes reaches
      the route's own handling, whose answer is `handled`. */
  function Guarded(config: string, req: Request, handled: Response): (r: Response)
    ensures !Auth(config, req) ==> r == Unauthorized
    ensures Auth(config, req) ==> r == handled
  {
    if !Auth(config, req) then Unauthorized else handled
  }

  /** A refused request gets the same answer whatever the route would have done. */
  lemma GateIgnoresHandler(config: string, req: Request, a: Response, b: Response)
    requires !Auth(config, req)
    ensures Guarded(config, req, a) == Guarded(config, req, b)
  {
  }

  /** The result of the barber query: rows (or none), or an error with its message. */
  datatype Query = Rows(data: Option<seq<Json>>) | Failed(message: Option<string>)

  /** The body of `GET /api/admin/barbeiros` once past the gate. */
  function ListarBarbeirosBody(q: Query): (r: Response)
    ensures q.Rows? <==> r.status == 200
    ensures q.Rows? ==> Field(r.body, "barbeiros") == Some(JArray(q.data.ValueOr([])))
    ensures q.Failed? ==> r.status == 500
                          && Field(r.body, "mensagem") == Some(JString("Erro ao listar barbeiros"))
    ensures q.Failed? ==> (Field(r.body, "detalhe").Some? <==> q.message.Some?)
  {
    match q
    case Rows(data) => Response(200, JObject(map["barbeiros" := JArray(data.ValueOr([]))]))
    case Failed(message) =>
      var base := map["mensagem" := JString("Erro ao listar barbeiros")];
      Response(500, JObject(if message.Some? then base["detalhe" := JString(message.value)] else base))
  }

  /** `GET /api/admin/barbeiros`. */
  function ListarBarbeiros(config: string, req: Request, q: Query): (r: Response)
    ensures r.status == 200 <==> Auth(config, req) && q.Rows?
    ensures r.status == 401 <==> !Auth(config, req)
  {
    Guarded(config, req, ListarBarbeirosBody(q))
  }
}
