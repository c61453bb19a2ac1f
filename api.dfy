/** The request layer every page goes through (services/api.js): how a call
    becomes a `fetch` (URL, headers, body encoding), how the reply becomes a
    value or a thrown `{status, message}`, and the endpoints of the calls the
    pages make. The network itself is a parameter: a reply is given, not fetched. */
module Api {
  import opened Common
  import Uri

  // ------------------------------------------------------------ values

  /** A JSON value as the pages send and receive them (arrays and nested
      objects are not needed by the modelled calls). */
  datatype JsonValue = JNull | JBool(b: bool) | JNum(n: real) | JStr(s: string)

  type JsonObject = map<string, JsonValue>

  /** One `FormData` entry: a text field or an uploaded file (named by the
      file the user picked; its bytes are not modelled). */
  datatype FormValue = Text(text: string) | File(fileName: string)
  datatype FormEntry = FormEntry(name: string, value: FormValue)

  /** The `body` argument of `apiRequest`. */
  datatype Body = NoBody | FormBody(entries: seq<FormEntry>) | JsonBody(fields: JsonObject)

  /** What `fetch` is given as its body: null, the FormData itself, or the
      JSON text of the object (serialization is not modelled; the object is kept). */
  datatype SentBody = NullBody | MultipartBody(entries: seq<FormEntry>) | JsonText(fields: JsonObject)

  /** A call as a page issues it: verb, endpoint, body and optional bearer token. */
  datatype Request = Request(verb: string, endpoint: string, body: Body, token: Option<string>)

  /** The arguments of the resulting `fetch`. */
  datatype FetchCall = FetchCall(url: string, verb: string, headers: map<string, string>, body: SentBody)

  /** The HTTP reply: `ok`, the status and the body, None when it is not JSON. */
  datatype HttpResponse = HttpResponse(ok: bool, status: int, body: Option<JsonObject>)

  /** The object a failed call throws: the HTTP status (absent for a failure
      that is not an HTTP reply, such as a network error) and a message. */
  datatype ApiError = ApiError(status: Option<int>, message: string)

  /** The result of an awaited call: a value, or the error the page catches. */
  datatype Outcome<T> = Ok(value: T) | Failed(error: ApiError)

  /** `e.message || fallback`, the way every page turns a caught error into text. */
  function ErrorText(e: ApiError, fallback: string): string {
    if e.message != "" then e.message else fallback
  }

  predicate IsStatus(e: ApiError, code: int) {
    e.status == Some(code)
  }

  // ------------------------------------------------------- apiRequest

  const DefaultBaseUrl: string := "http://localhost:3000"
  const JsonContentType: string := "application/json"
  const DefaultErrorMessage: string := "Erro na requisição"

  /** `process.env.NEXT_PUBLIC_API_URL || 'http://localhost:3000'`. */
  function BaseUrl(env: Option<string>): (url: string)
    ensures url != ""
    ensures Truthy(env) ==> url == env.value
  {
    if Truthy(env) then env.value else DefaultBaseUrl
  }

  /** Fills the `headers` object of `apiRequest` field by field. */
  method BuildHeaders(body: Body, token: Option<string>) returns (headers: map<string, string>)
    ensures "Content-Type" in headers <==> !body.FormBody?
    ensures "Content-Type" in headers ==> headers["Content-Type"] == JsonContentType
    ensures "Authorization" in headers <==> Truthy(token)
    ensures "Authorization" in headers ==> headers["Authorization"] == "Bearer " + token.value
    ensures headers.Keys <= {"Content-Type", "Authorization"}
  {
    headers := map[];
    if !body.FormBody? {
      headers := headers["Content-Type" := JsonContentType];
    }
    if Truthy(token) {
      headers := headers["Authorization" := "Bearer " + token.value];
    }
  }

  /** The body handed to `fetch`: null stays null, FormData passes through,
      anything else is JSON-stringified. */
  function SentBodyOf(body: Body): (sent: SentBody)
    ensures sent.MultipartBody? <==> body.FormBody?
    ensures sent.JsonText? <==> body.JsonBody?
    ensures body.FormBody? ==> sent.entries == body.entries
    ensures body.JsonBody? ==> sent.fields == body.fields
  {
    match body
    case NoBody => NullBody
    case FormBody(entries) => MultipartBody(entries)
    case JsonBody(fields) => JsonText(fields)
  }

  /** The `fetch` call `apiRequest` makes for a request. */
  method PrepareFetch(baseUrl: string, req: Request) returns (call: FetchCall)
    ensures call.url == baseUrl + req.endpoint && call.verb == req.verb
    ensures call.body == SentBodyOf(req.body)
    ensures "Content-Type" in call.headers <==> !req.body.FormBody?
    ensures "Content-Type" in call.headers ==> call.headers["Content-Type"] == JsonContentType
    ensures "Authorization" in call.headers <==> Truthy(req.token)
    ensures "Authorization" in call.headers ==> call.headers["Authorization"] == "Bearer " + req.token.value
    ensures call.headers.Keys <= {"Content-Type", "Authorization"}
  {
    var headers := BuildHeaders(req.body, req.token);
    call := FetchCall(baseUrl + req.endpoint, req.verb, headers, SentBodyOf(req.body));
  }

  /** A field of the reply used as a message: a non-empty string. */
  function TextField(data: JsonObject, key: string): Option<string> {
    if key in data && data[key].JStr? && data[key].s != "" then Some(data[key].s) else None
  }

  /** `data.erro || data.msg || 'Erro na requisição'`. */
  function ErrorMessage(data: JsonObject): (m: string)
    ensures m != ""
    ensures TextField(data, "erro").Some? ==> m == TextField(data, "erro").value
    ensures TextField(data, "erro").None? && TextField(data, "msg").Some? ==> m == TextField(data, "msg").value
    ensures TextField(data, "erro").None? && TextField(data, "msg").None? ==> m == DefaultErrorMessage
  {
    match TextField(data, "erro")
    case Some(e) => e
    case None =>
      match TextField(data, "msg")
      case Some(m) => m
      case None => DefaultErrorMessage
  }

  /** What `apiRequest` does with the reply: an unparseable body reads as
      `{}`; an ok reply yields the data, any other throws `{status, message}`. */
  function Complete(r: HttpResponse): (out: Outcome<JsonObject>)
    ensures out.Ok? <==> r.ok
    ensures out.Ok? ==> out.value == (if r.body.Some? then r.body.value else map[])
    ensures out.Failed? ==> out.error.status == Some(r.status) && out.error.message != ""
  {
    var data := if r.body.Some? then r.body.value else map[];
    if r.ok then Ok(data) else Failed(ApiError(Some(r.status), ErrorMessage(data)))
  }

  /** A page's fallback text never replaces the message of an HTTP error: the
      thrown message is the server's `erro`, else its `msg`, else the default. */
  lemma HttpErrorKeepsServerMessage(r: HttpResponse, fallback: string)
    requires !r.ok
    ensures Complete(r).Failed?
    ensures ErrorText(Complete(r).error, fallback) ==
      ErrorMessage(if r.body.Some? then r.body.value else map[])
  {
  }

  // ---------------------------------------------------------- products

  const ProdutosPath: string := "/api/products/produtos"

  /** The options of `getProdutos`. */
  datatype ProdutosParams = ProdutosParams(q: Option<string>, somenteDisponiveis: bool)

  /** Appends the query parameters to a fresh `URLSearchParams`, in order. */
  method ProdutosQuery(params: ProdutosParams) returns (query: seq<(string, string)>)
    ensures |query| == (if Truthy(params.q) then 1 else 0) + (if params.somenteDisponiveis then 1 else 0)
    ensures forall v :: ("q", v) in query <==> Truthy(params.q) && v == params.q.value
    ensures ("somenteDisponiveis", "1") in query <==> params.somenteDisponiveis
    ensures forall p :: p in query ==> p.0 == "q" || p == ("somenteDisponiveis", "1")
    ensures Truthy(params.q) ==> |query| > 0 && query[0] == ("q", params.q.value)
  {
    query := [];
    if Truthy(params.q) {
      query := query + [("q", params.q.value)];
    }
    if params.somenteDisponiveis {
      query := query + [("somenteDisponiveis", "1")];
    }
  }

  /** `URLSearchParams.toString`: `name=value` pairs, each side form-encoded,
      joined by `&`. */
  function QueryString(query: seq<(string, string)>): string {
    if query == [] then ""
    else
      var pair := Uri.FormEncode(query[0].0) + "=" + Uri.FormEncode(query[0].1);
      if |query| == 1 then pair else pair + "&" + QueryString(query[1..])
  }

  /** A query with at least one pair serializes to a non-empty string. */
  lemma QueryStringEmptyIff(query: seq<(string, string)>)
    ensures QueryString(query) == "" <==> query == []
  {
  }

  /** The endpoint `getProdutos` requests: `?<query>` only when the query is not empty. */
  function ProdutosEndpoint(query: seq<(string, string)>): string {
    var qs := QueryString(query);
    ProdutosPath + (if qs != "" then "?" + qs else "")
  }

  /** The list endpoint carries a query exactly when a search term or the
      availability filter was given. */
  lemma ProdutosEndpointHasQueryIff(params: ProdutosParams, query: seq<(string, string)>)
    requires ("somenteDisponiveis", "1") in query <==> params.somenteDisponiveis
    requires forall v :: ("q", v) in query <==> Truthy(params.q) && v == params.q.value
    requires forall p :: p in query ==> p.0 == "q" || p == ("somenteDisponiveis", "1")
    ensures ProdutosEndpoint(query) != ProdutosPath <==> Truthy(params.q) || params.somenteDisponiveis
  {
    QueryStringEmptyIff(query);
    if query != [] {
      assert query[0] in query;
      assert |ProdutosEndpoint(query)| > |ProdutosPath|;
    } else if params.q.Some? {
      assert ("q", params.q.value) !in query;
    }
  }

  /** The endpoint of `updateProduto` and `deleteProduto`: the id goes in the
      `_id` query parameter, as written (not encoded). */
  function ProdutoEndpoint(id: string): string {
    ProdutosPath + "?_id=" + id
  }

  /** The id can be read back from the endpoint after `?_id=`, so two
      different ids never address the same product. */
  lemma ProdutoEndpointIdentifies(a: string, b: string)
    ensures ProdutoEndpoint(a)[|ProdutosPath| + 5..] == a
    ensures ProdutoEndpoint(a) == ProdutoEndpoint(b) <==> a == b
  {
    if ProdutoEndpoint(a) == ProdutoEndpoint(b) {
      calc {
        a;
        ProdutoEndpoint(a)[|ProdutosPath| + 5..];
        ProdutoEndpoint(b)[|ProdutosPath| + 5..];
        b;
      }
    }
  }

  // ----------------------------------------------- the exported calls

  function GetProdutos(query: seq<(string, string)>): Request {
    Request("GET", ProdutosEndpoint(query), NoBody, None)
  }

  function CreateProduto(form: seq<FormEntry>, token: Option<string>): Request {
    Request("POST", ProdutosPath, FormBody(form), token)
  }

  function UpdateProduto(id: string, form: seq<FormEntry>, token: Option<string>): Request {
    Request("PUT", ProdutoEndpoint(id), FormBody(form), token)
  }

  function DeleteProduto(id: string, token: Option<string>): Request {
    Request("DELETE", ProdutoEndpoint(id), NoBody, token)
  }

  function RegisterUser(form: seq<FormEntry>): Request {
    Request("POST", "/api/auth/register", FormBody(form), None)
  }

  function LoginUser(email: string, senha: string): Request {
    Request("POST", "/api/auth/login", JsonBody(map["email" := JStr(email), "senha" := JStr(senha)]), None)
  }

  function ResetPassword(email: string, token: string, novaSenha: string): Request {
    Request("POST", "/api/auth/reset-password",
      JsonBody(map["email" := JStr(email), "token" := JStr(token), "novaSenha" := JStr(novaSenha)]), None)
  }

  function GetUsuario(token: Option<string>): Request {
    Request("GET", "/api/usuario/usuario", NoBody, token)
  }

  function UpdateUsuario(form: seq<FormEntry>, token: Option<string>): Request {
    Request("PUT", "/api/usuario/usuario", FormBody(form), token)
  }

  /** The product writes address the same resource as the product list, and
      only an update sends a body. */
  lemma ProductWritesShareThePath(id: string, form: seq<FormEntry>, token: Option<string>)
    ensures UpdateProduto(id, form, token).endpoint == DeleteProduto(id, token).endpoint
    ensures GetProdutos([]).endpoint == CreateProduto(form, token).endpoint == ProdutosPath
    ensures UpdateProduto(id, form, token).endpoint[..|ProdutosPath|] == ProdutosPath
    ensures DeleteProduto(id, token).body == NoBody
  {
  }
}
