/**
 * The serverless endpoint that researches one business. It checks the
 * method, then the two required fields, then the API key, and only then
 * calls the generative backend; the backend's answer is cut down to a JSON
 * object that receives the grounding citations.
 */
module ProfileHandler {
  import opened Base
  import opened Json
  import opened Text
  import opened Extraction

  /** An incoming request: its HTTP method and its body, `None` when undefined. */
  datatype Request = Request(verb: string, body: Option<Json>)

  /** What the call to the generative backend produced. */
  datatype Upstream =
    | NotOk(status: int, details: Json)  // a non-success status and its JSON error body
    | Answered(text: Option<string>, chunks: Option<seq<Chunk>>)  // first candidate's first text part and grounding chunks
    | Threw(message: string)  // the request or the decoding of its body threw

  /** Every way a request can end. */
  datatype Outcome =
    | MethodNotAllowed
    | Crashed  // destructuring an undefined or null body throws before any check
    | FieldsRequired
    | KeyNotConfigured
    | UpstreamFailed(status: int, details: Json)
    | NoText
    | InvalidFormat
    | GenerationFailed(message: Option<string>)  // `None`: a TypeError worded by the engine
    | Profile(value: Json)

  /** The HTTP status each outcome is answered with; a crash surfaces as the
      platform's own 500. */
  function StatusOf(o: Outcome): int {
    match o
    case MethodNotAllowed => 405
    case Crashed => 500
    case FieldsRequired => 400
    case KeyNotConfigured => 500
    case UpstreamFailed(status, _) => status
    case NoText => 500
    case InvalidFormat => 500
    case GenerationFailed(_) => 500
    case Profile(_) => 200
  }

  const ErrorKey: string := "error"

  function ErrorBody(message: string): Json {
    JObj(map[ErrorKey := JStr(message)])
  }

  /** The JSON body sent back: the profile itself on success, otherwise an
      object whose `error` property names the failure; a crash sends no body
      of the handler's own. */
  function BodyOf(o: Outcome): (r: Option<Json>)
    ensures r.None? <==> o.Crashed?
    ensures o.Profile? ==> r == Some(o.value)
    ensures !o.Profile? && !o.Crashed? ==> r.Some? && Get(r.value, ErrorKey).Some?
    ensures o.UpstreamFailed? ==> Get(r.value, "details") == Some(o.details)
    ensures o.GenerationFailed? && o.message.Some? ==> Get(r.value, "message") == Some(JStr(o.message.value))
  {
    match o
    case MethodNotAllowed => Some(ErrorBody("Method not allowed"))
    case Crashed => None
    case FieldsRequired => Some(ErrorBody("businessName and city are required"))
    case KeyNotConfigured => Some(ErrorBody("API key not configured"))
    case UpstreamFailed(_, details) =>
      Some(JObj(map[ErrorKey := JStr("Gemini API error"), "details" := details]))
    case NoText => Some(ErrorBody("No text in response"))
    case InvalidFormat => Some(ErrorBody("Invalid JSON format in response"))
    case GenerationFailed(None) => Some(ErrorBody("Failed to generate business profile"))
    case GenerationFailed(Some(m)) =>
      Some(JObj(map[ErrorKey := JStr("Failed to generate business profile"), "message" := JStr(m)]))
    case Profile(v) => Some(v)
  }

  /** `GEMINI_API_KEY || API_KEY`: the first variable that is set and not
      empty. */
  function ApiKey(env: map<string, string>): (r: Option<string>)
    ensures r.Some? <==> Present(Lookup(env, "GEMINI_API_KEY")) || Present(Lookup(env, "API_KEY"))
    ensures Present(Lookup(env, "GEMINI_API_KEY")) ==> r == Lookup(env, "GEMINI_API_KEY")
    ensures !Present(Lookup(env, "GEMINI_API_KEY")) ==> r.None? || r == Lookup(env, "API_KEY")
    ensures r.Some? ==> r.value != ""
  {
    var gemini := Lookup(env, "GEMINI_API_KEY");
    if Present(gemini) then gemini
    else
      var plain := Lookup(env, "API_KEY");
      if Present(plain) then plain else None
  }

  predicate Posted(req: Request) {
    req.verb == "POST"
  }

  /** `undefined` or `null`: the bodies that cannot be destructured. */
  predicate Nullish(body: Option<Json>) {
    body.None? || body.value.JNull?
  }

  /** Both required properties are present and truthy. */
  predicate HasFields(req: Request) {
    !Nullish(req.body)
    && Truthy(Get(req.body.value, "businessName"))
    && Truthy(Get(req.body.value, "city"))
  }

  /** Everything checked before the backend is called. */
  predicate Validated(req: Request, env: map<string, string>) {
    Posted(req) && HasFields(req) && ApiKey(env).Some?
  }

  /** What the handler makes of the backend's reply. */
  function Respond(reply: Upstream, parse: string -> Result<Json, string>): (o: Outcome)
    ensures reply.NotOk? ==> o == UpstreamFailed(reply.status, reply.details)
    ensures reply.Threw? ==> o == GenerationFailed(Some(reply.message))
    ensures reply.Answered? ==> (o == NoText <==> !Present(reply.text))
    ensures reply.Answered? && Present(reply.text) ==>
      (o == InvalidFormat <==> '{' !in reply.text.value || '}' !in reply.text.value)
    ensures o.Profile? <==>
      reply.Answered? && Present(reply.text) && ReadProfile(reply.text.value, reply.chunks, parse).Success?
    ensures o.Profile? ==> o.value == ReadProfile(reply.text.value, reply.chunks, parse).value
    ensures reply.Answered? && Present(reply.text) ==>
      var read := ReadProfile(reply.text.value, reply.chunks, parse);
      read.Failure? && read.error.ParseError? ==> o == GenerationFailed(Some(read.error.message))
    ensures (reply.Answered? && Present(reply.text)
             && ReadProfile(reply.text.value, reply.chunks, parse) == Failure(NotAnObject))
      ==> o == GenerationFailed(None)
  {
    match reply
    case NotOk(status, details) => UpstreamFailed(status, details)
    case Threw(message) => GenerationFailed(Some(message))
    case Answered(text, chunks) =>
      if !Present(text) then NoText
      else
        match ReadProfile(text.value, chunks, parse)
        case Success(v) => Profile(v)
        case Failure(MissingBrace) => InvalidFormat
        case Failure(ParseError(m)) => GenerationFailed(Some(m))
        case Failure(NotAnObject) => GenerationFailed(None)
  }

  /** The handler: method, then the required fields, then the key, then
      the backend, which receives the key and the two field values. The
      backend stands for the whole request: it builds the question from the
      two values, which is `Prompt(name, city)` when both are strings; other
      values reach the question through JavaScript's string conversion,
      which the model does not spell out, so the backend gets them raw. */
  function Handle(req: Request, env: map<string, string>,
                  upstream: (string, Json, Json) -> Upstream,
                  parse: string -> Result<Json, string>): (o: Outcome)
    ensures !Posted(req) ==> o == MethodNotAllowed
    ensures o == Crashed <==> Posted(req) && Nullish(req.body)
    ensures o == FieldsRequired <==> Posted(req) && !Nullish(req.body) && !HasFields(req)
    ensures o == KeyNotConfigured <==> Posted(req) && HasFields(req) && ApiKey(env).None?
    ensures Validated(req, env) ==>
      o == Respond(upstream(ApiKey(env).value,
                            Get(req.body.value, "businessName").value,
                            Get(req.body.value, "city").value), parse)
  {
    if !Posted(req) then MethodNotAllowed
    else if Nullish(req.body) then Crashed
    else
      var name := Get(req.body.value, "businessName");
      var city := Get(req.body.value, "city");
      if !Truthy(name) || !Truthy(city) then FieldsRequired
      else
        match ApiKey(env)
        case None => KeyNotConfigured
        case Some(key) => Respond(upstream(key, name.value, city.value), parse)
  }

  /** A request that fails validation is answered without the backend: the
      outcome does not depend on the backend or on the parser. */
  lemma RejectedWithoutBackend(req: Request, env: map<string, string>,
                               up1: (string, Json, Json) -> Upstream, up2: (string, Json, Json) -> Upstream,
                               p1: string -> Result<Json, string>, p2: string -> Result<Json, string>)
    requires !Validated(req, env)
    ensures Handle(req, env, up1, p1) == Handle(req, env, up2, p2)
    ensures StatusOf(Handle(req, env, up1, p1)) in {400, 405, 500}
  {
  }

  /** An answer without text ends in "No text in response" and nothing is
      parsed: the parser cannot influence the outcome. */
  lemma NoTextIgnoresParser(chunks: Option<seq<Chunk>>, text: Option<string>,
                            p1: string -> Result<Json, string>, p2: string -> Result<Json, string>)
    requires !Present(text)
    ensures Respond(Answered(text, chunks), p1) == NoText
    ensures Respond(Answered(text, chunks), p1) == Respond(Answered(text, chunks), p2)
  {
  }

  /** A successful object reply carries exactly the grounding citations,
      whatever citations the backend wrote into the object itself. */
  lemma ProfileCarriesCitations(reply: Upstream, parse: string -> Result<Json, string>)
    ensures var o := Respond(reply, parse);
      o.Profile? && o.value.JObj? ==>
        reply.Answered? && Get(o.value, SourcesKey) == Some(SourcesJson(GroundingSources(reply.chunks)))
  {
  }

  const PromptHead: string := "Realiza una investigación OSINT exhaustiva de:\n- Negocio: "
  const PromptMiddle: string := "\n- Ciudad: "
  const PromptPlan: string :=
    "\n\nBúsquedas obligatorias:\n"
    + "1. Detalles operativos: ¿Qué tipo de comida sirven? ¿Tienen terraza? ¿Aceptan reservas (TheFork, web propia)? ¿Aceptan American Express (verificar en web o reseñas)?\n"
    + "2. Decision Makers: CFO, Gerente, Propietario.\n"
    + "3. Herramientas: ¿Qué TPV usan? ¿Qué software de gestión se menciona en ofertas de empleo o artículos técnicos?"

  /** The question put to the backend when both fields are strings, as the
      backend of `Handle` builds it from the values it receives. */
  function Prompt(name: string, city: string): (r: string)
    ensures Contains(r, name) && Contains(r, city)
  {
    ContainsBoth(PromptHead, name, PromptMiddle, city, PromptPlan);
    PromptHead + name + PromptMiddle + city + PromptPlan
  }
}
