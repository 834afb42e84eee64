/**
 * The serverless endpoint that checks whether an e-mail address is
 * deliverable. It checks the method, decodes a string body, requires an
 * `email` property and the API key, asks the verification service, and maps
 * the reported deliverability to a verdict.
 */
module EmailHandler {
  import opened Base
  import opened Json

  /** An incoming request: its HTTP method and its body, `None` when undefined. */
  datatype Request = Request(verb: string, body: Option<Json>)

  /** What the call to the verification service produced. */
  datatype Verification =
    | ServiceNotOk(status: int)  // a non-success status
    | ServiceAnswered(deliverability: Option<string>)  // the `deliverability` property of its JSON answer
    | ServiceThrew(message: string)  // the request or the decoding of its answer threw

  /** The verdict sent back for an address. */
  datatype Report = Report(email: Json, verified: bool, status: string, statusDetail: string)

  /** Every way a request can end. */
  datatype Outcome =
    | MethodNotAllowed
    | InvalidJsonBody
    | EmailRequired
    | KeyNotConfigured
    | ServiceError(status: int)
    | Checked(report: Report)
    | CheckFailed(report: Report)

  function StatusOf(o: Outcome): int {
    match o
    case MethodNotAllowed => 405
    case InvalidJsonBody => 400
    case EmailRequired => 400
    case KeyNotConfigured => 500
    case ServiceError(status) => status
    case Checked(_) => 200
    case CheckFailed(_) => 500
  }

  const Deliverable: string := "DELIVERABLE"
  const SafeDetail: string := "Email address is safe to send to"
  const DetailPrefix: string := "Email deliverability: "
  const KeyVariable: string := "ABSTRACT_EMAIL_API_KEY"

  /** The body after decoding: a string body is parsed, a parse failure is
      reported as `Failure`, any other body is taken as it is. */
  function DecodeBody(body: Option<Json>, parse: string -> Result<Json, string>): (r: Result<Option<Json>, string>)
    ensures r.Failure? <==> body.Some? && body.value.JStr? && parse(body.value.s).Failure?
    ensures r.Success? && body.Some? && body.value.JStr? ==> r.value == Some(parse(body.value.s).value)
    ensures !(body.Some? && body.value.JStr?) ==> r == Success(body)
  {
    match body
    case Some(JStr(s)) =>
      (match parse(s)
       case Failure(e) => Failure(e)
       case Success(v) => Success(Some(v)))
    case _ => Success(body)
  }

  /** `const { email } = body || {}`: a falsy body reads as an empty object,
      and only an object can hold the property. */
  function EmailOf(body: Option<Json>): (r: Option<Json>)
    ensures r.Some? <==> Truthy(body) && body.value.JObj? && "email" in body.value.fields
    ensures r.Some? ==> r.value == body.value.fields["email"]
  {
    if Truthy(body) then Get(body.value, "email") else None
  }

  /** The verdict for a reported deliverability. */
  function Assess(email: Json, deliverability: Option<string>): (r: Report)
    ensures r.email == email
    ensures r.verified <==> deliverability == Some(Deliverable)
    ensures r.status == if Present(deliverability) then deliverability.value else "UNKNOWN"
  {
    var verified := deliverability == Some(Deliverable);
    var status := if Present(deliverability) then deliverability.value else "UNKNOWN";
    Report(email, verified, status, if verified then SafeDetail else DetailPrefix + status)
  }

  /** The verdict is positive exactly when the status reads "DELIVERABLE";
      the status is never empty, and the detail is either the fixed safe
      message or names the status after a fixed prefix. */
  lemma AssessConsistent(email: Json, deliverability: Option<string>)
    ensures var r := Assess(email, deliverability);
      && (r.verified <==> r.status == Deliverable)
      && r.status != ""
      && (r.verified ==> r.statusDetail == SafeDetail)
      && (!r.verified ==> r.statusDetail[..|DetailPrefix|] == DetailPrefix
                          && r.statusDetail[|DetailPrefix|..] == r.status)
  {
    var r := Assess(email, deliverability);
    if !r.verified {
      assert r.statusDetail == DetailPrefix + r.status;
    }
  }

  predicate Posted(req: Request) {
    req.verb == "POST"
  }

  /** The handler: method, then body decoding, then the `email` property,
      then the key, then the service, which receives the key and the
      address. */
  function Handle(req: Request, env: map<string, string>,
                  verify: (string, Json) -> Verification,
                  parse: string -> Result<Json, string>): (o: Outcome)
    ensures !Posted(req) ==> o == MethodNotAllowed
    ensures o == InvalidJsonBody <==> Posted(req) && DecodeBody(req.body, parse).Failure?
    ensures o == EmailRequired <==>
      Posted(req) && DecodeBody(req.body, parse).Success? && !Truthy(EmailOf(DecodeBody(req.body, parse).value))
    ensures o == KeyNotConfigured <==>
      Posted(req) && DecodeBody(req.body, parse).Success? && Truthy(EmailOf(DecodeBody(req.body, parse).value))
      && !Present(Lookup(env, KeyVariable))
    ensures o.Checked? || o.CheckFailed? ==> o.report.email == EmailOf(DecodeBody(req.body, parse).value).value
    ensures o.CheckFailed? ==> !o.report.verified && o.report.status == "ERROR"
    ensures Validated(req, env, parse) ==>
      var e := EmailOf(DecodeBody(req.body, parse).value).value;
      var v := verify(Lookup(env, KeyVariable).value, e);
      && (v.ServiceAnswered? ==> o == Checked(Assess(e, v.deliverability)))
      && (v.ServiceThrew? ==> o == CheckFailed(Report(e, false, "ERROR", v.message)))
      && (v.ServiceNotOk? ==> o == ServiceError(v.status))
  {
    if !Posted(req) then MethodNotAllowed
    else
      match DecodeBody(req.body, parse)
      case Failure(_) => InvalidJsonBody
      case Success(body) =>
        var email := EmailOf(body);
        if !Truthy(email) then EmailRequired
        else
          var key := Lookup(env, KeyVariable);
          if !Present(key) then KeyNotConfigured
          else
            match verify(key.value, email.value)
            case ServiceNotOk(status) => ServiceError(status)
            case ServiceThrew(message) => CheckFailed(Report(email.value, false, "ERROR", message))
            case ServiceAnswered(d) => Checked(Assess(email.value, d))
  }

  /** Everything checked before the service is called. */
  predicate Validated(req: Request, env: map<string, string>, parse: string -> Result<Json, string>) {
    && Posted(req)
    && DecodeBody(req.body, parse).Success?
    && Truthy(EmailOf(DecodeBody(req.body, parse).value))
    && Present(Lookup(env, KeyVariable))
  }

  /** A request that fails validation is answered without the service. */
  lemma RejectedWithoutService(req: Request, env: map<string, string>,
                               v1: (string, Json) -> Verification, v2: (string, Json) -> Verification,
                               parse: string -> Result<Json, string>)
    requires !Validated(req, env, parse)
    ensures Handle(req, env, v1, parse) == Handle(req, env, v2, parse)
    ensures StatusOf(Handle(req, env, v1, parse)) in {400, 405, 500}
  {
  }

  /** A failure of the service is reported with the service's own status. */
  lemma ServiceStatusPassedOn(req: Request, env: map<string, string>,
                              verify: (string, Json) -> Verification,
                              parse: string -> Result<Json, string>, status: int)
    requires Validated(req, env, parse)
    requires verify(Lookup(env, KeyVariable).value,
                    EmailOf(DecodeBody(req.body, parse).value).value) == ServiceNotOk(status)
    ensures StatusOf(Handle(req, env, verify, parse)) == status
  {
  }

  /** When the service answers, the request succeeds and the address is
      reported verified exactly when the service called it deliverable. */
  lemma VerdictFollowsService(req: Request, env: map<string, string>,
                              verify: (string, Json) -> Verification,
                              parse: string -> Result<Json, string>)
    ensures var o := Handle(req, env, verify, parse);
      Validated(req, env, parse) ==>
        var v := verify(Lookup(env, KeyVariable).value, EmailOf(DecodeBody(req.body, parse).value).value);
        v.ServiceAnswered? ==>
          && StatusOf(o) == 200
          && (Get(BodyOf(o), "verified") == Some(JBool(true)) <==> v.deliverability == Some(Deliverable))
  {
  }

  /** The JSON body sent back. */
  function BodyOf(o: Outcome): (r: Json)
    ensures r.JObj?
    ensures o.Checked? ==> "error" !in r.fields && Get(r, "verified") == Some(JBool(o.report.verified))
    ensures !o.Checked? ==> "error" in r.fields
    ensures o.Checked? || o.CheckFailed? ==>
      Get(r, "email") == Some(o.report.email) && Get(r, "statusDetail") == Some(JStr(o.report.statusDetail))
    ensures o.Checked? ==> Get(r, "status") == Some(JStr(o.report.status))
    ensures o.CheckFailed? ==> Get(r, "status") == Some(JStr("ERROR")) && Get(r, "verified") == Some(JBool(false))
  {
    match o
    case MethodNotAllowed => JObj(map["error" := JStr("Method not allowed")])
    case InvalidJsonBody => JObj(map["error" := JStr("Invalid JSON body")])
    case EmailRequired => JObj(map["error" := JStr("email is required")])
    case KeyNotConfigured => JObj(map["error" := JStr("Email verification API key not configured")])
    case ServiceError(_) => JObj(map["error" := JStr("Email verification API error")])
    case Checked(r) =>
      JObj(map["email" := r.email, "verified" := JBool(r.verified),
               "status" := JStr(r.status), "statusDetail" := JStr(r.statusDetail)])
    case CheckFailed(r) =>
      JObj(map["error" := JStr("Failed to verify email"), "email" := r.email,
               "verified" := JBool(false), "status" := JStr("ERROR"), "statusDetail" := JStr(r.statusDetail)])
  }
}
