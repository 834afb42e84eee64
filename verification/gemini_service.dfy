/**
 * The browser-side profile service. Loading it requires `API_KEY`; each
 * research request asks the generative backend once, cuts the JSON object
 * out of its text exactly as the serverless handler does, and replaces every
 * failure by one fixed message.
 */
module GeminiService {
  import opened Base
  import opened Json
  import opened Text
  import opened Extraction
  import ProfileHandler

  const MissingKey: string := "API_KEY environment variable not set"

  /** The one message every failed research request ends with. */
  const ResearchFailed: string :=
    "La investigación OSINT ha fallado o no ha devuelto un formato válido. Reintente."

  /** A configured backend client. */
  datatype Client = Client(apiKey: string)

  /** Loading the module: it throws unless `API_KEY` is set and not empty. */
  function LoadClient(env: map<string, string>): (r: Result<Client, string>)
    ensures r.Failure? <==> !Present(Lookup(env, "API_KEY"))
    ensures r.Failure? ==> r.error == MissingKey
    ensures r.Success? ==> Lookup(env, "API_KEY") == Some(r.value.apiKey)
  {
    var key := Lookup(env, "API_KEY");
    if Present(key) then Success(Client(key.value)) else Failure(MissingKey)
  }

  /** What the backend call produced: the response's text (absent when it
      has none) and its grounding chunks, or the exception it threw. */
  datatype Generated =
    | Generated(text: Option<string>, chunks: Option<seq<Chunk>>)
    | GenerateThrew(message: string)

  const PromptHead: string := "Realiza una investigación OSINT exhaustiva de:\n- Negocio: "
  const PromptMiddle: string := "\n- Ciudad: "
  const PromptSearches: string := "\n\nBúsquedas obligatorias:\n1. \"Aviso legal "

  const PromptPrivacy: string := "\" o \"Política privacidad "
  const PromptCfo: string := "\" para datos fiscales y emails de administración.\n2. \"CFO "
  const PromptDirector: string := "\", \"Director Financiero "
  const PromptManager: string := "\", \"Gerente "
  const PromptRest: string :=
    "\" en LinkedIn y prensa.\n3. Patrones de email en sitios como \"RocketReach\", \"Hunter\" o menciones públicas.\n"
    + "4. \"Honei Terminal\" vs TPV actual: Identifica el TPV si es posible."

  /** The numbered searches, which name the business five more times. */
  function SearchPlan(name: string): string {
    PromptSearches + name + PromptPrivacy + name + PromptCfo + name
      + PromptDirector + name + PromptManager + name + PromptRest
  }

  /** The question put to the backend. */
  function UserPrompt(name: string, city: string): (r: string)
    ensures Contains(r, name) && Contains(r, city)
  {
    ContainsBoth(PromptHead, name, PromptMiddle, city, SearchPlan(name));
    PromptHead + name + PromptMiddle + city + SearchPlan(name)
  }

  /** What the service makes of the backend's reply: a missing text,
      missing braces, a parse failure, a value that cannot take the citation
      list and a backend exception all end in the same message. */
  function Interpret(g: Generated, parse: string -> Result<Json, string>): (r: Result<Json, string>)
    ensures r.Failure? ==> r.error == ResearchFailed
    ensures r.Success? <==> g.Generated? && g.text.Some? && ReadProfile(g.text.value, g.chunks, parse).Success?
    ensures r.Success? ==> r.value == ReadProfile(g.text.value, g.chunks, parse).value
  {
    match g
    case GenerateThrew(_) => Failure(ResearchFailed)
    case Generated(None, _) => Failure(ResearchFailed)
    case Generated(Some(text), chunks) =>
      match ReadProfile(text, chunks, parse)
      case Success(v) => Success(v)
      case Failure(_) => Failure(ResearchFailed)
  }

  /** One research request: the backend receives the key and the prompt. */
  function FetchBusinessProfile(client: Client, name: string, city: string,
                                generate: (string, string) -> Generated,
                                parse: string -> Result<Json, string>): (r: Result<Json, string>)
    ensures r.Failure? ==> r.error == ResearchFailed
  {
    Interpret(generate(client.apiKey, UserPrompt(name, city)), parse)
  }

  /** Loading and one request together. */
  function Research(env: map<string, string>, name: string, city: string,
                    generate: (string, string) -> Generated,
                    parse: string -> Result<Json, string>): (r: Result<Json, string>)
    ensures r.Failure? ==> r.error in {MissingKey, ResearchFailed}
  {
    match LoadClient(env)
    case Failure(e) => Failure(e)
    case Success(client) => FetchBusinessProfile(client, name, city, generate, parse)
  }

  /** Without a key nothing reaches the backend: the outcome is the load
      error whatever the backend or the parser would do. */
  lemma MissingKeyBeforeRequest(env: map<string, string>, name: string, city: string,
                                g1: (string, string) -> Generated, g2: (string, string) -> Generated,
                                p1: string -> Result<Json, string>, p2: string -> Result<Json, string>)
    requires !Present(Lookup(env, "API_KEY"))
    ensures Research(env, name, city, g1, p1) == Failure(MissingKey)
    ensures Research(env, name, city, g1, p1) == Research(env, name, city, g2, p2)
  {
  }

  /** An answer without both braces fails with the fixed message. */
  lemma MissingBraceFails(text: string, chunks: Option<seq<Chunk>>, parse: string -> Result<Json, string>)
    requires '{' !in text || '}' !in text
    ensures Interpret(Generated(Some(text), chunks), parse) == Failure(ResearchFailed)
  {
  }

  /** A request sends the service's prompt with the client's key, and it
      yields a profile exactly when the backend produced text from which a
      profile can be read: that profile, citations attached. */
  lemma ServiceReadsAnswer(client: Client, name: string, city: string,
                           generate: (string, string) -> Generated,
                           parse: string -> Result<Json, string>)
    ensures var g := generate(client.apiKey, UserPrompt(name, city));
      var r := FetchBusinessProfile(client, name, city, generate, parse);
      && (r.Success? <==> g.Generated? && g.text.Some? && ReadProfile(g.text.value, g.chunks, parse).Success?)
      && (r.Success? ==> r.value == ReadProfile(g.text.value, g.chunks, parse).value)
  {
    var g := generate(client.apiKey, UserPrompt(name, city));
    assert FetchBusinessProfile(client, name, city, generate, parse) == Interpret(g, parse);
  }

  /** The load error arises exactly when the key is missing; with a key, the
      research is one request through the client that holds it. */
  lemma KeyReachesBackend(env: map<string, string>, name: string, city: string,
                          generate: (string, string) -> Generated,
                          parse: string -> Result<Json, string>)
    ensures var r := Research(env, name, city, generate, parse);
      && (r == Failure(MissingKey) <==> !Present(Lookup(env, "API_KEY")))
      && (LoadClient(env).Success? ==>
            LoadClient(env).value.apiKey == Lookup(env, "API_KEY").value
            && r == FetchBusinessProfile(LoadClient(env).value, name, city, generate, parse))
  {
    var r := Research(env, name, city, generate, parse);
    if LoadClient(env).Success? {
      var client := LoadClient(env).value;
      assert r == FetchBusinessProfile(client, name, city, generate, parse);
      NotTheKeyError(r);
    }
  }

  /** The fixed research message is not the missing-key message. */
  lemma NotTheKeyError(r: Result<Json, string>)
    requires r.Failure? ==> r.error == ResearchFailed
    ensures r != Failure(MissingKey)
  {
    assert |MissingKey| < |ResearchFailed|;
  }

  /** The service and the serverless handler read every answer the
      same way: one yields a profile exactly when the other does, and it is
      the same profile. */
  lemma AgreesWithHandler(text: string, chunks: Option<seq<Chunk>>, parse: string -> Result<Json, string>)
    ensures Interpret(Generated(Some(text), chunks), parse).Success? <==>
      ProfileHandler.Respond(ProfileHandler.Answered(Some(text), chunks), parse).Profile?
    ensures Interpret(Generated(Some(text), chunks), parse).Success? ==>
      Interpret(Generated(Some(text), chunks), parse).value
        == ProfileHandler.Respond(ProfileHandler.Answered(Some(text), chunks), parse).value
  {
  }
}
