/**
 * The business-profile record every other part of the system reads or
 * writes. The closed string unions of the declarations become enumerations,
 * each with its exact wire spelling and the partial inverse that recognises
 * it; optional properties become `Option`s; `number` becomes `real`.
 */
module Schema {
  import opened Base

  datatype Owner = Owner(firstName: string, lastName: string)

  /** The department a decision maker belongs to. */
  datatype Area = Finanzas | Operaciones | Tecnologia | Propiedad | Otros

  /** How sure the research is about a contact. */
  datatype Confidence = Alto | Medio | Bajo

  /** Whether an address or channel was published or inferred. */
  datatype Provenance = Publico | Inferido

  /** The likelihood that a message to an address bounces. */
  datatype BounceRisk = RiskLow | RiskMedium | RiskHigh

  /** How well the business fits the product. */
  datatype FitLabel = MuyAlta | Alta | Media | Baja

  datatype StrategicContact = StrategicContact(
    name: string,
    role: string,
    area: Area,
    relevance: string,
    validity: string,
    confidence: Confidence,
    source: string,
    secondarySource: Option<string>)

  datatype SuggestedEmail = SuggestedEmail(
    email: string, status: Provenance, source: string, bounceRisk: BounceRisk)

  datatype ContactChannel = ContactChannel(
    kind: string, data: string, status: Provenance, source: string)

  datatype LegalInfo = LegalInfo(legalName: string, owners: seq<string>)

  datatype DirectContacts = DirectContacts(email: string, phone: string)

  datatype SocialProfile = SocialProfile(platform: string, url: string, handle: string)

  datatype TechStack = TechStack(category: string, provider: string)

  datatype OperationalInfo = OperationalInfo(
    menuType: string,
    orderingSystem: string,
    paymentMethods: seq<string>,
    digitalMenuUrl: Option<string>)

  datatype SwotAnalysis = SwotAnalysis(
    strengths: seq<string>,
    weaknesses: seq<string>,
    opportunities: seq<string>,
    threats: seq<string>)

  datatype Competitor = Competitor(name: string, advantage: string)

  /** The fit assessment. `fitScore` is any number: nothing enforces the
      0-100 range the prompt asks for. */
  datatype HoneiAnalysis = HoneiAnalysis(
    fitScore: real,
    fitLabel: FitLabel,
    reasoning: string,
    matchedFeatures: seq<string>,
    executiveSummary: string)

  datatype OsintNotes = OsintNotes(unverified: string, verificationSteps: string)

  /** A citation taken from the search backend's grounding metadata. */
  datatype Source = Source(uri: string, title: string)

  datatype BusinessProfile = BusinessProfile(
    businessName: string,
    city: string,
    fullAddress: string,
    owners: seq<Owner>,
    strategicContacts: seq<StrategicContact>,
    legalInfo: LegalInfo,
    directContacts: DirectContacts,
    emailDomain: string,
    suggestedEmails: seq<SuggestedEmail>,
    contactChannels: seq<ContactChannel>,
    businessSummary: string,
    techStack: seq<TechStack>,
    operationalInfo: OperationalInfo,
    painPoints: seq<string>,
    socialMedia: seq<SocialProfile>,
    iceBreaker: string,
    swot: SwotAnalysis,
    competitors: seq<Competitor>,
    estimatedVolume: string,
    honeiAnalysis: HoneiAnalysis,
    osintNotes: OsintNotes,
    googleSearchSources: seq<Source>)

  const AreaNames: set<string> :=
    {"Finanzas", "Operaciones", "Tecnología", "Propiedad", "Otros"}

  function AreaText(a: Area): (s: string)
    ensures s in AreaNames
  {
    match a
    case Finanzas => "Finanzas"
    case Operaciones => "Operaciones"
    case Tecnologia => "Tecnología"
    case Propiedad => "Propiedad"
    case Otros => "Otros"
  }

  /** Recognises an area spelling: exactly the five names are accepted, and
      the area found is the one spelled that way. */
  function ParseArea(s: string): (r: Option<Area>)
    ensures r.Some? <==> s in AreaNames
    ensures r.Some? ==> AreaText(r.value) == s
    ensures forall a :: AreaText(a) == s ==> r == Some(a)
  {
    if s == "Finanzas" then Some(Finanzas)
    else if s == "Operaciones" then Some(Operaciones)
    else if s == "Tecnología" then Some(Tecnologia)
    else if s == "Propiedad" then Some(Propiedad)
    else if s == "Otros" then Some(Otros)
    else None
  }

  const ConfidenceNames: set<string> := {"Alto", "Medio", "Bajo"}

  function ConfidenceText(c: Confidence): (s: string)
    ensures s in ConfidenceNames
  {
    match c
    case Alto => "Alto"
    case Medio => "Medio"
    case Bajo => "Bajo"
  }

  function ParseConfidence(s: string): (r: Option<Confidence>)
    ensures r.Some? <==> s in ConfidenceNames
    ensures r.Some? ==> ConfidenceText(r.value) == s
    ensures forall c :: ConfidenceText(c) == s ==> r == Some(c)
  {
    if s == "Alto" then Some(Alto)
    else if s == "Medio" then Some(Medio)
    else if s == "Bajo" then Some(Bajo)
    else None
  }

  const ProvenanceNames: set<string> := {"Público", "Inferido"}

  function ProvenanceText(p: Provenance): (s: string)
    ensures s in ProvenanceNames
  {
    match p
    case Publico => "Público"
    case Inferido => "Inferido"
  }

  function ParseProvenance(s: string): (r: Option<Provenance>)
    ensures r.Some? <==> s in ProvenanceNames
    ensures r.Some? ==> ProvenanceText(r.value) == s
    ensures forall p :: ProvenanceText(p) == s ==> r == Some(p)
  {
    if s == "Público" then Some(Publico)
    else if s == "Inferido" then Some(Inferido)
    else None
  }

  const BounceRiskNames: set<string> := {"Bajo", "Medio", "Alto"}

  function BounceRiskText(b: BounceRisk): (s: string)
    ensures s in BounceRiskNames
  {
    match b
    case RiskLow => "Bajo"
    case RiskMedium => "Medio"
    case RiskHigh => "Alto"
  }

  function ParseBounceRisk(s: string): (r: Option<BounceRisk>)
    ensures r.Some? <==> s in BounceRiskNames
    ensures r.Some? ==> BounceRiskText(r.value) == s
    ensures forall b :: BounceRiskText(b) == s ==> r == Some(b)
  {
    if s == "Bajo" then Some(RiskLow)
    else if s == "Medio" then Some(RiskMedium)
    else if s == "Alto" then Some(RiskHigh)
    else None
  }

  const FitLabelNames: set<string> := {"Muy Alta", "Alta", "Media", "Baja"}

  function FitLabelText(l: FitLabel): (s: string)
    ensures s in FitLabelNames
  {
    match l
    case MuyAlta => "Muy Alta"
    case Alta => "Alta"
    case Media => "Media"
    case Baja => "Baja"
  }

  function ParseFitLabel(s: string): (r: Option<FitLabel>)
    ensures r.Some? <==> s in FitLabelNames
    ensures r.Some? ==> FitLabelText(r.value) == s
    ensures forall l :: FitLabelText(l) == s ==> r == Some(l)
  {
    if s == "Muy Alta" then Some(MuyAlta)
    else if s == "Alta" then Some(Alta)
    else if s == "Media" then Some(Media)
    else if s == "Baja" then Some(Baja)
    else None
  }

  /** Distinct enumerators have distinct spellings, so every enumerated field
      survives being written out and read back. */
  lemma SpellingsRoundTrip(a: Area, c: Confidence, p: Provenance, b: BounceRisk, l: FitLabel)
    ensures ParseArea(AreaText(a)) == Some(a)
    ensures ParseConfidence(ConfidenceText(c)) == Some(c)
    ensures ParseProvenance(ProvenanceText(p)) == Some(p)
    ensures ParseBounceRisk(BounceRiskText(b)) == Some(b)
    ensures ParseFitLabel(FitLabelText(l)) == Some(l)
  {
  }

  /** The identity under which the history keeps at most one profile: the
      exact business name and city. */
  predicate SameTarget(p: BusinessProfile, q: BusinessProfile) {
    p.businessName == q.businessName && p.city == q.city
  }
}
