/**
 * The values the results screen derives from a profile before rendering:
 * the contact to address, the greeting name, the mail recipient, the fit
 * score and label, the highlighted features, the website link and the
 * research prompt for a second search engine. The profile comes from an
 * unchecked cast. The contact and suggested-address lists, the direct
 * contacts, the fit analysis, its raw label string, its matched features
 * and the grounding sources may be absent; each of these is an `Option`.
 * The fit score, an address and a source's uri are read behind a `||`
 * fallback as well, but are taken as present: an absent one is shown the
 * same as 0 or the empty string. A contact's name and area are read
 * without a guard and are taken as present.
 */
module ResultsDisplay {
  import opened Base
  import opened Json
  import opened Text
  import opened Schema
  import Extraction

  /** `xs || []`: an absent list reads as empty. */
  function OrEmpty<T>(xs: Option<seq<T>>): (r: seq<T>)
    ensures xs.Some? ==> r == xs.value
    ensures xs.None? ==> r == []
  {
    if xs.Some? then xs.value else []
  }

  /** The contact the outreach is addressed to: the first one in finance,
      else the first one, else none. */
  function PrimaryContact(contacts: Option<seq<StrategicContact>>): (r: Option<StrategicContact>)
    ensures r.None? <==> OrEmpty(contacts) == []
    ensures r.Some? ==> r.value in OrEmpty(contacts)
    ensures r.Some? && r.value.area != Finanzas ==>
      r.value == OrEmpty(contacts)[0] && forall k :: 0 <= k < |OrEmpty(contacts)| ==> OrEmpty(contacts)[k].area != Finanzas
    ensures r.Some? && r.value.area == Finanzas ==>
      exists k :: 0 <= k < |OrEmpty(contacts)| && OrEmpty(contacts)[k] == r.value
        && forall l :: 0 <= l < k ==> OrEmpty(contacts)[l].area != Finanzas
  {
    var cs := OrEmpty(contacts);
    match FirstInFinance(cs, 0)
    case Some(c) => Some(c)
    case None => if |cs| > 0 then Some(cs[0]) else None
  }

  /** `find(c => c.area === 'Finanzas')`, scanning from index `i`. */
  function FirstInFinance(cs: seq<StrategicContact>, i: nat): (r: Option<StrategicContact>)
    requires i <= |cs|
    ensures r.None? <==> forall k :: i <= k < |cs| ==> cs[k].area != Finanzas
    ensures r.Some? ==> r.value.area == Finanzas
    ensures r.Some? ==>
      exists k :: i <= k < |cs| && cs[k] == r.value && forall l :: i <= l < k ==> cs[l].area != Finanzas
    decreases |cs| - i
  {
    if i == |cs| then None
    else if cs[i].area == Finanzas then Some(cs[i])
    else FirstInFinance(cs, i + 1)
  }

  /** The name the mail greets: the primary contact's name up to its first
      space, or "Propiedad" without a contact. */
  function OwnerName(contact: Option<StrategicContact>): (r: string)
    ensures contact.None? ==> r == "Propiedad"
    ensures contact.Some? ==> r <= contact.value.name && ' ' !in r
    ensures contact.Some? && |r| < |contact.value.name| ==> contact.value.name[|r|] == ' '
  {
    match contact
    case None => "Propiedad"
    case Some(c) => SplitHead(c.name, ' ')
  }

  /** The first name of a contact named "first rest" is `first`. */
  lemma OwnerFirstWord(c: StrategicContact, first: string, rest: string)
    requires ' ' !in first
    requires c.name == first + " " + rest
    ensures OwnerName(Some(c)) == first
  {
    var name := c.name;
    assert name[|first|] == ' ';
    forall k | 0 <= k < |first|
      ensures name[k] != ' '
    {
      assert name[k] == first[k];
    }
    assert IndexOf(name, ' ') == |first|;
    assert name[..|first|] == first;
  }

  /** The recipient of the prepared mail: the direct address when it is
      not empty, else the first suggested address, else the empty string. */
  function MailRecipient(direct: Option<DirectContacts>, suggested: Option<seq<SuggestedEmail>>): (r: string)
    ensures direct.Some? && direct.value.email != "" ==> r == direct.value.email
    ensures !(direct.Some? && direct.value.email != "") ==>
      r == if OrEmpty(suggested) != [] then OrEmpty(suggested)[0].email else ""
  {
    if direct.Some? && direct.value.email != "" then direct.value.email
    else
      var emails := OrEmpty(suggested);
      if |emails| > 0 && emails[0].email != "" then emails[0].email else ""
  }

  /** A recipient is always one of the profile's addresses or empty. */
  lemma RecipientIsKnown(direct: Option<DirectContacts>, suggested: Option<seq<SuggestedEmail>>)
    ensures var r := MailRecipient(direct, suggested);
      r == "" || (direct.Some? && r == direct.value.email)
      || exists k :: 0 <= k < |OrEmpty(suggested)| && OrEmpty(suggested)[k].email == r
  {
    var r := MailRecipient(direct, suggested);
    if !(direct.Some? && direct.value.email != "") && OrEmpty(suggested) != [] {
      assert OrEmpty(suggested)[0].email == r;
    }
  }

  /** `fitScore || 0`: the score shown, and the width of the bar. */
  function FitScoreShown(analysis: Option<HoneiAnalysis>): (r: real)
    ensures analysis.None? ==> r == 0.0
    ensures analysis.Some? ==> r == analysis.value.fitScore
  {
    if analysis.Some? && analysis.value.fitScore != 0.0 then analysis.value.fitScore else 0.0
  }

  const Pending: string := "PENDIENTE"

  /** `fitLabel || 'PENDIENTE'`; the label read is the raw property, which
      the cast does not check. */
  function FitLabelShown(shown: Option<string>): (r: string)
    ensures r != ""
    ensures Present(shown) ==> r == shown.value
    ensures !Present(shown) ==> r == Pending
  {
    if Present(shown) then shown.value else Pending
  }

  /** A schema label is shown as spelled, and the placeholder is none of
      the four labels. */
  lemma LabelShownReadsBack(l: FitLabel)
    ensures ParseFitLabel(FitLabelShown(Some(FitLabelText(l)))) == Some(l)
    ensures ParseFitLabel(FitLabelShown(None)) == None
  {
    SpellingsRoundTrip(Otros, Alto, Publico, RiskLow, l);
  }

  const DefaultFeatures: seq<string> := ["TPV Integrado", "Eficiencia"]
  const MaxFeatures: nat := 3

  /** `(matchedFeatures || defaults).slice(0, 3)`. */
  function FeaturesShown(features: Option<seq<string>>): (r: seq<string>)
    ensures |r| <= MaxFeatures
    ensures features.None? ==> r == DefaultFeatures
    ensures features.Some? ==> r <= features.value && |r| == Min(MaxFeatures, |features.value|)
  {
    var list := if features.Some? then features.value else DefaultFeatures;
    list[..Min(MaxFeatures, |list|)]
  }

  /** An empty list is a present list: it shows no feature at all rather
      than the defaults. */
  lemma EmptyFeaturesShowNothing()
    ensures FeaturesShown(Some([])) == []
    ensures FeaturesShown(None) != []
  {
  }

  /** `googleSearchSources?.[0]?.uri || "#"`. */
  function WebsiteLink(sources: Option<seq<Source>>): (r: string)
    ensures r != ""
    ensures r == "#" || (OrEmpty(sources) != [] && r == OrEmpty(sources)[0].uri)
    ensures OrEmpty(sources) != [] && OrEmpty(sources)[0].uri != "" ==> r == OrEmpty(sources)[0].uri
  {
    var list := OrEmpty(sources);
    if |list| > 0 && list[0].uri != "" then list[0].uri else "#"
  }

  /** For the citations the backends attach, the link is the first cited
      uri whenever there is one. */
  lemma WebsiteOfGrounding(chunks: Option<seq<Extraction.Chunk>>)
    ensures var sources := Extraction.GroundingSources(chunks);
      WebsiteLink(Some(sources)) == if sources != [] then sources[0].uri else "#"
  {
  }

  const PerplexityHead: string :=
    "Actúa como analista de inteligencia comercial B2B. Necesito identificar al Director/a Financiero/a (CFO) de la empresa de hostelería en España: "
  const PerplexityBody: string :=
    " (si es un grupo, incluye filiales y marca comercial).\n\n"
    + "Devuélveme Nombre y apellidos, cargo exacto, empresa/filial, ciudad, y periodo (año inicio–fin si aparece).\n\n"
    + "Aporta evidencia: incluye 3–6 enlaces y cita textualmente (frase corta) la parte que lo confirma. Prioriza:\n"
    + "1. Web corporativa (equipo directivo, notas de prensa, memoria/informe anual).\n"
    + "2. LinkedIn (perfil personal + página de empresa).\n"
    + "3. BORME / registros mercantiles / comunicados oficiales si aplica.\n\n"
    + "Si no hay una confirmación única, propone un top 3 de candidatos (con probabilidad alta/media/baja) y explica en 1 línea por qué. "
    + "Si la empresa es privada, identifica el rol equivalente (Director de Administración y Finanzas, Finance Director, Head of Finance, Controller corporativo).\n\n"
    + "Al final, sugiere 5 consultas booleanas para seguir investigando en Google (incluye site:linkedin.com, site:empresa.com, filetype:pdf, y “nombrado”, “incorporación”, “CFO”).\n\n"
    + "Datos de búsqueda:\nEmpresa: "
  const PerplexityPlace: string := "\nUbicación: "

  /** The research question handed to the second search engine. */
  function PerplexityPrompt(name: string, city: string): (r: string)
    ensures Contains(r, name) && Contains(r, city)
  {
    var middle := PerplexityBody + name + PerplexityPlace;
    ContainsBothLast(PerplexityHead, name, middle, city);
    PerplexityHead + name + middle + city
  }
}
