# Business-intelligence research agent: a Dafny model of its decision logic

The system researches a hospitality business from public sources with a
generative search backend. It cuts a JSON profile out of the backend's free
text, attaches the backend's grounding citations, and shows the result to a
sales operator, who keeps a short history of researched businesses. Around
that sit three decision pieces:

- a serverless endpoint that researches a business;
- a serverless endpoint that checks whether an e-mail address is deliverable;
- the browser-side form, history store and result screen.

This project models those decisions as pure Dafny functions over immutable
datatypes and proves what they promise. One module per source file:

| module | models |
|---|---|
| `Base`, `Json`, `Seqs`, `Text` | `Option`/`Result`; JSON values with JavaScript truthiness, property reads and the one property write; order-preserving filtering; the JavaScript string operations the code uses (`trim`, `indexOf`, `lastIndexOf`, `substring` with its clamp-and-swap rule, `split(' ')[0]`, `padStart`, decimal rendering, UTF-16 length) |
| `Schema` | `types.ts`: the profile record, with every closed string union as an enumeration, its exact spelling and the inverse that recognises it |
| `Extraction` | brace-slice extraction (first `{` to last `}` of the trimmed answer) and the grounding-citation filter shared by both research paths |
| `ProfileHandler` | `api/business-profile.js` |
| `GeminiService` | `services/geminiService.ts` |
| `EmailHandler` | `api/verify-email.js` |
| `App` | the history store, search and delete handlers and citation labels of `App.tsx` |
| `InputForm` | `components/BusinessInputForm.tsx` |
| `ResultsDisplay` | the values `components/ResultsDisplay.tsx` derives before rendering |

Collaborators the code calls but does not contain become function
parameters:
- `JSON.parse` is `parse: string -> Result<Json, string>`, whose failure is the exception's message.
- The generative backend and the e-mail verification service are functions from the request data to a datatype of their possible replies: non-success status, answer, or exception.
- The environment is a `map<string, string>`.

Behaviour of the code that is easy to miss:
- The form rejects a trimmed field shorter than two UTF-16 code units with an alert. It does more than reject an empty one.
- In the serverless handler, an answer that fails to parse is reported as a generation failure carrying the parser's message. It is not the missing-brace error. Only the browser-side service collapses both into one message.
- The handler's prompt asks for `terrace`, `reservations` and `amex` flags, which `types.ts` does not declare. The schema here is the one `types.ts` declares.

## Model

| member | source | states |
|---|---|---|
| Text.Trim | api/business-profile.js:123 | the result is empty or starts and ends with a non-whitespace character, and is no longer than the input |
| Text.TrimPiece | api/business-profile.js:123 | the result is the piece of the input between two whitespace-only margins |
| Text.TrimKeeps | api/business-profile.js:123-129 | trimming neither adds nor removes a non-whitespace character such as a brace |
| Text.TrimEmpty | components/BusinessInputForm.tsx:15-20 | a trimmed field is empty exactly when the field is all whitespace |
| Text.TrimIdempotent | components/BusinessInputForm.tsx:15-16 | trimming twice equals trimming once |
| Text.IndexOf | api/business-profile.js:124 | -1 exactly when the character is absent; otherwise a position holding it with no earlier occurrence |
| Text.LastIndexOf | api/business-profile.js:125 | -1 exactly when the character is absent; otherwise a position holding it with no later occurrence |
| Text.JsSubstring | api/business-profile.js:131 | in-range arguments give the slice between them, swapped when the start exceeds the end |
| Text.SplitHead | components/ResultsDisplay.tsx:13 | the result is a prefix without the separator, and the input continues with the separator after it |
| Text.PadStart | App.tsx:190 | the result has the requested width or more, ends with the input, and is filled in front with the fill character |
| Text.LeadingZeros | App.tsx:190 | zeros put in front of a decimal string do not change the number it denotes |
| Text.Decimal | App.tsx:190 | `String(n)`: a digit string without a leading zero that denotes n |
| Text.Utf16Length | components/BusinessInputForm.tsx:22 | the length lies between the number of characters and twice it, and it is 0 only for the empty string |
| Text.Utf16Concat | components/BusinessInputForm.tsx:22 | the length of a joined string is the sum of the lengths of its parts |
| Text.Utf16Counts | components/BusinessInputForm.tsx:22 | a single character counts one code unit inside the Basic Multilingual Plane and two outside it, and a string grows by exactly that when a character is added at either end; with Text.Utf16Concat this fixes the length of every string |
| Json.Get | api/business-profile.js:6 | a property is defined exactly when the value is an object holding that key |
| Json.Put | api/business-profile.js:135 | on an object the key gets the new value and every other key keeps its own; an array is left unchanged; on any other value the write fails |
| Seqs.FilterCounts | api/business-profile.js:137 | filtering keeps every occurrence of a passing element and none of a failing one |
| Seqs.FilterSubsequence | api/business-profile.js:137 | filtering keeps relative order |
| Seqs.FilterMembers | App.tsx:35 | an element survives the filter exactly when it was present and passes |
| Extraction.BraceSlice | api/business-profile.js:124-131 | it fails with the missing-brace error exactly when a `{` or a `}` is absent |
| Extraction.ExtractObjectText | api/business-profile.js:123-131 | on the untrimmed answer, it fails exactly when a `{` or a `}` is absent |
| Extraction.TrimIrrelevant | api/business-profile.js:123-131 | trimming first never changes what is extracted |
| Extraction.ExtractSpansBraces | api/business-profile.js:124-131 | when the first `{` precedes the last `}`, the result is exactly the inclusive span between them |
| Extraction.SliceSpans | api/business-profile.js:124-131 | that span starts with `{` and ends with `}` |
| Extraction.ExtractSwapped | api/business-profile.js:131 | when the last `}` precedes the first `{`, `substring` swaps its arguments and the result is the text strictly between them, with no brace at all |
| Extraction.ExtractClean | api/business-profile.js:123-131 | an answer that already starts with `{` and ends with `}` is returned whole |
| Extraction.ExtractIdempotent | api/business-profile.js:123-131 | extracting again from an extracted object gives it back |
| Extraction.ExtractFromProse | api/business-profile.js:123-131 | an object with no `{` before it and no `}` after it is extracted from the surrounding prose |
| Extraction.CitedIffComplete | api/business-profile.js:137 | the `web?.uri && web?.title` test passes exactly when both fields are non-empty |
| Extraction.GroundingSources | api/business-profile.js:134-137 | the citations are the complete chunk references, in chunk order, each as often as it occurs; the list is empty without a chunk list |
| Extraction.CitedChunksKept | api/business-profile.js:135-137 | a reference is listed exactly when some chunk carrying it passes the test |
| Extraction.SourcesJson | types.ts:109-112 | the citation array holds one `{uri, title}` object per source, in order |
| Extraction.ReadProfile | api/business-profile.js:123-137 | each failure has its own cause: missing braces exactly when a brace is absent, the parser's message on a parse failure, or a parsed `null` or primitive that cannot take the citation list; a parsed array comes back unchanged; an object profile carries the grounding citations and every other property of the parsed object unchanged |
| ProfileHandler.ApiKey | api/business-profile.js:12 | `GEMINI_API_KEY` wins when it is set and non-empty, else `API_KEY`; a key found is never empty |
| ProfileHandler.Handle | api/business-profile.js:1-17 | 405 for any method but POST; an undefined or null body crashes; missing fields give 400 before the key is checked; a missing key gives 500; only a validated request reaches the backend, which receives the key, the name and the city |
| ProfileHandler.Respond | api/business-profile.js:110-143 | a non-success reply passes on its status and details; a missing or empty text gives "No text in response"; a missing brace gives the invalid-format error; a parse failure gives a generation failure carrying the parser's message; a parsed `null` or primitive gives a generation failure without a message; a profile is produced exactly when the object is read |
| ProfileHandler.BodyOf | api/business-profile.js:3-142 | every non-success outcome but a crash sends an `error` property; a failed backend call passes on its details, and a generation failure passes on its message; a profile is sent as it is |
| ProfileHandler.RejectedWithoutBackend | api/business-profile.js:2-17 | a request that fails validation gets a 400, 405 or 500 that depends neither on the backend nor on the parser |
| ProfileHandler.NoTextIgnoresParser | api/business-profile.js:118-121 | an answer without text ends in "No text in response" and nothing is parsed |
| ProfileHandler.ProfileCarriesCitations | api/business-profile.js:134-139 | a successful object reply carries exactly the grounding citations, whatever the backend wrote there |
| ProfileHandler.Prompt | api/business-profile.js:71-73 | the prompt contains the business name and the city verbatim |
| GeminiService.LoadClient | services/geminiService.ts:5-9 | loading fails with the fixed message exactly when `API_KEY` is unset or empty; otherwise the client holds that key |
| GeminiService.MissingKeyBeforeRequest | services/geminiService.ts:5-9 | without a key the outcome is the load error, whatever the backend or the parser would do |
| GeminiService.UserPrompt | services/geminiService.ts:68-76 | the prompt contains the business name and the city verbatim |
| GeminiService.Interpret | services/geminiService.ts:89-105 | every failure is the one fixed message; success happens exactly when there is text and the object is read, and the result is that object |
| GeminiService.FetchBusinessProfile | services/geminiService.ts:78-105 | a failed request always ends in the one fixed message |
| GeminiService.Research | services/geminiService.ts:5-13 | the only errors are the missing-key message and the fixed research message |
| GeminiService.ServiceReadsAnswer | services/geminiService.ts:78-101 | the backend is asked with the client's key and the service's prompt for the name and city, and the request yields a profile exactly when that call produced text from which a profile can be read, and it is that profile with its citations |
| GeminiService.KeyReachesBackend | services/geminiService.ts:5-13 | the missing-key error arises exactly when `API_KEY` is absent or empty; otherwise the research is one request through a client holding that key |
| GeminiService.MissingBraceFails | services/geminiService.ts:89-92 | an answer without both braces fails with the fixed message |
| GeminiService.AgreesWithHandler | services/geminiService.ts:89-99 | for every answer text, the service and the serverless handler produce a profile for exactly the same answers, and the same profile |
| EmailHandler.DecodeBody | api/verify-email.js:6-13 | only a string body is parsed; its parse failure is the one decoding error; any other body is kept as it is |
| EmailHandler.EmailOf | api/verify-email.js:15 | the address is defined exactly when the body is a truthy object holding `email` |
| EmailHandler.Assess | api/verify-email.js:41-45 | the report echoes the address; it is verified exactly when the deliverability is "DELIVERABLE"; the status is the deliverability, or "UNKNOWN" when that is absent or empty |
| EmailHandler.AssessConsistent | api/verify-email.js:41-45 | verified exactly when the status reads "DELIVERABLE"; the status is never empty; the detail is the safe message, or the fixed prefix followed by the status |
| EmailHandler.Handle | api/verify-email.js:1-62 | 405, then the 400 for an unparsable body, then the 400 for a missing address, then the 500 for a missing key; once all of those pass, the service's answer decides: a non-success status is passed on, an answer is assessed from its deliverability, and an exception gives verified=false, status "ERROR" and the exception's message as detail; a report echoes the address |
| EmailHandler.VerdictFollowsService | api/verify-email.js:39-52 | when the service answers a valid request, the reply has status 200 and says verified=true exactly when the service reported "DELIVERABLE" |
| EmailHandler.RejectedWithoutService | api/verify-email.js:2-26 | a request that fails validation gets a 400, 405 or 500 that does not depend on the service |
| EmailHandler.ServiceStatusPassedOn | api/verify-email.js:33-37 | a non-success reply from the service is reported with the service's own status |
| EmailHandler.BodyOf | api/verify-email.js:3-61 | only a completed check sends no `error` property, and it carries the verdict; a completed or failed check echoes the address and the detail; a completed check sends the report's status, and a failed one sends verified=false and status "ERROR" |
| Schema.ParseArea | types.ts:10 | exactly the five area spellings are recognised, each as the area spelled that way |
| Schema.ParseConfidence | types.ts:13 | exactly the three confidence spellings are recognised, each as the level spelled that way |
| Schema.ParseProvenance | types.ts:20 | exactly "Público" and "Inferido" are recognised |
| Schema.ParseBounceRisk | types.ts:22 | exactly "Bajo", "Medio" and "Alto" are recognised |
| Schema.ParseFitLabel | types.ts:74 | exactly the four fit labels are recognised |
| Schema.SpellingsRoundTrip | types.ts:10-74 | every enumerated value survives being written out and read back |
| App.Upsert | App.tsx:34-37 | the new profile comes first; the history holds 1 to 20 entries; no later entry has the same name and city; the rest is the oldest-trimmed prefix of the other entries |
| App.UpsertKeepsOrder | App.tsx:35-36 | the surviving older entries keep their relative order |
| App.UpsertKeepsOthers | App.tsx:35-36 | while the cap is not reached, every entry about another business or city survives |
| App.UpsertIdempotent | App.tsx:35-36 | repeating a search changes the history no further |
| App.FilterUnique | App.tsx:35 | dropping entries keeps name-and-city pairs unique |
| App.UpsertUnique | App.tsx:34-37 | a search keeps name-and-city pairs unique |
| App.Delete | App.tsx:171 | a valid index loses exactly that entry while the others keep their order; an invalid index changes nothing |
| App.DeleteRemovesOne | App.tsx:171 | deleting removes exactly one occurrence of the chosen entry |
| App.DeleteUnique | App.tsx:171 | deleting keeps name-and-city pairs unique |
| App.Recent | App.tsx:97 | the sidebar shows a prefix of the history, of length min(8, history length) |
| App.HandleSearch | App.tsx:28-45 | success shows and records the profile and clears the error; failure keeps history and profile and shows the message, or the fixed fallback when the message is empty |
| App.SearchKeepsValid | App.tsx:34-41 | searches keep the history bounded and unique, and an error shown is never empty |
| App.ServiceFailureShown | App.tsx:39-40 | a failed research request reaches the banner as the service's fixed message |
| App.HandleDelete | App.tsx:171 | only the history changes |
| App.DeleteKeepsValid | App.tsx:171 | deleting keeps the history bounded and unique |
| App.SourceLabelValue | App.tsx:190 | the tag App.SourceLabel builds for the i-th citation is "Ref_" followed by two or more digits that denote i + 1, with a leading zero exactly for the first nine |
| InputForm.Submit | components/BusinessInputForm.tsx:13-33 | nothing happens exactly when a field is all whitespace; a short name alerts before the city is looked at; the only alerts are the two length messages; a search starts exactly when both trimmed values are non-empty and at least two code units long, and it starts with those trimmed values |
| InputForm.SubmitStable | components/BusinessInputForm.tsx:15-32 | submitting the values a search started with starts the same search |
| InputForm.OneCharacterName | components/BusinessInputForm.tsx:22-25 | a one-character name from the Basic Multilingual Plane alerts, but one from outside it counts as two units and passes |
| ResultsDisplay.OrEmpty | components/ResultsDisplay.tsx:8-10 | an absent list reads as empty |
| ResultsDisplay.PrimaryContact | components/ResultsDisplay.tsx:12 | none exactly when there is no contact; otherwise the first contact in finance, or the first contact when no contact is in finance |
| ResultsDisplay.FirstInFinance | components/ResultsDisplay.tsx:12 | `find`: none exactly when no contact is in finance, otherwise the first such |
| ResultsDisplay.OwnerName | components/ResultsDisplay.tsx:13 | "Propiedad" without a contact; otherwise the contact's name up to its first space |
| ResultsDisplay.OwnerFirstWord | components/ResultsDisplay.tsx:13 | a contact named "first rest" is greeted as first |
| ResultsDisplay.MailRecipient | components/ResultsDisplay.tsx:43 | the direct address when it is non-empty, else the first suggested address, else the empty string |
| ResultsDisplay.RecipientIsKnown | components/ResultsDisplay.tsx:43 | the recipient is empty or one of the profile's addresses |
| ResultsDisplay.FitScoreShown | components/ResultsDisplay.tsx:77-81 | the score, with 0 when the analysis is absent |
| ResultsDisplay.FitLabelShown | components/ResultsDisplay.tsx:78 | the label when present and non-empty, else "PENDIENTE"; never empty |
| ResultsDisplay.LabelShownReadsBack | components/ResultsDisplay.tsx:78 | a schema label is shown as spelled, and the placeholder is none of the four labels |
| ResultsDisplay.FeaturesShown | components/ResultsDisplay.tsx:97 | at most three, taken from the front of the list; the two defaults only when the list is absent |
| ResultsDisplay.EmptyFeaturesShowNothing | components/ResultsDisplay.tsx:97 | a present but empty list shows no feature, not the defaults |
| ResultsDisplay.WebsiteLink | components/ResultsDisplay.tsx:261 | the first source's uri when it is non-empty, else "#" |
| ResultsDisplay.WebsiteOfGrounding | components/ResultsDisplay.tsx:261 | with the citations the backends attach, the link is the first cited uri whenever there is one |
| ResultsDisplay.PerplexityPrompt | components/ResultsDisplay.tsx:46-61 | the prompt contains the business name and the city verbatim |

## Left out

- Network calls are parameters of the model. The `fetch` to the generative backend, the `generateContent` call and the e-mail verification request are external services; only the shape of their replies is modelled.
- `JSON.parse` and `JSON.stringify` are parameters or left out: library behaviour not visible in the code.
- `encodeURIComponent`, the Gmail and Perplexity URLs, and `new URL(...).hostname` (App.tsx:196) are library behaviour and are left out. The values put into those URLs are modelled.
- localStorage loading and saving (App.tsx:17-26), the loading flag and React state plumbing are persistence and framework I/O. The history is a plain sequence value.
- JSX rendering, styling and the draft mail text are not modelled. Nor are clipboard writes with their `setTimeout` reset (components/ResultsDisplay.tsx:33-41), `components/HistoryList.tsx` and `components/LoadingIndicator.tsx`, whose progress is timer- and random-driven.
- The system instruction text of the service (services/geminiService.ts:14-66) and the request bodies' generation settings are prose and configuration with no decision in them. The prompts are modelled only as far as they embed the name and the city.
- ProfileHandler.Prompt: JSON values that are not strings are spliced into the prompt through JavaScript string conversion, which is not modelled. The contract covers string fields.
- ProfileHandler.Respond: the engine's wording of a `TypeError` is not modelled. One arises when the citations are written into a parsed `null` or primitive. It is caught and answered with the 500 generation failure (api/business-profile.js:140-142), which the model gives without the `message` key: the reply body then carries only the `error` key, while the source also sends the engine's message.
- Json.Put: a property written to an array is invisible once the array is serialised. It is modelled as leaving the array unchanged.
- GeminiService.Interpret: when the parsed reply is an array, the service returns that very array with a `googleSearchSources` property attached in memory (services/geminiService.ts:97-101), and the application could read it (App.tsx:186-212). The model uses Json.Put, which leaves the array unchanged, because a JSON array value has no named properties. The loss is faithful only for the serverless handler, whose reply is serialised (api/business-profile.js:139).
- Extraction.SourcesJson: a cited web entry is modelled by its `uri` and `title` only. Any other field the backend puts on `chunk.web` is kept in the source's reply but dropped by the model.
- Extraction.GroundingSources: a `null` entry among the grounding chunks makes `chunk.web` throw (services/geminiService.ts:98, api/business-profile.js:136). That exception is not modelled; every chunk is a record whose `web` may be absent.
- ResultsDisplay.OwnerName: a primary contact without a `name` makes `split` throw and the screen fail to render (components/ResultsDisplay.tsx:13). That is not modelled; a contact's name, area, e-mail address and a source's uri are taken as present.
- ResultsDisplay.FitScoreShown: scores are reals, so JavaScript's NaN, which `|| 0` would also replace, is not modelled.
- EmailHandler.Assess: a non-string `deliverability` is not modelled. The service's field is taken as an optional string.
- EmailHandler.Handle: when the thrown value has no `message`, the detail would be `undefined`. The model always carries a string.
- The cast of the parsed object to `BusinessProfile` is unchecked. The history holds schema profiles. The display helpers take the lists, the direct contacts, the fit analysis, its raw label, its features and the sources as optional. The fit score, the direct address and the first source's uri are read behind a `||` fallback too (components/ResultsDisplay.tsx:43, 77, 261), but the model takes them as present, because an absent value is shown exactly as 0 or the empty string is. A contact's name and area are read without a guard and are taken as present (see ResultsDisplay.OwnerName below).
- The source-count badge (`length || 0`, App.tsx:212) and the sidebar entry that selects a profile are pure rendering and not modelled.
