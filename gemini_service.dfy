/**
 * The command dispatcher: the registry of commands and the documents each
 * needs, the lookup of an uploaded document by type, the construction of the
 * user prompt, and `processCommand`, which routes one command through the
 * fetchers, the composite full analysis, document validation and the
 * language-model backend, and always answers with text.
 *
 * `Dispatch` is the specification of `processCommand` as a function of the
 * command, the files, the caller's inputs and the collaborators' answers; it
 * also gives the calls made, in order, and the `apiResults` the run stores on
 * the caller's inputs. `ProcessCommand` is the step-by-step method, proved
 * against it.
 */
module GeminiService {
  import opened Wrappers
  import opened Types
  import opened Seqs
  import opened Services

  // ---------------------------------------------------------------- registry

  /** A registry entry: what the tab shows and which documents, in order, the command needs. */
  datatype CommandSpec = CommandSpec(description: string, instruction: string, requiredFiles: seq<DocumentType>)

  /** The five commands that work from a search instead of from uploaded documents. */
  predicate IsSearchCommand(command: Command)
  {
    command in {Search, EcfrSearch, ActiveRfps, RfpNotices, RulemakingDocuments}
  }

  /** The documents each command needs, in the order the registry lists them. */
  function RequiredFiles(command: Command): (required: seq<DocumentType>)
    ensures NoDuplicates(required)
    ensures required == [] <==> IsSearchCommand(command)
    ensures Rfp in required ==> required == [CapabilityStatement, Rfp]
  {
    match command
    case Keywords => [CapabilityStatement]
    case Review => [CapabilityStatement, Rfp]
    case Draft => [CapabilityStatement, Rfp]
    case ProcessEmail => [Email]
    case CreateGmailDraft => [OpportunityBreakdown]
    case FullOpportunityAnalysis => [CapabilityStatement]
    case _ => []
  }

  /**
   * `PROMPT_CONFIG`: the fixed table from command to its entry. Every command
   * has an entry; its documents column is `RequiredFiles`, which the
   * dispatcher and the interface read.
   */
  function PromptConfig(command: Command): CommandSpec
  {
    match command
    case Keywords => CommandSpec(
      "Strategic Keyword & Scope Analysis",
      "Upload a client's Capability Statement to generate a comprehensive list of keywords and a scope analysis.",
      RequiredFiles(command))
    case Review => CommandSpec(
      "Detailed Fit-Gap Analysis",
      "Upload a Capability Statement and an RFP/RFQ document to conduct an exhaustive fit-gap analysis.",
      RequiredFiles(command))
    case Draft => CommandSpec(
      "Client Email Drafting",
      "Upload a Capability Statement and an RFP/RFQ to draft a client-ready opportunity breakdown email.",
      RequiredFiles(command))
    case ProcessEmail => CommandSpec(
      "Email Processing for Notion",
      "Upload a single email to transform it into a structured report for Notion.",
      RequiredFiles(command))
    case CreateGmailDraft => CommandSpec(
      "Gmail Draft Preparation",
      "Upload a pre-formatted Opportunity Breakdown email to parse it into components for a Gmail draft.",
      RequiredFiles(command))
    case Search => CommandSpec(
      "FGA Compass Search Agent",
      "Execute a precise web search for government RFPs/RFQs based on your criteria.",
      RequiredFiles(command))
    case EcfrSearch => CommandSpec(
      "eCFR Search",
      "Search the Electronic Code of Federal Regulations. The AI will analyze and summarize the results.",
      RequiredFiles(command))
    case ActiveRfps => CommandSpec(
      "Active RFPs (SAM.gov)",
      "Find active Requests for Proposals from SAM.gov. Requires a SAM.gov API key.",
      RequiredFiles(command))
    case RfpNotices => CommandSpec(
      "RFP Notices (Federal Register)",
      "Find pre-solicitation notices and related announcements from the Federal Register.",
      RequiredFiles(command))
    case RulemakingDocuments => CommandSpec(
      "Rulemaking Documents (Regulations.gov)",
      "Search for federal rulemaking documents. Requires a Regulations.gov API key.",
      RequiredFiles(command))
    case FullOpportunityAnalysis => CommandSpec(
      "Project Action: Full Opportunity Analysis",
      "Finds the top RFP from SAM.gov, analyzes it against your Capability Statement, and drafts a client email in a single step.",
      RequiredFiles(command))
  }

  // ---------------------------------------------------------- file lookup

  /** `files.find(f => f.type === t)`: the first file of type `t`, if any. */
  function FindByType(files: seq<AppFile>, t: DocumentType): (r: Option<AppFile>)
    ensures r.None? <==> forall i :: 0 <= i < |files| ==> files[i].docType != t
    ensures r.Some? ==> exists k :: 0 <= k < |files| && files[k] == r.value && r.value.docType == t &&
                                    forall i :: 0 <= i < k ==> files[i].docType != t
  {
    if files == [] then None
    else if files[0].docType == t then Some(files[0])
    else
      var r := FindByType(files[1..], t);
      assert r.Some? ==> exists k :: 0 <= k < |files| && files[k] == r.value && (forall i :: 0 <= i < k ==> files[i].docType != t) by {
        if r.Some? {
          var k :| 0 <= k < |files| - 1 && files[1..][k] == r.value && forall i :: 0 <= i < k ==> files[1..][i].docType != t;
          assert files[k + 1] == r.value;
          assert forall i :: 0 <= i < k + 1 ==> files[i].docType != t by {
            forall i | 0 <= i < k + 1 ensures files[i].docType != t {
              if i > 0 { assert files[i] == files[1..][i - 1]; }
            }
          }
        }
      }
      r
  }

  /**
   * `getFileContent`: the content of the first file of type `t`, or `None`
   * (the source's `null`) when no file has that type. An empty content is
   * `Some("")`: `??` replaces only a missing file.
   */
  function GetFileContent(files: seq<AppFile>, t: DocumentType): (r: Option<string>)
    ensures r.None? <==> forall i :: 0 <= i < |files| ==> files[i].docType != t
    ensures forall k :: 0 <= k < |files| && files[k].docType == t && (forall i :: 0 <= i < k ==> files[i].docType != t) ==>
                          r == Some(files[k].content)
  {
    match FindByType(files, t)
    case None => None
    case Some(f) => Some(f.content)
  }

  /** JavaScript truthiness of an optional string: present and not empty. */
  predicate Truthy(s: Option<string>)
  {
    s.Some? && s.value != ""
  }

  /** A file of type `t` is there and its content is not empty. */
  predicate HasContent(files: seq<AppFile>, t: DocumentType)
  {
    Truthy(GetFileContent(files, t))
  }

  // ---------------------------------------------------------- validation

  /** `requiredFiles.filter(type => !getFileContent(files, type))`. */
  function Missing(required: seq<DocumentType>, files: seq<AppFile>): seq<DocumentType>
  {
    Filter(required, t => !HasContent(files, t))
  }

  /** The display names of the types, in order. */
  function Names(types: seq<DocumentType>): seq<string>
  {
    seq(|types|, i requires 0 <= i < |types| => types[i].Name())
  }

  const MissingIntro := "Error: The command "
  const MissingMiddle := " requires the following documents: "
  const MissingOutro := ". Please upload them."

  function MissingDocumentsText(command: Command, missing: seq<DocumentType>): string
  {
    MissingIntro + command.Text() + MissingMiddle + Join(Names(missing), ", ") + MissingOutro
  }

  // ---------------------------------------------------------- caller inputs

  /**
   * The value of the caller's `otherInputs` object: one optional string per key
   * the dispatcher reads (`None` when the key is absent). `apiResults` is the
   * key the dispatcher itself writes.
   */
  datatype AuxInputs = AuxInputs(
    searchParams: Option<string>,
    ecfrQuery: Option<string>,
    ecfrAgencies: Option<string>,
    keywords: Option<string>,
    apiKey: Option<string>,
    term: Option<string>,
    searchTerm: Option<string>,
    apiResults: Option<string>)

  /** `{}` (and `undefined`, which reads the same for the commands it is passed with). */
  const NoInputs := AuxInputs(None, None, None, None, None, None, None, None)

  /** The caller's mutable `otherInputs` object. */
  class OtherInputs {
    var searchParams: Option<string>
    var ecfrQuery: Option<string>
    var ecfrAgencies: Option<string>
    var keywords: Option<string>
    var apiKey: Option<string>
    var term: Option<string>
    var searchTerm: Option<string>
    var apiResults: Option<string>

    function Value(): AuxInputs
      reads this
    {
      AuxInputs(searchParams, ecfrQuery, ecfrAgencies, keywords, apiKey, term, searchTerm, apiResults)
    }

    constructor (v: AuxInputs)
      ensures Value() == v
    {
      searchParams, ecfrQuery, ecfrAgencies := v.searchParams, v.ecfrQuery, v.ecfrAgencies;
      keywords, apiKey, term, searchTerm := v.keywords, v.apiKey, v.term, v.searchTerm;
      apiResults := v.apiResults;
    }
  }

  /** A template literal `${x}` of an optional string: an absent key prints as `undefined`. */
  function Show(s: Option<string>): string
  {
    match s
    case Some(v) => v
    case None => "undefined"
  }

  // ---------------------------------------------------------- user prompt

  const SearchParamsIntro := "User has provided the following search parameters:\n"
  const ApiResultsIntro := "The system has performed a search. Please analyze the following JSON results and provide a summary based on your instructions for the "
  const ApiResultsOpen := " command.\n\n[START of API JSON Results]\n"
  const ApiResultsClose := "\n[END of API JSON Results]\n\n"

  function SearchParamsBlock(params: string): string
  {
    SearchParamsIntro + params + "\n\n"
  }

  function ApiResultsBlock(command: Command, results: string): string
  {
    ApiResultsIntro + command.Text() + ApiResultsOpen + results + ApiResultsClose
  }

  /** Everything the prompt holds before the documents: the command, then the optional search and API blocks. */
  function Preamble(command: Command, inputs: AuxInputs): string
  {
    var head := command.Text() + "\n\n";
    var withSearch := if command == Search && Truthy(inputs.searchParams) then head + SearchParamsBlock(inputs.searchParams.value) else head;
    if Truthy(inputs.apiResults) then withSearch + ApiResultsBlock(command, inputs.apiResults.value) else withSearch
  }

  /** The delimited section that carries one document's text. */
  const SectionStart := "[START of Document: "
  const SectionEnd := "\n[END of Document: "

  function Section(t: DocumentType, content: string): string
  {
    SectionStart + t.Name() + "]\n" + content + SectionEnd + t.Name() + "]\n\n"
  }

  /** The sections of the listed types whose content is not empty, in list order. */
  function Sections(types: seq<DocumentType>, files: seq<AppFile>): string
  {
    if types == [] then ""
    else
      var last := types[|types| - 1];
      Sections(types[..|types| - 1], files)
      + (if HasContent(files, last) then Section(last, GetFileContent(files, last).value) else "")
  }

  /** Adding the next type to the list adds its section, or nothing when its content is empty. */
  lemma SectionsStep(types: seq<DocumentType>, i: nat, files: seq<AppFile>)
    requires i < |types|
    ensures Sections(types[..i + 1], files) == Sections(types[..i], files)
      + (if HasContent(files, types[i]) then Section(types[i], GetFileContent(files, types[i]).value) else "")
  {
    assert types[..i + 1][..i] == types[..i];
  }

  /** The prompt `constructUserPrompt` builds. */
  function UserPrompt(command: Command, files: seq<AppFile>, inputs: AuxInputs): string
  {
    Preamble(command, inputs) + Sections(RequiredFiles(command), files)
  }

  /** `constructUserPrompt`: appends to the prompt block by block, one loop turn per required type. */
  method ConstructUserPrompt(command: Command, files: seq<AppFile>, inputs: AuxInputs) returns (userInput: string)
    ensures userInput == UserPrompt(command, files, inputs)
  {
    userInput := command.Text() + "\n\n";
    if command == Search && Truthy(inputs.searchParams) {
      userInput := userInput + SearchParamsBlock(inputs.searchParams.value);
    }
    if Truthy(inputs.apiResults) {
      userInput := userInput + ApiResultsBlock(command, inputs.apiResults.value);
    }
    var requiredFileTypes := RequiredFiles(command);
    for i := 0 to |requiredFileTypes|
      invariant userInput == Preamble(command, inputs) + Sections(requiredFileTypes[..i], files)
    {
      var docType := requiredFileTypes[i];
      var content := GetFileContent(files, docType);
      SectionsStep(requiredFileTypes, i, files);
      ghost var done := Sections(requiredFileTypes[..i], files);
      if Truthy(content) {
        AppendAssociative(Preamble(command, inputs), done, Section(docType, content.value));
        userInput := userInput + Section(docType, content.value);
      } else {
        assert done + "" == done;
      }
    }
    assert requiredFileTypes[..|requiredFileTypes|] == requiredFileTypes;
  }

  // ---------------------------------------------------------- fixed texts

  const AwaitPrefix := "AWAIT_INPUT:"

  /** What an initial `/search` answers: the marker prefix, then the request for more input. */
  const AwaitRequest := "Please provide the specific keywords or service types you are looking for, and the submission deadline time interval."
  const Sentinel := AwaitPrefix + AwaitRequest

  const UnknownFetchError := "An unknown error occurred while fetching data."

  function FetchErrorText(message: Option<string>): string
  {
    "Error: " + (match message
                 case Some(m) => m
                 case None => UnknownFetchError)
  }

  const NoRegulationsIntro := "No regulations found for \""
  const NoActiveRfpsIntro := "No active RFPs found for \""
  const NoNoticesIntro := "No notices found for \""
  const NoDocumentsIntro := "No documents found for \""
  const SamSuffix := "\" on SAM.gov."
  const FederalRegisterSuffix := "\" on Federal Register."
  const RegulationsSuffix := "\" on Regulations.gov."
  const CannotProceed := " Cannot proceed with full analysis."

  function NoRegulationsText(query: Option<string>): string
  {
    NoRegulationsIntro + Show(query) + "\"."
  }

  function NoActiveRfpsText(keywords: Option<string>): string
  {
    NoActiveRfpsIntro + Show(keywords) + SamSuffix
  }

  function NoNoticesText(term: Option<string>): string
  {
    NoNoticesIntro + Show(term) + FederalRegisterSuffix
  }

  function NoDocumentsText(searchTerm: Option<string>): string
  {
    NoDocumentsIntro + Show(searchTerm) + RegulationsSuffix
  }

  function NoOpportunityText(keywords: Option<string>): string
  {
    NoActiveRfpsIntro + Show(keywords) + SamSuffix + CannotProceed
  }

  const CapabilityRequiredText := "Error: Capability Statement is required for Full Opportunity Analysis."

  /** The report's first line, with the characters the source text holds before the title. */
  const ReportHeader := "\U{00E2}\U{0153}\U{2026} **Full Opportunity Analysis Report**\n\n"
  const OpportunityHeading := "--- **1. Top Matching Opportunity** ---\n"
  const ReviewHeading := "--- **2. Fit-Gap Analysis** ---\n"
  const DraftHeading := "--- **3. Draft Client Email** ---\n"

  /** The text of the synthetic RFP document built from the top SAM.gov opportunity. */
  function RfpContent(top: Opportunity): string
  {
    "Title: " + top.title + "\nSolicitation #: " + top.solicitationNumber + "\nAgency: " + top.agency
    + "\nResponse Date: " + top.responseDate + "\nLink: " + top.uiLink
  }

  function GeneratedRfp(top: Opportunity): AppFile
  {
    AppFile("generated-rfp", "Generated RFP (" + top.solicitationNumber + ").txt", RfpContent(top), Rfp)
  }

  /** The aggregated report: header, opportunity, review result, draft result, in that order. */
  function Report(rfpContent: string, reviewResult: string, draftResult: string): string
  {
    ReportHeader + OpportunityHeading + (rfpContent + "\n\n") + ReviewHeading + (reviewResult + "\n\n")
    + DraftHeading + draftResult
  }

  // ---------------------------------------------------------- backend reply

  /** `chunks.map(c => c.web?.uri).filter(Boolean)`: the present, non-empty URIs in chunk order. */
  function TruthyUris(chunks: seq<Option<string>>): (uris: seq<string>)
    ensures forall i :: 0 <= i < |uris| ==> uris[i] != "" && Some(uris[i]) in chunks
    ensures forall i :: 0 <= i < |chunks| && Truthy(chunks[i]) ==> chunks[i].value in uris
  {
    if chunks == [] then []
    else
      var rest := TruthyUris(chunks[1..]);
      assert forall i :: 0 <= i < |rest| ==> Some(rest[i]) in chunks by {
        forall i | 0 <= i < |rest| ensures Some(rest[i]) in chunks {
          var k :| 0 <= k < |chunks[1..]| && chunks[1..][k] == Some(rest[i]);
          assert chunks[k + 1] == Some(rest[i]);
        }
      }
      assert forall i :: 1 <= i < |chunks| && Truthy(chunks[i]) ==> chunks[i].value in rest by {
        forall i | 1 <= i < |chunks| && Truthy(chunks[i]) ensures chunks[i].value in rest {
          assert chunks[1..][i - 1] == chunks[i];
        }
      }
      (if Truthy(chunks[0]) then [chunks[0].value] else []) + rest
  }

  /** One `- ` line per URI, in order. */
  function Bullets(uris: seq<string>): seq<string>
  {
    seq(|uris|, i requires 0 <= i < |uris| => "- " + uris[i])
  }

  const SourcesHeading := "\n\n---\n**Sources:**\n"

  /** The sources list appended to a `/search` answer: each distinct URI once, first-seen order; nothing if none. */
  function SourcesSuffix(chunks: seq<Option<string>>): string
  {
    var unique := Dedup(TruthyUris(chunks));
    if unique == [] then "" else SourcesHeading + Join(Bullets(unique), "\n")
  }

  const BackendErrorIntro := "An error occurred while communicating with the AI: "
  const UnknownBackendError := "An unknown error occurred while communicating with the AI. Please try again later."

  /** What the dispatcher returns for one backend answer. */
  function BackendReply(command: Command, g: Generation): string
  {
    match g
    case Generated(text, chunks) => text + (if command == Search then SourcesSuffix(chunks) else "")
    case GenerationFailed(Some(m)) => BackendErrorIntro + m
    case GenerationFailed(None) => UnknownBackendError
  }

  // ---------------------------------------------------------- dispatch

  /** A dispatch: the text returned, the collaborator calls made in order, and the `apiResults` stored (if any). */
  datatype Outcome = Outcome(text: string, calls: seq<Call>, stored: Option<JsonText>)

  /** The caller's inputs after a dispatch that stored `stored`. */
  function AfterStore(inputs: AuxInputs, stored: Option<JsonText>): AuxInputs
  {
    match stored
    case Some(json) => inputs.(apiResults := Some(json))
    case None => inputs
  }

  /** The tail every non-composite command reaches: document validation, prompt, backend. */
  function Validated(command: Command, files: seq<AppFile>, inputs: AuxInputs, o: Oracles): Outcome
  {
    var missing := Missing(RequiredFiles(command), files);
    if |missing| > 0 then Outcome(MissingDocumentsText(command, missing), [], None)
    else
      var prompt := UserPrompt(command, files, inputs);
      var webSearch := command == Search;
      Outcome(BackendReply(command, o.generate(prompt, webSearch)), [GenerateCall(prompt, webSearch)], None)
  }

  /** A fetch-then-summarise command after its fetch: error text, the no-results text, or the stored results summarised. */
  function Summarized(command: Command, files: seq<AppFile>, inputs: AuxInputs, o: Oracles,
                      call: Call, fetched: FetchOutcome, noResults: string): Outcome
  {
    match fetched
    case FetchFailed(m) => Outcome(FetchErrorText(m), [call], None)
    case Fetched(count, json) =>
      if count == 0 then Outcome(noResults, [call], None)
      else
        var rest := Validated(command, files, inputs.(apiResults := Some(json)), o);
        Outcome(rest.text, [call] + rest.calls, Some(json))
  }

  /** A SAM.gov answer seen as a count and a payload. */
  function SamAsFetch(r: SamOutcome): FetchOutcome
  {
    match r
    case SamFetched(opportunities, json) => Fetched(|opportunities|, json)
    case SamFailed(m) => FetchFailed(m)
  }

  /**
   * The `/full_opportunity_analysis` branch: search SAM.gov, build the RFP
   * document from the top result, run `/review` and `/draft` on the capability
   * statement and that document, and aggregate.
   */
  function FullAnalysis(files: seq<AppFile>, inputs: AuxInputs, o: Oracles): Outcome
    decreases 1
  {
    var call := SamCall(inputs.keywords, inputs.apiKey);
    match o.sam(inputs.keywords, inputs.apiKey)
    case SamFailed(m) => Outcome(FetchErrorText(m), [call], None)
    case SamFetched(opportunities, _) =>
      if |opportunities| == 0 then Outcome(NoOpportunityText(inputs.keywords), [call], None)
      else
        var rfpFile := GeneratedRfp(opportunities[0]);
        match FindByType(files, CapabilityStatement)
        case None => Outcome(CapabilityRequiredText, [call], None)
        case Some(cap) =>
          var review := Dispatch(Review, [cap, rfpFile], NoInputs, o);
          var draft := Dispatch(Draft, [cap, rfpFile], NoInputs, o);
          Outcome(Report(rfpFile.content, review.text, draft.text), [call] + review.calls + draft.calls, None)
  }

  /** `processCommand(command, files, inputs)` with the collaborators answering as `o`. */
  function Dispatch(command: Command, files: seq<AppFile>, inputs: AuxInputs, o: Oracles): Outcome
    decreases if command == FullOpportunityAnalysis then 2 else 0
  {
    if command == Search && !Truthy(inputs.searchParams) then Outcome(Sentinel, [], None)
    else match command
      case FullOpportunityAnalysis => FullAnalysis(files, inputs, o)
      case EcfrSearch =>
        Summarized(command, files, inputs, o, EcfrCall(inputs.ecfrQuery, inputs.ecfrAgencies),
                   o.ecfr(inputs.ecfrQuery, inputs.ecfrAgencies), NoRegulationsText(inputs.ecfrQuery))
      case ActiveRfps =>
        Summarized(command, files, inputs, o, SamCall(inputs.keywords, inputs.apiKey),
                   SamAsFetch(o.sam(inputs.keywords, inputs.apiKey)), NoActiveRfpsText(inputs.keywords))
      case RfpNotices =>
        Summarized(command, files, inputs, o, NoticesCall(inputs.term),
                   o.notices(inputs.term), NoNoticesText(inputs.term))
      case RulemakingDocuments =>
        Summarized(command, files, inputs, o, DocumentsCall(inputs.searchTerm, inputs.apiKey),
                   o.documents(inputs.searchTerm, inputs.apiKey), NoDocumentsText(inputs.searchTerm))
      case _ => Validated(command, files, inputs, o)
  }

  /**
   * `processCommand`: returns what `Dispatch` specifies, makes exactly the
   * calls it lists, and leaves on `inputs` the `apiResults` it stored.
   */
  method ProcessCommand(command: Command, files: seq<AppFile>, inputs: OtherInputs, env: Environment) returns (text: string)
    modifies inputs, env
    ensures var out := Dispatch(command, files, old(inputs.Value()), env.answers);
      && text == out.text
      && env.log == old(env.log) + out.calls
      && inputs.Value() == AfterStore(old(inputs.Value()), out.stored)
    decreases if command == FullOpportunityAnalysis then 3 else 0
  {
    if command == Search && !Truthy(inputs.searchParams) {
      return Sentinel;
    }
    match command {
      case FullOpportunityAnalysis =>
        text := RunFullAnalysis(files, inputs, env);
      case EcfrSearch =>
        ghost var before := env.log;
        var apiResponse := env.SearchEcfr(inputs.ecfrQuery, inputs.ecfrAgencies);
        text := SummarizeFetched(command, files, inputs, env, before, EcfrCall(inputs.ecfrQuery, inputs.ecfrAgencies),
                                 apiResponse, NoRegulationsText(inputs.ecfrQuery));
      case ActiveRfps =>
        ghost var before := env.log;
        var apiResponse := env.SearchOpportunities(inputs.keywords, inputs.apiKey);
        text := SummarizeFetched(command, files, inputs, env, before, SamCall(inputs.keywords, inputs.apiKey),
                                 SamAsFetch(apiResponse), NoActiveRfpsText(inputs.keywords));
      case RfpNotices =>
        ghost var before := env.log;
        var apiResponse := env.SearchNotices(inputs.term);
        text := SummarizeFetched(command, files, inputs, env, before, NoticesCall(inputs.term),
                                 apiResponse, NoNoticesText(inputs.term));
      case RulemakingDocuments =>
        ghost var before := env.log;
        var apiResponse := env.SearchDocuments(inputs.searchTerm, inputs.apiKey);
        text := SummarizeFetched(command, files, inputs, env, before, DocumentsCall(inputs.searchTerm, inputs.apiKey),
                                 apiResponse, NoDocumentsText(inputs.searchTerm));
      case _ =>
        text := ValidateAndGenerate(command, files, inputs.Value(), env);
    }
  }

  /**
   * The rest of a fetch-then-summarise command once its fetch `call` has been
   * made: the error text, the no-results text, or the results stored on the
   * caller's inputs and handed on to validation and the backend.
   */
  method SummarizeFetched(command: Command, files: seq<AppFile>, inputs: OtherInputs, env: Environment,
                          ghost before: seq<Call>, ghost call: Call, fetched: FetchOutcome, noResults: string)
    returns (text: string)
    requires env.log == before + [call]
    modifies inputs, env
    ensures var out := Summarized(command, files, old(inputs.Value()), env.answers, call, fetched, noResults);
      && text == out.text
      && env.log == before + out.calls
      && inputs.Value() == AfterStore(old(inputs.Value()), out.stored)
  {
    if fetched.FetchFailed? {
      return FetchErrorText(fetched.message);
    }
    if fetched.count == 0 {
      return noResults;
    }
    inputs.apiResults := Some(fetched.json);
    ghost var rest := Validated(command, files, inputs.Value(), env.answers);
    text := ValidateAndGenerate(command, files, inputs.Value(), env);
    AppendAssociative(before, [call], rest.calls);
  }

  /**
   * The tail of `processCommand` for every non-composite command: check the
   * required documents, build the user prompt and ask the backend.
   */
  method ValidateAndGenerate(command: Command, files: seq<AppFile>, inputs: AuxInputs, env: Environment) returns (text: string)
    modifies env
    ensures var out := Validated(command, files, inputs, env.answers);
      && text == out.text
      && env.log == old(env.log) + out.calls
  {
    var missingFiles := Missing(RequiredFiles(command), files);
    if |missingFiles| > 0 {
      return MissingDocumentsText(command, missingFiles);
    }
    var userPrompt := ConstructUserPrompt(command, files, inputs);
    var response := env.GenerateContent(userPrompt, command == Search);
    text := BackendReply(command, response);
  }

  /** The `/full_opportunity_analysis` branch of `processCommand`, step by step. */
  method RunFullAnalysis(files: seq<AppFile>, inputs: OtherInputs, env: Environment) returns (text: string)
    modifies env
    ensures var out := FullAnalysis(files, inputs.Value(), env.answers);
      && text == out.text
      && env.log == old(env.log) + out.calls
      && out.stored == None
    decreases 1
  {
    var samResponse := env.SearchOpportunities(inputs.keywords, inputs.apiKey);
    if samResponse.SamFailed? {
      return FetchErrorText(samResponse.message);
    }
    if |samResponse.opportunities| == 0 {
      return NoOpportunityText(inputs.keywords);
    }
    var topOpportunity := samResponse.opportunities[0];
    var rfpFile := GeneratedRfp(topOpportunity);
    var capStatementFile := FindByType(files, CapabilityStatement);
    if capStatementFile.None? {
      return CapabilityRequiredText;
    }
    ghost var afterSearch := env.log;
    var reviewInputs := new OtherInputs(NoInputs);
    var reviewResult := ProcessCommand(Review, [capStatementFile.value, rfpFile], reviewInputs, env);
    ghost var afterReview := env.log;
    var draftInputs := new OtherInputs(NoInputs);
    var draftResult := ProcessCommand(Draft, [capStatementFile.value, rfpFile], draftInputs, env);
    ghost var call := SamCall(inputs.keywords, inputs.apiKey);
    AppendAssociative(old(env.log), [call], afterReview[|afterSearch|..]);
    AppendAssociative(old(env.log), [call] + afterReview[|afterSearch|..], env.log[|afterReview|..]);
    var finalResult := ReportHeader;
    finalResult := finalResult + OpportunityHeading;
    finalResult := finalResult + (rfpFile.content + "\n\n");
    finalResult := finalResult + ReviewHeading;
    finalResult := finalResult + (reviewResult + "\n\n");
    finalResult := finalResult + DraftHeading;
    finalResult := finalResult + draftResult;
    return finalResult;
  }
}
