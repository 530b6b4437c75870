/**
 * The collaborators the dispatcher calls but does not implement: the four
 * government-data fetchers (eCFR, SAM.gov, Federal Register, Regulations.gov)
 * and the language-model backend. What each answers is given by the
 * functions in `Oracles`; an `Environment` hands out those answers and keeps
 * a log of every call made, which is how the model says that a path makes no
 * fetch or no backend call.
 */
module Services {
  import opened Wrappers

  /** `JSON.stringify(response, null, 2)` of a response object: never the empty string. */
  type JsonText = s: string | s != "" witness "{}"

  /**
   * A fetch: the number of records found and the serialised response, or the
   * message of the `Error` the fetcher threw (`None` for a thrown non-`Error`).
   */
  datatype FetchOutcome = Fetched(count: nat, json: JsonText) | FetchFailed(message: Option<string>)

  /** The fields of a SAM.gov opportunity that the full analysis reads. */
  datatype Opportunity = Opportunity(
    title: string,
    solicitationNumber: string,
    agency: string,
    responseDate: string,
    uiLink: string)

  /** A SAM.gov fetch keeps its records: the full analysis needs the first one. */
  datatype SamOutcome = SamFetched(opportunities: seq<Opportunity>, json: JsonText) | SamFailed(message: Option<string>)

  /**
   * A backend answer: the response text and the `web.uri` of each grounding
   * chunk (`None` where a chunk has no web URI), or the message of the error
   * the SDK threw (`None` for a thrown non-`Error`).
   */
  datatype Generation = Generated(text: string, chunkUris: seq<Option<string>>) | GenerationFailed(message: Option<string>)

  /** One call to a collaborator, with the arguments it was given. */
  datatype Call =
    | EcfrCall(query: Option<string>, agencies: Option<string>)
    | SamCall(keywords: Option<string>, apiKey: Option<string>)
    | NoticesCall(term: Option<string>)
    | DocumentsCall(searchTerm: Option<string>, apiKey: Option<string>)
    | GenerateCall(prompt: string, webSearch: bool)

  /** What each collaborator answers, as a function of its arguments. */
  datatype Oracles = Oracles(
    ecfr: (Option<string>, Option<string>) -> FetchOutcome,
    sam: (Option<string>, Option<string>) -> SamOutcome,
    notices: Option<string> -> FetchOutcome,
    documents: (Option<string>, Option<string>) -> FetchOutcome,
    generate: (string, bool) -> Generation)

  class Environment {
    const answers: Oracles
    var log: seq<Call>

    constructor (answers: Oracles)
      ensures this.answers == answers && log == []
    {
      this.answers := answers;
      log := [];
    }

    /** `searchEcfr({ query, agencies })`. */
    method SearchEcfr(query: Option<string>, agencies: Option<string>) returns (r: FetchOutcome)
      modifies this
      ensures r == answers.ecfr(query, agencies)
      ensures log == old(log) + [EcfrCall(query, agencies)]
    {
      r := answers.ecfr(query, agencies);
      log := log + [EcfrCall(query, agencies)];
    }

    /** `searchOpportunities({ keywords, apiKey })`. */
    method SearchOpportunities(keywords: Option<string>, apiKey: Option<string>) returns (r: SamOutcome)
      modifies this
      ensures r == answers.sam(keywords, apiKey)
      ensures log == old(log) + [SamCall(keywords, apiKey)]
    {
      r := answers.sam(keywords, apiKey);
      log := log + [SamCall(keywords, apiKey)];
    }

    /** `searchNotices({ term })`. */
    method SearchNotices(term: Option<string>) returns (r: FetchOutcome)
      modifies this
      ensures r == answers.notices(term)
      ensures log == old(log) + [NoticesCall(term)]
    {
      r := answers.notices(term);
      log := log + [NoticesCall(term)];
    }

    /** `searchDocuments({ searchTerm, apiKey })`. */
    method SearchDocuments(searchTerm: Option<string>, apiKey: Option<string>) returns (r: FetchOutcome)
      modifies this
      ensures r == answers.documents(searchTerm, apiKey)
      ensures log == old(log) + [DocumentsCall(searchTerm, apiKey)]
    {
      r := answers.documents(searchTerm, apiKey);
      log := log + [DocumentsCall(searchTerm, apiKey)];
    }

    /** `ai.models.generateContent(...)` on one user prompt, with web search enabled or not. */
    method GenerateContent(prompt: string, webSearch: bool) returns (r: Generation)
      modifies this
      ensures r == answers.generate(prompt, webSearch)
      ensures log == old(log) + [GenerateCall(prompt, webSearch)]
    {
      r := answers.generate(prompt, webSearch);
      log := log + [GenerateCall(prompt, webSearch)];
    }
  }
}
