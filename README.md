# Command dispatcher and session state of the FGA assistant

This project is a Dafny model of the core of a web front-end to a language
model. It has two parts.

The first part is the command dispatcher, `processCommand` in
`services/geminiService.ts`. It models:
- The registry `PROMPT_CONFIG`, which lists the documents each command needs, in order.
- The lookup `getFileContent`.
- The user-prompt builder `constructUserPrompt`.
- The routing of one command. `/search` without parameters answers with an
  `AWAIT_INPUT:` prompt. The four fetch-then-summarise commands go to eCFR,
  SAM.gov, the Federal Register or Regulations.gov. They answer with an error
  or a fixed "no results" text, or they store the serialised results on the
  caller's `otherInputs` and go on. `/full_opportunity_analysis` runs `/review`
  and `/draft` on the capability statement and a generated RFP document, then
  aggregates a report. Every other command validates its documents and asks
  the backend. For `/search` the backend answer gets a de-duplicated list of
  sources.

The second part is the session state of the command interface in
`components/Chat.tsx`:
- the uploaded file set, which holds at most one file per document type;
- the active tab, the form inputs, the loading flag and the result;
- the readiness check of the execute button;
- the inputs sent for each tab;
- the removal of the `AWAIT_INPUT:` prefix from the displayed result;
- the tab labels.

## How it is modelled

- **Collaborators.** The fetchers and the backend are collaborators. Their
  answers are functions held in `Services.Oracles`. A `Services.Environment`
  object hands those answers out and appends every call to its `log`. That
  log is how a contract says "no fetch" or "no backend call".
- **Dispatcher spec.** `GeminiService.Dispatch` is the dispatcher as a
  function. It returns the text, the calls made, in order, and the results
  stored on the caller's inputs.
- **Dispatcher method.** `GeminiService.ProcessCommand` is the step-by-step
  method. It works on a mutable `OtherInputs` object and the environment, and
  it is proved equal to `Dispatch`. Its helper methods follow the source's
  own blocks:
  - `RunFullAnalysis` for the composite branch;
  - `SummarizeFetched` for the shared shape of the four fetch cases;
  - `ValidateAndGenerate` for validation and the backend call.
- **Prompt.** `ConstructUserPrompt` appends block by block in a loop. It is
  proved equal to the function `UserPrompt`.
- **Absent keys.** An absent key of `otherInputs` is `None`. A template
  literal prints it as `undefined`.
- **Session.** `Chat.CommandInterface` is a class with the component's
  state as fields. Its handlers are methods. The pure parts are functions
  and lemmas: readiness, inputs, display and labels.

The code is followed where it departs from its surrounding documentation:
- The first line of the full-analysis report is modelled with the characters
  the source text holds: `U+00E2 U+0153 U+2026`, a mis-decoded check mark.
- `handleExecute` picks the `/search` inputs from the result as it was when
  the button was clicked. That is the value before `setResult('')` takes
  effect.

## Model

| member | source | states |
|---|---|---|
| Types.CommandTextsDistinct | types.ts:4-16 | every command string starts with `/`, has a name after it, and no two commands share a string |
| Seqs.Dedup | services/geminiService.ts:262 | the result has no duplicates, holds exactly the input's elements, and keeps them in the order each was first seen |
| Services.Environment.SearchEcfr | services/geminiService.ts:207 | answers what the eCFR collaborator answers for the query and agencies, and logs one eCFR call |
| Services.Environment.SearchOpportunities | services/geminiService.ts:213 | answers what SAM.gov answers for the keywords and key, and logs one SAM.gov call |
| Services.Environment.SearchNotices | services/geminiService.ts:219 | answers what the Federal Register answers for the term, and logs one call |
| Services.Environment.SearchDocuments | services/geminiService.ts:225 | answers what Regulations.gov answers for the term and key, and logs one call |
| Services.Environment.GenerateContent | services/geminiService.ts:256 | answers what the backend answers for the prompt, with or without web search, and logs one backend call |
| GeminiService.RequiredFiles | services/geminiService.ts:83-139 | no command needs a type twice; the list is empty exactly for the five search commands; a command needing the RFP/RFQ needs the capability statement first and nothing else |
| GeminiService.PromptConfig | services/geminiService.ts:83-139 | the fixed registry: a title, an instruction and the document list of each of the eleven commands; the document list is `RequiredFiles` |
| GeminiService.FindByType | services/geminiService.ts:188 | `None` exactly when no file has the type; otherwise a file of that type with no file of that type before it |
| GeminiService.GetFileContent | services/geminiService.ts:141-143 | `None` exactly when no file has the type; otherwise the content of the first such file, an empty content included |
| GeminiService.Missing | services/geminiService.ts:238 | the required types, in registry order, whose content is absent or empty (exactness is `MissingIsExact`) |
| GeminiService.MissingDocumentsText | services/geminiService.ts:240 | `Error: The command `, the command, ` requires the following documents: `, the type names joined by `, `, then `. Please upload them.` |
| GeminiService.Preamble | services/geminiService.ts:146-154 | the command and a blank line, then the search-parameters block for `/search` with parameters, then the API-results block when results are truthy |
| GeminiService.Sections | services/geminiService.ts:156-162 | one delimited section per listed type whose content is non-empty, in list order |
| GeminiService.UserPrompt | services/geminiService.ts:145-164 | the prompt is the preamble followed by the sections of the command's required types |
| GeminiService.OtherInputs.constructor | components/Chat.tsx:55-78 | the mutable `otherInputs` object handed to the dispatcher holds exactly the given keys |
| GeminiService.ConstructUserPrompt | services/geminiService.ts:145-164 | the loop builds the preamble, then one delimited section per required type with non-empty content, in registry order |
| GeminiService.TruthyUris | services/geminiService.ts:262 | every URI kept is non-empty and comes from a chunk; every present, non-empty chunk URI is kept (the order is `TruthyUrisAppend`) |
| GeminiService.SourcesSuffix | services/geminiService.ts:260-266 | nothing when no chunk has a URI; otherwise the `Sources:` heading and one `- ` line per distinct URI, in first-seen order |
| GeminiService.BackendReply | services/geminiService.ts:256-276 | the reply text, with the sources list only for `/search`; for a thrown error, the error message after the fixed intro, or the fixed unknown-error text |
| GeminiService.FetchErrorText | services/geminiService.ts:231-233 | `Error: ` and the thrown error's message, or the fixed unknown-error text for a thrown non-`Error` |
| GeminiService.NoRegulationsText | services/geminiService.ts:208 | `No regulations found for "`, the query (`undefined` when absent), then `".` |
| GeminiService.NoActiveRfpsText | services/geminiService.ts:214 | `No active RFPs found for "`, the keywords, then `" on SAM.gov.` |
| GeminiService.NoNoticesText | services/geminiService.ts:220 | `No notices found for "`, the term, then `" on Federal Register.` |
| GeminiService.NoDocumentsText | services/geminiService.ts:226 | `No documents found for "`, the search term, then `" on Regulations.gov.` |
| GeminiService.NoOpportunityText | services/geminiService.ts:181 | the no-RFPs text for the keywords followed by ` Cannot proceed with full analysis.` |
| GeminiService.RfpContent | services/geminiService.ts:184 | title, solicitation number, agency, response date and link of the top opportunity, one labelled line each |
| GeminiService.GeneratedRfp | services/geminiService.ts:187 | the RFP/RFQ document `generated-rfp` named after the solicitation number, holding `RfpContent` |
| GeminiService.Report | services/geminiService.ts:197-203 | header, opportunity heading and text, fit-gap heading and review result, draft heading and draft result, in that order |
| GeminiService.Validated | services/geminiService.ts:237-276 | the missing-documents text with no call, or one backend call on the built prompt, with web search only for `/search` |
| GeminiService.Summarized | services/geminiService.ts:206-234 | after a fetch: its error text, the no-results text, or the results stored and handed to `Validated`, the fetch call first |
| GeminiService.FullAnalysis | services/geminiService.ts:177-205 | SAM.gov search; error, no-opportunities text or missing-capability error with that call alone; otherwise `/review` and `/draft` on the capability statement and the generated RFP, aggregated by `Report`, nothing stored |
| GeminiService.Dispatch | services/geminiService.ts:166-277 | `processCommand` as a function: the `/search` sentinel first, then the composite, the four fetch commands, and validation and the backend for the rest; it gives the text, the calls in order and the stored results |
| GeminiService.ProcessCommand | services/geminiService.ts:166-277 | the text, the collaborator calls in order and the results stored on the caller's inputs are those of the dispatcher specification |
| GeminiService.SummarizeFetched | services/geminiService.ts:206-241 | after a fetch: the error text, the no-results text, or the results stored and handed on to validation and the backend, with the calls logged after the fetch |
| GeminiService.ValidateAndGenerate | services/geminiService.ts:237-276 | the missing-documents error with no call, or one backend call with the built prompt and its reply |
| GeminiService.RunFullAnalysis | services/geminiService.ts:177-205 | text and calls of the composite command; it never stores results on the caller's inputs |
| DispatchProperties.SearchWithoutParams | services/geminiService.ts:170-172 | `/search` with absent or empty parameters answers the fixed `AWAIT_INPUT:` text and makes no call |
| DispatchProperties.SearchCommandsNeedNoDocuments | services/geminiService.ts:238 | validation never stops a search command |
| DispatchProperties.FetchThenSummarise | services/geminiService.ts:206-234 | a failed fetch gives `Error: ` and the message; zero results give the command's message; either way the fetch is the only call. Otherwise the results are stored and the backend is called once, with a prompt that carries them |
| DispatchProperties.EcfrRouting | services/geminiService.ts:206-234 | `/ecfr_search` fetches from eCFR with the query and agencies. A failure gives `Error: ` and its message; no results give `No regulations found for "<query>".`; either way eCFR is the only call. Otherwise the results are stored and one backend call without web search summarises them |
| DispatchProperties.ActiveRfpsRouting | services/geminiService.ts:212-234 | `/active_rfps` fetches from SAM.gov with the keywords and key. A failure gives its error text; no opportunities give the no-RFPs text naming the keywords; either way SAM.gov is the only call. Otherwise the results are stored and one backend call summarises them |
| DispatchProperties.RfpNoticesRouting | services/geminiService.ts:218-234 | `/rfp_notices` fetches from the Federal Register with the term. A failure gives its error text; no results give the no-notices text naming the term; either way the fetch is the only call. Otherwise the results are stored and one backend call summarises them |
| DispatchProperties.RulemakingDocumentsRouting | services/geminiService.ts:224-234 | `/rulemaking_documents` fetches from Regulations.gov with the term and key. A failure gives its error text; no results give the no-documents text naming the term; either way the fetch is the only call. Otherwise the results are stored and one backend call summarises them |
| DispatchProperties.OnlyFetchedResultsAreStored | services/geminiService.ts:206-229 | only the four fetch commands ever store results on the caller's inputs |
| DispatchProperties.NoNoticesExample | services/geminiService.ts:218-220 | `/rfp_notices` for `cybersecurity` with no results answers `No notices found for "cybersecurity" on Federal Register.`, the notices fetch is the only call, and nothing is stored |
| DispatchProperties.MissingIsExact | services/geminiService.ts:238 | a type is listed as missing exactly when it is required and its content is absent or empty |
| DispatchProperties.MissingOfPair | services/geminiService.ts:238-240 | for a two-document command the missing types are listed in registry order |
| DispatchProperties.DocumentCommandMissingFiles | services/geminiService.ts:238-241 | a document command with a missing document answers with the message listing the missing types, and calls nothing |
| DispatchProperties.DocumentCommandReachesBackend | services/geminiService.ts:243-256 | with all documents present and non-empty, a document command calls the backend once, without web search |
| DispatchProperties.FullAnalysisNoOpportunities | services/geminiService.ts:179-182 | an empty SAM.gov answer stops the full analysis, before the capability statement is checked, with SAM.gov as the only call |
| DispatchProperties.FullAnalysisNeedsCapability | services/geminiService.ts:188-189 | without a capability statement the full analysis answers with its fixed error, and neither sub-command runs |
| DispatchProperties.GeneratedRfpHasContent | services/geminiService.ts:184-187 | the generated RFP document has id `generated-rfp`, type RFP/RFQ and non-empty content |
| DispatchProperties.SubCommandOnPair | services/geminiService.ts:191-194 | on the capability statement and the generated RFP, `/review` and `/draft` fail only for an empty statement; otherwise each calls the backend once |
| DispatchProperties.FullAnalysisReport | services/geminiService.ts:177-204 | the report is header, opportunity, review result, draft result, in that order; the calls are SAM.gov, then review, then draft |
| DispatchProperties.SectionsAppend | services/geminiService.ts:157-162 | the sections of two type lists joined are the sections of each list, in order |
| DispatchProperties.SectionsDependOnContentOnly | services/geminiService.ts:157-162 | the sections depend only on the content each listed type resolves to |
| DispatchProperties.PromptUsesOnlyRequiredDocuments | services/geminiService.ts:156-162 | files that do not change the first file of any required type do not change the prompt |
| DispatchProperties.NoContentNoSections | services/geminiService.ts:159-161 | with no non-empty content nothing follows the preamble |
| DispatchProperties.PromptStartsWithCommand | services/geminiService.ts:146 | the prompt starts with the command and a blank line |
| DispatchProperties.PreambleWithoutSearchBlock | services/geminiService.ts:146-154 | there is no search block unless the command is `/search` with parameters; the results block is there exactly when results are |
| DispatchProperties.SectionsOfOne | services/geminiService.ts:159-161 | one type gives its section when its content is non-empty, and nothing otherwise |
| DispatchProperties.ReviewPromptOrder | services/geminiService.ts:156-162 | the `/review` prompt holds the capability statement section, then the RFP/RFQ section |
| DispatchProperties.SourcesOnlyForSearch | services/geminiService.ts:258-268 | only `/search` answers get the sources list; any other answer is the backend text alone |
| DispatchProperties.TruthyUrisOfOne | services/geminiService.ts:262 | one chunk gives its URI when present and non-empty, and nothing otherwise |
| DispatchProperties.TruthyUrisAppend | services/geminiService.ts:262 | the URIs of two chunk lists joined are the URIs of the first followed by those of the second: the URIs keep chunk order |
| DispatchProperties.SourcesListing | services/geminiService.ts:260-266 | the sources list is empty with no URIs. Otherwise it lists each distinct non-empty chunk URI once, in first-seen order, under the heading |
| Chat.Upload | components/Chat.tsx:42 | the new file is last; every other file kept is of another type and was there before; every file of another type is kept |
| Chat.Remove | components/Chat.tsx:49 | no file with the id is left; every file with another id is kept |
| Chat.FilterKeepsAtMostOne | components/Chat.tsx:42 | filtering a file set keeps it free of two files of one type |
| Chat.UploadKeepsAtMostOne | components/Chat.tsx:42 | an upload keeps at most one file per type |
| Chat.RemoveKeepsAtMostOne | components/Chat.tsx:49 | a removal keeps at most one file per type |
| Chat.UploadLeavesOneOfType | components/Chat.tsx:42 | after uploading a type, the only file of that type is the new one |
| Chat.UploadKeepsOtherTypes | components/Chat.tsx:42 | the files of each other type stay as they were |
| Chat.UploadKeepsTheRestInOrder | components/Chat.tsx:42 | the files of the other types are exactly those before the upload, in their relative order |
| Chat.RemoveTakesOutOne | components/Chat.tsx:49 | removing one file's id takes out that file and keeps the files before and after it in order |
| Chat.RemoveUnknownId | components/Chat.tsx:49 | removing an id no file has changes nothing |
| Chat.TrimStart | components/Chat.tsx:97 | drops exactly the leading JavaScript white space |
| Chat.TrimEnd | components/Chat.tsx:97 | drops exactly the trailing JavaScript white space |
| Chat.Trim | components/Chat.tsx:97 | `trim`: `TrimEnd` after `TrimStart` |
| Chat.NonBlank | components/Chat.tsx:97 | `!!s.trim()`: the trimmed string is not empty |
| Chat.NonBlankIffVisibleChar | components/Chat.tsx:97-101 | a trimmed input is non-empty exactly when it holds a character that is not white space |
| Chat.FilesReady | components/Chat.tsx:94 | each required type has an uploaded file of that type, whatever its content |
| Chat.Ready | components/Chat.tsx:90-105 | `isReadyForExecution` per tab: the fetch tabs need their inputs non-blank, the full analysis also its files, `/search` is always ready, the others need their files |
| Chat.ReadyMeans | components/Chat.tsx:90-105 | `/search` is always ready; each fetch tab is ready exactly when its inputs hold visible characters; the full analysis also needs a capability statement uploaded |
| Chat.ReadyForDocuments | components/Chat.tsx:94-103 | every other tab is ready exactly when a file of each required type is uploaded |
| Chat.ValidatedFilesAreReady | components/Chat.tsx:94 | files that pass the dispatcher's validation also pass the readiness check |
| Chat.ReadyDoesNotImplyValidated | components/Chat.tsx:94 | an uploaded but empty capability statement makes `/keywords` ready, yet the dispatcher reports it missing |
| Chat.InputsFor | components/Chat.tsx:55-75 | the inputs never carry API results |
| Chat.SearchTwoStep | components/Chat.tsx:57-58 | unless the shown result starts with `AWAIT_INPUT:`, `/search` sends no parameters and gets the prompt with no call; the dispatcher's prompt has that prefix; once a result with it is shown, non-empty parameters reach the backend with web search |
| Chat.Displayed | components/Chat.tsx:226 | a result with the `AWAIT_INPUT:` prefix is shown without it; any other result is shown unchanged |
| Chat.DisplayedSentinel | components/Chat.tsx:226 | the search prompt is shown as its request text alone |
| Chat.PanelFor | components/Chat.tsx:216-231 | the spinner shows exactly while loading; the placeholder shows exactly when idle with an empty result; otherwise the displayed result |
| Chat.LabelChar | components/Chat.tsx:112 | a label character is never `_` and never a lower-case letter |
| Chat.Caption | components/Chat.tsx:112 | the text without its first character: each `_` becomes a space, each lower-case letter its upper-case form, every other character stays; no `_` or lower-case letter is left |
| Chat.TabLabel | components/Chat.tsx:112 | a tab's label is the caption of its command string |
| Chat.TabLabelExample | components/Chat.tsx:112 | the `/ecfr_search` tab is labelled `ECFR SEARCH` |
| Chat.TabLabelsDistinct | components/Chat.tsx:112 | no two tabs get the same label |
| Chat.CommandInterface.IsReadyForExecution | components/Chat.tsx:90-105 | `Ready` on the session's active tab, files and form inputs |
| Chat.CommandInterface.ExecuteEnabled | components/Chat.tsx:176 | the execute button is enabled exactly when nothing is loading and the tab is ready |
| Chat.CommandInterface.View | components/Chat.tsx:216-231 | the panel `PanelFor` gives for the session's loading flag and result |
| Chat.CommandInterface.constructor | components/Chat.tsx:18-31 | the session starts on `/keywords` with no files, not loading, an empty result and empty inputs |
| Chat.CommandInterface.HandleFileChange | components/Chat.tsx:35-43 | the file set becomes the upload of the new file, with an id made of the type name and the clock reading; at most one file per type is kept |
| Chat.CommandInterface.RemoveFile | components/Chat.tsx:49 | the file set becomes the removal of the id; at most one file per type is kept |
| Chat.CommandInterface.SelectTab | components/Chat.tsx:109 | the tab changes and the result is cleared |
| Chat.CommandInterface.Edit | components/Chat.tsx:137-161 | one form input changes; everything else stays |
| Chat.CommandInterface.BeginExecute | components/Chat.tsx:51-75 | loading is raised and the result cleared, so the execute button is disabled until the answer arrives; the inputs are picked from the result shown at the click |
| Chat.CommandInterface.FinishExecute | components/Chat.tsx:79-85 | the result is the response and loading is lowered |
| Chat.CommandInterface.HandleExecute | components/Chat.tsx:51-88 | the result is the dispatcher's answer for the active tab, the calls are those the dispatcher makes, and loading ends lowered |
| Chat.CommandInterface.ExecuteThenSelectTab | components/Chat.tsx:51-109 | a tab click while the answer is pending: the new tab is active and shows the answer computed for the tab, files and inputs of the click on execute; loading ends lowered |

## Left out

- The four REST clients (`services/ecfrService.ts`, `services/samService.ts`, `services/regulationsService.ts`, `services/federalRegisterService.ts`) are not part of this model. Their `fetch` calls, URL building and JSON parsing are network I/O. Each is an oracle answering a record count and an opaque payload, or an error message.
- The generative-AI SDK call and its request object are an oracle on the prompt and the web-search flag. So are the model name and the system prompt text. The API-key check at load time is left out: it runs once when the module loads and throws before any command.
- `JSON.stringify` of a fetch response is an opaque non-empty string.
- The `Promise.all` of the two sub-commands runs them one after the other. They share no state, so the result is the same.
- A thrown fetch or backend error is an error outcome of the oracle. Errors thrown inside the full analysis while reading an opportunity's fields (a missing `organizationHierarchy`) are not modelled: the opportunity record always has its fields.
- A backend reply whose `text` is undefined is not modelled: the reply text is always a string.
- `processCommand` called with `otherInputs` undefined is modelled as called with an empty object. The two differ only for the four fetch commands and `/full_opportunity_analysis`, which read keys of the object and which the interface always calls with an object.
- `handleExecute`'s `catch` branch is not modelled. `processCommand` turns every collaborator error into text, so the branch cannot be reached from the interface.
- The unreachable `!config` checks in `isReadyForExecution` and `renderTabContent` are left out, because every command has a registry entry.
- `FileReader`, the clock behind `Date.now()`, the scroll timer, all JSX rendering and icons, and `Login.tsx`, `SignUp.tsx` and `App.tsx` are left out. They are browser I/O, timing and markup. The clock reading is a parameter of `HandleFileChange`.
- `Caption` upper-cases ASCII letters only, which is all the command strings contain.
- `HandleExecute` runs the handler as one step. The interleavings the `await` at components/Chat.tsx:78 allows are covered for a tab click only, by `ExecuteThenSelectTab`. An upload, a removal or an edit while the answer is pending changes the session state but not the pending dispatch, which works on what was captured at the click; the model does not state those interleavings.
- The `console.error` logging at services/geminiService.ts:271 and components/Chat.tsx:81 is left out: it is console output with no effect on state or on the returned text.
