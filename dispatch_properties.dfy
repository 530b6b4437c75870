/**
 * Properties of the command dispatcher: the short-circuits of `processCommand`
 * and what they call, the document validation message, the composite full
 * analysis, the structure of the user prompt and the sources list.
 */
module DispatchProperties {
  import opened Wrappers
  import opened Types
  import opened Seqs
  import opened Services
  import opened GeminiService

  // ---------------------------------------------------------- short-circuits

  /** An initial `/search` answers with the input request and calls nothing. */
  lemma SearchWithoutParams(files: seq<AppFile>, inputs: AuxInputs, o: Oracles)
    requires !Truthy(inputs.searchParams)
    ensures Dispatch(Search, files, inputs, o) == Outcome(AwaitPrefix + AwaitRequest, [], None)
  {
  }

  /** A search command that requires no documents is never stopped by validation. */
  lemma {:induction false} SearchCommandsNeedNoDocuments(command: Command, files: seq<AppFile>)
    requires IsSearchCommand(command)
    ensures Missing(RequiredFiles(command), files) == []
  {
    assert RequiredFiles(command) == [];
  }

  /** The four commands that fetch from a public API and then have the results summarised. */
  predicate IsFetchCommand(command: Command)
  {
    command in {EcfrSearch, ActiveRfps, RfpNotices, RulemakingDocuments}
  }

  /**
   * For the four fetch-then-summarise commands: a failed fetch answers with
   * `Error: ` and the message, no results answers with the command's own
   * message, and in both cases the fetch is the only call and nothing is
   * stored; otherwise the results are stored and the backend is asked once,
   * with a prompt that carries them.
   */
  lemma {:induction false} FetchThenSummarise(command: Command, files: seq<AppFile>, inputs: AuxInputs, o: Oracles,
                                              call: Call, fetched: FetchOutcome, noResults: string)
    requires IsSearchCommand(command) && command != Search
    ensures var out := Summarized(command, files, inputs, o, call, fetched, noResults);
      && (fetched.FetchFailed? ==> out == Outcome(FetchErrorText(fetched.message), [call], None))
      && (fetched.Fetched? && fetched.count == 0 ==> out == Outcome(noResults, [call], None))
      && (fetched.Fetched? && fetched.count > 0 ==>
            var prompt := UserPrompt(command, files, inputs.(apiResults := Some(fetched.json)));
            && out.stored == Some(fetched.json)
            && out.calls == [call, GenerateCall(prompt, false)]
            && out.text == BackendReply(command, o.generate(prompt, false)))
  {
    SearchCommandsNeedNoDocuments(command, files);
  }

  /**
   * `/ecfr_search` asks eCFR for the query and agencies. A failed fetch gives
   * `Error: ` and its message, no results give the no-regulations text naming
   * the query; either way eCFR is the only call. Otherwise the results are
   * stored and summarised by one backend call.
   */
  lemma EcfrRouting(files: seq<AppFile>, inputs: AuxInputs, o: Oracles)
    ensures var call := EcfrCall(inputs.ecfrQuery, inputs.ecfrAgencies);
      var fetched := o.ecfr(inputs.ecfrQuery, inputs.ecfrAgencies);
      var out := Dispatch(EcfrSearch, files, inputs, o);
      && (fetched.FetchFailed? ==> out == Outcome(FetchErrorText(fetched.message), [call], None))
      && (fetched.Fetched? && fetched.count == 0 ==> out == Outcome(NoRegulationsText(inputs.ecfrQuery), [call], None))
      && (fetched.Fetched? && fetched.count > 0 ==>
            var prompt := UserPrompt(EcfrSearch, files, inputs.(apiResults := Some(fetched.json)));
            out == Outcome(BackendReply(EcfrSearch, o.generate(prompt, false)), [call, GenerateCall(prompt, false)], Some(fetched.json)))
  {
    FetchThenSummarise(EcfrSearch, files, inputs, o, EcfrCall(inputs.ecfrQuery, inputs.ecfrAgencies),
                       o.ecfr(inputs.ecfrQuery, inputs.ecfrAgencies), NoRegulationsText(inputs.ecfrQuery));
  }

  /**
   * `/active_rfps` asks SAM.gov for the keywords with the key. A failed fetch
   * gives its error text, no opportunities give the no-RFPs text naming the
   * keywords; either way SAM.gov is the only call. Otherwise the results are
   * stored and summarised by one backend call.
   */
  lemma ActiveRfpsRouting(files: seq<AppFile>, inputs: AuxInputs, o: Oracles)
    ensures var call := SamCall(inputs.keywords, inputs.apiKey);
      var fetched := o.sam(inputs.keywords, inputs.apiKey);
      var out := Dispatch(ActiveRfps, files, inputs, o);
      && (fetched.SamFailed? ==> out == Outcome(FetchErrorText(fetched.message), [call], None))
      && (fetched.SamFetched? && |fetched.opportunities| == 0 ==> out == Outcome(NoActiveRfpsText(inputs.keywords), [call], None))
      && (fetched.SamFetched? && |fetched.opportunities| > 0 ==>
            var prompt := UserPrompt(ActiveRfps, files, inputs.(apiResults := Some(fetched.json)));
            out == Outcome(BackendReply(ActiveRfps, o.generate(prompt, false)), [call, GenerateCall(prompt, false)], Some(fetched.json)))
  {
    FetchThenSummarise(ActiveRfps, files, inputs, o, SamCall(inputs.keywords, inputs.apiKey),
                       SamAsFetch(o.sam(inputs.keywords, inputs.apiKey)), NoActiveRfpsText(inputs.keywords));
  }

  /**
   * `/rfp_notices` asks the Federal Register for the term. A failed fetch
   * gives its error text, no results give the no-notices text naming the
   * term; either way the Federal Register is the only call. Otherwise the
   * results are stored and summarised by one backend call.
   */
  lemma RfpNoticesRouting(files: seq<AppFile>, inputs: AuxInputs, o: Oracles)
    ensures var call := NoticesCall(inputs.term);
      var fetched := o.notices(inputs.term);
      var out := Dispatch(RfpNotices, files, inputs, o);
      && (fetched.FetchFailed? ==> out == Outcome(FetchErrorText(fetched.message), [call], None))
      && (fetched.Fetched? && fetched.count == 0 ==> out == Outcome(NoNoticesText(inputs.term), [call], None))
      && (fetched.Fetched? && fetched.count > 0 ==>
            var prompt := UserPrompt(RfpNotices, files, inputs.(apiResults := Some(fetched.json)));
            out == Outcome(BackendReply(RfpNotices, o.generate(prompt, false)), [call, GenerateCall(prompt, false)], Some(fetched.json)))
  {
    FetchThenSummarise(RfpNotices, files, inputs, o, NoticesCall(inputs.term), o.notices(inputs.term), NoNoticesText(inputs.term));
  }

  /**
   * `/rulemaking_documents` asks Regulations.gov for the search term with the
   * key. A failed fetch gives its error text, no results give the
   * no-documents text naming the term; either way Regulations.gov is the only
   * call. Otherwise the results are stored and summarised by one backend call.
   */
  lemma RulemakingDocumentsRouting(files: seq<AppFile>, inputs: AuxInputs, o: Oracles)
    ensures var call := DocumentsCall(inputs.searchTerm, inputs.apiKey);
      var fetched := o.documents(inputs.searchTerm, inputs.apiKey);
      var out := Dispatch(RulemakingDocuments, files, inputs, o);
      && (fetched.FetchFailed? ==> out == Outcome(FetchErrorText(fetched.message), [call], None))
      && (fetched.Fetched? && fetched.count == 0 ==> out == Outcome(NoDocumentsText(inputs.searchTerm), [call], None))
      && (fetched.Fetched? && fetched.count > 0 ==>
            var prompt := UserPrompt(RulemakingDocuments, files, inputs.(apiResults := Some(fetched.json)));
            out == Outcome(BackendReply(RulemakingDocuments, o.generate(prompt, false)), [call, GenerateCall(prompt, false)], Some(fetched.json)))
  {
    FetchThenSummarise(RulemakingDocuments, files, inputs, o, DocumentsCall(inputs.searchTerm, inputs.apiKey),
                       o.documents(inputs.searchTerm, inputs.apiKey), NoDocumentsText(inputs.searchTerm));
  }

  /** Only a fetch-then-summarise command with results stores anything on the caller's inputs. */
  lemma {:induction false} OnlyFetchedResultsAreStored(command: Command, files: seq<AppFile>, inputs: AuxInputs, o: Oracles)
    ensures Dispatch(command, files, inputs, o).stored.Some? ==> IsFetchCommand(command)
  {
    if !IsFetchCommand(command) && !(command == Search && !Truthy(inputs.searchParams)) && command != FullOpportunityAnalysis {
      assert Dispatch(command, files, inputs, o) == Validated(command, files, inputs, o);
    }
  }

  /**
   * `/rfp_notices` for "cybersecurity" when the Federal Register finds
   * nothing: the exact no-notices text, and the notices fetch is the only call.
   */
  lemma NoNoticesExample(files: seq<AppFile>, json: JsonText, o: Oracles)
    requires o.notices(Some("cybersecurity")) == Fetched(0, json)
    ensures Dispatch(RfpNotices, files, NoInputs.(term := Some("cybersecurity")), o)
      == Outcome("No notices found for \"cybersecurity\" on Federal Register.", [NoticesCall(Some("cybersecurity"))], None)
  {
    var term := Some("cybersecurity");
    var inputs := NoInputs.(term := term);
    RfpNoticesRouting(files, inputs, o);
    var out := Dispatch(RfpNotices, files, inputs, o);
    assert out == Outcome(NoNoticesText(term), [NoticesCall(term)], None);
    NoNoticesTextSpelledOut();
  }

  /** The literal step of `NoNoticesExample`, kept apart because it is costly for the solver. */
  lemma NoNoticesTextSpelledOut()
    ensures NoNoticesText(Some("cybersecurity")) == "No notices found for \"cybersecurity\" on Federal Register."
  {
  }

  // ---------------------------------------------------------- validation

  /** A type is reported missing exactly when the command needs it and its content is absent or empty. */
  lemma MissingIsExact(required: seq<DocumentType>, files: seq<AppFile>, t: DocumentType)
    ensures t in Missing(required, files) <==> t in required && !HasContent(files, t)
  {
    if t in required && !HasContent(files, t) {
      var k :| 0 <= k < |required| && required[k] == t;
    }
  }

  /** For a two-document command the missing types keep the registry order. */
  lemma {:induction false} MissingOfPair(a: DocumentType, b: DocumentType, files: seq<AppFile>)
    ensures Missing([a, b], files) ==
      (if HasContent(files, a) then [] else [a]) + (if HasContent(files, b) then [] else [b])
  {
    var keep := t => !HasContent(files, t);
    assert [a, b][1..] == [b];
    assert [b][1..] == [];
    assert Filter([a, b], keep) == (if keep(a) then [a] else []) + Filter([b], keep);
    assert Filter([b], keep) == (if keep(b) then [b] else []) + Filter([], keep);
  }

  /**
   * A document command whose documents are not all there answers with the
   * message listing them and calls nothing.
   */
  lemma DocumentCommandMissingFiles(command: Command, files: seq<AppFile>, inputs: AuxInputs, o: Oracles)
    requires !IsSearchCommand(command) && command != FullOpportunityAnalysis
    requires Missing(RequiredFiles(command), files) != []
    ensures Dispatch(command, files, inputs, o)
      == Outcome(MissingDocumentsText(command, Missing(RequiredFiles(command), files)), [], None)
  {
  }

  /**
   * With all its documents present and non-empty, a document command asks the
   * backend once, without web search, with the prompt built from them.
   */
  lemma DocumentCommandReachesBackend(command: Command, files: seq<AppFile>, inputs: AuxInputs, o: Oracles)
    requires !IsSearchCommand(command) && command != FullOpportunityAnalysis
    requires forall i :: 0 <= i < |RequiredFiles(command)| ==> HasContent(files, RequiredFiles(command)[i])
    ensures var prompt := UserPrompt(command, files, inputs);
      Dispatch(command, files, inputs, o) == Outcome(BackendReply(command, o.generate(prompt, false)), [GenerateCall(prompt, false)], None)
  {
    var required := RequiredFiles(command);
    var missing := Missing(required, files);
    if missing != [] {
      MissingIsExact(required, files, missing[0]);
    }
  }

  // ---------------------------------------------------------- full analysis

  /** An empty SAM.gov answer stops the full analysis before the capability statement is looked at. */
  lemma FullAnalysisNoOpportunities(files: seq<AppFile>, inputs: AuxInputs, o: Oracles, json: JsonText)
    requires o.sam(inputs.keywords, inputs.apiKey) == SamFetched([], json)
    ensures FullAnalysis(files, inputs, o)
      == Outcome(NoOpportunityText(inputs.keywords), [SamCall(inputs.keywords, inputs.apiKey)], None)
  {
  }

  /** Without a capability statement the full analysis stops after the search, before either sub-command. */
  lemma FullAnalysisNeedsCapability(files: seq<AppFile>, inputs: AuxInputs, o: Oracles)
    requires o.sam(inputs.keywords, inputs.apiKey).SamFetched?
    requires |o.sam(inputs.keywords, inputs.apiKey).opportunities| > 0
    requires forall i :: 0 <= i < |files| ==> files[i].docType != CapabilityStatement
    ensures FullAnalysis(files, inputs, o)
      == Outcome(CapabilityRequiredText, [SamCall(inputs.keywords, inputs.apiKey)], None)
  {
  }

  /** The generated RFP document always has content, so it never fails validation. */
  lemma GeneratedRfpHasContent(top: Opportunity)
    ensures GeneratedRfp(top).content != "" && GeneratedRfp(top).docType == Rfp && GeneratedRfp(top).id == "generated-rfp"
  {
    assert RfpContent(top)[0] == 'T';
  }

  /** `/review` or `/draft` on a capability statement and the generated RFP: only the statement can be missing. */
  lemma SubCommandOnPair(command: Command, cap: AppFile, top: Opportunity, o: Oracles)
    requires command == Review || command == Draft
    requires cap.docType == CapabilityStatement
    ensures var pair := [cap, GeneratedRfp(top)];
      var out := Dispatch(command, pair, NoInputs, o);
      && (cap.content == "" ==> out == Outcome(MissingDocumentsText(command, [CapabilityStatement]), [], None))
      && (cap.content != "" ==> out.calls == [GenerateCall(UserPrompt(command, pair, NoInputs), false)])
  {
    var rfpFile := GeneratedRfp(top);
    var pair := [cap, rfpFile];
    GeneratedRfpHasContent(top);
    assert FindByType(pair, CapabilityStatement) == Some(cap);
    assert FindByType(pair, Rfp) == Some(rfpFile);
    MissingOfPair(CapabilityStatement, Rfp, pair);
  }

  /**
   * The full analysis, when it finds an opportunity and a capability statement:
   * `/review` then `/draft`, each on exactly the capability statement and the
   * generated RFP, and the report holds the RFP text, the review and the draft
   * in that order. A capability statement with empty content makes both
   * sub-commands answer with the missing-document message; otherwise each asks
   * the backend once.
   */
  lemma FullAnalysisReport(files: seq<AppFile>, inputs: AuxInputs, o: Oracles, cap: AppFile)
    requires o.sam(inputs.keywords, inputs.apiKey).SamFetched?
    requires |o.sam(inputs.keywords, inputs.apiKey).opportunities| > 0
    requires FindByType(files, CapabilityStatement) == Some(cap)
    ensures var top := o.sam(inputs.keywords, inputs.apiKey).opportunities[0];
      var pair := [cap, GeneratedRfp(top)];
      var review := Dispatch(Review, pair, NoInputs, o);
      var draft := Dispatch(Draft, pair, NoInputs, o);
      var out := FullAnalysis(files, inputs, o);
      && out.text == Report(RfpContent(top), review.text, draft.text)
      && out.calls == [SamCall(inputs.keywords, inputs.apiKey)] + review.calls + draft.calls
      && (cap.content == "" ==>
            review == Outcome(MissingDocumentsText(Review, [CapabilityStatement]), [], None)
            && draft == Outcome(MissingDocumentsText(Draft, [CapabilityStatement]), [], None))
      && (cap.content != "" ==>
            review.calls == [GenerateCall(UserPrompt(Review, pair, NoInputs), false)]
            && draft.calls == [GenerateCall(UserPrompt(Draft, pair, NoInputs), false)])
  {
    var top := o.sam(inputs.keywords, inputs.apiKey).opportunities[0];
    assert cap.docType == CapabilityStatement;
    SubCommandOnPair(Review, cap, top, o);
    SubCommandOnPair(Draft, cap, top, o);
  }

  // ---------------------------------------------------------- user prompt

  /** The sections of a concatenated type list are the sections of each part, in order. */
  lemma {:induction false} SectionsAppend(a: seq<DocumentType>, b: seq<DocumentType>, files: seq<AppFile>)
    ensures Sections(a + b, files) == Sections(a, files) + Sections(b, files)
    decreases |b|
  {
    if b == [] {
      assert a + b == a;
    } else {
      var init := b[..|b| - 1];
      var last := b[|b| - 1];
      assert (a + b)[..|a + b| - 1] == a + init;
      assert (a + b)[|a + b| - 1] == last;
      SectionsAppend(a, init, files);
      var piece := if HasContent(files, last) then Section(last, GetFileContent(files, last).value) else "";
      AppendAssociative(Sections(a, files), Sections(init, files), piece);
    }
  }

  /** The sections depend only on the content each listed type resolves to. */
  lemma {:induction false} SectionsDependOnContentOnly(types: seq<DocumentType>, files: seq<AppFile>, others: seq<AppFile>)
    requires forall i :: 0 <= i < |types| ==> GetFileContent(files, types[i]) == GetFileContent(others, types[i])
    ensures Sections(types, files) == Sections(types, others)
  {
    if types != [] {
      SectionsDependOnContentOnly(types[..|types| - 1], files, others);
    }
  }

  /**
   * The prompt depends on the uploaded files only through the first file of
   * each required type: extra files of other types, or later files of a
   * required type, change nothing.
   */
  lemma PromptUsesOnlyRequiredDocuments(command: Command, files: seq<AppFile>, others: seq<AppFile>, inputs: AuxInputs)
    requires forall t :: t in RequiredFiles(command) ==> GetFileContent(files, t) == GetFileContent(others, t)
    ensures UserPrompt(command, files, inputs) == UserPrompt(command, others, inputs)
  {
    SectionsDependOnContentOnly(RequiredFiles(command), files, others);
  }

  /** With no document content at all, the prompt is the preamble alone. */
  lemma {:induction false} NoContentNoSections(types: seq<DocumentType>, files: seq<AppFile>)
    requires forall i :: 0 <= i < |types| ==> !HasContent(files, types[i])
    ensures Sections(types, files) == ""
  {
    if types != [] {
      NoContentNoSections(types[..|types| - 1], files);
    }
  }

  /** The prompt opens with the command and a blank line. */
  lemma PromptStartsWithCommand(command: Command, files: seq<AppFile>, inputs: AuxInputs)
    ensures StartsWith(UserPrompt(command, files, inputs), command.Text() + "\n\n")
  {
    var head := command.Text() + "\n\n";
    var pre := Preamble(command, inputs);
    var withSearch := if command == Search && Truthy(inputs.searchParams) then head + SearchParamsBlock(inputs.searchParams.value) else head;
    assert withSearch[..|head|] == head;
    assert pre[..|head|] == head by {
      assert pre[..|withSearch|] == withSearch;
    }
    var prompt := UserPrompt(command, files, inputs);
    assert prompt[..|pre|] == pre;
    assert prompt[..|head|] == pre[..|head|];
  }

  /**
   * Outside `/search` with parameters there is no search block, and the
   * results block is there exactly when there are results.
   */
  lemma PreambleWithoutSearchBlock(command: Command, inputs: AuxInputs)
    requires command != Search || !Truthy(inputs.searchParams)
    ensures Preamble(command, inputs) == command.Text() + "\n\n"
        + (if Truthy(inputs.apiResults) then ApiResultsBlock(command, inputs.apiResults.value) else "")
  {
    assert command.Text() + "\n\n" + "" == command.Text() + "\n\n";
  }

  lemma SectionsOfOne(t: DocumentType, files: seq<AppFile>)
    ensures Sections([t], files) == if HasContent(files, t) then Section(t, GetFileContent(files, t).value) else ""
  {
    assert [t][..0] == [];
  }

  /** `/review` with both documents: the prompt is the command, then the two sections in registry order. */
  lemma ReviewPromptOrder(files: seq<AppFile>)
    requires HasContent(files, CapabilityStatement) && HasContent(files, Rfp)
    ensures UserPrompt(Review, files, NoInputs) == Review.Text() + "\n\n"
      + Section(CapabilityStatement, GetFileContent(files, CapabilityStatement).value)
      + Section(Rfp, GetFileContent(files, Rfp).value)
  {
    var head := Review.Text() + "\n\n";
    var capSection := Section(CapabilityStatement, GetFileContent(files, CapabilityStatement).value);
    var rfpSection := Section(Rfp, GetFileContent(files, Rfp).value);
    assert Preamble(Review, NoInputs) == head;
    assert RequiredFiles(Review) == [CapabilityStatement] + [Rfp];
    SectionsAppend([CapabilityStatement], [Rfp], files);
    SectionsOfOne(CapabilityStatement, files);
    SectionsOfOne(Rfp, files);
    assert Sections(RequiredFiles(Review), files) == capSection + rfpSection;
    AppendAssociative(head, capSection, rfpSection);
  }

  // ---------------------------------------------------------- sources

  /** The URIs of one chunk: its URI when present and not empty, else none. */
  lemma TruthyUrisOfOne(chunk: Option<string>)
    ensures TruthyUris([chunk]) == if Truthy(chunk) then [chunk.value] else []
  {
  }

  /** The URIs of consecutive chunk lists follow one another: the kept URIs stay in chunk order. */
  lemma {:induction false} TruthyUrisAppend(a: seq<Option<string>>, b: seq<Option<string>>)
    ensures TruthyUris(a + b) == TruthyUris(a) + TruthyUris(b)
  {
    if a == [] {
      assert a + b == b;
    } else {
      assert (a + b)[1..] == a[1..] + b;
      TruthyUrisAppend(a[1..], b);
      AppendAssociative(if Truthy(a[0]) then [a[0].value] else [], TruthyUris(a[1..]), TruthyUris(b));
    }
  }

  /** Only `/search` answers carry a sources list. */
  lemma SourcesOnlyForSearch(command: Command, text: string, chunks: seq<Option<string>>)
    ensures command != Search ==> BackendReply(command, Generated(text, chunks)) == text
    ensures command == Search ==> BackendReply(command, Generated(text, chunks)) == text + SourcesSuffix(chunks)
  {
  }

  /**
   * The sources list: nothing when no chunk has a URI; otherwise the heading
   * and one bullet per distinct URI, each once, in the order first seen.
   */
  lemma SourcesListing(chunks: seq<Option<string>>)
    ensures (forall i :: 0 <= i < |chunks| ==> !Truthy(chunks[i])) ==> SourcesSuffix(chunks) == ""
    ensures var unique := Dedup(TruthyUris(chunks));
      && NoDuplicates(unique)
      && (forall i :: 0 <= i < |chunks| && Truthy(chunks[i]) ==> chunks[i].value in unique)
      && (forall i :: 0 <= i < |unique| ==> Some(unique[i]) in chunks && unique[i] != "")
      && (forall i, j :: 0 <= i < j < |unique| ==>
            FirstIndex(TruthyUris(chunks), unique[i]) < FirstIndex(TruthyUris(chunks), unique[j]))
      && (unique != [] ==> SourcesSuffix(chunks) == SourcesHeading + Join(Bullets(unique), "\n"))
  {
    var uris := TruthyUris(chunks);
    var unique := Dedup(uris);
    forall i | 0 <= i < |unique| ensures Some(unique[i]) in chunks && unique[i] != "" {
      var k :| 0 <= k < |uris| && uris[k] == unique[i];
    }
  }
}
