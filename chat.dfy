/**
 * The command interface's session state: the uploaded file set (at most one
 * file per document type), the active tab, the form inputs, the loading flag
 * and the result text, with the handlers that update them and the pure views
 * over them (execution readiness, the displayed result, the tab labels).
 */
module Chat {
  import opened Wrappers
  import opened Types
  import opened Seqs
  import opened Services
  import opened GeminiService

  // ---------------------------------------------------------------- file set

  function OfType(t: DocumentType): AppFile -> bool
  {
    (f: AppFile) => f.docType == t
  }

  function OfOtherType(t: DocumentType): AppFile -> bool
  {
    (f: AppFile) => f.docType != t
  }

  function WithOtherId(id: string): AppFile -> bool
  {
    (f: AppFile) => f.id != id
  }

  /** The session invariant: no two uploaded files share a document type. */
  predicate AtMostOnePerType(files: seq<AppFile>)
  {
    forall i, j :: 0 <= i < j < |files| ==> files[i].docType != files[j].docType
  }

  /** The file set after uploading `f`: every file of `f`'s type is dropped and `f` goes last. */
  function Upload(files: seq<AppFile>, f: AppFile): (r: seq<AppFile>)
    ensures |r| >= 1 && r[|r| - 1] == f
    ensures forall i :: 0 <= i < |r| - 1 ==> r[i].docType != f.docType && r[i] in files
    ensures forall i :: 0 <= i < |files| && files[i].docType != f.docType ==> files[i] in r
  {
    Filter(files, OfOtherType(f.docType)) + [f]
  }

  /** The file set after removing the file with id `id`: every file with that id goes, the rest stay. */
  function Remove(files: seq<AppFile>, id: string): (r: seq<AppFile>)
    ensures forall i :: 0 <= i < |r| ==> r[i].id != id && r[i] in files
    ensures forall i :: 0 <= i < |files| && files[i].id != id ==> files[i] in r
  {
    Filter(files, WithOtherId(id))
  }

  /** Filtering a file set keeps it free of two files of one type. */
  lemma {:induction false} FilterKeepsAtMostOne(files: seq<AppFile>, keep: AppFile -> bool)
    requires AtMostOnePerType(files)
    ensures AtMostOnePerType(Filter(files, keep))
  {
    if files != [] {
      var tail := Filter(files[1..], keep);
      assert AtMostOnePerType(files[1..]);
      FilterKeepsAtMostOne(files[1..], keep);
      if keep(files[0]) {
        forall j | 0 <= j < |tail| ensures tail[j].docType != files[0].docType {
          var k :| 0 <= k < |files[1..]| && files[1..][k] == tail[j];
          assert files[k + 1] == tail[j];
        }
        assert Filter(files, keep) == [files[0]] + tail;
      } else {
        assert Filter(files, keep) == tail;
      }
    }
  }

  lemma UploadKeepsAtMostOne(files: seq<AppFile>, f: AppFile)
    requires AtMostOnePerType(files)
    ensures AtMostOnePerType(Upload(files, f))
  {
    FilterKeepsAtMostOne(files, OfOtherType(f.docType));
  }

  lemma RemoveKeepsAtMostOne(files: seq<AppFile>, id: string)
    requires AtMostOnePerType(files)
    ensures AtMostOnePerType(Remove(files, id))
  {
    FilterKeepsAtMostOne(files, WithOtherId(id));
  }

  /** After an upload of type `T` the set holds exactly one file of type `T`: the new one. */
  lemma UploadLeavesOneOfType(files: seq<AppFile>, f: AppFile)
    ensures Filter(Upload(files, f), OfType(f.docType)) == [f]
  {
    var kept := Filter(files, OfOtherType(f.docType));
    FilterAppend(kept, [f], OfType(f.docType));
    FilterDropsAll(kept, OfType(f.docType));
    assert [f][1..] == [];
  }

  /** An upload of type `T` leaves the files of each other type as they were. */
  lemma UploadKeepsOtherTypes(files: seq<AppFile>, f: AppFile, t: DocumentType)
    requires t != f.docType
    ensures Filter(Upload(files, f), OfType(t)) == Filter(files, OfType(t))
  {
    var kept := Filter(files, OfOtherType(f.docType));
    FilterAppend(kept, [f], OfType(t));
    assert Filter([f], OfType(t)) == Filter([], OfType(t));
    FilterOfFilter(files, OfOtherType(f.docType), OfType(t));
  }

  /**
   * An upload of type `T` keeps the files of the other types exactly, in
   * their relative order.
   */
  lemma {:induction false} UploadKeepsTheRestInOrder(files: seq<AppFile>, f: AppFile)
    ensures Filter(Upload(files, f), OfOtherType(f.docType)) == Filter(files, OfOtherType(f.docType))
  {
    var other := OfOtherType(f.docType);
    var kept := Filter(files, other);
    FilterAppend(kept, [f], other);
    assert Filter([f], other) == [];
    FilterOfFilter(files, other, other);
    assert kept + [] == kept;
  }

  /** Removing the id of one file takes out that file and keeps the others in order. */
  lemma RemoveTakesOutOne(before: seq<AppFile>, f: AppFile, after: seq<AppFile>)
    requires forall i :: 0 <= i < |before| ==> before[i].id != f.id
    requires forall i :: 0 <= i < |after| ==> after[i].id != f.id
    ensures Remove(before + [f] + after, f.id) == before + after
  {
    var keep := WithOtherId(f.id);
    var front := before + [f];
    FilterAppend(front, after, keep);
    FilterAppend(before, [f], keep);
    assert !keep(f);
    assert Filter([f], keep) == [];
    FilterKeepsAll(before, keep);
    FilterKeepsAll(after, keep);
    assert Filter(front, keep) == before;
  }

  /** Removing an id no file has changes nothing. */
  lemma RemoveUnknownId(files: seq<AppFile>, id: string)
    requires forall i :: 0 <= i < |files| ==> files[i].id != id
    ensures Remove(files, id) == files
  {
    FilterKeepsAll(files, WithOtherId(id));
  }

  // ---------------------------------------------------------------- readiness

  /** The characters JavaScript's `trim` removes: white space and line terminators. */
  predicate IsJsSpace(c: char)
  {
    c in {'\t', '\n', '\U{000B}', '\U{000C}', '\r', ' ', '\U{00A0}', '\U{1680}',
          '\U{2028}', '\U{2029}', '\U{202F}', '\U{205F}', '\U{3000}', '\U{FEFF}'}
    || ('\U{2000}' <= c <= '\U{200A}')
  }

  /** `s.trimStart()`. */
  function TrimStart(s: string): (r: string)
    ensures |r| <= |s| && r == s[|s| - |r|..]
    ensures forall i :: 0 <= i < |s| - |r| ==> IsJsSpace(s[i])
    ensures r == [] || !IsJsSpace(r[0])
  {
    if s != [] && IsJsSpace(s[0]) then TrimStart(s[1..]) else s
  }

  /** `s.trimEnd()`. */
  function TrimEnd(s: string): (r: string)
    ensures |r| <= |s| && r == s[..|r|]
    ensures forall i :: |r| <= i < |s| ==> IsJsSpace(s[i])
    ensures r == [] || !IsJsSpace(r[|r| - 1])
  {
    if s != [] && IsJsSpace(s[|s| - 1]) then TrimEnd(s[..|s| - 1]) else s
  }

  /** `s.trim()`. */
  function Trim(s: string): string
  {
    TrimEnd(TrimStart(s))
  }

  /** `!!s.trim()`. */
  predicate NonBlank(s: string)
  {
    Trim(s) != ""
  }

  /** A string is blank after trimming exactly when every character is white space. */
  lemma NonBlankIffVisibleChar(s: string)
    ensures NonBlank(s) <==> HasVisibleChar(s)
  {
    var start := TrimStart(s);
    if Trim(s) == "" {
      assert start == "";
    } else {
      var k := |s| - |start|;
      assert !IsJsSpace(s[k]) by {
        assert s[k] == start[0];
      }
    }
  }

  /** `requiredFiles.every(type => files.some(f => f.type === type))`. */
  predicate FilesReady(required: seq<DocumentType>, files: seq<AppFile>)
  {
    forall i :: 0 <= i < |required| ==> exists j :: 0 <= j < |files| && files[j].docType == required[i]
  }

  /** The form inputs the interface keeps. */
  datatype FormFields = FormFields(
    searchParams: string,
    ecfrQuery: string,
    ecfrAgencies: string,
    samKeywords: string,
    samApiKey: string,
    frNoticesTerm: string,
    regulationsTerm: string,
    regulationsApiKey: string)

  /** One of the form's inputs. */
  datatype Field =
    | SearchParamsField | EcfrQueryField | EcfrAgenciesField | SamKeywordsField
    | SamApiKeyField | FrNoticesTermField | RegulationsTermField | RegulationsApiKeyField

  /** The form after the input `field` is set to `value`. */
  function Edited(form: FormFields, field: Field, value: string): FormFields
  {
    match field
    case SearchParamsField => form.(searchParams := value)
    case EcfrQueryField => form.(ecfrQuery := value)
    case EcfrAgenciesField => form.(ecfrAgencies := value)
    case SamKeywordsField => form.(samKeywords := value)
    case SamApiKeyField => form.(samApiKey := value)
    case FrNoticesTermField => form.(frNoticesTerm := value)
    case RegulationsTermField => form.(regulationsTerm := value)
    case RegulationsApiKeyField => form.(regulationsApiKey := value)
  }

  /** `isReadyForExecution` for the tab `tab`. */
  predicate Ready(tab: Command, files: seq<AppFile>, form: FormFields)
  {
    var filesReady := FilesReady(RequiredFiles(tab), files);
    match tab
    case EcfrSearch => NonBlank(form.ecfrQuery)
    case ActiveRfps => NonBlank(form.samKeywords) && NonBlank(form.samApiKey)
    case RfpNotices => NonBlank(form.frNoticesTerm)
    case RulemakingDocuments => NonBlank(form.regulationsTerm) && NonBlank(form.regulationsApiKey)
    case FullOpportunityAnalysis => NonBlank(form.samKeywords) && NonBlank(form.samApiKey) && filesReady
    case Search => true
    case _ => filesReady
  }

  /** The string holds a character that `trim` keeps. */
  predicate HasVisibleChar(s: string)
  {
    exists i :: 0 <= i < |s| && !IsJsSpace(s[i])
  }

  /**
   * Readiness per tab: `/search` always; the fetch tabs when their required
   * inputs hold a visible character; the full analysis when its two inputs do
   * and a capability statement is uploaded.
   */
  lemma ReadyMeans(tab: Command, files: seq<AppFile>, form: FormFields)
    requires IsSearchCommand(tab) || tab == FullOpportunityAnalysis
    ensures Ready(tab, files, form) <==> match tab
      case EcfrSearch => HasVisibleChar(form.ecfrQuery)
      case ActiveRfps => HasVisibleChar(form.samKeywords) && HasVisibleChar(form.samApiKey)
      case RfpNotices => HasVisibleChar(form.frNoticesTerm)
      case RulemakingDocuments => HasVisibleChar(form.regulationsTerm) && HasVisibleChar(form.regulationsApiKey)
      case FullOpportunityAnalysis =>
        HasVisibleChar(form.samKeywords) && HasVisibleChar(form.samApiKey)
        && exists j :: 0 <= j < |files| && files[j].docType == CapabilityStatement
      case _ => true
  {
    match tab
    case EcfrSearch =>
      NonBlankIffVisibleChar(form.ecfrQuery);
    case ActiveRfps =>
      NonBlankIffVisibleChar(form.samKeywords);
      NonBlankIffVisibleChar(form.samApiKey);
    case RfpNotices =>
      NonBlankIffVisibleChar(form.frNoticesTerm);
    case RulemakingDocuments =>
      NonBlankIffVisibleChar(form.regulationsTerm);
      NonBlankIffVisibleChar(form.regulationsApiKey);
    case FullOpportunityAnalysis =>
      NonBlankIffVisibleChar(form.samKeywords);
      NonBlankIffVisibleChar(form.samApiKey);
      var required := RequiredFiles(tab);
      assert required == [CapabilityStatement];
      assert FilesReady(required, files) <==> exists j :: 0 <= j < |files| && files[j].docType == required[0];
    case _ =>
  }

  /** Every other tab is ready when a file of each type it requires is uploaded. */
  lemma ReadyForDocuments(tab: Command, files: seq<AppFile>, form: FormFields)
    requires !IsSearchCommand(tab) && tab != FullOpportunityAnalysis
    ensures Ready(tab, files, form) <==> FilesReady(RequiredFiles(tab), files)
  {
  }

  /** Whatever the dispatcher would accept, the readiness check lets through as far as files go. */
  lemma {:induction false} ValidatedFilesAreReady(required: seq<DocumentType>, files: seq<AppFile>)
    requires Missing(required, files) == []
    ensures FilesReady(required, files)
  {
    forall i | 0 <= i < |required|
      ensures exists j :: 0 <= j < |files| && files[j].docType == required[i]
    {
      var t := required[i];
      assert HasContent(files, t);
      var f := FindByType(files, t);
      var k :| 0 <= k < |files| && files[k] == f.value && f.value.docType == t && forall i :: 0 <= i < k ==> files[i].docType != t;
      assert files[k].docType == t;
    }
  }

  /**
   * Readiness checks only that a file of each type is present, not that its
   * content is non-empty: an empty capability statement makes `/keywords`
   * ready and still fails the dispatcher's validation.
   */
  lemma ReadyDoesNotImplyValidated()
    ensures var files := [AppFile("cap-1", "cap.txt", "", CapabilityStatement)];
      var form := FormFields("", "", "", "", "", "", "", "");
      Ready(Keywords, files, form) && Missing(RequiredFiles(Keywords), files) == [CapabilityStatement]
  {
    var files := [AppFile("cap-1", "cap.txt", "", CapabilityStatement)];
    assert files[0].docType == CapabilityStatement;
    assert FindByType(files, CapabilityStatement) == Some(files[0]);
    assert !HasContent(files, CapabilityStatement);
    assert Missing([CapabilityStatement], files) == [CapabilityStatement] + Filter([], t => !HasContent(files, t));
  }

  // ---------------------------------------------------------------- inputs

  /** The `otherInputs` `handleExecute` sends for `tab`, given the result shown when it was clicked. */
  function InputsFor(tab: Command, shown: string, form: FormFields): (inputs: AuxInputs)
    ensures inputs.apiResults == None
  {
    match tab
    case Search =>
      if StartsWith(shown, AwaitPrefix) then NoInputs.(searchParams := Some(form.searchParams)) else NoInputs
    case EcfrSearch => NoInputs.(ecfrQuery := Some(form.ecfrQuery), ecfrAgencies := Some(form.ecfrAgencies))
    case ActiveRfps => NoInputs.(keywords := Some(form.samKeywords), apiKey := Some(form.samApiKey))
    case RfpNotices => NoInputs.(term := Some(form.frNoticesTerm))
    case RulemakingDocuments => NoInputs.(searchTerm := Some(form.regulationsTerm), apiKey := Some(form.regulationsApiKey))
    case FullOpportunityAnalysis => NoInputs.(keywords := Some(form.samKeywords), apiKey := Some(form.samApiKey))
    case _ => NoInputs
  }

  /**
   * The two-step search: unless the shown result is an `AWAIT_INPUT:` prompt,
   * executing `/search` sends no parameters and the dispatcher answers with the
   * prompt without calling anything; once a result with that prefix is shown
   * (the dispatcher's own prompt is one), the next execution with non-empty
   * parameters reaches the backend with web search on.
   */
  lemma SearchTwoStep(files: seq<AppFile>, form: FormFields, o: Oracles, shown: string)
    ensures !StartsWith(shown, AwaitPrefix) ==> Dispatch(Search, files, InputsFor(Search, shown, form), o) == Outcome(Sentinel, [], None)
    ensures StartsWith(Sentinel, AwaitPrefix)
    ensures StartsWith(shown, AwaitPrefix) && form.searchParams != "" ==>
      Dispatch(Search, files, InputsFor(Search, shown, form), o).calls
        == [GenerateCall(UserPrompt(Search, files, InputsFor(Search, shown, form)), true)]
  {
    assert Sentinel[..|AwaitPrefix|] == AwaitPrefix;
    assert Missing(RequiredFiles(Search), files) == [];
  }

  // ---------------------------------------------------------------- display

  /** The text shown for a result: without its `AWAIT_INPUT:` prefix when it has one. */
  function Displayed(result: string): (shown: string)
    ensures StartsWith(result, AwaitPrefix) ==> AwaitPrefix + shown == result
    ensures !StartsWith(result, AwaitPrefix) ==> shown == result
  {
    if StartsWith(result, AwaitPrefix) then result[|AwaitPrefix|..] else result
  }

  lemma DisplayedSentinel()
    ensures Displayed(Sentinel) == AwaitRequest
  {
    assert Sentinel[..|AwaitPrefix|] == AwaitPrefix;
    assert Sentinel[|AwaitPrefix|..] == AwaitRequest;
  }

  /** What the result panel shows. */
  datatype Panel = Processing | ResultText(text: string) | Placeholder

  function PanelFor(isLoading: bool, result: string): (p: Panel)
    ensures p.Processing? <==> isLoading
    ensures p.Placeholder? <==> !isLoading && result == ""
    ensures p.ResultText? ==> p.text == Displayed(result)
  {
    if isLoading then Processing
    else if result != "" then ResultText(Displayed(result))
    else Placeholder
  }

  // ---------------------------------------------------------------- tab labels

  /** One character of `.replace(/_/g, ' ').toUpperCase()`. */
  function LabelChar(c: char): (r: char)
    ensures r != '_' && !('a' <= r <= 'z')
  {
    if c == '_' then ' '
    else if 'a' <= c <= 'z' then (c as int - 32) as char
    else c
  }

  /** `text.substring(1).replace(/_/g, ' ').toUpperCase()`. */
  function Caption(text: string): (caption: string)
    ensures |caption| == if text == [] then 0 else |text| - 1
    ensures forall i :: 0 <= i < |caption| ==> caption[i] != '_' && !('a' <= caption[i] <= 'z')
    ensures forall i :: 0 <= i < |caption| ==>
      (text[i + 1] == '_' ==> caption[i] == ' ') &&
      ('a' <= text[i + 1] <= 'z' ==> caption[i] as int == text[i + 1] as int - 32) &&
      (text[i + 1] != '_' && !('a' <= text[i + 1] <= 'z') ==> caption[i] == text[i + 1])
  {
    assert forall c: char :: c == '_' ==> LabelChar(c) == ' ';
    assert forall c: char :: 'a' <= c <= 'z' ==> LabelChar(c) as int == c as int - 32;
    assert forall c: char :: c != '_' && !('a' <= c <= 'z') ==> LabelChar(c) == c;
    if text == [] then []
    else seq(|text| - 1, i requires 0 <= i < |text| - 1 => LabelChar(text[i + 1]))
  }

  /** The label of a command's tab: its text without the slash, underscores as spaces, upper-cased. */
  function TabLabel(command: Command): string
  {
    Caption(command.Text())
  }

  /** The `/ecfr_search` tab, spelled out. */
  lemma TabLabelExample()
    ensures TabLabel(EcfrSearch) == "ECFR SEARCH"
  {
    var caption := TabLabel(EcfrSearch);
    assert EcfrSearch.Text() == "/ecfr_search";
    assert caption == ['E', 'C', 'F', 'R', ' ', 'S', 'E', 'A', 'R', 'C', 'H'];
  }

  /** The length of a command's text and its first letter after the slash tell commands apart. */
  lemma CommandSignature(a: Command, b: Command)
    ensures |a.Text()| >= 2 && 'a' <= a.Text()[1] <= 'z'
    ensures |a.Text()| == |b.Text()| && a.Text()[1] == b.Text()[1] ==> a == b
  {
  }

  /** No two tabs carry the same label. */
  lemma {:induction false} TabLabelsDistinct(a: Command, b: Command)
    ensures TabLabel(a) == TabLabel(b) ==> a == b
  {
    if TabLabel(a) == TabLabel(b) {
      CommandSignature(a, b);
      CommandSignature(b, a);
      assert TabLabel(a)[0] == LabelChar(a.Text()[1]);
      assert TabLabel(b)[0] == LabelChar(b.Text()[1]);
    }
  }

  // ---------------------------------------------------------------- session

  /** `CommandInterface`: the session state and its handlers. */
  class CommandInterface {
    var activeTab: Command
    var files: seq<AppFile>
    var isLoading: bool
    var result: string
    var searchParams: string
    var ecfrQuery: string
    var ecfrAgencies: string
    var samKeywords: string
    var samApiKey: string
    var frNoticesTerm: string
    var regulationsTerm: string
    var regulationsApiKey: string

    ghost predicate Valid()
      reads this
    {
      AtMostOnePerType(files)
    }

    function Form(): FormFields
      reads this
    {
      FormFields(searchParams, ecfrQuery, ecfrAgencies, samKeywords, samApiKey, frNoticesTerm, regulationsTerm, regulationsApiKey)
    }

    constructor ()
      ensures Valid()
      ensures activeTab == Keywords && files == [] && !isLoading && result == ""
      ensures Form() == FormFields("", "", "", "", "", "", "", "")
    {
      activeTab, files, isLoading, result := Keywords, [], false, "";
      searchParams, ecfrQuery, ecfrAgencies, samKeywords := "", "", "", "";
      samApiKey, frNoticesTerm, regulationsTerm, regulationsApiKey := "", "", "", "";
    }

    /** `handleFileChange` once the reader has the text: `stamp` is the clock reading the id is made from. */
    method HandleFileChange(t: DocumentType, name: string, content: string, stamp: string)
      requires Valid()
      modifies this`files
      ensures Valid()
      ensures files == Upload(old(files), AppFile(t.Name() + "-" + stamp, name, content, t))
    {
      var newFile := AppFile(t.Name() + "-" + stamp, name, content, t);
      UploadKeepsAtMostOne(files, newFile);
      files := Filter(files, OfOtherType(t)) + [newFile];
    }

    method RemoveFile(fileId: string)
      requires Valid()
      modifies this`files
      ensures Valid()
      ensures files == Remove(old(files), fileId)
    {
      RemoveKeepsAtMostOne(files, fileId);
      files := Filter(files, WithOtherId(fileId));
    }

    /** A tab click: switch tab and clear the result. */
    method SelectTab(command: Command)
      modifies this`activeTab, this`result
      ensures activeTab == command && result == ""
    {
      activeTab := command;
      result := "";
    }

    /** Typing into one of the form's inputs. */
    method Edit(field: Field, value: string)
      modifies this
      ensures Form() == Edited(old(Form()), field, value)
      ensures activeTab == old(activeTab) && files == old(files) && isLoading == old(isLoading) && result == old(result)
    {
      match field
      case SearchParamsField => searchParams := value;
      case EcfrQueryField => ecfrQuery := value;
      case EcfrAgenciesField => ecfrAgencies := value;
      case SamKeywordsField => samKeywords := value;
      case SamApiKeyField => samApiKey := value;
      case FrNoticesTermField => frNoticesTerm := value;
      case RegulationsTermField => regulationsTerm := value;
      case RegulationsApiKeyField => regulationsApiKey := value;
    }

    /** `isReadyForExecution()`. */
    predicate IsReadyForExecution()
      reads this
    {
      Ready(activeTab, files, Form())
    }

    /** The execute button is enabled: nothing is running and the tab is ready. */
    predicate ExecuteEnabled()
      reads this
    {
      !isLoading && IsReadyForExecution()
    }

    function View(): Panel
      reads this
    {
      PanelFor(isLoading, result)
    }

    /**
     * The synchronous start of `handleExecute`: raise the loading flag, clear
     * the result, and pick the inputs for the active tab from the result that
     * was shown when the button was clicked.
     */
    method BeginExecute() returns (inputs: AuxInputs)
      modifies this`isLoading, this`result
      ensures isLoading && result == ""
      ensures !ExecuteEnabled()
      ensures inputs == InputsFor(activeTab, old(result), Form())
    {
      var shown := result;
      isLoading := true;
      result := "";
      inputs := InputsFor(activeTab, shown, Form());
    }

    /** The end of `handleExecute`: show the response and lower the loading flag. */
    method FinishExecute(response: string)
      modifies this`isLoading, this`result
      ensures !isLoading && result == response
    {
      result := response;
      isLoading := false;
    }

    /** `handleExecute`: the result becomes the dispatcher's answer for the active tab. */
    method HandleExecute(env: Environment)
      modifies this`isLoading, this`result, env
      ensures var out := Dispatch(activeTab, files, InputsFor(activeTab, old(result), Form()), env.answers);
        && result == out.text
        && env.log == old(env.log) + out.calls
        && !isLoading
    {
      var inputs := BeginExecute();
      var otherInputs := new OtherInputs(inputs);
      var response := ProcessCommand(activeTab, files, otherInputs, env);
      FinishExecute(response);
    }

    /**
     * `handleExecute` with a tab click while the answer is pending: the tab
     * buttons stay enabled during the wait. The dispatcher works on the tab,
     * files and inputs captured at the click on execute, and its answer is
     * shown under whichever tab is active when it arrives.
     */
    method ExecuteThenSelectTab(env: Environment, tab: Command)
      modifies this`isLoading, this`result, this`activeTab, env
      ensures var out := Dispatch(old(activeTab), files, InputsFor(old(activeTab), old(result), Form()), env.answers);
        && activeTab == tab
        && result == out.text
        && env.log == old(env.log) + out.calls
        && !isLoading
    {
      var command := activeTab;
      var inputs := BeginExecute();
      var otherInputs := new OtherInputs(inputs);
      SelectTab(tab);
      var response := ProcessCommand(command, files, otherInputs, env);
      FinishExecute(response);
    }
  }
}
