/**
 * The closed vocabularies of the assistant: the commands a user can issue,
 * the kinds of document that can be uploaded, and an uploaded file.
 */
module Types {

  /** The eleven commands; `Text` is the enum's string value, which is also the tab's identity. */
  datatype Command =
    | Keywords
    | Review
    | Draft
    | ProcessEmail
    | CreateGmailDraft
    | Search
    | EcfrSearch
    | ActiveRfps
    | RfpNotices
    | RulemakingDocuments
    | FullOpportunityAnalysis
  {
    function Text(): string
    {
      match this
      case Keywords => "/keywords"
      case Review => "/review"
      case Draft => "/draft"
      case ProcessEmail => "/process_email"
      case CreateGmailDraft => "/create_gmail_draft"
      case Search => "/search"
      case EcfrSearch => "/ecfr_search"
      case ActiveRfps => "/active_rfps"
      case RfpNotices => "/rfp_notices"
      case RulemakingDocuments => "/rulemaking_documents"
      case FullOpportunityAnalysis => "/full_opportunity_analysis"
    }
  }

  /** The four kinds of document a command may need; `Name` is the enum's string value. */
  datatype DocumentType = CapabilityStatement | Rfp | Email | OpportunityBreakdown
  {
    function Name(): string
    {
      match this
      case CapabilityStatement => "Capability Statement"
      case Rfp => "RFP/RFQ"
      case Email => "Email"
      case OpportunityBreakdown => "Opportunity Breakdown"
    }
  }

  /** An uploaded document. The source's field `type` is `docType` here. */
  datatype AppFile = AppFile(id: string, name: string, content: string, docType: DocumentType)

  /** Every command's string is a slash followed by at least one character, and no two commands share one. */
  lemma CommandTextsDistinct(a: Command, b: Command)
    ensures |a.Text()| > 1 && a.Text()[0] == '/'
    ensures a.Text() == b.Text() ==> a == b
  {
  }
}
