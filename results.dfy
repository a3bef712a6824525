/** The analysis object that providers, the fallback scorer, the analyze route
    and the dashboard pass around. Every field is optional because a provider's
    JSON may leave any of them out. */
module Results {
  import opened Wrappers

  /** Provenance the analyze route attaches before saving. */
  datatype Metadata = Metadata(isFallback: bool, aiProvider: string, message: string)

  datatype Analysis = Analysis(
    resumeScore: Option<int>,
    grammarScore: Option<int>,
    grammarIssues: Option<seq<string>>,
    formattingTips: Option<seq<string>>,
    keywordsMatched: Option<seq<string>>,
    keywordsMissing: Option<seq<string>>,
    atsCompatibility: Option<string>,
    aiProvider: Option<string>,
    metadata: Option<Metadata>)
}
