/** `POST /api/analyze`: check the request and the resume's owner, mark the
    resume PROCESSING, extract its text, run the provider cascade (Gemini,
    then OpenAI, then Gemini again), store the analysis with its provenance,
    mark the resume COMPLETED; on any failure mark it FAILED and report a
    mapped error message. */
module AnalyzeRoute {
  import opened Wrappers
  import opened Text
  import opened Results
  import opened Scorer
  import opened Providers
  import opened ExtractText
  import opened Store
  import opened Auth

  const MISSING_FIELDS := "Missing required fields: fileKey, fileType, resumeId"
  const NOT_FOUND := "Resume not found or access denied"
  const GENERIC_ERROR := "Error while analyzing the resume"
  const NOT_CONFIGURED := "AI analysis service is not configured"
  const STORAGE_ERROR := "File storage service error"
  const BAD_RESPONSE := "AI analysis failed to generate proper response"

  /** The grammar-issue texts that mark an analysis as a fallback. */
  const QUOTA_SENTINEL := "Analysis limited due to API quota"
  const UNAVAILABLE_SENTINEL := "API unavailability"

  const COMPLETED_USING := "Analysis completed using "
  const DUE_TO_LIMITS := " due to API limitations"

  /** The provider names the cascade uses when the analysis carries none. */
  const FIRST_DEFAULT := "Gemini"
  const SECOND_DEFAULT := "OpenAI"
  const THIRD_DEFAULT := "Gemini (Fallback)"

  /** Every `aiProvider` value the two providers produce. */
  const PROVIDER_TAGS: set<string> := {GEMINI_TAG, "Gemini (Fallback)", OPENAI_TAG, "OpenAI (Fallback)"}

  // ---- the provider cascade -------------------------------------------------------

  /** The analysis the cascade settled on, the provider name and whether a
      provider other than the first was needed. */
  datatype Outcome = Outcome(analysis: Analysis, aiProvider: string, isFallback: bool)

  /** The nested `try`/`catch` around the three provider calls: each later
      call runs only when the one before it threw, and a third failure
      propagates. */
  function Cascade(text: string, d: Detectors, first: GeminiCalls, second: OpenAICall, third: GeminiCalls,
                   parse: JsonParser): (r: Call<Outcome>)
    ensures r.Returned? ==> (r.value.isFallback <==> AnalyzeResume(text, d, first, parse).Threw?)
    ensures r.Returned? ==> r.value.aiProvider in PROVIDER_TAGS
    ensures r.Returned? ==> r.value.analysis.aiProvider == Some(r.value.aiProvider)
    ensures r.Threw? <==>
      AnalyzeResume(text, d, first, parse).Threw? && AnalyzeResumeWithOpenAI(text, d, second, parse).Threw?
      && AnalyzeResume(text, d, third, parse).Threw?
    ensures r.Threw? ==> r.thrown == Err(GEMINI_KEY_ERROR)
    ensures var g := AnalyzeResume(text, d, first, parse);
      g.Returned? ==> r == Returned(Outcome(g.value, OrElse(g.value.aiProvider, FIRST_DEFAULT), false))
    ensures var g := AnalyzeResume(text, d, first, parse);
      var o := AnalyzeResumeWithOpenAI(text, d, second, parse);
      g.Threw? && o.Returned? ==> r == Returned(Outcome(o.value, OrElse(o.value.aiProvider, SECOND_DEFAULT), true))
    ensures var g := AnalyzeResume(text, d, first, parse);
      var o := AnalyzeResumeWithOpenAI(text, d, second, parse);
      var g' := AnalyzeResume(text, d, third, parse);
      g.Threw? && o.Threw? && g'.Returned? ==>
        r == Returned(Outcome(g'.value, OrElse(g'.value.aiProvider, THIRD_DEFAULT), true))
  {
    match AnalyzeResume(text, d, first, parse)
    case Returned(a) => Returned(Outcome(a, OrElse(a.aiProvider, FIRST_DEFAULT), false))
    case Threw(_) =>
      match AnalyzeResumeWithOpenAI(text, d, second, parse)
      case Returned(a) => Returned(Outcome(a, OrElse(a.aiProvider, SECOND_DEFAULT), true))
      case Threw(_) =>
        match AnalyzeResume(text, d, third, parse)
        case Returned(a) => Returned(Outcome(a, OrElse(a.aiProvider, THIRD_DEFAULT), true))
        case Threw(e) => Threw(e)
  }

  /** Once a provider answers, the calls after it make no difference. */
  lemma LaterProvidersUnused(text: string, d: Detectors, first: GeminiCalls, second: OpenAICall, second': OpenAICall,
                             third: GeminiCalls, third': GeminiCalls, parse: JsonParser)
    ensures AnalyzeResume(text, d, first, parse).Returned? ==>
      Cascade(text, d, first, second, third, parse) == Cascade(text, d, first, second', third', parse)
    ensures AnalyzeResumeWithOpenAI(text, d, second, parse).Returned? ==>
      Cascade(text, d, first, second, third, parse) == Cascade(text, d, first, second, third', parse)
  {
  }

  // ---- the fallback flag and the metadata message ------------------------------------

  predicate FlagsLimitation(issue: string) {
    Contains(issue, QUOTA_SENTINEL) || Contains(issue, UNAVAILABLE_SENTINEL)
  }

  /** `isFallback || (grammarIssues && grammarIssues.some(...))`. */
  predicate FallbackFlag(o: Outcome) {
    o.isFallback
    || (o.analysis.grammarIssues.Some?
        && exists i :: 0 <= i < |o.analysis.grammarIssues.value| && FlagsLimitation(o.analysis.grammarIssues.value[i]))
  }

  /** Both fallback scorers write a sentinel into their one grammar issue. */
  lemma FallbackNotesAreSentinels()
    ensures FlagsLimitation(GEMINI_NOTE) && FlagsLimitation(OPENAI_NOTE)
  {
    assert GEMINI_NOTE[..|QUOTA_SENTINEL|] == QUOTA_SENTINEL;
    ContainsAt(GEMINI_NOTE, QUOTA_SENTINEL, 0);
    assert |"Analysis limited due to OpenAI "| == 31;
    assert OPENAI_NOTE[31..31 + |UNAVAILABLE_SENTINEL|] == UNAVAILABLE_SENTINEL;
    ContainsAt(OPENAI_NOTE, UNAVAILABLE_SENTINEL, 31);
  }

  /** Whichever provider answered, an analysis made by a fallback scorer is
      flagged, even when the first provider returned it. */
  lemma FallbackScorersFlagged(o: Outcome, text: string, d: Detectors)
    requires o.analysis == GeminiFallback(text, d) || o.analysis == OpenAIFallback(text, d)
    ensures FallbackFlag(o)
  {
    FallbackNotesAreSentinels();
    assert FlagsLimitation(o.analysis.grammarIssues.value[0]);
  }

  /** The flag is set exactly when the first call threw or a grammar issue
      carries a sentinel. */
  lemma FlagMeansFallback(text: string, d: Detectors, first: GeminiCalls, second: OpenAICall, third: GeminiCalls,
                          parse: JsonParser)
    requires Cascade(text, d, first, second, third, parse).Returned?
    ensures var o := Cascade(text, d, first, second, third, parse).value;
      FallbackFlag(o) <==>
        AnalyzeResume(text, d, first, parse).Threw?
        || (o.analysis.grammarIssues.Some? && exists issue :: issue in o.analysis.grammarIssues.value && FlagsLimitation(issue))
  {
  }

  /** The metadata message: "Analysis completed using <provider>", with
      " due to API limitations" when the analysis is flagged. */
  function Message(provider: string, flagged: bool): (m: string)
    ensures StartsWith(m, COMPLETED_USING + provider)
    ensures flagged ==> EndsWith(m, DUE_TO_LIMITS)
    ensures |m| == |COMPLETED_USING| + |provider| + (if flagged then |DUE_TO_LIMITS| else 0)
  {
    if flagged then COMPLETED_USING + provider + DUE_TO_LIMITS else COMPLETED_USING + provider
  }

  /** For the providers' own names, the message ends in the limitation
      clause exactly when the analysis is flagged. */
  lemma MessageShowsFlag(provider: string, flagged: bool)
    requires provider in PROVIDER_TAGS
    ensures EndsWith(Message(provider, flagged), DUE_TO_LIMITS) <==> flagged
  {
    if !flagged {
      var m := Message(provider, false);
      assert m[|m| - 1] == provider[|provider| - 1];
      assert m[|m| - |DUE_TO_LIMITS|..][|DUE_TO_LIMITS| - 1] == m[|m| - 1];
    }
  }

  /** The analysis as saved and returned: the cascade's analysis with its
      provenance attached. */
  function Annotated(o: Outcome): (a: Analysis)
    ensures a.(metadata := o.analysis.metadata) == o.analysis
    ensures a.metadata == Some(Metadata(FallbackFlag(o), o.aiProvider, Message(o.aiProvider, FallbackFlag(o))))
  {
    var flagged := FallbackFlag(o);
    o.analysis.(metadata := Some(Metadata(flagged, o.aiProvider, Message(o.aiProvider, flagged))))
  }

  // ---- the error message ----------------------------------------------------------

  /** The text of the 500 reply for a thrown value, by priority: key
      problems, then storage, then parse failures, else the raw message. */
  function ErrorMessage(e: Thrown): (m: string)
    ensures e.NonErrorValue? ==> m == GENERIC_ERROR
    ensures e.Err? && (Contains(e.message, "GEMINI_API_KEY") || Contains(e.message, "AIMLAPI_KEY")) ==> m == NOT_CONFIGURED
    ensures (e.Err? && !(Contains(e.message, "GEMINI_API_KEY") || Contains(e.message, "AIMLAPI_KEY"))
             && Contains(e.message, "AWS")) ==> m == STORAGE_ERROR
    ensures (e.Err? && !(Contains(e.message, "GEMINI_API_KEY") || Contains(e.message, "AIMLAPI_KEY"))
             && !Contains(e.message, "AWS") && Contains(e.message, "Failed to parse")) ==> m == BAD_RESPONSE
    ensures m in {GENERIC_ERROR, NOT_CONFIGURED, STORAGE_ERROR, BAD_RESPONSE} || (e.Err? && m == e.message)
    ensures e.Err? && m == e.message ==>
      m in {NOT_CONFIGURED, STORAGE_ERROR, BAD_RESPONSE}
      || !(Contains(m, "GEMINI_API_KEY") || Contains(m, "AIMLAPI_KEY") || Contains(m, "AWS") || Contains(m, "Failed to parse"))
  {
    match e
    case NonErrorValue => GENERIC_ERROR
    case Err(msg) =>
      if Contains(msg, "GEMINI_API_KEY") || Contains(msg, "AIMLAPI_KEY") then NOT_CONFIGURED
      else if Contains(msg, "AWS") then STORAGE_ERROR
      else if Contains(msg, "Failed to parse") then BAD_RESPONSE
      else msg
  }

  /** None of the four markers occurs in `s`. */
  predicate NoMarker(s: string) {
    !Contains(s, "GEMINI_API_KEY") && !Contains(s, "AIMLAPI_KEY") && !Contains(s, "AWS") && !Contains(s, "Failed to parse")
  }

  /** A message without markers is reported as it is. */
  lemma UnmarkedVerbatim(msg: string)
    requires NoMarker(msg)
    ensures ErrorMessage(Err(msg)) == msg
  {
  }

  lemma {:induction false} NoMarkerIn(s: string)
    requires forall i: nat :: i < |s| ==> CannotStartAt(s, "GEMINI_API_KEY", i)
    requires forall i: nat :: i < |s| ==> CannotStartAt(s, "AIMLAPI_KEY", i)
    requires forall i: nat :: i < |s| ==> CannotStartAt(s, "AWS", i)
    requires forall i: nat :: i < |s| ==> CannotStartAt(s, "Failed to parse", i)
    ensures NoMarker(s)
  {
    assert s + "" == s;
    ContainsSkipPrefix(s, "", "GEMINI_API_KEY");
    ContainsSkipPrefix(s, "", "AIMLAPI_KEY");
    ContainsSkipPrefix(s, "", "AWS");
    ContainsSkipPrefix(s, "", "Failed to parse");
  }

  /** The cascade's only failure reaches the client under its own text:
      it does not spell the key variable's name. */
  lemma KeyErrorVerbatim()
    ensures ErrorMessage(Err(GEMINI_KEY_ERROR)) == GEMINI_KEY_ERROR
  {
    var s := GEMINI_KEY_ERROR;
    assert forall i: nat :: i < |s| ==> CannotStartAt(s, "GEMINI_API_KEY", i);
    assert forall i: nat :: i < |s| ==> CannotStartAt(s, "AIMLAPI_KEY", i);
    assert forall i: nat :: i < |s| ==> CannotStartAt(s, "AWS", i);
    assert forall i: nat :: i < |s| ==> CannotStartAt(s, "Failed to parse", i);
    NoMarkerIn(s);
  }

  /** A failed sign-in is reported as "User not found". */
  lemma SignInErrorVerbatim()
    ensures ErrorMessage(Err(USER_NOT_FOUND)) == USER_NOT_FOUND
  {
    var s := USER_NOT_FOUND;
    assert forall i: nat :: i < |s| ==> CannotStartAt(s, "GEMINI_API_KEY", i);
    assert forall i: nat :: i < |s| ==> CannotStartAt(s, "AIMLAPI_KEY", i);
    assert forall i: nat :: i < |s| ==> CannotStartAt(s, "AWS", i);
    assert forall i: nat :: i < |s| ==> CannotStartAt(s, "Failed to parse", i);
    NoMarkerIn(s);
  }

  /** An unsupported file type is reported as such. */
  lemma UnsupportedTypeVerbatim()
    ensures ErrorMessage(Err(UNSUPPORTED)) == UNSUPPORTED
  {
    var s := UNSUPPORTED;
    assert forall i: nat :: i < |s| ==> CannotStartAt(s, "GEMINI_API_KEY", i);
    assert forall i: nat :: i < |s| ==> CannotStartAt(s, "AIMLAPI_KEY", i);
    assert forall i: nat :: i < |s| ==> CannotStartAt(s, "AWS", i);
    assert forall i: nat :: i < |s| ==> CannotStartAt(s, "Failed to parse", i);
    NoMarkerIn(s);
  }

  // ---- the request -------------------------------------------------------------------

  /** The JSON body; a field the client left out or sent empty is `None`. */
  datatype AnalyzeBody = AnalyzeBody(fileKey: Option<string>, fileType: Option<string>, resumeId: Option<nat>)

  /** `!fileKey || !fileType || !resumeId` is false. */
  predicate HasRequiredFields(b: AnalyzeBody) {
    Truthy(b.fileKey) && Truthy(b.fileType) && b.resumeId.Some?
  }

  /** Everything outside the route that one request meets, in the order it
      meets it: sign-in, the body, the ownership query, the PROCESSING write,
      storage and the parsers, the three provider calls, the insert of the
      analysis, and the COMPLETED and FAILED writes. */
  datatype World = World(
    session: Session,
    body: Call<AnalyzeBody>,
    lookupFault: Option<Thrown>,
    processingFault: Option<Thrown>,
    storage: Storage,
    detectors: Detectors,
    parse: JsonParser,
    first: GeminiCalls,
    second: OpenAICall,
    third: GeminiCalls,
    saveFault: Option<Thrown>,
    completedFault: Option<Thrown>,
    failedFault: Option<Thrown>)

  datatype Reply =
    | Analyzed(analysisId: nat, analysis: Analysis, isFallback: bool, aiProvider: string)
    | BadRequest(error: string)
    | NotFound(error: string)
    | ServerError(error: string)
  {
    function Status(): int {
      match this
      case Analyzed(_, _, _, _) => 200
      case BadRequest(_) => 400
      case NotFound(_) => 404
      case ServerError(_) => 500
    }
  }

  /** The writes of a successful analysis, in order. */
  function Lifecycle(id: nat, analysisId: nat): seq<Write> {
    [StatusSet(id, Processing), AnalysisCreated(analysisId, id), StatusSet(id, Completed)]
  }

  /** The first fault the steps after the ownership check meet, in the order
      they run: the PROCESSING write, text extraction and the cascade, the
      insert of the analysis, the COMPLETED write. */
  function FirstFault(c: Call<Outcome>, w: World): Option<Thrown> {
    if w.processingFault.Some? then w.processingFault
    else if c.Threw? then Some(c.thrown)
    else if w.saveFault.Some? then w.saveFault
    else w.completedFault
  }

  /** How many lifecycle writes those steps make before their first fault. */
  function WritesBeforeFault(c: Call<Outcome>, w: World): nat {
    if w.processingFault.Some? then 0
    else if c.Threw? || w.saveFault.Some? then 1
    else 2
  }

  /** The journal of a request whose steps threw after `done` lifecycle
      writes: `before`, those writes, then FAILED when `failed` says that
      write went through. */
  predicate AbortedWrites(before: seq<Write>, after: seq<Write>, id: nat, analysisId: nat, done: nat, failed: bool) {
    done < 3 && after == before + Lifecycle(id, analysisId)[..done] + (if failed then [StatusSet(id, Failed)] else [])
  }

  /** The resume table such a request leaves: FAILED when that write went
      through, else PROCESSING once it had been written. */
  function AbortedResumes(resumes: seq<Resume>, id: nat, done: nat, failed: bool): seq<Resume> {
    if failed then WithStatus(resumes, id, Failed)
    else if done == 0 then resumes
    else WithStatus(resumes, id, Processing)
  }

  /** The analysis table such a request leaves: the cascade's analysis, as
      saved, once the insert went through, and otherwise the table as it was. */
  function AbortedAnalyses(analyses: seq<AnalysisRecord>, c: Call<Outcome>, id: nat, userId: nat,
                           analysisId: nat, done: nat): seq<AnalysisRecord> {
    if done == 2 && c.Returned? then
      var a := Annotated(c.value);
      analyses + [AnalysisRecord(analysisId, id, userId, a, OrZero(a.resumeScore), Completed, analysisId)]
    else analyses
  }

  /** The provider cascade's result on the extracted text, if both ran. */
  function CascadeOn(text: Call<string>, w: World): Call<Outcome> {
    match text
    case Threw(e) => Threw(e)
    case Returned(t) => Cascade(t, w.detectors, w.first, w.second, w.third, w.parse)
  }

  /** The cascade's result on the text of the file the body names. */
  function CascadeFor(b: AnalyzeBody, w: World): Call<Outcome>
    requires HasRequiredFields(b)
  {
    CascadeOn(ExtractTextFromS3(b.fileKey.value, b.fileType.value, w.storage), w)
  }

  /** The first fault of a request whose body has its fields: the ownership
      query's, else that of the steps after it. */
  function RouteFault(b: AnalyzeBody, w: World): Option<Thrown>
    requires HasRequiredFields(b)
  {
    if w.lookupFault.Some? then w.lookupFault else FirstFault(CascadeFor(b, w), w)
  }

  /** How many lifecycle writes such a request makes before that fault. */
  function RouteWrites(b: AnalyzeBody, w: World): nat
    requires HasRequiredFields(b)
  {
    if w.lookupFault.Some? then 0 else WritesBeforeFault(CascadeFor(b, w), w)
  }

  /** After the PROCESSING write: the cascade's outcome, then saving the
      analysis and marking the resume COMPLETED. */
  method Save(db: Database, id: nat, userId: nat, c: Call<Outcome>, w: World) returns (r: Call<Reply>)
    requires db.Valid() && db.HasResume(id)
    modifies db
    ensures db.Valid() && db.HasResume(id)
    ensures db.users == old(db.users) && db.matches == old(db.matches)
    ensures var aid := old(db.clock);
      (r.Returned? <==> c.Returned? && w.saveFault.None? && w.completedFault.None?)
      && (r.Returned? ==>
            var a := Annotated(c.value);
            r.value == Analyzed(aid, a, FallbackFlag(c.value), c.value.aiProvider)
            && db.writes == old(db.writes) + [AnalysisCreated(aid, id), StatusSet(id, Completed)]
            && db.analyses == old(db.analyses) + [AnalysisRecord(aid, id, userId, a, OrZero(a.resumeScore), Completed, aid)]
            && db.resumes == WithStatus(old(db.resumes), id, Completed))
      && (r.Threw? ==> db.resumes == old(db.resumes))
      && (c.Threw? ==> r == Threw(c.thrown) && db.writes == old(db.writes) && db.analyses == old(db.analyses))
      && (c.Returned? && w.saveFault.Some? ==>
            r == Threw(w.saveFault.value) && db.writes == old(db.writes) && db.analyses == old(db.analyses))
      && (c.Returned? && w.saveFault.None? && w.completedFault.Some? ==>
            var a := Annotated(c.value);
            r == Threw(w.completedFault.value)
            && db.writes == old(db.writes) + [AnalysisCreated(aid, id)]
            && db.analyses == old(db.analyses) + [AnalysisRecord(aid, id, userId, a, OrZero(a.resumeScore), Completed, aid)])
  {
    if c.Threw? {
      return Threw(c.thrown);
    }
    var o := c.value;
    var analysis := Annotated(o);
    var saved := db.CreateAnalysis(id, userId, analysis, OrZero(analysis.resumeScore), Completed, w.saveFault);
    if saved.Threw? {
      return Threw(saved.thrown);
    }
    var completed := db.SetStatus(id, Completed, w.completedFault);
    if completed.Threw? {
      return Threw(completed.thrown);
    }
    r := Returned(Analyzed(saved.value.id, analysis, FallbackFlag(o), o.aiProvider));
  }

  /** The steps after the ownership check, up to the COMPLETED write: the
      first failure stops them where it happens. `c` is the cascade's
      outcome on the text extracted from storage; neither makes a database
      write. */
  method Process(db: Database, id: nat, userId: nat, c: Call<Outcome>, w: World)
    returns (r: Call<Reply>)
    requires db.Valid() && db.HasResume(id)
    modifies db
    ensures db.Valid() && db.HasResume(id)
    ensures db.users == old(db.users) && db.matches == old(db.matches)
    ensures var aid := old(db.clock);
      (r.Returned? <==> w.processingFault.None? && c.Returned? && w.saveFault.None? && w.completedFault.None?)
      && (r.Returned? ==>
            var a := Annotated(c.value);
            r.value == Analyzed(aid, a, FallbackFlag(c.value), c.value.aiProvider)
            && db.writes == old(db.writes) + Lifecycle(id, aid)
            && db.analyses == old(db.analyses) + [AnalysisRecord(aid, id, userId, a, OrZero(a.resumeScore), Completed, aid)]
            && db.resumes == WithStatus(old(db.resumes), id, Completed))
    ensures var aid := old(db.clock);
      var done := WritesBeforeFault(c, w);
      r.Threw? ==>
        FirstFault(c, w).Some? && r == Threw(FirstFault(c, w).value)
        && done < 3 && db.writes == old(db.writes) + Lifecycle(id, aid)[..done]
        && db.resumes == AbortedResumes(old(db.resumes), id, done, false)
        && (done < 2 ==> db.analyses == old(db.analyses))
        && (done == 2 ==>
              c.Returned?
              && var a := Annotated(c.value);
              db.analyses == old(db.analyses) + [AnalysisRecord(aid, id, userId, a, OrZero(a.resumeScore), Completed, aid)])
  {
    ghost var start := db.writes;
    var marked := db.SetStatus(id, Processing, w.processingFault);
    if marked.Threw? {
      assert Lifecycle(id, old(db.clock))[..0] == [];
      return Threw(marked.thrown);
    }
    r := Save(db, id, userId, c, w);
    if r.Threw? {
      if c.Threw? || w.saveFault.Some? {
        assert db.writes == start + Lifecycle(id, old(db.clock))[..1];
      } else {
        assert db.writes == start + Lifecycle(id, old(db.clock))[..2];
      }
    } else {
      assert db.writes == start + Lifecycle(id, old(db.clock));
      WithStatusTwice(old(db.resumes), id, Processing, Completed);
    }
  }

  /** The request once the user is signed in and the body is parsed: the
      field check, the ownership query, and the steps up to COMPLETED. */
  method Handle(db: Database, user: User, b: AnalyzeBody, w: World) returns (r: Call<Reply>)
    requires db.Valid()
    modifies db
    ensures db.Valid()
    ensures b.resumeId.Some? ==> (db.HasResume(b.resumeId.value) <==> old(db.HasResume(b.resumeId.value)))
    ensures db.users == old(db.users) && db.matches == old(db.matches)
    ensures r.Returned? && r.value.BadRequest? <==> !HasRequiredFields(b)
    ensures !HasRequiredFields(b) ==> r == Returned(BadRequest(MISSING_FIELDS))
    ensures r.Returned? && r.value.NotFound? <==>
      HasRequiredFields(b) && w.lookupFault.None? && old(db.OwnedResume(b.resumeId.value, user.id)).None?
    ensures r.Returned? && r.value.NotFound? ==> r.value == NotFound(NOT_FOUND)
    ensures r.Returned? && !r.value.Analyzed? ==>
      db.writes == old(db.writes) && db.resumes == old(db.resumes) && db.analyses == old(db.analyses)
    ensures r.Returned? ==> !r.value.ServerError?
    ensures r.Returned? && r.value.Analyzed? ==>
      HasRequiredFields(b) && w.lookupFault.None? && old(db.OwnedResume(b.resumeId.value, user.id)).Some?
      && var id := b.resumeId.value;
      var aid := old(db.clock);
      var c := CascadeFor(b, w);
      c.Returned? && w.processingFault.None?
      && var a := Annotated(c.value);
      r.value == Analyzed(aid, a, FallbackFlag(c.value), c.value.aiProvider)
      && db.writes == old(db.writes) + Lifecycle(id, aid)
      && db.analyses == old(db.analyses) + [AnalysisRecord(aid, id, user.id, a, OrZero(a.resumeScore), Completed, aid)]
      && db.resumes == WithStatus(old(db.resumes), id, Completed)
    ensures r.Threw? <==>
      HasRequiredFields(b) && RouteFault(b, w).Some?
      && (w.lookupFault.Some? || old(db.OwnedResume(b.resumeId.value, user.id)).Some?)
    ensures r.Threw? ==>
      HasRequiredFields(b) && r == Threw(RouteFault(b, w).value)
      && var id := b.resumeId.value;
      var done := RouteWrites(b, w);
      done < 3 && db.writes == old(db.writes) + Lifecycle(id, old(db.clock))[..done]
      && db.resumes == AbortedResumes(old(db.resumes), id, done, false)
      && db.analyses == AbortedAnalyses(old(db.analyses), CascadeFor(b, w), id, user.id, old(db.clock), done)
  {
    if !HasRequiredFields(b) {
      return Returned(BadRequest(MISSING_FIELDS));
    }
    var id := b.resumeId.value;
    if w.lookupFault.Some? {
      assert Lifecycle(id, old(db.clock))[..0] == [];
      return Threw(w.lookupFault.value);
    }
    var resume := db.OwnedResume(id, user.id);
    if resume.None? {
      return Returned(NotFound(NOT_FOUND));
    }
    assert db.HasResume(id);
    r := Process(db, id, user.id, CascadeFor(b, w), w);
  }

  /** The route's error handler: FAILED is written to the requested
      resume, that write's own failure is ignored, and the reply carries the
      mapped message. `writes0`, `resumes0` and `clock0` are the state when
      the request's steps began, which stopped after `done` lifecycle
      writes; `existed` says whether the resume was there then. */
  method Recover(db: Database, id: nat, thrown: Thrown, w: World, ghost writes0: seq<Write>,
                 ghost resumes0: seq<Resume>, ghost clock0: nat, ghost done: nat, ghost existed: bool)
    returns (reply: Reply)
    requires db.Valid() && existed == db.HasResume(id)
    requires done < 3 && db.writes == writes0 + Lifecycle(id, clock0)[..done]
    requires db.resumes == AbortedResumes(resumes0, id, done, false)
    modifies db
    ensures db.Valid()
    ensures db.users == old(db.users) && db.analyses == old(db.analyses) && db.matches == old(db.matches)
    ensures reply == ServerError(ErrorMessage(thrown))
    ensures AbortedWrites(writes0, db.writes, id, clock0, done, w.failedFault.None? && existed)
    ensures db.resumes == AbortedResumes(resumes0, id, done, w.failedFault.None? && existed)
  {
    var _ := db.SetStatus(id, Failed, w.failedFault);
    if w.failedFault.None? && existed {
      WithStatusTwice(resumes0, id, Processing, Failed);
    }
    reply := ServerError(ErrorMessage(thrown));
  }

  /** The request once the user is signed in and the body is parsed,
      with the route's error handler: when the steps throw, FAILED is
      written to the requested resume (if that write succeeds) and the
      reply carries the mapped message of the first fault. */
  method Run(db: Database, user: User, b: AnalyzeBody, w: World) returns (reply: Reply)
    requires db.Valid()
    modifies db
    ensures db.Valid()
    ensures db.users == old(db.users) && db.matches == old(db.matches)
    ensures reply.BadRequest? <==> !HasRequiredFields(b)
    ensures !HasRequiredFields(b) ==> reply == BadRequest(MISSING_FIELDS)
    ensures reply.NotFound? <==>
      HasRequiredFields(b) && w.lookupFault.None? && old(db.OwnedResume(b.resumeId.value, user.id)).None?
    ensures reply.NotFound? ==> reply == NotFound(NOT_FOUND)
    ensures reply.BadRequest? || reply.NotFound? ==>
      db.writes == old(db.writes) && db.resumes == old(db.resumes) && db.analyses == old(db.analyses)
    ensures reply.Analyzed? ==>
      HasRequiredFields(b) && w.lookupFault.None? && old(db.OwnedResume(b.resumeId.value, user.id)).Some?
      && var id := b.resumeId.value;
      var aid := old(db.clock);
      var c := CascadeFor(b, w);
      c.Returned?
      && var a := Annotated(c.value);
      reply == Analyzed(aid, a, FallbackFlag(c.value), c.value.aiProvider)
      && db.writes == old(db.writes) + Lifecycle(id, aid)
      && db.analyses == old(db.analyses) + [AnalysisRecord(aid, id, user.id, a, OrZero(a.resumeScore), Completed, aid)]
      && db.resumes == WithStatus(old(db.resumes), id, Completed)
    ensures reply.ServerError? <==>
      HasRequiredFields(b) && RouteFault(b, w).Some?
      && (w.lookupFault.Some? || old(db.OwnedResume(b.resumeId.value, user.id)).Some?)
    ensures reply.ServerError? ==>
      HasRequiredFields(b) && reply == ServerError(ErrorMessage(RouteFault(b, w).value))
      && var id := b.resumeId.value;
      var done := RouteWrites(b, w);
      var failedWrite := w.failedFault.None? && old(db.HasResume(id));
      AbortedWrites(old(db.writes), db.writes, id, old(db.clock), done, failedWrite)
      && db.resumes == AbortedResumes(old(db.resumes), id, done, failedWrite)
      && db.analyses == AbortedAnalyses(old(db.analyses), CascadeFor(b, w), id, user.id, old(db.clock), done)
    ensures (HasRequiredFields(b) && w.lookupFault.None? && old(db.OwnedResume(b.resumeId.value, user.id)).Some?
             && w.processingFault.None? && ExtractTextFromS3(b.fileKey.value, b.fileType.value, w.storage).Returned?
             && CascadeFor(b, w).Threw?) ==>
      reply == ServerError(GEMINI_KEY_ERROR)
  {
    var r := Handle(db, user, b, w);
    if r.Returned? {
      return r.value;
    }
    KeyErrorVerbatim();
    reply := Recover(db, b.resumeId.value, r.thrown, w, old(db.writes), old(db.resumes), old(db.clock),
                     RouteWrites(b, w), old(db.HasResume(b.resumeId.value)));
  }

  /** The route after sign-in: everything `POST /api/analyze` does once
      `getCurrentUserOrThrow` has returned or thrown. */
  method Serve(db: Database, user: Call<User>, w: World) returns (reply: Reply)
    requires db.Valid()
    modifies db
    ensures db.Valid()
    ensures db.users == old(db.users) && db.matches == old(db.matches)
    ensures user.Threw? ==> reply == ServerError(ErrorMessage(user.thrown))
    ensures user.Returned? && w.body.Threw? ==> reply == ServerError(ErrorMessage(w.body.thrown))
    ensures user.Threw? || w.body.Threw? ==>
      db.writes == old(db.writes) && db.resumes == old(db.resumes) && db.analyses == old(db.analyses)
    ensures user.Returned? && w.body.Returned? ==>
      var b := w.body.value;
      (reply.BadRequest? <==> !HasRequiredFields(b))
      && (!HasRequiredFields(b) ==> reply == BadRequest(MISSING_FIELDS))
      && (reply.NotFound? <==>
            HasRequiredFields(b) && w.lookupFault.None? && old(db.OwnedResume(b.resumeId.value, user.value.id)).None?)
      && (reply.NotFound? ==> reply == NotFound(NOT_FOUND))
      && (reply.BadRequest? || reply.NotFound? ==>
            db.writes == old(db.writes) && db.resumes == old(db.resumes) && db.analyses == old(db.analyses))
      && (reply.Analyzed? ==>
            HasRequiredFields(b) && w.lookupFault.None? && old(db.OwnedResume(b.resumeId.value, user.value.id)).Some?
            && var id := b.resumeId.value;
            var aid := old(db.clock);
            var c := CascadeFor(b, w);
            c.Returned?
            && var a := Annotated(c.value);
            reply == Analyzed(aid, a, FallbackFlag(c.value), c.value.aiProvider)
            && db.writes == old(db.writes) + Lifecycle(id, aid)
            && db.analyses == old(db.analyses) + [AnalysisRecord(aid, id, user.value.id, a, OrZero(a.resumeScore), Completed, aid)]
            && db.resumes == WithStatus(old(db.resumes), id, Completed))
    ensures user.Returned? && w.body.Returned? ==>
      var b := w.body.value;
      (reply.ServerError? <==>
         HasRequiredFields(b) && RouteFault(b, w).Some?
         && (w.lookupFault.Some? || old(db.OwnedResume(b.resumeId.value, user.value.id)).Some?))
      && (reply.ServerError? ==>
            HasRequiredFields(b) && reply == ServerError(ErrorMessage(RouteFault(b, w).value))
            && var id := b.resumeId.value;
            var done := RouteWrites(b, w);
            var failedWrite := w.failedFault.None? && old(db.HasResume(id));
            AbortedWrites(old(db.writes), db.writes, id, old(db.clock), done, failedWrite)
            && db.resumes == AbortedResumes(old(db.resumes), id, done, failedWrite)
            && db.analyses == AbortedAnalyses(old(db.analyses), CascadeFor(b, w), id, user.value.id, old(db.clock), done))
    ensures (user.Returned? && w.body.Returned? && HasRequiredFields(w.body.value) && w.lookupFault.None?
             && old(db.OwnedResume(w.body.value.resumeId.value, user.value.id)).Some? && w.processingFault.None?
             && ExtractTextFromS3(w.body.value.fileKey.value, w.body.value.fileType.value, w.storage).Returned?
             && CascadeFor(w.body.value, w).Threw?) ==>
        reply == ServerError(GEMINI_KEY_ERROR)
  {
    if user.Threw? {
      return ServerError(ErrorMessage(user.thrown));
    }
    if w.body.Threw? {
      return ServerError(ErrorMessage(w.body.thrown));
    }
    reply := Run(db, user.value, w.body.value, w);
  }

  /** `POST /api/analyze`. Sign-in comes first; then a body without the
      three fields gets 400 and a resume the user does not own gets 404,
      neither writing anything. A success writes PROCESSING, the analysis,
      then COMPLETED, and returns the annotated analysis. The first failure
      stops that sequence where it happens; when the body had already been
      read, FAILED is then written to the requested resume if that write
      succeeds, and the reply carries the mapped message of that failure. */
  method Post(db: Database, w: World) returns (reply: Reply)
    requires db.Valid()
    modifies db
    ensures db.Valid()
    ensures db.matches == old(db.matches)
    ensures var s := Resolve(old(db.users), old(db.clock), w.session);
      db.users == s.users && (s.user.None? ==> reply == ServerError(USER_NOT_FOUND))
    ensures var s := Resolve(old(db.users), old(db.clock), w.session);
      s.user.Some? && w.body.Threw? ==> reply == ServerError(ErrorMessage(w.body.thrown))
    ensures var s := Resolve(old(db.users), old(db.clock), w.session);
      var base := old(db.writes) + SignInWrites(old(db.users), s);
      s.user.None? || w.body.Threw? ==>
        reply.ServerError? && db.writes == base && db.resumes == old(db.resumes) && db.analyses == old(db.analyses)
    ensures var s := Resolve(old(db.users), old(db.clock), w.session);
      var base := old(db.writes) + SignInWrites(old(db.users), s);
      var aid := old(db.clock) + |s.users| - |old(db.users)|;
      s.user.Some? && w.body.Returned? ==>
        var user := s.user.value;
        var b := w.body.value;
        (reply.BadRequest? <==> !HasRequiredFields(b))
        && (!HasRequiredFields(b) ==> reply == BadRequest(MISSING_FIELDS))
        && (reply.NotFound? <==>
              HasRequiredFields(b) && w.lookupFault.None? && old(db.OwnedResume(b.resumeId.value, user.id)).None?)
        && (reply.NotFound? ==> reply == NotFound(NOT_FOUND))
        && (reply.BadRequest? || reply.NotFound? ==>
              db.writes == base && db.resumes == old(db.resumes) && db.analyses == old(db.analyses))
        && (reply.Analyzed? ==>
              HasRequiredFields(b) && w.lookupFault.None? && old(db.OwnedResume(b.resumeId.value, user.id)).Some?
              && var id := b.resumeId.value;
              var c := CascadeFor(b, w);
              c.Returned?
              && var a := Annotated(c.value);
              reply == Analyzed(aid, a, FallbackFlag(c.value), c.value.aiProvider)
              && db.writes == base + Lifecycle(id, aid)
              && db.analyses == old(db.analyses) + [AnalysisRecord(aid, id, user.id, a, OrZero(a.resumeScore), Completed, aid)]
              && db.resumes == WithStatus(old(db.resumes), id, Completed))
    ensures var s := Resolve(old(db.users), old(db.clock), w.session);
      var base := old(db.writes) + SignInWrites(old(db.users), s);
      var aid := old(db.clock) + |s.users| - |old(db.users)|;
      s.user.Some? && w.body.Returned? ==>
        var b := w.body.value;
        (reply.ServerError? <==>
           HasRequiredFields(b) && RouteFault(b, w).Some?
           && (w.lookupFault.Some? || old(db.OwnedResume(b.resumeId.value, s.user.value.id)).Some?))
        && (reply.ServerError? ==>
              HasRequiredFields(b) && reply == ServerError(ErrorMessage(RouteFault(b, w).value))
              && var id := b.resumeId.value;
              var done := RouteWrites(b, w);
              var failedWrite := w.failedFault.None? && old(db.HasResume(id));
              AbortedWrites(base, db.writes, id, aid, done, failedWrite)
              && db.resumes == AbortedResumes(old(db.resumes), id, done, failedWrite)
              && db.analyses == AbortedAnalyses(old(db.analyses), CascadeFor(b, w), id, s.user.value.id, aid, done))
    ensures var s := Resolve(old(db.users), old(db.clock), w.session);
      (s.user.Some? && w.body.Returned? && HasRequiredFields(w.body.value) && w.lookupFault.None?
       && old(db.OwnedResume(w.body.value.resumeId.value, s.user.value.id)).Some? && w.processingFault.None?
       && ExtractTextFromS3(w.body.value.fileKey.value, w.body.value.fileType.value, w.storage).Returned?
       && CascadeFor(w.body.value, w).Threw?) ==>
        reply == ServerError(GEMINI_KEY_ERROR)
  {
    var user := GetCurrentUserOrThrow(db, w.session);
    SignInErrorVerbatim();
    reply := Serve(db, user, w);
  }
}
