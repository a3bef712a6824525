/** The two provider wrappers, `analyzeResume` (lib/gemini.ts) and
    `analyzeResumeWithOpenAI` (lib/openai.ts). The SDK calls and `JSON.parse`
    are not modelled: their outcomes are parameters. What is modelled is what
    the wrappers do with those outcomes: strip code fences, parse, tag the
    result with the provider, and triage errors into a rethrow or the
    fallback analysis. */
module Providers {
  import opened Wrappers
  import opened Text
  import opened Results
  import opened Scorer
  import opened Fences

  const GEMINI_TAG := "Gemini"
  const OPENAI_TAG := "OpenAI GPT-4o"
  const GEMINI_PARSE_FAILURE := "Failed to parse Gemini response: "
  const OPENAI_PARSE_FAILURE := "Failed to parse OpenAI response: "
  const GEMINI_KEY_ERROR := "Gemini API key is not configured properly"
  const OPENAI_KEY_ERROR := "OpenAI API key is not configured properly"
  const NO_CONTENT := "No response content received from OpenAI"

  /** The substrings that make the triage rethrow instead of falling back. */
  const GEMINI_KEY_MARKERS: seq<string> := ["API_KEY"]
  const OPENAI_KEY_MARKERS: seq<string> := ["API_KEY", "api_key"]

  /** `JSON.parse` followed by reading the fields the model keeps; `None`
      when the text is not valid JSON. */
  type JsonParser = string -> Option<Analysis>

  // ---- parsing, tagging and triage --------------------------------------------

  /** The inner `try` block both wrappers share: clean the reply, parse it and
      tag the result with the provider; a parse failure becomes an Error whose
      message quotes the raw, uncleaned reply. */
  function ParseReply(raw: string, parse: JsonParser, tag: string, failure: string): (r: Call<Analysis>)
    ensures r.Returned? <==> parse(CleanFences(raw)).Some?
    ensures r.Returned? ==> r.value.aiProvider == Some(tag)
    ensures r.Returned? ==>
      r.value.(aiProvider := parse(CleanFences(raw)).value.aiProvider) == parse(CleanFences(raw)).value
    ensures r.Threw? ==> r.thrown == Err(failure + raw)
  {
    match parse(CleanFences(raw))
    case Some(json) => Returned(json.(aiProvider := Some(tag)))
    case None => Threw(Err(failure + raw))
  }

  /** The branches of the outer `catch` block, in the order they are tested. */
  datatype Triage = KeyError | QuotaExceeded | RateLimited | ModelNotFound | AccessForbidden | UnknownError | NotAnError

  /** The message mentions one of the markers. */
  predicate MentionsKey(message: string, keyMarkers: seq<string>) {
    exists m :: m in keyMarkers && Contains(message, m)
  }

  /** The two providers' marker lists, spelled out. */
  lemma KeyMarkersSpelledOut(message: string)
    ensures MentionsKey(message, GEMINI_KEY_MARKERS) <==> Contains(message, "API_KEY")
    ensures MentionsKey(message, OPENAI_KEY_MARKERS) <==> Contains(message, "API_KEY") || Contains(message, "api_key")
  {
    assert "API_KEY" in GEMINI_KEY_MARKERS && "API_KEY" in OPENAI_KEY_MARKERS && "api_key" in OPENAI_KEY_MARKERS;
  }

  /** Which branch of the outer `catch` block a thrown value takes. */
  function Classify(e: Thrown, keyMarkers: seq<string>): (c: Triage)
    ensures c == NotAnError <==> e.NonErrorValue?
    ensures c == KeyError <==> e.Err? && MentionsKey(e.message, keyMarkers)
    ensures c == QuotaExceeded ==> Contains(e.message, "quota") || Contains(e.message, "429")
    ensures c == RateLimited ==> Contains(e.message, "rate")
    ensures c == ModelNotFound ==> Contains(e.message, "404") || Contains(e.message, "Not Found")
    ensures c == AccessForbidden ==> Contains(e.message, "403") || Contains(e.message, "Forbidden")
  {
    if e.NonErrorValue? then NotAnError
    else if MentionsKey(e.message, keyMarkers) then KeyError
    else if Contains(e.message, "quota") || Contains(e.message, "429") then QuotaExceeded
    else if Contains(e.message, "rate") then RateLimited
    else if Contains(e.message, "404") || Contains(e.message, "Not Found") then ModelNotFound
    else if Contains(e.message, "403") || Contains(e.message, "Forbidden") then AccessForbidden
    else UnknownError
  }

  /** The outer `catch` block: a key error is rethrown with a fixed message,
      every other branch returns the fallback analysis. */
  function Recover(e: Thrown, keyMarkers: seq<string>, keyError: string, fallback: Analysis): (r: Call<Analysis>)
    ensures r.Threw? <==> e.Err? && MentionsKey(e.message, keyMarkers)
    ensures r.Threw? ==> r.thrown == Err(keyError)
    ensures r.Returned? ==> r.value == fallback
  {
    match Classify(e, keyMarkers)
    case KeyError => Threw(Err(keyError))
    case QuotaExceeded => Returned(fallback)
    case RateLimited => Returned(fallback)
    case ModelNotFound => Returned(fallback)
    case AccessForbidden => Returned(fallback)
    case UnknownError => Returned(fallback)
    case NotAnError => Returned(fallback)
  }

  // ---- Gemini -------------------------------------------------------------------

  /** What the Gemini SDK did: whether `getGenerativeModel` returned a model,
      how the probe call ended, and how the real call (with `response.text()`)
      ended. */
  datatype GeminiCalls = GeminiCalls(modelCreated: bool, probe: Call<()>, reply: Call<string>)

  /** The part of the outer `try` block after the model check: the real
      call, then cleaning, parsing and tagging its reply. */
  function GeminiTry(calls: GeminiCalls, parse: JsonParser): (r: Call<Analysis>)
    ensures r.Returned? ==> r.value.aiProvider == Some(GEMINI_TAG)
  {
    match calls.reply
    case Threw(e) => Threw(e)
    case Returned(raw) => ParseReply(raw, parse, GEMINI_TAG, GEMINI_PARSE_FAILURE)
  }

  /** `analyzeResume`. */
  function AnalyzeResume(text: string, d: Detectors, calls: GeminiCalls, parse: JsonParser): (r: Call<Analysis>)
    ensures !calls.modelCreated ==> r == Returned(GeminiFallback(text, d))
    ensures r.Threw? ==> r.thrown == Err(GEMINI_KEY_ERROR)
    ensures r.Returned? ==> r.value.aiProvider in {Some(GEMINI_TAG), Some("Gemini (Fallback)")}
    ensures r.Returned? && r.value.aiProvider != Some(GEMINI_TAG) ==> r.value == GeminiFallback(text, d)
    ensures calls.modelCreated && GeminiTry(calls, parse).Threw? && r.Returned? ==> r.value == GeminiFallback(text, d)
  {
    if !calls.modelCreated then Returned(GeminiFallback(text, d))
    else
      match GeminiTry(calls, parse)
      case Returned(a) => Returned(a)
      case Threw(e) => Recover(e, GEMINI_KEY_MARKERS, GEMINI_KEY_ERROR, GeminiFallback(text, d))
  }

  /** The parse-failure prefix adds no occurrence of a key marker, so the
      failure message mentions a marker exactly when the raw reply does. */
  lemma ParseFailureEchoesReply(prefix: string, raw: string, marker: string)
    requires prefix == GEMINI_PARSE_FAILURE || prefix == OPENAI_PARSE_FAILURE
    requires marker == "API_KEY" || marker == "api_key"
    ensures Contains(prefix + raw, marker) <==> Contains(raw, marker)
  {
    assert forall i: nat :: i < |prefix| ==> CannotStartAt(prefix, marker, i);
    ContainsSkipPrefix(prefix, raw, marker);
  }

  /** `analyzeResume` throws exactly when a model was created and either the
      call threw an Error mentioning "API_KEY", or the reply did not parse
      and its raw text mentions "API_KEY" (the parse-failure message quotes
      the reply). */
  lemma GeminiRethrowsOnlyOnKeyError(text: string, d: Detectors, calls: GeminiCalls, parse: JsonParser)
    ensures AnalyzeResume(text, d, calls, parse).Threw? <==>
      calls.modelCreated &&
      match calls.reply
      case Threw(e) => e.Err? && Contains(e.message, "API_KEY")
      case Returned(raw) => parse(CleanFences(raw)).None? && Contains(raw, "API_KEY")
  {
    var r := GeminiTry(calls, parse);
    if r.Threw? && r.thrown.Err? {
      KeyMarkersSpelledOut(r.thrown.message);
    }
    if calls.reply.Returned? {
      ParseFailureEchoesReply(GEMINI_PARSE_FAILURE, calls.reply.value, "API_KEY");
    }
  }

  /** A reply that parses is returned, tagged "Gemini" whatever the JSON said. */
  lemma GeminiSuccessTagged(text: string, d: Detectors, calls: GeminiCalls, parse: JsonParser)
    requires calls.modelCreated && calls.reply.Returned?
    requires parse(CleanFences(calls.reply.value)).Some?
    ensures var json := parse(CleanFences(calls.reply.value)).value;
      AnalyzeResume(text, d, calls, parse) == Returned(json.(aiProvider := Some(GEMINI_TAG)))
  {
  }

  /** Once a model object exists, the probe's outcome changes nothing: a
      failed probe neither skips the real call nor selects the fallback. */
  lemma GeminiProbeIgnored(text: string, d: Detectors, reply: Call<string>, p1: Call<()>, p2: Call<()>, parse: JsonParser)
    ensures AnalyzeResume(text, d, GeminiCalls(true, p1, reply), parse)
         == AnalyzeResume(text, d, GeminiCalls(true, p2, reply), parse)
  {
  }

  // ---- OpenAI -------------------------------------------------------------------

  /** What the OpenAI side did: whether a client was built (AIMLAPI_KEY set)
      and how the completion call ended, with the first choice's content
      (absent when there is no choice, message or content). */
  datatype OpenAICall = OpenAICall(clientConfigured: bool, reply: Call<Option<string>>)

  /** The part of the outer `try` block after the client check: the call,
      the empty-content check, then cleaning, parsing and tagging. */
  function OpenAITry(call: OpenAICall, parse: JsonParser): (r: Call<Analysis>)
    ensures r.Returned? ==> r.value.aiProvider == Some(OPENAI_TAG)
  {
    match call.reply
    case Threw(e) => Threw(e)
    case Returned(content) =>
      if !Truthy(content) then Threw(Err(NO_CONTENT))
      else ParseReply(content.value, parse, OPENAI_TAG, OPENAI_PARSE_FAILURE)
  }

  /** `analyzeResumeWithOpenAI`. */
  function AnalyzeResumeWithOpenAI(text: string, d: Detectors, call: OpenAICall, parse: JsonParser): (r: Call<Analysis>)
    ensures !call.clientConfigured ==> r == Returned(OpenAIFallback(text, d))
    ensures r.Threw? ==> r.thrown == Err(OPENAI_KEY_ERROR)
    ensures r.Returned? ==> r.value.aiProvider in {Some(OPENAI_TAG), Some("OpenAI (Fallback)")}
    ensures r.Returned? && r.value.aiProvider != Some(OPENAI_TAG) ==> r.value == OpenAIFallback(text, d)
    ensures call.clientConfigured && OpenAITry(call, parse).Threw? && r.Returned? ==> r.value == OpenAIFallback(text, d)
  {
    if !call.clientConfigured then Returned(OpenAIFallback(text, d))
    else
      match OpenAITry(call, parse)
      case Returned(a) => Returned(a)
      case Threw(e) => Recover(e, OPENAI_KEY_MARKERS, OPENAI_KEY_ERROR, OpenAIFallback(text, d))
  }

  /** The empty-content message mentions neither key marker. */
  lemma NoContentIsNotKeyError()
    ensures !Contains(NO_CONTENT, "API_KEY") && !Contains(NO_CONTENT, "api_key")
  {
    assert NO_CONTENT + "" == NO_CONTENT;
    assert forall i: nat :: i < |NO_CONTENT| ==> CannotStartAt(NO_CONTENT, "API_KEY", i);
    assert forall i: nat :: i < |NO_CONTENT| ==> CannotStartAt(NO_CONTENT, "api_key", i);
    ContainsSkipPrefix(NO_CONTENT, "", "API_KEY");
    ContainsSkipPrefix(NO_CONTENT, "", "api_key");
  }

  /** Missing or empty content ends in the OpenAI fallback analysis. */
  lemma EmptyContentFallsBack(text: string, d: Detectors, parse: JsonParser)
    ensures AnalyzeResumeWithOpenAI(text, d, OpenAICall(true, Returned(None)), parse) == Returned(OpenAIFallback(text, d))
    ensures AnalyzeResumeWithOpenAI(text, d, OpenAICall(true, Returned(Some(""))), parse) == Returned(OpenAIFallback(text, d))
  {
    NoContentIsNotKeyError();
    KeyMarkersSpelledOut(NO_CONTENT);
  }

  /** `analyzeResumeWithOpenAI` throws exactly when a client exists and either
      the call threw an Error mentioning "API_KEY" or "api_key", or non-empty
      content did not parse and its raw text mentions one of them. */
  lemma OpenAIRethrowsOnlyOnKeyError(text: string, d: Detectors, call: OpenAICall, parse: JsonParser)
    ensures AnalyzeResumeWithOpenAI(text, d, call, parse).Threw? <==>
      call.clientConfigured &&
      match call.reply
      case Threw(e) => e.Err? && (Contains(e.message, "API_KEY") || Contains(e.message, "api_key"))
      case Returned(content) =>
        Truthy(content) && parse(CleanFences(content.value)).None?
        && (Contains(content.value, "API_KEY") || Contains(content.value, "api_key"))
  {
    NoContentIsNotKeyError();
    var r := OpenAITry(call, parse);
    if r.Threw? && r.thrown.Err? {
      KeyMarkersSpelledOut(r.thrown.message);
    }
    if call.reply.Returned? && Truthy(call.reply.value) {
      ParseFailureEchoesReply(OPENAI_PARSE_FAILURE, call.reply.value.value, "API_KEY");
      ParseFailureEchoesReply(OPENAI_PARSE_FAILURE, call.reply.value.value, "api_key");
    }
  }

  /** Non-empty content that parses is returned, tagged "OpenAI GPT-4o"
      whatever the JSON said. */
  lemma OpenAISuccessTagged(text: string, d: Detectors, call: OpenAICall, parse: JsonParser)
    requires call.clientConfigured && call.reply.Returned? && Truthy(call.reply.value)
    requires parse(CleanFences(call.reply.value.value)).Some?
    ensures var json := parse(CleanFences(call.reply.value.value)).value;
      AnalyzeResumeWithOpenAI(text, d, call, parse) == Returned(json.(aiProvider := Some(OPENAI_TAG)))
  {
  }
}
