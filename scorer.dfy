/** The deterministic fallback scorer used when an AI provider is unavailable
    (`generateFallbackAnalysis` in lib/gemini.ts and its copy
    `generateOpenAIFallbackAnalysis` in lib/openai.ts). The two copies differ
    only in their grammar note and provider tag, so both are `Heuristic` with
    different arguments. */
module Scorer {
  import opened Wrappers
  import opened Text
  import opened Results
  import opened Seqs

  const TECHNICAL_SKILLS: seq<string> := [
    "javascript", "python", "java", "react", "node.js", "sql", "aws", "docker",
    "kubernetes", "git", "html", "css", "typescript", "angular", "vue.js",
    "mongodb", "postgresql", "mysql", "redis", "elasticsearch", "jenkins",
    "terraform", "ansible", "linux", "windows", "macos", "agile", "scrum"]

  const SOFT_SKILLS: seq<string> := [
    "leadership", "communication", "teamwork", "problem solving", "project management",
    "collaboration", "time management", "organization", "analytical thinking",
    "creativity", "adaptability", "customer service", "mentoring", "training"]

  const BUSINESS_SKILLS: seq<string> := [
    "data analysis", "business intelligence", "market research", "strategy",
    "budgeting", "forecasting", "risk management", "quality assurance",
    "compliance", "regulatory", "audit", "reporting", "presentation"]

  /** The whole vocabulary, technical first, then soft, then business. */
  const ALL_SKILLS: seq<string> := TECHNICAL_SKILLS + SOFT_SKILLS + BUSINESS_SKILLS

  const TIP_LENGTH := "Consider adding more detailed descriptions of your experience and achievements."
  const TIP_SKILLS := "Include more specific technical and soft skills relevant to your target industry."
  const TIP_EXPERIENCE := "Add a work experience section with quantifiable achievements."
  const TIP_EDUCATION := "Include your educational background and relevant certifications."
  const TIP_GENERIC := "Your resume has good structure. Consider adding quantifiable achievements to stand out."

  const GEMINI_NOTE := "Analysis limited due to API quota" + TRY_LATER
  const OPENAI_NOTE := "Analysis limited due to OpenAI " + "API unavailability" + TRY_LATER
  const TRY_LATER := ". Please try again later for detailed grammar review."

  /** The email and phone regular expressions, kept abstract: each maps the
      text to whether the pattern occurs in it. */
  datatype Detectors = Detectors(hasEmail: string -> bool, hasPhone: string -> bool)

  // ---- the scorer's measurements -----------------------------------------------

  /** `text.split(/\s+/).length`. */
  function WordCount(text: string): nat {
    |Split(text)|
  }

  /** Whether a vocabulary term occurs in the text, both lower-cased. */
  predicate Mentions(text: string, skill: string) {
    Contains(ToLower(text), ToLower(skill))
  }

  /** The vocabulary terms the text mentions, in vocabulary order. */
  function FoundSkills(text: string): seq<string> {
    Filter(ALL_SKILLS, skill => Mentions(text, skill))
  }

  /** `/experience|work|employment|job/i`. */
  predicate HasExperience(text: string) {
    var t := ToLower(text);
    Contains(t, "experience") || Contains(t, "work") || Contains(t, "employment") || Contains(t, "job")
  }

  /** `/education|degree|university|college|school/i`. */
  predicate HasEducation(text: string) {
    var t := ToLower(text);
    Contains(t, "education") || Contains(t, "degree") || Contains(t, "university")
    || Contains(t, "college") || Contains(t, "school")
  }

  /** `/skills|technologies|tools/i`. */
  predicate HasSkillsSection(text: string) {
    var t := ToLower(text);
    Contains(t, "skills") || Contains(t, "technologies") || Contains(t, "tools")
  }

  /** Base 30 plus every bonus that applies, before the cap at 100. */
  function RawScore(text: string, d: Detectors): int {
    var wordCount := WordCount(text);
    var found := |FoundSkills(text)|;
    30
    + (if d.hasEmail(text) then 10 else 0)
    + (if d.hasPhone(text) then 10 else 0)
    + (if wordCount > 200 then 15 else 0)
    + (if wordCount > 500 then 10 else 0)
    + (if found > 5 then 20 else 0)
    + (if found > 10 then 15 else 0)
    + (if HasExperience(text) then 10 else 0)
    + (if HasEducation(text) then 5 else 0)
    + (if HasSkillsSection(text) then 5 else 0)
  }

  /** `Math.min(score, 100)`: never below the base 30, never above 100. */
  function ResumeScore(text: string, d: Detectors): (score: int)
    ensures 30 <= score <= 100
  {
    var raw := RawScore(text, d);
    if raw < 100 then raw else 100
  }

  /** "Good" when the text names more than 8 skills and has both an experience
      and an education section, whatever its length; otherwise "Poor" when it
      names fewer than 3 skills or has fewer than 100 words; otherwise "Average". */
  function AtsVerdict(text: string): (verdict: string)
    ensures verdict == "Good" <==> |FoundSkills(text)| > 8 && HasExperience(text) && HasEducation(text)
    ensures verdict == "Poor" <==>
      !(|FoundSkills(text)| > 8 && HasExperience(text) && HasEducation(text))
      && (|FoundSkills(text)| < 3 || WordCount(text) < 100)
    ensures verdict in {"Good", "Average", "Poor"}
  {
    var found := |FoundSkills(text)|;
    if found > 8 && HasExperience(text) && HasEducation(text) then "Good"
    else if found < 3 || WordCount(text) < 100 then "Poor"
    else "Average"
  }

  /** The formatting tips the scorer can emit. */
  datatype Tip = LengthTip | SkillsTip | ExperienceTip | EducationTip | GenericTip

  function TipText(t: Tip): string {
    match t
    case LengthTip => TIP_LENGTH
    case SkillsTip => TIP_SKILLS
    case ExperienceTip => TIP_EXPERIENCE
    case EducationTip => TIP_EDUCATION
    case GenericTip => TIP_GENERIC
  }

  /** Whether the condition of a conditional tip holds, given the four
      conditions (short text, few skills, no experience section, no
      education section). */
  predicate Fires(t: Tip, short: bool, fewSkills: bool, noExperience: bool, noEducation: bool) {
    match t
    case LengthTip => short
    case SkillsTip => fewSkills
    case ExperienceTip => noExperience
    case EducationTip => noEducation
    case GenericTip => false
  }

  /** The conditional tips in the order the scorer considers them. */
  const CONDITIONAL_TIPS: seq<Tip> := [LengthTip, SkillsTip, ExperienceTip, EducationTip]

  /** The tips whose conditions fire, in the fixed order, or the single
      generic tip when none fires. */
  function TipsFor(short: bool, fewSkills: bool, noExperience: bool, noEducation: bool): (tips: seq<Tip>)
    ensures 1 <= |tips| <= 4
    ensures LengthTip in tips <==> short
    ensures SkillsTip in tips <==> fewSkills
    ensures ExperienceTip in tips <==> noExperience
    ensures EducationTip in tips <==> noEducation
    ensures GenericTip in tips <==> !short && !fewSkills && !noExperience && !noEducation
    ensures GenericTip in tips ==> tips == [GenericTip]
    ensures GenericTip !in tips ==> IsSubsequence(tips, CONDITIONAL_TIPS)
  {
    var fired := Filter(CONDITIONAL_TIPS, t => Fires(t, short, fewSkills, noExperience, noEducation));
    FilterIsSubsequence(CONDITIONAL_TIPS, t => Fires(t, short, fewSkills, noExperience, noEducation));
    assert Fires(LengthTip, short, fewSkills, noExperience, noEducation) == short;
    assert Fires(SkillsTip, short, fewSkills, noExperience, noEducation) == fewSkills;
    assert Fires(ExperienceTip, short, fewSkills, noExperience, noEducation) == noExperience;
    assert Fires(EducationTip, short, fewSkills, noExperience, noEducation) == noEducation;
    if fired == [] then [GenericTip] else fired
  }

  /** The texts of the given tips, in order. */
  function TipTexts(kinds: seq<Tip>): seq<string> {
    seq(|kinds|, i requires 0 <= i < |kinds| => TipText(kinds[i]))
  }

  /** `formattingTips` of the fallback analysis, as texts. */
  function FormattingTips(text: string): (tips: seq<string>)
    ensures 1 <= |tips| <= 4
  {
    TipTexts(TipsFor(WordCount(text) < 200, |FoundSkills(text)| < 5, !HasExperience(text), !HasEducation(text)))
  }

  /** `keywordsMatched`: at most 10 found terms. */
  function KeywordsMatched(text: string): seq<string> {
    Take(FoundSkills(text), 10)
  }

  /** `keywordsMissing`: at most 8 vocabulary terms that were not found. */
  function KeywordsMissing(text: string): seq<string> {
    var found := FoundSkills(text);
    Take(Filter(ALL_SKILLS, skill => skill !in found), 8)
  }

  /** The fallback analysis, tagged with the given grammar note and provider. */
  function Heuristic(text: string, d: Detectors, note: string, provider: string): (a: Analysis)
    ensures a.resumeScore.Some? && 30 <= a.resumeScore.value <= 100
    ensures a.keywordsMatched.Some? && |a.keywordsMatched.value| <= 10
    ensures a.keywordsMissing.Some? && |a.keywordsMissing.value| <= 8
    ensures forall k :: k in a.keywordsMatched.value ==> k !in a.keywordsMissing.value
    ensures a.formattingTips == Some(FormattingTips(text))
    ensures a.grammarIssues == Some([note]) && a.aiProvider == Some(provider)
    ensures a.atsCompatibility.Some? && a.atsCompatibility.value in {"Good", "Average", "Poor"}
    ensures a.grammarScore.None? && a.metadata.None?
    ensures a.resumeScore == Some(ResumeScore(text, d)) && a.atsCompatibility == Some(AtsVerdict(text))
    ensures a.keywordsMatched == Some(KeywordsMatched(text)) && a.keywordsMissing == Some(KeywordsMissing(text))
  {
    var found := FoundSkills(text);
    var matched := KeywordsMatched(text);
    var missing := KeywordsMissing(text);
    assert forall k :: k in matched ==> k in found by {
      forall k | k in matched ensures k in found {
        if |found| > 10 {
          var i :| 0 <= i < 10 && matched[i] == k;
          assert found[i] == k;
        }
      }
    }
    assert forall k :: k in missing ==> k !in found by {
      var unfound := Filter(ALL_SKILLS, skill => skill !in found);
      forall k | k in missing ensures k in unfound {
        if |unfound| > 8 {
          var i :| 0 <= i < 8 && missing[i] == k;
          assert unfound[i] == k;
        }
      }
    }
    Analysis(
      resumeScore := Some(ResumeScore(text, d)),
      grammarScore := None,
      grammarIssues := Some([note]),
      formattingTips := Some(FormattingTips(text)),
      keywordsMatched := Some(matched),
      keywordsMissing := Some(missing),
      atsCompatibility := Some(AtsVerdict(text)),
      aiProvider := Some(provider),
      metadata := None)
  }

  /** `generateFallbackAnalysis` (lib/gemini.ts). */
  function GeminiFallback(text: string, d: Detectors): (a: Analysis)
    ensures a.grammarIssues == Some([GEMINI_NOTE]) && a.aiProvider == Some("Gemini (Fallback)")
  {
    Heuristic(text, d, GEMINI_NOTE, "Gemini (Fallback)")
  }

  /** `generateOpenAIFallbackAnalysis` (lib/openai.ts). */
  function OpenAIFallback(text: string, d: Detectors): (a: Analysis)
    ensures a.grammarIssues == Some([OPENAI_NOTE]) && a.aiProvider == Some("OpenAI (Fallback)")
  {
    Heuristic(text, d, OPENAI_NOTE, "OpenAI (Fallback)")
  }

  // ---- properties of the fallback analysis -------------------------------------

  /** `wordCount` is one more than the number of whitespace runs: "" counts
      as one word, and leading or trailing whitespace adds an empty word. */
  lemma WordCountIsRunsPlusOne(text: string)
    ensures WordCount(text) == WhitespaceRuns(text) + 1
  {
    SplitCount(text);
  }

  /** `keywordsMatched` lists the first (at most 10) vocabulary terms the text
      mentions, in vocabulary order, and leaves none out when it has room. */
  lemma KeywordsMatchedAreFirstFound(text: string)
    ensures var matched := KeywordsMatched(text);
      && (forall k :: k in matched ==> k in ALL_SKILLS && Mentions(text, k))
      && IsSubsequence(matched, ALL_SKILLS)
      && matched == FoundSkills(text)[..|matched|]
      && (|matched| < 10 ==> forall k :: k in ALL_SKILLS && Mentions(text, k) ==> k in matched)
  {
    var found := FoundSkills(text);
    var matched := KeywordsMatched(text);
    FilterIsSubsequence(ALL_SKILLS, skill => Mentions(text, skill));
    PrefixOfSubsequence(found, ALL_SKILLS, |matched|);
    assert matched == found[..|matched|];
    forall k | k in matched ensures k in found {
      var i :| 0 <= i < |matched| && matched[i] == k;
      assert found[i] == k;
    }
  }

  /** `keywordsMissing` is the first eight terms the text does not mention,
      in vocabulary order, or all of them when there are fewer. */
  lemma KeywordsMissingAreFirstUnfound(text: string)
    ensures var missing := KeywordsMissing(text);
      var unfound := Filter(ALL_SKILLS, k => !Mentions(text, k));
      |missing| == (if |unfound| < 8 then |unfound| else 8) && missing == unfound[..|missing|]
  {
    var found := FoundSkills(text);
    var unfound := Filter(ALL_SKILLS, k => !Mentions(text, k));
    FilterAgrees(ALL_SKILLS, skill => skill !in found, k => !Mentions(text, k));
    assert Filter(ALL_SKILLS, skill => skill !in found) == unfound;
    var missing := KeywordsMissing(text);
    assert missing == Take(unfound, 8);
    assert missing == unfound[..|missing|];
  }

  /** `keywordsMissing` lists (at most 8) vocabulary terms the text does not
      mention, in vocabulary order, leaving none out when it has room; none of
      them is in `keywordsMatched`. */
  lemma KeywordsMissingAreUnfound(text: string)
    ensures var missing := KeywordsMissing(text);
      && (forall k :: k in missing ==> k in ALL_SKILLS && !Mentions(text, k))
      && IsSubsequence(missing, ALL_SKILLS)
      && (|missing| < 8 ==> forall k :: k in ALL_SKILLS && !Mentions(text, k) ==> k in missing)
      && (forall k :: k in missing ==> k !in KeywordsMatched(text))
    ensures var missing := KeywordsMissing(text);
      var unfound := Filter(ALL_SKILLS, k => !Mentions(text, k));
      |missing| == (if |unfound| < 8 then |unfound| else 8) && missing == unfound[..|missing|]
  {
    KeywordsMissingAreFirstUnfound(text);
    var found := FoundSkills(text);
    var unfound := Filter(ALL_SKILLS, skill => skill !in found);
    var missing := KeywordsMissing(text);
    assert missing == unfound[..|missing|];
    FilterIsSubsequence(ALL_SKILLS, skill => skill !in found);
    PrefixOfSubsequence(unfound, ALL_SKILLS, |missing|);
    forall k | k in missing ensures k in unfound {
      var i :| 0 <= i < |missing| && missing[i] == k;
      assert unfound[i] == k;
    }
    KeywordsMatchedAreFirstFound(text);
  }

  /** A "Good" verdict implies a score of at least 65 (30 base, 20 for more
      than 5 skills, 10 for experience, 5 for education). */
  lemma GoodVerdictScoresAtLeast65(text: string, d: Detectors)
    requires AtsVerdict(text) == "Good"
    ensures ResumeScore(text, d) >= 65
  {
  }

  /** No vocabulary term is the empty string. */
  lemma VocabularyNonEmpty()
    ensures forall k :: k in ALL_SKILLS ==> |k| > 0
  {
    assert forall k :: k in TECHNICAL_SKILLS ==> |k| > 0;
    assert forall k :: k in SOFT_SKILLS ==> |k| > 0;
    assert forall k :: k in BUSINESS_SKILLS ==> |k| > 0;
  }

  /** The empty text mentions no vocabulary term. */
  lemma NothingFoundInEmpty()
    ensures FoundSkills("") == []
  {
    VocabularyNonEmpty();
    assert ToLower("") == "";
    forall skill | skill in ALL_SKILLS ensures !Mentions("", skill) {
      assert |ToLower(skill)| == |skill| > 0;
    }
    FilterKeepsNone(ALL_SKILLS, skill => Mentions("", skill));
  }

  /** The empty text has no section headings. */
  lemma NoSectionsInEmpty()
    ensures !HasExperience("") && !HasEducation("") && !HasSkillsSection("")
  {
    assert ToLower("") == "";
  }

  /** When every condition holds, every conditional tip is given, in order. */
  lemma AllTipsFire()
    ensures TipsFor(true, true, true, true) == CONDITIONAL_TIPS
  {
    FilterKeepsAll(CONDITIONAL_TIPS, t => Fires(t, true, true, true, true));
  }

  /** A short text with few skills and neither section gets all four
      conditional tips, in order, and not the generic one. */
  lemma AllConditionsAllTips(text: string)
    requires WordCount(text) < 200 && |FoundSkills(text)| < 5
    requires !HasExperience(text) && !HasEducation(text)
    ensures FormattingTips(text) == TipTexts(CONDITIONAL_TIPS)
  {
    AllTipsFire();
  }

  /** The empty text: one word, no skills, score 30 (the regexes cannot match
      the empty text), verdict "Poor", all four conditional tips, nothing
      matched, and the first eight vocabulary terms missing. */
  lemma EmptyTextAnalysis(d: Detectors)
    requires !d.hasEmail("") && !d.hasPhone("")
    ensures WordCount("") == 1
    ensures FoundSkills("") == []
    ensures ResumeScore("", d) == 30
    ensures AtsVerdict("") == "Poor"
    ensures FormattingTips("") == TipTexts(CONDITIONAL_TIPS)
    ensures KeywordsMatched("") == []
    ensures KeywordsMissing("") == ALL_SKILLS[..8]
  {
    NothingFoundInEmpty();
    NoSectionsInEmpty();
    assert WordCount("") == 1;
    AllConditionsAllTips("");
    FilterKeepsAll(ALL_SKILLS, skill => skill !in []);
  }

  /** Every bonus at once caps the score at 100, and the verdict is "Good". */
  lemma FullMarks(text: string, d: Detectors)
    requires d.hasEmail(text) && d.hasPhone(text)
    requires WordCount(text) > 500 && |FoundSkills(text)| > 10
    requires HasExperience(text) && HasEducation(text) && HasSkillsSection(text)
    ensures RawScore(text, d) == 130 && ResumeScore(text, d) == 100
    ensures AtsVerdict(text) == "Good"
  {
  }

  /** The two fallback copies agree on everything except the grammar note and
      the provider tag. */
  lemma FallbacksAgree(text: string, d: Detectors)
    ensures GeminiFallback(text, d).(grammarIssues := None, aiProvider := None)
         == OpenAIFallback(text, d).(grammarIssues := None, aiProvider := None)
  {
  }
}
