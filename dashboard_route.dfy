/** `/api/dashboard`: one row per resume of the signed-in user, newest first,
    built from the resume's latest analysis and its five newest job matches,
    and statistics over those resumes and rows. */
module DashboardRoute {
  import opened Wrappers
  import opened Seqs
  import opened Text
  import opened Results
  import opened Store
  import opened Auth

  const DASHBOARD_FAILED := "Failed to fetch dashboard data"
  const UNKNOWN_ATS := "Unknown"
  /** `take: 5` on a resume's job matches. */
  const MATCHES_SHOWN := 5

  /** A resume as the query fetches it: its newest analysis (`take: 1`) and
      its newest job matches (`take: 5`), both `orderBy: { createdAt: 'desc' }`. */
  datatype ResumeView = ResumeView(resume: Resume, latest: Option<AnalysisRecord>, matches: seq<JobMatch>)

  /** One dashboard row; `uploadDate` is the creation time as a number. */
  datatype Row = Row(
    id: nat, fileName: string, uploadDate: nat,
    resumeScore: int, grammarScore: int, atsCompatibility: string,
    skillMatch: nat, keywords: seq<string>, suggestions: seq<string>, jobMatches: seq<string>,
    status: string, fileKey: string, fileType: string)

  datatype Stats = Stats(
    totalResumes: nat, completedAnalyses: nat, processingAnalyses: nat, failedAnalyses: nat,
    totalJobMatches: nat, averageScore: int)

  datatype Reply = Dashboard(resumes: seq<Row>, stats: Stats) | DashboardFailed(error: string) {
    function Status(): int {
      if Dashboard? then 200 else 500
    }
  }

  // ---- the query ----------------------------------------------------------------

  /** The newest analysis of a resume, if it has any. */
  function LatestAnalysis(analyses: seq<AnalysisRecord>, resumeId: nat): (a: Option<AnalysisRecord>)
    ensures a.Some? ==> a.value in analyses && a.value.resumeId == resumeId
    ensures a.None? <==> forall i :: 0 <= i < |analyses| ==> analyses[i].resumeId != resumeId
    ensures a.Some? && IncreasingBy(analyses, AnalysisCreatedAt) ==>
      forall b :: b in analyses && b.resumeId == resumeId ==> b.createdAt <= a.value.createdAt
  {
    var own := Filter(analyses, (x: AnalysisRecord) => x.resumeId == resumeId);
    FilterKeepsIncreasing(analyses, (x: AnalysisRecord) => x.resumeId == resumeId, AnalysisCreatedAt);
    assert forall i :: 0 <= i < |analyses| && analyses[i].resumeId == resumeId ==> analyses[i] in own;
    if own == [] then None else Some(own[|own| - 1])
  }

  /** The job matches of a resume, at most five: all of them when it has
      fewer; `RecentMatchesNewest` shows they are the newest, newest first. */
  function RecentMatches(matches: seq<JobMatch>, resumeId: nat): (ms: seq<JobMatch>)
    ensures |ms| <= MATCHES_SHOWN
    ensures forall m :: m in ms ==> m in matches && m.resumeId == resumeId
    ensures |ms| < MATCHES_SHOWN ==> forall m :: m in matches && m.resumeId == resumeId ==> m in ms
  {
    var own := Filter(matches, (m: JobMatch) => m.resumeId == resumeId);
    var ms := Take(Reverse(own), MATCHES_SHOWN);
    assert forall m :: m in ms ==> m in Reverse(own);
    assert |ms| < MATCHES_SHOWN ==> ms == Reverse(own);
    ms
  }

  /** On a table in creation order, the matches shown are the newest five,
      newest first: each is newer than the next and than every match of the
      resume left out. */
  lemma RecentMatchesNewest(matches: seq<JobMatch>, resumeId: nat)
    requires IncreasingBy(matches, MatchCreatedAt)
    ensures var ms := RecentMatches(matches, resumeId);
      forall i, j :: 0 <= i < j < |ms| ==> ms[i].createdAt > ms[j].createdAt
    ensures var ms := RecentMatches(matches, resumeId);
      forall m, n :: m in matches && m.resumeId == resumeId && m !in ms && n in ms ==> m.createdAt < n.createdAt
  {
    var own := Filter(matches, (m: JobMatch) => m.resumeId == resumeId);
    var newest := Reverse(own);
    var ms := RecentMatches(matches, resumeId);
    assert ms == Take(newest, MATCHES_SHOWN);
    FilterKeepsIncreasing(matches, (m: JobMatch) => m.resumeId == resumeId, MatchCreatedAt);
    ReverseDecreasing(own, MatchCreatedAt);
    TakeKeepsLargest(newest, MATCHES_SHOWN, MatchCreatedAt);
    forall i, j | 0 <= i < j < |ms|
      ensures ms[i].createdAt > ms[j].createdAt
    {
      assert MatchCreatedAt(newest[i]) > MatchCreatedAt(newest[j]);
    }
    forall m, n | m in matches && m.resumeId == resumeId && m !in ms && n in ms
      ensures m.createdAt < n.createdAt
    {
      assert m in own;
      assert m in newest;
      assert MatchCreatedAt(m) < MatchCreatedAt(n);
    }
  }

  function View(r: Resume, analyses: seq<AnalysisRecord>, matches: seq<JobMatch>): ResumeView {
    ResumeView(r, LatestAnalysis(analyses, r.id), RecentMatches(matches, r.id))
  }

  // ---- rows -------------------------------------------------------------------

  /** `list || []`. */
  function ListOrEmpty(l: Option<seq<string>>): seq<string> {
    if l.Some? then l.value else []
  }

  /** The row of one resume. `skillMatch` is always the number of keywords
      shown; a resume never analysed shows zeros, "Unknown" and empty lists;
      suggestions are the grammar issues, then the formatting tips. */
  function RowOf(v: ResumeView): (row: Row)
    ensures row.id == v.resume.id && row.fileName == v.resume.fileName && row.uploadDate == v.resume.createdAt
    ensures row.fileKey == v.resume.fileKey && row.fileType == v.resume.fileType
    ensures row.skillMatch == |row.keywords|
    ensures v.latest.None? ==>
      row.resumeScore == 0 && row.grammarScore == 0 && row.atsCompatibility == UNKNOWN_ATS
      && row.keywords == [] && row.suggestions == []
    ensures v.latest.Some? ==>
      var result := v.latest.value.result;
      row.resumeScore == v.latest.value.score
      && row.grammarScore == OrZero(result.grammarScore)
      && (result.grammarScore.Some? ==> row.grammarScore == result.grammarScore.value)
      && row.atsCompatibility == OrElse(result.atsCompatibility, UNKNOWN_ATS)
      && (Truthy(result.atsCompatibility) ==> row.atsCompatibility == result.atsCompatibility.value)
      && row.keywords == ListOrEmpty(result.keywordsMatched)
      && |row.suggestions| == |ListOrEmpty(result.grammarIssues)| + |ListOrEmpty(result.formattingTips)|
      && row.suggestions[..|ListOrEmpty(result.grammarIssues)|] == ListOrEmpty(result.grammarIssues)
      && row.suggestions[|ListOrEmpty(result.grammarIssues)|..] == ListOrEmpty(result.formattingTips)
    ensures |row.jobMatches| == |v.matches|
    ensures forall k :: 0 <= k < |v.matches| ==> row.jobMatches[k] == v.matches[k].jobTitle
    ensures row.status == ToLower(StatusName(v.resume.status))
  {
    var r := v.resume;
    var titles := seq(|v.matches|, k requires 0 <= k < |v.matches| => v.matches[k].jobTitle);
    var status := ToLower(StatusName(r.status));
    match v.latest
    case None => Row(r.id, r.fileName, r.createdAt, 0, 0, UNKNOWN_ATS, 0, [], [], titles, status, r.fileKey, r.fileType)
    case Some(a) =>
      var keywords := ListOrEmpty(a.result.keywordsMatched);
      var issues := ListOrEmpty(a.result.grammarIssues);
      Row(r.id, r.fileName, r.createdAt, a.score, OrZero(a.result.grammarScore),
          OrElse(a.result.atsCompatibility, UNKNOWN_ATS), |keywords|, keywords,
          issues + ListOrEmpty(a.result.formattingTips), titles, status, r.fileKey, r.fileType)
  }

  /** `resumes.map(...)`: one row per resume, in the same order. */
  function Rows(views: seq<ResumeView>): (rows: seq<Row>)
    ensures |rows| == |views|
    ensures forall k :: 0 <= k < |views| ==> rows[k] == RowOf(views[k])
  {
    seq(|views|, k requires 0 <= k < |views| => RowOf(views[k]))
  }

  /** The lower-cased status names are the four distinct words the client
      expects, "pending" included. */
  lemma RowStatusNames(s: Status, t: Status)
    ensures ToLower(StatusName(s)) == match s
      case Pending => "pending"
      case Processing => "processing"
      case Completed => "completed"
      case Failed => "failed"
    ensures s != t ==> ToLower(StatusName(s)) != ToLower(StatusName(t))
  {
    assert ToLower("PENDING") == "pending";
    assert ToLower("PROCESSING") == "processing";
    assert ToLower("COMPLETED") == "completed";
    assert ToLower("FAILED") == "failed";
    assert "pending"[0] != "processing"[1];
  }

  // ---- statistics ---------------------------------------------------------------

  function CountStatus(rs: seq<Resume>, s: Status): nat {
    |Filter(rs, (r: Resume) => r.status == s)|
  }

  lemma CountStatusStep(rs: seq<Resume>, s: Status)
    requires rs != []
    ensures CountStatus(rs, s) == CountStatus(rs[1..], s) + (if rs[0].status == s then 1 else 0)
  {
  }

  /** Every resume has exactly one of the four statuses, so the three counts
      leave out exactly the PENDING ones. */
  lemma {:induction false} StatusCountsPartition(rs: seq<Resume>)
    ensures CountStatus(rs, Completed) + CountStatus(rs, Processing) + CountStatus(rs, Failed)
            + CountStatus(rs, Pending) == |rs|
    decreases |rs|
  {
    if rs != [] {
      CountStatusStep(rs, Completed);
      CountStatusStep(rs, Processing);
      CountStatusStep(rs, Failed);
      CountStatusStep(rs, Pending);
      StatusCountsPartition(rs[1..]);
    }
  }

  function Sum(xs: seq<int>): int {
    if xs == [] then 0 else xs[0] + Sum(xs[1..])
  }

  /** `Math.round(sum / n)`, or 0 for no values: the integer nearest the
      mean, a half rounded up. */
  function RoundedMean(xs: seq<int>): (m: int)
    ensures xs == [] ==> m == 0
    ensures xs != [] ==> |xs| * (2 * m - 1) <= 2 * Sum(xs) < |xs| * (2 * m + 1)
  {
    if xs == [] then 0
    else
      var n := |xs|;
      var q := (2 * Sum(xs) + n) / (2 * n);
      assert 2 * n * q <= 2 * Sum(xs) + n < 2 * n * q + 2 * n;
      q
  }

  /** A positive factor can be cancelled from an inequality. */
  lemma MulCancel(n: int, a: int, b: int)
    requires n > 0 && n * a <= n * b
    ensures a <= b
  {
  }

  lemma {:induction false} SumBounds(xs: seq<int>, lo: int, hi: int)
    requires forall i :: 0 <= i < |xs| ==> lo <= xs[i] <= hi
    ensures |xs| * lo <= Sum(xs) <= |xs| * hi
    decreases |xs|
  {
    if xs != [] {
      SumBounds(xs[1..], lo, hi);
    }
  }

  lemma HalfBelowAtMost(n: int, m: int, total: int, hi: int)
    requires n > 0 && n * (2 * m - 1) <= 2 * total && total <= n * hi
    ensures m <= hi
  {
    assert n * (2 * hi) == 2 * (n * hi);
    MulCancel(n, 2 * m - 1, 2 * hi);
  }

  lemma HalfAboveAtLeast(n: int, m: int, total: int, lo: int)
    requires n > 0 && 2 * total < n * (2 * m + 1) && n * lo <= total
    ensures lo <= m
  {
    assert n * (2 * lo) == 2 * (n * lo);
    MulCancel(n, 2 * lo, 2 * m + 1);
  }

  /** The rounded mean of values in a range stays in that range. */
  lemma MeanWithinBounds(xs: seq<int>, lo: int, hi: int)
    requires xs != []
    requires forall i :: 0 <= i < |xs| ==> lo <= xs[i] <= hi
    ensures lo <= RoundedMean(xs) <= hi
  {
    SumBounds(xs, lo, hi);
    HalfBelowAtMost(|xs|, RoundedMean(xs), Sum(xs), hi);
    HalfAboveAtLeast(|xs|, RoundedMean(xs), Sum(xs), lo);
  }

  function Scores(rows: seq<Row>): (xs: seq<int>)
    ensures |xs| == |rows| && forall k :: 0 <= k < |rows| ==> xs[k] == rows[k].resumeScore
  {
    seq(|rows|, k requires 0 <= k < |rows| => rows[k].resumeScore)
  }

  /** `resumes.reduce((acc, r) => acc + r.matches.length, 0)` over the fetched
      resumes, whose match lists hold at most five each. */
  function TotalMatches(views: seq<ResumeView>): nat {
    if views == [] then 0 else |views[0].matches| + TotalMatches(views[1..])
  }

  /** Each fetched resume contributes at most five matches to the total. */
  lemma {:induction false} TotalMatchesCapped(views: seq<ResumeView>)
    requires forall k :: 0 <= k < |views| ==> |views[k].matches| <= MATCHES_SHOWN
    ensures TotalMatches(views) <= MATCHES_SHOWN * |views|
    decreases |views|
  {
    if views != [] {
      TotalMatchesCapped(views[1..]);
    }
  }

  function StatsOf(views: seq<ResumeView>, rows: seq<Row>): Stats {
    var rs := seq(|views|, k requires 0 <= k < |views| => views[k].resume);
    Stats(|views|, CountStatus(rs, Completed), CountStatus(rs, Processing), CountStatus(rs, Failed),
          TotalMatches(views), RoundedMean(Scores(rows)))
  }

  /** The resumes as the query fetches them, in the same order. */
  function Views(own: seq<Resume>, analyses: seq<AnalysisRecord>, matches: seq<JobMatch>): (views: seq<ResumeView>)
    ensures |views| == |own| && forall k :: 0 <= k < |own| ==> views[k] == View(own[k], analyses, matches)
  {
    seq(|own|, k requires 0 <= k < |own| => View(own[k], analyses, matches))
  }

  /** The whole response body for one user: a row for each of the user's
      resumes, newest first, built from its newest analysis and newest
      matches; the per-status counts of those resumes; the number of job
      matches fetched; and the rounded mean of the rows' scores. */
  function DashboardOf(resumes: seq<Resume>, analyses: seq<AnalysisRecord>, matches: seq<JobMatch>, userId: nat)
    : (r: (seq<Row>, Stats))
    ensures var own := NewestFirst(resumes, userId);
      var views := Views(own, analyses, matches);
      |r.0| == |own|
      && (forall k :: 0 <= k < |own| ==> r.0[k] == RowOf(views[k]))
      && r.1 == Stats(|own|, CountStatus(own, Completed), CountStatus(own, Processing), CountStatus(own, Failed),
                      TotalMatches(views), RoundedMean(Scores(r.0)))
    ensures var own := NewestFirst(resumes, userId);
      (forall k :: 0 <= k < |own| ==> r.0[k].id == own[k].id && r.0[k].status == ToLower(StatusName(own[k].status)))
      && r.1.completedAnalyses + r.1.processingAnalyses + r.1.failedAnalyses == |own| - CountStatus(own, Pending)
      && r.1.totalJobMatches <= MATCHES_SHOWN * |own|
      && (own == [] ==> r.1.averageScore == 0)
  {
    var own := NewestFirst(resumes, userId);
    var views := Views(own, analyses, matches);
    var rows := Rows(views);
    assert seq(|views|, k requires 0 <= k < |views| => views[k].resume) == own;
    StatusCountsPartition(own);
    TotalMatchesCapped(views);
    (rows, StatsOf(views, rows))
  }

  /** When every analysis score lies in [0, 100], so does the average. */
  lemma AverageScoreInRange(resumes: seq<Resume>, analyses: seq<AnalysisRecord>, matches: seq<JobMatch>, userId: nat)
    requires forall a :: a in analyses ==> 0 <= a.score <= 100
    ensures 0 <= DashboardOf(resumes, analyses, matches, userId).1.averageScore <= 100
  {
    var own := NewestFirst(resumes, userId);
    var views := Views(own, analyses, matches);
    var rows := Rows(views);
    if own != [] {
      MeanWithinBounds(Scores(rows), 0, 100);
    }
  }

  /** GET: the dashboard, or 500 when sign-in or the query fails. */
  method Get(db: Database, session: Session, queryFault: Option<Thrown>) returns (reply: Reply)
    requires db.Valid()
    modifies db
    ensures db.Valid()
    ensures var s := Resolve(old(db.users), old(db.clock), session);
      db.users == s.users
      && (reply.Dashboard? <==> s.user.Some? && queryFault.None?)
      && (reply.Dashboard? ==>
            (reply.resumes, reply.stats) == DashboardOf(db.resumes, db.analyses, db.matches, s.user.value.id))
    ensures reply.DashboardFailed? ==> reply.error == DASHBOARD_FAILED
    ensures db.resumes == old(db.resumes) && db.analyses == old(db.analyses) && db.matches == old(db.matches)
  {
    var user := GetCurrentUserOrThrow(db, session);
    if user.Threw? || queryFault.Some? {
      return DashboardFailed(DASHBOARD_FAILED);
    }
    var d := DashboardOf(db.resumes, db.analyses, db.matches, user.value.id);
    reply := Dashboard(d.0, d.1);
  }
}
