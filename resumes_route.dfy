/** `/api/resumes`: GET lists the signed-in user's resumes, newest first,
    with their analyses and job matches; POST records a new upload as a
    PENDING resume owned by that user. */
module ResumesRoute {
  import opened Wrappers
  import opened Seqs
  import opened Store
  import opened Auth

  const LIST_FAILED := "Failed to fetch resumes"
  const CREATE_FAILED := "Failed to create resume"
  const MISSING_FIELDS := "Missing required fields"

  /** A resume with `include: { analyses: true, matches: true }`. */
  datatype ResumeWithRelations = ResumeWithRelations(resume: Resume, analyses: seq<AnalysisRecord>, matches: seq<JobMatch>)

  datatype ListReply = Listed(resumes: seq<ResumeWithRelations>) | ListFailed(error: string) {
    function Status(): int {
      if Listed? then 200 else 500
    }
  }

  /** The JSON body of POST; a field the client left out is `None`. */
  datatype NewResumeBody = NewResumeBody(fileName: Option<string>, fileKey: Option<string>, fileSize: Option<int>, fileType: Option<string>)

  datatype CreateReply = Created(resume: Resume) | BadRequest(error: string) | CreateFailed(error: string) {
    function Status(): int {
      match this
      case Created(_) => 201
      case BadRequest(_) => 400
      case CreateFailed(_) => 500
    }
  }

  /** A new upload heads its owner's listing. */
  lemma NewUploadListedFirst(resumes: seq<Resume>, r: Resume)
    ensures |NewestFirst(resumes + [r], r.userId)| > 0
    ensures NewestFirst(resumes + [r], r.userId)[0] == r
  {
    FilterAppend(resumes, r, (x: Resume) => x.userId == r.userId);
  }

  /** One resume with the analyses and matches that point at it. */
  function WithRelations(r: Resume, analyses: seq<AnalysisRecord>, matches: seq<JobMatch>): (w: ResumeWithRelations)
    ensures w.resume == r
    ensures forall a :: a in w.analyses <==> a in analyses && a.resumeId == r.id
    ensures forall m :: m in w.matches <==> m in matches && m.resumeId == r.id
  {
    ResumeWithRelations(r, Filter(analyses, (a: AnalysisRecord) => a.resumeId == r.id),
                           Filter(matches, (m: JobMatch) => m.resumeId == r.id))
  }

  /** The GET listing: one entry per resume of the user, newest first, each
      with the analyses and matches that point at it. */
  function Listing(resumes: seq<Resume>, analyses: seq<AnalysisRecord>, matches: seq<JobMatch>, userId: nat)
    : (rows: seq<ResumeWithRelations>)
    ensures |rows| == |NewestFirst(resumes, userId)|
    ensures forall k :: 0 <= k < |rows| ==> rows[k].resume in resumes && rows[k].resume.userId == userId
    ensures forall r :: r in resumes && r.userId == userId ==> exists k :: 0 <= k < |rows| && rows[k].resume == r
    ensures forall k :: 0 <= k < |rows| ==> rows[k] == WithRelations(NewestFirst(resumes, userId)[k], analyses, matches)
    ensures IncreasingBy(resumes, CreatedAt) ==>
      forall i, j :: 0 <= i < j < |rows| ==> rows[i].resume.createdAt > rows[j].resume.createdAt
  {
    var rs := NewestFirst(resumes, userId);
    var rows := seq(|rs|, k requires 0 <= k < |rs| => WithRelations(rs[k], analyses, matches));
    forall r | r in rs
      ensures exists k :: 0 <= k < |rows| && rows[k].resume == r
    {
      var k :| 0 <= k < |rs| && rs[k] == r;
      assert rows[k].resume == r;
    }
    rows
  }

  /** GET: the listing, or 500 when sign-in or the query fails. */
  method Get(db: Database, session: Session, queryFault: Option<Thrown>) returns (reply: ListReply)
    requires db.Valid()
    modifies db
    ensures db.Valid()
    ensures var s := Resolve(old(db.users), old(db.clock), session);
      db.users == s.users
      && (reply.Listed? <==> s.user.Some? && queryFault.None?)
      && (reply.Listed? ==> reply.resumes == Listing(db.resumes, db.analyses, db.matches, s.user.value.id))
    ensures reply.ListFailed? ==> reply.error == LIST_FAILED
    ensures db.resumes == old(db.resumes) && db.analyses == old(db.analyses) && db.matches == old(db.matches)
  {
    var user := GetCurrentUserOrThrow(db, session);
    if user.Threw? || queryFault.Some? {
      return ListFailed(LIST_FAILED);
    }
    reply := Listed(Listing(db.resumes, db.analyses, db.matches, user.value.id));
  }

  /** `!fileName || !fileKey || !fileSize || !fileType` is false: every field
      present, no string empty and the size not 0. */
  predicate HasRequiredFields(body: NewResumeBody) {
    Truthy(body.fileName) && Truthy(body.fileKey) && body.fileSize.Some? && body.fileSize.value != 0
    && Truthy(body.fileType)
  }

  /** POST: a body that cannot be read, a failed sign-in or a failed insert
      gives 500; a missing field gives 400; otherwise the new PENDING resume
      of the user, with a fresh id, is stored and returned with 201. */
  method Post(db: Database, session: Session, body: Call<NewResumeBody>, createFault: Option<Thrown>) returns (reply: CreateReply)
    requires db.Valid()
    modifies db
    ensures db.Valid()
    ensures var s := Resolve(old(db.users), old(db.clock), session);
      db.users == s.users
      && (reply.BadRequest? <==> s.user.Some? && body.Returned? && !HasRequiredFields(body.value))
      && (reply.Created? <==> s.user.Some? && body.Returned? && HasRequiredFields(body.value) && createFault.None?)
      && (reply.Created? ==>
            var b := body.value;
            reply.resume.userId == s.user.value.id
            && reply.resume.fileName == b.fileName.value && reply.resume.fileKey == b.fileKey.value
            && reply.resume.fileSize == b.fileSize.value && reply.resume.fileType == b.fileType.value
            && reply.resume.status == Pending)
    ensures reply.BadRequest? ==> reply.error == MISSING_FIELDS
    ensures reply.CreateFailed? ==> reply.error == CREATE_FAILED
    ensures reply.Created? ==>
      db.resumes == old(db.resumes) + [reply.resume]
      && forall r :: r in old(db.resumes) ==> r.id < reply.resume.id && r.createdAt < reply.resume.createdAt
    ensures !reply.Created? ==> db.resumes == old(db.resumes)
    ensures db.analyses == old(db.analyses) && db.matches == old(db.matches)
  {
    var user := GetCurrentUserOrThrow(db, session);
    if user.Threw? || body.Threw? {
      return CreateFailed(CREATE_FAILED);
    }
    var b := body.value;
    if !HasRequiredFields(b) {
      return BadRequest(MISSING_FIELDS);
    }
    var created := db.CreateResume(user.value.id, b.fileName.value, b.fileKey.value, b.fileSize.value,
                                   b.fileType.value, Pending, createFault);
    if created.Threw? {
      return CreateFailed(CREATE_FAILED);
    }
    reply := Created(created.value);
  }
}
