/** The database tables the routes use (users, resumes, analyses, job
    matches) and the Prisma calls they make on them. Every call can be made
    to throw by passing a fault, the way a database error would. Ids and
    creation times come from one counter, so a later record has a larger id
    and a later `createdAt`. */
module Store {
  import opened Wrappers
  import opened Seqs
  import opened Results

  datatype Status = Pending | Processing | Completed | Failed

  /** The enum value as the database spells it. */
  function StatusName(s: Status): string {
    match s
    case Pending => "PENDING"
    case Processing => "PROCESSING"
    case Completed => "COMPLETED"
    case Failed => "FAILED"
  }

  datatype User = User(id: nat, clerkId: string, email: string, name: Option<string>)

  datatype Resume = Resume(
    id: nat, userId: nat, fileName: string, fileKey: string, fileSize: int, fileType: string,
    status: Status, createdAt: nat)

  datatype AnalysisRecord = AnalysisRecord(
    id: nat, resumeId: nat, userId: nat, result: Analysis, score: int, status: Status, createdAt: nat)

  datatype JobMatch = JobMatch(id: nat, resumeId: nat, jobTitle: string, createdAt: nat)

  /** A write that reached the database. */
  datatype Write =
    | UserCreated(userId: nat)
    | ResumeCreated(resumeId: nat)
    | StatusSet(resumeId: nat, status: Status)
    | AnalysisCreated(analysisId: nat, resumeId: nat)

  /** What Prisma throws when an update finds no record, and when a second
      user would take a `clerkId` that is already taken. */
  const RECORD_NOT_FOUND := "Record to update not found."
  const CLERK_ID_TAKEN := "Unique constraint failed on the fields: (`clerkId`)"

  /** `findUnique({ where: { clerkId } })` on a user table. */
  function UserWithClerkId(users: seq<User>, clerkId: string): (u: Option<User>)
    ensures u.Some? ==> u.value in users && u.value.clerkId == clerkId
    ensures u.None? <==> forall i :: 0 <= i < |users| ==> users[i].clerkId != clerkId
  {
    Find(users, (x: User) => x.clerkId == clerkId)
  }

  /** The resume table after the resume with id `id` gets status `s`. */
  function WithStatus(rs: seq<Resume>, id: nat, s: Status): (r: seq<Resume>)
    ensures |r| == |rs|
    ensures forall i :: 0 <= i < |rs| ==> r[i] == if rs[i].id == id then rs[i].(status := s) else rs[i]
    ensures forall i :: 0 <= i < |rs| ==> r[i].id == rs[i].id && r[i].createdAt == rs[i].createdAt
  {
    seq(|rs|, i requires 0 <= i < |rs| => if rs[i].id == id then rs[i].(status := s) else rs[i])
  }

  /** A second status write to the same resume overrides the first. */
  lemma WithStatusTwice(rs: seq<Resume>, id: nat, s: Status, t: Status)
    ensures WithStatus(WithStatus(rs, id, s), id, t) == WithStatus(rs, id, t)
  {
  }

  function CreatedAt(r: Resume): int {
    r.createdAt
  }

  function AnalysisCreatedAt(a: AnalysisRecord): int {
    a.createdAt
  }

  function MatchCreatedAt(m: JobMatch): int {
    m.createdAt
  }

  /** `findMany({ where: { userId }, orderBy: { createdAt: 'desc' } })`: the
      user's resumes and no others, and, on a table in creation order,
      newest first. */
  function NewestFirst(resumes: seq<Resume>, userId: nat): (rs: seq<Resume>)
    ensures forall r :: r in rs <==> r in resumes && r.userId == userId
    ensures IncreasingBy(resumes, CreatedAt) ==>
      forall i, j :: 0 <= i < j < |rs| ==> rs[i].createdAt > rs[j].createdAt
  {
    var own := Filter(resumes, (r: Resume) => r.userId == userId);
    FilterKeepsIncreasing(resumes, (r: Resume) => r.userId == userId, CreatedAt);
    Reverse(own)
  }

  class Database {
    var users: seq<User>
    var resumes: seq<Resume>
    var analyses: seq<AnalysisRecord>
    var matches: seq<JobMatch>
    /** The next id and creation time to hand out. */
    var clock: nat
    /** Every write that reached the database, oldest first. */
    ghost var writes: seq<Write>

    /** Ids and creation times grow along each table and stay below the
        clock, and no two users share a `clerkId`. */
    predicate Valid()
      reads this
    {
      (forall i, j :: 0 <= i < j < |users| ==> users[i].id < users[j].id && users[i].clerkId != users[j].clerkId)
      && (forall i :: 0 <= i < |users| ==> users[i].id < clock)
      && (forall i, j :: 0 <= i < j < |resumes| ==> resumes[i].id < resumes[j].id)
      && IncreasingBy(resumes, CreatedAt)
      && (forall i :: 0 <= i < |resumes| ==> resumes[i].id < clock && resumes[i].createdAt < clock)
      && (forall i, j :: 0 <= i < j < |analyses| ==> analyses[i].id < analyses[j].id)
      && IncreasingBy(analyses, AnalysisCreatedAt)
      && (forall i :: 0 <= i < |analyses| ==> analyses[i].id < clock && analyses[i].createdAt < clock)
      && IncreasingBy(matches, MatchCreatedAt)
    }

    constructor()
      ensures Valid()
      ensures users == [] && resumes == [] && analyses == [] && matches == [] && writes == []
    {
      users := [];
      resumes := [];
      analyses := [];
      matches := [];
      clock := 0;
      writes := [];
    }

    /** Whether some resume has this id. */
    predicate HasResume(id: nat)
      reads this`resumes
    {
      exists i :: 0 <= i < |resumes| && resumes[i].id == id
    }

    /** `prisma.resume.findFirst({ where: { id, userId } })`. */
    function OwnedResume(id: nat, userId: nat): (r: Option<Resume>)
      reads this`resumes
      ensures r.Some? ==> r.value in resumes && r.value.id == id && r.value.userId == userId
      ensures r.None? <==> forall i :: 0 <= i < |resumes| ==> !(resumes[i].id == id && resumes[i].userId == userId)
    {
      Find(resumes, (x: Resume) => x.id == id && x.userId == userId)
    }

    /** `prisma.user.create`: refused when the `clerkId` is taken. */
    method CreateUser(clerkId: string, email: string, name: Option<string>, fault: Option<Thrown>) returns (r: Call<User>)
      requires Valid()
      modifies this
      ensures Valid()
      ensures resumes == old(resumes) && analyses == old(analyses) && matches == old(matches)
      ensures fault.Some? ==> r == Threw(fault.value)
      ensures r.Returned? <==> fault.None? && UserWithClerkId(old(users), clerkId).None?
      ensures r.Returned? ==>
        r.value == User(old(clock), clerkId, email, name)
        && users == old(users) + [r.value] && clock == old(clock) + 1
        && writes == old(writes) + [UserCreated(r.value.id)]
      ensures r.Threw? ==> users == old(users) && clock == old(clock) && writes == old(writes)
    {
      if fault.Some? {
        return Threw(fault.value);
      }
      if UserWithClerkId(users, clerkId).Some? {
        return Threw(Err(CLERK_ID_TAKEN));
      }
      var u := User(clock, clerkId, email, name);
      users := users + [u];
      clock := clock + 1;
      writes := writes + [UserCreated(u.id)];
      r := Returned(u);
    }

    /** `prisma.resume.create`. */
    method CreateResume(userId: nat, fileName: string, fileKey: string, fileSize: int, fileType: string,
                        status: Status, fault: Option<Thrown>) returns (r: Call<Resume>)
      requires Valid()
      modifies this
      ensures Valid()
      ensures users == old(users) && analyses == old(analyses) && matches == old(matches)
      ensures fault.Some? ==> r == Threw(fault.value)
      ensures r.Returned? <==> fault.None?
      ensures r.Returned? ==>
        r.value == Resume(old(clock), userId, fileName, fileKey, fileSize, fileType, status, old(clock))
        && resumes == old(resumes) + [r.value] && clock == old(clock) + 1
        && writes == old(writes) + [ResumeCreated(r.value.id)]
      ensures r.Threw? ==> resumes == old(resumes) && clock == old(clock) && writes == old(writes)
    {
      if fault.Some? {
        return Threw(fault.value);
      }
      var res := Resume(clock, userId, fileName, fileKey, fileSize, fileType, status, clock);
      resumes := resumes + [res];
      clock := clock + 1;
      writes := writes + [ResumeCreated(res.id)];
      r := Returned(res);
    }

    /** `prisma.resume.update({ where: { id }, data: { status } })`: throws
        when no resume has that id. */
    method SetStatus(id: nat, s: Status, fault: Option<Thrown>) returns (r: Call<()>)
      requires Valid()
      modifies this
      ensures Valid()
      ensures users == old(users) && analyses == old(analyses) && matches == old(matches) && clock == old(clock)
      ensures fault.Some? ==> r == Threw(fault.value)
      ensures r.Returned? <==> fault.None? && old(HasResume(id))
      ensures HasResume(id) <==> old(HasResume(id))
      ensures fault.None? && !old(HasResume(id)) ==> r == Threw(Err(RECORD_NOT_FOUND))
      ensures r.Returned? ==> resumes == WithStatus(old(resumes), id, s) && writes == old(writes) + [StatusSet(id, s)]
      ensures r.Threw? ==> resumes == old(resumes) && writes == old(writes)
    {
      if fault.Some? {
        return Threw(fault.value);
      }
      if !HasResume(id) {
        return Threw(Err(RECORD_NOT_FOUND));
      }
      ghost var i :| 0 <= i < |resumes| && resumes[i].id == id;
      ghost var before := resumes;
      resumes := WithStatus(resumes, id, s);
      assert resumes[i].id == id;
      assert forall k :: 0 <= k < |resumes| ==> CreatedAt(resumes[k]) == CreatedAt(before[k]);
      writes := writes + [StatusSet(id, s)];
      r := Returned(());
    }

    /** `prisma.analysis.create`. */
    method CreateAnalysis(resumeId: nat, userId: nat, result: Analysis, score: int, status: Status,
                          fault: Option<Thrown>) returns (r: Call<AnalysisRecord>)
      requires Valid()
      modifies this
      ensures Valid()
      ensures users == old(users) && resumes == old(resumes) && matches == old(matches)
      ensures fault.Some? ==> r == Threw(fault.value)
      ensures r.Returned? <==> fault.None?
      ensures r.Returned? ==>
        r.value == AnalysisRecord(old(clock), resumeId, userId, result, score, status, old(clock))
        && analyses == old(analyses) + [r.value] && clock == old(clock) + 1
        && writes == old(writes) + [AnalysisCreated(r.value.id, resumeId)]
      ensures r.Threw? ==> analyses == old(analyses) && clock == old(clock) && writes == old(writes)
    {
      if fault.Some? {
        return Threw(fault.value);
      }
      var a := AnalysisRecord(clock, resumeId, userId, result, score, status, clock);
      analyses := analyses + [a];
      clock := clock + 1;
      writes := writes + [AnalysisCreated(a.id, resumeId)];
      r := Returned(a);
    }
  }
}
