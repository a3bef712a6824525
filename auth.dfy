/** `getCurrentUser`: the Clerk session user, looked up in the user table by
    `clerkId` and created there on first sight; and `getCurrentUserOrThrow`. */
module Auth {
  import opened Wrappers
  import opened Seqs
  import opened Text
  import opened Store

  datatype EmailAddress = EmailAddress(id: string, emailAddress: string)

  /** The fields of Clerk's user object that sign-in reads. */
  datatype ClerkUser = ClerkUser(
    id: string,
    emailAddresses: seq<EmailAddress>,
    primaryEmailAddressId: Option<string>,
    firstName: Option<string>,
    lastName: Option<string>)

  /** What the outside world does during one sign-in: `currentUser()`'s outcome
      and whether the user-table lookup or the insert throws. */
  datatype Session = Session(clerkUser: Call<Option<ClerkUser>>, lookupFault: Option<Thrown>, createFault: Option<Thrown>)

  const USER_NOT_FOUND := "User not found"

  /** The `name` stored for a new user: first and last name joined by one
      space when both are non-empty, otherwise whichever is non-empty, else
      null. */
  function DisplayName(first: Option<string>, last: Option<string>): (name: Option<string>)
    ensures name.Some? <==> Truthy(first) || Truthy(last)
    ensures name.Some? ==> name.value != ""
    ensures Truthy(first) ==> StartsWith(name.value, first.value)
    ensures Truthy(last) ==> EndsWith(name.value, last.value)
    ensures Truthy(first) && Truthy(last) ==> |name.value| == |first.value| + 1 + |last.value|
    ensures Truthy(first) && Truthy(last) ==> name == Some(first.value + " " + last.value)
    ensures Truthy(first) != Truthy(last) ==> name == (if Truthy(first) then first else last)
  {
    if Truthy(first) && Truthy(last) then Some(first.value + " " + last.value)
    else if Truthy(first) then first
    else if Truthy(last) then last
    else None
  }

  /** `emailAddresses.find(email => email.id === primaryEmailAddressId)`. */
  function PrimaryEmail(u: ClerkUser): (e: Option<EmailAddress>)
    ensures e.Some? ==> e.value in u.emailAddresses && u.primaryEmailAddressId == Some(e.value.id)
    ensures e.None? <==> forall i :: 0 <= i < |u.emailAddresses| ==> u.primaryEmailAddressId != Some(u.emailAddresses[i].id)
  {
    Find(u.emailAddresses, (x: EmailAddress) => u.primaryEmailAddressId == Some(x.id))
  }

  /** The user `getCurrentUser` resolves to and the user table after it. */
  datatype SignIn = SignIn(user: Option<User>, users: seq<User>)

  /** `getCurrentUser` on a user table whose next free id is `nextId`. A user
      comes back only when Clerk has one and the lookup does not throw, and
      it carries the session's `clerkId`. The table either stays as it was or
      gains that user alone, built from the primary email and the display
      name, exactly when no user had that `clerkId`, Clerk gives a primary
      email and the insert does not throw. */
  function Resolve(users: seq<User>, nextId: nat, session: Session): (s: SignIn)
    ensures s.user.Some? ==>
      session.clerkUser.Returned? && session.clerkUser.value.Some? && session.lookupFault.None?
      && s.user.value.clerkId == session.clerkUser.value.value.id && s.user.value in s.users
    ensures s.users == users || (s.user.Some? && s.users == users + [s.user.value])
    ensures s.users != users ==>
      var clerk := session.clerkUser.value.value;
      UserWithClerkId(users, clerk.id).None? && PrimaryEmail(clerk).Some? && session.createFault.None?
      && s.user.value == User(nextId, clerk.id, PrimaryEmail(clerk).value.emailAddress,
                              DisplayName(clerk.firstName, clerk.lastName))
    ensures !(session.clerkUser.Returned? && session.clerkUser.value.Some? && session.lookupFault.None?) ==>
      s == SignIn(None, users)
    ensures session.clerkUser.Returned? && session.clerkUser.value.Some? && session.lookupFault.None? ==>
      var clerk := session.clerkUser.value.value;
      var found := UserWithClerkId(users, clerk.id);
      (found.Some? ==> s == SignIn(found, users))
      && (found.None? && PrimaryEmail(clerk).Some? && session.createFault.None? ==>
            s.user.Some? && s.users == users + [s.user.value])
      && (found.None? && (PrimaryEmail(clerk).None? || session.createFault.Some?) ==> s == SignIn(None, users))
  {
    match session.clerkUser
    case Threw(_) => SignIn(None, users)
    case Returned(None) => SignIn(None, users)
    case Returned(Some(clerk)) =>
      if session.lookupFault.Some? then SignIn(None, users)
      else match UserWithClerkId(users, clerk.id)
        case Some(u) => SignIn(Some(u), users)
        case None =>
          match PrimaryEmail(clerk)
          case None => SignIn(None, users)
          case Some(email) =>
            if session.createFault.Some? then SignIn(None, users)
            else
              var u := User(nextId, clerk.id, email.emailAddress, DisplayName(clerk.firstName, clerk.lastName));
              SignIn(Some(u), users + [u])
  }

  /** A user already in the table is returned as stored and nothing is created. */
  lemma KnownUserReturned(users: seq<User>, nextId: nat, session: Session, i: nat)
    requires session.clerkUser.Returned? && session.clerkUser.value.Some? && session.lookupFault.None?
    requires i < |users| && users[i].clerkId == session.clerkUser.value.value.id
    requires forall j :: 0 <= j < i ==> users[j].clerkId != users[i].clerkId
    ensures Resolve(users, nextId, session) == SignIn(Some(users[i]), users)
  {
    var clerk := session.clerkUser.value.value;
    FindIsFirst(users, (x: User) => x.clerkId == clerk.id, i);
  }

  /** Signing in twice with the same Clerk user creates at most one user:
      the second sign-in finds whatever the first created. */
  lemma {:induction false} SecondSignInCreatesNothing(users: seq<User>, nextId: nat, nextId2: nat, first: Session, second: Session)
    requires first.clerkUser.Returned? && first.clerkUser.value.Some?
    requires second.clerkUser == first.clerkUser && second.lookupFault.None?
    requires Resolve(users, nextId, first).user.Some?
    ensures var s1 := Resolve(users, nextId, first);
      Resolve(s1.users, nextId2, second) == s1
  {
    var s1 := Resolve(users, nextId, first);
    var clerk := first.clerkUser.value.value;
    if s1.users == users {
      var u := UserWithClerkId(users, clerk.id);
      assert u.Some?;
    } else {
      var u := s1.user.value;
      assert UserWithClerkId(users, clerk.id).None?;
      assert s1.users == users + [u];
      KnownUserReturned(s1.users, nextId2, second, |users|);
    }
  }

  /** The write sign-in makes: the new user's row, when one is created. */
  function SignInWrites(before: seq<User>, s: SignIn): seq<Write> {
    if s.users != before && s.user.Some? then [UserCreated(s.user.value.id)] else []
  }

  /** `getCurrentUser`, run against the database. */
  method GetCurrentUser(db: Database, session: Session) returns (user: Option<User>)
    requires db.Valid()
    modifies db
    ensures db.Valid()
    ensures var s := Resolve(old(db.users), old(db.clock), session);
      user == s.user && db.users == s.users
    ensures db.resumes == old(db.resumes) && db.analyses == old(db.analyses) && db.matches == old(db.matches)
    ensures db.users == old(db.users) ==> db.clock == old(db.clock) && db.writes == old(db.writes)
    ensures db.users != old(db.users) ==> db.clock == old(db.clock) + 1 && db.writes == old(db.writes) + [UserCreated(user.value.id)]
  {
    user := None;
    if session.clerkUser.Threw? || session.clerkUser.value.None? {
      return;
    }
    var clerk := session.clerkUser.value.value;
    if session.lookupFault.Some? {
      return;
    }
    var found := UserWithClerkId(db.users, clerk.id);
    if found.Some? {
      return found;
    }
    var primary := PrimaryEmail(clerk);
    if primary.None? {
      return;
    }
    var created := db.CreateUser(clerk.id, primary.value.emailAddress, DisplayName(clerk.firstName, clerk.lastName), session.createFault);
    if created.Returned? {
      user := Some(created.value);
    }
  }

  /** `getCurrentUserOrThrow`: the resolved user, or `Error('User not found')`. */
  method GetCurrentUserOrThrow(db: Database, session: Session) returns (r: Call<User>)
    requires db.Valid()
    modifies db
    ensures db.Valid()
    ensures var s := Resolve(old(db.users), old(db.clock), session);
      db.users == s.users
      && (r.Returned? <==> s.user.Some?)
      && (r.Returned? ==> r.value == s.user.value)
      && (r.Threw? ==> r.thrown == Err(USER_NOT_FOUND))
    ensures db.resumes == old(db.resumes) && db.analyses == old(db.analyses) && db.matches == old(db.matches)
    ensures var s := Resolve(old(db.users), old(db.clock), session);
      db.writes == old(db.writes) + SignInWrites(old(db.users), s)
      && db.clock == old(db.clock) + |s.users| - |old(db.users)|
  {
    var user := GetCurrentUser(db, session);
    if user.None? {
      return Threw(Err(USER_NOT_FOUND));
    }
    r := Returned(user.value);
  }
}
