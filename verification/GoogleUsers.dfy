/** `upsert_google_user`: a Google sign-in finds its account by Google id, then by email, and
    otherwise creates one, with a profile for its role. */
module GoogleUsers {
  import opened Wrappers

  datatype Role = Teacher | Student

  datatype User = User(email: string, fullName: string, role: Role, googleId: Option<string>, isEmailVerified: bool, lastLoginAt: int)

  datatype Profile = Profile(userId: nat, kind: Role)

  datatype UserInfo = UserInfo(googleId: string, email: string, fullName: string)

  /** A user's id is their place in the table. */
  datatype Db = Db(users: seq<User>, profiles: seq<Profile>)

  // --- Lookups ---------------------------------------------------------------------------

  function LowerChar(c: char): char {
    if 'A' <= c <= 'Z' then c - 'A' + 'a' else c
  }

  /** str.lower, on ASCII. */
  function Lower(s: string): string {
    seq(|s|, i requires 0 <= i < |s| => LowerChar(s[i]))
  }

  function FindBy(users: seq<User>, p: User -> bool, from: nat): (id: Option<nat>)
    requires from <= |users|
    ensures id.Some? ==> from <= id.value < |users| && p(users[id.value])
    ensures id.None? ==> forall i :: from <= i < |users| ==> !p(users[i])
    decreases |users| - from
  {
    if from == |users| then None
    else if p(users[from]) then Some(from)
    else FindBy(users, p, from + 1)
  }

  /** By Google id first, by email if that finds nobody. */
  function Account(users: seq<User>, info: UserInfo): Option<nat> {
    var byGoogle := FindBy(users, (u: User) => u.googleId == Some(info.googleId), 0);
    if byGoogle.Some? then byGoogle else FindBy(users, (u: User) => u.email == Lower(info.email), 0)
  }

  function RoleFor(info: UserInfo, teacherEmail: string): Role {
    if Lower(info.email) == Lower(teacherEmail) then Teacher else Student
  }

  function Linked(u: User, info: UserInfo, now: int): User {
    u.(googleId := Some(info.googleId), isEmailVerified := true, lastLoginAt := now,
       fullName := if u.fullName == "" then info.fullName else u.fullName)
  }

  function Upserted(db: Db, info: UserInfo, teacherEmail: string, now: int): Db {
    match Account(db.users, info)
    case Some(id) => db.(users := db.users[id := Linked(db.users[id], info, now)])
    case None =>
      var role := RoleFor(info, teacherEmail);
      Db(db.users + [User(Lower(info.email), info.fullName, role, Some(info.googleId), true, now)],
         db.profiles + [Profile(|db.users|, role)])
  }

  class GoogleAccounts {
    const teacherEmail: string
    var users: seq<User>
    var profiles: seq<Profile>

    ghost function Now(): Db
      reads this
    {
      Db(users, profiles)
    }

    constructor (teacherEmail: string, users: seq<User>, profiles: seq<Profile>)
      ensures Now() == Db(users, profiles) && this.teacherEmail == teacherEmail
    {
      this.teacherEmail, this.users, this.profiles := teacherEmail, users, profiles;
    }

    method UpsertGoogleUser(info: UserInfo, now: int) returns (id: nat)
      modifies this
      ensures Now() == Upserted(old(Now()), info, teacherEmail, now)
      ensures id < |users| && users[id].googleId == Some(info.googleId)
    {
      var found := FindBy(users, (u: User) => u.googleId == Some(info.googleId), 0);
      if found.None? {
        found := FindBy(users, (u: User) => u.email == Lower(info.email), 0);
      }
      if found.Some? {
        id := found.value;
        var u := users[id].(googleId := Some(info.googleId), isEmailVerified := true, lastLoginAt := now);
        if u.fullName == "" {
          u := u.(fullName := info.fullName);
        }
        users := users[id := u];
        return;
      }
      id := |users|;
      var role := RoleFor(info, teacherEmail);
      users := users + [User(Lower(info.email), info.fullName, role, Some(info.googleId), true, now)];
      profiles := profiles + [Profile(id, role)];
    }
  }

  // --- Identity ----------------------------------------------------------------------------

  ghost predicate Unique(users: seq<User>) {
    && (forall i, j :: 0 <= i < j < |users| ==> users[i].email != users[j].email)
    && (forall i, j :: 0 <= i < j < |users| && users[i].googleId.Some? ==> users[i].googleId != users[j].googleId)
  }

  ghost predicate Ok(db: Db) {
    && Unique(db.users)
    && (forall i :: 0 <= i < |db.users| ==> Lower(db.users[i].email) == db.users[i].email)
    && (forall p :: p in db.profiles ==> p.userId < |db.users|)
  }

  function ProfilesOf(profiles: seq<Profile>, id: nat): seq<Profile> {
    if profiles == [] then []
    else ProfilesOf(profiles[..|profiles| - 1], id) +
         (if profiles[|profiles| - 1].userId == id then [profiles[|profiles| - 1]] else [])
  }

  lemma LowerIdempotent(s: string)
    ensures Lower(Lower(s)) == Lower(s)
  {
  }

  lemma {:induction false} NoProfiles(profiles: seq<Profile>, id: nat)
    requires forall p :: p in profiles ==> p.userId < id
    ensures ProfilesOf(profiles, id) == []
  {
    if profiles != [] {
      assert profiles[|profiles| - 1] in profiles;
      assert forall p :: p in profiles[..|profiles| - 1] ==> p in profiles;
      NoProfiles(profiles[..|profiles| - 1], id);
    }
  }

  lemma ProfileAppended(profiles: seq<Profile>, p: Profile, id: nat)
    ensures ProfilesOf(profiles + [p], id) == ProfilesOf(profiles, id) + (if p.userId == id then [p] else [])
  {
    assert (profiles + [p])[..|profiles|] == profiles;
  }

  /** The same letter, in either case. */
  predicate SameLetter(c: char, d: char) {
    c == d || ('A' <= c <= 'Z' && d as int == c as int + 32) || ('A' <= d <= 'Z' && c as int == d as int + 32)
  }

  predicate SameUpToCase(a: string, b: string) {
    |a| == |b| && forall i :: 0 <= i < |a| ==> SameLetter(a[i], b[i])
  }

  lemma LowerIff(a: string, b: string)
    ensures Lower(a) == Lower(b) <==> SameUpToCase(a, b)
  {
    if Lower(a) == Lower(b) {
      assert |a| == |Lower(a)| && |b| == |Lower(b)|;
      forall i | 0 <= i < |a| ensures SameLetter(a[i], b[i]) {
        assert Lower(a)[i] == Lower(b)[i];
      }
    }
  }

  /** What a run does not change about the accounts it finds. */
  predicate SameAccount(a: User, b: User) { a.email == b.email && a.role == b.role }

  lemma OneMoreUser(users: seq<User>, u: User)
    requires Unique(users) && u.googleId.Some?
    requires forall i :: 0 <= i < |users| ==> users[i].email != u.email && users[i].googleId != u.googleId
    ensures Unique(users + [u])
  {
  }

  lemma OneMoreProfile(profiles: seq<Profile>, p: Profile)
    requires forall q :: q in profiles ==> q.userId < p.userId
    ensures forall i: nat :: ProfilesOf(profiles + [p], i) == if i == p.userId then [p] else ProfilesOf(profiles, i)
  {
    NoProfiles(profiles, p.userId);
    forall i: nat ensures ProfilesOf(profiles + [p], i) == if i == p.userId then [p] else ProfilesOf(profiles, i) {
      ProfileAppended(profiles, p, i);
      assert ProfilesOf(profiles, i) + [] == ProfilesOf(profiles, i);
    }
  }

  lemma UpsertKeeps(db: Db, info: UserInfo, teacherEmail: string, now: int)
    requires Ok(db)
    ensures var db' := Upserted(db, info, teacherEmail, now);
            && Ok(db') && |db.users| <= |db'.users|
            && (forall i :: 0 <= i < |db.users| ==>
                  SameAccount(db.users[i], db'.users[i]) && ProfilesOf(db'.profiles, i) == ProfilesOf(db.profiles, i))
            && (forall i :: |db.users| <= i < |db'.users| ==>
                  && ProfilesOf(db'.profiles, i) == [Profile(i, db'.users[i].role)]
                  && (db'.users[i].role == Teacher <==> SameUpToCase(db'.users[i].email, teacherEmail)))
  {
    var db' := Upserted(db, info, teacherEmail, now);
    if Account(db.users, info).None? {
      var n := |db.users|;
      LowerIdempotent(info.email);
      LowerIff(db'.users[n].email, teacherEmail);
      OneMoreUser(db.users, db'.users[n]);
      OneMoreProfile(db.profiles, db'.profiles[|db.profiles|]);
    }
  }

  ghost predicate HasGoogleId(db: Db, info: UserInfo) {
    exists i :: 0 <= i < |db.users| && db.users[i].googleId == Some(info.googleId)
  }

  ghost predicate HasEmail(db: Db, info: UserInfo) {
    exists i :: 0 <= i < |db.users| && SameUpToCase(db.users[i].email, info.email)
  }

  /** Which account a sign-in is for, and what it makes of it: the account with this Google id, or
      else the one with this email up to case, or else a new one, and of no other. It is linked,
      verified and stamped, and keeps its email, role and name, unless it had no name. */
  lemma SignInIs(db: Db, info: UserInfo, teacherEmail: string, now: int) returns (id: nat)
    requires Ok(db)
    ensures var db' := Upserted(db, info, teacherEmail, now);
            && id < |db'.users|
            && (id < |db.users| <==> HasGoogleId(db, info) || HasEmail(db, info))
            && (HasGoogleId(db, info) ==> db.users[id].googleId == Some(info.googleId))
            && (!HasGoogleId(db, info) && HasEmail(db, info) ==> SameUpToCase(db.users[id].email, info.email))
            && db'.users[id].googleId == Some(info.googleId) && db'.users[id].isEmailVerified && db'.users[id].lastLoginAt == now
            && (if id < |db.users| then
                  && |db'.users| == |db.users| && db'.profiles == db.profiles && SameAccount(db.users[id], db'.users[id])
                  && db'.users[id].fullName == (if db.users[id].fullName != "" then db.users[id].fullName else info.fullName)
                else
                  && |db'.users| == |db.users| + 1 && id == |db.users| && db'.profiles == db.profiles + [Profile(id, db'.users[id].role)]
                  && SameUpToCase(db'.users[id].email, info.email) && db'.users[id].fullName == info.fullName
                  && (forall c :: c in db'.users[id].email ==> !('A' <= c <= 'Z'))
                  && (db'.users[id].role == Teacher <==> SameUpToCase(info.email, teacherEmail)))
            && (forall i :: 0 <= i < |db.users| && i != id ==> db'.users[i] == db.users[i])
  {
    var found := Account(db.users, info);
    id := if found.Some? then found.value else |db.users|;
    LowerIdempotent(info.email);
    LowerIff(info.email, teacherEmail);
    LowerIff(Lower(info.email), info.email);
    forall i | 0 <= i < |db.users| ensures db.users[i].email == Lower(info.email) <==> SameUpToCase(db.users[i].email, info.email) {
      LowerIff(db.users[i].email, info.email);
    }
  }

  datatype SignIn = SignIn(info: UserInfo, at: int)

  function Exec(db: Db, run: seq<SignIn>, teacherEmail: string): Db
    decreases |run|
  {
    if run == [] then db else Exec(Upserted(db, run[0].info, teacherEmail, run[0].at), run[1..], teacherEmail)
  }

  /** Over any run of sign-ins emails and Google ids stay unique, nobody's role or email changes,
      and every account created has exactly one profile, the one its role calls for. */
  lemma {:induction false} IdentityKept(db: Db, run: seq<SignIn>, teacherEmail: string)
    requires Ok(db)
    ensures var db' := Exec(db, run, teacherEmail);
            && Ok(db') && |db.users| <= |db'.users|
            && (forall i :: 0 <= i < |db.users| ==>
                  SameAccount(db.users[i], db'.users[i]) && ProfilesOf(db'.profiles, i) == ProfilesOf(db.profiles, i))
            && (forall i :: |db.users| <= i < |db'.users| ==>
                  && ProfilesOf(db'.profiles, i) == [Profile(i, db'.users[i].role)]
                  && (db'.users[i].role == Teacher <==> SameUpToCase(db'.users[i].email, teacherEmail)))
    decreases |run|
  {
    if run != [] {
      UpsertKeeps(db, run[0].info, teacherEmail, run[0].at);
      IdentityKept(Upserted(db, run[0].info, teacherEmail, run[0].at), run[1..], teacherEmail);
    }
  }

  /** Over any run, an account created is a teacher's exactly when its email is the teacher's up to
      case. So a run creates at most one teacher, and none if that address had an account. */
  lemma OneTeacherAtMost(db: Db, run: seq<SignIn>, teacherEmail: string)
    requires Ok(db)
    ensures var db' := Exec(db, run, teacherEmail);
            && (forall i :: |db.users| <= i < |db'.users| ==>
                  (db'.users[i].role == Teacher <==> SameUpToCase(db'.users[i].email, teacherEmail)))
            && (forall i, j :: |db.users| <= i < |db'.users| && 0 <= j < |db'.users| && i != j && db'.users[i].role == Teacher ==>
                  !SameUpToCase(db'.users[j].email, teacherEmail))
  {
    var db' := Exec(db, run, teacherEmail);
    IdentityKept(db, run, teacherEmail);
    forall i, j | |db.users| <= i < |db'.users| && 0 <= j < |db'.users| && i != j && db'.users[i].role == Teacher
      ensures !SameUpToCase(db'.users[j].email, teacherEmail)
    {
      LowerIff(db'.users[i].email, teacherEmail);
      LowerIff(db'.users[j].email, teacherEmail);
    }
  }

  /** Signing in again finds the account the first sign-in found or made: no new account, no new
      profile, nothing else changed but the time. */
  lemma SecondSignInFindsFirst(db: Db, info: UserInfo, teacherEmail: string, now: int, later: int)
    requires Ok(db)
    ensures var once := Upserted(db, info, teacherEmail, now);
            var twice := Upserted(once, info, teacherEmail, later);
            && |twice.users| == |once.users| && twice.profiles == once.profiles
            && forall i :: 0 <= i < |once.users| ==>
                 twice.users[i] == once.users[i].(lastLoginAt := twice.users[i].lastLoginAt)
  {
    UpsertKeeps(db, info, teacherEmail, now);
    var once := Upserted(db, info, teacherEmail, now);
    var id := SignInIs(db, info, teacherEmail, now);
    var again := SignInIs(once, info, teacherEmail, later);
    assert HasGoogleId(once, info);
    SameGoogleId(once.users, id, again);
  }

  lemma SameGoogleId(users: seq<User>, i: nat, j: nat)
    requires Unique(users) && i < |users| && j < |users| && users[i].googleId == users[j].googleId && users[i].googleId.Some?
    ensures i == j
  {
  }
}
