/** The Google and Facebook verify callbacks of auth-backend/config/passport.js:
    find the user by the provider's first email, or else create a verified
    user for it, and report to passport's `done`. The placeholder password
    (`Math.random().toString(36).slice(-8)`) and the time are inputs. */
module Passport {
  import opened Common
  import opened Text
  import opened Crypto
  import opened UserModel
  import opened UserStore

  /** The parts of a `passport-google-oauth20` profile the callback reads;
      `emails` lists the `value`s of `profile.emails`. */
  datatype GoogleProfile = GoogleProfile(id: string, displayName: string, emails: seq<string>)

  /** The parts of a `passport-facebook` profile the callback reads. */
  datatype FacebookProfile = FacebookProfile(id: string, givenName: string, familyName: string, emails: seq<string>)

  /** What the callback hands to `done` as its error. */
  datatype VerifyError =
    | TypeError                 // `profile.emails[0].value` with no first email
    | SaveFailed(cause: SaveError)

  /** `done(error, user)`. */
  datatype Done = Done(error: Option<VerifyError>, user: Option<User>)

  /** The fields `new User({...})` receives from a Google profile. */
  function GoogleInit(profile: GoogleProfile, placeholder: string): UserInit
    requires |profile.emails| >= 1
  {
    UserInit(profile.emails[0], placeholder, profile.displayName, Some(true), Some("google"), Some(profile.id))
  }

  /** The fields `new User({...})` receives from a Facebook profile; the name
      is `` `${givenName} ${familyName}` ``. */
  function FacebookInit(profile: FacebookProfile, placeholder: string): UserInit
    requires |profile.emails| >= 1
  {
    UserInit(profile.emails[0], placeholder, profile.givenName + " " + profile.familyName,
             Some(true), Some("facebook"), Some(profile.id))
  }

  /** How find-or-create ends against the stored `records`. */
  datatype Lookup =
    | Found(user: User)          // `findOne` hit the stored user
    | Refused(error: SaveError)  // `save()` of the new document rejected
    | Inserted                   // a new document was stored

  /** The callback passes the profile email as given, and the setters cast
      it to the normal form under which `save()` would store it; so a miss
      is never followed by a duplicate-key refusal. */
  function FindOrCreateOutcome(records: map<string, User>, init: UserInit): Lookup {
    var key := NormalizeEmail(init.email);
    if key in records then Found(records[key])
    else if !Admissible(init) then Refused(ValidationError)
    else Inserted
  }

  /** `u` is the account a provider sign-in creates from `init`: normalised
      email, trimmed name, hashed placeholder, already verified. */
  predicate IsProviderAccount(u: User, init: UserInit, bc: Bcrypt, salt: string, now: int) {
    && u.email == NormalizeEmail(init.email) && u.name == Trim(init.name)
    && u.password == bc.hash(init.password, salt)
    && u.isVerified == (init.isVerified == Some(true)) && u.createdAt == now && u.LockoutUntouched()
  }

  /** One run of a verify callback took the store from `before` to `after`
      and called `done` as the source does for that outcome. */
  predicate Answered(before: map<string, User>, after: map<string, User>, init: UserInit, done: Done,
                     bc: Bcrypt, salt: string, now: int)
  {
    match FindOrCreateOutcome(before, init)
    case Found(u) => done == Done(None, Some(u)) && after == before
    case Refused(e) => done == Done(Some(SaveFailed(e)), None) && after == before
    case Inserted =>
      var key := NormalizeEmail(init.email);
      && key !in before && key in after && after == before[key := after[key]]
      && IsProviderAccount(after[key], init, bc, salt, now)
      && done == Done(None, Some(after[key]))
  }

  /** The shared body of both callbacks once the email has been read. */
  method FindOrCreate(users: Users, init: UserInit, bc: Bcrypt, salt: string, now: int) returns (done: Done)
    requires users.Valid()
    modifies users
    ensures users.Valid()
    ensures old(users.LockoutUntouched()) ==> users.LockoutUntouched()
    ensures Answered(old(users.records), users.records, init, done, bc, salt, now)
  {
    var found := users.FindOne(init.email);
    if found.Some? {
      return Done(None, found);
    }
    var saved := users.Create(init, bc, salt, now);
    if saved.Failure? {
      return Done(Some(SaveFailed(saved.error)), None);
    }
    done := Done(None, Some(saved.value));
  }

  /** The Google verify callback. */
  method GoogleVerify(users: Users, profile: GoogleProfile, placeholder: string,
                      bc: Bcrypt, salt: string, now: int) returns (done: Done)
    requires users.Valid()
    modifies users
    ensures users.Valid()
    ensures old(users.LockoutUntouched()) ==> users.LockoutUntouched()
    ensures |profile.emails| == 0 ==> done == Done(Some(TypeError), None) && users.records == old(users.records)
    ensures |profile.emails| >= 1 ==>
              Answered(old(users.records), users.records, GoogleInit(profile, placeholder), done, bc, salt, now)
  {
    if |profile.emails| == 0 {
      return Done(Some(TypeError), None);
    }
    done := FindOrCreate(users, GoogleInit(profile, placeholder), bc, salt, now);
  }

  /** The Facebook verify callback. */
  method FacebookVerify(users: Users, profile: FacebookProfile, placeholder: string,
                        bc: Bcrypt, salt: string, now: int) returns (done: Done)
    requires users.Valid()
    modifies users
    ensures users.Valid()
    ensures old(users.LockoutUntouched()) ==> users.LockoutUntouched()
    ensures |profile.emails| == 0 ==> done == Done(Some(TypeError), None) && users.records == old(users.records)
    ensures |profile.emails| >= 1 ==>
              Answered(old(users.records), users.records, FacebookInit(profile, placeholder), done, bc, salt, now)
  {
    if |profile.emails| == 0 {
      return Done(Some(TypeError), None);
    }
    done := FindOrCreate(users, FacebookInit(profile, placeholder), bc, salt, now);
  }

  /** A Google sign-in that creates a user stores a verified account under
      the normalised first email, named by `displayName`, whose password is
      the hash of the placeholder. */
  lemma GoogleSignUp(before: map<string, User>, after: map<string, User>, profile: GoogleProfile,
                     placeholder: string, done: Done, bc: Bcrypt, salt: string, now: int)
    requires |profile.emails| >= 1
    requires Answered(before, after, GoogleInit(profile, placeholder), done, bc, salt, now)
    requires FindOrCreateOutcome(before, GoogleInit(profile, placeholder)) == Inserted
    ensures done.error == None && done.user.Some?
    ensures var u := done.user.value;
            && u.isVerified && u.email == NormalizeEmail(profile.emails[0]) && u.name == Trim(profile.displayName)
            && u.password == bc.hash(placeholder, salt) && u.createdAt == now
            && u.failedLoginAttempts == 0 && u.lockUntil == None
            && after == before[u.email := u]
  {
  }

  /** The Facebook counterpart: the name is the given and family names
      joined by one space, then trimmed by the schema's setter. */
  lemma FacebookSignUp(before: map<string, User>, after: map<string, User>, profile: FacebookProfile,
                       placeholder: string, done: Done, bc: Bcrypt, salt: string, now: int)
    requires |profile.emails| >= 1
    requires Answered(before, after, FacebookInit(profile, placeholder), done, bc, salt, now)
    requires FindOrCreateOutcome(before, FacebookInit(profile, placeholder)) == Inserted
    ensures done.error == None && done.user.Some?
    ensures var u := done.user.value;
            && u.isVerified && u.email == NormalizeEmail(profile.emails[0])
            && u.name == Trim(profile.givenName + " " + profile.familyName)
            && u.password == bc.hash(placeholder, salt) && u.createdAt == now
            && u.failedLoginAttempts == 0 && u.lockUntil == None
            && after == before[u.email := u]
  {
  }

  /** A stored user whose email is the profile email's normal form is handed
      to `done` as it is, and nothing is written. */
  lemma ExistingUserReturned(before: map<string, User>, after: map<string, User>, init: UserInit,
                             done: Done, bc: Bcrypt, salt: string, now: int)
    requires Answered(before, after, init, done, bc, salt, now)
    requires NormalizeEmail(init.email) in before
    ensures done == Done(None, Some(before[NormalizeEmail(init.email)])) && after == before
  {
  }

  /** Two runs for the same email, each with its own placeholder password,
      bcrypt salt and time, create at most one user, under the normalised
      email. */
  lemma AtMostOneInsert(before: map<string, User>, mid: map<string, User>, after: map<string, User>,
                        init1: UserInit, init2: UserInit, done1: Done, done2: Done,
                        bc: Bcrypt, salt1: string, salt2: string, now1: int, now2: int)
    requires Answered(before, mid, init1, done1, bc, salt1, now1)
    requires Answered(mid, after, init2, done2, bc, salt2, now2)
    requires NormalizeEmail(init2.email) == NormalizeEmail(init1.email)
    ensures after.Keys <= before.Keys + {NormalizeEmail(init1.email)}
    ensures |after.Keys| <= |before.Keys| + 1
  {
    var key := NormalizeEmail(init1.email);
    assert mid.Keys <= before.Keys + {key};
    assert after.Keys <= mid.Keys + {key};
    assert after.Keys <= before.Keys + {key};
    assert |after.Keys| <= |before.Keys + {key}| by {
      SubsetCard(after.Keys, before.Keys + {key});
    }
  }

  lemma SubsetCard<T>(a: set<T>, b: set<T>)
    requires a <= b
    ensures |a| <= |b|
  {
    assert b == a + (b - a);
  }

  /** Find-or-create is idempotent: once a run has handed a user to `done`,
      a later run for an email with the same normal form (in another case,
      say, and with a fresh placeholder, salt and time) finds that user and
      stores nothing. */
  lemma IdempotentSignIn(before: map<string, User>, mid: map<string, User>, after: map<string, User>,
                         init1: UserInit, init2: UserInit, done1: Done, done2: Done,
                         bc: Bcrypt, salt1: string, salt2: string, now1: int, now2: int)
    requires Answered(before, mid, init1, done1, bc, salt1, now1)
    requires Answered(mid, after, init2, done2, bc, salt2, now2)
    requires NormalizeEmail(init2.email) == NormalizeEmail(init1.email)
    requires done1.error.None?
    ensures after == mid && done2 == done1
  {
    var key := NormalizeEmail(init1.email);
    if key in before {
      assert mid == before;
    } else {
      assert FindOrCreateOutcome(before, init1) == Inserted;
      assert key in mid;
    }
  }

  /** A Facebook profile without a first or last name gives the name `" "`,
      which the `trim` setter empties and `required` then refuses: a new
      user cannot be created from it. */
  lemma NamelessFacebookProfileRefused(records: map<string, User>, profile: FacebookProfile, placeholder: string)
    requires |profile.emails| >= 1 && NormalizeEmail(profile.emails[0]) !in records
    requires profile.givenName == "" && profile.familyName == ""
    ensures FindOrCreateOutcome(records, FacebookInit(profile, placeholder)) == Refused(ValidationError)
  {
    assert TrimStart(" ") == "";
  }
}
