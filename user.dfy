/** The `User` model of auth-backend/models/User.js: the schema's fields,
    defaults and setters, the pre-save hook that hashes the password, and
    the instance methods `comparePassword` and `isLocked`. Times are
    milliseconds since the epoch, as `Date.now()` gives them. */
module UserModel {
  import opened Common
  import opened Text
  import opened Crypto

  /** What the schema's `lowercase: true, trim: true` setters make of an
      email before it is stored. */
  function NormalizeEmail(email: string): string {
    Trim(ToLower(email))
  }

  /** A normalised email is its own normal form, and lowercasing before the
      setters run (as the register route does) changes nothing. */
  lemma NormalizeEmailIdempotent(email: string)
    ensures NormalizeEmail(NormalizeEmail(email)) == NormalizeEmail(email)
    ensures NormalizeEmail(ToLower(email)) == NormalizeEmail(email)
  {
    var t := Trim(ToLower(email));
    ToLowerTrimCommute(email);
    ToLowerIdempotent(Trim(email));
    ToLowerIdempotent(email);
    ToLowerTrimCommute(t);
    TrimIdempotent(ToLower(email));
  }

  /** An email the setters leave as it is: no uppercase ASCII letter and no
      surrounding whitespace. */
  predicate IsNormalEmail(email: string) {
    !Padded(email) && forall i :: 0 <= i < |email| ==> !IsUpperAscii(email[i])
  }

  /** `IsNormalEmail` characterises the fixed points of `NormalizeEmail`, so
      every normalised email is normal. */
  lemma NormalEmailIff(email: string)
    ensures IsNormalEmail(email) <==> NormalizeEmail(email) == email
    ensures IsNormalEmail(NormalizeEmail(email))
  {
    ToLowerIdempotent(email);
    TrimUnpadded(ToLower(email));
    TrimKeepsNoUpper(ToLower(email));
    if IsNormalEmail(email) {
      ToLowerFixesNoUpper(email);
      TrimFixesExactlyUnpadded(email);
    }
  }

  /** A user document as it is stored. Fields the schema declares but that
      no code in this core writes (verification, reset and refresh tokens,
      `lastLogin`) are kept so that the record is the schema's. */
  datatype User = User(
    id: ObjectId,
    email: string,
    password: string,
    name: string,
    isVerified: bool,
    verificationToken: Option<string>,
    verificationTokenExpires: Option<int>,
    passwordResetToken: Option<string>,
    passwordResetExpires: Option<int>,
    // The schema spells this field's type `Nummber`, an undefined name;
    // the model gives it the evidently intended non-negative number type.
    failedLoginAttempts: nat,
    lockUntil: Option<int>,
    refreshToken: Option<string>,
    refreshTokenExpires: Option<int>,
    createdAt: int,
    lastLogin: Option<int>)
  {
    /** `user.comparePassword(candidate)`: bcrypt's verdict on the candidate
        against the stored hash. */
    function ComparePassword(bc: Bcrypt, candidate: string): bool {
      bc.compare(candidate, password)
    }

    /** `user.isLocked()`: a lock time is set and still in the future. */
    predicate IsLocked(now: int) {
      lockUntil.Some? && lockUntil.value > now
    }

    /** The fields that no route in this core ever sets are still at their
        schema defaults. */
    predicate LockoutUntouched() {
      && failedLoginAttempts == 0 && lockUntil == None
      && verificationToken == None && verificationTokenExpires == None
      && passwordResetToken == None && passwordResetExpires == None
      && refreshToken == None && refreshTokenExpires == None && lastLogin == None
    }
  }

  /** `isLocked` holds exactly while a lock time is set and has not been
      reached: with no lock time the account is never locked, at the lock
      time itself it is already unlocked, and once unlocked it stays so. */
  lemma IsLockedWindow(u: User, now: int, later: int)
    requires now <= later
    ensures u.lockUntil == None ==> !u.IsLocked(now)
    ensures u.lockUntil.Some? ==> (u.IsLocked(now) <==> now < u.lockUntil.value)
    ensures u.lockUntil.Some? ==> !u.IsLocked(u.lockUntil.value)
    ensures !u.IsLocked(now) ==> !u.IsLocked(later)
  {
  }

  /** A record whose lockout fields were never written is never locked. */
  lemma UntouchedNeverLocked(u: User, now: int)
    requires u.LockoutUntouched()
    ensures !u.IsLocked(now)
  {
  }

  /** The object literal handed to `new User({...})`. `provider` and
      `providerId` are not paths of the schema; under Mongoose's default
      strict mode the document drops them. */
  datatype UserInit = UserInit(
    email: string,
    password: string,
    name: string,
    isVerified: Option<bool>,
    provider: Option<string>,
    providerId: Option<string>)

  /** `new User(init)` passes the schema's validators: a non-empty email
      and name once the setters have run, and a password of at least 6. */
  predicate Admissible(init: UserInit) {
    NormalizeEmail(init.email) != "" && Trim(init.name) != "" && |init.password| >= 6
  }

  /** The record `new User(init)` becomes once stored under `_id` `id`: the
      setters applied, the password hashed by the pre-save hook, and every
      other field at its default. */
  function Stored(init: UserInit, id: ObjectId, bc: Bcrypt, salt: string, now: int): User {
    User(id, NormalizeEmail(init.email), bc.hash(init.password, salt), Trim(init.name),
         init.isVerified == Some(true), None, None, None, None, 0, None, None, None, now, None)
  }

  /** Why `user.save()` rejects. */
  datatype SaveError =
    | ValidationError  // a `required` or `minlength` validator failed
    | DuplicateKey     // MongoDB error 11000 on the unique `email` or `_id` index

  /** A user document in memory, between `new User(...)` and `save()`. */
  class UserDoc {
    const id: ObjectId
    var email: string
    var password: string
    var name: string
    var isVerified: bool
    var failedLoginAttempts: nat
    var lockUntil: Option<int>
    var createdAt: int
    /** Mongoose's `isModified("password")`. */
    var passwordModified: bool

    /** The setters have run on `email` and `name`. */
    ghost predicate Valid()
      reads this
    {
      IsNormalEmail(email) && !Padded(name)
    }

    /** `new User(init)`: setters applied to `email` and `name`, defaults for
        everything not given, `createdAt` from `Date.now()`. */
    constructor (init: UserInit, id: ObjectId, now: int)
      ensures Valid()
      ensures this.id == id && email == NormalizeEmail(init.email) && name == Trim(init.name)
      ensures password == init.password && passwordModified
      ensures isVerified == (init.isVerified == Some(true))
      ensures failedLoginAttempts == 0 && lockUntil == None && createdAt == now
    {
      NormalEmailIff(init.email);
      TrimUnpadded(init.name);
      this.id := id;
      email := NormalizeEmail(init.email);
      password := init.password;
      name := Trim(init.name);
      isVerified := if init.isVerified.Some? then init.isVerified.value else false;
      failedLoginAttempts := 0;
      lockUntil := None;
      createdAt := now;
      passwordModified := true;
    }

    /** The validators Mongoose runs before any pre-save hook: `required` on
        `email`, `password` and `name` (an empty string fails it) and
        `minlength: 6` on `password`. */
    predicate PassesValidation()
      reads this
    {
      email != "" && name != "" && |password| >= 6
    }

    /** The `pre("save")` hook: hash the password only if it was modified,
        so a saved hash is never hashed again. */
    method PreSave(bc: Bcrypt, salt: string)
      modifies this`password
      ensures passwordModified ==> password == bc.hash(old(password), salt)
      ensures !passwordModified ==> password == old(password)
    {
      if !passwordModified {
        return;
      }
      var hash := bc.hash(password, salt);
      password := hash;
    }

    /** The record the document becomes once stored. */
    function Snapshot(): User
      reads this
    {
      User(id, email, password, name, isVerified, None, None, None, None,
           failedLoginAttempts, lockUntil, None, None, createdAt, None)
    }
  }

  /** After the hook has run on a modified password, the document holds the
      hash and `comparePassword` accepts the plaintext that was set: the
      plaintext itself is gone from the record. */
  method HashThenCompare(init: UserInit, id: ObjectId, now: int, bc: Bcrypt, salt: string)
    returns (stored: string, matches: bool)
    requires bc.Sound()
    ensures stored == bc.hash(init.password, salt)
    ensures matches
  {
    var doc := new UserDoc(init, id, now);
    doc.PreSave(bc, salt);
    stored := doc.password;
    matches := doc.Snapshot().ComparePassword(bc, init.password);
  }
}
