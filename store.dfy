/** The `users` collection behind `mongoose.model("User")`: `findOne` by
    email, `findById`, and `save` of a new document, with the unique indexes
    on `email` and `_id` enforced at insert. Requests are taken one at a
    time. */
module UserStore {
  import opened Common
  import opened Crypto
  import opened UserModel

  class Users {
    /** The stored documents, keyed by their stored email. */
    var records: map<string, User>
    /** The next `_id` to hand out. */
    var nextId: ObjectId

    /** Every record sits under its own email, which the setters have
        normalised and which is not empty; ids are unique and below `nextId`. */
    ghost predicate Valid()
      reads this
    {
      && (forall e :: e in records ==>
            records[e].email == e && e != "" && IsNormalEmail(e) && records[e].id < nextId)
      && (forall e1, e2 :: e1 in records && e2 in records && records[e1].id == records[e2].id ==> e1 == e2)
    }

    /** Every record still holds the schema defaults in the fields no route
        of this core writes. */
    ghost predicate LockoutUntouched()
      reads this
    {
      forall e :: e in records ==> records[e].LockoutUntouched()
    }

    constructor ()
      ensures Valid() && LockoutUntouched()
      ensures records == map[] && nextId == 0
    {
      records := map[];
      nextId := 0;
    }

    /** `User.findOne({ email })`. Mongoose casts a filter value through the
        path's setters before it queries, so the query is for the
        lowercased and trimmed email: it finds the stored document whose
        `email` field is that normal form, if there is one. */
    function FindOne(email: string): (r: Option<User>)
      reads this
      requires Valid()
      ensures r.Some? <==> exists e :: e in records && records[e].email == NormalizeEmail(email)
      ensures r.Some? ==> r.value.email == NormalizeEmail(email) && r.value in records.Values
    {
      var key := NormalizeEmail(email);
      if key in records then Some(records[key]) else None
    }

    predicate IdTaken(id: ObjectId)
      reads this
    {
      exists e :: e in records && records[e].id == id
    }

    /** `User.findById(id)`. */
    method FindById(id: ObjectId) returns (r: Option<User>)
      requires Valid()
      ensures r.None? <==> !IdTaken(id)
      ensures r.Some? ==> r.value.id == id && r.value.email in records && records[r.value.email] == r.value
    {
      if IdTaken(id) {
        var e :| e in records && records[e].id == id;
        r := Some(records[e]);
      } else {
        r := None;
      }
    }

    /** Stored emails are unique: one record per normalised email. */
    lemma EmailsUnique(e1: string, e2: string)
      requires Valid()
      requires e1 in records && e2 in records
      ensures records[e1].email == records[e2].email <==> e1 == e2
    {
    }

    /** The `_id` a `new User(...)` receives: one no stored record has. */
    method NewObjectId() returns (id: ObjectId)
      requires Valid()
      modifies this`nextId
      ensures Valid()
      ensures id == old(nextId) && nextId == id + 1 && !IdTaken(id)
    {
      id := nextId;
      nextId := nextId + 1;
    }

    /** `doc.save()` for a new document: Mongoose validation, then the
        `pre("save")` hook, then the insert, which MongoDB refuses with error
        11000 when the email or the `_id` is already taken. A refused insert
        leaves the collection as it was, though the hook has already hashed
        the document's password. */
    method Save(doc: UserDoc, bc: Bcrypt, salt: string) returns (r: Result<User, SaveError>)
      requires Valid() && doc.Valid() && doc.id < nextId
      modifies this`records, doc`password, doc`passwordModified
      ensures Valid() && doc.Valid()
      ensures r.Success? <==> old(doc.PassesValidation()) && doc.email !in old(records) && !old(IdTaken(doc.id))
      ensures !old(doc.PassesValidation()) ==>
                && r == Failure(ValidationError)
                && doc.password == old(doc.password) && doc.passwordModified == old(doc.passwordModified)
      ensures old(doc.PassesValidation()) && old(doc.passwordModified) ==>
                doc.password == bc.hash(old(doc.password), salt)
      ensures old(doc.PassesValidation()) && !old(doc.passwordModified) ==> doc.password == old(doc.password)
      ensures r.Failure? ==> records == old(records)
      ensures old(doc.PassesValidation()) && r.Failure? ==> r.error == DuplicateKey
      ensures r.Success? ==> && r.value == doc.Snapshot()
                             && records == old(records)[doc.email := r.value]
                             && !doc.passwordModified
      ensures old(LockoutUntouched()) && old(doc.Snapshot().LockoutUntouched()) ==> LockoutUntouched()
    {
      if !doc.PassesValidation() {
        return Failure(ValidationError);
      }
      doc.PreSave(bc, salt);
      if doc.email in records || IdTaken(doc.id) {
        return Failure(DuplicateKey);
      }
      doc.passwordModified := false;
      var u := doc.Snapshot();
      records := records[doc.email := u];
      r := Success(u);
    }

    /** `new User(init).save()`: the document gets a fresh `_id`, the
        setters and defaults of the constructor, and is then saved. */
    method Create(init: UserInit, bc: Bcrypt, salt: string, now: int) returns (r: Result<User, SaveError>)
      requires Valid()
      modifies this
      ensures Valid()
      ensures old(LockoutUntouched()) ==> LockoutUntouched()
      ensures r.Success? <==> Admissible(init) && NormalizeEmail(init.email) !in old(records)
      ensures r.Failure? ==> records == old(records)
      ensures r.Failure? ==> r.error == if Admissible(init) then DuplicateKey else ValidationError
      ensures r.Success? ==> && r.value == Stored(init, old(nextId), bc, salt, now)
                             && records == old(records)[r.value.email := r.value]
    {
      var id := NewObjectId();
      var doc := new UserDoc(init, id, now);
      assert doc.PassesValidation() == Admissible(init);
      assert doc.Snapshot().LockoutUntouched();
      r := Save(doc, bc, salt);
      assert r.Success? ==> r.value == Stored(init, id, bc, salt, now);
    }
  }
}
