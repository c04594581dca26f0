/**
 * The user service (`userService`): create, update, delete and the two
 * lookups, over the user repository. Like the session lifecycle, it opens
 * transactions that its repository calls do not run in; they are not
 * modelled.
 */
module UserCore {
  import opened Models
  import opened Store
  import opened Foreign
  import opened UserRepo

  /**
   * `CreateUser`: hash the password into the caller's record, force its role
   * to `Tenant`, and insert it. The record keeps those overwrites (and the
   * id the repository stamps on it) even when the insert is refused.
   */
  ghost function CreateStep(db: Db, hasher: Hasher, u: User, freshId: ObjectId): (r: UserStep)
    ensures r.db.sessions == db.sessions && r.db.online == db.online
    // hashing fails: the error, nothing stored, the record untouched
    ensures hasher.hash(u.password).None? ==> r == UserStep(db, u, Err(HashFailure))
    ensures hasher.hash(u.password).Some? ==>
      && r.arg.password == hasher.hash(u.password).value
      && r.arg.role == Tenant
      && r.arg.email == u.email
    // success: the stored user is the record with the hash, the Tenant role and a fresh id
    ensures r.out.Ok? ==>
      && hasher.hash(u.password).Some?
      && r.out.value == User(freshId, u.email, hasher.hash(u.password).value, Tenant)
      && r.out.value == r.arg
      && freshId !in db.users
      && r.db.users == db.users[freshId := r.out.value]
    // a taken email is refused with "record exists"
    ensures hasher.hash(u.password).Some? && EmailTaken(db.users, u.email) ==>
      r.out == Err(RecordExists) && r.db == db
    // an unreachable server: the email lookup yields the zero user, so the
    // insert is refused with "record exists" and nothing is stored
    ensures !db.online && hasher.hash(u.password).Some? ==> r.out == Err(RecordExists) && r.db == db
    ensures r.out.Err? ==> r.db == db
    ensures Consistent(db) ==> Consistent(r.db)
  {
    match hasher.hash(u.password)
    case None => UserStep(db, u, Err(HashFailure))
    case Some(hashed) => InsertUser(db, u.(password := hashed, role := Tenant), freshId)
  }

  /**
   * `UpdateUser`: hash the new password into the caller's record and write
   * only the password of the stored user with that id; the repository hands
   * back that user as it was before the write.
   */
  ghost function UpdateStep(db: Db, hasher: Hasher, u: User): (r: UserStep)
    ensures r.db.sessions == db.sessions && r.db.online == db.online
    ensures r.db.users.Keys == db.users.Keys
    ensures hasher.hash(u.password).None? ==> r == UserStep(db, u, Err(HashFailure))
    ensures hasher.hash(u.password).Some? ==>
      && r.arg == u.(password := hasher.hash(u.password).value)
      && (db.online && u.id in db.users ==>
           && r.out == Ok(db.users[u.id])
           && r.db.users == db.users[u.id := db.users[u.id].(password := hasher.hash(u.password).value)])
      && (db.online && u.id !in db.users ==> r.out == Err(NoDocuments) && r.db == db)
      && (!db.online ==> r.out == Ok(EmptyUser) && r.db == db)
    ensures Consistent(db) ==> Consistent(r.db)
  {
    match hasher.hash(u.password)
    case None => UserStep(db, u, Err(HashFailure))
    case Some(hashed) =>
      var arg := u.(password := hashed);
      var written := SetPassword(db, arg);
      UserStep(written.db, arg, written.out)
  }

  /** `userService`, over its repository. */
  class UserService {
    const db: Database
    const repo: UserRepository
    const hasher: Hasher

    ghost predicate Valid()
      reads db
    {
      repo.db == db && db.Valid()
    }

    constructor (db: Database, hasher: Hasher)
      requires db.Valid()
      ensures Valid()
      ensures this.db == db && this.hasher == hasher
    {
      this.db := db;
      this.hasher := hasher;
      repo := new UserRepository(db);
    }

    method CreateUser(user: UserRecord, freshId: ObjectId) returns (r: Result<User>)
      requires Valid()
      modifies db, user
      ensures Valid()
      ensures UserStep(db.State(), user.Value(), r) == CreateStep(old(db.State()), hasher, old(user.Value()), freshId)
    {
      var hashed := hasher.hash(user.password);
      if hashed.None? {
        return Err(HashFailure);
      }
      user.password := hashed.value;
      user.role := Tenant;
      r := repo.InsertOne(user, freshId);
    }

    method UpdateUser(user: UserRecord) returns (r: Result<User>)
      requires Valid()
      modifies db, user
      ensures Valid()
      ensures UserStep(db.State(), user.Value(), r) == UpdateStep(old(db.State()), hasher, old(user.Value()))
    {
      var hashed := hasher.hash(user.password);
      if hashed.None? {
        return Err(HashFailure);
      }
      user.password := hashed.value;
      r := repo.UpdateOne(user);
    }

    method DeleteUser(id: ObjectId) returns (r: Result<User>)
      requires Valid()
      modifies db
      ensures Valid()
      ensures Step(db.State(), r) == RemoveUser(old(db.State()), id)
    {
      r := repo.DeleteOneById(id);
    }

    method GetUserByEmail(email: string) returns (r: Result<User>)
      requires Valid()
      ensures r == LookupEmail(db.State(), email)
      ensures db.online ==> (r.Ok? <==> EmailTaken(db.users, email))
    {
      r := repo.FindOneByEmail(email);
    }

    /** The user id comes from the request context in the source; here it is a parameter. */
    method GetUserById(id: ObjectId) returns (r: Result<User>)
      requires Valid()
      ensures r == LookupUser(db.State(), id)
      ensures db.online ==> (r.Ok? <==> id in db.users)
    {
      r := repo.FindOneById(id);
    }
  }
}
