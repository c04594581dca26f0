/**
 * The user repository (`userRepository`): insert with a duplicate-email
 * check, password update, lookups by id and by email, and delete.
 */
module UserRepo {
  import opened Models
  import opened Store

  /** Some stored user has this email. */
  ghost predicate EmailTaken(users: map<ObjectId, User>, email: string) {
    exists k :: k in users && users[k].email == email
  }

  /**
   * `FindOneByEmail`: a stored user with that email, "no documents" when
   * there is none, and the zero user (no error) when the server is
   * unreachable.
   */
  ghost function LookupEmail(db: Db, email: string): (r: Result<User>)
    ensures db.online ==> (r.Ok? <==> EmailTaken(db.users, email))
    ensures db.online && r.Ok? ==> r.value in db.users.Values && r.value.email == email
    ensures db.online && r.Err? ==> r.error == NoDocuments
    ensures !db.online ==> r == Ok(EmptyUser)
  {
    if !db.online then Ok(EmptyUser)
    else if EmailTaken(db.users, email) then
      var k :| k in db.users && db.users[k].email == email;
      Ok(db.users[k])
    else Err(NoDocuments)
  }

  /** With emails unique, the user found by email is the one stored under its id. */
  lemma LookupEmailIsUnique(db: Db, email: string, k: ObjectId)
    requires Consistent(db) && db.online
    requires k in db.users && db.users[k].email == email
    ensures LookupEmail(db, email) == Ok(db.users[k])
  {
  }

  /**
   * `FindOneById`: the stored user, "no documents" for an absent id, and the
   * zero user (no error) when the server is unreachable.
   */
  function LookupUser(db: Db, id: ObjectId): (r: Result<User>)
    ensures db.online ==> (r.Ok? <==> id in db.users)
    ensures db.online && id in db.users ==> r.value == db.users[id]
    ensures db.online && id !in db.users ==> r == Err(NoDocuments)
    ensures !db.online ==> r == Ok(EmptyUser)
  {
    if !db.online then Ok(EmptyUser)
    else if id in db.users then Ok(db.users[id])
    else Err(NoDocuments)
  }

  /** The outcome of a call that also overwrites fields of the caller's user record. */
  datatype UserStep = UserStep(db: Db, arg: User, out: Result<User>)

  /**
   * `InsertOne`: refuses with "record exists" when the email lookup yields a
   * user, which it also does when the server is unreachable (the zero user).
   * Otherwise the caller's record gets the fresh id, and the document is
   * stored under it unless that id is taken. Emails stay unique.
   */
  ghost function InsertUser(db: Db, u: User, freshId: ObjectId): (r: UserStep)
    ensures r.db.sessions == db.sessions && r.db.online == db.online
    ensures r.out.Ok? <==> db.online && !EmailTaken(db.users, u.email) && freshId !in db.users
    ensures r.out.Ok? ==> r.out.value == u.(id := freshId) && r.db.users == db.users[freshId := r.out.value]
    ensures r.out.Ok? ==> |r.db.users| == |db.users| + 1
    ensures r.out.Err? ==> r.db == db
    ensures r.out == Err(RecordExists) <==> !db.online || EmailTaken(db.users, u.email)
    ensures r.out == Err(RecordExists) ==> r.arg == u
    ensures r.out != Err(RecordExists) ==> r.arg == u.(id := freshId)
    ensures Consistent(db) ==> Consistent(r.db)
  {
    match LookupEmail(db, u.email)
    case Ok(_) => UserStep(db, u, Err(RecordExists))
    case Err(_) =>
      var stamped := u.(id := freshId);
      if freshId in db.users then UserStep(db, stamped, Err(DuplicateKey))
      else UserStep(db.(users := db.users[freshId := stamped]), stamped, Ok(stamped))
  }

  /**
   * `UpdateOne`: writes only the password of the user stored under `u.id`
   * and returns that user as it was before. An absent id is "no documents";
   * an unreachable server is swallowed into the zero user.
   */
  function SetPassword(db: Db, u: User): (r: Step<User>)
    ensures r.db.sessions == db.sessions && r.db.online == db.online
    ensures r.db.users.Keys == db.users.Keys
    ensures forall k | k in db.users && (k != u.id || !db.online) :: r.db.users[k] == db.users[k]
    ensures db.online && u.id in db.users ==>
      && r.out == Ok(db.users[u.id])
      && r.db.users[u.id] == db.users[u.id].(password := u.password)
    ensures db.online && u.id !in db.users ==> r == Step(db, Err(NoDocuments))
    ensures !db.online ==> r == Step(db, Ok(EmptyUser))
    ensures Consistent(db) ==> Consistent(r.db)
  {
    if !db.online then Step(db, Ok(EmptyUser))
    else if u.id in db.users then
      var before := db.users[u.id];
      Step(db.(users := db.users[u.id := before.(password := u.password)]), Ok(before))
    else Step(db, Err(NoDocuments))
  }

  /**
   * `DeleteOneById`: removes the user stored under `id` and returns it; an
   * absent id is "no documents" and changes nothing.
   */
  function RemoveUser(db: Db, id: ObjectId): (r: Step<User>)
    ensures r.db.sessions == db.sessions && r.db.online == db.online
    ensures db.online && id in db.users ==> r.out == Ok(db.users[id]) && r.db.users == db.users - {id}
    ensures db.online && id !in db.users ==> r == Step(db, Err(NoDocuments))
    ensures !db.online ==> r == Step(db, Ok(EmptyUser))
    ensures Consistent(db) ==> Consistent(r.db)
  {
    if !db.online then Step(db, Ok(EmptyUser))
    else if id in db.users then Step(db.(users := db.users - {id}), Ok(db.users[id]))
    else Step(db, Err(NoDocuments))
  }

  /** A user inserted successfully is then found both by its id and by its email. */
  lemma InsertThenLookup(db: Db, u: User, freshId: ObjectId)
    requires Consistent(db)
    requires InsertUser(db, u, freshId).out.Ok?
    ensures var r := InsertUser(db, u, freshId);
      && LookupUser(r.db, freshId) == Ok(r.out.value)
      && LookupEmail(r.db, u.email) == Ok(r.out.value)
  {
  }

  /** `userRepository`, over the database it was constructed with. */
  class UserRepository {
    const db: Database

    constructor (db: Database)
      ensures this.db == db
    {
      this.db := db;
    }

    method FindOneByEmail(email: string) returns (r: Result<User>)
      requires db.Valid()
      ensures r == LookupEmail(db.State(), email)
      ensures db.online && r.Ok? ==> r.value.email == email && r.value.id in db.users && db.users[r.value.id] == r.value
    {
      if !db.online {
        return Ok(EmptyUser);
      }
      if k :| k in db.users && db.users[k].email == email {
        LookupEmailIsUnique(db.State(), email, k);
        r := Ok(db.users[k]);
      } else {
        r := Err(NoDocuments);
      }
    }

    method FindOneById(id: ObjectId) returns (r: Result<User>)
      ensures r == LookupUser(db.State(), id)
    {
      if !db.online {
        return Ok(EmptyUser);
      }
      if id in db.users {
        r := Ok(db.users[id]);
      } else {
        r := Err(NoDocuments);
      }
    }

    method InsertOne(user: UserRecord, freshId: ObjectId) returns (r: Result<User>)
      requires db.Valid()
      modifies db, user
      ensures db.Valid()
      ensures UserStep(db.State(), user.Value(), r) == InsertUser(old(db.State()), old(user.Value()), freshId)
    {
      var existing := FindOneByEmail(user.email);
      if existing.Ok? {
        return Err(RecordExists);
      }
      user.id := freshId;
      if freshId in db.users {
        return Err(DuplicateKey);
      }
      db.users := db.users[freshId := user.Value()];
      r := Ok(user.Value());
    }

    method UpdateOne(user: UserRecord) returns (r: Result<User>)
      requires db.Valid()
      modifies db
      ensures db.Valid()
      ensures Step(db.State(), r) == SetPassword(old(db.State()), user.Value())
    {
      if !db.online {
        return Ok(EmptyUser);
      }
      if user.id !in db.users {
        return Err(NoDocuments);
      }
      var before := db.users[user.id];
      db.users := db.users[user.id := before.(password := user.password)];
      r := Ok(before);
    }

    method DeleteOneById(id: ObjectId) returns (r: Result<User>)
      requires db.Valid()
      modifies db
      ensures db.Valid()
      ensures Step(db.State(), r) == RemoveUser(old(db.State()), id)
    {
      if !db.online {
        return Ok(EmptyUser);
      }
      if id in db.users {
        r := Ok(db.users[id]);
        db.users := db.users - {id};
      } else {
        r := Err(NoDocuments);
      }
    }
  }
}
