/**
 * The session repository (`authenticationRepository`): insert, touch, find
 * and delete of session documents. The step functions say what each call
 * does to the database; the class runs them against a `Database` object.
 */
module AuthenticationRepo {
  import opened Models
  import opened Store

  /**
   * `InsertOne`: the driver stores the document under its own id and
   * reports that id; a taken id or an unreachable server is an error and
   * stores nothing.
   */
  function InsertSession(db: Db, s: Session): (r: Step<ObjectId>)
    ensures r.out.Ok? <==> db.online && s.id !in db.sessions
    ensures r.out.Ok? ==> r.out.value == s.id && r.db == db.(sessions := db.sessions[s.id := s])
    ensures r.out.Ok? ==> |r.db.sessions| == |db.sessions| + 1
    ensures r.out.Err? ==> r.db == db && r.out.error == (if db.online then DuplicateKey else Transport)
    ensures Keyed(db) ==> Keyed(r.db)
  {
    if !db.online then Step(db, Err(Transport))
    else if s.id in db.sessions then Step(db, Err(DuplicateKey))
    else Step(db.(sessions := db.sessions[s.id := s]), Ok(s.id))
  }

  /**
   * `UpdateOne`: sets `updatedAt` of the session with the given id to `now`
   * and returns the document as it was before the update (the driver's
   * default for find-and-update). Nothing else of that row and no other row
   * changes. An absent id is "no documents"; an unreachable server is
   * swallowed into the zero session with no change.
   */
  function TouchSession(db: Db, s: Session, now: Time): (r: Step<Session>)
    ensures r.db.users == db.users && r.db.online == db.online
    ensures r.db.sessions.Keys == db.sessions.Keys
    ensures forall k | k in db.sessions && (k != s.id || !db.online) :: r.db.sessions[k] == db.sessions[k]
    ensures db.online && s.id in db.sessions ==>
      && r.out == Ok(db.sessions[s.id])
      && var after := r.db.sessions[s.id];
         && after.updatedAt == now
         && after.id == db.sessions[s.id].id
         && after.userId == db.sessions[s.id].userId
         && after.createdAt == db.sessions[s.id].createdAt
    ensures db.online && s.id !in db.sessions ==> r == Step(db, Err(NoDocuments))
    ensures !db.online ==> r == Step(db, Ok(EmptySession))
    ensures Keyed(db) ==> Keyed(r.db)
  {
    if !db.online then Step(db, Ok(EmptySession))
    else if s.id in db.sessions then
      var before := db.sessions[s.id];
      Step(db.(sessions := db.sessions[s.id := before.(updatedAt := now)]), Ok(before))
    else Step(db, Err(NoDocuments))
  }

  /**
   * `FindOneById`: the stored session, "no documents" for an absent id, and
   * the zero session (no error) when the server is unreachable.
   */
  function LookupSession(db: Db, id: ObjectId): (r: Result<Session>)
    ensures db.online ==> (r.Ok? <==> id in db.sessions)
    ensures db.online && id in db.sessions ==> r.value == db.sessions[id]
    ensures db.online && id !in db.sessions ==> r == Err(NoDocuments)
    ensures !db.online ==> r == Ok(EmptySession)
  {
    if !db.online then Ok(EmptySession)
    else if id in db.sessions then Ok(db.sessions[id])
    else Err(NoDocuments)
  }

  /**
   * `DeleteOneById` as written: it finds and deletes in the `users`
   * collection, never in `sessions`. It removes the user whose id is the
   * given session id, if there is one, and returns that document decoded
   * as a session (only its id survives the decoding); otherwise "no
   * documents". An unreachable server is swallowed into the zero session.
   */
  function DeleteById(db: Db, id: ObjectId): (r: Step<Session>)
    ensures r.db.sessions == db.sessions && r.db.online == db.online
    ensures r.out.Err? <==> db.online && id !in db.users
    ensures r.out.Err? ==> r.out.error == NoDocuments && r.db == db
    ensures db.online && id in db.users ==> r.db.users == db.users - {id} && r.out == Ok(Session(id, NilObjectId, ZeroTime, ZeroTime))
    ensures !db.online ==> r == Step(db, Ok(EmptySession))
    ensures Consistent(db) ==> Consistent(r.db)
  {
    if !db.online then Step(db, Ok(EmptySession))
    else if id in db.users then
      Step(db.(users := db.users - {id}), Ok(Session(id, NilObjectId, ZeroTime, ZeroTime)))
    else Step(db, Err(NoDocuments))
  }

  /** A session found right after a successful insert is the one inserted. */
  lemma InsertThenLookup(db: Db, s: Session)
    requires InsertSession(db, s).out.Ok?
    ensures LookupSession(InsertSession(db, s).db, s.id) == Ok(s)
  {
  }

  /** `authenticationRepository`, over the database it was constructed with. */
  class AuthenticationRepository {
    const db: Database

    constructor (db: Database)
      ensures this.db == db
    {
      this.db := db;
    }

    method InsertOne(session: Session) returns (r: Result<ObjectId>)
      modifies db
      ensures Step(db.State(), r) == InsertSession(old(db.State()), session)
    {
      if !db.online {
        return Err(Transport);
      }
      if session.id in db.sessions {
        return Err(DuplicateKey);
      }
      db.sessions := db.sessions[session.id := session];
      r := Ok(session.id);
    }

    method UpdateOne(session: Session, now: Time) returns (r: Result<Session>)
      modifies db
      ensures Step(db.State(), r) == TouchSession(old(db.State()), session, now)
    {
      if !db.online {
        return Ok(EmptySession);
      }
      if session.id !in db.sessions {
        return Err(NoDocuments);
      }
      var before := db.sessions[session.id];
      db.sessions := db.sessions[session.id := before.(updatedAt := now)];
      r := Ok(before);
    }

    method FindOneById(id: ObjectId) returns (r: Result<Session>)
      ensures r == LookupSession(db.State(), id)
      ensures db.online && r.Ok? ==> r.value == db.sessions[id]
    {
      if !db.online {
        return Ok(EmptySession);
      }
      if id in db.sessions {
        r := Ok(db.sessions[id]);
      } else {
        r := Err(NoDocuments);
      }
    }

    method DeleteOneById(id: ObjectId) returns (r: Result<Session>)
      modifies db
      ensures Step(db.State(), r) == DeleteById(old(db.State()), id)
    {
      if !db.online {
        return Ok(EmptySession);
      }
      if id in db.users {
        db.users := db.users - {id};
        r := Ok(Session(id, NilObjectId, ZeroTime, ZeroTime));
      } else {
        r := Err(NoDocuments);
      }
    }
  }
}
