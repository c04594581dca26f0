/**
 * The MongoDB database both repositories are constructed over: the
 * `sessions` and `users` collections, each keyed by its documents' `_id`.
 */
module Store {
  import opened Models

  /**
   * A snapshot of the database. `online` says whether round trips reach the
   * server; when it is false every driver call fails with an error other
   * than "no documents".
   */
  datatype Db = Db(sessions: map<ObjectId, Session>, users: map<ObjectId, User>, online: bool)

  /** The new database and the result of one call. */
  datatype Step<+T> = Step(db: Db, out: Result<T>)

  /** Every document is stored under its own `_id`. */
  ghost predicate Keyed(db: Db) {
    && (forall k :: k in db.sessions ==> db.sessions[k].id == k)
    && (forall k :: k in db.users ==> db.users[k].id == k)
  }

  /** No two stored users share an email. */
  ghost predicate UniqueEmails(users: map<ObjectId, User>) {
    forall a, b :: a in users && b in users && users[a].email == users[b].email ==> a == b
  }

  /** The invariant every operation of the service keeps. */
  ghost predicate Consistent(db: Db) {
    Keyed(db) && UniqueEmails(db.users)
  }

  class Database {
    var sessions: map<ObjectId, Session>
    var users: map<ObjectId, User>
    var online: bool

    function State(): Db
      reads this
    {
      Db(sessions, users, online)
    }

    ghost predicate Valid()
      reads this
    {
      Consistent(State())
    }

    /**
     * The database the service opens, holding the documents it already
     * has; its server answers.
     */
    constructor (sessions: map<ObjectId, Session>, users: map<ObjectId, User>)
      requires Consistent(Db(sessions, users, true))
      ensures Valid()
      ensures State() == Db(sessions, users, true)
    {
      this.sessions, this.users, online := sessions, users, true;
    }
  }
}
