/**
 * Properties of the service as a whole: what holds across any sequence of
 * calls, and what one call guarantees to the next.
 */
module Lifecycle {
  import opened Models
  import opened Store
  import opened Foreign
  import opened UserRepo
  import opened AuthenticationCore
  import opened UserCore

  /** One call to either service, with the clock value and fresh id it consumes. */
  datatype Op =
    | PasswordLogin(email: string, password: string, now: Time, freshId: ObjectId)
    | Authenticate(token: Token, now: Time)
    | RefreshLogin(refreshToken: Token, now: Time)
    | Logout(token: Token, now: Time)
    | CreateUser(user: User, freshId: ObjectId)
    | UpdateUser(user: User)
    | DeleteUser(id: ObjectId)
    | GetUserByEmail(email: string)
    | GetUserById(id: ObjectId)

  /** The database after one call. */
  ghost function Apply(db: Db, codec: Codec, hasher: Hasher, op: Op): Db {
    match op
    case PasswordLogin(email, password, now, freshId) => LoginStep(db, codec, hasher, email, password, now, freshId).db
    case Authenticate(_, _) => db
    case RefreshLogin(refreshToken, now) => RefreshStep(db, codec, refreshToken, now).db
    case Logout(token, now) => LogoutStep(db, codec, token, now).db
    case CreateUser(user, freshId) => CreateStep(db, hasher, user, freshId).db
    case UpdateUser(user) => UpdateStep(db, hasher, user).db
    case DeleteUser(id) => RemoveUser(db, id).db
    case GetUserByEmail(_) => db
    case GetUserById(_) => db
  }

  /** The database after a sequence of calls, in order. */
  ghost function Run(db: Db, codec: Codec, hasher: Hasher, ops: seq<Op>): Db
    decreases |ops|
  {
    if ops == [] then db else Run(Apply(db, codec, hasher, ops[0]), codec, hasher, ops[1..])
  }

  /** Every row of `a` is still in `b`, with the same id, owner and creation time. */
  ghost predicate SessionsKept(a: Db, b: Db) {
    forall k | k in a.sessions ::
      && k in b.sessions
      && b.sessions[k].id == a.sessions[k].id
      && b.sessions[k].userId == a.sessions[k].userId
      && b.sessions[k].createdAt == a.sessions[k].createdAt
  }

  /** No single call removes a session or changes anything of it but `updatedAt`. */
  lemma ApplyKeepsSessions(db: Db, codec: Codec, hasher: Hasher, op: Op)
    ensures SessionsKept(db, Apply(db, codec, hasher, op))
  {
  }

  /**
   * Whatever calls are made, in whatever order, the rows stay keyed by their
   * ids and no two users share an email.
   */
  lemma {:induction false} RunKeepsConsistent(db: Db, codec: Codec, hasher: Hasher, ops: seq<Op>)
    requires Consistent(db)
    ensures Consistent(Run(db, codec, hasher, ops))
    decreases |ops|
  {
    if ops != [] {
      var next := Apply(db, codec, hasher, ops[0]);
      assert Consistent(next);
      RunKeepsConsistent(next, codec, hasher, ops[1..]);
    }
  }

  /**
   * Whatever calls are made, no session row is ever removed: logout and the
   * refresh-failure path delete from the users collection, and nothing
   * else deletes sessions.
   */
  lemma {:induction false} RunKeepsSessions(db: Db, codec: Codec, hasher: Hasher, ops: seq<Op>)
    ensures SessionsKept(db, Run(db, codec, hasher, ops))
    decreases |ops|
  {
    if ops != [] {
      var next := Apply(db, codec, hasher, ops[0]);
      ApplyKeepsSessions(db, codec, hasher, ops[0]);
      RunKeepsSessions(next, codec, hasher, ops[1..]);
    }
  }

  /**
   * The access token a login returns authenticates for its lifetime, and
   * yields the claims of the user with that email and the new session.
   */
  lemma LoginThenAuthenticate(db: Db, codec: Codec, hasher: Hasher, email: string, password: string,
                              now: Time, freshId: ObjectId, later: Time)
    requires SoundCodec(codec)
    requires now <= later < now + codec.accessTtl
    requires LoginStep(db, codec, hasher, email, password, now, freshId).out.Ok?
    ensures var login := LoginStep(db, codec, hasher, email, password, now, freshId);
      var user := LookupEmail(db, email).value;
      && AuthenticateStep(login.db, codec, login.out.value.token, later) == Ok(ClaimsFor(user, freshId))
      && user.email == email
  {
  }

  /**
   * Refreshing with the refresh token a login returned, while it is still
   * valid, touches the same session, hands the same refresh token back, and
   * issues an access token for the same user and session that in turn
   * authenticates.
   */
  lemma LoginThenRefresh(db: Db, codec: Codec, hasher: Hasher, email: string, password: string,
                         now: Time, freshId: ObjectId, later: Time)
    requires Consistent(db)
    requires SoundCodec(codec) && SignsAll(codec)
    requires now < later < now + codec.refreshTtl && later < later + codec.accessTtl
    requires LoginStep(db, codec, hasher, email, password, now, freshId).out.Ok?
    ensures var login := LoginStep(db, codec, hasher, email, password, now, freshId);
      var user := LookupEmail(db, email).value;
      var refresh := RefreshStep(login.db, codec, login.out.value.refreshToken, later);
      && refresh.out.Ok? && refresh.out.value.Some?
      && refresh.out.value.value.refreshToken == login.out.value.refreshToken
      && Some(refresh.out.value.value.token) == codec.signAccess(ClaimsFor(user, freshId), later)
      && refresh.db.sessions[freshId].updatedAt == later > login.db.sessions[freshId].updatedAt
      && AuthenticateStep(refresh.db, codec, refresh.out.value.value.token, later) == Ok(ClaimsFor(user, freshId))
  {
  }

  /**
   * Logout does not end a session: after logging out with a login's access
   * token, the same token still authenticates. The logout itself fails
   * with "no documents" unless some user happens to have the session's id.
   */
  lemma LogoutDoesNotRevoke(db: Db, codec: Codec, hasher: Hasher, email: string, password: string,
                            now: Time, freshId: ObjectId, later: Time)
    requires SoundCodec(codec)
    requires now <= later < now + codec.accessTtl
    requires LoginStep(db, codec, hasher, email, password, now, freshId).out.Ok?
    ensures var login := LoginStep(db, codec, hasher, email, password, now, freshId);
      var token := login.out.value.token;
      var logout := LogoutStep(login.db, codec, token, later);
      && (freshId !in db.users ==> logout.out == Err(NoDocuments))
      && AuthenticateStep(logout.db, codec, token, later) == Ok(ClaimsFor(LookupEmail(db, email).value, freshId))
  {
  }

  /**
   * An expired refresh token still yields its session id, which is handed to
   * the delete; the session survives, and the call fails with "no
   * documents" unless a user has that id, which is then deleted instead.
   */
  lemma ExpiredRefreshKeepsSession(db: Db, codec: Codec, hasher: Hasher, email: string, password: string,
                                   now: Time, freshId: ObjectId, later: Time)
    requires SoundCodec(codec)
    requires now + codec.refreshTtl <= later
    requires LoginStep(db, codec, hasher, email, password, now, freshId).out.Ok?
    ensures var login := LoginStep(db, codec, hasher, email, password, now, freshId);
      var refresh := RefreshStep(login.db, codec, login.out.value.refreshToken, later);
      && refresh.db.sessions == login.db.sessions
      && (freshId !in db.users ==> refresh == Step(login.db, Err(NoDocuments)))
      && (freshId in db.users ==> refresh.out == Ok(None) && refresh.db.users == db.users - {freshId})
  {
  }

  /**
   * A user created with a password can then log in with that password, and
   * the access token carries the new user's email, id, the Tenant role and
   * the new session.
   */
  lemma CreateThenLogin(db: Db, codec: Codec, hasher: Hasher, u: User, userId: ObjectId,
                        now: Time, sessionId: ObjectId)
    requires Consistent(db) && db.online
    requires SoundHasher(hasher) && SignsAll(codec)
    requires hasher.hash(u.password).Some?
    requires !EmailTaken(db.users, u.email) && userId !in db.users && sessionId !in db.sessions
    ensures var created := CreateStep(db, hasher, u, userId);
      var login := LoginStep(created.db, codec, hasher, u.email, u.password, now, sessionId);
      && created.out.Ok?
      && login.out.Ok?
      && Some(login.out.value.token) == codec.signAccess(Claims(u.email, userId, Tenant, sessionId), now)
  {
    var created := CreateStep(db, hasher, u, userId);
    assert created.out.Ok?;
    LookupEmailIsUnique(created.db, u.email, userId);
  }

  /** What `CreateUser` stores is a hash that matches the password, never the password itself. */
  lemma CreateStoresHash(db: Db, hasher: Hasher, u: User, freshId: ObjectId)
    requires SoundHasher(hasher)
    requires CreateStep(db, hasher, u, freshId).out.Ok?
    ensures var stored := CreateStep(db, hasher, u, freshId).db.users[freshId];
      && stored.password != u.password
      && hasher.check(u.password, stored.password)
      && stored.role == Tenant
  {
  }

  /**
   * With the server unreachable, the swallowed lookup error lets any
   * correctly signed access token authenticate, whether or not its session
   * exists.
   */
  lemma OutageAuthenticates(db: Db, codec: Codec, token: Token, now: Time)
    requires !db.online
    requires codec.verifyAccess(token, now).Verified?
    ensures AuthenticateStep(db, codec, token, now) == Ok(codec.verifyAccess(token, now).claims)
  {
  }

  /**
   * With the server unreachable, a refresh with a valid refresh token
   * succeeds and issues an access token built from the zero user and the
   * zero session id: every swallowed error becomes an empty record.
   */
  lemma OutageRefreshIssuesEmptyClaims(db: Db, codec: Codec, refreshToken: Token, now: Time)
    requires !db.online
    requires codec.verifyRefresh(refreshToken, now).Verified?
    requires codec.signAccess(Claims("", NilObjectId, Unset, NilObjectId), now).Some?
    ensures RefreshStep(db, codec, refreshToken, now) ==
      Step(db, Ok(Some(LoginOutput(codec.signAccess(Claims("", NilObjectId, Unset, NilObjectId), now).value, refreshToken))))
  {
  }
}
