/**
 * The session lifecycle (`authenticationService`): password login,
 * authentication of an access token, refresh, and logout.
 *
 * The repository calls run on the plain request context, outside the
 * transactions the service opens, so each insert, update and delete takes
 * effect at once; the transaction calls themselves change nothing and are
 * not modelled.
 */
module AuthenticationCore {
  import opened Models
  import opened Store
  import opened Foreign
  import opened AuthenticationRepo
  import opened UserRepo

  /** The session row a successful login creates. */
  function NewSession(user: User, freshId: ObjectId, now: Time): Session {
    Session(freshId, user.id, now, now)
  }

  /** The access-token claims built for a user and a session id. */
  function ClaimsFor(user: User, sessionId: ObjectId): Claims {
    Claims(user.email, user.id, user.role, sessionId)
  }

  /**
   * `PasswordLogin`: look the user up by email, check the password, insert
   * a session, and sign an access token and a refresh token for it.
   */
  ghost function LoginStep(db: Db, codec: Codec, hasher: Hasher, email: string, password: string,
                           now: Time, freshId: ObjectId): (r: Step<LoginOutput>)
    ensures r.db.users == db.users && r.db.online == db.online
    // no such user: the lookup's error, nothing stored
    ensures db.online && !EmailTaken(db.users, email) ==> r == Step(db, Err(NoDocuments))
    // wrong password: "invalid credentials", nothing stored
    ensures LookupEmail(db, email).Ok? && !hasher.check(password, LookupEmail(db, email).value.password) ==>
      r == Step(db, Err(InvalidCredentials))
    // success: exactly one new session, for that user, and tokens built from it
    ensures r.out.Ok? ==>
      var user := LookupEmail(db, email).value;
      && db.online && user in db.users.Values && user.email == email
      && hasher.check(password, user.password)
      && freshId !in db.sessions
      && r.db.sessions == db.sessions[freshId := NewSession(user, freshId, now)]
      && Some(r.out.value.token) == codec.signAccess(ClaimsFor(user, freshId), now)
      && Some(r.out.value.refreshToken) == codec.signRefresh(freshId, now)
    // a failure either stores nothing or leaves the inserted session behind
    // when signing fails after the insert
    ensures r.out.Err? ==>
      || r.db == db
      || (r.out.error == SigningFailure && freshId !in db.sessions &&
          r.db.sessions == db.sessions[freshId := NewSession(LookupEmail(db, email).value, freshId, now)])
    // a matching password with a free id inserts the session, and it stays
    // there when signing then fails
    ensures var found := LookupEmail(db, email);
      found.Ok? && db.online && hasher.check(password, found.value.password) && freshId !in db.sessions ==>
      && r.db.sessions == db.sessions[freshId := NewSession(found.value, freshId, now)]
      && (r.out.Ok? <==> codec.signAccess(ClaimsFor(found.value, freshId), now).Some? &&
                         codec.signRefresh(freshId, now).Some?)
      && (r.out.Err? ==> r.out.error == SigningFailure)
    // an unreachable server: the lookup yields the zero user, whose empty
    // hash either fails the password check or leads to an insert that fails;
    // nothing is stored
    ensures !db.online ==>
      && r.db == db
      && r.out == (if hasher.check(password, EmptyUser.password) then Err(Transport) else Err(InvalidCredentials))
    ensures Consistent(db) ==> Consistent(r.db)
  {
    match LookupEmail(db, email)
    case Err(e) => Step(db, Err(e))
    case Ok(user) =>
      if !hasher.check(password, user.password) then Step(db, Err(InvalidCredentials))
      else
        var inserted := InsertSession(db, NewSession(user, freshId, now));
        match inserted.out
        case Err(e) => Step(inserted.db, Err(e))
        case Ok(id) =>
          match codec.signAccess(ClaimsFor(user, id), now)
          case None => Step(inserted.db, Err(SigningFailure))
          case Some(token) =>
            match codec.signRefresh(id, now)
            case None => Step(inserted.db, Err(SigningFailure))
            case Some(refreshToken) => Step(inserted.db, Ok(LoginOutput(token, refreshToken)))
  }

  /**
   * `Authenticate`: verify the access token, then look its session up. It
   * reads and never writes.
   */
  function AuthenticateStep(db: Db, codec: Codec, token: Token, now: Time): (r: Result<Claims>)
    ensures codec.verifyAccess(token, now).Rejected? ==>
      r == Err(TokenRejected(codec.verifyAccess(token, now).fault))
    ensures r.Ok? ==> codec.verifyAccess(token, now) == Verified(r.value)
    ensures codec.verifyAccess(token, now).Verified? && db.online ==>
      (r.Ok? <==> codec.verifyAccess(token, now).claims.sessionId in db.sessions)
    ensures r.Err? && codec.verifyAccess(token, now).Verified? ==> r == Err(NoDocuments)
  {
    match codec.verifyAccess(token, now)
    case Rejected(_, fault) => Err(TokenRejected(fault))
    case Verified(claims) =>
      match LookupSession(db, claims.sessionId)
      case Err(e) => Err(e)
      case Ok(_) => Ok(claims)
  }

  /**
   * `RefreshLogin`. A refresh token that fails verification but still
   * yields a session id triggers `DeleteOneById` on that id, and the call
   * then returns the deletion's error, or nothing at all when the deletion
   * succeeds. A valid token's session is found, touched, and its owner
   * looked up; a new access token is signed for them and returned with the
   * caller's refresh token.
   */
  ghost function RefreshStep(db: Db, codec: Codec, refreshToken: Token, now: Time): (r: Step<Option<LoginOutput>>)
    ensures r.db.online == db.online
    // no refresh ever creates or removes a session row
    ensures r.db.sessions.Keys == db.sessions.Keys
    ensures r.out.Ok? && r.out.value.Some? ==>
      && r.out.value.value.refreshToken == refreshToken
      && codec.verifyRefresh(refreshToken, now).Verified?
    // success with a reachable server: the verified session is touched, and
    // the new access token carries its id and its owner's attributes
    ensures r.out.Ok? && r.out.value.Some? && db.online && Consistent(db) ==>
      var sid := codec.verifyRefresh(refreshToken, now).claims;
      && sid in db.sessions
      && db.sessions[sid].userId in db.users
      && r.db.users == db.users
      && r.db.sessions == db.sessions[sid := db.sessions[sid].(updatedAt := now)]
      && Some(r.out.value.value.token) == codec.signAccess(ClaimsFor(db.users[db.sessions[sid].userId], sid), now)
    // a valid token whose session is gone: "no documents", nothing changes
    ensures codec.verifyRefresh(refreshToken, now).Verified? && db.online &&
            codec.verifyRefresh(refreshToken, now).claims !in db.sessions ==>
      r == Step(db, Err(NoDocuments))
    // a rejected token: the recovered id is deleted from the users collection
    ensures codec.verifyRefresh(refreshToken, now).Rejected? ==>
      match codec.verifyRefresh(refreshToken, now).recovered
      case None => r == Step(db, Err(TokenRejected(codec.verifyRefresh(refreshToken, now).fault)))
      case Some(sid) => r == (var d := DeleteById(db, sid); Step(d.db, if d.out.Ok? then Ok(None) else Err(d.out.error)))
    // a valid token whose session exists: the touch is kept even when the
    // owner lookup or the signing fails afterwards
    ensures codec.verifyRefresh(refreshToken, now).Verified? && db.online && Consistent(db) &&
            codec.verifyRefresh(refreshToken, now).claims in db.sessions ==>
      var sid := codec.verifyRefresh(refreshToken, now).claims;
      && r.db == db.(sessions := db.sessions[sid := db.sessions[sid].(updatedAt := now)])
      && (db.sessions[sid].userId !in db.users ==> r.out == Err(NoDocuments))
      && (db.sessions[sid].userId in db.users ==>
           && (r.out.Ok? <==> codec.signAccess(ClaimsFor(db.users[db.sessions[sid].userId], sid), now).Some?)
           && (r.out.Err? ==> r.out == Err(SigningFailure)))
      && (r.out.Err? ==> r.out == Err(NoDocuments) || r.out == Err(SigningFailure))
    // an unreachable server: every repository error is swallowed and nothing changes
    ensures !db.online ==> r.db == db
    // "no output and no error" comes only from the rejected-token delete; a
    // verified token that succeeds always hands back tokens
    ensures r.out == Ok(None) ==> codec.verifyRefresh(refreshToken, now).Rejected?
    ensures Consistent(db) ==> Consistent(r.db)
  {
    match codec.verifyRefresh(refreshToken, now)
    case Rejected(None, fault) => Step(db, Err(TokenRejected(fault)))
    case Rejected(Some(sid), _) =>
      var deleted := DeleteById(db, sid);
      Step(deleted.db, if deleted.out.Ok? then Ok(None) else Err(deleted.out.error))
    case Verified(sid) =>
      match LookupSession(db, sid)
      case Err(e) => Step(db, Err(e))
      case Ok(found) =>
        var touched := TouchSession(db, found, now);
        match touched.out
        case Err(e) => Step(touched.db, Err(e))
        case Ok(session) =>
          match LookupUser(touched.db, session.userId)
          case Err(e) => Step(touched.db, Err(e))
          case Ok(user) =>
            match codec.signAccess(ClaimsFor(user, session.id), now)
            case None => Step(touched.db, Err(SigningFailure))
            case Some(token) => Step(touched.db, Ok(Some(LoginOutput(token, refreshToken))))
  }

  /**
   * `Logout`: whatever claims the access token yields, valid or not, name
   * the session id handed to `DeleteOneById`; its error is returned. A
   * token yielding no claims is a success that deletes nothing.
   */
  function LogoutStep(db: Db, codec: Codec, token: Token, now: Time): (r: Step<()>)
    // logout never removes a session row
    ensures r.db.sessions == db.sessions && r.db.online == db.online
    ensures Decoded(codec.verifyAccess(token, now)).None? ==> r == Step(db, Ok(()))
    ensures Decoded(codec.verifyAccess(token, now)).Some? ==>
      var sid := Decoded(codec.verifyAccess(token, now)).value.sessionId;
      && (r.out.Err? <==> db.online && sid !in db.users)
      && (r.out.Err? ==> r == Step(db, Err(NoDocuments)))
      && (db.online ==> r.db.users == db.users - {sid})
    // an unreachable server: the delete's error is swallowed, so logout
    // succeeds and changes nothing
    ensures !db.online ==> r == Step(db, Ok(()))
    ensures Consistent(db) ==> Consistent(r.db)
  {
    match Decoded(codec.verifyAccess(token, now))
    case None => Step(db, Ok(()))
    case Some(claims) =>
      var deleted := DeleteById(db, claims.sessionId);
      match deleted.out
      case Err(e) => Step(deleted.db, Err(e))
      case Ok(_) => Step(deleted.db, Ok(()))
  }

  /** `authenticationService`, wired to two repositories over one database. */
  class AuthenticationService {
    const db: Database
    const authenticationRepository: AuthenticationRepository
    const userRepository: UserRepository
    const codec: Codec
    const hasher: Hasher

    ghost predicate Valid()
      reads db
    {
      && authenticationRepository.db == db
      && userRepository.db == db
      && db.Valid()
    }

    constructor (db: Database, codec: Codec, hasher: Hasher)
      requires db.Valid()
      ensures Valid()
      ensures this.db == db && this.codec == codec && this.hasher == hasher
    {
      this.db := db;
      this.codec := codec;
      this.hasher := hasher;
      authenticationRepository := new AuthenticationRepository(db);
      userRepository := new UserRepository(db);
    }

    method PasswordLogin(email: string, password: string, now: Time, freshId: ObjectId) returns (r: Result<LoginOutput>)
      requires Valid()
      modifies db
      ensures Valid()
      ensures Step(db.State(), r) == LoginStep(old(db.State()), codec, hasher, email, password, now, freshId)
    {
      var found := userRepository.FindOneByEmail(email);
      if found.Err? {
        return Err(found.error);
      }
      var user := found.value;
      if !hasher.check(password, user.password) {
        return Err(InvalidCredentials);
      }
      var inserted := authenticationRepository.InsertOne(NewSession(user, freshId, now));
      if inserted.Err? {
        return Err(inserted.error);
      }
      var id := inserted.value;
      var token := codec.signAccess(ClaimsFor(user, id), now);
      if token.None? {
        return Err(SigningFailure);
      }
      var refreshToken := codec.signRefresh(id, now);
      if refreshToken.None? {
        return Err(SigningFailure);
      }
      r := Ok(LoginOutput(token.value, refreshToken.value));
    }

    method Authenticate(token: Token, now: Time) returns (r: Result<Claims>)
      requires Valid()
      ensures r == AuthenticateStep(db.State(), codec, token, now)
    {
      var verdict := codec.verifyAccess(token, now);
      if verdict.Rejected? {
        return Err(TokenRejected(verdict.fault));
      }
      var found := authenticationRepository.FindOneById(verdict.claims.sessionId);
      if found.Err? {
        return Err(found.error);
      }
      r := Ok(verdict.claims);
    }

    method RefreshLogin(refreshToken: Token, now: Time) returns (r: Result<Option<LoginOutput>>)
      requires Valid()
      modifies db
      ensures Valid()
      ensures Step(db.State(), r) == RefreshStep(old(db.State()), codec, refreshToken, now)
    {
      var verdict := codec.verifyRefresh(refreshToken, now);
      if verdict.Rejected? {
        if verdict.recovered.Some? {
          var deleted := authenticationRepository.DeleteOneById(verdict.recovered.value);
          if deleted.Err? {
            return Err(deleted.error);
          }
          return Ok(None);
        }
        return Err(TokenRejected(verdict.fault));
      }
      var found := authenticationRepository.FindOneById(verdict.claims);
      if found.Err? {
        return Err(found.error);
      }
      var touched := authenticationRepository.UpdateOne(found.value, now);
      var session;
      match touched {
        case Err(e) => return Err(e);
        case Ok(s) => session := s;
      }
      var owner := userRepository.FindOneById(session.userId);
      if owner.Err? {
        return Err(owner.error);
      }
      var token := codec.signAccess(ClaimsFor(owner.value, session.id), now);
      if token.None? {
        return Err(SigningFailure);
      }
      r := Ok(Some(LoginOutput(token.value, refreshToken)));
    }

    method Logout(token: Token, now: Time) returns (r: Result<()>)
      requires Valid()
      modifies db
      ensures Valid()
      ensures Step(db.State(), r) == LogoutStep(old(db.State()), codec, token, now)
    {
      var claims := Decoded(codec.verifyAccess(token, now));
      if claims.Some? {
        var deleted := authenticationRepository.DeleteOneById(claims.value.sessionId);
        if deleted.Err? {
          return Err(deleted.error);
        }
      }
      r := Ok(());
    }
  }
}
