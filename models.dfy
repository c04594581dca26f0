/**
 * The values the authentication service stores and exchanges: object ids,
 * instants, the session and user documents, access-token claims, the
 * login output and the errors the repositories and services return.
 */
module Models {

  /** A MongoDB ObjectID, abstracted to a number. */
  type ObjectId = nat

  /** `primitive.NilObjectID`, the zero ObjectID. */
  const NilObjectId: ObjectId := 0

  /** A wall-clock instant, as read from `time.Now`. */
  type Time = int

  /** Go's zero `time.Time`. */
  const ZeroTime: Time := 0

  datatype Option<+T> = None | Some(value: T)

  /** A user's role; `Unset` is the zero value of the role field. */
  datatype Role = Unset | Tenant | Other(name: string)

  /** A row of the `sessions` collection (`models.Session`). */
  datatype Session = Session(id: ObjectId, userId: ObjectId, createdAt: Time, updatedAt: Time)

  /** The zero `models.Session{}` a repository hands back when it swallows a driver error. */
  const EmptySession := Session(NilObjectId, NilObjectId, ZeroTime, ZeroTime)

  /** A row of the `users` collection (`models.User`); `password` holds the hash. */
  datatype User = User(id: ObjectId, email: string, password: string, role: Role)

  /** The zero `models.User{}`. */
  const EmptyUser := User(NilObjectId, "", "", Unset)

  /** The custom claims carried by an access token (`models.JwtCustomClaims`). */
  datatype Claims = Claims(email: string, userId: ObjectId, role: Role, sessionId: ObjectId)

  type Token = string

  /** `models.LoginOutput`: an access token and a refresh token. */
  datatype LoginOutput = LoginOutput(token: Token, refreshToken: Token)

  /** Why the token library rejected a token. */
  datatype TokenFault = Malformed | BadSignature | Expired

  /** The errors the calls of this service can return. */
  datatype Error =
    | NoDocuments                    // mongo.ErrNoDocuments
    | Transport                      // any other driver error: the server did not answer
    | DuplicateKey                   // an insert whose _id is already stored
    | RecordExists                   // "record exists"
    | InvalidCredentials             // "invalid credentials"
    | HashFailure                    // the password hasher failed
    | SigningFailure                 // the token library could not sign
    | TokenRejected(fault: TokenFault)

  /** A Go `(value, error)` pair in which exactly one side is set. */
  datatype Result<+T> = Ok(value: T) | Err(error: Error)

  /**
   * A `*models.User` handed to the user repository and service, which
   * overwrite its fields in place.
   */
  class UserRecord {
    var id: ObjectId
    var email: string
    var password: string
    var role: Role

    /** The document this record currently holds. */
    function Value(): User
      reads this
    {
      User(id, email, password, role)
    }

    constructor (u: User)
      ensures Value() == u
    {
      id, email, password, role := u.id, u.email, u.password, u.role;
    }
  }
}
