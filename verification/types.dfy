/**
  Data model of the account/session core: user records, session tokens,
  and the status-code-plus-message errors and responses the controllers
  produce. A stored password is a string, as in the source: a digest
  string, or whatever plaintext a request managed to persist.
 */
module AuthTypes {

  /** A request or record field that may be missing (`undefined` in the source). */
  datatype Option<T> = None | Some(value: T)

  /** The identifier the store assigns to a record when it is created. */
  type Id = nat

  /**
    A signed session token, opaque to the controllers. It names the subject
    it was issued for, and carries a serial number that makes every issued
    token distinct from all earlier ones.
   */
  datatype Token = Token(subject: Id, serial: nat)

  /** One user record of the store. */
  datatype User = User(
    email: string,
    password: string,
    token: Option<Token>,
    name: Option<string>,
    subscription: Option<string>,
    avatarURL: string)

  /** An error thrown by a controller: an HTTP status code and a message. */
  datatype HttpError = HttpError(status: nat, message: string)

  /** The JSON payload of a successful response. */
  datatype Body =
    | Session(token: Token, user: User)
    | EmailAndSubscription(email: string, subscription: Option<string>)
    | Document(user: User)
    | NoContent

  /** A successful response: status code and payload. */
  datatype Response = Response(status: nat, body: Body)

  /** Either a value or the error a controller throws. */
  datatype Result<T> = Ok(value: T) | Err(error: HttpError)
}
