/** Values shared by every part of the model: optional values, the outcome of
    a call that may throw, and the identity provider's user and session. */
module Common {

  datatype Option<+T> = None | Some(value: T) {
    function GetOr(default: T): T {
      match this
      case Some(v) => v
      case None => default
    }
  }

  /** A thrown JavaScript error; only its message is observable. */
  datatype Error = Error(message: string)

  /** The outcome of an awaited call that either returns a value or throws. */
  datatype Call<+T> = Returned(value: T) | Threw(error: Error)

  /** An authenticated identity as the identity provider reports it. */
  datatype User = User(id: string, email: string)

  /** A session of the identity provider; `user` may be absent. */
  datatype Session = Session(accessToken: string, user: Option<User>)
}
