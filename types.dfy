/** The record shapes the client stores exchange with the server (IUser and
    IMessage), and the two wrappers the stores use: an optional value and the
    outcome of an awaited HTTP call. */
module Types {

  /** A document identifier (Mongo's `_id`, as the client sees it: a string). */
  type Id = string

  datatype Option<+T> = None | Some(value: T)

  /** What an awaited request yields to a store action: the response data, or
      an error thrown by the HTTP client (its details only feed a toast). */
  datatype Outcome<+T> = Ok(value: T) | Err

  /** IUser; the optional fields are `profilePic?` and `createdAt?`. */
  datatype User = User(id: Id, fullName: string, email: string, profilePic: Option<string>, createdAt: Option<string>)

  /** IMessage. */
  datatype Message = Message(id: Id, senderId: Id, receiverId: Id, image: string, text: string, createdAt: string)
}
