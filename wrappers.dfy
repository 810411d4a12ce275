/** Failure-carrying results shared by every module of the model. */
module Wrappers {

  datatype Option<+T> = None | Some(value: T)

  /** The exceptions the modelled code can raise, by the condition that raises them. */
  datatype Error =
    | DoesNotExist              // `.get()` found no row
    | MultipleObjectsReturned   // `.get()` found more than one row
    | IntegrityError            // a unique column already holds the value
    | EmptyUsername             // `create_user` was given an empty username
    | MessageSchemaError        // an inbound event without a `type` field
    | MissingHandler(name: string)  // `getattr` found no handler of that name
    | MissingKey(key: string)   // an inbound event lacks a field a handler reads
    | NoAuthor                  // `self.author.username` on a message without an author
    | DecodeError               // the inbound frame is not a JSON object
    | InvalidGroupName(group: string)  // `group_send` to a name the channel layer refuses

  datatype Result<+T> = Success(value: T) | Failure(error: Error)

  /** A result that carries no value, for hooks that only have effects. */
  datatype Outcome = Pass | Fail(error: Error)
}
