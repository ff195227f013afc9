/** Failure-carrying values shared by the models. */
module Wrappers {

  datatype Option<T> = None | Some(value: T)

  datatype Result<T, E> = Success(value: T) | Failure(error: E)

  /** What a store operation that can raise part-way left behind: the state
      after it, and whether an exception (FriendList.DoesNotExist, an
      IntegrityError) escaped before the operation finished. Nothing is
      rolled back: the code runs without a transaction. */
  datatype Effect<T> = Effect(after: T, raised: bool)
}
