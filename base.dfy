/** Vocabulary shared by the cache model: optional values, results and the
    errors that cross the cache's boundary. */
module Base {

  datatype Option<T> = None | Some(value: T)

  datatype Result<T> = Ok(value: T) | Err(error: Error)

  /** The errors the cache distinguishes. Go compares them by identity, so
      each sentinel is its own constructor:
      - RedisNil: the store client's "no such key" (redis.Nil);
      - ErrPlaceHolder: the cache's internal "negative entry found";
      - ErrNotFound: the public "no such record" returned by Query;
      - Failed: any other error (transport, breaker rejection, marshal
        failure, or whatever a caller's function returns), told apart by
        its text. */
  datatype Error = RedisNil | ErrPlaceHolder | ErrNotFound | Failed(reason: string)
}
