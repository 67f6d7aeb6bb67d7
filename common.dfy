/**
 * Values shared by the S3 `getUrl` and `downloadData` APIs of the storage
 * provider: optional values, results of calls that can throw, access levels,
 * the error kinds the APIs raise, and the bucket/key pair sent to the service.
 */
module StorageCommon {

  /** A value that may be `undefined`. */
  datatype Option<+T> = None | Some(value: T) {

    /** `this ?? default`: the value when present, otherwise `default`. */
    function GetOr(default: T): T {
      match this
      case Some(v) => v
      case None => default
    }
  }

  /** The outcome of a call that either returns a value or throws. */
  datatype Result<+T, +E> = Success(value: T) | Failure(error: E)

  /** The storage access levels; the APIs single out `Protected` only. */
  datatype AccessLevel = Guest | Protected | Private

  /** The validation error codes these two APIs raise. */
  datatype ValidationErrorCode = NoKey | UrlExpirationMaxLimitExceed

  /**
   * An error ending a call: a validation error raised by the API itself, or
   * an error thrown by a collaborator and handed on unchanged.
   */
  datatype StorageError = ValidationError(code: ValidationErrorCode) | Thrown(cause: string)

  /** `GetObjectInput` as these APIs fill it: the bucket and the full object key. */
  datatype GetObjectInput = GetObjectInput(bucket: string, key: string)
}
