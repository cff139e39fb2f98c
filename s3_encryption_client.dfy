/**
  The unified error value of the S3 encryption client, the builder that re-wraps an
  error of either domain (S3 transport or cryptography) as that unified error, and the
  client's multipart-upload capability flag.
*/
module S3Encryption {
  import opened Wrappers

  /** A value of the cryptographic library's `CryptoErrors` enumeration, by its numeric value. */
  datatype CryptoErrors = CryptoErrors(code: int)

  /** A value of the S3 client's `S3Errors` enumeration, by its numeric value. */
  datatype S3Errors = S3Errors(code: int)

  /**
    `S3EncryptionErrors`: a union holding either a crypto error or an S3 error, with a
    flag telling which. The flag and the union become one arm per domain.
  */
  datatype S3EncryptionErrors = CryptoError(cryptoError: CryptoErrors) | S3Error(s3Error: S3Errors)
  {
    /** Reads the stored domain flag; it is true exactly when the S3 payload is the one stored. */
    function IsS3Error(): (r: bool)
      ensures r <==> S3Error?
    {
      S3Error?
    }

    /** The complement of the domain flag; it is true exactly when the crypto payload is the one stored. */
    function IsCryptoError(): (r: bool)
      ensures r <==> CryptoError?
      ensures r != IsS3Error()
    {
      !IsS3Error()
    }
  }

  /** The converting constructor from a crypto error: clears the S3 flag and stores the payload. */
  function FromCryptoError(error: CryptoErrors): (r: S3EncryptionErrors)
    ensures r.IsCryptoError() && !r.IsS3Error()
    ensures r.CryptoError? && r.cryptoError == error
  {
    CryptoError(error)
  }

  /** The converting constructor from an S3 error: sets the S3 flag and stores the payload. */
  function FromS3Error(error: S3Errors): (r: S3EncryptionErrors)
    ensures r.IsS3Error() && !r.IsCryptoError()
    ensures r.S3Error? && r.s3Error == error
  {
    S3Error(error)
  }

  /**
    The attributes of an `AWSError<E>` that the builder reads and writes: the error type,
    the exception name, the message, the retry flag, the HTTP response code and the
    response headers.
  */
  datatype AWSError<E> = AWSError(
    errorType: E,
    exceptionName: string,
    message: string,
    shouldRetry: bool,
    responseCode: int,
    responseHeaders: map<string, string>)

  /** The response code a freshly constructed error carries before one is set. */
  const RequestNotMade: int := -1

  /** Two errors, possibly of different error types, agree on everything but the error type. */
  predicate SameDetails<A, B>(a: AWSError<A>, b: AWSError<B>) {
    && a.exceptionName == b.exceptionName
    && a.message == b.message
    && a.shouldRetry == b.shouldRetry
    && a.responseCode == b.responseCode
    && a.responseHeaders == b.responseHeaders
  }

  /** The same error details carried under another error type. */
  function Retyped<A, B>(error: AWSError<A>, errorType: B): AWSError<B> {
    AWSError(errorType, error.exceptionName, error.message, error.shouldRetry, error.responseCode, error.responseHeaders)
  }

  /**
    `BuildS3EncryptionError<ERROR_TYPE>`: a new unified error from the four constructor
    arguments, then the response code and headers set on it. The implicit conversion the
    C++ compiler picks for ERROR_TYPE is the parameter `toUnified`.
  */
  function BuildS3EncryptionError<E>(error: AWSError<E>, toUnified: E -> S3EncryptionErrors): (r: AWSError<S3EncryptionErrors>)
    ensures r.errorType == toUnified(error.errorType)
    ensures SameDetails(r, error)
  {
    var built := AWSError(toUnified(error.errorType), error.exceptionName, error.message, error.shouldRetry,
                          RequestNotMade, map[]);
    built.(responseCode := error.responseCode).(responseHeaders := error.responseHeaders)
  }

  /** The builder instantiated at `S3Errors`: the result is an S3-domain error with the same payload. */
  function BuildFromS3Error(error: AWSError<S3Errors>): (r: AWSError<S3EncryptionErrors>)
    ensures r.errorType.IsS3Error() && !r.errorType.IsCryptoError()
    ensures r.errorType.S3Error? && r.errorType.s3Error == error.errorType
    ensures SameDetails(r, error)
  {
    BuildS3EncryptionError(error, FromS3Error)
  }

  /** The builder instantiated at `CryptoErrors`: the result is a crypto-domain error with the same payload. */
  function BuildFromCryptoError(error: AWSError<CryptoErrors>): (r: AWSError<S3EncryptionErrors>)
    ensures r.errorType.IsCryptoError() && !r.errorType.IsS3Error()
    ensures r.errorType.CryptoError? && r.errorType.cryptoError == error.errorType
    ensures SameDetails(r, error)
  {
    BuildS3EncryptionError(error, FromCryptoError)
  }

  /** What a caller reads back through `IsS3Error` and the `s3Error` member of the union. */
  function AsS3Error(error: AWSError<S3EncryptionErrors>): (r: Option<AWSError<S3Errors>>)
    ensures r.Some? <==> error.errorType.IsS3Error()
    ensures r.Some? ==> SameDetails(r.value, error) && r.value.errorType == error.errorType.s3Error
  {
    match error.errorType
    case S3Error(e) => Some(Retyped(error, e))
    case CryptoError(_) => None
  }

  /** What a caller reads back through `IsCryptoError` and the `cryptoError` member of the union. */
  function AsCryptoError(error: AWSError<S3EncryptionErrors>): (r: Option<AWSError<CryptoErrors>>)
    ensures r.Some? <==> error.errorType.IsCryptoError()
    ensures r.Some? ==> SameDetails(r.value, error) && r.value.errorType == error.errorType.cryptoError
  {
    match error.errorType
    case CryptoError(e) => Some(Retyped(error, e))
    case S3Error(_) => None
  }

  /** None of the six modelled attributes of an S3 error is lost by wrapping it: reading it back gives them all. */
  lemma BuildFromS3ErrorReadsBack(error: AWSError<S3Errors>)
    ensures AsS3Error(BuildFromS3Error(error)) == Some(error)
    ensures AsCryptoError(BuildFromS3Error(error)) == None
  {
  }

  /** None of the six modelled attributes of a crypto error is lost by wrapping it: reading it back gives them all. */
  lemma BuildFromCryptoErrorReadsBack(error: AWSError<CryptoErrors>)
    ensures AsCryptoError(BuildFromCryptoError(error)) == Some(error)
    ensures AsS3Error(BuildFromCryptoError(error)) == None
  {
  }

  /** How the client encrypts: the crypto mode of its configuration. */
  datatype CryptoMode = EncryptionOnly | AuthenticatedEncryption | StrictAuthenticatedEncryption

  /** Where the client keeps the encryption instruction of an object. */
  datatype StorageMethod = Metadata | InstructionFile

  /** The client's immutable crypto configuration. */
  datatype CryptoConfiguration = CryptoConfiguration(cryptoMode: CryptoMode, storageMethod: StorageMethod)

  /** The encryption client, by the configuration it was built with. */
  datatype S3EncryptionClient = S3EncryptionClient(cryptoConfig: CryptoConfiguration)
  {
    /** Multipart upload is never offered, whatever the configuration. */
    function MultipartUploadSupported(): (r: bool)
      ensures !r
    {
      false
    }
  }
}
