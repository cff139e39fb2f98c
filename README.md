# S3 encryption error model and Fraud Detector `ModelInputConfiguration`, in Dafny

This project models two small pieces of the AWS SDK for C++:

- From the S3 encryption client (`S3EncryptionClient.h`): the unified error value
  `S3EncryptionErrors`, which holds either a cryptographic error or an S3 transport error
  under a domain flag; the builder `BuildS3EncryptionError`, which re-wraps an error of
  either domain as an `AWSError<S3EncryptionErrors>`; and the client's
  `MultipartUploadSupported`, which is always false.
- From the Fraud Detector request model (`ModelInputConfiguration.cpp`): the record
  `ModelInputConfiguration` with its four optional fields (`format`, `isOpaque`,
  `jsonInputTemplate`, `csvInputTemplate`) and their "has been set" flags, its default and
  JSON constructors, its assignment from a JSON object and its `Jsonize` serialiser.

Files:

- `wrappers.dfy` — module `Wrappers`, an `Option` type.
- `s3_encryption_client.dfy` — module `S3Encryption`. The union and its flag become one
  datatype arm per domain. The C++ template picks the converting constructor by the
  error's type; here that choice is the function parameter `toUnified` of
  `BuildS3EncryptionError`, and `BuildFromS3Error` and `BuildFromCryptoError` are the two
  instantiations.
- `model_input_configuration.dfy` — module `FraudDetectorModel`. The record is a class
  whose eight fields the constructors and `Assign` update in place. `Snapshot()` gives its
  value as a `Settings` datatype. The specification functions `FromJson` and `ToJson` work
  on that value, and the lemmas relate them. The JSON object is a `map` from member name to
  a scalar `JsonValue`.

Modelling of library code that the core calls but that is not part of this model:

- `JsonView::ValueExists(key)` is true when the member is present and not null.
- `GetString` of a member that is not a string gives the empty string.
- `GetBool` gives a boolean's value, true for a non-zero number, and false otherwise.
- `ModelInputDataFormatMapper` is a pair of arbitrary total functions (`FormatMapper`).
  Every property about `format` that needs the two functions to be inverse has that as a
  hypothesis.
- The `CryptoErrors` and `S3Errors` enumerations are represented by their numeric values.
- An `AWSError` has only the six attributes the builder touches. A freshly constructed
  error starts with response code `RequestNotMade` (-1) and no headers before the builder
  sets them.
- The client is represented by its `CryptoConfiguration` (crypto mode and storage method).

## Model

| member | source | states |
|---|---|---|
| `S3Encryption.S3EncryptionErrors.IsS3Error` | aws-cpp-sdk-s3-encryption/include/aws/s3-encryption/S3EncryptionClient.h:22 | `IsS3Error` reads the domain flag: it is true exactly when the S3 payload is the one stored |
| `S3Encryption.S3EncryptionErrors.IsCryptoError` | aws-cpp-sdk-s3-encryption/include/aws/s3-encryption/S3EncryptionClient.h:22-23 | `IsCryptoError` is exactly the negation of `IsS3Error`, and it is true exactly when the crypto payload is the one stored |
| `S3Encryption.FromCryptoError` | aws-cpp-sdk-s3-encryption/include/aws/s3-encryption/S3EncryptionClient.h:19 | converting from a crypto error gives `IsCryptoError()` true and `IsS3Error()` false, and the stored crypto payload is the argument |
| `S3Encryption.FromS3Error` | aws-cpp-sdk-s3-encryption/include/aws/s3-encryption/S3EncryptionClient.h:20 | converting from an S3 error gives `IsS3Error()` true and `IsCryptoError()` false, and the stored S3 payload is the argument |
| `S3Encryption.BuildS3EncryptionError` | aws-cpp-sdk-s3-encryption/include/aws/s3-encryption/S3EncryptionClient.h:33-40 | the built error's type is the converted input type; exception name, message, retry flag, response code and response headers are those of the input |
| `S3Encryption.BuildFromS3Error` | aws-cpp-sdk-s3-encryption/include/aws/s3-encryption/S3EncryptionClient.h:34-39 | built from an `AWSError<S3Errors>`, the result is an S3-domain error carrying the same `S3Errors` value, with the five other modelled attributes preserved |
| `S3Encryption.BuildFromCryptoError` | aws-cpp-sdk-s3-encryption/include/aws/s3-encryption/S3EncryptionClient.h:34-39 | built from an `AWSError<CryptoErrors>`, the result is a crypto-domain error carrying the same `CryptoErrors` value, with the five other modelled attributes preserved |
| `S3Encryption.AsS3Error` | aws-cpp-sdk-s3-encryption/include/aws/s3-encryption/S3EncryptionClient.h:22-28 | no such function exists in the source: this stands for a caller's test of `IsS3Error()` followed by a read of the public `s3Error` union member; that read succeeds exactly when `IsS3Error()`, and gives the stored `s3Error` with the same details |
| `S3Encryption.AsCryptoError` | aws-cpp-sdk-s3-encryption/include/aws/s3-encryption/S3EncryptionClient.h:22-28 | no such function exists in the source: this stands for a caller's test of `IsCryptoError()` followed by a read of the public `cryptoError` union member; that read succeeds exactly when `IsCryptoError()`, and gives the stored `cryptoError` with the same details |
| `S3Encryption.BuildFromS3ErrorReadsBack` | aws-cpp-sdk-s3-encryption/include/aws/s3-encryption/S3EncryptionClient.h:34-39 | wrapping an S3 error and reading its S3 arm gives back the original error on all six modelled attributes; its crypto arm is empty |
| `S3Encryption.BuildFromCryptoErrorReadsBack` | aws-cpp-sdk-s3-encryption/include/aws/s3-encryption/S3EncryptionClient.h:34-39 | wrapping a crypto error and reading its crypto arm gives back the original error on all six modelled attributes; its S3 arm is empty |
| `S3Encryption.S3EncryptionClient.MultipartUploadSupported` | aws-cpp-sdk-s3-encryption/include/aws/s3-encryption/S3EncryptionClient.h:82 | false for every client, whatever its configuration |
| `FraudDetectorModel.FromJson` | aws-cpp-sdk-frauddetector/source/model/ModelInputConfiguration.cpp:42-73 | a field's flag is set afterwards iff it was set before or its member exists; a field whose member is absent keeps its value and flag; a field whose member exists takes the member's value (the format through the mapper) |
| `FraudDetectorModel.ToJson` | aws-cpp-sdk-frauddetector/source/model/ModelInputConfiguration.cpp:75-103 | a member appears iff its field's flag is set; the keys are a subset of the four field names; each member holds its field's value (the format by the mapper's name) |
| `FraudDetectorModel.DefaultIsEmpty` | aws-cpp-sdk-frauddetector/source/model/ModelInputConfiguration.cpp:21-29 | the default record has no flag set and serialises to the empty object |
| `FraudDetectorModel.FromJsonIdempotent` | aws-cpp-sdk-frauddetector/source/model/ModelInputConfiguration.cpp:42-73 | assigning the same JSON object twice gives the same record as assigning it once |
| `FraudDetectorModel.RoundTrip` | aws-cpp-sdk-frauddetector/source/model/ModelInputConfiguration.cpp:44-100 | reading `Jsonize(c)` into a default record restores every flag of `c` and the `isOpaque` and template values it set; the format comes back as the mapper's name-to-format of its format-to-name; unset fields stay default |
| `FraudDetectorModel.DefaultUnsetAreDefault` | aws-cpp-sdk-frauddetector/source/model/ModelInputConfiguration.cpp:21-40 | both constructors start from a record whose unset fields hold the default values |
| `FraudDetectorModel.FromJsonPreservesDefaults` | aws-cpp-sdk-frauddetector/source/model/ModelInputConfiguration.cpp:44-70 | assignment from JSON writes a field only together with its flag, so a record whose unset fields hold defaults keeps that property; with the previous row, every record the class can reach meets the hypothesis of the exact round trip |
| `FraudDetectorModel.RoundTripExact` | aws-cpp-sdk-frauddetector/source/model/ModelInputConfiguration.cpp:44-100 | when the mapper is inverse on the stored format and unset fields hold defaults, reading `Jsonize(c)` into a default record gives exactly `c` |
| `FraudDetectorModel.ReadThenWrite` | aws-cpp-sdk-frauddetector/source/model/ModelInputConfiguration.cpp:42-103 | for a well-typed JSON object, assigning it to a default record and serialising gives back exactly its four known non-null members |
| `FraudDetectorModel.ModelInputConfiguration.constructor` | aws-cpp-sdk-frauddetector/source/model/ModelInputConfiguration.cpp:21-29 | the default constructor leaves all flags false, format `NOT_SET`, `isOpaque` false and empty templates |
| `FraudDetectorModel.ModelInputConfiguration.FromJsonView` | aws-cpp-sdk-frauddetector/source/model/ModelInputConfiguration.cpp:31-40 | the JSON constructor gives the same record as default construction followed by assignment from that object |
| `FraudDetectorModel.ModelInputConfiguration.Assign` | aws-cpp-sdk-frauddetector/source/model/ModelInputConfiguration.cpp:42-73 | assignment updates the fields in place so that the new value is `FromJson` of the old value |
| `FraudDetectorModel.ModelInputConfiguration.Jsonize` | aws-cpp-sdk-frauddetector/source/model/ModelInputConfiguration.cpp:75-103 | the payload built member by member is `ToJson` of the record's value |

## Left out

- `PutObject`, `GetObject`, `GetInstructionFileObject` and the client constructors: only declared in the header; they are S3 network I/O through the S3 client.
- The crypto module factory, encryption materials, the crypto configuration's behaviour and all cipher and authentication-tag work: not part of this model; these are cryptographic calls whose code is not available.
- The default constructor of `S3EncryptionErrors`: it leaves the domain flag uninitialised, so no property holds of its result.
- The overlapping storage of the C++ `union`: a tagged datatype with one arm per domain stands for it.
- Attributes of `AWSError` other than the six the builder touches (request id, remote host address, error payload): the `AWSError` class is not part of this model. The builder does not carry these attributes over, so the built error holds them at their default values; the read-back lemmas speak only of the six modelled attributes.
- The JSON library (`JsonView`, `JsonValue`) and `ModelInputDataFormatMapper`: not part of this model; they are represented as described above, and nested arrays and objects are not looked into.
- JSON numbers: the JSON library stores them as floating-point values; here they are integers, so fractional numbers are not represented, and `GetBool` returning true for a non-zero number is an assumption about library code not part of this model. It matters only for an `isOpaque` member that is not a boolean.
- Shared ownership of the encryption materials and the client's unique pointer to the S3 client: resource management and thread safety, not modelled.
