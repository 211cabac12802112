/** The exceptions the provider lets escape to its caller. */
module Exceptions {
  import opened Uris

  datatype Exception =
    /** `UnsupportedOperationException("Unknown uri : " + uri)`. */
    | UnknownUri(uri: Uri)
    /** `SQLException("Failed to insert row into " + uri)`. */
    | FailedToInsert(uri: Uri)
    /** `IndexOutOfBoundsException` from `getPathSegments().get(index)`. */
    | IndexOutOfBounds(index: nat, size: nat)
    /** An exception thrown by the storage engine itself. */
    | StoreFailure
}
