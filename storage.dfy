/** The hosted storage bucket both the backend and the web client upload
    photos into: a set of object names. */
module Storage {
  import opened Common

  /** The storage service's answer to an upload, without `upsert`, onto a
      name the bucket already holds. */
  const DuplicateObjectMessage := "The resource already exists"

  /** The error the storage service reports for uploading `name`, if any:
      an error of its own (`uploadError`, an input) or a name it already
      holds. */
  function UploadFailure(uploadError: Option<string>, name: string, storage: set<string>): (e: Option<string>)
    ensures name in storage ==> e.Some?
    ensures uploadError.Some? ==> e == uploadError
    ensures e.None? <==> uploadError.None? && name !in storage
  {
    if uploadError.Some? then uploadError
    else if name in storage then Some(DuplicateObjectMessage)
    else None
  }
}
