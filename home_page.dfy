/**
 * The home page's PDF upload to object storage: the file chosen in the file
 * input, whether an upload is running, and the message shown.
 *
 * The storage service is modelled by the log of uploads it has been asked
 * for; the result of each upload is a parameter of the step that receives
 * it. `pending` counts the uploads issued whose result has not yet arrived.
 */
module HomePage {
  import opened Wrappers
  import opened Model

  const Bucket := "resumes"
  const KeyPrefix := "public/"
  const SuccessMessage := "Upload successful!"
  const FailurePrefix := "Upload failed: "

  datatype UploadOptions = UploadOptions(cacheControl: string, upsert: bool)

  /** One hour of caching, and no overwriting of an object that already exists. */
  const ResumeUploadOptions := UploadOptions("3600", false)

  datatype StorageUpload = StorageUpload(bucket: string, path: string, file: File, options: UploadOptions)
  datatype StorageError = StorageError(message: string)

  /** The object key of an uploaded file: its name under `public/`. */
  function ObjectKey(file: File): (key: string)
    ensures |key| == |KeyPrefix| + |file.name|
    ensures key[..|KeyPrefix|] == KeyPrefix && key[|KeyPrefix|..] == file.name
  {
    KeyPrefix + file.name
  }

  /** Different file names never share an object key. */
  lemma ObjectKeyInjective(f: File, g: File)
    requires ObjectKey(f) == ObjectKey(g)
    ensures f.name == g.name
  {
    assert f.name == ObjectKey(f)[|KeyPrefix|..];
  }

  /**
   * The message for the storage result: the success text exactly when there
   * is no error, and otherwise the failure prefix followed by the error's
   * own message, which can be read back from it.
   */
  function UploadMessage(error: Option<StorageError>): (m: string)
    ensures error.None? <==> m == SuccessMessage
    ensures error.Some? ==>
      |m| == |FailurePrefix| + |error.value.message|
      && m[..|FailurePrefix|] == FailurePrefix && m[|FailurePrefix|..] == error.value.message
  {
    if error.Some? then
      var m := FailurePrefix + error.value.message;
      assert m[7] == 'f' != SuccessMessage[7];
      m
    else SuccessMessage
  }

  /** The storage bucket client: the uploads asked of it so far, oldest first. */
  class Storage {
    var uploads: seq<StorageUpload>

    constructor()
      ensures uploads == []
    {
      uploads := [];
    }

    method Upload(bucket: string, path: string, file: File, options: UploadOptions)
      modifies this
      ensures uploads == old(uploads) + [StorageUpload(bucket, path, file, options)]
    {
      uploads := uploads + [StorageUpload(bucket, path, file, options)];
    }
  }

  class Home {
    const storage: Storage
    var selectedFile: Option<File>
    var uploading: bool
    var message: Option<string>
    var pending: nat

    constructor(storage: Storage)
      ensures this.storage == storage && selectedFile == None && !uploading && message == None && pending == 0
    {
      this.storage := storage;
      selectedFile := None;
      uploading := false;
      message := None;
      pending := 0;
    }

    /** The user picks a file in the input, or clears it. */
    method SelectFile(file: Option<File>)
      modifies this
      ensures selectedFile == file && uploading == old(uploading) && message == old(message) && pending == old(pending)
    {
      selectedFile := file;
    }

    /**
     * `handleUpload` up to its `await`: a missing file, then a file that is
     * not a PDF, is reported and nothing is uploaded; an accepted file
     * starts the upload state with the message cleared and is sent to the
     * `resumes` bucket under its object key, without overwriting.
     */
    method HandleUpload()
      modifies this, storage
      ensures selectedFile == old(selectedFile)
      ensures PdfProblem(old(selectedFile)).Some? ==>
        message == PdfProblem(old(selectedFile)) && uploading == old(uploading) && pending == old(pending)
        && storage.uploads == old(storage.uploads)
      ensures PdfProblem(old(selectedFile)).None? ==>
        uploading && message == None && pending == old(pending) + 1
        && storage.uploads == old(storage.uploads)
           + [StorageUpload(Bucket, ObjectKey(old(selectedFile).value), old(selectedFile).value, ResumeUploadOptions)]
    {
      if selectedFile.None? {
        message := Some(NoFileMessage);
        return;
      }
      var file := selectedFile.value;
      if file.mimeType != PdfType {
        message := Some(NotPdfMessage);
        return;
      }
      uploading := true;
      message := None;
      storage.Upload(Bucket, KeyPrefix + file.name, file, ResumeUploadOptions);
      pending := pending + 1;
    }

    /** The rest of the handler, once the storage result arrives: the upload state ends and the result's message is shown. */
    method UploadSettled(error: Option<StorageError>)
      requires pending > 0
      modifies this
      ensures !uploading && message == Some(UploadMessage(error)) && pending == old(pending) - 1
      ensures selectedFile == old(selectedFile)
    {
      uploading := false;
      if error.Some? {
        message := Some(FailurePrefix + error.value.message);
      } else {
        message := Some(SuccessMessage);
      }
      pending := pending - 1;
    }
  }
}
