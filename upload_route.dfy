/** `POST /api/documents/upload`: take the `file` entry of a multipart form,
    refuse a missing one and one over 500 MiB, hand the bytes to object storage
    and report where they were stored. */
module UploadRoute {
  import opened Js
  import opened Records

  /** An uploaded file as the form data presents it. */
  datatype File = File(name: string, mimeType: string, size: nat)

  /** `formData.get("file")`: absent, a plain text field, or a file. */
  datatype Entry = Missing | TextField(text: string) | FileField(file: File)

  /** The request's form data, or a body that cannot be read as one. */
  datatype Form = Unreadable | Form(entry: Entry)

  /** What the storage upload call does: throw, return a falsy value, or return
      the public url and the stored object's name. */
  datatype StorageOutcome = StorageThrows | StorageFalsy | Stored(url: string, fileName: string)

  /** The response, and the files handed to storage. */
  datatype UploadResult = UploadResult(resp: Response, storageCalls: seq<File>)

  /** 500 MiB, in bytes. */
  const MaxSize: nat := 500 * 1024 * 1024

  const NoFile := Response(400, ErrorBody("No file provided"))
  const TooLarge := Response(400, ErrorBody("you cant ipload more than 500"))
  const StorageFailed := Response(500, ErrorBody("Failed to upload file to storage"))

  /** `!file`: absent, or the empty string. */
  predicate EntryFalsy(e: Entry) {
    e.Missing? || (e.TextField? && e.text == "")
  }

  /** The handler. A non-empty text field passes both checks (its `size` is
      undefined, and `undefined > MAX_SIZE` is false) and then throws when its
      bytes are read, before storage is called. */
  function Upload(form: Form, storage: StorageOutcome): (r: UploadResult)
    ensures r.storageCalls != [] <==> form.Form? && form.entry.FileField? && form.entry.file.size <= MaxSize
    ensures r.storageCalls != [] ==> r.storageCalls == [form.entry.file]
    ensures form.Form? && EntryFalsy(form.entry) ==> r.resp == NoFile
    ensures form.Form? && form.entry.FileField? && form.entry.file.size > MaxSize ==> r.resp == TooLarge
    ensures r.resp.status == 200 <==> r.storageCalls != [] && storage.Stored?
    ensures r.resp.status == 200 ==> r.resp.body == Uploaded(storage.url, storage.fileName)
    ensures form.Unreadable? || (form.entry.TextField? && form.entry.text != "") ==> r.resp == InternalError
    ensures form.Form? && form.entry.FileField? && form.entry.file.size <= MaxSize ==>
      && (storage.StorageFalsy? ==> r.resp == StorageFailed)
      && (storage.StorageThrows? ==> r.resp == InternalError)
    ensures r.resp.status in {200, 400, 500}
  {
    if form.Unreadable? then UploadResult(InternalError, [])
    else if EntryFalsy(form.entry) then UploadResult(NoFile, [])
    else if form.entry.TextField? then UploadResult(InternalError, [])
    else if form.entry.file.size > MaxSize then UploadResult(TooLarge, [])
    else
      var calls := [form.entry.file];
      match storage
      case StorageThrows => UploadResult(InternalError, calls)
      case StorageFalsy => UploadResult(StorageFailed, calls)
      case Stored(url, fileName) => UploadResult(Response(200, Uploaded(url, fileName)), calls)
  }

  /** The ceiling is inclusive: a file of exactly 500 MiB is stored, one byte more
      is refused. */
  lemma CeilingInclusive(name: string, mimeType: string, url: string, fileName: string)
    ensures Upload(Form(FileField(File(name, mimeType, 524288000))), Stored(url, fileName)).resp
            == Response(200, Uploaded(url, fileName))
    ensures Upload(Form(FileField(File(name, mimeType, 524288001))), Stored(url, fileName)) == UploadResult(TooLarge, [])
  {
  }
}
