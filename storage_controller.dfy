/**
 * The storage controller: the two upload endpoints check the MIME type of the
 * uploaded file and forward accepted files to the storage service.
 */
module StorageController {
  import opened Wrappers
  import opened Text
  import opened StorageService

  /** The uploaded file as the upload middleware hands it over. */
  datatype UploadedFile = UploadedFile(mimetype: string, buffer: seq<bv8>, filename: Option<string>)

  /**
   * How a request fails: a rejected MIME type, a storage failure, or a request with no
   * file, where reading `file.mimetype` throws a TypeError that is answered as a 500.
   */
  datatype HttpError = BadRequest(message: string) | ServerError(cause: StorageError) | MissingFile

  const NotAnImage: string :=
    "The file you uploaded doesn't seem to be an image, please upload a file that ends in .jp(e)g or .png."
  const NotADocument: string :=
    "The file you uploaded doesn't seem to be a supported document type. Please upload a PDF, DOC, or DOCX file."

  /** `file.mimetype.startsWith("image")`. */
  predicate IsImage(file: UploadedFile) {
    StartsWith(file.mimetype, "image")
  }

  /** `allowedTypes.includes(file.mimetype)`. */
  predicate IsAllowedDocument(file: UploadedFile) {
    file.mimetype in [PdfType, DocType, DocxType]
  }

  /** The arguments an accepted upload passes to `uploadObject`. */
  datatype UploadRequest = UploadRequest(uploadType: UploadType, filename: Option<string>, mime: Option<string>)

  /** The guard of `uploadFile`: images are stored as pictures under the file's name, anything else is a bad request. */
  function ImageRequest(file: UploadedFile): (r: Result<UploadRequest, HttpError>)
    ensures r.Ok? <==> IsImage(file)
    ensures r.Ok? ==> r.value == UploadRequest(Pictures, file.filename, None)
    ensures r.Err? ==> r.error == BadRequest(NotAnImage)
  {
    if IsImage(file) then Ok(UploadRequest(Pictures, file.filename, None)) else Err(BadRequest(NotAnImage))
  }

  /** The guard of `uploadDocument`: one of the three document types, forwarded with its MIME type. */
  function DocumentRequest(file: UploadedFile): (r: Result<UploadRequest, HttpError>)
    ensures r.Ok? <==> file.mimetype in DocumentTypes
    ensures r.Ok? ==> r.value == UploadRequest(Documents, file.filename, Some(file.mimetype))
    ensures r.Err? ==> r.error == BadRequest(NotADocument)
  {
    if IsAllowedDocument(file) then Ok(UploadRequest(Documents, file.filename, Some(file.mimetype)))
    else Err(BadRequest(NotADocument))
  }

  /** An accepted document is stored with its own MIME type: storage never falls back to PDF for it. */
  lemma AcceptedDocumentKeepsType(file: UploadedFile)
    requires DocumentRequest(file).Ok?
    ensures FormatOf(Documents, DocumentRequest(file).value.mime).contentType == file.mimetype
  {
    DocumentTypeKept(Some(file.mimetype));
  }

  /** Forward an accepted request to the storage service. */
  method Forward(bucket: Bucket, userId: string, file: UploadedFile, request: Result<UploadRequest, HttpError>,
                 env: UploadEnv) returns (r: Result<string, HttpError>)
    modifies bucket
    ensures request.Err? ==> r == Err(request.error) && bucket.objects == old(bucket.objects)
    ensures request.Ok? ==>
      var q := request.value;
      && (r.Ok? <==> env.putSucceeds && UploadedObject(q.uploadType, file.buffer, q.filename, q.mime, env).Some?)
      && (r.Ok? ==> r.value == ObjectUrl(env.storageUrl, UploadKey(userId, q.uploadType, q.filename, q.mime, env))
                    && bucket.objects == old(bucket.objects)[UploadKey(userId, q.uploadType, q.filename, q.mime, env)
                                                             := UploadedObject(q.uploadType, file.buffer, q.filename, q.mime, env).value])
      && (r.Err? ==> r == Err(ServerError(UploadFailed)) && bucket.objects == old(bucket.objects))
  {
    if request.Err? {
      return Err(request.error);
    }
    var q := request.value;
    var stored := bucket.UploadObject(userId, q.uploadType, file.buffer, q.filename, q.mime, env);
    if stored.Err? {
      return Err(ServerError(stored.error));
    }
    r := Ok(stored.value);
  }

  /**
   * `uploadFile`: a request without a file throws, a non-image is rejected, both before
   * any storage call; an image is stored as a picture under the file's name.
   */
  method UploadFile(bucket: Bucket, userId: string, upload: Option<UploadedFile>, env: UploadEnv) returns (r: Result<string, HttpError>)
    modifies bucket
    ensures upload.None? ==> r == Err(MissingFile) && bucket.objects == old(bucket.objects)
    ensures upload.Some? && !IsImage(upload.value) ==>
      r == Err(BadRequest(NotAnImage)) && bucket.objects == old(bucket.objects)
    ensures upload.Some? && IsImage(upload.value) ==>
      var file := upload.value;
      var key := UploadKey(userId, Pictures, file.filename, None, env);
      && (r.Ok? <==> env.putSucceeds && UploadedObject(Pictures, file.buffer, file.filename, None, env).Some?)
      && (r.Ok? ==> r.value == ObjectUrl(env.storageUrl, key)
                    && bucket.objects == old(bucket.objects)[key := UploadedObject(Pictures, file.buffer, file.filename, None, env).value])
      && (r.Err? ==> r == Err(ServerError(UploadFailed)) && bucket.objects == old(bucket.objects))
  {
    if upload.None? {
      return Err(MissingFile);
    }
    r := Forward(bucket, userId, upload.value, ImageRequest(upload.value), env);
  }

  /**
   * `uploadDocument`: a request without a file throws, another type is rejected, both
   * before any storage call; a document is stored with its own MIME type.
   */
  method UploadDocument(bucket: Bucket, userId: string, upload: Option<UploadedFile>, env: UploadEnv) returns (r: Result<string, HttpError>)
    modifies bucket
    ensures upload.None? ==> r == Err(MissingFile) && bucket.objects == old(bucket.objects)
    ensures upload.Some? && upload.value.mimetype !in DocumentTypes ==>
      r == Err(BadRequest(NotADocument)) && bucket.objects == old(bucket.objects)
    ensures upload.Some? && upload.value.mimetype in DocumentTypes ==>
      var file := upload.value;
      var mime := Some(file.mimetype);
      var key := UploadKey(userId, Documents, file.filename, mime, env);
      && (r.Ok? <==> env.putSucceeds && UploadedObject(Documents, file.buffer, file.filename, mime, env).Some?)
      && (r.Ok? ==> r.value == ObjectUrl(env.storageUrl, key)
                    && bucket.objects == old(bucket.objects)[key := UploadedObject(Documents, file.buffer, file.filename, mime, env).value])
      && (r.Err? ==> r == Err(ServerError(UploadFailed)) && bucket.objects == old(bucket.objects))
  {
    if upload.None? {
      return Err(MissingFile);
    }
    r := Forward(bucket, userId, upload.value, DocumentRequest(upload.value), env);
  }
}
