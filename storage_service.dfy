/**
 * Object naming and uploads of the storage service. The bucket is an in-memory
 * map from object keys to stored objects; the image resizer, `slugify`, the id
 * generator and the outcome of each storage call are parameters.
 */
module StorageService {
  import opened Wrappers
  import opened Text

  datatype UploadType = Pictures | Previews | Resumes | Documents

  function TypeName(t: UploadType): string {
    match t
    case Pictures => "pictures"
    case Previews => "previews"
    case Resumes => "resumes"
    case Documents => "documents"
  }

  const JpegType: string := "image/jpeg"
  const PdfType: string := "application/pdf"
  const DocType: string := "application/msword"
  const DocxType: string := "application/vnd.openxmlformats-officedocument.wordprocessingml.document"

  /** The MIME types a document may have. */
  const DocumentTypes: set<string> := {PdfType, DocType, DocxType}

  datatype Format = Format(extension: string, contentType: string)

  /** The content type that goes with each extension the service writes. */
  function ContentTypeOf(extension: string): string {
    if extension == "jpg" then JpegType
    else if extension == "doc" then DocType
    else if extension == "docx" then DocxType
    else PdfType
  }

  /** The `switch` of `uploadObject`: the extension and content type of the stored object. */
  function FormatOf(t: UploadType, mime: Option<string>): (r: Format)
    ensures r.extension in {"jpg", "pdf", "doc", "docx"}
    ensures r.contentType == ContentTypeOf(r.extension)
    ensures r.extension == "jpg" <==> t.Pictures? || t.Previews?
    ensures t.Resumes? ==> r.extension == "pdf"
  {
    match t
    case Pictures => Format("jpg", JpegType)
    case Previews => Format("jpg", JpegType)
    case Resumes => Format("pdf", PdfType)
    case Documents =>
      if mime == Some(DocType) then Format("doc", DocType)
      else if mime == Some(DocxType) then Format("docx", DocxType)
      else Format("pdf", PdfType)
  }

  /** A document keeps its MIME type exactly when it is one of the three document types; any other falls back to PDF. */
  lemma DocumentTypeKept(mime: Option<string>)
    ensures FormatOf(Documents, mime).contentType == mime.GetOr("")
        <==> mime.Some? && mime.value in DocumentTypes
    ensures !(mime.Some? && mime.value in DocumentTypes) ==> FormatOf(Documents, mime) == Format("pdf", PdfType)
  {
  }

  /** The stored file name: the slug of the given (or generated) name, or a fresh id when the slug is empty. */
  function FileName(filename: Option<string>, slugify: string -> string, generatedId: string, fallbackId: string): (r: string)
    ensures slugify(filename.GetOr(generatedId)) != "" ==> r == slugify(filename.GetOr(generatedId))
    ensures fallbackId != "" ==> r != ""
  {
    var slug := slugify(filename.GetOr(generatedId));
    if slug == "" then fallbackId else slug
  }

  /** `${userId}/${type}/${name}.${extension}`. */
  function ObjectKey(userId: string, t: UploadType, name: string, extension: string): string {
    userId + "/" + TypeName(t) + "/" + name + "." + extension
  }

  /** `${storageUrl}/${key}`. */
  function ObjectUrl(storageUrl: string, key: string): string {
    storageUrl + "/" + key
  }

  /** Two keys of the same file agree exactly when their extensions do. */
  lemma KeyDeterminesExtension(userId: string, t: UploadType, name: string, e1: string, e2: string)
    ensures ObjectKey(userId, t, name, e1) == ObjectKey(userId, t, name, e2) <==> e1 == e2
  {
    var p := userId + "/" + TypeName(t) + "/" + name + ".";
    assert ObjectKey(userId, t, name, e1) == p + e1;
    assert ObjectKey(userId, t, name, e2) == p + e2;
    if p + e1 == p + e2 {
      assert e1 == (p + e1)[|p|..];
      assert e2 == (p + e2)[|p|..];
    }
  }

  /** The object metadata: always the content type, and a download file name unless the object is a JPEG. */
  function Metadata(format: Format, name: string): (r: map<string, string>)
    ensures r.Keys <= {"Content-Type", "Content-Disposition"}
    ensures "Content-Type" in r && r["Content-Type"] == format.contentType
    ensures "Content-Disposition" in r <==> format.extension != "jpg"
    ensures "Content-Disposition" in r
            ==> r["Content-Disposition"] == "attachment; filename=" + name + "." + format.extension
  {
    if format.extension == "jpg" then map["Content-Type" := format.contentType]
    else map["Content-Type" := format.contentType,
             "Content-Disposition" := "attachment; filename=" + name + "." + format.extension]
  }

  /** The extension `deleteObject` uses: the given one when non-empty, else JPEG for images and PDF otherwise. */
  function DeleteExtension(t: UploadType, extension: Option<string>): string {
    if extension.Some? && extension.value != "" then extension.value
    else if t.Pictures? || t.Previews? then "jpg"
    else "pdf"
  }

  /**
   * Deleting without an extension reaches the uploaded object exactly when it
   * is not a Word document: `.doc` and `.docx` documents are missed.
   */
  lemma DeleteFindsUpload(userId: string, t: UploadType, name: string, mime: Option<string>)
    ensures ObjectKey(userId, t, name, DeleteExtension(t, None)) == ObjectKey(userId, t, name, FormatOf(t, mime).extension)
        <==> !(t.Documents? && (mime == Some(DocType) || mime == Some(DocxType)))
  {
    KeyDeterminesExtension(userId, t, name, DeleteExtension(t, None), FormatOf(t, mime).extension);
  }

  // ---------------------------------------------------------------- bucket policy

  const Placeholder: string := "{{bucketName}}"

  /** `JSON.stringify(PUBLIC_ACCESS_POLICY)`. */
  const PolicyTemplate: string :=
    "{\"Version\":\"2012-10-17\",\"Statement\":[{\"Sid\":\"PublicAccess\",\"Effect\":\"Allow\","
    + "\"Action\":[\"s3:GetObject\"],\"Principal\":{\"AWS\":[\"*\"]},\"Resource\":["
    + "\"arn:aws:s3:::{{bucketName}}/*/pictures/*\",\"arn:aws:s3:::{{bucketName}}/*/previews/*\","
    + "\"arn:aws:s3:::{{bucketName}}/*/resumes/*\",\"arn:aws:s3:::{{bucketName}}/*/documents/*\"]}]}"

  /** The policy applied to a new bucket: the template with the bucket name substituted by a global replace. */
  function BucketPolicy(bucketName: string): string {
    ReplaceAll(PolicyTemplate, Placeholder, bucketName)
  }

  /** Every placeholder of the template is replaced: the policy is the template's pieces joined by the bucket name. */
  lemma BucketPolicyFillsEveryPlaceholder(bucketName: string)
    ensures Join(Pieces(PolicyTemplate, Placeholder), Placeholder) == PolicyTemplate
    ensures BucketPolicy(bucketName) == Join(Pieces(PolicyTemplate, Placeholder), bucketName)
    ensures forall i :: 0 <= i < |Pieces(PolicyTemplate, Placeholder)| ==> !Contains(Pieces(PolicyTemplate, Placeholder)[i], Placeholder)
  {
    PiecesJoin(PolicyTemplate, Placeholder);
    ReplaceAllPieces(PolicyTemplate, Placeholder, bucketName);
  }

  datatype InitOutcome = Skipped | Connected | Created(policy: string)

  /** Why `onModuleInit` fails: the existence check, the bucket creation or the policy call threw. */
  datatype InitError = CheckFailed | CreateFailed | PolicyFailed

  /**
   * `onModuleInit`: skip the check, or find the bucket, or create it and apply
   * the policy. `found` is the answer of the existence check (None when it
   * throws); `made` and `policySet` say whether the two calls succeed.
   */
  function InitBucket(bucketName: string, skipCheck: bool, found: Option<bool>, made: bool, policySet: bool): (r: Result<InitOutcome, InitError>)
    ensures r.Ok? <==> skipCheck || found == Some(true) || (found == Some(false) && made && policySet)
    ensures r.Ok? && r.value.Created? ==> r.value.policy == BucketPolicy(bucketName)
    ensures r == Ok(Skipped) <==> skipCheck
  {
    if skipCheck then Ok(Skipped)
    else if found.None? then Err(CheckFailed)
    else if found.value then Ok(Connected)
    else if !made then Err(CreateFailed)
    else if !policySet then Err(PolicyFailed)
    else Ok(Created(BucketPolicy(bucketName)))
  }

  // ---------------------------------------------------------------- uploads

  datatype StoredObject = StoredObject(data: seq<bv8>, metadata: map<string, string>)

  datatype StorageError = UploadFailed | DeleteFailed(path: string)

  /**
   * The collaborators of an upload: the storage URL, `slugify`, the ids
   * `createId` would return (for a missing file name, then for an empty slug),
   * the image resizer (None when it throws) and whether `putObject` succeeds.
   */
  datatype UploadEnv = UploadEnv(
    storageUrl: string,
    slugify: string -> string,
    generatedId: string,
    fallbackId: string,
    resize: seq<bv8> -> Option<seq<bv8>>,
    putSucceeds: bool)

  /** The key an upload writes. */
  function UploadKey(userId: string, t: UploadType, filename: Option<string>, mime: Option<string>, env: UploadEnv): string {
    ObjectKey(userId, t, FileName(filename, env.slugify, env.generatedId, env.fallbackId), FormatOf(t, mime).extension)
  }

  /** The bytes an upload writes: images are resized first. */
  function UploadData(t: UploadType, buffer: seq<bv8>, mime: Option<string>, env: UploadEnv): Option<seq<bv8>> {
    if FormatOf(t, mime).extension == "jpg" then env.resize(buffer) else Some(buffer)
  }

  /** The object an upload writes, when the resizer does not fail. */
  function UploadedObject(t: UploadType, buffer: seq<bv8>, filename: Option<string>, mime: Option<string>, env: UploadEnv): Option<StoredObject> {
    var data := UploadData(t, buffer, mime, env);
    if data.None? then None
    else Some(StoredObject(data.value, Metadata(FormatOf(t, mime), FileName(filename, env.slugify, env.generatedId, env.fallbackId))))
  }

  /** The storage bucket, seen as the map from object keys to objects. */
  class Bucket {
    var objects: map<string, StoredObject>

    constructor()
      ensures objects == map[]
    {
      objects := map[];
    }

    /** `uploadObject`: derive format, name and key, resize images, store, and return the public URL. */
    method UploadObject(userId: string, t: UploadType, buffer: seq<bv8>, filename: Option<string>,
                        mime: Option<string>, env: UploadEnv) returns (r: Result<string, StorageError>)
      modifies this
      ensures r.Ok? <==> env.putSucceeds && UploadedObject(t, buffer, filename, mime, env).Some?
      ensures r.Ok? ==> r.value == ObjectUrl(env.storageUrl, UploadKey(userId, t, filename, mime, env))
      ensures r.Ok? ==> objects == old(objects)[UploadKey(userId, t, filename, mime, env) := UploadedObject(t, buffer, filename, mime, env).value]
      ensures r.Err? ==> r == Err(UploadFailed) && objects == old(objects)
    {
      var format := FormatOf(t, mime);
      var name := FileName(filename, env.slugify, env.generatedId, env.fallbackId);
      var key := ObjectKey(userId, t, name, format.extension);
      var url := ObjectUrl(env.storageUrl, key);
      var metadata := Metadata(format, name);
      var data := buffer;
      if format.extension == "jpg" {
        var resized := env.resize(buffer);
        if resized.None? {
          return Err(UploadFailed);
        }
        data := resized.value;
      }
      if !env.putSucceeds {
        return Err(UploadFailed);
      }
      objects := objects[key := StoredObject(data, metadata)];
      r := Ok(url);
    }

    /** `deleteObject`: remove the object at the key built with the explicit or default extension. */
    method DeleteObject(userId: string, t: UploadType, filename: string, extension: Option<string>,
                        removeSucceeds: bool) returns (r: Result<(), StorageError>)
      modifies this
      ensures r.Ok? <==> removeSucceeds
      ensures r.Ok? ==> objects == old(objects) - {ObjectKey(userId, t, filename, DeleteExtension(t, extension))}
      ensures r.Err? ==> r == Err(DeleteFailed(ObjectKey(userId, t, filename, DeleteExtension(t, extension))))
                         && objects == old(objects)
    {
      var path := ObjectKey(userId, t, filename, DeleteExtension(t, extension));
      if !removeSucceeds {
        return Err(DeleteFailed(path));
      }
      objects := objects - {path};
      r := Ok(());
    }
  }
}
