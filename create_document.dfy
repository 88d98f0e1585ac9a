/**
 * The create-document schema: which field values it accepts for a document record,
 * and the issues it reports otherwise. The document dialog's form applies it; the
 * create endpoint takes its body without it.
 */
module CreateDocument {
  import opened Wrappers

  /** The four document kinds of the `type` enum, in declaration order. */
  const DocumentKinds: seq<string> := ["RESUME", "COVER_LETTER", "RESIGNATION_LETTER", "WEBSITE"]

  /**
   * A create-document request. `fileSize` is a JavaScript number, hence a real;
   * the optional fields are `None` when absent.
   */
  datatype CreateDocumentDto = CreateDocumentDto(
    title: string,
    filename: string,
    kind: string,
    fileUrl: string,
    fileSize: Option<real>,
    mimeType: Option<string>)

  /** One failed check, in the order the schema declares its fields and checks. */
  datatype Issue = TitleRequired | FilenameRequired | InvalidKind | InvalidUrl | SizeNotInteger | SizeNotPositive

  /** The messages the schema sets itself; the others are the validation library's own text. */
  function CustomMessage(issue: Issue): Option<string> {
    match issue
    case TitleRequired => Some("Title is required")
    case FilenameRequired => Some("Filename is required")
    case InvalidUrl => Some("Invalid file URL")
    case _ => None
  }

  predicate IsInteger(x: real) {
    x == x.Floor as real
  }

  /**
   * Every issue the schema reports for `dto`, field by field. The URL check of the
   * validation library is the parameter `isUrl`.
   */
  function Issues(dto: CreateDocumentDto, isUrl: string -> bool): (r: seq<Issue>)
    ensures TitleRequired in r <==> dto.title == []
    ensures FilenameRequired in r <==> dto.filename == []
    ensures InvalidKind in r <==> dto.kind !in DocumentKinds
    ensures InvalidUrl in r <==> !isUrl(dto.fileUrl)
    ensures SizeNotInteger in r <==> dto.fileSize.Some? && !IsInteger(dto.fileSize.value)
    ensures SizeNotPositive in r <==> dto.fileSize.Some? && dto.fileSize.value <= 0.0
    ensures |r| <= 6
  {
    (if dto.title == [] then [TitleRequired] else [])
    + (if dto.filename == [] then [FilenameRequired] else [])
    + (if dto.kind in DocumentKinds then [] else [InvalidKind])
    + (if isUrl(dto.fileUrl) then [] else [InvalidUrl])
    + (match dto.fileSize
       case None => []
       case Some(size) =>
         (if IsInteger(size) then [] else [SizeNotInteger]) + (if size > 0.0 then [] else [SizeNotPositive]))
  }

  /** The schema accepts a request iff it reports no issue. */
  predicate Accepts(dto: CreateDocumentDto, isUrl: string -> bool) {
    Issues(dto, isUrl) == []
  }

  /** Acceptance spelled out field by field: both directions. */
  lemma AcceptsFields(dto: CreateDocumentDto, isUrl: string -> bool)
    ensures Accepts(dto, isUrl) <==>
      && |dto.title| >= 1
      && |dto.filename| >= 1
      && dto.kind in DocumentKinds
      && isUrl(dto.fileUrl)
      && (dto.fileSize.Some? ==> IsInteger(dto.fileSize.value) && dto.fileSize.value > 0.0)
  {
    var r := Issues(dto, isUrl);
    if r != [] {
      assert r[0] in r;
    }
  }

  /** Leaving out the optional fields never makes a request fail. */
  lemma OptionalFieldsOptional(dto: CreateDocumentDto, isUrl: string -> bool)
    requires Accepts(dto, isUrl)
    ensures Accepts(dto.(fileSize := None, mimeType := None), isUrl)
  {
    AcceptsFields(dto, isUrl);
    AcceptsFields(dto.(fileSize := None, mimeType := None), isUrl);
  }
}
