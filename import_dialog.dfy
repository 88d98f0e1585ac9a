/**
 * The document import dialog: the accepted file extension per import type, the
 * validation of the chosen file (schema, size, MIME type), the three-state
 * validation result that decides which buttons are shown, and the import that
 * uploads the validated file and then creates its document record.
 */
module ImportDialog {
  import opened Wrappers
  import StorageService
  import StorageController
  import opened CreateDocument

  /** The import types of the form's `type` field. */
  datatype ImportType = Pdf | Doc | Docx

  function TypeName(t: ImportType): string {
    match t
    case Pdf => "pdf"
    case Doc => "doc"
    case Docx => "docx"
  }

  /** The enum check of the form schema: the form holds the type as text. */
  function ParseImportType(s: string): (r: Option<ImportType>)
    ensures r.Some? <==> s in {"pdf", "doc", "docx"}
    ensures r.Some? ==> TypeName(r.value) == s
  {
    if s == "pdf" then Some(Pdf)
    else if s == "doc" then Some(Doc)
    else if s == "docx" then Some(Docx)
    else None
  }

  /** The file picker's `accept` filter for the selected type; an unknown type accepts nothing specific. */
  function Accept(filetype: string): string {
    match ParseImportType(filetype)
    case Some(t) => "." + TypeName(t)
    case None => ""
  }

  /** The one MIME type each import type allows. */
  function AllowedMime(t: ImportType): string {
    match t
    case Pdf => StorageService.PdfType
    case Doc => StorageService.DocType
    case Docx => StorageService.DocxType
  }

  /** `type.toUpperCase()`, as it appears in the wrong-type message. */
  function UpperName(t: ImportType): string {
    match t
    case Pdf => "PDF"
    case Doc => "DOC"
    case Docx => "DOCX"
  }

  /** The picker filter and the extension the storage service gives the uploaded document agree. */
  lemma AcceptMatchesStoredExtension(t: ImportType)
    ensures Accept(TypeName(t)) == "." + StorageService.FormatOf(StorageService.Documents, Some(AllowedMime(t))).extension
    ensures StorageService.FormatOf(StorageService.Documents, Some(AllowedMime(t))).contentType == AllowedMime(t)
  {
  }

  /** No two import types allow the same MIME type. */
  lemma AllowedMimeDistinct(t: ImportType, u: ImportType)
    ensures AllowedMime(t) == AllowedMime(u) <==> t == u
  {
  }

  /** A browser `File`: its name, its size in bytes and its MIME type. */
  datatype File = File(name: string, size: nat, mime: string)

  /** The raw form values; `file` is `None` when no file is chosen. */
  datatype FormValues = FormValues(file: Option<File>, typ: string, title: string, documentType: string)

  /** The form after a successful schema parse. */
  datatype ParsedForm = ParsedForm(file: File, typ: ImportType, title: string, documentType: string)

  /** The form schema: a file, a known import type, a non-empty title and a known document kind. */
  function ParseForm(values: FormValues): (r: Option<ParsedForm>)
    ensures r.Some? <==>
      && values.file.Some?
      && values.typ in {"pdf", "doc", "docx"}
      && |values.title| >= 1
      && values.documentType in DocumentKinds
    ensures r.Some? ==>
      && r.value.file == values.file.value
      && TypeName(r.value.typ) == values.typ
      && r.value.title == values.title
      && r.value.documentType == values.documentType
  {
    if values.file.Some? && ParseImportType(values.typ).Some? && |values.title| >= 1 && values.documentType in DocumentKinds
    then Some(ParsedForm(values.file.value, ParseImportType(values.typ).value, values.title, values.documentType))
    else None
  }

  const MaxFileSize: nat := 10 * 1024 * 1024
  const TooLargeMessage: string := "File size must be less than 10MB"

  function WrongTypeMessage(t: ImportType): string {
    "Invalid file type. Expected " + UpperName(t) + " file."
  }

  /** The checks after the schema: at most 10 MiB, and exactly the MIME type of the chosen import type. */
  predicate Accepted(f: File, t: ImportType) {
    f.size <= MaxFileSize && f.mime == AllowedMime(t)
  }

  datatype ValidationResult = Invalid(errors: string) | Valid(file: File)

  /**
   * `onValidate`'s verdict. `schemaErrors` is the text of the schema error, which
   * the validation library formats.
   */
  function Validate(values: FormValues, schemaErrors: string): (r: ValidationResult)
    ensures r.Valid? <==> ParseForm(values).Some? && Accepted(values.file.value, ParseImportType(values.typ).value)
    ensures r.Valid? ==> r.file == values.file.value
    ensures ParseForm(values).None? ==> r == Invalid(schemaErrors)
    ensures ParseForm(values).Some? && values.file.value.size > MaxFileSize ==> r == Invalid(TooLargeMessage)
    ensures ParseForm(values).Some? && values.file.value.size <= MaxFileSize
            && values.file.value.mime != AllowedMime(ParseImportType(values.typ).value)
            ==> r == Invalid(WrongTypeMessage(ParseImportType(values.typ).value))
  {
    match ParseForm(values)
    case None => Invalid(schemaErrors)
    case Some(p) =>
      if p.file.size > MaxFileSize then Invalid(TooLargeMessage)
      else if p.file.mime != AllowedMime(p.typ) then Invalid(WrongTypeMessage(p.typ))
      else Valid(p.file)
  }

  /** The size limit is inclusive: a file of exactly 10 MiB passes, one byte more fails. */
  lemma SizeLimitInclusive(values: FormValues, schemaErrors: string)
    requires ParseForm(values).Some?
    requires values.file.value.mime == AllowedMime(ParseImportType(values.typ).value)
    ensures values.file.value.size == MaxFileSize ==> Validate(values, schemaErrors).Valid?
    ensures values.file.value.size == MaxFileSize + 1 ==> Validate(values, schemaErrors) == Invalid(TooLargeMessage)
  {
  }

  /** A file of one type chosen under another import type is refused, e.g. a DOCX file as "doc". */
  lemma OtherTypeRefused(values: FormValues, schemaErrors: string, actual: ImportType)
    requires ParseForm(values).Some? && values.file.value.size <= MaxFileSize
    requires values.file.value.mime == AllowedMime(actual)
    requires actual != ParseImportType(values.typ).value
    ensures Validate(values, schemaErrors) == Invalid(WrongTypeMessage(ParseImportType(values.typ).value))
  {
    AllowedMimeDistinct(actual, ParseImportType(values.typ).value);
  }

  /** A validated file passes the document upload endpoint's MIME check and keeps its type in storage. */
  lemma ValidatedFileUploadable(f: File, t: ImportType, buffer: seq<bv8>)
    requires Accepted(f, t)
    ensures StorageController.DocumentRequest(StorageController.UploadedFile(f.mime, buffer, Some(f.name))).Ok?
    ensures StorageService.FormatOf(StorageService.Documents, Some(f.mime)).extension == TypeName(t)
  {
  }

  /** The footer buttons. */
  datatype Button = ValidateButton | DiscardButton | ImportButton | ValidatedBadge

  function Buttons(state: Option<ValidationResult>): (r: set<Button>)
    ensures ValidateButton in r <==> state.None?
    ensures DiscardButton in r <==> state.Some? && state.value.Invalid?
    ensures ImportButton in r <==> state.Some? && state.value.Valid?
    ensures ValidatedBadge in r <==> ImportButton in r
  {
    match state
    case None => {ValidateButton}
    case Some(Invalid(_)) => {DiscardButton}
    case Some(Valid(_)) => {ImportButton, ValidatedBadge}
  }

  /** Whatever the state, exactly one of Validate, Discard and Import is offered. */
  lemma OneActionOffered(state: Option<ValidationResult>)
    ensures |Buttons(state) * {ValidateButton, DiscardButton, ImportButton}| == 1
  {
    var r := Buttons(state) * {ValidateButton, DiscardButton, ImportButton};
    match state
    case None => assert r == {ValidateButton};
    case Some(Invalid(_)) => assert r == {DiscardButton};
    case Some(Valid(_)) => assert r == {ImportButton};
  }

  /** The create-document request built from the current form, the validated file and the uploaded URL. */
  function ImportRequest(p: ParsedForm, f: File, fileUrl: string): CreateDocumentDto {
    CreateDocumentDto(p.title, f.name, p.documentType, fileUrl, Some(f.size as real), Some(f.mime))
  }

  /** A named, non-empty validated file with a well-formed URL yields a record the create-document schema accepts. */
  lemma ImportRequestAccepted(p: ParsedForm, f: File, fileUrl: string, isUrl: string -> bool)
    requires |p.title| >= 1 && p.documentType in DocumentKinds
    requires |f.name| >= 1 && f.size > 0 && isUrl(fileUrl)
    ensures Accepts(ImportRequest(p, f, fileUrl), isUrl)
  {
    var dto := ImportRequest(p, f, fileUrl);
    assert IsInteger(dto.fileSize.value);
    AcceptsFields(dto, isUrl);
  }

  /**
   * The dialog validates an empty file, and the record it then sends breaks the
   * create-document schema's positive `fileSize` rule. The create endpoint does not
   * apply that schema, so the record is stored with `fileSize` 0.
   */
  lemma EmptyFileBreaksSchema(p: ParsedForm, f: File, fileUrl: string, isUrl: string -> bool)
    requires f.size == 0
    ensures Accepted(f, p.typ) <==> f.mime == AllowedMime(p.typ)
    ensures !Accepts(ImportRequest(p, f, fileUrl), isUrl)
  {
    var dto := ImportRequest(p, f, fileUrl);
    assert SizeNotPositive in Issues(dto, isUrl);
  }

  datatype Toast = ValidationFailed | ImportSucceeded | ServerFailed

  datatype ImportOutcome = SchemaThrew | NotValidated | UploadRejected | CreateRejected | Imported

  const DefaultValues: FormValues := FormValues(None, "pdf", "", "RESUME")

  /** The dialog's state: the form, the validation result and what it has sent and shown. */
  class Dialog {
    var isOpen: bool
    var values: FormValues
    var validationResult: Option<ValidationResult>
    /** Files sent to the document upload endpoint, in order. */
    var uploads: seq<File>
    /** Create-document requests sent, in order. */
    var created: seq<CreateDocumentDto>
    var toasts: seq<Toast>

    /** A valid result always belongs to the type currently selected. */
    predicate Consistent()
      reads this
    {
      validationResult.Some? && validationResult.value.Valid? ==>
        ParseImportType(values.typ).Some? && Accepted(validationResult.value.file, ParseImportType(values.typ).value)
    }

    constructor ()
      ensures !isOpen && values == DefaultValues && validationResult == None
      ensures uploads == [] && created == [] && toasts == []
      ensures Consistent()
    {
      isOpen := false;
      values := DefaultValues;
      validationResult := None;
      uploads := [];
      created := [];
      toasts := [];
    }

    /** `onReset`: default form without a file, no validation result. */
    method OnReset()
      modifies this
      ensures values == DefaultValues && validationResult == None
      ensures isOpen == old(isOpen) && uploads == old(uploads) && created == old(created) && toasts == old(toasts)
      ensures Consistent()
    {
      values := DefaultValues;
      validationResult := None;
    }

    /** Opening the dialog resets it. */
    method Open()
      modifies this
      ensures isOpen && values == DefaultValues && validationResult == None
      ensures uploads == old(uploads) && created == old(created) && toasts == old(toasts)
      ensures Consistent()
    {
      isOpen := true;
      OnReset();
    }

    /**
     * Selecting an import type. A different type re-runs the form effect: the file,
     * title and document kind are cleared and the validation result is dropped.
     */
    method SelectType(filetype: string)
      modifies this
      ensures filetype == old(values.typ) ==> values == old(values) && validationResult == old(validationResult)
      ensures filetype != old(values.typ) ==> values == FormValues(None, filetype, "", "RESUME") && validationResult == None
      ensures isOpen == old(isOpen) && uploads == old(uploads) && created == old(created) && toasts == old(toasts)
      requires Consistent()
      ensures Consistent()
    {
      if filetype != values.typ {
        values := FormValues(None, filetype, "", "RESUME");
        validationResult := None;
      }
    }

    /** Editing the file, title or document kind keeps the validation result. */
    method EditFields(file: Option<File>, title: string, documentType: string)
      modifies this
      ensures values == FormValues(file, old(values.typ), title, documentType)
      ensures validationResult == old(validationResult)
      ensures isOpen == old(isOpen) && uploads == old(uploads) && created == old(created) && toasts == old(toasts)
      requires Consistent()
      ensures Consistent()
    {
      values := FormValues(file, values.typ, title, documentType);
    }

    /** `onValidate`: record the verdict; a refusal also shows an error toast. */
    method OnValidate(schemaErrors: string)
      modifies this
      ensures validationResult == Some(Validate(old(values), schemaErrors))
      ensures toasts == old(toasts) + (if validationResult.value.Invalid? then [ValidationFailed] else [])
      ensures values == old(values) && isOpen == old(isOpen) && uploads == old(uploads) && created == old(created)
      ensures Consistent()
    {
      var r := Validate(values, schemaErrors);
      validationResult := Some(r);
      if r.Invalid? {
        toasts := toasts + [ValidationFailed];
      }
    }

    /**
     * `onImport`. The schema parse of the current form comes first and throws on
     * failure; then nothing happens unless the last validation succeeded; then the
     * validated file is uploaded (`uploadUrl` is the endpoint's answer) and a record
     * is created (`createSucceeds`), and the dialog closes on success.
     */
    method OnImport(uploadUrl: Option<string>, createSucceeds: bool) returns (outcome: ImportOutcome)
      modifies this
      requires Consistent()
      ensures Consistent()
      ensures values == old(values) && validationResult == old(validationResult)
      ensures ParseForm(values).None? ==> outcome == SchemaThrew
      ensures ParseForm(values).Some? && !(validationResult.Some? && validationResult.value.Valid?) ==> outcome == NotValidated
      ensures outcome in {SchemaThrew, NotValidated} ==>
        uploads == old(uploads) && created == old(created) && toasts == old(toasts) && isOpen == old(isOpen)
      ensures ParseForm(values).Some? && validationResult.Some? && validationResult.value.Valid? ==>
        var f := validationResult.value.file;
        && uploads == old(uploads) + [f]
        && Accepted(f, ParseForm(values).value.typ)
        && (uploadUrl.None? ==> outcome == UploadRejected && created == old(created))
        && (uploadUrl.Some? ==> created == old(created) + [ImportRequest(ParseForm(values).value, f, uploadUrl.value)])
        && (uploadUrl.Some? && !createSucceeds ==> outcome == CreateRejected)
        && (uploadUrl.Some? && createSucceeds ==> outcome == Imported)
      ensures outcome == Imported ==> !isOpen && toasts == old(toasts) + [ImportSucceeded]
      ensures outcome in {UploadRejected, CreateRejected} ==> isOpen == old(isOpen) && toasts == old(toasts) + [ServerFailed]
    {
      var parsed := ParseForm(values);
      if parsed.None? {
        return SchemaThrew;
      }
      if !(validationResult.Some? && validationResult.value.Valid?) {
        return NotValidated;
      }
      var f := validationResult.value.file;
      uploads := uploads + [f];
      if uploadUrl.None? {
        toasts := toasts + [ServerFailed];
        return UploadRejected;
      }
      created := created + [ImportRequest(parsed.value, f, uploadUrl.value)];
      if !createSucceeds {
        toasts := toasts + [ServerFailed];
        return CreateRejected;
      }
      toasts := toasts + [ImportSucceeded];
      isOpen := false;
      outcome := Imported;
    }
  }
}
