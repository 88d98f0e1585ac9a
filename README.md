# Résumé layout pipeline — a Dafny model

This project models the deterministic core of a résumé builder (a fork of Reactive
Resume), and proves properties of that model:

- **Layout normalisation.** The artboard's builder and preview pages turn
  `metadata.layout` into lists of pages, columns and section keys. The two pages use
  different visibility rules: the builder keeps a truthy `visible`, the preview only
  `visible === true`.
- **Loading a stored résumé snapshot.** The artboard loads the snapshot, backfills the
  13 default sections and every missing `visible` flag, and installs the result.
- **PDF printing.** The server captures one page at a time, merges the first page of
  each capture in page order, and retries a failed attempt up to three times. It
  also exports DOCX, assembling the paragraph list section by section.
- **The plain-text résumé parser.** It extracts sections by keyword, builds entries
  with a line-driven state machine, and splits skill lists.
- **Storage naming and upload validators.** This covers the storage service and
  controller, the document-import dialog and the create-document schema.
- **Two client state machines.** One is the popup sign-in, whose wait settles at most
  once. The other is the auth store, which notifies its parent window from inside an
  iframe.
- **Iframe size clamping**, over real numbers.
- **Owner-scoped document operations, and user lookup and pagination**, over
  in-memory tables.

JavaScript values are modelled by `Json.Json`, a datatype that has `undefined`. On
top of it, `Json.Truthy` models JavaScript truthiness and `Json.Get` models optional
property access (`?.`).

Everything outside the model is a parameter of the model:
- the browser, pdf-lib, the DOCX packer and `sharp`;
- `slugify`, `createId` and bcrypt;
- the storage client, the database, the URL and regex checks, and the clock.

Files:
- `wrappers.dfy`, `seqs.dfy`, `text.dfy`, `json.dfy`: shared helpers (Option/Result,
  filter/map/sort on sequences, string helpers, the JavaScript value model).
- `builder.dfy`, `preview.dfy`, `providers.dfy`: the artboard.
- `printer.dfy`, `docx_sections.dfy`: the printer service.
- `docx_parser.dfy`: the parser library.
- `storage_service.dfy`, `storage_controller.dfy`: storage.
- `import_dialog.dfy`, `create_document.dfy`: document import and its schema.
- `iframe_sizing.dfy`, `popup_oauth.dfy`, `auth_store.dfy`: client utilities.
- `document_service.dfy`, `user_service.dfy`: server services.

The model follows the code as written:
- A normalised page has exactly as many columns as the stored page, and a layout that
  is not an array gives no pages (`Builder.NormalizeShape`, `Preview.NormalizeSpec`).
- A missing layout is thrown inside the `try` of `generateResume`, so `printResume`
  retries it like any other failure (`Printer.MissingLayoutRetried`).
- The preview keeps an object entry only when `visible === true`.

Behaviours of the code that the proofs make explicit:
- Storage:
  - `deleteObject` without an extension uses `.pdf` for documents, so it misses
    uploaded `.doc` and `.docx` files (`StorageService.DeleteFindsUpload`).
- The import dialog:
  - It validates an empty (0-byte) file of the right type.
  - The record built from that file breaks the create-document schema's rule that
    `fileSize` be positive (`ImportDialog.EmptyFileBreaksSchema`). The create endpoint
    does not apply that schema, so the record is stored with `fileSize` 0.
  - `onImport` sends the current form's title and kind but the validated file.
  - Editing the title or kind after validating does not reset the validation.
- The artboard loader:
  - A plain-object `custom` section is backfilled like any other section, so its
    sub-sections do not gain `visible` (`Providers.ObjectCustomSubsectionsUntouched`).

## Model

| member | source | states |
|---|---|---|
| Builder.ChainIsEntryWise | apps/artboard/src/pages/builder.tsx:35-50 | The filter, map and filter chain over a column equals the entry-wise key function: each entry independently contributes its key or nothing, in column order. |
| Builder.KeepStrings | apps/artboard/src/pages/builder.tsx:50 | The final filter keeps exactly the string entries, in order. |
| Builder.EntryKeysLength | apps/artboard/src/pages/builder.tsx:35-50 | A normalised column is never longer than the input column. |
| Builder.EntryKeysAllStrings | apps/artboard/src/pages/builder.tsx:37-50 | A column made only of strings comes back exactly as it was. |
| Builder.NormalizeColumnSpec | apps/artboard/src/pages/builder.tsx:33-50 | A null-free array column normalises to its entry-wise keys. It never grows, and an all-string column is unchanged. |
| Builder.ObjectEntrySurvives | apps/artboard/src/pages/builder.tsx:38-50 | An object entry survives iff it has a truthy `visible` and a string `id`, and it then becomes that id. |
| Builder.NormalizeShape | apps/artboard/src/pages/builder.tsx:24-33 | A non-array layout gives no pages. Otherwise there is one page per input page and one column per input column (no padding, no truncation), a non-array page or column becomes empty, and each column is its entry-wise keys. |
| Builder.ToJson | apps/artboard/src/pages/builder.tsx:24-53 | The JSON form of a normalised layout is an array with one element per page. |
| Builder.NormalizeStringLayout | apps/artboard/src/pages/builder.tsx:37-50 | A layout that is already string-only normalises to itself. |
| Builder.NormalizeIdempotent | apps/artboard/src/pages/builder.tsx:24-53 | Normalising a normalised layout changes nothing. |
| Builder.NonLocalOriginNeedsSameOrigin | apps/artboard/src/pages/builder.tsx:57-61 | An origin that does not mention localhost is allowed only if it is the page's own origin. |
| Builder.BuilderView.constructor | apps/artboard/src/pages/builder.tsx:14 | `wheelPanning` starts as `true`, and no canvas call has been made. |
| Builder.BuilderView.HandleMessage | apps/artboard/src/pages/builder.tsx:56-74 | A message from a disallowed origin changes nothing. An allowed one issues its zoom, center or reset calls, and only `TOGGLE_PAN_MODE` sets `wheelPanning`, to the message's `panMode`. |
| Preview.ChainIsEntryWise | apps/artboard/src/pages/preview.tsx:24-39 | The preview chain equals its entry-wise value function. |
| Preview.NormalizeSpec | apps/artboard/src/pages/preview.tsx:15-42 | A missing or non-array layout gives no pages. Page and column counts are kept, and each column holds the values of its entries: strings in order, and the `id` of objects with `visible === true` unless that id is null or undefined. |
| Preview.TruthyVisibleDiffers | apps/artboard/src/pages/preview.tsx:27-29 | The entry `{id: "skills", visible: 1}` is kept by the builder and dropped by the preview. |
| Preview.EntryWiseSubsequence | apps/artboard/src/pages/preview.tsx:25-39 | Where object ids are strings, the preview's entry values are a subsequence of the builder's keys. |
| Preview.PreviewColumnWithinBuilder | apps/artboard/src/pages/preview.tsx:25-39 | Where object ids are strings, the preview's column is a subsequence of the builder's column for the same input. |
| Preview.RenderPages | apps/artboard/src/pages/preview.tsx:46-50 | Pages are rendered in order, numbered from 1, and only the first is flagged as first. |
| Preview.OneFirstPage | apps/artboard/src/pages/preview.tsx:46-50 | A non-empty layout has exactly one first page, and it is page 1. No page number is used twice. |
| Preview.PageNumbersAreOneToN | apps/artboard/src/pages/preview.tsx:46-50 | The page numbers are exactly 1..n. |
| Providers.FillDefaultStep | apps/artboard/src/providers/index.tsx:66-77 | One step of the default loop extends the "only add, never overwrite" relation by one key. |
| Providers.FillDefaultsSpec | apps/artboard/src/providers/index.tsx:50-77 | After the default loop, every default key is truthy. A truthy section keeps its value, a missing or falsy one holds its default section, and no other key changes. |
| Providers.FillDefaultsNoop | apps/artboard/src/providers/index.tsx:66-77 | Sections that already hold every default truthily are left as they are. |
| Providers.BackfillSectionSpec | apps/artboard/src/providers/index.tsx:85-95 | A backfilled section gets `visible: true` only where `visible` was undefined, and explicit values (`false` included) are kept. Array items gain `visible: true` only where it was undefined, and no other field changes. |
| Providers.ProcessSectionCases | apps/artboard/src/providers/index.tsx:83-112 | A plain-object section is backfilled, an array `custom` has its elements backfilled, and anything else is left alone. Truthiness is kept. |
| Providers.ProcessSectionIdempotent | apps/artboard/src/providers/index.tsx:83-112 | Backfilling twice is backfilling once. |
| Providers.BackfillSectionIdempotent | apps/artboard/src/providers/index.tsx:85-95 | Backfilling one section twice is backfilling it once. |
| Providers.DefaultSectionStable | apps/artboard/src/providers/index.tsx:68-75 | A default section is already backfilled. |
| Providers.FillCustomSpec | apps/artboard/src/providers/index.tsx:50-81 | After the default loop and the `custom` fallback, every default key and `custom` is truthy. A truthy section keeps its value, a missing or falsy default key holds its default section, and a falsy `custom` is `{}`. |
| Providers.LoadObjectGeneric | apps/artboard/src/providers/index.tsx:50-113 | The three loops over an object `sections`: every default key is truthy, and a missing or falsy one holds its default. Any other key of the input is only processed, and a falsy one keeps its value. |
| Providers.LoadSectionsObject | apps/artboard/src/providers/index.tsx:50-113 | Loading an object `sections` yields exactly the old keys plus the 13 defaults and `custom`. Truthy sections are only backfilled, never replaced. Any other falsy key keeps its value, and a falsy `custom` becomes `{visible: true}`. |
| Providers.ObjectCustomSubsectionsUntouched | apps/artboard/src/providers/index.tsx:85-112 | An object `custom` is backfilled as an ordinary section, so its sub-sections gain no `visible`. |
| Providers.ArrayCustomSubsectionsBackfilled | apps/artboard/src/providers/index.tsx:96-112 | An array `custom` has each element backfilled. |
| Providers.TransformSomeIff | apps/artboard/src/providers/index.tsx:33-48 | The loader installs something iff all of these hold: `metadata.layout` is an array; `basics` or `sections.basics` is truthy; `sections` is an object or an array. |
| Providers.TransformShape | apps/artboard/src/providers/index.tsx:34-115 | Without lifting, the snapshot is installed with only its `sections` replaced. With lifting, exactly `basics`, `sections` and `metadata` are installed, and `basics` is the backfilled `sections.basics`. |
| Providers.TransformIdempotent | apps/artboard/src/providers/index.tsx:33-115 | Loading what the loader installed installs the same value again. |
| Providers.LoadObjectIdempotent | apps/artboard/src/providers/index.tsx:50-113 | The section loops are idempotent on object `sections`. |
| Providers.LoadSectionsIdempotent | apps/artboard/src/providers/index.tsx:50-113 | Loading already-loaded `sections` changes nothing. |
| Providers.BackfillItems | apps/artboard/src/providers/index.tsx:89-95 | The item loop backfills every item, in order. |
| Providers.BackfillOneSection | apps/artboard/src/providers/index.tsx:85-95 | The loop over one section computes the backfilled section. |
| Providers.BackfillCustomArray | apps/artboard/src/providers/index.tsx:96-112 | The custom sub-section loop backfills every element. |
| Providers.BackfillDefaults | apps/artboard/src/providers/index.tsx:66-77 | The default-section loop computes the default fill. |
| Providers.BackfillVisible | apps/artboard/src/providers/index.tsx:83-113 | The loop over `Object.keys(sections)` processes every key independently. |
| Providers.Artboard.HandleMessage | apps/artboard/src/providers/index.tsx:13-16 | Only a `SET_RESUME` message from the own origin installs its payload. Anything else changes nothing. |
| Providers.Artboard.LoadResumeData | apps/artboard/src/providers/index.tsx:26-121 | An absent, empty, unparsable or rejected snapshot changes nothing. Otherwise the transformed snapshot is installed, with exactly one `setResume`. |
| Providers.Artboard.OnWindowEvent | apps/artboard/src/providers/index.tsx:123-137 | A reload happens only for a `storage` event on key "resume" or for a `resume-data-updated` event. |
| Printer.DockerHostKeepsSchemeAndPort | apps/server/src/printer/printer.service.ts:113-116 | `http[s]://localhost[:port]…` becomes `http[s]://host.docker.internal[:port]…`. |
| Printer.NoRewriteWithoutDocker | apps/server/src/printer/printer.service.ts:105-132 | Outside Docker, or when neither URL names localhost, the browser gets the public URL and no request is redirected. |
| Printer.DockerHostWithoutLocalhost | apps/server/src/printer/printer.service.ts:113-125 | A URL without `localhost` is not rewritten. |
| Printer.WithTemplate | apps/server/src/printer/printer.service.ts:142-147 | A falsy template becomes "azurill" and a truthy one is kept. The layout and the CSS are untouched. |
| Printer.RunPagesSuccess | apps/server/src/printer/printer.service.ts:197-234 | A page loop that completes holds one capture per page, in page order. Capture i was taken with only page i+1 in the body, and the original body is restored. |
| Printer.RunPagesStops | apps/server/src/printer/printer.service.ts:232-234 | After the first failure no further page runs. |
| Printer.RunPagesFailure | apps/server/src/printer/printer.service.ts:197-234 | A failing loop fails at some page k with pages 1..k-1 captured. A missing element leaves the body restored, while unreadable CSS or a failed capture leaves page k in the body. |
| Printer.MergeSpec | apps/server/src/printer/printer.service.ts:237-243 | The merge succeeds iff every capture has a page. It then holds the first page of each capture, in order. |
| Printer.CaptureSuccess | apps/server/src/printer/printer.service.ts:150-243 | A successful capture has exactly one page per layout page, and page i is the capture of `data-page` i+1. |
| Printer.AttemptSuccess | apps/server/src/printer/printer.service.ts:95-261 | A successful attempt had a layout and uploaded the capture of every layout page, in order. |
| Printer.MissingLayoutFails | apps/server/src/printer/printer.service.ts:97-140 | Without a layout, an attempt fails with the invalid-data error once the browser is reached, and otherwise with the connection error. |
| Printer.TemplateDefaultInvisible | apps/server/src/printer/printer.service.ts:142-147 | Setting the default template does not change how a later attempt turns out. |
| Printer.ResumeDto.constructor | apps/server/src/printer/printer.service.ts:56 | The printer's résumé holds the given data. |
| Printer.BrowserPage.ProcessPage | apps/server/src/printer/printer.service.ts:197-229 | One `processPage` swaps the page into the body, adds visible custom CSS to the head, captures, and restores the body. A failure after the swap leaves the page swapped in. |
| Printer.BrowserPage.CloseAndDisconnect | apps/server/src/printer/printer.service.ts:258-259 | The tab is closed and the browser disconnected. |
| Printer.MergeBuffers | apps/server/src/printer/printer.service.ts:237-243 | The merge loop computes the merge. |
| Printer.RunOutMerge | apps/server/src/printer/printer.service.ts:239-243 | Once a prefix fails to merge, the whole sequence does. |
| Printer.PrintPages | apps/server/src/printer/printer.service.ts:195-243 | The page loop and the merge on the tab compute the capture. On success the body is the original one. |
| Printer.GenerateResume | apps/server/src/printer/printer.service.ts:95-270 | The attempt's result is its outcome. The template is defaulted only once the layout check passes. The tab is closed and the browser disconnected only on success. |
| Printer.RetryOkIff | apps/server/src/printer/printer.service.ts:59-65 | The retries end in success exactly when some attempt succeeds. |
| Printer.RetryOkFirst | apps/server/src/printer/printer.service.ts:59-65 | A success is the result of the first successful attempt, and every failed attempt before it was logged. |
| Printer.RetryErrLast | apps/server/src/printer/printer.service.ts:59-65 | A failure is the fourth attempt's failure, and attempts 1-3 were logged. |
| Printer.RetrySpec | apps/server/src/printer/printer.service.ts:59-65 | The retries succeed iff some attempt does, returning the first success and logging every attempt before it. Otherwise all four attempts fail, the last failure is thrown, and attempts 1-3 are logged. |
| Printer.MissingLayoutRetried | apps/server/src/printer/printer.service.ts:59-140 | A résumé without a layout is retried: four attempts fail and three retries are logged. |
| Printer.AttemptOnResume | apps/server/src/printer/printer.service.ts:59-147 | Each retry sees the résumé as the previous attempt left it, and that makes no difference to its outcome. |
| Printer.PrintResume | apps/server/src/printer/printer.service.ts:56-73 | `printResume` returns the retry result and logs every retried attempt. |
| DocxSections.ItemsSectionHeadings | apps/server/src/printer/printer.service.ts:435-444 | A list section contributes its title as its only heading iff it has items. |
| DocxSections.HeadingsAreSectionTitles | apps/server/src/printer/printer.service.ts:419-813 | The export's level-1 headings are exactly the titles of the sections that have items, in the fixed order with custom sections last. This includes sections whose items are all hidden. |
| DocxSections.CustomHeadings | apps/server/src/printer/printer.service.ts:764-781 | Each custom section with items contributes exactly one heading. |
| DocxSections.HiddenItemsIgnored | apps/server/src/printer/printer.service.ts:443-444 | Two non-empty item lists with the same visible items render alike. |
| DocxSections.AllHiddenKeepsHeading | apps/server/src/printer/printer.service.ts:435-444 | A section whose items are all hidden shows only its heading. |
| DocxSections.SkillsListVisibleNames | apps/server/src/printer/printer.service.ts:506-520 | Every visible skill's name appears in the one skills paragraph, which joins the names with ", ". |
| DocxSections.CustomHeadingChoice | apps/server/src/printer/printer.service.ts:775-781 | A custom section's heading is its name when present (even an empty one) and its key otherwise. A custom section with no items is skipped. |
| DocxSections.PushItems | apps/server/src/printer/printer.service.ts:443-468 | The item loop pushes every visible item's paragraphs, in order. |
| DocxSections.PushItemsSection | apps/server/src/printer/printer.service.ts:435-469 | A list section pushes its heading when it has items, then its visible items. |
| DocxSections.PushCustomSections | apps/server/src/printer/printer.service.ts:764-810 | The custom loop appends every custom section's paragraphs, in entry order. |
| DocxSections.PushNames | apps/server/src/printer/printer.service.ts:506-520 | The skills and interests blocks push their joined visible names. |
| DocxSections.PushLanguages | apps/server/src/printer/printer.service.ts:526-546 | One line per visible language is pushed, then a single spacing paragraph. |
| DocxSections.GenerateAllDocxSections | apps/server/src/printer/printer.service.ts:419-813 | The pushes build exactly the section paragraphs, in order. |
| DocxSections.GenerateDocx | apps/server/src/printer/printer.service.ts:353-417 | Without a layout, the export fails before building anything. Otherwise it uploads the header followed by the sections as `<title>.docx`, and succeeds iff the upload does. |
| DocxSections.DocumentLayout | apps/server/src/printer/printer.service.ts:364-392 | The first paragraph is the name, or "Resume" when the name is empty. The headings are exactly the section titles. |
| DocxParser.Validate | libs/parser/src/docx/index.ts:35-48 | The file is ignored, and the result is always the placeholder text with empty metadata. |
| DocxParser.ParseBasicInfo | libs/parser/src/docx/index.ts:62-73 | E-mail and phone are set only when their patterns match. Headline and location are untouched. |
| DocxParser.NameIsFirstNonBlankLine | libs/parser/src/docx/index.ts:69-72 | The name is the first non-blank line, trimmed, and so is never empty. |
| DocxParser.BlankTextKeepsName | libs/parser/src/docx/index.ts:69-72 | A text of blank lines leaves the name as it was. |
| DocxParser.FindStart | libs/parser/src/docx/index.ts:120-126 | Finds the first line whose lower-cased form mentions a keyword, or reports that no line does. |
| DocxParser.FindEnd | libs/parser/src/docx/index.ts:130-138 | Finds the first later heading line, or the end of the text. |
| DocxParser.ExtractSectionNone | libs/parser/src/docx/index.ts:120-128 | No section is found iff no lower-cased line mentions a keyword. |
| DocxParser.ExtractSectionBlock | libs/parser/src/docx/index.ts:115-140 | The section is exactly the lines from the first matching line up to the next heading: splitting it gives those lines back. It is non-empty when no keyword is empty. |
| DocxParser.SectionNotEmpty | libs/parser/src/docx/index.ts:82-109 | A found section is never the empty string, so `if (section)` only tests whether one was found. |
| DocxParser.ExtractSectionLines | libs/parser/src/docx/index.ts:115-140 | The two scanning loops compute the section. |
| DocxParser.RunAppend | libs/parser/src/docx/index.ts:161-187 | The entry loop over concatenated lines is the loop over the first part followed by the loop over the second. |
| DocxParser.EntryDates | libs/parser/src/docx/index.ts:161-192 | There is one entry per year-range line, in input order, carrying that line's date. Earlier lines make no entry, and the last entry is flushed. |
| DocxParser.BlockEntryFill | libs/parser/src/docx/index.ts:179-186 | A plain line fills the next empty field of the open entry. |
| DocxParser.RunBlock | libs/parser/src/docx/index.ts:179-186 | Plain lines after a date fill the open entry in order. |
| DocxParser.EntryBlock | libs/parser/src/docx/index.ts:165-186 | A year-range line followed by plain lines becomes one entry. The first line is the first field (position, or area), the second is the second field (company, or institution), and the rest, joined by single spaces, is the summary. |
| DocxParser.CollectEntries | libs/parser/src/docx/index.ts:156-193 | The entry loop computes the completed entries. |
| DocxParser.ParseJobEntries | libs/parser/src/docx/index.ts:155-194 | The experience entries are the scanned entries read as position and company. |
| DocxParser.ParseEducationEntries | libs/parser/src/docx/index.ts:196-236 | The education entries are the scanned entries read as area and institution. |
| DocxParser.LineSkillsWellFormed | libs/parser/src/docx/index.ts:246-249 | Every skill from one line is non-empty, trimmed and free of separators. |
| DocxParser.SkillNamesWellFormed | libs/parser/src/docx/index.ts:242-261 | Every skill name the parser produces is well formed. |
| DocxParser.ListedSkills | libs/parser/src/docx/index.ts:244-249 | A line listing well-formed names separated by commas, without the word "skill", gives exactly those names back. |
| DocxParser.PushSkills | libs/parser/src/docx/index.ts:251-260 | The inner loop pushes one skill per name, in order. |
| DocxParser.ParseSkillsEntries | libs/parser/src/docx/index.ts:238-264 | The skills are those of each non-blank line, in order. |
| DocxParser.ParseExperience | libs/parser/src/docx/index.ts:75-86 | The experience items are set only when the section is found. |
| DocxParser.ParseEducation | libs/parser/src/docx/index.ts:88-100 | The education items are set only when the section is found. |
| DocxParser.ParseSkills | libs/parser/src/docx/index.ts:102-113 | The skills are set only when the section is found. |
| DocxParser.Convert | libs/parser/src/docx/index.ts:50-60 | `convert` yields the basics, then the experience, education and skills sections. |
| StorageService.FormatOf | apps/server/src/storage/storage.service.ts:125-170 | The extension is jpg, pdf, doc or docx, with the matching content type. It is jpg exactly for pictures and previews, and résumés are pdf. |
| StorageService.DocumentTypeKept | apps/server/src/storage/storage.service.ts:139-164 | A document keeps its MIME type iff it is one of the three document types. Any other or absent MIME type falls back to PDF. |
| StorageService.FileName | apps/server/src/storage/storage.service.ts:119-175 | The name is the slug when that is non-empty. It is never empty given a non-empty fresh id. |
| StorageService.KeyDeterminesExtension | apps/server/src/storage/storage.service.ts:177 | Two keys of the same file agree iff their extensions do. |
| StorageService.Metadata | apps/server/src/storage/storage.service.ts:180-186 | The metadata always holds the content type. It holds an attachment disposition with `slug.ext` iff the file is not a JPEG. |
| StorageService.DeleteFindsUpload | apps/server/src/storage/storage.service.ts:211-221 | Deleting without an extension reaches the uploaded object iff it is not a Word document. |
| StorageService.BucketPolicyFillsEveryPlaceholder | apps/server/src/storage/storage.service.ts:73-76 | Every `{{bucketName}}` in the policy is replaced. |
| StorageService.InitBucket | apps/server/src/storage/storage.service.ts:50-101 | Start-up succeeds iff the check is skipped, the bucket exists, or it is created and its policy set. A created bucket gets the filled-in policy. |
| StorageService.Bucket.constructor | apps/server/src/storage/storage.service.ts:39-48 | The bucket starts empty. |
| StorageService.Bucket.UploadObject | apps/server/src/storage/storage.service.ts:115-203 | The URL is returned only after a successful put, and exactly the object at `userId/type/slug.ext` is written. Any resize or put failure is one upload error and leaves the bucket unchanged. |
| StorageService.Bucket.DeleteObject | apps/server/src/storage/storage.service.ts:205-230 | Removes exactly the object at the key built with the explicit or default extension. A failure reports that key. |
| StorageController.ImageRequest | apps/server/src/storage/storage.controller.ts:26-32 | An upload is accepted iff its MIME type starts with "image", and is then stored as a picture under the file's name. Otherwise it is a bad request. |
| StorageController.DocumentRequest | apps/server/src/storage/storage.controller.ts:42-60 | A document is accepted iff its MIME type is one of the three, and is forwarded with that MIME type. |
| StorageController.AcceptedDocumentKeepsType | apps/server/src/storage/storage.controller.ts:54-60 | An accepted document is stored with its own MIME type, never the PDF fallback. |
| StorageController.Forward | apps/server/src/storage/storage.controller.ts:32-60 | A rejected request makes no storage call. An accepted one performs the upload. |
| StorageController.UploadFile | apps/server/src/storage/storage.controller.ts:25-33 | A request without a file throws and a non-image is rejected, both before any storage call. An image is stored as a picture: on success the URL of its key is returned and exactly that key is written; a failed upload is a ServerError and leaves the bucket unchanged. |
| StorageController.UploadDocument | apps/server/src/storage/storage.controller.ts:38-61 | A request without a file throws and another file type is rejected, both before any storage call. A document is stored with its MIME type: on success the URL of its key is returned and exactly that key is written; a failed upload is a ServerError and leaves the bucket unchanged. |
| CreateDocument.Issues | libs/dto/src/document/create-document.ts:3-10 | Each issue is reported iff its field breaks its rule: empty title or filename, unknown kind, invalid URL, or a present file size that is not an integer or not positive. |
| CreateDocument.AcceptsFields | libs/dto/src/document/create-document.ts:3-10 | The schema accepts a request iff every field rule holds. |
| CreateDocument.OptionalFieldsOptional | libs/dto/src/document/create-document.ts:8-9 | Leaving out file size and MIME type never makes a request fail. |
| ImportDialog.ParseImportType | apps/client/src/pages/dashboard/documents/_dialogs/import.tsx:38-46 | The type parses iff it is "pdf", "doc" or "docx". |
| ImportDialog.AcceptMatchesStoredExtension | apps/client/src/pages/dashboard/documents/_dialogs/import.tsx:97-112 | The picker filter of each type is the extension storage gives that type's document. |
| ImportDialog.AllowedMimeDistinct | apps/client/src/pages/dashboard/documents/_dialogs/import.tsx:122-126 | No two import types allow the same MIME type. |
| ImportDialog.ParseForm | apps/client/src/pages/dashboard/documents/_dialogs/import.tsx:44-49 | The form parses iff a file is chosen, the type is known, the title is non-empty and the kind is known. |
| ImportDialog.Validate | apps/client/src/pages/dashboard/documents/_dialogs/import.tsx:114-151 | The result is valid, carrying the file, iff the form parses, the file is at most 10 MiB, and its MIME type is the chosen type's. Each failure gives its own message. |
| ImportDialog.SizeLimitInclusive | apps/client/src/pages/dashboard/documents/_dialogs/import.tsx:118-120 | Exactly 10 MiB passes, and one byte more fails. |
| ImportDialog.OtherTypeRefused | apps/client/src/pages/dashboard/documents/_dialogs/import.tsx:122-130 | A file of one type chosen under another import type is refused. |
| ImportDialog.ValidatedFileUploadable | apps/client/src/pages/dashboard/documents/_dialogs/import.tsx:122-130 | A validated file passes the upload endpoint's check and keeps its extension in storage. |
| ImportDialog.Buttons | apps/client/src/pages/dashboard/documents/_dialogs/import.tsx:341-364 | Validate is shown for no result, Discard for an invalid result, and Import with the Validated badge for a valid one. |
| ImportDialog.OneActionOffered | apps/client/src/pages/dashboard/documents/_dialogs/import.tsx:341-364 | Exactly one of Validate, Discard and Import is offered. |
| ImportDialog.ImportRequestAccepted | apps/client/src/pages/dashboard/documents/_dialogs/import.tsx:162-169 | A named, non-empty validated file with a valid URL yields a record the create-document schema accepts. |
| ImportDialog.EmptyFileBreaksSchema | apps/client/src/pages/dashboard/documents/_dialogs/import.tsx:118-169 | An empty file of the right type is validated, and the record sent for it breaks the create-document schema's positive `fileSize` rule. The create endpoint does not apply that schema, so the record is stored with `fileSize` 0. |
| ImportDialog.Dialog.constructor | apps/client/src/pages/dashboard/documents/_dialogs/import.tsx:73-80 | The dialog starts closed, with the default form and no result. |
| ImportDialog.Dialog.OnReset | apps/client/src/pages/dashboard/documents/_dialogs/import.tsx:186-193 | The reset gives the default form and no validation result. |
| ImportDialog.Dialog.Open | apps/client/src/pages/dashboard/documents/_dialogs/import.tsx:83-87 | Opening the dialog resets it. |
| ImportDialog.Dialog.SelectType | apps/client/src/pages/dashboard/documents/_dialogs/import.tsx:89-95 | A different type clears the form fields and the validation result. The same type changes nothing. |
| ImportDialog.Dialog.EditFields | apps/client/src/pages/dashboard/documents/_dialogs/import.tsx:73-95 | Editing the file, title or kind keeps the validation result. |
| ImportDialog.Dialog.OnValidate | apps/client/src/pages/dashboard/documents/_dialogs/import.tsx:114-151 | Records the verdict. A refusal also shows an error toast. |
| ImportDialog.Dialog.OnImport | apps/client/src/pages/dashboard/documents/_dialogs/import.tsx:153-184 | A failed schema parse throws first, and nothing happens unless the last validation succeeded. The validated file is uploaded, then the record is created, then the dialog closes. Each failure shows an error toast and keeps the dialog open. |
| IframeSizing.Resolve | apps/client/src/utils/iframe-sizing.ts:20-27 | Omitted options default to responsive, 320×400 minimum and 1200×1600 maximum. Given ones are kept. |
| IframeSizing.Clamp | apps/client/src/utils/iframe-sizing.ts:36-41 | The result is at least the minimum, at most the maximum when the bounds are ordered, and the value itself when in range. |
| IframeSizing.Calculate | apps/client/src/utils/iframe-sizing.ts:29-51 | A non-responsive result is (maxWidth, maxHeight). A responsive result with ordered bounds lies within both bounds. |
| IframeSizing.FixedIgnoresContainer | apps/client/src/utils/iframe-sizing.ts:29-34 | Without `responsive` the container size is ignored. |
| IframeSizing.NoRatioClampsOnly | apps/client/src/utils/iframe-sizing.ts:36-43 | Without a usable ratio (absent or 0) the result is the container size clamped on each axis. |
| IframeSizing.HeightFollowsWidth | apps/client/src/utils/iframe-sizing.ts:43-46 | When width/ratio fits the height bounds, the width is kept and the ratio holds exactly. |
| IframeSizing.WidthFollowsHeight | apps/client/src/utils/iframe-sizing.ts:47-50 | Otherwise the height is kept and the width is the clamped height×ratio. |
| IframeSizing.RatioFitsClamped | apps/client/src/utils/iframe-sizing.ts:36-51 | With a usable ratio, the ratio step applies to the clamped container size. |
| IframeSizing.EmbeddingConfiguration | apps/client/src/utils/iframe-sizing.ts:97-139 | Only the preview is fixed-size, and only the external embedding has a ratio (0.75). Every preset gives all four bounds, each minimum below its maximum. |
| IframeSizing.PreviewIsA4 | apps/client/src/utils/iframe-sizing.ts:120-128 | The preview embedding is always 794×1123. |
| IframeSizing.UnknownKindIsDefault | apps/client/src/utils/iframe-sizing.ts:129-137 | An unknown embedding kind sizes exactly like no options. |
| IframeSizing.ExternalBounds | apps/client/src/utils/iframe-sizing.ts:101-110 | The external embedding stays within 280..800 × 350..1000. |
| PopupOAuth.IsValidOrigin | apps/client/src/services/auth/popup-oauth.ts:22-44 | A message origin is trusted iff it is the page's own origin or the production origin. |
| PopupOAuth.Configure | apps/client/src/services/auth/popup-oauth.ts:16-20 | Each given option overrides its default: 500, 600 and 300000 ms. |
| PopupOAuth.PopupOffset | apps/client/src/services/auth/popup-oauth.ts:26-27 | The popup is centred on the opener window. |
| PopupOAuth.Classify | apps/client/src/services/auth/popup-oauth.ts:42-95 | An untrusted origin is ignored. Only `OAUTH_SUCCESS` and `OAUTH_ERROR` settle, and only an authenticated success with a user signs in, carrying that user. |
| PopupOAuth.SuccessNeedsUser | apps/client/src/services/auth/popup-oauth.ts:68-86 | A 2FA status gives the 2FA failure. Any other non-authenticated success gives the invalid-response failure. |
| PopupOAuth.ErrorKeepsProviderText | apps/client/src/services/auth/popup-oauth.ts:88-94 | An error settles with its own `error`, whatever its type, or with the default text when that is null or undefined. |
| PopupOAuth.AuthWait.constructor | apps/client/src/services/auth/popup-oauth.ts:46-61 | The wait starts pending, with the timeout, the interval and the listener all live. |
| PopupOAuth.AuthWait.Finish | apps/client/src/services/auth/popup-oauth.ts:97-105 | Cleanup clears the timeout, interval and listener, closes the popup, and settles. |
| PopupOAuth.AuthWait.OnMessage | apps/client/src/services/auth/popup-oauth.ts:63-95 | A pending wait settles with the classified result or stays pending. A settled wait never changes. |
| PopupOAuth.AuthWait.UserClosesPopup | apps/client/src/services/auth/popup-oauth.ts:53-61 | Closing the popup does not itself settle the wait. |
| PopupOAuth.AuthWait.OnCloseCheck | apps/client/src/services/auth/popup-oauth.ts:53-61 | A closed popup cancels a pending wait. |
| PopupOAuth.AuthWait.OnTimeout | apps/client/src/services/auth/popup-oauth.ts:48-51 | The timeout rejects a pending wait. |
| PopupOAuth.Authenticate | apps/client/src/services/auth/popup-oauth.ts:120-140 | A popup that did not open fails as blocked. A resolved wait gives its result, and a rejection becomes a failure with its message. |
| PopupOAuth.SignInNeedsTrustedSuccess | apps/client/src/services/auth/popup-oauth.ts:63-140 | A sign-in needs an opened popup and a trusted `OAUTH_SUCCESS`, and yields that message's user. |
| PopupOAuth.TimeoutFails | apps/client/src/services/auth/popup-oauth.ts:134-139 | A timeout becomes the timeout failure. |
| AuthStore.IsValidParentOrigin | apps/client/src/stores/auth.ts:23-39 | A parent origin is trusted iff it is one of the two gigafaze origins or the page's own origin. |
| AuthStore.TargetsShape | apps/client/src/stores/auth.ts:78-84 | The last post goes to "*". Every earlier post goes to an allowed origin other than the own one. |
| AuthStore.TargetsOfOtherOrigin | apps/client/src/stores/auth.ts:23-84 | Served from another domain, the app posts to both gigafaze origins and then to "*". |
| AuthStore.Store.constructor | apps/client/src/stores/auth.ts:43-44 | The store starts with no user, no posts and no listener. |
| AuthStore.Store.SetUser | apps/client/src/stores/auth.ts:47-49 | Sets only the user. |
| AuthStore.Store.NotifyParentWindow | apps/client/src/stores/auth.ts:62-88 | Outside an iframe nothing is posted. Inside, the same status message goes to each allowed origin other than the own one, then to "*". |
| AuthStore.Store.SetUserWithIframeNotification | apps/client/src/stores/auth.ts:51-60 | Stores the user, then announces "authenticated" with the user, or "unauthenticated". |
| AuthStore.Store.HandleIframeAuthSuccess | apps/client/src/stores/auth.ts:90-102 | Stores and announces the user. On a faze.pro host it also writes the domain cookie. |
| AuthStore.Store.HandleIframeAuthError | apps/client/src/stores/auth.ts:104-107 | Announces "error" with the message and leaves the user unchanged. |
| AuthStore.Store.InitializeIframeDetection | apps/client/src/stores/auth.ts:109-127 | Records the detection, and registers a parent listener only inside an iframe. |
| AuthStore.Store.HandleParentMessage | apps/client/src/stores/auth.ts:114-123 | A trusted `REQUEST_AUTH_STATUS` is answered with the current user's status. Anything else posts nothing. |
| DocumentService.FindAll | apps/server/src/document/document.service.ts:13-24 | The owner's documents of the given type, newest first, as a permutation of the matching rows. |
| DocumentService.FindAllExactly | apps/server/src/document/document.service.ts:13-24 | A row is listed iff it belongs to the owner and has the requested type. |
| DocumentService.FindAllIgnoresOthers | apps/server/src/document/document.service.ts:13-24 | Other users' rows do not affect a listing. |
| DocumentService.IndexOfDocument | apps/server/src/document/document.service.ts:27-29 | Finds the first row with that id and owner, or reports that none exists. |
| DocumentService.FindOne | apps/server/src/document/document.service.ts:26-36 | Succeeds iff a row with that id and owner exists. Otherwise it is NotFound. |
| DocumentService.FindOneOwnerOnly | apps/server/src/document/document.service.ts:26-36 | Another user's document is NotFound. |
| DocumentService.Apply | apps/server/src/document/document.service.ts:38-45 | An update changes only the patched fields, and `updatedAt` becomes the current time. |
| DocumentService.StatsOf | apps/server/src/document/document.service.ts:66-71 | The statistics map has a key exactly for each group's type. |
| DocumentService.CountByType | apps/server/src/document/document.service.ts:55-77 | The owner's count splits into the four per-type counts. |
| DocumentService.GroupsAreTypeCounts | apps/server/src/document/document.service.ts:61-65 | The groups are exactly the occurring types, each with its count. |
| DocumentService.StatsLookup | apps/server/src/document/document.service.ts:68-71 | With distinct types, each group's count is stored for its type. |
| DocumentService.StatsAreTypeCounts | apps/server/src/document/document.service.ts:55-77 | The statistics have an entry exactly for each occurring type, holding its count, and the entries sum to the total. |
| DocumentService.GroupKindsDistinct | apps/server/src/document/document.service.ts:61-65 | No type is grouped twice. |
| DocumentService.DistinctFilter | apps/server/src/document/document.service.ts:61-65 | Dropping empty groups keeps the types distinct. |
| DocumentService.RemoveAt | apps/server/src/document/document.service.ts:47-53 | Removing one row keeps the ids unique and drops exactly the rows with its id. |
| DocumentService.DocumentTable.constructor | apps/server/src/document/document.service.ts:7 | The table starts empty. |
| DocumentService.DocumentTable.Create | apps/server/src/document/document.service.ts:9-11 | Appends the row, or fails as a duplicate id and leaves the table unchanged. |
| DocumentService.DocumentTable.Update | apps/server/src/document/document.service.ts:38-45 | A missing or foreign document is NotFound and the table is unchanged. Otherwise only the matched row changes, and other users' rows never do. |
| DocumentService.DocumentTable.Delete | apps/server/src/document/document.service.ts:47-53 | A missing or foreign document is NotFound and the table is unchanged. Otherwise exactly that one row is removed. |
| DocumentService.DocumentTable.GetDocumentStats | apps/server/src/document/document.service.ts:55-77 | The total is the owner's count. Entries exist exactly for occurring types, hold their counts, and sum to the total. |
| UserService.Find | apps/server/src/user/user.service.ts:17-20 | Finds the first user satisfying the condition, or reports that none does. |
| UserService.FindOneById | apps/server/src/user/user.service.ts:16-27 | A missing user gives RecordNotFound, and a user without secrets gives SecretsNotFound. Success returns the stored user. |
| UserService.FindOneByIdExactly | apps/server/src/user/user.service.ts:16-27 | With unique ids, the lookup succeeds exactly for a stored user that has secrets. |
| UserService.FindOneByIdentifier | apps/server/src/user/user.service.ts:29-49 | The user with that e-mail or username is returned, or nothing iff neither matches. |
| UserService.EmailFirst | apps/server/src/user/user.service.ts:30-37 | An e-mail match wins. |
| UserService.UsernameSecond | apps/server/src/user/user.service.ts:39-48 | Without an e-mail match, the username decides. |
| UserService.FindOneByIdentifierOrThrow | apps/server/src/user/user.service.ts:51-71 | The only error is RecordNotFound. |
| UserService.OrThrowAgrees | apps/server/src/user/user.service.ts:29-71 | The throwing lookup returns the same user, and throws exactly where the plain lookup finds none. |
| UserService.FindAllUsers | apps/server/src/user/user.service.ts:95-109 | Defaults are page 1 and limit 10. The page is the newest-first order with (page-1)·limit users skipped and at most limit taken. The total counts every user. |
| UserService.UserOnItsPage | apps/server/src/user/user.service.ts:95-109 | Entry m of page p is the user at position (p-1)·limit+m of the newest-first order, for every position the table has. |
| UserService.PageNewestFirst | apps/server/src/user/user.service.ts:99-101 | Each page is ordered newest first. |
| UserService.AdminUserRow | apps/server/src/user/user.service.ts:118-146 | Locale defaults to "en-US" and role to "USER". The provider is "email", the e-mail is verified, and the secrets hold the password hash. |
| UserService.UserTable.constructor | apps/server/src/user/user.service.ts:11-14 | The table starts empty. |
| UserService.UserTable.CreateUserAsAdmin | apps/server/src/user/user.service.ts:118-146 | A role outside the `Role` enum is refused. Otherwise the defaulted row is inserted, unless a taken id, e-mail or username makes it fail. A failure leaves the table unchanged. |
| UserService.UserTable.UpdateUserRole | apps/server/src/user/user.service.ts:111-116 | A role outside the `Role` enum is refused. Otherwise only the role of the user with that id changes, and a missing user is RecordNotFound. A failure leaves the table unchanged. |

## Left out

- I/O and foreign code are parameters or oracles, and their internals are not modelled:
  - the browser (navigation, waits, `page.pdf`), pdf-lib, the DOCX packer and `sharp`;
  - `slugify`, `createId`, bcrypt, the MinIO client and Prisma;
  - `JSON.parse`, the e-mail, phone and year-range regexes, the URL check of the validation library, the clock and `window.open`.
- Timing and concurrency are not modelled:
  - the retry backoff and the 3 s sleep;
  - the popup's `setTimeout` and `setInterval`, which become the events `OnTimeout` and `OnCloseCheck`;
  - `Promise.all`.
- Floating point: iframe sizes are reals, so IEEE rounding and NaN are not modelled.
- `PopupOAuth.Configure`: an explicit `undefined` option is not modelled; the options are given or omitted. In the source the spread `{...DEFAULT_OPTIONS, ...options}` lets an explicit `undefined` override the default, so `timeout: undefined` makes the timeout fire at once. (For iframe sizing, whose destructuring defaults treat an explicit `undefined` as omitted, given-or-omitted is exact.)
- `Text.ToLower`: lowers ASCII letters only, where `toLowerCase` lowers every Unicode letter. Keyword and "present"/"current" matching in the DOCX parser can differ for text whose capitals are not ASCII.
- The builder's content-width formula depends on page-size constants that are not part of this model. The zoom animations are reduced to a record of the canvas calls made.
- `Builder.Normalize` requires that no column contains `null`; on `null` the source throws at `"visible" in section`.
- `Providers.Artboard.LoadResumeData`: for an array `sections`, the source sets the 13 default sections and `custom` as named properties of the array (apps/artboard/src/providers/index.tsx:66-81), backfills them in the `Object.keys` loop, and installs that array with those properties. The model's JSON values have no arrays carrying named properties, so it installs the backfilled elements only (`Providers.LoadSections`).
- `Providers.Load`: a snapshot whose `sections` is a string, number or boolean makes the first default assignment throw, so it installs nothing, as in the source.
- `Printer`: the preview generation (`generatePreview`) and `getVersion` are not part of this model.
- `Printer.GenerateResume`: the error text of the thrown printer error is not modelled; only its cause is.
- `DocxSections`: the font sizes and styling are modelled as run attributes, but the packing into a file is not.
- `DocxSections.SkillsListVisibleNames`: states containment of each visible name rather than the exact joined string (the exact form is `NamesSection`'s definition).
- `StorageService`: `deleteFolder` (a listing loop over the storage client) and `bucketExists` (a single client call) are not part of this model.
- `CreateDocument.CustomMessage`: gives only the three messages the schema sets itself; the validation library's default messages for the enum and number checks are not modelled.
- `CreateDocument.Issues`: fields are typed, so a wrong JSON type for a field is out of scope.
- `ImportDialog.Validate`: the schema error text is a parameter, since the validation library formats it.
- `ImportDialog.Dialog.OnImport`: the upload's answer and whether the create call succeeds are parameters. The toast descriptions are not modelled.
- `ImportDialog.Dialog.SelectType`: the form effect also runs when its payload changes; only a type change is modelled.
- `PopupOAuth`: the translation macro is taken as the identity, and the popup's window features string is not modelled beyond the centring offsets.
- `AuthStore`: an exception thrown by `postMessage` (caught and logged) is not modelled. `typeof document` is taken to be defined, and the persisted part is just the user (`Persisted`). The timestamp is the parameter `now`.
- `DocumentService.DocumentTable.Update`: `updatedAt` is refreshed to the parameter `now` on every update, as the column's auto-update attribute does; the database schema is not part of this model.
- `DocumentService.FindAll`: the database leaves the order of equal `updatedAt` values open; the model fixes one.
- `DocumentService.GroupByType`: the groups come in enum order, an order the database does not promise; the statistics map does not depend on it.
- `DocumentService.DocumentTable.Create`: the input is a full row; a taken id is the only database error modelled.
- `UserService.FindAllUsers`: a negative skip or take is reported as InvalidArguments, whereas the database would treat a negative take as counting from the end. The database also leaves the order of users with equal `createdAt` open; the model fixes one (the sort keeps table order among them), so the exact positions of `UserService.UserOnItsPage` hold for that order.
- `UserService.UserTable`: the values of the `Role` enum ("USER", "ADMIN", "SUPER_ADMIN") are those the admin client sends (apps/client/src/services/admin/index.ts:60); the database schema that declares the enum is not part of this model. The enum check is taken to come before the lookup or the insert.
- `UserService`: `create`, `updateByEmail`, `updateByResetToken` and `updateUserById` are single database calls with no logic of their own. `deleteOneById` runs a storage deletion and a database deletion concurrently, and `getUserStats` counts over the clock and a résumé table; neither is part of this model.
