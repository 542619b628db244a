# Upload service, final-report rendering and compliance prompt: a Dafny model

This project models three deterministic pieces of the compliance-audit backend.

- **Document upload** (`DocumentService`). It validates an uploaded file's name
  and extension, copies the upload stream to a dated folder under the data root
  in 1 MiB chunks, and resolves the document's source type and organization. It
  then adds the `Document` row and commits it. It makes up to five attempts
  (four retries) while the database reports that it is locked.
- **Final-report review routes.** `_final_report_to_markdown` renders a final
  report as Markdown lines joined with newlines. `_resolve_audit` finds the audit
  named in a URL, by primary key or by external id. A gate sends back 404 for an
  unknown audit and 400 for one that is not completed. The download file name is
  `final_report_<name>_<date>.<format>`. The code forms `<name>` by removing every
  occurrence of the file's suffix; the corrected name removes only the trailing one
  (see Findings).
- **The compliance user prompt** (`build_user_prompt`). It fills a fixed template
  from a context bundle: the heading path, the stripped focus text, four slice
  counts and the rendered context, with the fallbacks `N/A` and `None supplied`.

The modules are:

- `Wrappers`: `Option` and `Result`.
- `Text`: the Python string operations the code relies on. These are `strip`,
  `lower`, `startswith`, `in`, `join`, `split`, `replace`, `isdigit`,
  `isdecimal`, `int` and `str` of a non-negative integer.
- `Paths`: `PurePosixPath.name` and `.suffix`.
- `Documents`, `Review` and `Prompts`: one module per source file.

Stateful code is modelled imperatively:

- The service is a class over a `FileStore` (folders and file contents) and a
  `Session`. The session holds the pending and the committed rows, the scripted
  commit outcomes, and attempt and rollback counters.
- The stream copy, the retry loop and the Markdown builder are loops.

Each is proved against a pure specification function (`PersistOutcome`,
`CommitResult`, `Admitted`, `MarkdownLines`), and the promised properties are
proved about those functions.

Environment values are parameters (`Environment`):

- the clock (the `%Y/%m/%d` folder and the `%Y-%m-%d` date);
- `uuid4().hex`;
- whether creating the folder and opening the destination succeed;
- the `mimetypes` guess;
- the SHA-256 hex digest.

`textwrap.dedent` is a function parameter of the prompt builder.

## Model

| member | source | states |
|---|---|---|
| Documents.CheckFilename | backend/app/services/documents.py:52-58 | an accepted upload's extension is one of the five allowed ones. The refusal is the missing-filename error exactly when the name is absent or empty; any other refusal is an unsupported type |
| Documents.CheckedExtension | backend/app/services/documents.py:55-58 | for a named upload, the lower-cased suffix is the extension accepted when it is allowed, and otherwise the extension the unsupported-type refusal quotes |
| Documents.AcceptedIffAllowedEnding | backend/app/services/documents.py:55-56 | a named upload is accepted exactly when its file name ends, ignoring ASCII case, with an allowed extension that has at least one character before it |
| Documents.AllowedSuffixIffEnding | backend/app/services/documents.py:55-56 | the lower-cased `suffix` is allowed exactly when the name has an allowed ending, in both directions |
| Documents.ListingsAreSortedWhitelists | backend/app/services/documents.py:57 | the extension and source-type listings quoted in errors are strictly sorted and name exactly the two whitelists |
| Documents.ExtensionListing | backend/app/services/documents.py:57-58 | the unsupported-file-type message quotes the extension and lists `docx, html, md, pdf, txt` |
| Documents.SourceTypeListing | backend/app/services/documents.py:186-189 | the unsupported-source-type message quotes the candidate as given and lists `amc, evidence, gm, manual, regulation` |
| Documents.NormalizeSourceType | backend/app/services/documents.py:181-190 | a result is always an allowed type; a refusal happens only for a given (non-empty) candidate and quotes it unchanged |
| Documents.NormalizeRejectsIff | backend/app/services/documents.py:181-190 | normalisation refuses exactly the non-empty candidates whose stripped, lower-cased form is not allowed. It gives `manual` for an absent or empty candidate, and the stripped, lower-cased form for an accepted one |
| Documents.NormalizeIdempotent | backend/app/services/documents.py:181-190 | a normalised source type normalises to itself |
| Documents.SourcePrecedence | backend/app/services/documents.py:62-66 | `source_type` wins over `source`, and an accepted `source_type` is stored stripped and lower-cased. A `source` naming an allowed type (any case) is used lower-cased; otherwise the type is `manual`. Only a bad `source_type` makes resolution fail |
| Documents.SourceFillsOneSlot | backend/app/services/documents.py:62-70 | an explicit organization is kept. Without one, whatever `source_type` is, a given `source` whose lower-case form is not an allowed source type becomes the organization, and otherwise the organization stays empty. Without `source_type`, a given `source` becomes either the source type or the organization, never both and never neither |
| Documents.ContentType | backend/app/services/documents.py:145-149 | the stored content type is never empty (declared type, else the guess, else `application/octet-stream`) |
| Documents.StoredUploadShape | backend/app/services/documents.py:121-158 | a stored upload is named token plus allowed extension, sits in today's folder, records the full byte count (never 0), and keeps a slash-free original name; with both I/O steps succeeding it is refused as empty exactly when the content is empty |
| Documents.StoragePath | backend/app/services/documents.py:75 | the stored path has no backslash left and keeps its length |
| Documents.StoragePathPlain | backend/app/services/documents.py:75 | a path built from the dated folder, the hex token and an extension is stored unchanged |
| Documents.AdmittedDocument | backend/app/services/documents.py:60-83 | an admitted document has the uploaded name, the token-plus-extension stored name and the forward-slash path; its size is the non-zero content length and its digest is that of the content; its status is `uploaded`, its source type is allowed, and it keeps the caller's description |
| Documents.StopAttempt | backend/app/services/documents.py:91-103 | the loop stops within five attempts, every earlier attempt was a retried lock error, and the stopping attempt is not retried |
| Documents.CommitSucceedsIff | backend/app/services/documents.py:91-103 | the corrected loop succeeds exactly when one of the first five attempts succeeds after only lock errors |
| Documents.OtherErrorsNotRetried | backend/app/services/documents.py:96-103 | an error not mentioning a locked database is raised at the first attempt |
| Documents.FiveLocksRaise | backend/app/services/documents.py:97-103 | five lock errors in a row end the loop at the fifth attempt, raising its error |
| Documents.UploadStream.Rewind | backend/app/services/documents.py:124-128 | after `seek(0)` the unread bytes are the whole stream when it is seekable, and unchanged otherwise |
| Documents.UploadStream.Read | backend/app/services/documents.py:167 | a read returns at most the requested size, is empty only at the end, and consumes exactly what it returns |
| Documents.FileStore.MakeDirectory | backend/app/services/documents.py:110 | the folder exists afterwards |
| Documents.FileStore.Create | backend/app/services/documents.py:165 | opening for writing leaves an empty file |
| Documents.FileStore.Append | backend/app/services/documents.py:172 | a write appends the chunk to the file |
| Documents.Session.Add | backend/app/services/documents.py:85 | the row is appended to the pending rows |
| Documents.Session.Commit | backend/app/services/documents.py:93 | one commit consumes one scripted outcome. On success the pending rows are stored and none stay pending; on failure nothing is written |
| Documents.Session.Refresh | backend/app/services/documents.py:94 | refreshing fails, with the not-persistent error, exactly for a row that is not stored |
| Documents.Session.Rollback | backend/app/services/documents.py:98 | the pending rows are expunged and the rollback is counted |
| Documents.Concat | backend/app/services/documents.py:166-172 | the chunks written add up to the total byte count |
| Documents.StreamToDisk | backend/app/services/documents.py:161-179 | on a successful open, the file holds exactly the unread bytes, the stream is exhausted, and the count and digest are those of the bytes; every chunk is non-empty and at most 1 MiB; a failed open reads and writes nothing |
| Documents.DocumentService.PersistFile | backend/app/services/documents.py:105-158 | the result is `PersistOutcome` of the bytes after rewinding; the folder and file are created as far as the I/O gets; a stored upload's file holds exactly those bytes, and an empty file stays on disk |
| Documents.DocumentService.CommitWithRetryAsWritten | backend/app/services/documents.py:86-103 | the loop as written ends with `CommitResultAsWritten`, with one attempt more than the rollbacks. The stored rows grow by `CommittedRowsAsWritten`: the pending rows if the first commit succeeds, nothing otherwise |
| Documents.DocumentService.CommitWithRetry | backend/app/services/documents.py:86-103 | the corrected loop adds the document again after each rollback. It ends with `CommitResult`, with one attempt more than the rollbacks. The stored rows grow by `CommittedRows` and the pending rows become `PendingAfter` |
| Documents.NotPersistentIsNotLock | backend/app/services/documents.py:97 | the refresh error does not mention a locked database, so it is never retried |
| Documents.CommittedDocument | backend/app/services/documents.py:91-94 | the corrected loop stores the document exactly when it reports success, and leaves it pending when it fails |
| Documents.AsWrittenSucceedsOnlyFirstTime | backend/app/services/documents.py:91-103 | the loop as written succeeds exactly when the first commit does, and it stores the document exactly when it succeeds. Once a lock error is retried, it fails |
| Documents.AsWrittenAgreesWithoutRetry | backend/app/services/documents.py:91-103 | without a retry, the loop as written and the corrected loop give the same result |
| Documents.LockThenSuccess | backend/app/services/documents.py:91-103 | a lock error followed by a successful commit: the corrected loop succeeds, and the loop as written raises the refresh error |
| Documents.DocumentService.CreateFromUpload | backend/app/services/documents.py:41-103 | a missing payload or a bad name changes nothing. After a valid name, the folder and the file are created exactly as far as the environment lets them be, and a file is left stored when the source type is then refused. Otherwise exactly the `Admitted` document is added and committed with the corrected retry loop. The counters, stored rows and pending rows follow that loop, and the result is that document or the commit error |
| Review.Bullets | backend/app/api/review.py:396-397 | one `- <rec>` line per recommendation, in input order |
| Review.AppendBullets | backend/app/api/review.py:396-397 | the loop appends exactly `Bullets(recs)` |
| Review.AppendItem | backend/app/api/review.py:388-398 | appends exactly the lines of one item |
| Review.AppendItems | backend/app/api/review.py:387-398 | appends the items' lines in order |
| Review.AppendItemSection | backend/app/api/review.py:382-398 | a section heading and its items, only when there are items |
| Review.AppendRecommendationSection | backend/app/api/review.py:418-425 | the overall recommendations section, only when there are recommendations |
| Review.FinalReportToMarkdown | backend/app/api/review.py:371-434 | the loop-built text equals the specification lines joined with newlines |
| Review.MarkdownFrame | backend/app/api/review.py:371-434 | every report opens with the title and executive summary block and always ends with the overall assessment block |
| Review.ItemRecommendationBlock | backend/app/api/review.py:387-398 | the title defaults to `Critical Issue`/`Warning` and the description to ""; the recommendations block exists only for non-empty recommendations and has exactly one bullet per recommendation, in order, followed by "" |
| Review.MarkdownHeadings | backend/app/api/review.py:371-434 | the level-2 headings are the executive summary, then each optional section exactly when its list is non-empty, in fixed order, then the overall assessment last |
| Review.MarkdownSplitsIntoLines | backend/app/api/review.py:434 | splitting the text on newlines gives back the lines, when no field holds a newline |
| Review.AuditById | backend/app/api/review.py:28 | the primary-key lookup returns an audit with that id, or none exists |
| Review.AuditByKey | backend/app/api/review.py:28 | a decimal identifier is looked up exactly when `int()` reads it (at most 4300 digits) and SQLite can bind it (at most 2^63 - 1). The result is then the audit with that id or none; otherwise the error is `int()`'s or SQLite's |
| Review.WithExternalId | backend/app/api/review.py:31 | the query selects exactly the audits with that external id |
| Review.OneOrNone | backend/app/api/review.py:32 | no row gives none, one row gives it, several rows raise |
| Review.ResolveAuditAsWritten | backend/app/api/review.py:25-32 | the written lookup raises `int()`'s error exactly for digit strings that are not decimal or have more than 4300 digits. It raises SQLite's range error exactly for a shorter decimal identifier beyond 2^63 - 1, and raises on several rows only for an identifier that is not a digit string |
| Review.ResolveAudit | backend/app/api/review.py:25-32 | a decimal identifier that `int()` reads and SQLite can bind finds the audit with that id or none exists. Any non-decimal identifier finds the single audit with that external id, or none when there is none. It raises exactly when several audits share that external id, or when a decimal identifier is too long for `int()` or too large for SQLite |
| Review.ResolveAuditDiffersOnlyOnDigitOnly | backend/app/api/review.py:27-28 | the written lookup raises `int()`'s error exactly for digit strings that are not decimal (with a character of Unicode 15.0 numeric type Digit, such as `²` or `①`) or have more than 4300 digits. It agrees with `ResolveAudit` on every identifier except the non-decimal digit strings |
| Review.SuperscriptIdentifierCrashes | backend/app/api/review.py:27-28 | the identifier "²" makes the written lookup raise, giving a server error where the corrected gate gives 404 |
| Review.ReportGateDecides | backend/app/api/review.py:160-166 | a report is generated exactly when the resolved audit exists and is completed, and then for the audit with that id (decimal identifier) or external id. The gate gives 404 exactly when no audit is found and 400 exactly when the found audit is not completed. It gives a server error exactly when several audits share a non-decimal identifier, or a decimal identifier is too long for `int()` or too large for SQLite |
| Review.UnreadableKeyIsServerError | backend/app/api/review.py:27-28 | a decimal identifier too long for `int()` or too large for SQLite is a server error on both lookups |
| Review.DocumentById | backend/app/api/review.py:174 | the document lookup returns a document with that id, or none exists |
| Review.AuditNameAsWritten | backend/app/api/review.py:175 | removing the suffix never lengthens the name |
| Review.Stem | backend/app/api/review.py:175 | the stem followed by the suffix is the file name |
| Review.AuditName | backend/app/api/review.py:175 | the name part followed by the suffix is the original file name |
| Review.DownloadFilenameShape | backend/app/api/review.py:174-177 | the corrected download name starts with `final_report_` and ends with `_<date>.<format>`. Without a document (no id, id 0 or no row) it is `final_report_audit_<external id>_...`; with one, its name part is the file's stem |
| Review.DownloadFilenameAsWrittenShape | backend/app/api/review.py:174-177 | the download name as written has the same prefix and tail and the same name without a document. With a document, its name part is the original file name with every occurrence of the suffix removed |
| Review.DownloadNamesAgree | backend/app/api/review.py:174-177 | for plain file names whose suffix occurs only at the end, the name as written and the corrected name agree |
| Review.AsWrittenNameIsStem | backend/app/api/review.py:175 | when the suffix occurs only at the end, removing every occurrence is the same as taking the stem |
| Review.RepeatedSuffixIsRemovedTwice | backend/app/api/review.py:175 | `notes.md.md` gives `notes` as written, where its stem is `notes.md` |
| Prompts.BuildUserPrompt | backend/app/prompts/compliance.py:82-179 | the prompt has no surrounding whitespace. It is the slice of the dedented filled template left once the leading and trailing whitespace is cut off, and everything cut off on either side is whitespace |
| Prompts.PromptIsStripped | backend/app/prompts/compliance.py:178 | stripping the prompt again changes nothing |
| Prompts.HeadingSlot | backend/app/prompts/compliance.py:86-103 | the heading is the path joined with ` > `, and `N/A` exactly when that join is empty (no path, or one empty part); it is never empty |
| Prompts.FocusSlot | backend/app/prompts/compliance.py:85-105 | the focus slot is the focus content minus its leading and trailing whitespace |
| Prompts.CountSlots | backend/app/prompts/compliance.py:90-116 | each count slot reads back as the number of slices of its kind |
| Prompts.ContextSlot | backend/app/prompts/compliance.py:87-119 | the filled template holds the rendered context right after the prose before it, or `None supplied` there when the rendered context is empty |
| Prompts.InterleaveAt | backend/app/prompts/compliance.py:96-177 | each interpolated value can be read back at its offset in the filled text |
| Prompts.SlotsInFill | backend/app/prompts/compliance.py:96-177 | each of the seven slot values sits in the filled template right after the prose before it |
| Text.Strip | backend/app/services/documents.py:184 | `strip()` leaves trimmed text that is the input minus its leading and trailing whitespace, and is empty exactly for all-whitespace input |
| Text.StripIdempotent | backend/app/services/documents.py:184 | stripping twice is stripping once |
| Text.SplitJoin | backend/app/api/review.py:434 | splitting a join on the same one-character separator returns the parts |
| Text.JoinEmpty | backend/app/prompts/compliance.py:86 | a join with a non-empty separator is empty exactly for no parts or a single empty part |
| Text.DecimalRoundTrip | backend/app/prompts/compliance.py:113-116 | the decimal rendering of a count reads back as that count |
| Text.RemoveAllTrailing | backend/app/api/review.py:175 | `replace(p, "")` on a text where `p` occurs only at the end removes just that occurrence |
| Paths.NameSuffix | backend/app/services/documents.py:55 | a suffix is empty or a dot plus dot-free text that ends the name, with something before it |
| Paths.SuffixOfEnding | backend/app/services/documents.py:55 | any dotted, dot-free ending with something before it is the suffix |
| Paths.Name | backend/app/services/documents.py:157 | a file name never contains `/` |

## Left out

- Error messages quote directories and destinations relative to the data root. The code quotes absolute paths, and the operating system's error text is an opaque `reason`.
- The database is not modelled as a real database:
  - The session replays a scripted outcome per commit.
  - A document's value stands for its Python instance. An instance is persistent exactly when its row is among the committed rows.
  - Of SQLAlchemy's rollback, only the expunging of the pending rows is modelled.
  - The refresh error is `NotPersistentError`, without the instance's `repr`.
- `time.sleep` and the exponential backoff between retries are left out. They do not change any result.
- A permission or OS error raised while writing chunks, after the destination is open, is not modelled. Opening is the only failing step.
- `textwrap.dedent`, SHA-256 and `mimetypes.guess_type` are opaque parameters.
- Date formatting and `uuid4` are left out; their results are parameters.
- Text.Lower: maps ASCII letters and U+212A (Kelvin sign) and leaves every other character unchanged, one character for one. Accept and reject decisions are not affected, because Python's other lower-case forms never equal an ASCII constant. The extension quoted in the unsupported-file-type message can differ: `.PDÉ` is quoted as `.pdÉ`, where Python gives `.pdé`.
- Text.IsDecimal: Unicode decimal digits outside ASCII, such as `٣`, are not modelled. `isdecimal`, `isdigit` and `int()` treat them as digits; the model treats them as ordinary characters. The digits that only `isdigit` accepts are modelled in full.
- Review.AuditByKey: `int()`'s digit limit is CPython's default of 4300; a limit changed through `sys.set_int_max_str_digits` or `PYTHONINTMAXSTRDIGITS` is not modelled. The key range is SQLite's; other database backends are not modelled.
- `Path.suffix` follows the rule used up to Python 3.13: a last dot that is neither the first nor the last character. Only POSIX `/` separators are modelled.
- Dictionary values of the wrong type are not modelled: a `title` of `None`, a non-string description, a non-list `section_path`. An absent key is `None` or the empty list.
- PDF and DOCX export (`md2pdf`, python-docx, temporary files) is left out, as are JSON serialisation and the HTTP response objects. The report generator, context builder and compliance score are not part of this model, nor is `SYSTEM_PROMPT`.
- Prompts.BuildUserPrompt: the fixed prose of the template is a parameter with eight fragments, not the literal text. The slot properties are stated on the filled template before `dedent`, because `dedent` is opaque.

## Findings

| source | as written | input that shows it | evidently intended | confidence | as-written member | corrected member |
|---|---|---|---|---|---|---|
| backend/app/api/review.py:27-28 | the identifier is tested with `str.isdigit()` and then read with `int()`, outside the route's error handler | the identifier `²` (superscript two): `isdigit()` accepts it, `int()` raises `ValueError`, and the route answers 500 | test with `isdecimal()`, so that such identifiers are looked up as external ids and a missing audit gives 404 | not executed | Review.ResolveAuditAsWritten, Review.SuperscriptIdentifierCrashes | Review.ResolveAudit, Review.ResolveAuditDiffersOnlyOnDigitOnly |
| backend/app/api/review.py:175 | the name part is `original_filename.replace(suffix, "")`, which removes every occurrence of the suffix | `notes.md.md` becomes `notes` | the stem `notes.md` (the name without its trailing suffix) | not executed | Review.AuditNameAsWritten, Review.RepeatedSuffixIsRemovedTwice, Review.DownloadFilenameAsWrittenShape | Review.AuditName, Review.Stem, Review.AsWrittenNameIsStem, Review.DownloadFilenameShape |
| backend/app/services/documents.py:91-103 | after a lock error the loop rolls back and retries, but the rollback expunges the added document, which is never added again | the first commit fails with `database is locked` and the second would succeed. The second commit writes nothing, `refresh(document)` raises `InvalidRequestError`, and that error is raised because it is not a lock error | add the document again after the rollback, so that a retried commit stores it and returns it | not executed; relies on SQLAlchemy expunging pending objects on rollback | Documents.DocumentService.CommitWithRetryAsWritten, Documents.LockThenSuccess, Documents.AsWrittenSucceedsOnlyFirstTime | Documents.DocumentService.CommitWithRetry, Documents.CommittedDocument |
