/**
 * The document upload service: validation of the uploaded file, resolution
 * of the source type and the organization, the copy of the upload stream to
 * disk, and the commit of the new document row with retries while the
 * database is locked.
 *
 * The clock (the dated upload folder), the random token (`uuid4().hex`), the
 * outcome of creating the folder and of opening the destination file, the
 * mimetype guess and the SHA-256 digest come from the environment and are
 * parameters here. The database session is a scripted collaborator: it
 * records what is added and answers each commit with a scripted outcome.
 */
module Documents {
  import opened Wrappers
  import opened Text
  import opened Paths

  // ---------------------------------------------------------------------------
  // Constants
  // ---------------------------------------------------------------------------

  const AllowedExtensions: set<string> := {".pdf", ".docx", ".md", ".txt", ".html"}
  const AllowedSourceTypes: set<string> := {"manual", "regulation", "amc", "gm", "evidence"}
  const DefaultSourceType: string := "manual"

  /** The extensions without their dot, in sorted order, as the error message lists them. */
  const ExtensionNames: seq<string> := ["docx", "html", "md", "pdf", "txt"]
  /** The source types in sorted order, as the error message lists them. */
  const SourceTypeNames: seq<string> := ["amc", "evidence", "gm", "manual", "regulation"]

  /** Folder, relative to the data root, under which uploads are stored. */
  const UploadRoot: string := "uploads"
  const FallbackContentType: string := "application/octet-stream"
  /** Bytes asked for by each read of the upload stream (1 MiB). */
  const ReadSize: nat := 1024 * 1024
  /** Number of commit attempts before giving up. */
  const MaxRetries: nat := 5
  const LockMessage: string := "database is locked"

  // ---------------------------------------------------------------------------
  // Data
  // ---------------------------------------------------------------------------

  newtype byte = x: int | 0 <= x < 256

  /** What an operating-system call did: succeed, or raise `PermissionError` / another `OSError`. */
  datatype IoOutcome = IoOk | PermissionDenied(reason: string) | OsFailure(reason: string)

  /** The reasons `DocumentUploadError` is raised. */
  datatype UploadError =
    | MissingPayload
    | MissingFilename
    | UnsupportedFileType(extension: string)
    | DirectoryPermissionDenied(directory: string, reason: string)
    | DirectoryFailed(directory: string, reason: string)
    | WritePermissionDenied(destination: string, reason: string)
    | WriteFailed(destination: string, reason: string)
    | EmptyFile
    | UnsupportedSourceType(candidate: string)

  /** How `create_from_upload` can fail: a `DocumentUploadError`, or the commit error it re-raises. */
  datatype CreateError = Rejected(reason: UploadError) | CommitFailed(message: string)

  /** What `_persist_file` returns. */
  datatype StoredUpload = StoredUpload(
    relativePath: string,
    storedFilename: string,
    sizeBytes: nat,
    sha256: string,
    contentType: string,
    originalFilename: string)

  /** The `Document` row the service creates. */
  datatype Document = Document(
    originalFilename: string,
    storedFilename: string,
    storagePath: string,
    contentType: string,
    sizeBytes: nat,
    sha256: string,
    status: string,
    sourceType: string,
    organization: Option<string>,
    description: Option<string>)

  /**
   * The values the service takes from its environment: today's folder
   * (`%Y/%m/%d`), the random hex token, what creating the folder and opening
   * the destination do, the guessed mimetype and the hex digest function.
   */
  datatype Environment = Environment(
    dateFolder: string,
    token: string,
    makeDirectory: IoOutcome,
    openDestination: IoOutcome,
    guessedType: Option<string>,
    digest: seq<byte> -> string)

  /** A lower-case hexadecimal character. */
  predicate IsLowerHex(c: char) {
    ('0' <= c <= '9') || ('a' <= c <= 'f')
  }

  /** What `uuid4().hex` produces: 32 lower-case hexadecimal characters. */
  predicate IsHexToken(t: string) {
    |t| == 32 && forall k :: 0 <= k < |t| ==> IsLowerHex(t[k])
  }

  /** Python truthiness of an optional string: present and non-empty. */
  predicate Given(s: Option<string>) {
    s.Some? && s.value != ""
  }

  // ---------------------------------------------------------------------------
  // Validation and normalisation (pure)
  // ---------------------------------------------------------------------------

  /**
   * The checks on the upload's filename: present and non-empty, and its
   * lower-cased suffix one of the allowed extensions; the result is that
   * extension.
   */
  function CheckFilename(filename: Option<string>): (r: Result<string, UploadError>)
    ensures r.Success? ==> r.value in AllowedExtensions
    ensures r == Failure(MissingFilename) <==> !Given(filename)
    ensures r.Failure? ==> r.error == MissingFilename || r.error.UnsupportedFileType?
  {
    if !Given(filename) then Failure(MissingFilename)
    else
      var extension := Lower(Suffix(filename.value));
      if extension in AllowedExtensions then Success(extension)
      else Failure(UnsupportedFileType(extension))
  }

  /**
   * A named upload is checked on its lower-cased suffix: that suffix is the
   * extension accepted, or the one the refusal quotes.
   */
  lemma CheckedExtension(filename: Option<string>)
    requires Given(filename)
    ensures var extension := Lower(Suffix(filename.value));
      CheckFilename(filename) == if extension in AllowedExtensions then Success(extension)
                                 else Failure(UnsupportedFileType(extension))
  {
  }

  /** The name ends, ignoring ASCII case, with an allowed extension that something precedes. */
  predicate HasAllowedEnding(name: string) {
    exists e :: e in AllowedExtensions && |e| < |name| && Lower(name[|name| - |e|..]) == e
  }

  /** Only a dot lower-cases to a dot. */
  lemma LowerDot(c: char)
    ensures LowerChar(c) == '.' <==> c == '.'
  {
  }

  /** Every allowed extension is a dot followed by dot-free text. */
  lemma AllowedExtensionShape(e: string)
    requires e in AllowedExtensions
    ensures IsSuffixShape(e)
  {
  }

  /** An allowed ending of a name, whatever its case, is the name's suffix. */
  lemma AllowedEndingIsSuffix(name: string, e: string)
    requires e in AllowedExtensions && |e| < |name| && Lower(name[|name| - |e|..]) == e
    ensures NameSuffix(name) == name[|name| - |e|..]
  {
    var y := name[|name| - |e|..];
    AllowedExtensionShape(e);
    LowerDot(y[0]);
    forall k | 1 <= k < |y|
      ensures y[k] != '.'
    {
      LowerDot(y[k]);
      assert e[k] == e[1..][k - 1];
    }
    SuffixOfEnding(name, y);
  }

  /** A name's lower-cased suffix is allowed exactly when the name has an allowed ending. */
  lemma AllowedSuffixIffEnding(name: string)
    ensures Lower(NameSuffix(name)) in AllowedExtensions <==> HasAllowedEnding(name)
  {
    var x := NameSuffix(name);
    if Lower(x) in AllowedExtensions {
      var e := Lower(x);
      assert |e| < |name| && name[|name| - |e|..] == x;
    }
    if HasAllowedEnding(name) {
      var e :| e in AllowedExtensions && |e| < |name| && Lower(name[|name| - |e|..]) == e;
      AllowedEndingIsSuffix(name, e);
    }
  }

  /**
   * A named upload is accepted exactly when the file name ends, ignoring
   * ASCII case, with one of the allowed extensions and has at least one
   * character before it.
   */
  lemma AcceptedIffAllowedEnding(filename: string)
    requires filename != ""
    ensures CheckFilename(Some(filename)).Success? <==> HasAllowedEnding(Name(filename))
  {
    AllowedSuffixIffEnding(Name(filename));
  }

  /**
   * `_normalize_source_type`: an absent or empty candidate gives the default;
   * otherwise the stripped, lower-cased candidate if it is an allowed type,
   * and an error quoting the candidate as given if not.
   */
  function NormalizeSourceType(candidate: Option<string>): (r: Result<string, UploadError>)
    ensures r.Success? ==> r.value in AllowedSourceTypes
    ensures r.Failure? ==> Given(candidate) && r.error == UnsupportedSourceType(candidate.value)
  {
    if !Given(candidate) then Success(DefaultSourceType)
    else
      var normalized := Lower(Strip(candidate.value));
      if normalized in AllowedSourceTypes then Success(normalized)
      else Failure(UnsupportedSourceType(candidate.value))
  }

  /** Every allowed source type is lower-case text with no surrounding whitespace. */
  lemma AllowedSourceTypeShape(t: string)
    requires t in AllowedSourceTypes
    ensures Trimmed(t) && Lower(t) == t
  {
  }

  /**
   * Normalisation rejects exactly the given candidates whose stripped,
   * lower-cased form is not an allowed type; it gives the default for an
   * absent or empty candidate and that stripped, lower-cased form otherwise.
   */
  lemma NormalizeRejectsIff(candidate: Option<string>)
    ensures NormalizeSourceType(candidate).Failure? <==>
      Given(candidate) && Lower(Strip(candidate.value)) !in AllowedSourceTypes
    ensures !Given(candidate) ==> NormalizeSourceType(candidate) == Success(DefaultSourceType)
    ensures Given(candidate) && Lower(Strip(candidate.value)) in AllowedSourceTypes ==>
      NormalizeSourceType(candidate) == Success(Lower(Strip(candidate.value)))
  {
  }

  /** A normalised source type normalises to itself. */
  lemma NormalizeIdempotent(candidate: Option<string>)
    requires NormalizeSourceType(candidate).Success?
    ensures NormalizeSourceType(Some(NormalizeSourceType(candidate).value)) == NormalizeSourceType(candidate)
  {
    var t := NormalizeSourceType(candidate).value;
    AllowedSourceTypeShape(t);
    StripTrimmed(t);
  }

  /**
   * The source type stored on the document: an explicit `source_type` wins;
   * otherwise a `source` naming an allowed type (ignoring case); otherwise
   * the default.
   */
  function ResolveSource(source: Option<string>, sourceType: Option<string>): (r: Result<string, UploadError>)
    ensures r.Success? ==> r.value in AllowedSourceTypes
  {
    if Given(sourceType) then NormalizeSourceType(sourceType)
    else if Given(source) && Lower(source.value) in AllowedSourceTypes then NormalizeSourceType(source)
    else Success(DefaultSourceType)
  }

  /**
   * The precedence between `source_type` and `source`, and the only way
   * resolution fails.
   */
  lemma SourcePrecedence(source: Option<string>, sourceType: Option<string>)
    ensures Given(sourceType) ==> ResolveSource(source, sourceType) == NormalizeSourceType(sourceType)
    ensures Given(sourceType) && Lower(Strip(sourceType.value)) in AllowedSourceTypes ==>
      ResolveSource(source, sourceType) == Success(Lower(Strip(sourceType.value)))
    ensures !Given(sourceType) && Given(source) && Lower(source.value) in AllowedSourceTypes ==>
      ResolveSource(source, sourceType) == Success(Lower(source.value))
    ensures !Given(sourceType) && !(Given(source) && Lower(source.value) in AllowedSourceTypes) ==>
      ResolveSource(source, sourceType) == Success(DefaultSourceType)
    ensures ResolveSource(source, sourceType).Failure? <==>
      Given(sourceType) && Lower(Strip(sourceType.value)) !in AllowedSourceTypes
  {
    if !Given(sourceType) && Given(source) && Lower(source.value) in AllowedSourceTypes {
      var s := source.value;
      AllowedSourceTypeShape(Lower(s));
      TrimmedWhenLowerTrimmed(s);
      StripTrimmed(s);
    }
  }

  /**
   * The organization stored on the document: an explicit one (even "") is
   * kept; without one, a `source` that is not an allowed type becomes it.
   */
  function ResolveOrganization(organization: Option<string>, source: Option<string>): Option<string> {
    if organization.None? && Given(source) && Lower(source.value) !in AllowedSourceTypes then source
    else organization
  }

  /**
   * Without an explicit source type or organization, a given `source` ends up
   * in exactly one place: as the source type when it names one, as the
   * organization otherwise. An explicit organization is never replaced.
   */
  lemma SourceFillsOneSlot(source: Option<string>, sourceType: Option<string>, organization: Option<string>)
    ensures organization.Some? ==> ResolveOrganization(organization, source) == organization
    ensures organization.None? && !Given(sourceType) && Given(source) ==>
      ResolveSource(source, sourceType).Success? &&
      ((ResolveSource(source, sourceType).value == Lower(source.value)) <==>
       ResolveOrganization(organization, source).None?)
    ensures organization.None? && !Given(source) ==> ResolveOrganization(organization, source).None?
    ensures organization.None? && Given(source) && Lower(source.value) !in AllowedSourceTypes ==>
      ResolveOrganization(organization, source) == source
    ensures organization.None? && Given(source) && Lower(source.value) in AllowedSourceTypes ==>
      ResolveOrganization(organization, source).None?
  {
    SourcePrecedence(source, sourceType);
    if organization.None? && !Given(sourceType) && Given(source) && Lower(source.value) !in AllowedSourceTypes {
      assert ResolveSource(source, sourceType).value == DefaultSourceType;
      assert DefaultSourceType in AllowedSourceTypes;
    }
  }

  /** Strict lexicographic order on strings, as Python's `sorted` uses. */
  predicate LexLess(a: string, b: string) {
    if a == [] then b != []
    else b != [] && (a[0] < b[0] || (a[0] == b[0] && LexLess(a[1..], b[1..])))
  }

  /** Each name comes strictly before the next one. */
  predicate StrictlySorted(names: seq<string>) {
    forall i :: 0 <= i < |names| - 1 ==> LexLess(names[i], names[i + 1])
  }

  /**
   * The listings quoted in the error messages are `sorted` renderings of the
   * two whitelists: strictly increasing, and the same sets of names.
   */
  lemma ListingsAreSortedWhitelists()
    ensures StrictlySorted(ExtensionNames)
    ensures (set n | n in ExtensionNames :: "." + n) == AllowedExtensions
    ensures StrictlySorted(SourceTypeNames)
    ensures (set n | n in SourceTypeNames) == AllowedSourceTypes
  {
    ExtensionNamesSorted();
    ExtensionNamesMatch();
    SourceTypeNamesSorted();
    SourceTypeNamesMatch();
  }

  lemma ExtensionNamesSorted()
    ensures StrictlySorted(ExtensionNames)
  {
    assert LexLess("docx", "html") && LexLess("html", "md") && LexLess("md", "pdf") && LexLess("pdf", "txt");
  }

  lemma ExtensionNamesMatch()
    ensures (set n | n in ExtensionNames :: "." + n) == AllowedExtensions
  {
    assert "." + "docx" == ".docx" && "." + "html" == ".html" && "." + "md" == ".md";
    assert "." + "pdf" == ".pdf" && "." + "txt" == ".txt";
  }

  lemma SourceTypeNamesSorted()
    ensures StrictlySorted(SourceTypeNames)
  {
    assert LexLess("amc", "evidence") && LexLess("evidence", "gm") && LexLess("gm", "manual");
    assert LexLess("manual", "regulation");
  }

  lemma SourceTypeNamesMatch()
    ensures (set n | n in SourceTypeNames) == AllowedSourceTypes
  {
  }

  /** The text of the `DocumentUploadError` raised for each reason (paths relative to the data root). */
  function Message(e: UploadError): string {
    match e
    case MissingPayload => "File payload is required."
    case MissingFilename => "Uploaded file must include a filename."
    case UnsupportedFileType(extension) =>
      "Unsupported file type '" + extension + "'. Allowed: " + Join(ExtensionNames, ", ") + "."
    case DirectoryPermissionDenied(directory, reason) =>
      "Permission denied creating upload directory: " + directory
      + ". On Railway, set RAILWAY_RUN_UID=0 environment variable. Error: " + reason
    case DirectoryFailed(directory, reason) =>
      "Failed to create upload directory: " + directory + ". Error: " + reason
    case WritePermissionDenied(destination, reason) =>
      "Permission denied writing file: " + destination
      + ". On Railway, set RAILWAY_RUN_UID=0 environment variable. Error: " + reason
    case WriteFailed(destination, reason) =>
      "Failed to write file: " + destination + ". Error: " + reason
    case EmptyFile => "Uploaded file is empty."
    case UnsupportedSourceType(candidate) =>
      "Unsupported source_type '" + candidate + "'. Allowed values: " + Join(SourceTypeNames, ", ") + "."
  }

  /** The refusal of a file type lists the extensions, without dots, in sorted order. */
  lemma ExtensionListing(extension: string)
    ensures Message(UnsupportedFileType(extension))
         == "Unsupported file type '" + extension + "'. Allowed: "
            + ("docx" + ", " + ("html" + ", " + ("md" + ", " + ("pdf" + ", " + "txt")))) + "."
  {
    JoinFive("docx", "html", "md", "pdf", "txt", ", ");
  }

  /** The refusal of a source type lists the allowed source types in sorted order. */
  lemma SourceTypeListing(candidate: string)
    ensures Message(UnsupportedSourceType(candidate))
         == "Unsupported source_type '" + candidate + "'. Allowed values: "
            + ("amc" + ", " + ("evidence" + ", " + ("gm" + ", " + ("manual" + ", " + "regulation")))) + "."
  {
    JoinFive("amc", "evidence", "gm", "manual", "regulation", ", ");
  }

  // ---------------------------------------------------------------------------
  // Storing the file (pure specification)
  // ---------------------------------------------------------------------------

  /** The dated folder, relative to the data root, that receives today's uploads. */
  function UploadDirectory(dateFolder: string): string {
    UploadRoot + "/" + dateFolder
  }

  /** `upload.mimetype or guess_type(filename)[0] or "application/octet-stream"`. */
  function ContentType(mimetype: string, guessed: Option<string>): (t: string)
    ensures t != ""
  {
    if mimetype != "" then mimetype
    else if Given(guessed) then guessed.value
    else FallbackContentType
  }

  /**
   * What `_persist_file` returns or raises, given the filename, the upload's
   * mimetype, the validated extension, the bytes left in the stream after
   * rewinding it, and the environment.
   */
  function PersistOutcome(filename: string, mimetype: string, extension: string, content: seq<byte>,
                          env: Environment): Result<StoredUpload, UploadError>
  {
    var directory := UploadDirectory(env.dateFolder);
    var storedFilename := env.token + extension;
    var destination := directory + "/" + storedFilename;
    match env.makeDirectory
    case PermissionDenied(reason) => Failure(DirectoryPermissionDenied(directory, reason))
    case OsFailure(reason) => Failure(DirectoryFailed(directory, reason))
    case IoOk =>
      match env.openDestination
      case PermissionDenied(reason) => Failure(WritePermissionDenied(destination, reason))
      case OsFailure(reason) => Failure(WriteFailed(destination, reason))
      case IoOk =>
        if |content| == 0 then Failure(EmptyFile)
        else Success(StoredUpload(destination, storedFilename, |content|, env.digest(content),
                                  ContentType(mimetype, env.guessedType), Name(filename)))
  }

  /**
   * A stored upload is named by the random token followed by the validated
   * extension, lives in today's folder, holds every byte of the content,
   * and is refused when that content is empty.
   */
  lemma StoredUploadShape(filename: string, mimetype: string, extension: string, content: seq<byte>, env: Environment)
    requires IsHexToken(env.token)
    requires extension in AllowedExtensions
    ensures var r := PersistOutcome(filename, mimetype, extension, content, env);
      r.Success? ==>
        && r.value.storedFilename[..32] == env.token
        && r.value.storedFilename[32..] in AllowedExtensions
        && r.value.relativePath == UploadDirectory(env.dateFolder) + "/" + r.value.storedFilename
        && r.value.sizeBytes == |content| > 0
        && '/' !in r.value.originalFilename
    ensures env.makeDirectory == IoOk && env.openDestination == IoOk ==>
      (PersistOutcome(filename, mimetype, extension, content, env) == Failure(EmptyFile) <==> content == [])
  {
    var stored := env.token + extension;
    assert stored[..32] == env.token && stored[32..] == extension;
  }

  /** The stored path with every backslash turned into a slash. */
  function StoragePath(relativePath: string): (p: string)
    ensures '\\' !in p
    ensures |p| == |relativePath|
  {
    ReplaceCharRemoves(relativePath, '\\', '/');
    ReplaceChar(relativePath, '\\', '/')
  }

  /** The row built from a stored upload and the resolved source type and organization. */
  function NewDocument(stored: StoredUpload, sourceType: string, organization: Option<string>,
                       description: Option<string>): Document
  {
    Document(stored.originalFilename, stored.storedFilename, StoragePath(stored.relativePath),
             stored.contentType, stored.sizeBytes, stored.sha256, "uploaded", sourceType,
             organization, description)
  }

  /**
   * What `create_from_upload` does before committing, as a value: the
   * document it adds to the session, or the reason it refuses the upload.
   * `content` is what the stream holds once rewound.
   */
  function Admitted(filename: Option<string>, mimetype: string, content: seq<byte>,
                    source: Option<string>, sourceType: Option<string>,
                    organization: Option<string>, description: Option<string>, env: Environment)
    : Result<Document, UploadError>
  {
    match CheckFilename(filename)
    case Failure(e) => Failure(e)
    case Success(extension) =>
      match PersistOutcome(filename.value, mimetype, extension, content, env)
      case Failure(e) => Failure(e)
      case Success(stored) =>
        match ResolveSource(source, sourceType)
        case Failure(e) => Failure(e)
        case Success(resolved) =>
          Success(NewDocument(stored, resolved, ResolveOrganization(organization, source), description))
  }

  /**
   * An admitted document is a non-empty upload with an allowed extension,
   * stored as `<token><extension>` under today's folder with forward slashes,
   * freshly "uploaded", of an allowed source type, and keeps the caller's
   * description.
   */
  lemma AdmittedDocument(filename: Option<string>, mimetype: string, content: seq<byte>,
                         source: Option<string>, sourceType: Option<string>,
                         organization: Option<string>, description: Option<string>, env: Environment)
    requires IsHexToken(env.token)
    ensures var r := Admitted(filename, mimetype, content, source, sourceType, organization, description, env);
      r.Success? ==>
        && Given(filename) && r.value.originalFilename == Name(filename.value)
        && r.value.storedFilename[..32] == env.token
        && r.value.storedFilename[32..] == Lower(Suffix(filename.value))
        && r.value.storedFilename[32..] in AllowedExtensions
        && ('\\' !in env.dateFolder ==>
              r.value.storagePath == UploadDirectory(env.dateFolder) + "/" + r.value.storedFilename)
        && r.value.sizeBytes == |content| > 0
        && r.value.sha256 == env.digest(content)
        && r.value.status == "uploaded"
        && r.value.sourceType in AllowedSourceTypes
        && r.value.description == description
  {
    var r := Admitted(filename, mimetype, content, source, sourceType, organization, description, env);
    if r.Success? {
      var extension := CheckFilename(filename).value;
      var persisted := PersistOutcome(filename.value, mimetype, extension, content, env);
      var resolved := ResolveSource(source, sourceType);
      assert persisted.Success? && resolved.Success?;
      var stored := persisted.value;
      assert r.value == NewDocument(stored, resolved.value, ResolveOrganization(organization, source), description);
      StoredUploadShape(filename.value, mimetype, extension, content, env);
      assert stored.storedFilename == env.token + extension;
      if '\\' !in env.dateFolder {
        StoragePathPlain(env.dateFolder, env.token, extension);
      }
    }
  }

  /** A path made of today's folder, the hex token and an allowed extension needs no separator fix-up. */
  lemma StoragePathPlain(dateFolder: string, token: string, extension: string)
    requires '\\' !in dateFolder && IsHexToken(token) && extension in AllowedExtensions
    ensures StoragePath(UploadDirectory(dateFolder) + "/" + (token + extension))
         == UploadDirectory(dateFolder) + "/" + (token + extension)
  {
    var path := UploadDirectory(dateFolder) + "/" + (token + extension);
    assert '\\' !in token by {
      assert forall i :: 0 <= i < |token| ==> IsLowerHex(token[i]);
    }
    assert '\\' !in path;
    var q := StoragePath(path);
    assert forall k :: 0 <= k < |path| ==> q[k] == path[k];
  }

  // ---------------------------------------------------------------------------
  // Commit retries (pure specification)
  // ---------------------------------------------------------------------------

  /** An error message the service retries on: it mentions a locked database, in any case. */
  predicate IsLockError(message: string) {
    Contains(Lower(message), LockMessage)
  }

  /** The outcome of commit attempt `k`: None for success, the error text otherwise. */
  function OutcomeAt(outcomes: seq<Option<string>>, k: nat): Option<string> {
    if k < |outcomes| then outcomes[k] else None
  }

  /** Attempt `k` fails with a lock error and is not the last allowed attempt, so it is retried. */
  predicate Retried(outcomes: seq<Option<string>>, k: nat) {
    OutcomeAt(outcomes, k).Some? && IsLockError(OutcomeAt(outcomes, k).value) && k < MaxRetries - 1
  }

  /** The attempt, counted from `k`, at which the retry loop returns or raises. */
  function StopAttempt(outcomes: seq<Option<string>>, k: nat): (f: nat)
    requires k < MaxRetries
    ensures k <= f < MaxRetries
    ensures forall j :: k <= j < f ==> Retried(outcomes, j)
    ensures !Retried(outcomes, f)
    decreases MaxRetries - k
  {
    if Retried(outcomes, k) then StopAttempt(outcomes, k + 1) else k
  }

  /**
   * What the retry loop ends with once a retried commit writes the document:
   * success, or the error of the attempt it stopped at.
   */
  function CommitResult(outcomes: seq<Option<string>>): Result<(), string> {
    var f := StopAttempt(outcomes, 0);
    if OutcomeAt(outcomes, f).None? then Success(()) else Failure(OutcomeAt(outcomes, f).value)
  }

  /** Every attempt before `k` failed with a lock error. */
  predicate LockedBefore(outcomes: seq<Option<string>>, k: nat) {
    forall j :: 0 <= j < k ==> OutcomeAt(outcomes, j).Some? && IsLockError(OutcomeAt(outcomes, j).value)
  }

  /**
   * The commit succeeds exactly when one of the first five attempts succeeds
   * and every attempt before it failed with a lock error.
   */
  lemma {:induction false} CommitSucceedsIff(outcomes: seq<Option<string>>)
    ensures CommitResult(outcomes).Success? <==>
      exists k :: 0 <= k < MaxRetries && OutcomeAt(outcomes, k).None? && LockedBefore(outcomes, k)
  {
    var f := StopAttempt(outcomes, 0);
    if CommitResult(outcomes).Success? {
      assert LockedBefore(outcomes, f) by {
        forall j | 0 <= j < f
          ensures OutcomeAt(outcomes, j).Some? && IsLockError(OutcomeAt(outcomes, j).value)
        {
          assert Retried(outcomes, j);
        }
      }
    }
    if exists k :: 0 <= k < MaxRetries && OutcomeAt(outcomes, k).None? && LockedBefore(outcomes, k) {
      var k :| 0 <= k < MaxRetries && OutcomeAt(outcomes, k).None? && LockedBefore(outcomes, k);
      if f != k {
        assert false;
      }
    }
  }

  /**
   * An error that does not mention a locked database is raised at once: one
   * attempt, no rollback, the same error.
   */
  lemma OtherErrorsNotRetried(outcomes: seq<Option<string>>, message: string)
    requires OutcomeAt(outcomes, 0) == Some(message) && !IsLockError(message)
    ensures StopAttempt(outcomes, 0) == 0 && CommitResult(outcomes) == Failure(message)
  {
  }

  /**
   * When all five attempts hit a locked database, the loop stops after the
   * fifth and raises its error.
   */
  lemma {:induction false} FiveLocksRaise(outcomes: seq<Option<string>>)
    requires LockedBefore(outcomes, MaxRetries)
    ensures StopAttempt(outcomes, 0) == MaxRetries - 1
    ensures CommitResult(outcomes) == Failure(OutcomeAt(outcomes, MaxRetries - 1).value)
  {
    var f := StopAttempt(outcomes, 0);
    if f < MaxRetries - 1 {
      assert false;
    }
  }

  /** The outcomes left after `k` commits. */
  function Drop(outcomes: seq<Option<string>>, k: nat): seq<Option<string>> {
    if k >= |outcomes| then [] else outcomes[k..]
  }

  /** The error `session.refresh` raises for an instance the session no longer holds. */
  const NotPersistentError: string := "Instance " + "is not " + "persistent " + "within " + "this " + "Session"

  /** `s` has no letter that lower-cases to the `b` of the lock message. */
  predicate LacksB(s: string) {
    forall k :: 0 <= k < |s| ==> s[k] != 'b' && s[k] != 'B'
  }

  /** The refresh error is not taken for a lock error. */
  lemma NotPersistentIsNotLock()
    ensures !IsLockError(NotPersistentError)
  {
    assert LacksB("Instance ") && LacksB("is not ") && LacksB("persistent ");
    assert LacksB("within ") && LacksB("this ") && LacksB("Session");
    assert LacksB(NotPersistentError);
    assert LockMessage[4] == 'b';
    MissingCharNotContained(Lower(NotPersistentError), LockMessage, 'b');
  }

  /**
   * What the retry loop as written ends with. A rollback expunges the added
   * document, so a commit that succeeds after a retry writes nothing and the
   * refresh that follows fails.
   */
  function CommitResultAsWritten(outcomes: seq<Option<string>>): Result<(), string> {
    var f := StopAttempt(outcomes, 0);
    if OutcomeAt(outcomes, f).Some? then Failure(OutcomeAt(outcomes, f).value)
    else if f == 0 then Success(())
    else Failure(NotPersistentError)
  }

  /** The rows the loop as written commits, given the rows pending before it. */
  function CommittedRowsAsWritten(outcomes: seq<Option<string>>, pending: seq<Document>): seq<Document> {
    if StopAttempt(outcomes, 0) == 0 && OutcomeAt(outcomes, 0).None? then pending else []
  }

  /** The rows the loop as written leaves pending. */
  function PendingAfterAsWritten(outcomes: seq<Option<string>>, pending: seq<Document>): seq<Document> {
    if StopAttempt(outcomes, 0) == 0 && OutcomeAt(outcomes, 0).Some? then pending else []
  }

  /**
   * The rows the corrected loop commits: the pending rows when the first
   * attempt succeeds, the re-added document when a later one does.
   */
  function CommittedRows(outcomes: seq<Option<string>>, pending: seq<Document>, document: Document): seq<Document> {
    if CommitResult(outcomes).Failure? then []
    else if StopAttempt(outcomes, 0) == 0 then pending
    else [document]
  }

  /** The rows the corrected loop leaves pending. */
  function PendingAfter(outcomes: seq<Option<string>>, pending: seq<Document>, document: Document): seq<Document> {
    if CommitResult(outcomes).Success? then []
    else if StopAttempt(outcomes, 0) == 0 then pending
    else [document]
  }

  /** The corrected loop writes the document exactly when it reports success. */
  lemma CommittedDocument(outcomes: seq<Option<string>>, pending: seq<Document>, document: Document)
    requires document in pending
    ensures document in CommittedRows(outcomes, pending, document) <==> CommitResult(outcomes).Success?
    ensures CommitResult(outcomes).Failure? ==> document in PendingAfter(outcomes, pending, document)
  {
  }

  /**
   * The loop as written reports success, and writes the document, only when
   * the first commit succeeds: after any retry it fails.
   */
  lemma AsWrittenSucceedsOnlyFirstTime(outcomes: seq<Option<string>>, pending: seq<Document>, document: Document)
    requires document in pending
    ensures CommitResultAsWritten(outcomes).Success? <==> OutcomeAt(outcomes, 0).None?
    ensures document in CommittedRowsAsWritten(outcomes, pending) <==> CommitResultAsWritten(outcomes).Success?
    ensures Retried(outcomes, 0) ==> CommitResultAsWritten(outcomes).Failure?
  {
  }

  /** Without a retry, the loop as written and the corrected one agree. */
  lemma AsWrittenAgreesWithoutRetry(outcomes: seq<Option<string>>)
    requires !Retried(outcomes, 0)
    ensures CommitResultAsWritten(outcomes) == CommitResult(outcomes)
  {
  }

  /**
   * A lock error followed by a successful commit: the corrected loop
   * succeeds, the loop as written raises the refresh error.
   */
  lemma LockThenSuccess(message: string)
    requires IsLockError(message)
    ensures CommitResult([Some(message), None]) == Success(())
    ensures CommitResultAsWritten([Some(message), None]) == Failure(NotPersistentError)
  {
  }

  // ---------------------------------------------------------------------------
  // Collaborators with state
  // ---------------------------------------------------------------------------

  /** The upload's byte stream: `data`, read from `position` on. */
  class UploadStream {
    var data: seq<byte>
    var position: nat
    /** Whether `seek` works; when it raises, the service carries on from where the stream is. */
    const seekable: bool

    ghost predicate Valid()
      reads this
    {
      position <= |data|
    }

    constructor (data: seq<byte>, position: nat, seekable: bool)
      requires position <= |data|
      ensures Valid()
      ensures this.data == data && this.position == position && this.seekable == seekable
    {
      this.data := data;
      this.position := position;
      this.seekable := seekable;
    }

    /** The bytes the next reads will return. */
    ghost function Remaining(): seq<byte>
      reads this
      requires Valid()
    {
      data[position..]
    }

    /** What remains once the stream has been rewound, if it can be. */
    ghost function RemainingAfterRewind(): seq<byte>
      reads this
      requires Valid()
    {
      if seekable then data else data[position..]
    }

    /** `stream.seek(0)`, whose failure the service ignores. */
    method Rewind()
      requires Valid()
      modifies this`position
      ensures Valid()
      ensures position == if seekable then 0 else old(position)
      ensures Remaining() == old(RemainingAfterRewind())
    {
      if seekable {
        position := 0;
      }
    }

    /** `stream.read(size)`: at most `size` bytes; empty only at the end of the stream. */
    method Read(size: nat) returns (chunk: seq<byte>)
      requires Valid() && size > 0
      modifies this`position
      ensures Valid()
      ensures |chunk| <= size
      ensures chunk == [] <==> old(Remaining()) == []
      ensures old(Remaining()) == chunk + Remaining()
    {
      var n := if |data| - position < size then |data| - position else size;
      chunk := data[position..position + n];
      position := position + n;
    }
  }

  /** The part of the filesystem under the data root: folders created and file contents. */
  class FileStore {
    var directories: set<string>
    var files: map<string, seq<byte>>

    constructor (directories: set<string>, files: map<string, seq<byte>>)
      ensures this.directories == directories && this.files == files
    {
      this.directories := directories;
      this.files := files;
    }

    /** `mkdir(parents=True, exist_ok=True)` once it succeeds. */
    method MakeDirectory(path: string)
      modifies this`directories
      ensures directories == old(directories) + {path}
    {
      directories := directories + {path};
    }

    /** `open(path, "wb")` once it succeeds: the file exists and is empty. */
    method Create(path: string)
      modifies this`files
      ensures files == old(files)[path := []]
    {
      files := files[path := []];
    }

    /** `output.write(chunk)` on a file opened for writing. */
    method Append(path: string, chunk: seq<byte>)
      requires path in files
      modifies this`files
      ensures files == old(files)[path := old(files[path]) + chunk]
    {
      files := files[path := files[path] + chunk];
    }
  }

  /**
   * The database session: the rows added since the last commit or rollback
   * (`pending`), the rows committed (`stored`), the scripted outcome of each
   * coming commit, and counters. A document stands for its Python instance;
   * an instance is persistent exactly when its row is among `stored`.
   */
  class Session {
    var pending: seq<Document>
    var stored: seq<Document>
    /** The result of each coming commit: None for success, the error text otherwise. */
    var outcomes: seq<Option<string>>
    var attempts: nat
    var rollbacks: nat

    constructor (outcomes: seq<Option<string>>)
      ensures pending == [] && stored == [] && this.outcomes == outcomes && attempts == 0 && rollbacks == 0
    {
      pending := [];
      stored := [];
      this.outcomes := outcomes;
      attempts := 0;
      rollbacks := 0;
    }

    /** `session.add(document)`. */
    method Add(d: Document)
      modifies this`pending
      ensures pending == old(pending) + [d]
    {
      pending := pending + [d];
    }

    /** `session.commit()`: on success the pending rows are written; on failure nothing is. */
    method Commit() returns (error: Option<string>)
      modifies this`outcomes, this`attempts, this`pending, this`stored
      ensures error == OutcomeAt(old(outcomes), 0)
      ensures outcomes == Drop(old(outcomes), 1)
      ensures attempts == old(attempts) + 1
      ensures error.None? ==> stored == old(stored) + old(pending) && pending == []
      ensures error.Some? ==> stored == old(stored) && pending == old(pending)
    {
      if outcomes == [] {
        error := None;
      } else {
        error := outcomes[0];
        outcomes := outcomes[1..];
      }
      if error.None? {
        stored := stored + pending;
        pending := [];
      }
      attempts := attempts + 1;
    }

    /** `session.refresh(document)`: fails for an instance that is not persistent. */
    method Refresh(d: Document) returns (error: Option<string>)
      ensures error.None? <==> d in stored
      ensures error.Some? ==> error.value == NotPersistentError
    {
      error := if d in stored then None else Some(NotPersistentError);
    }

    /**
     * `session.rollback()`: the rows added in the transaction are expunged,
     * so they are no longer pending.
     */
    method Rollback()
      modifies this`pending, this`rollbacks
      ensures pending == []
      ensures rollbacks == old(rollbacks) + 1
    {
      pending := [];
      rollbacks := rollbacks + 1;
    }
  }

  /** Total length of a list of chunks. */
  function SumLengths(chunks: seq<seq<byte>>): nat {
    if chunks == [] then 0 else SumLengths(chunks[..|chunks| - 1]) + |chunks[|chunks| - 1]|
  }

  /** The chunks one after the other. */
  function Concat(chunks: seq<seq<byte>>): (bytes: seq<byte>)
    ensures |bytes| == SumLengths(chunks)
  {
    if chunks == [] then [] else Concat(chunks[..|chunks| - 1]) + chunks[|chunks| - 1]
  }

  /**
   * `_stream_to_disk`: reads the stream in chunks of at most `ReadSize` bytes
   * until a read comes back empty, feeding each chunk to the digest and to
   * the destination file. It returns the byte count and the digest of what
   * was read; `chunks` lists the non-empty reads. When opening the
   * destination fails, nothing is read or written.
   */
  method StreamToDisk(stream: UploadStream, store: FileStore, destination: string,
                      opening: IoOutcome, digest: seq<byte> -> string)
    returns (r: Result<(nat, string), IoOutcome>, ghost chunks: seq<seq<byte>>)
    requires stream.Valid()
    modifies stream`position, store`files
    ensures stream.Valid()
    ensures opening != IoOk ==>
      r == Failure(opening) && stream.position == old(stream.position) && store.files == old(store.files)
    ensures opening == IoOk ==>
      && r == Success((|old(stream.Remaining())|, digest(old(stream.Remaining()))))
      && store.files == old(store.files)[destination := old(stream.Remaining())]
      && stream.Remaining() == []
      && Concat(chunks) == old(stream.Remaining())
      && r.value.0 == SumLengths(chunks)
      && forall k :: 0 <= k < |chunks| ==> 0 < |chunks[k]| <= ReadSize
  {
    chunks := [];
    if opening != IoOk {
      return Failure(opening), chunks;
    }
    store.Create(destination);
    var hashed: seq<byte> := [];
    var total: nat := 0;
    while true
      invariant stream.Valid()
      invariant old(stream.Remaining()) == hashed + stream.Remaining()
      invariant store.files == old(store.files)[destination := hashed]
      invariant total == |hashed| && Concat(chunks) == hashed
      invariant forall k :: 0 <= k < |chunks| ==> 0 < |chunks[k]| <= ReadSize
      decreases |stream.Remaining()|
    {
      var chunk := stream.Read(ReadSize);
      if chunk == [] {
        break;
      }
      hashed := hashed + chunk;
      total := total + |chunk|;
      store.Append(destination, chunk);
      ghost var before := chunks;
      chunks := chunks + [chunk];
      assert chunks[..|chunks| - 1] == before;
    }
    assert hashed == old(stream.Remaining());
    r := Success((total, digest(hashed)));
  }

  /** An uploaded file as the web framework hands it over. */
  class Upload {
    /** The client's filename; None when the form part has none. */
    const filename: Option<string>
    /** The declared content type; "" when the client sent none. */
    const mimetype: string
    const stream: UploadStream

    constructor (filename: Option<string>, mimetype: string, stream: UploadStream)
      ensures this.filename == filename && this.mimetype == mimetype && this.stream == stream
    {
      this.filename := filename;
      this.mimetype := mimetype;
      this.stream := stream;
    }
  }

  /** `DocumentService`: stores uploads under the data root and records them in the session. */
  class DocumentService {
    const store: FileStore
    const session: Session

    constructor (store: FileStore, session: Session)
      ensures this.store == store && this.session == session
    {
      this.store := store;
      this.session := session;
    }

    /**
     * `_persist_file`: creates today's folder, rewinds the stream, copies it
     * to `<token><extension>` in that folder and refuses an empty file. The
     * result is `PersistOutcome` of the bytes left after rewinding; the file
     * is left on disk even when it turns out empty.
     */
    method PersistFile(upload: Upload, extension: string, env: Environment)
      returns (r: Result<StoredUpload, UploadError>)
      requires Given(upload.filename)
      requires upload.stream.Valid()
      modifies store, upload.stream`position
      ensures upload.stream.Valid()
      ensures r == PersistOutcome(upload.filename.value, upload.mimetype, extension,
                                  old(upload.stream.RemainingAfterRewind()), env)
      ensures env.makeDirectory != IoOk ==>
        store.directories == old(store.directories) && store.files == old(store.files)
        && upload.stream.position == old(upload.stream.position)
      ensures env.makeDirectory == IoOk ==>
        store.directories == old(store.directories) + {UploadDirectory(env.dateFolder)}
      ensures env.makeDirectory == IoOk && env.openDestination != IoOk ==>
        store.files == old(store.files)
      ensures env.makeDirectory == IoOk && env.openDestination == IoOk ==>
        store.files == old(store.files)[UploadDirectory(env.dateFolder) + "/" + (env.token + extension)
                                        := old(upload.stream.RemainingAfterRewind())]
      ensures r.Success? ==>
        r.value.relativePath in store.files && store.files[r.value.relativePath] == old(upload.stream.RemainingAfterRewind())
    {
      var directory := UploadDirectory(env.dateFolder);
      match env.makeDirectory {
        case PermissionDenied(reason) => return Failure(DirectoryPermissionDenied(directory, reason));
        case OsFailure(reason) => return Failure(DirectoryFailed(directory, reason));
        case IoOk => store.MakeDirectory(directory);
      }
      var storedFilename := env.token + extension;
      var destination := directory + "/" + storedFilename;
      upload.stream.Rewind();
      var written, _ := StreamToDisk(upload.stream, store, destination, env.openDestination, env.digest);
      if written.Failure? {
        match written.error {
          case PermissionDenied(reason) => return Failure(WritePermissionDenied(destination, reason));
          case OsFailure(reason) => return Failure(WriteFailed(destination, reason));
        }
      }
      var (size, sha) := written.value;
      if size == 0 {
        return Failure(EmptyFile);
      }
      var contentType := ContentType(upload.mimetype, env.guessedType);
      r := Success(StoredUpload(destination, storedFilename, size, sha, contentType,
                                Name(upload.filename.value)));
    }

    /**
     * The commit loop of `create_from_upload` as written: up to five
     * commit-and-refresh attempts; a lock error before the last attempt is
     * rolled back and retried, any other error or a failure of the last
     * attempt is raised. The rollback expunges `document`, which the loop
     * does not add again.
     */
    method CommitWithRetryAsWritten(document: Document) returns (r: Result<(), string>)
      requires document in session.pending && document !in session.stored
      modifies session
      ensures r == CommitResultAsWritten(old(session.outcomes))
      ensures session.attempts == old(session.attempts) + StopAttempt(old(session.outcomes), 0) + 1
      ensures session.rollbacks == old(session.rollbacks) + StopAttempt(old(session.outcomes), 0)
      ensures session.stored == old(session.stored) + CommittedRowsAsWritten(old(session.outcomes), old(session.pending))
      ensures session.pending == PendingAfterAsWritten(old(session.outcomes), old(session.pending))
    {
      ghost var outcomes := session.outcomes;
      var attempt: nat := 0;
      NotPersistentIsNotLock();
      while true
        invariant attempt < MaxRetries
        invariant StopAttempt(outcomes, attempt) == StopAttempt(outcomes, 0)
        invariant session.outcomes == Drop(outcomes, attempt)
        invariant session.attempts == old(session.attempts) + attempt
        invariant session.rollbacks == old(session.rollbacks) + attempt
        invariant session.stored == old(session.stored)
        invariant session.pending == if attempt == 0 then old(session.pending) else []
        decreases MaxRetries - attempt
      {
        var error := session.Commit();
        assert error == OutcomeAt(outcomes, attempt);
        if error.None? {
          error := session.Refresh(document);
          if error.None? {
            return Success(());
          }
        }
        if IsLockError(error.value) && attempt < MaxRetries - 1 {
          session.Rollback();
          attempt := attempt + 1;
          continue;
        }
        return Failure(error.value);
      }
    }

    /**
     * The commit loop with the document added again after each rollback, so
     * that a retried commit writes it.
     */
    method CommitWithRetry(document: Document) returns (r: Result<(), string>)
      requires document in session.pending
      modifies session
      ensures r == CommitResult(old(session.outcomes))
      ensures session.attempts == old(session.attempts) + StopAttempt(old(session.outcomes), 0) + 1
      ensures session.rollbacks == old(session.rollbacks) + StopAttempt(old(session.outcomes), 0)
      ensures session.stored == old(session.stored) + CommittedRows(old(session.outcomes), old(session.pending), document)
      ensures session.pending == PendingAfter(old(session.outcomes), old(session.pending), document)
    {
      ghost var outcomes := session.outcomes;
      var attempt: nat := 0;
      while true
        invariant attempt < MaxRetries
        invariant StopAttempt(outcomes, attempt) == StopAttempt(outcomes, 0)
        invariant session.outcomes == Drop(outcomes, attempt)
        invariant session.attempts == old(session.attempts) + attempt
        invariant session.rollbacks == old(session.rollbacks) + attempt
        invariant session.stored == old(session.stored)
        invariant session.pending == if attempt == 0 then old(session.pending) else [document]
        invariant document in session.pending
        decreases MaxRetries - attempt
      {
        var error := session.Commit();
        assert error == OutcomeAt(outcomes, attempt);
        if error.None? {
          error := session.Refresh(document);
          if error.None? {
            return Success(());
          }
        }
        if IsLockError(error.value) && attempt < MaxRetries - 1 {
          session.Rollback();
          session.Add(document);
          attempt := attempt + 1;
          continue;
        }
        return Failure(error.value);
      }
    }

    /**
     * `create_from_upload`: validates the upload, stores the file, resolves
     * the source type and organization, adds the row and commits it with
     * retries. Nothing is stored when validation fails; an invalid
     * `source_type` is only noticed once the file is stored.
     */
    method CreateFromUpload(upload: Upload?, source: Option<string>, sourceType: Option<string>,
                            organization: Option<string>, description: Option<string>, env: Environment)
      returns (r: Result<Document, CreateError>)
      requires upload != null ==> upload.stream.Valid()
      modifies store, session, if upload != null then {upload.stream} else {}
      ensures upload == null ==>
        r == Failure(Rejected(MissingPayload)) && unchanged(store) && unchanged(session)
      ensures upload != null && CheckFilename(upload.filename).Failure? ==>
        unchanged(store) && unchanged(upload.stream)
      ensures upload != null && CheckFilename(upload.filename).Success? ==>
        var persisted := PersistOutcome(upload.filename.value, upload.mimetype, CheckFilename(upload.filename).value,
                                        old(upload.stream.RemainingAfterRewind()), env);
        && (env.makeDirectory != IoOk ==>
              store.directories == old(store.directories) && store.files == old(store.files))
        && (env.makeDirectory == IoOk ==>
              store.directories == old(store.directories) + {UploadDirectory(env.dateFolder)})
        && (env.makeDirectory == IoOk && env.openDestination != IoOk ==> store.files == old(store.files))
        && (env.makeDirectory == IoOk && env.openDestination == IoOk ==>
              store.files == old(store.files)[UploadDirectory(env.dateFolder) + "/" + (env.token + CheckFilename(upload.filename).value)
                                              := old(upload.stream.RemainingAfterRewind())])
        && (persisted.Success? ==>
              persisted.value.relativePath in store.files
              && store.files[persisted.value.relativePath] == old(upload.stream.RemainingAfterRewind()))
      ensures upload != null ==>
        var admitted := Admitted(upload.filename, upload.mimetype, old(upload.stream.RemainingAfterRewind()),
                                 source, sourceType, organization, description, env);
        && (admitted.Failure? ==> r == Failure(Rejected(admitted.error)) && unchanged(session))
        && (admitted.Success? ==>
              && var f := StopAttempt(old(session.outcomes), 0);
              && session.attempts == old(session.attempts) + f + 1
              && session.rollbacks == old(session.rollbacks) + f
              && session.stored == old(session.stored)
                                   + CommittedRows(old(session.outcomes), old(session.pending) + [admitted.value], admitted.value)
              && session.pending == PendingAfter(old(session.outcomes), old(session.pending) + [admitted.value], admitted.value)
              && r == match CommitResult(old(session.outcomes))
                      case Success(_) => Success(admitted.value)
                      case Failure(message) => Failure(CommitFailed(message)))
    {
      if upload == null {
        return Failure(Rejected(MissingPayload));
      }
      var checked := CheckFilename(upload.filename);
      if checked.Failure? {
        return Failure(Rejected(checked.error));
      }
      var stored := PersistFile(upload, checked.value, env);
      if stored.Failure? {
        return Failure(Rejected(stored.error));
      }
      var resolved := ResolveSource(source, sourceType);
      if resolved.Failure? {
        return Failure(Rejected(resolved.error));
      }
      var document := NewDocument(stored.value, resolved.value,
                                  ResolveOrganization(organization, source), description);
      session.Add(document);
      var committed := CommitWithRetry(document);
      if committed.Failure? {
        return Failure(CommitFailed(committed.error));
      }
      r := Success(document);
    }
  }
}
