// Documents, their chunks and the serializers that guard uploads
// (backend/documents/models.py and backend/documents/serializers.py).

module Documents {
  import opened Wrappers
  import opened Text

  // ---------------------------------------------------------------------------
  // File types and processing status

  /** The codes of `FILE_TYPE_CHOICES`, in declaration order. */
  const FileTypeCodes: seq<string> := ["pdf", "txt", "docx", "md"]

  datatype Status = Pending | Processing | Completed | Failed

  function StatusCode(s: Status): (code: string)
    ensures |code| >= 6
  {
    match s
    case Pending => "pending"
    case Processing => "processing"
    case Completed => "completed"
    case Failed => "failed"
  }

  function ParseStatus(code: string): (r: Option<Status>)
    ensures r.Some? ==> StatusCode(r.value) == code
  {
    if code == "pending" then Some(Pending)
    else if code == "processing" then Some(Processing)
    else if code == "completed" then Some(Completed)
    else if code == "failed" then Some(Failed)
    else None
  }

  lemma StatusRoundTrip(s: Status)
    ensures ParseStatus(StatusCode(s)) == Some(s)
  {
  }

  // ---------------------------------------------------------------------------
  // Rows

  /**
   * A stored file as Django's `FieldFile` sees it: its storage name (the empty name is the
   * falsy "no file") and its size in bytes.
   */
  datatype FileRef = FileRef(name: string, size: nat)

  predicate HasFile(f: FileRef) { f.name != "" }

  /**
   * A `Document` row. `fileSize` 0 stands for both an unset and a zero size (both are falsy to
   * `save()`); `processedAt` is a timestamp supplied by the caller.
   */
  datatype Document = Document(
    id: nat,
    chatbotId: nat,
    file: FileRef,
    fileName: string,
    fileType: string,
    fileSize: int,
    status: Status,
    chunkCount: int,
    errorMessage: Option<string>,
    processedAt: Option<nat>)

  /** A row as the upload serializer builds it: only chatbot and file given, every default in place. */
  function NewDocument(id: nat, chatbotId: nat, file: FileRef): (d: Document)
    ensures d.id == id && d.chatbotId == chatbotId && d.file == file
    ensures d.status == Pending && d.chunkCount == 0
    ensures d.errorMessage.None? && d.processedAt.None?
    ensures d.fileName == "" && d.fileType == "" && d.fileSize == 0
  {
    Document(id, chatbotId, file, "", "", 0, Pending, 0, None, None)
  }

  // ---------------------------------------------------------------------------
  // document_upload_path

  const UploadDirectoryPrefix := "documents/chatbot_"

  /** `document_upload_path`: the upload path of a file, one directory per chatbot. */
  function UploadPath(chatbotId: nat, filename: string): (p: string)
    ensures UploadDirectoryPrefix <= p
  {
    UploadDirectoryPrefix + NatToString(chatbotId) + "/" + filename
  }

  lemma NoSlashInDigits(s: string)
    requires AllDigits(s)
    ensures '/' !in s
  {
  }

  /** The last component of the upload path is the file name it was built from. */
  lemma UploadPathBasename(chatbotId: nat, filename: string)
    requires '/' !in filename
    ensures Basename(UploadPath(chatbotId, filename)) == filename
  {
    var a := UploadDirectoryPrefix + NatToString(chatbotId);
    assert UploadPath(chatbotId, filename) == a + ['/'] + filename;
    RFindLast(a, '/', filename);
    assert (a + ['/'] + filename)[|a| + 1..] == filename;
  }

  /** Different chatbots, or different names, never share an upload path. */
  lemma UploadPathInjective(a: nat, f: string, b: nat, g: string)
    requires '/' !in f && '/' !in g
    requires UploadPath(a, f) == UploadPath(b, g)
    ensures a == b && f == g
  {
    UploadPathBasename(a, f);
    UploadPathBasename(b, g);
    var pa := UploadDirectoryPrefix + NatToString(a) + "/";
    var pb := UploadDirectoryPrefix + NatToString(b) + "/";
    assert pa + f == UploadPath(a, f);
    assert pb + g == UploadPath(b, g);
    assert |pa| == |pb|;
    assert pa == UploadPath(a, f)[..|pa|];
    assert pb == UploadPath(b, g)[..|pb|];
    assert NatToString(a) == pa[|UploadDirectoryPrefix|..|pa| - 1];
    assert NatToString(b) == pb[|UploadDirectoryPrefix|..|pb| - 1];
    NatToStringInjective(a, b);
  }

  // ---------------------------------------------------------------------------
  // The name the file is stored under. The FileField hands the upload path to Django's storage,
  // which keeps its directory and replaces the last component by `get_valid_name` of it.

  /** A character that the class `[-\w.]` matches. */
  predicate IsNameChar(c: char) {
    c == '-' || c == '.' || IsWordChar(c)
  }

  predicate AllNameChars(s: string) {
    forall i :: 0 <= i < |s| ==> IsNameChar(s[i])
  }

  /** No character the class matches is whitespace or a slash. */
  lemma NameCharIsPlain(c: char)
    requires IsNameChar(c)
    ensures !IsSpace(c) && c != '/'
  {
  }

  /** Lower-case ASCII letters, dots and underscores are matched by the class. */
  lemma PlainNameChars(s: string)
    requires forall i :: 0 <= i < |s| ==> 'a' <= s[i] <= 'z' || s[i] == '.' || s[i] == '_'
    ensures AllNameChars(s)
  {
  }

  /** `s.replace(' ', '_')`. */
  function Underscored(s: string): (r: string)
    ensures |r| == |s| && ' ' !in r
    ensures forall i :: 0 <= i < |s| ==> r[i] == (if s[i] == ' ' then '_' else s[i])
  {
    seq(|s|, i requires 0 <= i < |s| => if s[i] == ' ' then '_' else s[i])
  }

  /** `re.sub(r'(?u)[^-\w.]', '', s)`: the characters of `s` that `[-\w.]` matches. */
  function KeepNameChars(s: string): (r: string)
    ensures |r| <= |s|
    ensures AllNameChars(r)
    ensures |s| == 1 ==> r == (if IsNameChar(s[0]) then s else "")
  {
    if s == [] then []
    else KeepNameChars(s[..|s| - 1]) + (if IsNameChar(s[|s| - 1]) then [s[|s| - 1]] else [])
  }

  /** The filter keeps the order of the characters it keeps. */
  lemma {:induction false} KeepNameCharsAppend(a: string, b: string)
    ensures KeepNameChars(a + b) == KeepNameChars(a) + KeepNameChars(b)
    decreases |b|
  {
    if b == [] {
      assert a + b == a;
    } else {
      LastOfAppend(a, b);
      KeepNameCharsAppend(a, b[..|b| - 1]);
    }
  }

  /** A string made of matched characters only goes through the filter unchanged. */
  lemma {:induction false} KeepNameCharsOfClean(s: string)
    requires AllNameChars(s)
    ensures KeepNameChars(s) == s
    decreases |s|
  {
    if s != [] {
      KeepNameCharsOfClean(s[..|s| - 1]);
    }
  }

  /** `get_valid_name` before its final check. */
  function CleanedName(name: string): string {
    KeepNameChars(Underscored(Strip(name)))
  }

  /**
   * `Storage.get_valid_name`: strip, spaces to underscores, then drop every character `[-\w.]`
   * does not match. A result that is empty, "." or ".." raises SuspiciousFileOperation (`None`).
   */
  function ValidName(name: string): (r: Option<string>)
    ensures r.Some? ==> r.value != "" && r.value != "." && r.value != ".."
    ensures r.Some? ==> AllNameChars(r.value) && |r.value| <= |name|
  {
    var s := CleanedName(name);
    if s == "" || s == "." || s == ".." then None else Some(s)
  }

  /** Stripping does nothing to a name with no whitespace at its ends. */
  lemma CleanedOfPlainEnds(s: string)
    requires s == [] || (!IsSpace(s[0]) && !IsSpace(s[|s| - 1]))
    ensures CleanedName(s) == KeepNameChars(Underscored(s))
  {
    StripUnchanged(s);
  }

  lemma CleanedOfClean(s: string)
    requires AllNameChars(s)
    ensures CleanedName(s) == KeepNameChars(Underscored(s))
  {
    if s != [] {
      NameCharIsPlain(s[0]);
      NameCharIsPlain(s[|s| - 1]);
    }
    CleanedOfPlainEnds(s);
  }

  lemma UnderscoredOfClean(s: string)
    requires AllNameChars(s)
    ensures Underscored(s) == s
  {
    forall i | 0 <= i < |s|
      ensures Underscored(s)[i] == s[i]
    {
      NameCharIsPlain(s[i]);
    }
  }

  /** A name already made of matched characters, and not "." or "..", is stored as it is. */
  lemma ValidNameOfClean(name: string)
    requires AllNameChars(name)
    requires name != "" && name != "." && name != ".."
    ensures ValidName(name) == Some(name)
  {
    CleanedOfClean(name);
    UnderscoredOfClean(name);
    KeepNameCharsOfClean(name);
    assert CleanedName(name) == name;
  }

  /** Cleaning a cleaned name changes nothing. */
  lemma ValidNameIdempotent(name: string)
    requires ValidName(name).Some?
    ensures ValidName(ValidName(name).value) == ValidName(name)
  {
    ValidNameOfClean(ValidName(name).value);
  }

  /** A space becomes an underscore: `my report.pdf` is stored as `my_report.pdf`. */
  lemma ValidNameReplacesSpaces()
    ensures ValidName("my report.pdf") == Some("my_report.pdf")
  {
    var s := "my report.pdf";
    CleanedOfPlainEnds(s);
    assert Underscored(s) == "my_report.pdf";
    PlainNameChars("my_report.pdf");
    KeepNameCharsOfClean("my_report.pdf");
    assert CleanedName(s) == "my_report.pdf";
  }

  /** A character outside `[-\w.]` between matched characters is dropped, e.g. `a+b.pdf` becomes `ab.pdf`. */
  lemma ValidNameDropsOthers(a: string, c: char, b: string)
    requires a != [] && b != [] && AllNameChars(a) && AllNameChars(b)
    requires !IsNameChar(c) && !IsSpace(c)
    requires a + b != ".."
    ensures ValidName(a + [c] + b) == Some(a + b)
  {
    CleanedDropsOne(a, c, b);
  }

  lemma CleanedDropsOne(a: string, c: char, b: string)
    requires a != [] && b != [] && AllNameChars(a) && AllNameChars(b)
    requires !IsNameChar(c) && !IsSpace(c)
    ensures CleanedName(a + [c] + b) == a + b
  {
    var s := a + [c] + b;
    NameCharIsPlain(a[0]);
    NameCharIsPlain(b[|b| - 1]);
    assert s[0] == a[0] && s[|s| - 1] == b[|b| - 1];
    CleanedOfPlainEnds(s);
    UnderscoredAroundOne(a, c, b);
    KeepDropsOne(a, c, b);
  }

  lemma UnderscoredAroundOne(a: string, c: char, b: string)
    requires AllNameChars(a) && AllNameChars(b) && c != ' '
    ensures Underscored(a + [c] + b) == a + [c] + b
  {
    var s := a + [c] + b;
    forall i | 0 <= i < |s|
      ensures s[i] != ' '
    {
      if i < |a| {
        NameCharIsPlain(a[i]);
      } else if i > |a| {
        NameCharIsPlain(b[i - |a| - 1]);
      }
    }
  }

  lemma KeepDropsOne(a: string, c: char, b: string)
    requires AllNameChars(a) && AllNameChars(b) && !IsNameChar(c)
    ensures KeepNameChars(a + [c] + b) == a + b
  {
    KeepNameCharsAppend(a + [c], b);
    KeepNameCharsAppend(a, [c]);
    KeepNameCharsOfClean(a);
    KeepNameCharsOfClean(b);
  }

  /** A name of whitespace only cleans to nothing and is refused. */
  lemma ValidNameRefusesBlank()
    ensures ValidName("  ") == None
  {
    assert Strip("  ") == "" by {
      assert AllSpace("  ");
      StripEmptyIff("  ");
    }
    assert Underscored("") == "";
    assert CleanedName("  ") == "";
  }

  /** A name made of dots only is refused. */
  lemma ValidNameRefusesDots()
    ensures ValidName("..") == None
  {
    CleanedOfPlainEnds("..");
    assert Underscored("..") == "..";
    assert KeepNameChars("..") == ".." by {
      PlainNameChars("..");
      KeepNameCharsOfClean("..");
    }
    assert CleanedName("..") == "..";
  }

  /** A name that is a dot once the other characters are dropped is refused, e.g. `?.`. */
  lemma ValidNameRefusesDotAfterDrop(c: char)
    requires !IsNameChar(c) && !IsSpace(c)
    ensures ValidName([c, '.']) == None
  {
    var s := [c, '.'];
    CleanedOfPlainEnds(s);
    assert Underscored(s) == s;
    assert KeepNameChars(s) == "." by {
      assert s == [c] + ".";
      KeepNameCharsAppend([c], ".");
    }
    assert CleanedName(s) == ".";
  }

  /** A name ending in an ASCII letter, digit or `_` keeps that character at its end, so it is never refused. */
  lemma ValidNameKeepsLastWordChar(s: string)
    requires s != [] && IsWordChar(s[|s| - 1])
    ensures ValidName(s).Some?
  {
    var x := s[|s| - 1];
    NameCharIsPlain(x);
    StripKeepsLast(s);
    var t := Strip(s);
    var u := Underscored(t);
    assert u != [] && u[|u| - 1] == x;
    var k := KeepNameChars(u);
    assert k == KeepNameChars(u[..|u| - 1]) + [x];
    assert k[|k| - 1] == x && x != '.';
    assert CleanedName(s) == k;
  }

  /** A path whose last component cleans to a valid name is not empty: the file is set. */
  lemma StorableIsSet(path: string)
    requires ValidName(Basename(path)).Some?
    ensures path != ""
  {
    assert |ValidName(Basename(path)).value| <= |Basename(path)| <= |path|;
  }

  /** The name of the stored file: the upload path with its last component cleaned. */
  function StorageName(chatbotId: nat, filename: string): (p: string)
    requires ValidName(filename).Some?
    ensures UploadDirectoryPrefix <= p
  {
    UploadPath(chatbotId, ValidName(filename).value)
  }

  /** A file `my report.pdf` uploaded to chatbot 1 is stored as `documents/chatbot_1/my_report.pdf`. */
  lemma StorageNameOfSpacedName()
    ensures ValidName("my report.pdf") == Some("my_report.pdf")
    ensures StorageName(1, "my report.pdf") == "documents/chatbot_1/my_report.pdf"
  {
    ValidNameReplacesSpaces();
    UploadPathOfChatbotOne();
  }

  lemma UploadPathOfChatbotOne()
    ensures UploadPath(1, "my_report.pdf") == "documents/chatbot_1/my_report.pdf"
  {
    assert NatToString(1) == "1";
  }

  /** The stored file's basename is the cleaned file name. */
  lemma StorageNameBasename(chatbotId: nat, filename: string)
    requires ValidName(filename).Some?
    ensures Basename(StorageName(chatbotId, filename)) == ValidName(filename).value
  {
    var v := ValidName(filename).value;
    assert '/' !in v by {
      forall i | 0 <= i < |v| ensures v[i] != '/' { NameCharIsPlain(v[i]); }
    }
    UploadPathBasename(chatbotId, v);
  }

  // ---------------------------------------------------------------------------
  // Document.save(): metadata filled in from the file

  /** `os.path.splitext(name)[1].lower().replace('.', '')`. */
  function FileTypeOf(name: string): (t: string)
    ensures '.' !in t && '/' !in t && NoAsciiUpper(t)
    ensures |t| <= |name|
  {
    var ext := Extension(name);
    var lowered := Lower(ext);
    assert '/' !in lowered by {
      forall i | 0 <= i < |lowered| ensures lowered[i] != '/' {
        assert lowered[i] == ToLower(ext[i]);
      }
    }
    var r := Remove(lowered, '.');
    RemoveKeepsOthers(lowered, '.', '/');
    r
  }

  /** A plain `stem.ext` name has type `ext`, lower-cased. */
  lemma FileTypeOfNamed(stem: string, e: string)
    requires stem != "" && stem[0] != '.' && '/' !in stem
    requires '.' !in e && '/' !in e
    ensures FileTypeOf(stem + "." + e) == Lower(e)
  {
    ExtensionOfNamed(stem, e);
    LowerAppend(".", e);
    assert Lower(".") == ".";
    var l := Lower(e);
    assert '.' !in l by {
      forall i | 0 <= i < |l| ensures l[i] != '.' { assert l[i] == ToLower(e[i]); }
    }
    RemoveCons('.', l, '.');
  }

  lemma RemoveCons(c: char, s: string, d: char)
    requires c == d && d !in s
    ensures Remove([c] + s, d) == s
  {
    assert ([c] + s)[1..] == s;
  }

  /**
   * `Document.save()`: when the row has a file, fill in the name (basename of the file's
   * current name, which is the uploaded name on the first save), the size and the type
   * (from the name) wherever they are still falsy.
   */
  function Saved(d: Document): (r: Document)
    ensures r.(fileName := d.fileName, fileType := d.fileType, fileSize := d.fileSize) == d
    ensures !HasFile(d.file) ==> r == d
    ensures d.fileName != "" ==> r.fileName == d.fileName
    ensures d.fileSize != 0 ==> r.fileSize == d.fileSize
    ensures d.fileType != "" ==> r.fileType == d.fileType
    ensures HasFile(d.file) && d.fileName == "" ==> r.fileName == Basename(d.file.name)
    ensures HasFile(d.file) && d.fileSize == 0 ==> r.fileSize == d.file.size
    ensures HasFile(d.file) && d.fileType == "" ==> r.fileType == FileTypeOf(r.fileName)
  {
    if !HasFile(d.file) then d
    else
      var name := if d.fileName == "" then Basename(d.file.name) else d.fileName;
      var size := if d.fileSize == 0 then d.file.size as int else d.fileSize;
      var kind := if d.fileType == "" then FileTypeOf(name) else d.fileType;
      d.(fileName := name, fileSize := size, fileType := kind)
  }

  /** Saving again changes nothing. */
  lemma SaveIdempotent(d: Document)
    ensures Saved(Saved(d)) == Saved(d)
  {
  }

  // ---------------------------------------------------------------------------
  // FileExtensionValidator(allowed_extensions=['pdf', 'txt', 'docx', 'md'])

  /** `pathlib.PurePath(name).suffix` for a single path component. */
  function Suffix(name: string): (r: string)
    ensures r == "" || (|r| >= 2 && r[0] == '.' && '.' !in r[1..] && |r| <= |name| && r == name[|name| - |r|..])
  {
    var i := RFind(name, '.');
    if 0 < i < |name| - 1 then
      NoneAfter(name, '.', i);
      assert name[i..][1..] == name[i + 1..];
      name[i..]
    else ""
  }

  /** The extension the validator compares: `Path(name).suffix[1:].lower()`. */
  function ValidatorExtension(name: string): (e: string)
    ensures '.' !in e && NoAsciiUpper(e)
  {
    var s := Suffix(Basename(name));
    var e := Lower(if s == "" then "" else s[1..]);
    assert '.' !in e by {
      forall i | 0 <= i < |e| ensures e[i] != '.' { assert e[i] == ToLower(s[1..][i]); }
    }
    e
  }

  const LeftQuote: char := '\U{201C}'
  const RightQuote: char := '\U{201D}'

  function ExtensionMessage(extension: string): string {
    "File extension " + [LeftQuote] + extension + [RightQuote]
      + " is not allowed. Allowed extensions are: pdf, txt, docx, md."
  }

  function ValidateExtension(f: FileRef): (r: Result<FileRef, string>)
    ensures r.Ok? <==> ValidatorExtension(f.name) in FileTypeCodes
    ensures r.Ok? ==> r.value == f
    ensures r.Err? ==> r.error == ExtensionMessage(ValidatorExtension(f.name))
  {
    var e := ValidatorExtension(f.name);
    if e in FileTypeCodes then Ok(f) else Err(ExtensionMessage(e))
  }

  /** Every name the validator accepts ends in a letter, so its last component has a valid storage name. */
  lemma AcceptedNameIsStorable(name: string)
    requires ValidatorExtension(name) in FileTypeCodes
    ensures ValidName(Basename(name)).Some?
  {
    AcceptedNameEndsInLetter(name);
    ValidNameKeepsLastWordChar(Basename(name));
  }

  lemma CodeEndsInLetter(e: string)
    requires e in FileTypeCodes
    ensures e != [] && 'a' <= e[|e| - 1] <= 'z'
  {
  }

  lemma AcceptedNameEndsInLetter(name: string)
    requires ValidatorExtension(name) in FileTypeCodes
    ensures Basename(name) != [] && IsWordChar(Basename(name)[|Basename(name)| - 1])
  {
    var b := Basename(name);
    var s := Suffix(b);
    var e := ValidatorExtension(name);
    CodeEndsInLetter(e);
    assert s != "" && e == Lower(s[1..]);
    var x := s[|s| - 1];
    assert b[|b| - 1] == x;
    assert e[|e| - 1] == ToLower(x);
  }

  lemma DotsOnlyStemHasNoType()
    ensures FileTypeOf("..pdf") == ""
  {
    ExtensionOfDots(".", "pdf");
    assert "." + "." + "pdf" == "..pdf";
    assert Lower("") == "";
  }

  lemma DotsOnlyStemPassesValidator()
    ensures ValidatorExtension("..pdf") == "pdf"
  {
    var n := "..pdf";
    assert n == "." + ['.'] + "pdf";
    RFindLast(".", '.', "pdf");
    RFindAbsent(n, '/');
    assert Basename(n) == n;
    assert Suffix(n) == ".pdf";
    assert ".pdf"[1..] == "pdf";
    assert Lower("pdf") == "pdf";
  }

  /**
   * The validator and `save()` read a name's extension differently: a name made of dots and
   * an extension, such as `..pdf`, passes the validator as a PDF while `save()` records no type.
   */
  lemma ValidatorAcceptsWhatSaveCannotType()
    ensures ValidateExtension(FileRef("..pdf", 100)).Ok?
    ensures FileTypeOf("..pdf") == ""
  {
    DotsOnlyStemHasNoType();
    DotsOnlyStemPassesValidator();
  }

  /** Where both readings find an extension after a real stem, they agree. */
  lemma ValidatorAgreesWithSave(stem: string, e: string)
    requires stem != "" && stem[0] != '.' && '/' !in stem
    requires e != "" && '.' !in e && '/' !in e
    ensures ValidatorExtension(stem + "." + e) == FileTypeOf(stem + "." + e) == Lower(e)
  {
    FileTypeOfNamed(stem, e);
    var p := stem + "." + e;
    assert p == stem + ['.'] + e;
    RFindLast(stem, '.', e);
    RFindAbsent(p, '/');
    assert Basename(p) == p;
    assert Suffix(p) == p[|stem|..];
    assert p[|stem|..][1..] == e;
  }

  // ---------------------------------------------------------------------------
  // Serializers

  const MaxUploadSize: nat := 10 * 1024 * 1024
  const FileTooLargeMessage := "File size must be less than 10MB"

  /** `DocumentSerializer.validate_file`: at most 10 MiB. */
  function ValidateFile(f: FileRef): (r: Result<FileRef, string>)
    ensures r.Ok? <==> f.size <= MaxUploadSize
    ensures r.Ok? ==> r.value == f
    ensures r.Err? ==> r.error == FileTooLargeMessage
  {
    if f.size > MaxUploadSize then Err(FileTooLargeMessage) else Ok(f)
  }

  /** What a client may write to a document (`chatbot`, `file`); every other field is read-only. */
  datatype UploadData = UploadData(chatbotId: nat, file: FileRef)

  const DocumentReadOnlyFields: set<string> := {
    "id", "file_name", "file_type", "file_size", "status", "chunk_count",
    "error_message", "uploaded_at", "processed_at" }

  const UploadFields: set<string> := {"chatbot", "file"}

  lemma UploadFieldsWritable()
    ensures UploadFields !! DocumentReadOnlyFields
  {
  }

  const NoUploadPermissionMessage := "You don't have permission to upload to this chatbot"

  function DocumentLimitMessage(limit: int): string {
    "Document limit reached. Maximum " + IntToString(limit) + " documents per chatbot."
  }

  /**
   * `DocumentUploadSerializer.validate`: the requester must own the chatbot, and the chatbot
   * must hold fewer documents than the requester's per-chatbot limit. Ownership is checked first.
   */
  function ValidateUpload(owner: nat, requester: nat, documentCount: nat, limit: int, data: UploadData)
    : (r: Result<UploadData, string>)
    ensures r.Ok? <==> owner == requester && documentCount < limit
    ensures r.Ok? ==> r.value == data
    ensures owner != requester ==> r == Err(NoUploadPermissionMessage)
    ensures owner == requester && documentCount >= limit ==> r == Err(DocumentLimitMessage(limit))
  {
    if owner != requester then Err(NoUploadPermissionMessage)
    else if documentCount >= limit then Err(DocumentLimitMessage(limit))
    else Ok(data)
  }

  /** An accepted upload leaves the chatbot within its limit. */
  lemma UploadStaysWithinLimit(owner: nat, requester: nat, documentCount: nat, limit: int, data: UploadData)
    requires ValidateUpload(owner, requester, documentCount, limit, data).Ok?
    ensures documentCount + 1 <= limit
  {
  }

  /**
   * The size rule belongs to the other serializer: the upload serializer accepts a file of any
   * size that `validate_file` would reject.
   */
  lemma UploadIgnoresSize(owner: nat, documentCount: nat, limit: int, chatbotId: nat, name: string, size: nat)
    requires documentCount < limit && size > MaxUploadSize
    ensures ValidateUpload(owner, owner, documentCount, limit, UploadData(chatbotId, FileRef(name, size))).Ok?
    ensures ValidateFile(FileRef(name, size)).Err?
  {
  }

  // ---------------------------------------------------------------------------
  // DocumentChunk

  type Embedding = seq<real>

  datatype ChunkMetadata = ChunkMetadata(charCount: nat, chunkNumber: nat, totalChunks: nat)

  datatype Chunk = Chunk(
    documentId: nat,
    content: string,
    chunkIndex: nat,
    embedding: Option<Embedding>,
    metadata: ChunkMetadata)

  /** `if chunk.embedding:` — a stored, non-empty vector. */
  predicate HasEmbedding(c: Chunk) {
    c.embedding.Some? && c.embedding.value != []
  }

  /** `DocumentChunk.__str__`. */
  function ChunkStr(c: Chunk): (r: string)
    ensures "Chunk " + NatToString(c.chunkIndex) + ": " <= r
    ensures |c.content| <= 50 ==> r == "Chunk " + NatToString(c.chunkIndex) + ": " + c.content
    ensures |c.content| > 50 ==> r == "Chunk " + NatToString(c.chunkIndex) + ": " + c.content[..50] + "..."
    ensures |r| <= |"Chunk " + NatToString(c.chunkIndex) + ": "| + 53
  {
    "Chunk " + NatToString(c.chunkIndex) + ": " + Preview(c.content, 50)
  }

  // ---------------------------------------------------------------------------
  // The chunk table, in insertion order

  /** The chunks of one document, in storage order. */
  function ChunksOf(chunks: seq<Chunk>, documentId: nat): (r: seq<Chunk>)
    ensures |r| <= |chunks|
    ensures forall c :: c in r ==> c in chunks && c.documentId == documentId
  {
    if chunks == [] then []
    else
      var last := chunks[|chunks| - 1];
      ChunksOf(chunks[..|chunks| - 1], documentId) + (if last.documentId == documentId then [last] else [])
  }

  /** A document none of whose chunks is stored has an empty list. */
  lemma {:induction false} ChunksOfNone(chunks: seq<Chunk>, documentId: nat)
    requires forall c :: c in chunks ==> c.documentId != documentId
    ensures ChunksOf(chunks, documentId) == []
    decreases |chunks|
  {
    if chunks != [] {
      var init := chunks[..|chunks| - 1];
      forall c | c in init ensures c.documentId != documentId {
        assert c in chunks;
      }
      ChunksOfNone(init, documentId);
    }
  }

  lemma {:induction false} ChunksOfAppend(a: seq<Chunk>, b: seq<Chunk>, documentId: nat)
    ensures ChunksOf(a + b, documentId) == ChunksOf(a, documentId) + ChunksOf(b, documentId)
    decreases |b|
  {
    if b == [] {
      assert a + b == a;
    } else {
      var init, last := b[..|b| - 1], b[|b| - 1];
      var ab := a + b;
      assert ab[..|ab| - 1] == a + init && ab[|ab| - 1] == last;
      assert b[..|b| - 1] == init;
      var tail := if last.documentId == documentId then [last] else [];
      assert ChunksOf(ab, documentId) == ChunksOf(a + init, documentId) + tail;
      assert ChunksOf(b, documentId) == ChunksOf(init, documentId) + tail;
      ChunksOfAppend(a, init, documentId);
      AppendAssoc(ChunksOf(a, documentId), ChunksOf(init, documentId), tail);
    }
  }

  lemma AppendAssoc<T>(x: seq<T>, y: seq<T>, z: seq<T>)
    ensures x + y + z == x + (y + z)
  {
  }

  lemma {:induction false} ChunksOfAll(chunks: seq<Chunk>, documentId: nat)
    requires forall c :: c in chunks ==> c.documentId == documentId
    ensures ChunksOf(chunks, documentId) == chunks
    decreases |chunks|
  {
    if chunks != [] {
      var init, last := chunks[..|chunks| - 1], chunks[|chunks| - 1];
      assert chunks == init + [last];
      assert last in chunks;
      forall c | c in init ensures c.documentId == documentId {
        assert c in chunks;
      }
      ChunksOfAll(init, documentId);
    }
  }

  /** `DocumentChunk.objects.filter(document=d).delete()`: the chunks of every other document. */
  function WithoutDocument(chunks: seq<Chunk>, documentId: nat): (r: seq<Chunk>)
    ensures forall c :: c in r <==> c in chunks && c.documentId != documentId
  {
    if chunks == [] then []
    else
      var last := chunks[|chunks| - 1];
      var rest := WithoutDocument(chunks[..|chunks| - 1], documentId);
      assert forall c :: c in chunks <==> c in chunks[..|chunks| - 1] || c == last;
      rest + (if last.documentId != documentId then [last] else [])
  }

  /** Deleting one document's chunks empties its list and keeps every other list as it was. */
  lemma {:induction false} ChunksOfWithout(chunks: seq<Chunk>, removed: nat, documentId: nat)
    ensures ChunksOf(WithoutDocument(chunks, removed), documentId)
         == if documentId == removed then [] else ChunksOf(chunks, documentId)
    decreases |chunks|
  {
    if chunks != [] {
      var init := chunks[..|chunks| - 1];
      var last := chunks[|chunks| - 1];
      ChunksOfWithout(init, removed, documentId);
      var tail := if last.documentId != removed then [last] else [];
      ChunksOfAppend(WithoutDocument(init, removed), tail, documentId);
    }
  }

  /**
   * The chunk rows of a document agree with the document row: indices count up from 0 with the
   * total recorded in each chunk's metadata, a completed document holds exactly `chunkCount`
   * chunks (at least one), and a document in any other state holds none.
   */
  ghost predicate ChunksAgree(d: Document, cs: seq<Chunk>) {
    && (forall i :: 0 <= i < |cs| ==> cs[i].chunkIndex == i && cs[i].metadata.totalChunks == |cs|)
    && (d.status == Completed ==> d.chunkCount == |cs| && |cs| >= 1)
    && (d.status != Completed ==> cs == [])
  }
}
