/** The upload endpoint (app/api/v1/endpoints/upload.py): it checks that a file name was
    given and that its extension is one of the seven supported ones, then hands the file
    to the document service and passes its `HTTPException`s on. */
module UploadEndpoint {
  import opened Common
  import opened Http

  const Allowed: set<string> := {".pdf", ".doc", ".docx", ".xlsx", ".xls", ".pptx", ".ppt"}

  /** The allowed extensions as the rejection message lists them. */
  const AllowedListing: string := ".pdf, .doc, .docx, .xlsx, .xls, .pptx, .ppt"

  /** `s.split('.')[-1]`: the text after the last `.`, or all of `s` when it has none. */
  function LastSegment(s: string): (seg: string)
    ensures seg == s || (|seg| < |s| && s[|s| - |seg| - 1] == '.')
    ensures forall i :: 0 <= i < |seg| && seg != s ==> seg[i] != '.'
    ensures seg == s[|s| - |seg|..]
  {
    match LastIndexOf(s, '.')
    case None => s
    case Some(k) => s[k + 1..]
  }

  /** `f".{filename.lower().split('.')[-1]}"`. */
  function UploadExt(filename: string): (ext: string)
    ensures |ext| >= 1 && ext[0] == '.'
  {
    "." + LastSegment(Lower(filename))
  }

  /** The validation before the service is called: the extension to process, or the 400. */
  function Validate(filename: string): (r: Result<string, HttpError>)
    ensures filename == [] ==> r == Err(HttpError(400, "No file provided"))
    ensures filename != [] ==> (r.Ok? <==> UploadExt(filename) in Allowed)
    ensures r.Err? ==> r.error.status == 400
  {
    if filename == [] then Err(HttpError(400, "No file provided"))
    else
      var ext := UploadExt(filename);
      if ext !in Allowed then Err(HttpError(400, "File type " + ext + " not supported. Allowed: " + AllowedListing))
      else Ok(ext)
  }

  /** What the endpoint returns: the service's `message` and `filename`. */
  datatype UploadResponse = UploadResponse(message: string, filename: string)

  /** `upload_file`: validate, then call the service; its `HTTPException`s pass unchanged,
      anything else it raises becomes a 500. `service` is what `process_upload` returns
      or raises. */
  function UploadFile(filename: string, service: Result<UploadResponse, Raised>): (r: Result<UploadResponse, HttpError>)
    ensures Validate(filename).Err? ==> r == Err(Validate(filename).error)
    ensures Validate(filename).Ok? && service.Ok? ==> r == Ok(service.value)
    ensures Validate(filename).Ok? && service.Err? && service.error.HttpRaised? ==> r == Err(service.error.error)
    ensures Validate(filename).Ok? && service.Err? && service.error.OtherRaised? ==>
      r == Err(HttpError(500, "Upload failed: " + service.error.message))
  {
    match Validate(filename)
    case Err(e) => Err(e)
    case Ok(_) =>
      match service
      case Ok(v) => Ok(v)
      case Err(HttpRaised(e)) => Err(e)
      case Err(OtherRaised(msg)) => Err(HttpError(500, "Upload failed: " + msg))
  }

  /** Extensions are compared case-insensitively. */
  lemma ExtIgnoresCase(filename: string)
    ensures UploadExt(Lower(filename)) == UploadExt(filename)
  {
    LowerIdempotent(filename);
  }

  /** A name `stem.e` with no further `.` in `e` has the extension `"." + lower(e)`. */
  lemma ExtOfDottedName(stem: string, e: string)
    requires forall i :: 0 <= i < |e| ==> e[i] != '.'
    ensures UploadExt(stem + "." + e) == "." + Lower(e)
  {
    var s := Lower(stem + "." + e);
    assert s == Lower(stem) + "." + Lower(e);
    assert s[|stem|] == '.';
    match LastIndexOf(s, '.')
    case None =>
    case Some(k) =>
      assert k == |stem|;
  }

  /** A name with no `.` is its own extension. */
  lemma ExtOfDotlessName(name: string)
    requires forall i :: 0 <= i < |name| ==> name[i] != '.'
    ensures UploadExt(name) == "." + Lower(name)
  {
    var s := Lower(name);
    assert forall i :: 0 <= i < |s| ==> s[i] != '.';
  }

  /** A file called `pdf` is accepted: its whole name is its extension. */
  lemma BareExtensionAccepted()
    ensures Validate("pdf").Ok?
  {
    ExtOfDotlessName("pdf");
    LowerOfLowercase("pdf");
    assert UploadExt("pdf") == ".pdf";
  }

  /** Upper-case extensions are accepted. */
  lemma UpperCaseAccepted()
    ensures Validate("report.PDF").Ok?
  {
    ReportExt();
    assert ".pdf" in Allowed;
  }

  lemma ReportExt()
    ensures UploadExt("report.PDF") == ".pdf"
  {
    ExtOfDottedName("report", "PDF");
    assert Lower("PDF") == "pdf";
    assert "report" + "." + "PDF" == "report.PDF";
  }

  /** Other extensions are refused with 400. */
  lemma TextFileRefused()
    ensures Validate("notes.txt").Err? && Validate("notes.txt").error.status == 400
  {
    NotesExt();
    NotAllowed(".txt");
  }

  lemma NotesExt()
    ensures UploadExt("notes.txt") == ".txt"
  {
    DotTxt();
    ExtOfDottedName("notes", "txt");
  }

  lemma DotTxt()
    ensures "notes" + "." + "txt" == "notes.txt" && Lower("txt") == "txt"
  {
    LowerOfLowercase("txt");
  }

  /** Every supported extension has `p`, `d` or `x` after its dot. */
  lemma NotAllowed(ext: string)
    requires |ext| >= 2 && ext[1] != 'p' && ext[1] != 'd' && ext[1] != 'x'
    ensures ext !in Allowed
  {
    assert ".pdf"[1] == 'p' && ".doc"[1] == 'd' && ".docx"[1] == 'd' && ".xlsx"[1] == 'x';
    assert ".xls"[1] == 'x' && ".pptx"[1] == 'p' && ".ppt"[1] == 'p';
  }
}
