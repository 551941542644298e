/** The chat front end (frontend/gradio_app.py): how an answer and its references are
    rendered, and the guards that keep blank or missing input from reaching the API.
    The API's reply is an input; `FormatScore` stands for the `{score:.3f}` float
    formatting. */
module Frontend {
  import opened Common
  import opened Answers
  import opened Paths

  /** `ref.get("sheet")` etc. are truthy: a non-empty string, a non-zero number. */
  predicate TruthyText(s: Option<string>) { s.Some? && s.value != [] }
  predicate TruthyInt(n: Option<int>) { n.Some? && n.value != 0 }

  /** The location parts of a reference, in the order page, slide, sheet. */
  function LocParts(r: Reference): (parts: seq<string>)
    ensures |parts| == (if r.page.Some? then 1 else 0) + (if r.slide.Some? then 1 else 0)
                       + (if TruthyText(r.sheet) then 1 else 0)
  {
    (if r.page.Some? then ["Page " + IntToString(r.page.value)] else [])
    + (if r.slide.Some? then ["Slide " + IntToString(r.slide.value)] else [])
    + (if TruthyText(r.sheet) then [SheetPart(r)] else [])
  }

  /** `"Sheet S (Rows a-b)"` when both row bounds are truthy, `"Sheet S"` otherwise. */
  function SheetPart(r: Reference): string
    requires r.sheet.Some?
  {
    if TruthyInt(r.startRow) && TruthyInt(r.endRow) then
      "Sheet " + r.sheet.value + " (Rows " + IntToString(r.startRow.value) + "-" + IntToString(r.endRow.value) + ")"
    else "Sheet " + r.sheet.value
  }

  /** The parts joined by `" | "`, or `"Location N/A"` when there are none. */
  function Location(r: Reference): string
  {
    var parts := LocParts(r);
    if parts == [] then "Location N/A" else Join(parts, " | ")
  }

  /** The first 150 characters of the text and an ellipsis. */
  function Preview(text: string): (p: string)
    ensures |p| == (if |text| < 150 then |text| else 150) + 1
    ensures p[|p| - 1] == '…'
    ensures p[..|p| - 1] == text[..|p| - 1]
  {
    (if |text| <= 150 then text else text[..150]) + "…"
  }

  /** One reference paragraph, numbered `n`. */
  function RefEntry(formatScore: real -> string, n: nat, r: Reference): string
  {
    "\n**" + NatToString(n) + ".** 📄 " + r.source + " — " + Location(r) + " — "
    + "Score: " + formatScore(r.score) + "\n"
    + "*Preview:* " + Preview(r.text) + "\n"
  }

  /** The reference paragraphs, numbered from 1 in order. */
  function Entries(formatScore: real -> string, refs: seq<Reference>): (es: seq<string>)
    ensures |es| == |refs|
    ensures forall k :: 0 <= k < |refs| ==> es[k] == RefEntry(formatScore, k + 1, refs[k])
  {
    seq(|refs|, k requires 0 <= k < |refs| => RefEntry(formatScore, k + 1, refs[k]))
  }

  /** The references block: the paragraphs one after another. */
  function Block(formatScore: real -> string, refs: seq<Reference>): string
    decreases |refs|
  {
    if refs == [] then "" else Block(formatScore, refs[..|refs| - 1]) + RefEntry(formatScore, |refs|, refs[|refs| - 1])
  }

  /** The rendered reply: the answer, then the references block when there are any. */
  function Rendered(formatScore: real -> string, answer: string, refs: seq<Reference>): string
  {
    "**Answer:**\n" + answer + "\n\n"
    + (if refs == [] then "" else "**📚 References:**\n" + Block(formatScore, refs))
  }

  /** `formatted_response`: the answer heading, then the references block. */
  method FormatReply(formatScore: real -> string, answer: string, refs: seq<Reference>) returns (formatted: string)
    ensures formatted == Rendered(formatScore, answer, refs)
  {
    formatted := "**Answer:**\n" + answer + "\n\n";
    if refs != [] {
      var block := FormatBlock(formatScore, refs);
      formatted := formatted + ("**📚 References:**\n" + block);
    }
  }

  /** The `for i, ref in enumerate(references, 1)` loop, one paragraph per reference. */
  method FormatBlock(formatScore: real -> string, refs: seq<Reference>) returns (block: string)
    ensures block == Block(formatScore, refs)
  {
    block := "";
    var i := 0;
    while i < |refs|
      invariant 0 <= i <= |refs|
      invariant block == Block(formatScore, refs[..i])
    {
      BlockSnoc(formatScore, refs, i);
      block := block + RefEntry(formatScore, i + 1, refs[i]);
      i := i + 1;
    }
    assert refs[..i] == refs;
  }

  lemma BlockSnoc(formatScore: real -> string, refs: seq<Reference>, i: nat)
    requires i < |refs|
    ensures Block(formatScore, refs[..i + 1]) == Block(formatScore, refs[..i]) + RefEntry(formatScore, i + 1, refs[i])
  {
    assert refs[..i + 1][..i] == refs[..i];
  }

  /** The block is the paragraphs in order: paragraph k, numbered k + 1, follows the
      first k. */
  lemma {:induction false} BlockEntries(formatScore: real -> string, refs: seq<Reference>)
    ensures Block(formatScore, refs) == Concat(Entries(formatScore, refs))
    decreases |refs|
  {
    if refs != [] {
      var init := refs[..|refs| - 1];
      BlockEntries(formatScore, init);
      assert Entries(formatScore, refs)[..|refs| - 1] == Entries(formatScore, init);
    }
  }

  function Concat(xs: seq<string>): string
    decreases |xs|
  {
    if xs == [] then "" else Concat(xs[..|xs| - 1]) + xs[|xs| - 1]
  }

  /** A location names exactly the locator fields the reference carries, in the order
      page, slide, sheet, and falls back to `"Location N/A"` only when it carries none. */
  lemma LocationParts(r: Reference)
    ensures Location(r) == "Location N/A" <==> (r.page.None? && r.slide.None? && !TruthyText(r.sheet))
    ensures r.page.Some? ==> LocParts(r)[0] == "Page " + IntToString(r.page.value)
    ensures r.page.None? && r.slide.Some? ==> LocParts(r)[0] == "Slide " + IntToString(r.slide.value)
    ensures TruthyText(r.sheet) ==> LocParts(r)[|LocParts(r)| - 1] == SheetPart(r)
  {
    var parts := LocParts(r);
    if parts != [] {
      JoinStartsWithFirst(parts, " | ");
      var first := parts[0];
      assert first[0] == 'P' || first[0] == 'S';
      assert Join(parts, " | ")[0] == first[0];
      assert "Location N/A"[0] == 'L';
    }
  }

  /** A reference for sheet rows `a..b` renders as `"Sheet S (Rows a-b)"`. */
  lemma SheetRowsLocation(r: Reference)
    requires r.page.None? && r.slide.None? && TruthyText(r.sheet) && TruthyInt(r.startRow) && TruthyInt(r.endRow)
    ensures Location(r) == "Sheet " + r.sheet.value + " (Rows " + IntToString(r.startRow.value) + "-" + IntToString(r.endRow.value) + ")"
  {
  }

  /** Reference k of the reply is numbered k + 1. */
  lemma {:induction false} ConcatEntries(formatScore: real -> string, refs: seq<Reference>, k: nat)
    requires k < |refs|
    ensures var es := Entries(formatScore, refs);
      Concat(es) == Concat(es[..k]) + RefEntry(formatScore, k + 1, refs[k]) + Concat(es[k + 1..])
  {
    var es := Entries(formatScore, refs);
    ConcatSplit(es, k);
  }

  lemma {:induction false} ConcatSplit(xs: seq<string>, k: nat)
    requires k < |xs|
    ensures Concat(xs) == Concat(xs[..k]) + xs[k] + Concat(xs[k + 1..])
    decreases |xs|
  {
    if k < |xs| - 1 {
      var init := xs[..|xs| - 1];
      ConcatSplit(init, k);
      assert init[..k] == xs[..k];
      assert init[k] == xs[k];
      var rest := xs[k + 1..];
      assert rest[..|rest| - 1] == init[k + 1..];
      assert rest[|rest| - 1] == xs[|xs| - 1];
    } else {
      assert xs[..k] == xs[..|xs| - 1];
      assert xs[k + 1..] == [];
    }
  }

  /** `chat_with_documents`' reply from the API. */
  datatype Reply =
    | Answered(answer: string, references: seq<Reference>)
    | NoDocuments             // status 404
    | Refused(detail: string) // any other status
    | NoConnection            // `requests.exceptions.ConnectionError`
    | Failed(message: string) // any other exception

  /** `chat_with_documents`: a blank message leaves the history as it is and makes no
      request (`asked` is false); otherwise the exchange is appended. The input box is
      cleared either way. */
  method ChatWithDocuments(formatScore: real -> string, message: string, history: seq<(string, string)>, reply: Reply)
    returns (asked: bool, newHistory: seq<(string, string)>, box: string)
    ensures box == ""
    ensures IsBlank(message) ==> !asked && newHistory == history
    ensures !IsBlank(message) ==> asked && newHistory == history + [(message, ChatText(formatScore, reply))]
  {
    StripEmptyIffBlank(message);
    if Strip(message) == [] {
      return false, history, "";
    }
    var text := ReplyText(formatScore, reply);
    return true, history + [(message, text)], "";
  }

  /** The message the chat shows for a reply. */
  method ReplyText(formatScore: real -> string, reply: Reply) returns (text: string)
    ensures text == ChatText(formatScore, reply)
  {
    match reply {
      case Answered(answer, refs) =>
        text := FormatReply(formatScore, answer, refs);
      case NoDocuments =>
        text := NoDocumentsText;
      case Refused(detail) =>
        text := ErrorPrefix + detail;
      case NoConnection =>
        text := NoConnectionText;
      case Failed(msg) =>
        text := ErrorPrefix + msg;
    }
  }

  const NoDocumentsText: string := "❌ No relevant documents found for your question. Please upload some documents first."
  const NoConnectionText: string := "❌ Error: Cannot connect to API server. Please make sure it's running on port 8000."
  const ErrorPrefix: string := "❌ Error: "

  /** The text a reply adds to the chat. */
  function ChatText(formatScore: real -> string, reply: Reply): string
  {
    match reply
    case Answered(answer, refs) => Rendered(formatScore, answer, refs)
    case NoDocuments => NoDocumentsText
    case Refused(detail) => ErrorPrefix + detail
    case NoConnection => NoConnectionText
    case Failed(msg) => ErrorPrefix + msg
  }

  const NoFilesPlaceholder: string := "No files available"

  /** `delete_file_gr`: the file a delete request is sent for, or `None` when the
      selection is empty or the dropdown placeholder. */
  function DeleteTarget(selection: Option<string>): (target: Option<string>)
    ensures target.Some? <==> selection.Some? && selection.value != [] && selection.value != NoFilesPlaceholder
    ensures target.Some? ==> target == selection
  {
    if selection.None? || selection.value == [] || selection.value == NoFilesPlaceholder then None else selection
  }

  /** What `upload_file_gr` was given. */
  datatype Picked = NothingPicked | PathPicked(path: string) | OtherObject

  /** `upload_file_gr` before the request: the name it uploads under, or the message it
      returns at once. */
  function UploadTarget(file: Picked): (r: Result<string, string>)
    ensures file.NothingPicked? <==> r == Err("No file selected")
    ensures file.OtherObject? <==> r == Err("Error: Unsupported file object type")
    ensures file.PathPicked? ==> r == Ok(Basename(file.path))
  {
    match file
    case NothingPicked => Err("No file selected")
    case OtherObject => Err("Error: Unsupported file object type")
    case PathPicked(p) => Ok(Basename(p))
  }
}
