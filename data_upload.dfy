/**
 * The browser-side check the upload form runs when its submit button is
 * clicked: it collects the error items to show and decides whether the
 * submission goes ahead.
 *
 * Whether the browser has `FileReader`, the selected file (if any), its
 * size and the text of the file input are inputs; writing the error list
 * into the page is not modelled.
 */
module DataUpload {
  import opened Wrappers
  import UploadNames

  /** The first selected file: its size in bytes and the file input's text. */
  datatype Selection = Selection(size: nat, inputValue: string)

  /** The three error items, in the order the check adds them. */
  datatype UploadError = NotCsv | TooLarge | NoFile

  /** The client-side size limit, in bytes (not the server's 50 MiB). */
  const MaxSize: nat := 50000000

  const NotCsvItem: string := "<li>Only csv files can be uploaded.</li>"
  const TooLargeItem: string := "<li>The file you have selected is too large. Max size is 50mb.</li>"
  const NoFileItem: string := "<li>You need to select a file to upload</li>"

  function Item(e: UploadError): string
  {
    match e
    case NotCsv => NotCsvItem
    case TooLarge => TooLargeItem
    case NoFile => NoFileItem
  }

  /** The position of each error in the fixed order csv, size, selection. */
  function Rank(e: UploadError): nat
  {
    match e
    case NotCsv => 0
    case TooLarge => 1
    case NoFile => 2
  }

  /** The error items joined into one string, as `errorStr` holds them. */
  function Render(errors: seq<UploadError>): string
  {
    if errors == [] then "" else Render(errors[..|errors| - 1]) + Item(errors[|errors| - 1])
  }

  /**
   * `value.split('.').pop().toLowerCase()`: the text after the last dot,
   * or the whole value when it holds no dot, lower-cased.
   */
  function FileType(value: string): string
  {
    UploadNames.Lower(value[UploadNames.RFind(value, '.') + 1..])
  }

  /** The file type holds no dot, and a value without a dot is its own file type, lower-cased. */
  lemma FileTypeShape(value: string)
    ensures '.' !in FileType(value)
    ensures '.' !in value ==> FileType(value) == UploadNames.Lower(value)
    ensures |FileType(value)| <= |value|
  {
    var dot := UploadNames.RFind(value, '.');
    var tail := value[dot + 1..];
    assert dot == -1 ==> tail == value;
    LowerKeepsDots(tail);
  }

  lemma LowerKeepsDots(s: string)
    ensures '.' in UploadNames.Lower(s) <==> '.' in s
  {
    var r := UploadNames.Lower(s);
    if '.' in r {
      var i :| 0 <= i < |r| && r[i] == '.';
      assert s[i] == '.';
    }
    if '.' in s {
      var i :| 0 <= i < |s| && s[i] == '.';
      assert r[i] == '.';
    }
  }

  /** The errors about a selected file: its type, then its size. */
  function SelectedErrors(f: Selection): seq<UploadError>
  {
    (if FileType(f.inputValue) != "csv" then [NotCsv] else [])
    + (if f.size > MaxSize then [TooLarge] else [])
  }

  /** The selection error, for a missing file, a zero size or an empty type. */
  function SelectionError(file: Option<Selection>): seq<UploadError>
  {
    if file.None? || file.value.size == 0 || FileType(file.value.inputValue) == "" then [NoFile] else []
  }

  /** What the check reports, as a sequence of errors. */
  function Errors(hasFileReader: bool, file: Option<Selection>): seq<UploadError>
  {
    if !hasFileReader then []
    else (if file.Some? then SelectedErrors(file.value) else []) + SelectionError(file)
  }

  /**
   * The click handler.  `size` and `filetype` stay undefined when no file
   * is selected; an undefined value, a zero size and an empty file type are
   * all falsy.  `blocked` is the handler returning `false`, which cancels
   * the submission.
   */
  method ValidateUpload(hasFileReader: bool, file: Option<Selection>) returns (errorStr: string, blocked: bool)
    ensures errorStr == Render(Errors(hasFileReader, file))
    ensures blocked <==> Errors(hasFileReader, file) != []
  {
    errorStr := "";
    blocked := false;
    var size: Option<nat> := None;
    var filetype: Option<string> := None;
    if hasFileReader {
      if file.Some? {
        var n, t;
        errorStr, n, t := CheckSelected(file.value);
        size, filetype := Some(n), Some(t);
      }
      ghost var errors := if file.Some? then SelectedErrors(file.value) else [];
      if size.None? || size.value == 0 || filetype.None? || filetype.value == "" {
        RenderSnoc(errors, NoFile);
        errorStr := errorStr + Item(NoFile);
        errors := errors + [NoFile];
      }
      assert errors == Errors(hasFileReader, file);
      RenderLength(errors);
      if |errorStr| > 1 {
        blocked := true;
      }
    }
  }

  /** The checks on a selected file: its type, then its size. */
  method CheckSelected(f: Selection) returns (errorStr: string, size: nat, filetype: string)
    ensures errorStr == Render(SelectedErrors(f))
    ensures size == f.size && filetype == FileType(f.inputValue)
  {
    errorStr := "";
    ghost var errors: seq<UploadError> := [];
    assert errorStr == Render(errors);
    size := f.size;
    filetype := FileType(f.inputValue);
    if filetype != "csv" {
      RenderSnoc(errors, NotCsv);
      errorStr := errorStr + Item(NotCsv);
      errors := errors + [NotCsv];
    }
    if size > MaxSize {
      RenderSnoc(errors, TooLarge);
      errorStr := errorStr + Item(TooLarge);
      errors := errors + [TooLarge];
    }
  }

  lemma RenderSnoc(errors: seq<UploadError>, e: UploadError)
    ensures Render(errors + [e]) == Render(errors) + Item(e)
  {
    assert (errors + [e])[..|errors|] == errors;
  }

  /** Every item is longer than one character, so the join is too. */
  lemma {:induction false} RenderLength(errors: seq<UploadError>)
    ensures errors == [] ==> |Render(errors)| == 0
    ensures errors != [] ==> |Render(errors)| > 1
  {
    if errors != [] {
      RenderLength(errors[..|errors| - 1]);
    }
  }

  // ----- what the check promises -----

  /** Without `FileReader` nothing is checked and nothing is blocked. */
  lemma NoReaderNoErrors(file: Option<Selection>)
    ensures Errors(false, file) == []
  {
  }

  /** The errors come in the fixed order csv, size, selection, each at most once. */
  lemma ErrorsOrdered(hasFileReader: bool, file: Option<Selection>)
    ensures var es := Errors(hasFileReader, file);
            forall i, j :: 0 <= i < j < |es| ==> Rank(es[i]) < Rank(es[j])
  {
  }

  /** The csv error is reported exactly for a selected file whose type is not `csv`. */
  lemma NotCsvExactly(hasFileReader: bool, file: Option<Selection>)
    ensures NotCsv in Errors(hasFileReader, file)
        <==> hasFileReader && file.Some? && FileType(file.value.inputValue) != "csv"
  {
  }

  /** The size error is reported exactly for a selected file above 50000000 bytes. */
  lemma TooLargeExactly(hasFileReader: bool, file: Option<Selection>)
    ensures TooLarge in Errors(hasFileReader, file)
        <==> hasFileReader && file.Some? && file.value.size > MaxSize
  {
  }

  /** The selection error is reported for a missing file, a zero size or an empty type. */
  lemma NoFileExactly(hasFileReader: bool, file: Option<Selection>)
    ensures NoFile in Errors(hasFileReader, file)
        <==> hasFileReader && (file.None? || file.value.size == 0 || FileType(file.value.inputValue) == "")
  {
  }

  /** With no file selected, the selection error is the only one. */
  lemma MissingFileOnlySelection()
    ensures Errors(true, None) == [NoFile]
  {
  }

  /** A non-empty csv file within the limit passes. */
  lemma AcceptedUpload(f: Selection)
    requires FileType(f.inputValue) == "csv" && 0 < f.size <= MaxSize
    ensures Errors(true, Some(f)) == []
  {
  }

  /**
   * The type is taken from the text after the last dot, case-insensitively:
   * a name ending in `.CSV` is accepted.
   */
  lemma {:induction false} UpperCaseExtension(stem: string)
    ensures FileType(stem + ".CSV") == "csv"
  {
    var v := stem + ".CSV";
    assert v[|v| - 4] == '.';
    assert v[|v| - 4 + 1..] == "CSV";
  }
}
