/**
 * The dataset upload form handler.  A POST resets the handler's message
 * lists and flags, saves the uploaded file under a sanitised name, checks
 * its size and its CSV header, deletes it again when a check asked for
 * that, and finally turns the collected errors into the page's success or
 * failure state.
 *
 * The file system, the CSV sniffer and Unicode normalisation are inputs:
 * whether each write, open and removal succeeds, the size of the saved
 * file, the first two lines read back, and the sniffer's verdict.
 */
module Uploader {
  import opened Wrappers
  import opened UploadNames

  /** `_MAXFILESIZE`: 50 MiB */
  const MaxFileSize := 50 * 1024 * 1024

  datatype FileInfo = FileInfo(filename: string, body: seq<bv8>)

  /** The lines of `self.messages`. */
  datatype Message =
    | Renamed(from: string, to: string)
    | SomethingWentWrong
    | UploadSuccessful

  /** The lines of `self.error_message`. */
  datatype ErrorMessage =
    | OnlyCsv
    | UploadFailed(fname: string, reason: string)
    | FileEmpty
    | CouldNotRead(reason: string)
    | CouldNotDetermineHeader(reason: string)
    | NoHeaderRow
    | FileTooLarge
    | ForgotFile

  /** What the handler did to the file system, and whether it worked. */
  datatype FileOp = Wrote(path: string, body: seq<bv8>, ok: bool) | Removed(path: string, ok: bool)

  /** Reading back the first two lines of the saved file. */
  datatype ReadOutcome = OpenFailed(reason: string) | ReadFailed(reason: string) | Read(content: string)

  /** The exceptions that end a POST before the page is rendered. */
  datatype Crash =
    /** `request.files` is not empty but has no 'filearg' */
    | NoFileArg
    /** `csvfile.close()` after `open` itself failed */
    | UnboundCsvFile
    /** the failure message of `remove_file` formats an undefined `fname` */
    | UndefinedFname

  /** What the file system and the CSV sniffer answer during one POST. */
  datatype Disk = Disk(
    writeOk: bool,
    writeError: string,
    size: int,
    read: ReadOutcome,
    hasHeader: string -> Result<bool, string>,
    removeOk: bool)

  /** The extension test of `save_file`: `.csv` in any case. */
  predicate IsCsv(ext: string)
  {
    Lower(ext) == ".csv"
  }

  lemma CsvAnyCase(ext: string)
    ensures IsCsv(ext) <==>
              |ext| == 4 && ext[0] == '.' && (ext[1] == 'c' || ext[1] == 'C') &&
              (ext[2] == 's' || ext[2] == 'S') && (ext[3] == 'v' || ext[3] == 'V')
  {
    if |ext| == 4 {
      assert ".csv" == ['.', 'c', 's', 'v'];
    }
  }

  /** The base name `save_file` writes: the sanitised root, or the user's name when nothing is left of it. */
  function NewName(fname: string, userName: string, nfkd: string -> string, combining: char -> bool): (name: string)
    ensures StringFormat(nfkd(SplitExt(fname).0), combining) != "" ==> name == StringFormat(nfkd(SplitExt(fname).0), combining)
    ensures StringFormat(nfkd(SplitExt(fname).0), combining) == "" ==> name == userName
  {
    var formatted := StringFormat(nfkd(SplitExt(fname).0), combining);
    if formatted == "" then userName else formatted
  }

  /** `__UPLOADS__ + cname`: where `save_file` writes the upload */
  function SavedPath(uploadsDir: string, fname: string, userName: string, nfkd: string -> string, combining: char -> bool): string
  {
    uploadsDir + (NewName(fname, userName, nfkd, combining) + SplitExt(fname).1)
  }

  /** The notice `save_file` gives when the saved name differs from the uploaded base name. */
  function RenameMessages(fname: string, userName: string, nfkd: string -> string, combining: char -> bool): (m: seq<Message>)
    ensures |m| <= 1
    ensures m != [] <==> NewName(fname, userName, nfkd, combining) != SplitExt(fname).0
    ensures m != [] ==> m[0] == Renamed(fname, NewName(fname, userName, nfkd, combining) + SplitExt(fname).1)
  {
    var name := NewName(fname, userName, nfkd, combining);
    if name != SplitExt(fname).0 then [Renamed(fname, name + SplitExt(fname).1)] else []
  }

  /**
   * The saved base name is the user's name, or a non-empty name of safe
   * characters that neither starts nor ends with '-' or '_'.
   */
  lemma SavedNameShape(fname: string, userName: string, nfkd: string -> string, combining: char -> bool)
    ensures var name := NewName(fname, userName, nfkd, combining);
            name == userName || (name != "" && (forall i :: 0 <= i < |name| ==> Safe(name[i])) &&
                                 !Edge(name[0]) && !Edge(name[|name| - 1]))
  {
    StringFormatSafe(nfkd(SplitExt(fname).0), combining);
    StringFormatEdges(nfkd(SplitExt(fname).0), combining);
  }

  class DataImportHandler {
    const uploadsDir: string
    /** `self.get_current_user().name` */
    const userName: string
    const nfkd: string -> string
    const combining: char -> bool

    var messages: seq<Message>
    var messageClass: string
    var errorMessage: seq<ErrorMessage>
    var formClass: string
    var deleteFile: bool
    var fileUploaded: bool
    var fileOps: seq<FileOp>

    /** The handler as tornado builds it, then `initialize()` */
    constructor (uploadsDir: string, userName: string, nfkd: string -> string, combining: char -> bool)
      ensures this.uploadsDir == uploadsDir && this.userName == userName
      ensures this.nfkd == nfkd && this.combining == combining
      ensures messages == [] && messageClass == "" && errorMessage == [] && formClass == ""
      ensures !deleteFile && !fileUploaded && fileOps == []
    {
      this.uploadsDir, this.userName, this.nfkd, this.combining := uploadsDir, userName, nfkd, combining;
      messages, messageClass, errorMessage, formClass := [], "", [], "";
      deleteFile, fileUploaded := false, false;
      fileOps := [];
    }

    /** `initialize(messages=[], ...)`: empty lists and cleared flags */
    method Initialize()
      modifies this`messages, this`messageClass, this`errorMessage, this`formClass, this`deleteFile, this`fileUploaded
      ensures messages == [] && messageClass == "" && errorMessage == [] && formClass == ""
      ensures !deleteFile && !fileUploaded
    {
      messages, messageClass, errorMessage, formClass := [], "", [], "";
      deleteFile, fileUploaded := false, false;
    }

    /**
     * `save_file`: a wrong extension is reported but the file is written
     * anyway, under the uploads directory with the sanitised name and the
     * original extension; a rename is reported.
     */
    method SaveFile(info: FileInfo, writeOk: bool, writeError: string) returns (savedPath: string)
      modifies this`messages, this`errorMessage, this`fileUploaded, this`fileOps
      ensures savedPath == SavedPath(uploadsDir, info.filename, userName, nfkd, combining)
      ensures fileOps == old(fileOps) + [Wrote(savedPath, info.body, writeOk)]
      ensures errorMessage == old(errorMessage) + (if IsCsv(SplitExt(info.filename).1) then [] else [OnlyCsv])
                              + (if writeOk then [] else [UploadFailed(info.filename, writeError)])
      ensures !writeOk ==> messages == []
      ensures writeOk ==> messages == old(messages) + RenameMessages(info.filename, userName, nfkd, combining)
      ensures fileUploaded == writeOk
    {
      var fname := info.filename;
      var cname := NameUpload(fname);
      savedPath := uploadsDir + cname;
      fileOps := fileOps + [Wrote(savedPath, info.body, writeOk)];
      if writeOk {
        fileUploaded := true;
      } else {
        errorMessage := errorMessage + [UploadFailed(fname, writeError)];
        messages := [];
        fileUploaded := false;
      }
    }

    /** The naming half of `save_file`: the extension check, the new name, the rename notice. */
    method NameUpload(fname: string) returns (cname: string)
      modifies this`messages, this`errorMessage
      ensures cname == NewName(fname, userName, nfkd, combining) + SplitExt(fname).1
      ensures errorMessage == old(errorMessage) + (if IsCsv(SplitExt(fname).1) then [] else [OnlyCsv])
      ensures messages == old(messages) + RenameMessages(fname, userName, nfkd, combining)
    {
      var filename, fileExtension := SplitExt(fname).0, SplitExt(fname).1;
      if Lower(fileExtension) != ".csv" {
        errorMessage := errorMessage + [OnlyCsv];
      } else {
        assert errorMessage + [] == errorMessage;
      }
      var newname := StringFormat(nfkd(filename), combining);
      if newname == "" {
        newname := userName;
      }
      cname := newname + fileExtension;
      if newname != filename {
        messages := messages + [Renamed(fname, cname)];
      } else {
        assert messages + [] == messages;
      }
    }

    /** `check_file_size`: only for an uploaded file; above the limit, report, mark for deletion, drop the messages */
    method CheckFileSize(size: int)
      modifies this`messages, this`errorMessage, this`deleteFile
      ensures fileUploaded && size > MaxFileSize ==>
                errorMessage == old(errorMessage) + [FileTooLarge] && deleteFile && messages == []
      ensures !(fileUploaded && size > MaxFileSize) ==>
                errorMessage == old(errorMessage) && deleteFile == old(deleteFile) && messages == old(messages)
    {
      if fileUploaded {
        if size > MaxFileSize {
          errorMessage := errorMessage + [FileTooLarge];
          deleteFile := true;
          messages := [];
        }
      }
    }

    /**
     * `validate_file`: only for an uploaded file; an empty file, an
     * unreadable one and one without a header row are reported and marked
     * for deletion.  When `open` itself failed, closing the never-isOpen
     * file raises.
     */
    method ValidateFile(read: ReadOutcome, hasHeader: string -> Result<bool, string>) returns (r: Result<(), Crash>)
      modifies this`errorMessage, this`deleteFile
      ensures !fileUploaded ==> r.Ok? && errorMessage == old(errorMessage) && deleteFile == old(deleteFile)
      ensures fileUploaded ==>
                var content := if read.Read? then read.content else "";
                var readErrors := match read
                                  case Read(c) => if c == "" then [FileEmpty] else []
                                  case OpenFailed(reason) => [CouldNotRead(reason)]
                                  case ReadFailed(reason) => [CouldNotRead(reason)];
                var headerErrors := match hasHeader(content)
                                    case Err(reason) => [CouldNotDetermineHeader(reason), NoHeaderRow]
                                    case Ok(h) => if h then [] else [NoHeaderRow];
                && errorMessage == old(errorMessage) + readErrors + headerErrors
                && deleteFile == (old(deleteFile) || (read.Read? && read.content == "") || hasHeader(content) != Ok(true))
                && (r.Err? <==> read.OpenFailed?)
                && (r.Err? ==> r.error == UnboundCsvFile)
    {
      r := Ok(());
      if fileUploaded {
        var fileContent := "";
        var isOpen := true;
        match read {
          case Read(c) =>
            fileContent := c;
            if |fileContent| == 0 {
              errorMessage := errorMessage + [FileEmpty];
              deleteFile := true;
            }
          case OpenFailed(reason) =>
            errorMessage := errorMessage + [CouldNotRead(reason)];
            isOpen := false;
          case ReadFailed(reason) =>
            errorMessage := errorMessage + [CouldNotRead(reason)];
        }
        var header := false;
        match hasHeader(fileContent) {
          case Ok(h) =>
            header := h;
          case Err(reason) =>
            errorMessage := errorMessage + [CouldNotDetermineHeader(reason)];
            deleteFile := true;
        }
        if !header {
          errorMessage := errorMessage + [NoHeaderRow];
          deleteFile := true;
        }
        if !isOpen {
          r := Err(UnboundCsvFile);
        }
      }
    }

    /** `remove_file`: its failure path formats a name that is not defined there, and raises */
    method RemoveFile(savedPath: string, removeOk: bool) returns (r: Result<(), Crash>)
      modifies this`fileOps
      ensures fileOps == old(fileOps) + [Removed(savedPath, removeOk)]
      ensures r.Err? <==> !removeOk
      ensures r.Err? ==> r.error == UndefinedFname
    {
      fileOps := fileOps + [Removed(savedPath, removeOk)];
      r := if removeOk then Ok(()) else Err(UndefinedFname);
    }

    /** `set_messages_classes`: any error makes the page a failure, otherwise a success */
    method SetMessagesClasses()
      modifies this`messages, this`fileUploaded, this`messageClass, this`formClass
      ensures errorMessage != [] ==>
                messages == old(messages) + [SomethingWentWrong] && !fileUploaded &&
                messageClass == "bg-danger" && formClass == "has-error"
      ensures errorMessage == [] ==>
                messages == old(messages) + [UploadSuccessful] && fileUploaded &&
                messageClass == "bg-success" && formClass == old(formClass)
    {
      if |errorMessage| != 0 {
        messages := messages + [SomethingWentWrong];
        fileUploaded := false;
        messageClass := "bg-danger";
        formClass := "has-error";
      } else {
        fileUploaded := true;
        messageClass := "bg-success";
        messages := messages + [UploadSuccessful];
      }
    }

    /** The part of `post` for an uploaded file: save, check size, validate, remove when marked. */
    method Handle(fileinfo: FileInfo, disk: Disk) returns (r: Result<(), Crash>)
      requires errorMessage == [] && !deleteFile && !fileUploaded
      modifies this`messages, this`errorMessage, this`fileUploaded, this`fileOps, this`deleteFile
      ensures r.Err? ==> r.error != NoFileArg
      ensures deleteFile ==> errorMessage != []
      ensures r.Ok? ==>
                var saved := SavedPath(uploadsDir, fileinfo.filename, userName, nfkd, combining);
                fileOps == old(fileOps) + [Wrote(saved, fileinfo.body, disk.writeOk)]
                           + (if deleteFile then [Removed(saved, disk.removeOk)] else [])
    {
      var savedPath := SaveFile(fileinfo, disk.writeOk, disk.writeError);
      ghost var written := fileOps;
      CheckFileSize(disk.size);
      var validated := ValidateFile(disk.read, disk.hasHeader);
      if validated.Err? {
        return validated;
      }
      if deleteFile {
        var removed := RemoveFile(savedPath, disk.removeOk);
        if removed.Err? {
          return removed;
        }
      } else {
        assert written + [] == written;
      }
      r := Ok(());
    }

    /**
     * `post`: with no file the page reports "You forgot to select a file";
     * otherwise save, check size, validate, and remove the file exactly
     * when a check marked it for deletion.
     */
    method Post(files: map<string, seq<FileInfo>>, disk: Disk) returns (r: Result<(), Crash>)
      modifies this
      ensures |files| == 0 ==>
                r.Ok? && errorMessage == [ForgotFile] && messages == [SomethingWentWrong] &&
                !fileUploaded && !deleteFile && messageClass == "bg-danger" && formClass == "has-error" &&
                fileOps == old(fileOps)
      ensures r.Err? && r.error == NoFileArg <==>
                |files| != 0 && ("filearg" !in files || files["filearg"] == [])
      ensures r.Ok? ==> (fileUploaded <==> errorMessage == [])
      ensures r.Ok? ==> messageClass == (if errorMessage == [] then "bg-success" else "bg-danger")
      ensures r.Ok? ==> |messages| > 0 && messages[|messages| - 1] == (if errorMessage == [] then UploadSuccessful else SomethingWentWrong)
      ensures r.Ok? ==> (deleteFile ==> errorMessage != [])
      ensures r.Ok? && |files| != 0 ==>
                var info := files["filearg"][0];
                var saved := SavedPath(uploadsDir, info.filename, userName, nfkd, combining);
                fileOps == old(fileOps) + [Wrote(saved, info.body, disk.writeOk)]
                           + (if deleteFile then [Removed(saved, disk.removeOk)] else [])
    {
      Initialize();
      if |files| != 0 {
        if "filearg" !in files || files["filearg"] == [] {
          return Err(NoFileArg);
        }
        var fileinfo := files["filearg"][0];
        var handled := Handle(fileinfo, disk);
        if handled.Err? {
          return handled;
        }
      } else {
        errorMessage := errorMessage + [ForgotFile];
      }
      SetMessagesClasses();
      r := Ok(());
    }
  }
}
