/**
 * The upload queue of the calibration tool: the reader of index files
 * (one `name,value` form field per line), the form it builds for the HTTP
 * POST, the status message shown after a run, the expiry of that message,
 * the handle's set-up and tear-down, and the search of the queue
 * directory for the next index file. The worker thread, its mutex and the
 * curl transfers are outside the model; their outcomes enter as inputs.
 */
module FileUploader {
  import opened Basics

  // ------------------------------------------------------------ get_buff

  predicate IsEol(c: char)
  {
    c == '\n' || c == '\r'
  }

  /** The line with every trailing '\n' and '\r' removed. */
  function TrimEol(s: string): (t: string)
    ensures |t| <= |s| && s[..|t|] == t
    ensures t == [] || !IsEol(t[|t| - 1])
    ensures forall k :: |t| <= k < |s| ==> IsEol(s[k])
  {
    if s != [] && IsEol(s[|s| - 1]) then TrimEol(s[..|s| - 1]) else s
  }

  /** A comment line, or (when blanks are skipped) an empty one. */
  predicate Rejected(line: string, skipblanks: bool)
  {
    (|line| > 0 && line[0] == '#') || (skipblanks && line == [])
  }

  /**
   * The line get_buff hands back when the next fgets call is chunks[pos]
   * (`chunks` being what successive fgets calls return), together with the
   * position after it; None at end of file.
   */
  function NextLine(chunks: seq<string>, pos: nat, skipblanks: bool): Option<(string, nat)>
    decreases |chunks| - pos
  {
    if pos >= |chunks| then None
    else if Rejected(TrimEol(chunks[pos]), skipblanks) then NextLine(chunks, pos + 1, skipblanks)
    else Some((TrimEol(chunks[pos]), pos + 1))
  }

  /** get_buff never returns a comment or (when skipping) a blank line, and skips only those. */
  lemma {:induction false} NextLineSkipsOnlyRejected(chunks: seq<string>, pos: nat, skipblanks: bool)
    decreases |chunks| - pos
    ensures match NextLine(chunks, pos, skipblanks)
      case None => forall k :: pos <= k < |chunks| ==> Rejected(TrimEol(chunks[k]), skipblanks)
      case Some((line, next)) =>
        pos < next <= |chunks| && line == TrimEol(chunks[next - 1]) && !Rejected(line, skipblanks)
        && forall k :: pos <= k < next - 1 ==> Rejected(TrimEol(chunks[k]), skipblanks)
  {
    if pos < |chunks| && Rejected(TrimEol(chunks[pos]), skipblanks) {
      NextLineSkipsOnlyRejected(chunks, pos + 1, skipblanks);
    }
  }

  /** get_buff: fgets, strip the line ends in place, and go on while the line is rejected. */
  method GetBuff(chunks: seq<string>, pos: nat, skipblanks: bool) returns (line: Option<string>, next: nat)
    ensures match NextLine(chunks, pos, skipblanks)
      case None => line == None
      case Some((l, n)) => line == Some(l) && next == n
  {
    var p := pos;
    while true
      invariant pos <= p
      invariant NextLine(chunks, pos, skipblanks) == NextLine(chunks, p, skipblanks)
      decreases |chunks| - p
    {
      if p >= |chunks| {
        return None, p;
      }
      var buf := chunks[p];
      p := p + 1;
      var l := |buf|;
      while l > 0
        invariant 0 <= l <= |buf|
        invariant TrimEol(buf) == TrimEol(buf[..l])
      {
        if !IsEol(buf[l - 1]) {
          break;
        }
        assert buf[..l][..l - 1] == buf[..l - 1];
        l := l - 1;
      }
      buf := buf[..l];
      if !Rejected(buf, skipblanks) {
        return Some(buf), p;
      }
    }
  }

  // ------------------------------------------------------- form fields

  /** The line split at its first ',': the field name and the rest of the line; None without a comma. */
  function SplitAtComma(line: string): Option<(string, string)>
  {
    match IndexOf(line, ',')
    case None => None
    case Some(k) => Some((line[..k], line[k + 1..]))
  }

  /** A split line is its name, a comma and its value, and the name has no comma. */
  lemma SplitAtCommaInverse(line: string)
    ensures SplitAtComma(line) == None <==> ',' !in line
    ensures SplitAtComma(line).Some? ==>
      var (name, value) := SplitAtComma(line).value;
      line == name + "," + value && ',' !in name
  {
    match IndexOf(line, ',')
    case None =>
    case Some(k) =>
      assert line == line[..k] + "," + line[k + 1..];
  }

  /** Any value, commas included, comes back from name + "," + value. */
  lemma SplitAtCommaRoundTrip(name: string, value: string)
    requires ',' !in name
    ensures SplitAtComma(name + "," + value) == Some((name, value))
  {
    SplitAtFirst(name, ',', value);
    assert name + [','] + value == name + "," + value;
  }

  /** One curl_formadd part: a file upload (with its file name) or copied contents. */
  datatype FormPart = FilePart(name: string, path: string, fileName: string) | ContentsPart(name: string, contents: string)

  /** The part for one field: the field named "file" uploads the file its value names. */
  function FormPartOf(name: string, value: string, fileNameOf: string -> string): (p: FormPart)
    ensures p.FilePart? <==> name == "file"
    ensures p.name == name
    ensures p.FilePart? ==> p.path == value && p.fileName == fileNameOf(value)
    ensures p.ContentsPart? ==> p.contents == value
  {
    if name == "file" then FilePart(name, value, fileNameOf(value)) else ContentsPart(name, value)
  }

  /** The form built from the index lines, in order; lines without a comma are skipped. */
  function Form(lines: seq<string>, fileNameOf: string -> string): seq<FormPart>
  {
    if lines == [] then []
    else
      var prev := Form(lines[..|lines| - 1], fileNameOf);
      match SplitAtComma(lines[|lines| - 1])
      case None => prev
      case Some((name, value)) => prev + [FormPartOf(name, value, fileNameOf)]
  }

  /** filePathname after the lines: the value of the last "file" field, or "". */
  function FilePathname(lines: seq<string>): string
  {
    if lines == [] then ""
    else
      match SplitAtComma(lines[|lines| - 1])
      case Some((name, value)) => if name == "file" then value else FilePathname(lines[..|lines| - 1])
      case None => FilePathname(lines[..|lines| - 1])
  }

  /** The index lines for a list of (name, value) fields. */
  function FieldLines(fields: seq<(string, string)>): (lines: seq<string>)
    ensures |lines| == |fields|
  {
    if fields == [] then []
    else FieldLines(fields[..|fields| - 1]) + [fields[|fields| - 1].0 + "," + fields[|fields| - 1].1]
  }

  /** The parts for a list of (name, value) fields. */
  function FieldParts(fields: seq<(string, string)>, fileNameOf: string -> string): (parts: seq<FormPart>)
    ensures |parts| == |fields|
  {
    if fields == [] then []
    else
      var (name, value) := fields[|fields| - 1];
      FieldParts(fields[..|fields| - 1], fileNameOf) + [FormPartOf(name, value, fileNameOf)]
  }

  /** An index file written as `name,value` lines gives one part per line, in order, each value intact. */
  lemma {:induction false} FormOfFields(fields: seq<(string, string)>, fileNameOf: string -> string)
    requires forall k :: 0 <= k < |fields| ==> ',' !in fields[k].0
    ensures Form(FieldLines(fields), fileNameOf) == FieldParts(fields, fileNameOf)
  {
    if fields != [] {
      var n := |fields| - 1;
      var lines := FieldLines(fields);
      FormOfFields(fields[..n], fileNameOf);
      assert lines[..n] == FieldLines(fields[..n]);
      SplitAtCommaRoundTrip(fields[n].0, fields[n].1);
    }
  }

  /** A line without a comma leaves the form as it was. */
  lemma LineWithoutCommaSkipped(lines: seq<string>, line: string, fileNameOf: string -> string)
    requires ',' !in line
    ensures Form(lines + [line], fileNameOf) == Form(lines, fileNameOf)
  {
    SplitAtCommaInverse(line);
    assert (lines + [line])[..|lines|] == lines;
  }

  /**
   * The read loop: each line from get_buff is split at its first comma and
   * added to the form; a "file" field also records its value in filePathname.
   */
  method BuildForm(lines: seq<string>, fileNameOf: string -> string) returns (post: seq<FormPart>, filePathname: string)
    ensures post == Form(lines, fileNameOf)
    ensures filePathname == FilePathname(lines)
  {
    post, filePathname := [], "";
    for i := 0 to |lines|
      invariant post == Form(lines[..i], fileNameOf)
      invariant filePathname == FilePathname(lines[..i])
    {
      assert lines[..i + 1][..i] == lines[..i];
      var split := SplitAtComma(lines[i]);
      if split.None? {
        continue;
      }
      var (name, value) := split.value;
      if name == "file" {
        filePathname := value;
        post := post + [FilePart(name, value, fileNameOf(value))];
      } else {
        post := post + [ContentsPart(name, value)];
      }
    }
    assert lines[..|lines|] == lines;
  }

  /** The request sent for a form: error -1 for an empty one, else the form and a version=1 field. */
  function Request(post: seq<FormPart>): (r: Option<seq<FormPart>>)
    ensures r.None? <==> post == []
    ensures r.Some? ==> (|r.value| == |post| + 1 && r.value[..|post|] == post
      && r.value[|post|] == ContentsPart("version", "1"))
  {
    if post == [] then None else Some(post + [ContentsPart("version", "1")])
  }

  // ------------------------------------------------------------ status

  const Postponed: string := " Uploads postponed."
  const StatusNoInternet: string := "No Internet access." + Postponed
  const StatusNetworkError: string := "Network error while uploading." + Postponed
  const StatusServerError: string := "Server error while uploading." + Postponed
  const StatusInternalError: string := "Internal error while uploading." + Postponed

  /** The message of a finished run with some uploads or some error. */
  function StatusMessage(uploadsDone: int, errorCode: int): string
  {
    if uploadsDone != 0 then "Uploaded " + IntToString(uploadsDone) + " file" + (if uploadsDone > 1 then "s" else "")
    else if errorCode == 1 then StatusNoInternet
    else if errorCode == 2 then StatusNetworkError
    else if errorCode == 3 then StatusServerError
    else StatusInternalError
  }

  /**
   * A count of uploads is reported as "Uploaded ..." with a plural 's'
   * exactly when more than one; the three postponement causes and every
   * other error code give four different messages, none of them an upload.
   */
  lemma StatusMessageCases(uploadsDone: int, errorCode: int)
    ensures uploadsDone != 0 ==> var m := StatusMessage(uploadsDone, errorCode);
      m[..9] == "Uploaded " && (m[|m| - 1] == 's' <==> uploadsDone > 1)
    ensures uploadsDone == 0 ==> (StatusMessage(uploadsDone, errorCode)
      == (if errorCode == 1 then StatusNoInternet else if errorCode == 2 then StatusNetworkError
          else if errorCode == 3 then StatusServerError else StatusInternalError))
    ensures StatusNoInternet[..9] != "Uploaded " && StatusNetworkError[..9] != "Uploaded "
    ensures StatusServerError[..9] != "Uploaded " && StatusInternalError[..9] != "Uploaded "
    ensures StatusNoInternet != StatusNetworkError && StatusNoInternet != StatusServerError
    ensures StatusNoInternet != StatusInternalError && StatusNetworkError != StatusServerError
    ensures StatusNetworkError != StatusInternalError && StatusServerError != StatusInternalError
  {
    assert |StatusNoInternet| == 38 && |StatusNetworkError| == 49;
    assert |StatusServerError| == 48 && |StatusInternalError| == 50;
    assert StatusNoInternet[..9] == "No Intern";
    assert StatusNetworkError[..9] == "Network e";
    assert StatusServerError[..9] == "Server er";
    assert StatusInternalError[..9] == "Internal ";
    if uploadsDone != 0 {
      var m := StatusMessage(uploadsDone, errorCode);
      if uploadsDone == 1 {
        assert IntToString(1) == "1";
        assert m[|m| - 1] == 'e';
      }
    }
  }

  // -------------------------------------------------------------- time

  /** struct timeval. */
  datatype TimeVal = TimeVal(sec: int, usec: int)

  predicate Normal(t: TimeVal)
  {
    0 <= t.usec < 1000000
  }

  /** A time as a count of microseconds. */
  function Micros(t: TimeVal): int
  {
    t.sec * 1000000 + t.usec
  }

  /** timeradd: add the parts and carry one second when the microseconds overflow. */
  function TimerAdd(a: TimeVal, b: TimeVal): TimeVal
  {
    var usec := a.usec + b.usec;
    if usec >= 1000000 then TimeVal(a.sec + b.sec + 1, usec - 1000000) else TimeVal(a.sec + b.sec, usec)
  }

  /** timeradd of normal times is normal and adds the durations. */
  lemma TimerAddMicros(a: TimeVal, b: TimeVal)
    requires Normal(a) && Normal(b)
    ensures Normal(TimerAdd(a, b))
    ensures Micros(TimerAdd(a, b)) == Micros(a) + Micros(b)
  {
  }

  /** A real converted to an integer type: truncation toward zero. */
  function Truncate(x: real): int
  {
    if x >= 0.0 then x.Floor else -((-x).Floor)
  }

  /** The float seconds of fileUploaderInit as whole seconds and the remaining microseconds. */
  function HideAfter(secs: real): TimeVal
  {
    var s := Truncate(secs);
    TimeVal(s, Truncate((secs - s as real) * 1000000.0))
  }

  /** A non-negative delay becomes a normal timeval of its whole number of microseconds. */
  lemma HideAfterMicros(secs: real)
    requires secs >= 0.0
    ensures Normal(HideAfter(secs))
    ensures Micros(HideAfter(secs)) == (secs * 1000000.0).Floor
  {
    var s := secs.Floor;
    var frac := (secs - s as real) * 1000000.0;
    assert 0.0 <= frac < 1000000.0;
    assert secs * 1000000.0 == frac + (s * 1000000) as real;
  }

  /** The expiry test of fileUploaderStatusGet as written: seconds and microseconds compared separately. */
  predicate ExpiredAsWritten(now: TimeVal, hideAt: TimeVal)
  {
    now.sec >= hideAt.sec && now.usec >= hideAt.usec
  }

  /** As written, a time 0.6 s past the hide time is not expired... */
  lemma ExpiryMissedAsWritten()
    ensures Micros(TimeVal(11, 100000)) > Micros(TimeVal(10, 500000))
    ensures !ExpiredAsWritten(TimeVal(11, 100000), TimeVal(10, 500000))
    ensures ExpiredAsWritten(TimeVal(10, 600000), TimeVal(10, 500000))
  {
  }

  /** The evidently intended test, !timercmp(now, hideAt, <). */
  predicate Expired(now: TimeVal, hideAt: TimeVal)
  {
    now.sec > hideAt.sec || (now.sec == hideAt.sec && now.usec >= hideAt.usec)
  }

  /** On normal times the intended test is exactly "the hide time has been reached". */
  lemma ExpiredMeansReached(now: TimeVal, hideAt: TimeVal)
    requires Normal(now) && Normal(hideAt)
    ensures Expired(now, hideAt) <==> Micros(now) >= Micros(hideAt)
  {
    if now.sec > hideAt.sec {
      assert now.sec * 1000000 >= hideAt.sec * 1000000 + 1000000;
    } else if now.sec < hideAt.sec {
      assert now.sec * 1000000 + 1000000 <= hideAt.sec * 1000000;
    }
  }

  // ------------------------------------------------------------ handle

  /** FILE_UPLOAD_HANDLE_t without its thread and mutex. */
  class FileUploadHandle {
    var queueDirPath: Option<string>
    var formExtension: string
    var formPostURL: string
    var uploadStatus: string
    var uploadStatusHide: bool
    var uploadStatusHideAtTime: TimeVal
    var uploadStatusHideAfterSecs: TimeVal

    /** calloc and the copies of fileUploaderInit. */
    constructor(queueDirPath: Option<string>, formExtension: string, formPostURL: string, hideAfter: TimeVal)
      ensures this.queueDirPath == queueDirPath && this.formExtension == formExtension
      ensures this.formPostURL == formPostURL && uploadStatusHideAfterSecs == hideAfter
      ensures uploadStatus == "" && !uploadStatusHide && uploadStatusHideAtTime == TimeVal(0, 0)
    {
      this.queueDirPath := queueDirPath;
      this.formExtension := formExtension;
      this.formPostURL := formPostURL;
      uploadStatus := "";
      uploadStatusHide := false;
      uploadStatusHideAtTime := TimeVal(0, 0);
      uploadStatusHideAfterSecs := hideAfter;
    }

    /**
     * The end of an upload run: the hide flag is always set; with some
     * uploads or an error the message is chosen and the hide time becomes
     * now plus the hide delay, otherwise both stay as they were.
     */
    method FinishRun(uploadsDone: int, errorCode: int, now: TimeVal)
      modifies this`uploadStatus, this`uploadStatusHide, this`uploadStatusHideAtTime
      ensures uploadStatusHide
      ensures uploadsDone != 0 || errorCode != 0 ==>
        uploadStatus == StatusMessage(uploadsDone, errorCode)
        && uploadStatusHideAtTime == TimerAdd(now, uploadStatusHideAfterSecs)
      ensures uploadsDone == 0 && errorCode == 0 ==>
        uploadStatus == old(uploadStatus) && uploadStatusHideAtTime == old(uploadStatusHideAtTime)
    {
      uploadStatusHide := true;
      if uploadsDone != 0 || errorCode != 0 {
        if uploadsDone != 0 {
          uploadStatus := "Uploaded " + IntToString(uploadsDone) + " file" + (if uploadsDone > 1 then "s" else "");
        } else if errorCode == 1 {
          uploadStatus := StatusNoInternet;
        } else if errorCode == 2 {
          uploadStatus := StatusNetworkError;
        } else if errorCode == 3 {
          uploadStatus := StatusServerError;
        } else {
          uploadStatus := StatusInternalError;
        }
        uploadStatusHideAtTime := TimerAdd(now, uploadStatusHideAfterSecs);
      }
    }
  }

  /**
   * fileUploaderInit: NULL without an extension or a URL, or when curl
   * cannot be initialised; otherwise a fresh handle with an empty status.
   */
  method Init(queueDirPath: Option<string>, formExtension: Option<string>, formPostURL: Option<string>,
              statusHideAfterSecs: real, curlInitOk: bool)
    returns (handle: FileUploadHandle?)
    ensures handle == null <==> formExtension.None? || formPostURL.None? || !curlInitOk
    ensures handle != null ==> (fresh(handle)
      && handle.queueDirPath == queueDirPath && handle.formExtension == formExtension.value
      && handle.formPostURL == formPostURL.value && handle.uploadStatusHideAfterSecs == HideAfter(statusHideAfterSecs)
      && handle.uploadStatus == "" && !handle.uploadStatusHide)
  {
    if formExtension.None? || formPostURL.None? {
      return null;
    }
    var secs := Truncate(statusHideAfterSecs);
    var usecs := Truncate((statusHideAfterSecs - secs as real) * 1000000.0);
    handle := new FileUploadHandle(queueDirPath, formExtension.value, formPostURL.value, TimeVal(secs, usecs));
    if !curlInitOk {
      return null;
    }
  }

  /** The variable a FILE_UPLOAD_HANDLE_t** points at. */
  class HandleSlot {
    var handle: FileUploadHandle?

    constructor(handle: FileUploadHandle?)
      ensures this.handle == handle
    {
      this.handle := handle;
    }
  }

  /** fileUploaderFinal: nothing for a NULL pointer or handle; otherwise the handle is released and cleared. */
  method Final(slot: HandleSlot?)
    modifies slot
    ensures slot != null ==> slot.handle == null
  {
    if slot == null || slot.handle == null {
      return;
    }
    slot.handle := null;
  }

  /**
   * fileUploaderStatusGet: -1 without a handle, 0 with no status; an
   * expired status (by the as-written test) is cleared with 0; otherwise
   * the status is copied out and 1 returned while the task runs
   * (threadGetStatus == 0), 2 once it is done.
   */
  method StatusGet(handle: FileUploadHandle?, now: TimeVal, threadStatus: int)
    returns (ret: int, statusBuf: Option<string>)
    modifies handle
    ensures handle == null ==> ret == -1 && statusBuf == None
    ensures handle != null && old(handle.uploadStatus) == "" ==> ret == 0 && statusBuf == None && unchanged(handle)
    ensures handle != null && old(handle.uploadStatus) != "" ==>
      if old(handle.uploadStatusHide) && ExpiredAsWritten(now, old(handle.uploadStatusHideAtTime)) then
        ret == 0 && statusBuf == None && handle.uploadStatus == "" && !handle.uploadStatusHide
        && handle.uploadStatusHideAtTime == old(handle.uploadStatusHideAtTime)
      else
        ret == (if threadStatus == 0 then 1 else 2) && statusBuf == Some(old(handle.uploadStatus))
        && unchanged(handle)
    ensures handle != null ==> (handle.queueDirPath == old(handle.queueDirPath)
      && handle.formExtension == old(handle.formExtension) && handle.formPostURL == old(handle.formPostURL)
      && handle.uploadStatusHideAfterSecs == old(handle.uploadStatusHideAfterSecs))
  {
    ret, statusBuf := 0, None;
    if handle == null {
      return -1, None;
    }
    if handle.uploadStatus != "" {
      if handle.uploadStatusHide && now.sec >= handle.uploadStatusHideAtTime.sec
         && now.usec >= handle.uploadStatusHideAtTime.usec {
        handle.uploadStatus := "";
        handle.uploadStatusHide := false;
      } else {
        statusBuf := Some(handle.uploadStatus);
        ret := if threadStatus == 0 then 1 else 2;
      }
    }
  }

  // -------------------------------------------------------- queue scan

  /** Does entry k of the directory have extension `ext`? `extOf` is arUtilGetFileExtensionFromPath. */
  predicate MatchesAt(entries: seq<string>, k: nat, ext: string, extOf: string -> Option<string>)
    requires k < |entries|
  {
    extOf(entries[k]) == Some(ext)
  }

  /**
   * getNextFileInQueueWithExtension: the first directory entry whose
   * extension equals `ext` exactly, as "<dir>/<name>". `entries` is what
   * readdir yields, None when the directory cannot be opened.
   */
  method GetNextFileInQueueWithExtension(queueDir: string, ext: Option<string>, entries: Option<seq<string>>,
                                         extOf: string -> Option<string>)
    returns (found: bool, path: string)
    ensures found <==> (ext.Some? && entries.Some?
      && exists k :: 0 <= k < |entries.value| && MatchesAt(entries.value, k, ext.value, extOf))
    ensures found ==> exists k :: (0 <= k < |entries.value| && MatchesAt(entries.value, k, ext.value, extOf)
      && (forall k' :: 0 <= k' < k ==> !MatchesAt(entries.value, k', ext.value, extOf))
      && path == queueDir + "/" + entries.value[k])
    ensures !found ==> path == ""
  {
    path := "";
    if ext.None? || entries.None? {
      return false, "";
    }
    var names := entries.value;
    var i := 0;
    while i < |names|
      invariant 0 <= i <= |names|
      invariant forall k :: 0 <= k < i ==> !MatchesAt(names, k, ext.value, extOf)
    {
      var ext0 := extOf(names[i]);
      if ext0.Some? && ext0.value == ext.value {
        path := queueDir + "/" + names[i];
        assert MatchesAt(names, i, ext.value, extOf);
        return true, path;
      }
      i := i + 1;
    }
    found := false;
  }
}
