/** The upload form: choosing files (type and size checked on the client),
    removing them again, the validation before sending, the multipart
    request it sends, and how it digests the server's reply. The request
    itself is not sent here: `StartUpload` returns it, and `FinishUpload`
    takes what came back. */
module UploadForm {
  import opened Base

  /** A file picked in the browser: its name, MIME type and size in bytes. */
  datatype FileItem = FileItem(name: string, mime: string, size: int)

  const AllowedTypes: seq<string> := ["application/pdf", "image/jpeg", "image/png"]

  /** 10 MB */
  const MaxSize: int := 10 * 1024 * 1024

  /** Why a file is refused, if it is: the type is checked before the size. */
  function Rejection(f: FileItem): (m: Option<string>)
    ensures m.None? <==> f.mime in AllowedTypes && f.size <= MaxSize
    ensures f.mime !in AllowedTypes ==> m == Some("Ungültiger Dateityp: " + f.name)
    ensures f.mime in AllowedTypes && f.size > MaxSize ==> m == Some("Datei ist zu groß: " + f.name + " (max. 10MB)")
  {
    if f.mime !in AllowedTypes then Some("Ungültiger Dateityp: " + f.name)
    else if f.size > MaxSize then Some("Datei ist zu groß: " + f.name + " (max. 10MB)")
    else None
  }

  predicate Acceptable(f: FileItem) {
    Rejection(f).None?
  }

  /** The files of a selection that pass, in their order. */
  function Accepted(fs: seq<FileItem>): (r: seq<FileItem>)
    ensures |r| <= |fs|
    decreases |fs|
  {
    if fs == [] then []
    else Accepted(fs[..|fs| - 1]) + (if Acceptable(fs[|fs| - 1]) then [fs[|fs| - 1]] else [])
  }

  /** The message of the last refused file of a selection, if any. */
  function LastRejection(fs: seq<FileItem>): Option<string>
    decreases |fs|
  {
    if fs == [] then None
    else Rejection(fs[|fs| - 1]).OrElse(LastRejection(fs[..|fs| - 1]))
  }

  /** The accepted files are exactly the acceptable files of the selection. */
  lemma {:induction false} AcceptedMembers(fs: seq<FileItem>)
    ensures forall f :: f in Accepted(fs) <==> f in fs && Acceptable(f)
    decreases |fs|
  {
    if fs != [] {
      var init := fs[..|fs| - 1];
      assert fs == init + [fs[|fs| - 1]];
      AcceptedMembers(init);
    }
  }

  /** With no acceptable file, the selection's last refusal is reported when there is one. */
  lemma {:induction false} NothingAcceptedHasRejection(fs: seq<FileItem>)
    requires fs != [] && Accepted(fs) == []
    ensures LastRejection(fs) == Rejection(fs[|fs| - 1]) && LastRejection(fs).Some?
  {
  }

  /** `handleFiles(selected)`: acceptable files are appended to the list;
      the error shown is cleared when any file was accepted, and otherwise
      is the last refusal's message (unchanged when nothing was picked). */
  method HandleFiles(files: seq<FileItem>, error: string, selected: seq<FileItem>)
    returns (files': seq<FileItem>, error': string)
    ensures files' == files + Accepted(selected)
    ensures Accepted(selected) != [] ==> error' == ""
    ensures Accepted(selected) == [] ==> error' == LastRejection(selected).GetOr(error)
  {
    var valid: seq<FileItem> := [];
    var shown := error;
    var i := 0;
    while i < |selected|
      invariant 0 <= i <= |selected|
      invariant valid == Accepted(selected[..i])
      invariant shown == LastRejection(selected[..i]).GetOr(error)
    {
      assert selected[..i + 1][..i] == selected[..i];
      var f := selected[i];
      var refusal := Rejection(f);
      if refusal.Some? {
        shown := refusal.value;
      } else {
        valid := valid + [f];
      }
      i := i + 1;
    }
    assert selected[..i] == selected;
    if |valid| > 0 {
      files' := files + valid;
      error' := "";
    } else {
      files' := files;
      error' := shown;
    }
  }

  /** The list after its `i`-th file's remove button was clicked. */
  function RemoveFile(files: seq<FileItem>, i: nat): (r: seq<FileItem>)
    requires i < |files|
    ensures |r| == |files| - 1
    ensures forall j :: 0 <= j < i ==> r[j] == files[j]
    ensures forall j :: i <= j < |r| ==> r[j] == files[j + 1]
  {
    files[..i] + files[i + 1..]
  }

  /** The form's state. */
  datatype Form = Form(
    files: seq<FileItem>,
    vorname: string,
    nachname: string,
    loading: bool,
    success: string,
    error: string)

  /** The upload button is greyed out while sending and while no file is chosen. */
  predicate Disabled(st: Form) {
    st.loading || |st.files| == 0
  }

  /** One part of the multipart request. */
  datatype Part = TextPart(field: string, value: string) | FilePart(field: string, file: FileItem)

  datatype Start = Blocked(form: Form) | Sent(form: Form, request: seq<Part>)

  const NamesMissing := "Bitte geben Sie Vor- und Nachnamen an."
  const RoleMissing := "Es wurde keine gültige Rolle übergeben. Bitte wählen Sie eine Option im Dashboard."
  const FilesMissing := "Bitte wählen Sie mindestens eine Datei zum Hochladen aus."

  /** The file parts of a request, for the chosen files in order. */
  function FileParts(files: seq<FileItem>): (ps: seq<Part>)
    ensures |ps| == |files|
    ensures forall j :: 0 <= j < |files| ==> ps[j] == FilePart("file", files[j])
  {
    if files == [] then [] else [FilePart("file", files[0])] + FileParts(files[1..])
  }

  /** The first half of `handleUpload`: check both names, then the role,
      then the files; then clear the messages, set `loading`, and build the
      request from the trimmed names, the role and every chosen file. */
  function StartUpload(st: Form, rolleName: string): (out: Start)
    ensures out.Blocked? <==> Trim(st.vorname) == "" || Trim(st.nachname) == "" || rolleName == "" || st.files == []
    ensures out.Blocked? ==> out.form == st.(error := out.form.error)
    ensures out.Blocked? && (Trim(st.vorname) == "" || Trim(st.nachname) == "") ==> out.form.error == NamesMissing
    ensures Trim(st.vorname) != "" && Trim(st.nachname) != "" && rolleName == "" ==>
              out == Blocked(st.(error := RoleMissing))
    ensures Trim(st.vorname) != "" && Trim(st.nachname) != "" && rolleName != "" && st.files == [] ==>
              out == Blocked(st.(error := FilesMissing))
    ensures out.Sent? ==> out.form == st.(loading := true, error := "", success := "")
    ensures out.Sent? ==> out.request == [TextPart("vorname", Trim(st.vorname)),
                                          TextPart("nachname", Trim(st.nachname)),
                                          TextPart("rolleName", rolleName)] + FileParts(st.files)
  {
    if Trim(st.vorname) == "" || Trim(st.nachname) == "" then Blocked(st.(error := NamesMissing))
    else if rolleName == "" then Blocked(st.(error := RoleMissing))
    else if st.files == [] then Blocked(st.(error := FilesMissing))
    else
      Sent(st.(loading := true, error := "", success := ""),
           [TextPart("vorname", Trim(st.vorname)), TextPart("nachname", Trim(st.nachname)),
            TextPart("rolleName", rolleName)] + FileParts(st.files))
  }

  /** Names of blanks only count as missing. */
  lemma BlankNamesBlocked(st: Form, rolleName: string)
    requires forall i :: 0 <= i < |st.vorname| ==> IsSpace(st.vorname[i])
    ensures StartUpload(st, rolleName) == Blocked(st.(error := NamesMissing))
  {
    TrimEmptyIff(st.vorname);
  }

  /** Through the button, which is disabled without files, the "no file"
      message can never appear. */
  lemma EnabledButtonNeverMissesFiles(st: Form, rolleName: string)
    requires !Disabled(st)
    ensures StartUpload(st, rolleName).form.error != FilesMissing
  {
  }

  /** The server's answer, as the form sees it: the request failed outright,
      or a response arrived whose body is JSON (`body` present) or not. */
  datatype Reply =
    | NetworkError(message: string)
    | Response(ok: bool, body: Option<ReplyBody>)

  /** The fields the form reads from the JSON body. */
  datatype ReplyBody = ReplyBody(error: Option<string>, message: Option<string>, fehler: seq<string>)

  const InvalidReply := "Ungültige Server-Antwort. Bitte später erneut versuchen."
  const UploadFailed := "Fehler beim Hochladen."
  const SomeFilesFailed := "Einige Dateien konnten nicht verarbeitet werden:\n"

  /** `array.join('\n')` */
  function JoinLines(parts: seq<string>): (s: string)
    ensures |parts| == 1 ==> s == parts[0]
    ensures parts != [] ==> parts[0] <= s
    decreases |parts|
  {
    if parts == [] then ""
    else if |parts| == 1 then parts[0]
    else parts[0] + "\n" + JoinLines(parts[1..])
  }

  /** Every part of a join without line breaks is recovered by splitting at them. */
  function SplitLines(s: string): (parts: seq<string>)
    ensures |parts| >= 1
    decreases |s|
  {
    if s == [] then [""]
    else if s[0] == '\n' then [""] + SplitLines(s[1..])
    else
      var rest := SplitLines(s[1..]);
      [[s[0]] + rest[0]] + rest[1..]
  }

  /** A line without breaks followed by a break and more text splits there. */
  lemma {:induction false} SplitAtBreak(a: string, b: string)
    requires '\n' !in a
    ensures SplitLines(a + "\n" + b) == [a] + SplitLines(b)
    decreases |a|
  {
    if a == [] {
      assert a + "\n" + b == "\n" + b;
      assert ("\n" + b)[1..] == b;
    } else {
      assert (a + "\n" + b)[0] == a[0];
      assert (a + "\n" + b)[1..] == a[1..] + "\n" + b;
      SplitAtBreak(a[1..], b);
      assert [a[0]] + a[1..] == a;
    }
  }

  lemma {:induction false} SplitPlain(a: string)
    requires '\n' !in a
    ensures SplitLines(a) == [a]
    decreases |a|
  {
    if a != [] {
      SplitPlain(a[1..]);
      assert [a[0]] + a[1..] == a;
    }
  }

  /** The failure list shown after a partly successful upload can be read
      back line by line, provided no message contains a line break. */
  lemma {:induction false} JoinSplit(parts: seq<string>)
    requires parts != []
    requires forall i :: 0 <= i < |parts| ==> '\n' !in parts[i]
    ensures SplitLines(JoinLines(parts)) == parts
    decreases |parts|
  {
    if |parts| == 1 {
      SplitPlain(parts[0]);
    } else {
      JoinSplit(parts[1..]);
      SplitAtBreak(parts[0], JoinLines(parts[1..]));
      assert [parts[0]] + parts[1..] == parts;
    }
  }

  /** The second half of `handleUpload`. An unreadable body beats the status
      code; a refused upload shows the server's error or a default; an
      accepted one shows its message, lists failed files if any, and empties
      the form. `loading` ends in every case. */
  function FinishUpload(st: Form, reply: Reply): (st': Form)
    ensures !st'.loading
    ensures reply.NetworkError? ==> st' == st.(loading := false, error := reply.message)
    ensures reply.Response? && reply.body.None? ==> st' == st.(loading := false, error := InvalidReply)
    ensures reply.Response? && reply.body.Some? && !reply.ok ==>
              st' == st.(loading := false,
                         error := if TruthyText(reply.body.value.error) then reply.body.value.error.value
                                  else UploadFailed)
    ensures reply.Response? && reply.body.Some? && reply.ok ==>
              st'.files == [] && st'.vorname == "" && st'.nachname == ""
              && st'.success == OrEmpty(reply.body.value.message)
              && (reply.body.value.fehler == [] ==> st'.error == st.error)
              && (reply.body.value.fehler != [] ==> st'.error == SomeFilesFailed + JoinLines(reply.body.value.fehler))
  {
    match reply
    case NetworkError(m) => st.(loading := false, error := m)
    case Response(ok, body) =>
      match body
      case None => st.(loading := false, error := InvalidReply)
      case Some(b) =>
        if !ok then
          st.(loading := false, error := if TruthyText(b.error) then b.error.value else UploadFailed)
        else
          var error := if b.fehler != [] then SomeFilesFailed + JoinLines(b.fehler) else st.error;
          Form([], "", "", false, OrEmpty(b.message), error)
  }

  /** A send followed by any failed reply keeps the chosen files and names,
      so the user can retry. */
  lemma FailureKeepsSelection(st: Form, rolleName: string, reply: Reply)
    requires StartUpload(st, rolleName).Sent?
    requires !(reply.Response? && reply.ok && reply.body.Some?)
    ensures var st' := FinishUpload(StartUpload(st, rolleName).form, reply);
            st'.files == st.files && st'.vorname == st.vorname && st'.nachname == st.nachname
            && (reply.Response? ==> st'.error != "") && !Disabled(st')
  {
  }

  /** A clean success leaves the form empty, with no error, and the button
      disabled until files are chosen again. */
  lemma CleanSuccess(st: Form, rolleName: string, message: string)
    requires StartUpload(st, rolleName).Sent?
    ensures var st' := FinishUpload(StartUpload(st, rolleName).form,
                                    Response(true, Some(ReplyBody(None, Some(message), []))));
            st'.error == "" && st'.success == message && Disabled(st')
  {
  }
}
