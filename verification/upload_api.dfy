/** The upload route: it reads a multipart form (first name, last name,
    role name, files), looks the role up, creates the customer, stores every
    file under the customer's folder with a fresh name, and queues one row
    per stored file for processing. The database, the storage service, the
    temporary files and the UUID generator are the fields of `Backend`; the
    calls the route makes on them are returned in an `Outcome`. */
module UploadApi {
  import opened Base
  import opened Http
  import DownloadUrl

  /** A file part as the multipart parser hands it over. */
  datatype IncomingFile = IncomingFile(originalFilename: string, path: string, contentType: Option<string>)

  /** The parser's result: an error, or the fields and files by name, each
      a list of values. */
  datatype ParsedForm =
    | ParseFailed(message: string)
    | Parsed(fields: map<string, seq<string>>, files: map<string, seq<IncomingFile>>)

  /** A database answer: an error, or the data asked for. */
  datatype Db<T> = DbError | DbOk(data: T)

  datatype Backend = Backend(
    lookupRole: string -> Db<Option<string>>,    // `rollen` by name: the id, if there is such a role
    createCustomer: (string, string) -> Db<string>, // `kunden` insert (name, role id): the new id
    readFile: string -> Option<string>,          // reading a temporary file: the error's message, if any
    store: (string, string) -> Option<string>,   // storage upload (key, content type): the error's message, if any
    publicUrl: string -> string,                 // the public URL of a storage key
    queueFails: seq<QueueRow> -> bool,           // `upload_queue` insert: true when it reports an error
    uuid: nat -> string)                         // the UUID drawn for the i-th file

  /** One `upload_queue` row. */
  datatype QueueRow = QueueRow(kundeId: string, rolleId: string, fileUrl: string, originalName: string, status: string)

  /** A storage upload: the key and the content type sent. */
  datatype Upload = Upload(key: string, contentType: string)

  /** What one request did, field by field in the order the route does it:
      the role name it looked up, the customer it inserted (name and role
      id), its storage uploads, and the rows it inserted into the queue. */
  datatype Outcome = Outcome(
    response: Response,
    roleQuery: Option<string>,
    customer: Option<(string, string)>,
    uploads: seq<Upload>,
    queued: Option<seq<QueueRow>>)

  /** An answer given before any call to the backend. */
  function Answer(resp: Response): Outcome {
    Outcome(resp, None, None, [], None)
  }

  const Bucket := "upload"
  const DefaultContentType := "application/octet-stream"
  const FieldsMissing := "Vorname, Nachname und Rolle sind Pflichtfelder."
  const NoFiles := "Es wurden keine Dateien zum Hochladen bereitgestellt."
  const RoleLookupFailed := "Datenbankfehler bei der Rollensuche."
  const CustomerFailed := "Der Kunde konnte nicht in der Datenbank angelegt werden."
  const QueueFailed := "Die Dateien konnten nicht in die Verarbeitungswarteschlange eingetragen werden."
  const InternalError := "Ein interner Serverfehler ist aufgetreten."

  function RoleInvalid(rolleName: string): string {
    "Rolle '" + rolleName + "' ist ungültig. Bitte überprüfen Sie die Datenbankeinträge."
  }

  function Accepted(count: nat): string {
    Decimal(count) + " Datei(en) erfolgreich hochgeladen und zur Verarbeitung vorgemerkt."
  }

  /** The answer to an exception reaching the outer `catch`: its message, or a default. */
  function Internal(message: string): (r: Response)
    ensures r.status == 500 && r.body.ErrorBody? && r.body.error != ""
  {
    Fail(500, if message == "" then InternalError else message)
  }

  /** A form field's first value, if it has one. */
  function FirstValue(fields: map<string, seq<string>>, name: string): (v: Option<string>)
    ensures v.Some? <==> name in fields && fields[name] != []
  {
    if name in fields && fields[name] != [] then Some(fields[name][0]) else None
  }

  /** The uploaded files under the field name `file`. */
  function FileList(files: map<string, seq<IncomingFile>>): seq<IncomingFile> {
    if "file" in files then files["file"] else []
  }

  /** The last position of `c` in `s`. */
  function LastIndexOf(s: string, c: char): (k: Option<nat>)
    ensures k.Some? ==> k.value < |s| && s[k.value] == c && forall j :: k.value < j < |s| ==> s[j] != c
    ensures k.None? ==> c !in s
    decreases |s|
  {
    if s == [] then None
    else if s[|s| - 1] == c then Some(|s| - 1)
    else LastIndexOf(s[..|s| - 1], c)
  }

  /** `name.split('.').pop()`: what follows the last dot, or the whole name. */
  function Ext(name: string): (e: string)
    ensures '.' !in e
    ensures |e| <= |name| && name[|name| - |e|..] == e
    ensures |e| == |name| || name[|name| - |e| - 1] == '.'
  {
    match LastIndexOf(name, '.')
    case None => name
    case Some(k) => name[k + 1..]
  }

  /** The extension is the last dot-separated segment: splitting a name at a
      dot whose right side has none gives that right side. */
  lemma ExtOfDotted(stem: string, e: string)
    requires '.' !in e
    ensures Ext(stem + "." + e) == e
  {
    var name := stem + "." + e;
    assert name[|stem|] == '.';
    assert forall j :: |stem| < j < |name| ==> name[j] == e[j - |stem| - 1];
    assert LastIndexOf(name, '.') == Some(|stem|);
    assert name[|stem| + 1..] == e;
  }

  /** The storage key of a file: customer folder, a fresh UUID, the original extension. */
  function StorageKey(kundeId: string, uuid: string, originalFilename: string): string {
    kundeId + "/" + uuid + "." + Ext(originalFilename)
  }

  /** Dot-free heads followed by a dot: different heads give different strings. */
  lemma DotSeparated(u1: string, r1: string, u2: string, r2: string)
    requires '.' !in u1 && '.' !in u2 && u1 != u2
    ensures u1 + "." + r1 != u2 + "." + r2
  {
    var t1, t2 := u1 + "." + r1, u2 + "." + r2;
    if |u1| < |u2| {
      assert u2[|u1|] in u2;
      assert t1[|u1|] != t2[|u1|];
    } else if |u2| < |u1| {
      assert u1[|u2|] in u1;
      assert t1[|u2|] != t2[|u2|];
    } else {
      var j :| 0 <= j < |u1| && u1[j] != u2[j];
      assert t1[j] != t2[j];
    }
  }

  /** Distinct UUIDs (which contain no dot) give distinct keys for one customer. */
  lemma KeysDistinct(kundeId: string, u1: string, u2: string, n1: string, n2: string)
    requires '.' !in u1 && '.' !in u2 && u1 != u2
    ensures StorageKey(kundeId, u1, n1) != StorageKey(kundeId, u2, n2)
  {
    var p := kundeId + "/";
    var t1, t2 := u1 + "." + Ext(n1), u2 + "." + Ext(n2);
    DotSeparated(u1, Ext(n1), u2, Ext(n2));
    assert StorageKey(kundeId, u1, n1) == p + t1;
    assert StorageKey(kundeId, u2, n2) == p + t2;
    assert (p + t1)[|p|..] == t1 && (p + t2)[|p|..] == t2;
  }

  /** The storage key, under the customer's folder and with the extension kept. */
  lemma KeyShape(kundeId: string, uuid: string, originalFilename: string)
    ensures var key := StorageKey(kundeId, uuid, originalFilename);
            && (kundeId + "/") <= key
            && Ext(originalFilename) == key[|key| - |Ext(originalFilename)|..]
  {
  }

  /** No character of `s` ends a line. */
  predicate SingleLine(s: string) {
    forall i :: 0 <= i < |s| ==> !IsLineTerminator(s[i])
  }

  lemma SingleLineConcat(a: string, b: string)
    requires SingleLine(a) && SingleLine(b)
    ensures SingleLine(a + b)
  {
    forall i | 0 <= i < |a + b| ensures !IsLineTerminator((a + b)[i]) {
      if i >= |a| {
        assert (a + b)[i] == b[i - |a|];
      }
    }
  }

  lemma SingleLineSuffix(s: string, k: nat)
    requires SingleLine(s) && k <= |s|
    ensures SingleLine(s[k..])
  {
    forall i | 0 <= i < |s[k..]| ensures !IsLineTerminator(s[k..][i]) {
      assert s[k..][i] == s[k + i];
    }
  }

  /** The extension keeps the name's last character, and the name's lines. */
  lemma ExtText(name: string)
    requires SingleLine(name)
    ensures SingleLine(Ext(name))
    ensures Ext(name) != [] ==> Ext(name)[|Ext(name)| - 1] == name[|name| - 1]
  {
    SingleLineSuffix(name, |name| - |Ext(name)|);
  }

  /** `id/uuid.e` is one line of text and ends in `e`'s last character, or
      in the dot when `e` is empty. */
  lemma KeyTextOf(kundeId: string, uuid: string, e: string)
    requires SingleLine(kundeId) && SingleLine(uuid) && SingleLine(e)
    requires e == [] || !IsSpace(e[|e| - 1])
    ensures var key := kundeId + "/" + uuid + "." + e;
            key != [] && SingleLine(key) && !IsSpace(key[|key| - 1])
  {
    var pre := kundeId + "/" + uuid + ".";
    SingleLineConcat(kundeId, "/");
    SingleLineConcat(kundeId + "/", uuid);
    SingleLineConcat(kundeId + "/" + uuid, ".");
    SingleLineConcat(pre, e);
    if e == [] {
      assert (pre + e)[|pre + e| - 1] == pre[|pre| - 1] == '.';
    } else {
      assert (pre + e)[|pre + e| - 1] == e[|e| - 1];
    }
  }

  /** A storage key is one line of text, and ends in the original name's
      last character or in the dot before an empty extension. */
  lemma KeyText(kundeId: string, uuid: string, originalFilename: string)
    requires SingleLine(kundeId) && SingleLine(uuid) && SingleLine(originalFilename)
    requires originalFilename == [] || !IsSpace(originalFilename[|originalFilename| - 1])
    ensures var key := StorageKey(kundeId, uuid, originalFilename);
            key != [] && SingleLine(key) && !IsSpace(key[|key| - 1])
  {
    ExtText(originalFilename);
    KeyTextOf(kundeId, uuid, Ext(originalFilename));
  }

  /** A stored file's path in the upload bucket is what the download route
      signs again: bucket "upload", path the storage key. */
  lemma KeyDownloadable(env: Option<string>, kundeId: string, uuid: string, originalFilename: string)
    requires SingleLine(kundeId) && SingleLine(uuid) && SingleLine(originalFilename)
    requires originalFilename == [] || !IsSpace(originalFilename[|originalFilename| - 1])
    ensures var key := StorageKey(kundeId, uuid, originalFilename);
            DownloadUrl.Target(Bucket + "/" + key, env) == Some((Bucket, key))
  {
    KeyText(kundeId, uuid, originalFilename);
    var key := StorageKey(kundeId, uuid, originalFilename);
    assert DownloadUrl.IsObjectPath(key);
    DownloadUrl.UploadBucketPath(env, key);
  }

  /** What processing one file gives: a queue row, or the message it failed with. */
  datatype FileResult = Stored(row: QueueRow) | FileFailed(message: string)

  /** The content type sent to storage. */
  function ContentType(f: IncomingFile): string {
    if TruthyText(f.contentType) then f.contentType.value else DefaultContentType
  }

  /** One file of the batch: read it, upload it under a fresh key, and
      describe it for the queue. A read error fails the file before any
      upload; a storage error after it. */
  function ProcessFile(b: Backend, kundeId: string, rolleId: string, i: nat, f: IncomingFile): (r: FileResult)
    ensures r.Stored? ==> r.row == QueueRow(kundeId, rolleId,
                                            b.publicUrl(StorageKey(kundeId, b.uuid(i), f.originalFilename)),
                                            f.originalFilename, "pending")
  {
    match b.readFile(f.path)
    case Some(m) => FileFailed(m)
    case None =>
      var key := StorageKey(kundeId, b.uuid(i), f.originalFilename);
      match b.store(key, ContentType(f))
      case Some(m) => FileFailed("Fehler beim Upload von " + f.originalFilename + ": " + m)
      case None => Stored(QueueRow(kundeId, rolleId, b.publicUrl(key), f.originalFilename, "pending"))
  }

  /** The storage call one file makes, if its temporary file could be read. */
  function UploadsOf(b: Backend, kundeId: string, i: nat, f: IncomingFile): seq<Upload> {
    if b.readFile(f.path).Some? then []
    else [Upload(StorageKey(kundeId, b.uuid(i), f.originalFilename), ContentType(f))]
  }

  /** The three text fields are present and non-empty. */
  predicate Valid(form: ParsedForm)
    requires form.Parsed?
  {
    && TruthyText(FirstValue(form.fields, "vorname"))
    && TruthyText(FirstValue(form.fields, "nachname"))
    && TruthyText(FirstValue(form.fields, "rolleName"))
  }

  /** The storage calls of the first `n` files. */
  function AllUploads(b: Backend, kundeId: string, files: seq<IncomingFile>, n: nat): seq<Upload>
    requires n <= |files|
    decreases n
  {
    if n == 0 then [] else AllUploads(b, kundeId, files, n - 1) + UploadsOf(b, kundeId, n - 1, files[n - 1])
  }

  /** The outcome of every file of the batch, in list order. */
  function Results(b: Backend, kundeId: string, rolleId: string, files: seq<IncomingFile>): seq<FileResult> {
    seq(|files|, i requires 0 <= i < |files| => ProcessFile(b, kundeId, rolleId, i, files[i]))
  }

  /** `i` is the first failed outcome, in list order. */
  predicate FirstFailed(rs: seq<FileResult>, i: int) {
    0 <= i < |rs| && rs[i].FileFailed? && forall j :: 0 <= j < i ==> rs[j].Stored?
  }

  /** `Promise.all` over the outcomes: the rows of the stored files in order,
      and the message of the first failure in list order, if any. */
  function Collect(rs: seq<FileResult>): (seq<QueueRow>, Option<string>)
    decreases |rs|
  {
    if rs == [] then ([], None)
    else
      var (rows, failure) := Collect(rs[..|rs| - 1]);
      match rs[|rs| - 1]
      case Stored(row) => (rows + [row], failure)
      case FileFailed(m) => (rows, failure.OrElse(Some(m)))
  }

  /** The batch fails exactly when some file fails. */
  lemma {:induction false} CollectFailsIff(rs: seq<FileResult>)
    ensures Collect(rs).1.None? <==> forall i :: 0 <= i < |rs| ==> rs[i].Stored?
    decreases |rs|
  {
    if rs != [] {
      var init := rs[..|rs| - 1];
      CollectFailsIff(init);
      assert forall i :: 0 <= i < |init| ==> init[i] == rs[i];
    }
  }

  /** A batch without failure yields every file's row, in order. */
  lemma {:induction false} CollectRows(rs: seq<FileResult>)
    requires Collect(rs).1.None?
    ensures |Collect(rs).0| == |rs|
    ensures forall i :: 0 <= i < |rs| ==> Stored(Collect(rs).0[i]) == rs[i]
    decreases |rs|
  {
    if rs != [] {
      var init := rs[..|rs| - 1];
      var last := rs[|rs| - 1];
      assert Collect(init).1.None? && last.Stored?;
      CollectRows(init);
      var rows := Collect(init).0 + [last.row];
      assert Collect(rs).0 == rows;
      forall i | 0 <= i < |rs| ensures Stored(rows[i]) == rs[i] {
        if i < |init| {
          assert rows[i] == Collect(init).0[i] && init[i] == rs[i];
        }
      }
    }
  }

  /** A failed batch reports the first failed file's message. */
  lemma {:induction false} CollectFirstFailure(rs: seq<FileResult>)
    requires Collect(rs).1.Some?
    ensures exists i :: FirstFailed(rs, i) && Collect(rs).1.value == rs[i].message
    decreases |rs|
  {
    var init := rs[..|rs| - 1];
    assert forall i :: 0 <= i < |init| ==> init[i] == rs[i];
    if Collect(init).1.Some? {
      CollectFirstFailure(init);
      var i :| FirstFailed(init, i) && Collect(init).1.value == init[i].message;
      assert FirstFailed(rs, i);
    } else {
      CollectFailsIff(init);
      assert FirstFailed(rs, |rs| - 1);
    }
  }

  /** Whatever order the files finish in, a failed batch reports the
      message of one of its failed files. */
  lemma FailureOfSomeFile(b: Backend, kundeId: string, rolleId: string, files: seq<IncomingFile>)
    requires Collect(Results(b, kundeId, rolleId, files)).1.Some?
    ensures exists i :: 0 <= i < |files| && ProcessFile(b, kundeId, rolleId, i, files[i]).FileFailed?
                        && Collect(Results(b, kundeId, rolleId, files)).1.value
                           == ProcessFile(b, kundeId, rolleId, i, files[i]).message
  {
    var rs := Results(b, kundeId, rolleId, files);
    CollectFirstFailure(rs);
    var i :| FirstFailed(rs, i) && Collect(rs).1.value == rs[i].message;
    assert rs[i] == ProcessFile(b, kundeId, rolleId, i, files[i]);
  }

  /** What the queue receives after a batch without failure: per file, in
      order, the customer, the role, the public URL of the file's storage key,
      its original name and the status "pending". */
  lemma QueuedRows(b: Backend, kundeId: string, rolleId: string, files: seq<IncomingFile>)
    requires Collect(Results(b, kundeId, rolleId, files)).1.None?
    ensures var rows := Collect(Results(b, kundeId, rolleId, files)).0;
            && |rows| == |files|
            && forall i :: 0 <= i < |files| ==>
                 rows[i] == QueueRow(kundeId, rolleId, b.publicUrl(StorageKey(kundeId, b.uuid(i), files[i].originalFilename)),
                                     files[i].originalFilename, "pending")
  {
    var rs := Results(b, kundeId, rolleId, files);
    var rows := Collect(rs).0;
    CollectRows(rs);
    forall i | 0 <= i < |files|
      ensures rows[i] == QueueRow(kundeId, rolleId, b.publicUrl(StorageKey(kundeId, b.uuid(i), files[i].originalFilename)),
                                  files[i].originalFilename, "pending")
    {
      assert Stored(rows[i]) == rs[i] == ProcessFile(b, kundeId, rolleId, i, files[i]);
    }
  }

  /** One more outcome extends the collected rows or the failure. */
  lemma CollectStep(rs: seq<FileResult>, i: nat)
    requires i < |rs|
    ensures var (rows, failure) := Collect(rs[..i]);
            Collect(rs[..i + 1]) == match rs[i]
                                     case Stored(row) => (rows + [row], failure)
                                     case FileFailed(m) => (rows, failure.OrElse(Some(m)))
  {
    assert rs[..i + 1][..i] == rs[..i];
  }

  /** The batch loop: every file is processed (a failure does not cancel the
      other uploads), so the storage calls are those of all files. */
  method ProcessAll(b: Backend, kundeId: string, rolleId: string, files: seq<IncomingFile>)
    returns (rows: seq<QueueRow>, failure: Option<string>, uploads: seq<Upload>)
    ensures uploads == AllUploads(b, kundeId, files, |files|)
    ensures (rows, failure) == Collect(Results(b, kundeId, rolleId, files))
  {
    ghost var rs := Results(b, kundeId, rolleId, files);
    rows, failure, uploads := [], None, [];
    var i := 0;
    while i < |files|
      invariant 0 <= i <= |files|
      invariant uploads == AllUploads(b, kundeId, files, i)
      invariant (rows, failure) == Collect(rs[..i])
    {
      var r := ProcessFile(b, kundeId, rolleId, i, files[i]);
      assert r == rs[i];
      CollectStep(rs, i);
      uploads := uploads + UploadsOf(b, kundeId, i, files[i]);
      if r.Stored? {
        rows := rows + [r.row];
      } else {
        failure := failure.OrElse(Some(r.message));
      }
      i := i + 1;
    }
    assert rs[..|files|] == rs;
  }

  /** The files and the queue, once the customer exists: storage calls for
      every file, then the queue insert if no file failed. A failed file's
      message is the answer; so is a failed queue insert. */
  method StoreAndQueue(b: Backend, kundeId: string, rolleId: string, files: seq<IncomingFile>)
    returns (resp: Response, uploads: seq<Upload>, queued: Option<seq<QueueRow>>)
    ensures uploads == AllUploads(b, kundeId, files, |files|)
    ensures queued.Some? <==> Collect(Results(b, kundeId, rolleId, files)).1.None?
    ensures queued.Some? ==> queued.value == Collect(Results(b, kundeId, rolleId, files)).0
                             && |queued.value| == |files|
    ensures queued.None? ==> resp == Internal(Collect(Results(b, kundeId, rolleId, files)).1.value)
    ensures resp.status == 200 <==> queued.Some? && !b.queueFails(queued.value)
    ensures resp.status == 200 ==> resp.body == UploadedBody(Accepted(|files|))
    ensures resp.status == 200 || resp.status == 500
  {
    var rows, failure;
    rows, failure, uploads := ProcessAll(b, kundeId, rolleId, files);
    if failure.Some? {
      return Internal(failure.value), uploads, None;
    }
    CollectRows(Results(b, kundeId, rolleId, files));
    queued := Some(rows);
    if b.queueFails(rows) {
      return Fail(500, QueueFailed), uploads, queued;
    }
    return Response(200, UploadedBody(Accepted(|files|))), uploads, queued;
  }

  /** What the route promises once the form is valid, branch by branch: a
      failed role lookup, an unknown role and a failed customer insert each
      end the request before any upload; once the customer exists, every file
      is stored, the queue receives the rows only if no file failed, and the
      answer is 200 only if that insert succeeded. */
  predicate AfterValidation(b: Backend, vorname: string, nachname: string, rolleName: string,
                            files: seq<IncomingFile>, out: Outcome)
  {
    var role := b.lookupRole(rolleName);
    && (role.DbError? ==> out == Outcome(Fail(500, RoleLookupFailed), Some(rolleName), None, [], None))
    && (role == DbOk(None) ==> out == Outcome(Fail(400, RoleInvalid(rolleName)), Some(rolleName), None, [], None))
    && (role.DbOk? && role.data.Some? ==>
          var name := vorname + " " + nachname;
          var rolleId := role.data.value;
          var customer := b.createCustomer(name, rolleId);
          && (customer.DbError? ==>
                out == Outcome(Fail(500, CustomerFailed), Some(rolleName), Some((name, rolleId)), [], None))
          && (customer.DbOk? ==>
                var batch := Collect(Results(b, customer.data, rolleId, files));
                && out.roleQuery == Some(rolleName)
                && out.customer == Some((name, rolleId))
                && out.uploads == AllUploads(b, customer.data, files, |files|)
                && (out.queued.Some? <==> batch.1.None?)
                && (out.queued.Some? ==> out.queued.value == batch.0 && |out.queued.value| == |files|)
                && (out.queued.None? ==> out.response == Internal(batch.1.value))
                && (out.response.status == 200 <==> out.queued.Some? && !b.queueFails(out.queued.value))
                && (out.response.status == 200 ==> out.response.body == UploadedBody(Accepted(|files|)))))
  }

  /** Once the customer exists, a single file that cannot be read or stored
      fails the request with status 500, and the queue receives nothing. */
  lemma FileFailureFailsRequest(b: Backend, vorname: string, nachname: string, rolleName: string,
                                files: seq<IncomingFile>, out: Outcome, i: nat)
    requires AfterValidation(b, vorname, nachname, rolleName, files, out)
    requires b.lookupRole(rolleName).DbOk? && b.lookupRole(rolleName).data.Some?
    requires b.createCustomer(vorname + " " + nachname, b.lookupRole(rolleName).data.value).DbOk?
    requires i < |files|
    requires ProcessFile(b, b.createCustomer(vorname + " " + nachname, b.lookupRole(rolleName).data.value).data,
                         b.lookupRole(rolleName).data.value, i, files[i]).FileFailed?
    ensures out.queued.None? && out.response.status == 500
  {
    var rolleId := b.lookupRole(rolleName).data.value;
    var rs := Results(b, b.createCustomer(vorname + " " + nachname, rolleId).data, rolleId, files);
    CollectFailsIff(rs);
    assert !rs[i].Stored?;
  }

  /** Everything after validation: role lookup, customer, files, queue. */
  method Proceed(b: Backend, vorname: string, nachname: string, rolleName: string, files: seq<IncomingFile>)
    returns (out: Outcome)
    ensures out.roleQuery == Some(rolleName)
    ensures out.response.status == 400 <==> b.lookupRole(rolleName) == DbOk(None)
    ensures out.response.status == 400 ==>
              out == Outcome(Fail(400, RoleInvalid(rolleName)), Some(rolleName), None, [], None)
    ensures out.customer.Some? <==> b.lookupRole(rolleName).DbOk? && b.lookupRole(rolleName).data.Some?
    ensures out.customer.Some? ==>
              out.customer.value == (vorname + " " + nachname, b.lookupRole(rolleName).data.value)
    ensures out.uploads != [] || out.queued.Some? ==>
              out.customer.Some? && b.createCustomer(out.customer.value.0, out.customer.value.1).DbOk?
    ensures out.queued.Some? ==>
              out.queued.value == Collect(Results(b, b.createCustomer(out.customer.value.0, out.customer.value.1).data,
                                                  out.customer.value.1, files)).0
              && |out.queued.value| == |files|
    ensures out.response.status == 200 ==>
              out.response.body == UploadedBody(Accepted(|files|)) && out.queued.Some?
    ensures AfterValidation(b, vorname, nachname, rolleName, files, out)
  {
    var role := b.lookupRole(rolleName);
    if role.DbError? {
      return Outcome(Fail(500, RoleLookupFailed), Some(rolleName), None, [], None);
    }
    if role.data.None? {
      return Outcome(Fail(400, RoleInvalid(rolleName)), Some(rolleName), None, [], None);
    }
    var rolleId := role.data.value;
    var name := vorname + " " + nachname;
    var customer := b.createCustomer(name, rolleId);
    if customer.DbError? {
      return Outcome(Fail(500, CustomerFailed), Some(rolleName), Some((name, rolleId)), [], None);
    }
    var resp, uploads, queued := StoreAndQueue(b, customer.data, rolleId, files);
    out := Outcome(resp, Some(rolleName), Some((name, rolleId)), uploads, queued);
  }

  /** The route handler. `verb` is the HTTP method. */
  method Handle(verb: string, form: ParsedForm, b: Backend) returns (out: Outcome)
    ensures verb == "OPTIONS" ==> out == Answer(Response(200, NoBody))
    ensures verb != "OPTIONS" && verb != "POST" ==> out == Answer(Fail(405, "Method Not Allowed"))
    ensures verb == "POST" && form.ParseFailed? ==> out == Answer(Internal(form.message))
    ensures verb == "POST" && form.Parsed? && !Valid(form) ==> out == Answer(Fail(400, FieldsMissing))
    ensures verb == "POST" && form.Parsed? && Valid(form) && FileList(form.files) == [] ==>
              out == Answer(Fail(400, NoFiles))
    ensures out.roleQuery.Some? <==> verb == "POST" && form.Parsed? && Valid(form) && FileList(form.files) != []
    ensures out.roleQuery.Some? ==> out.roleQuery.value == FirstValue(form.fields, "rolleName").value
    ensures out.customer.None? ==> out.uploads == [] && out.queued.None?
    ensures out.response.status == 200 && verb == "POST" ==>
              form.Parsed? && out.response.body == UploadedBody(Accepted(|FileList(form.files)|))
              && out.queued.Some? && |out.queued.value| == |FileList(form.files)|
    ensures out.roleQuery.Some? ==>
              AfterValidation(b, FirstValue(form.fields, "vorname").value, FirstValue(form.fields, "nachname").value,
                              FirstValue(form.fields, "rolleName").value, FileList(form.files), out)
    ensures out.customer.Some? && b.createCustomer(out.customer.value.0, out.customer.value.1).DbOk?
            && Collect(Results(b, b.createCustomer(out.customer.value.0, out.customer.value.1).data,
                               out.customer.value.1, FileList(form.files))).1.Some? ==>
              out.queued.None? && out.response.status == 500
  {
    if verb == "OPTIONS" {
      return Answer(Response(200, NoBody));
    }
    if verb != "POST" {
      return Answer(Fail(405, "Method Not Allowed"));
    }
    if form.ParseFailed? {
      return Answer(Internal(form.message));
    }
    if !Valid(form) {
      return Answer(Fail(400, FieldsMissing));
    }
    var fileList := FileList(form.files);
    if |fileList| == 0 {
      return Answer(Fail(400, NoFiles));
    }
    out := Proceed(b, FirstValue(form.fields, "vorname").value, FirstValue(form.fields, "nachname").value,
                   FirstValue(form.fields, "rolleName").value, fileList);
  }
}
