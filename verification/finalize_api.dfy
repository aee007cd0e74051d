/** The route that records files the browser has already put into storage:
    one queue row per file, all tagged with the batch they came in. The
    request body is a loosely-typed JSON value; the database insert is the
    parameter `insertFails`, true when the database reports an error. */
module FinalizeApi {
  import opened Base
  import opened JsonValue
  import opened Http

  /** One `upload_queue` row. Values the body leaves out are `Null`. */
  datatype QueueRow = QueueRow(
    kundeId: Json,
    rolleId: Json,
    storagePath: Json,
    fileUrl: Json,
    originalName: Json,
    status: string,
    batchId: Json)

  const Required := "kundeId, rolleId, batchId und files sind Pflicht."
  const InsertFailed := "Queue-Eintrag fehlgeschlagen."

  /** The body carries every field the route insists on. */
  predicate Complete(body: Json) {
    && Truthy(Get(body, "kundeId")) && Truthy(Get(body, "rolleId")) && Truthy(Get(body, "batchId"))
    && Get(body, "files").Arr? && Get(body, "files").items != []
  }

  /** The row for one entry of `files`; `null` entries have none (reading a
      property of `null` throws). */
  function RowFor(body: Json, f: Json): (r: Option<QueueRow>)
    ensures r.None? <==> f == Null
    ensures r.Some? ==> r.value.status == "pending" && r.value.batchId == Get(body, "batchId")
                        && r.value.kundeId == Get(body, "kundeId") && r.value.rolleId == Get(body, "rolleId")
                        && r.value.storagePath == Get(f, "path")
                        && r.value.originalName == Get(f, "originalName")
                        && (Truthy(Get(f, "publicUrl")) ==> r.value.fileUrl == Get(f, "publicUrl"))
                        && (!Truthy(Get(f, "publicUrl")) ==> r.value.fileUrl == Null)
  {
    if f == Null then None
    else
      var url := Get(f, "publicUrl");
      Some(QueueRow(Get(body, "kundeId"), Get(body, "rolleId"), Get(f, "path"),
                    if Truthy(url) then url else Null, Get(f, "originalName"), "pending",
                    Get(body, "batchId")))
  }

  /** `files.map(...)`: the rows of all entries, or `None` when one is `null`. */
  function Rows(body: Json, files: seq<Json>): (rows: Option<seq<QueueRow>>)
    decreases |files|
  {
    if files == [] then Some([])
    else
      match (Rows(body, files[..|files| - 1]), RowFor(body, files[|files| - 1]))
      case (Some(init), Some(r)) => Some(init + [r])
      case _ => None
  }

  lemma {:induction false} RowsSomeIff(body: Json, files: seq<Json>)
    ensures Rows(body, files).Some? <==> forall i :: 0 <= i < |files| ==> files[i] != Null
    decreases |files|
  {
    if files != [] {
      var init := files[..|files| - 1];
      RowsSomeIff(body, init);
      assert forall i :: 0 <= i < |init| ==> init[i] == files[i];
    }
  }

  lemma {:induction false} RowsAt(body: Json, files: seq<Json>)
    requires Rows(body, files).Some?
    ensures |Rows(body, files).value| == |files|
    ensures forall i :: 0 <= i < |files| ==> Some(Rows(body, files).value[i]) == RowFor(body, files[i])
    decreases |files|
  {
    if files != [] {
      var init := files[..|files| - 1];
      var last := RowFor(body, files[|files| - 1]);
      assert Rows(body, init).Some? && last.Some?;
      RowsAt(body, init);
      var rows := Rows(body, init).value + [last.value];
      assert Rows(body, files).value == rows;
      forall i | 0 <= i < |files| ensures Some(rows[i]) == RowFor(body, files[i]) {
        if i < |init| {
          assert rows[i] == Rows(body, init).value[i] && init[i] == files[i];
        }
      }
    }
  }

  /** The rows exist exactly when no entry is `null`, and are then one per entry, in order. */
  lemma RowsShape(body: Json, files: seq<Json>)
    ensures Rows(body, files).Some? <==> forall i :: 0 <= i < |files| ==> files[i] != Null
    ensures Rows(body, files).Some? ==>
              |Rows(body, files).value| == |files|
              && forall i :: 0 <= i < |files| ==> Some(Rows(body, files).value[i]) == RowFor(body, files[i])
  {
    RowsSomeIff(body, files);
    if Rows(body, files).Some? {
      RowsAt(body, files);
    }
  }

  datatype Outcome = Outcome(response: Response, inserts: seq<seq<QueueRow>>)

  /** The route handler: `verb` is the HTTP method, `body` the parsed body
      (`Null` when absent). */
  function Handle(verb: string, body: Json, insertFails: seq<QueueRow> -> bool): (out: Outcome)
    ensures verb != "POST" ==> out == Outcome(Fail(405, "Only POST"), [])
    ensures verb == "POST" && !Complete(body) ==> out == Outcome(Fail(400, Required), [])
    ensures out.response.status == 200 ==>
              out.response.body == FinalizedBody(|Get(body, "files").items|) && |out.inserts| == 1
    ensures |out.inserts| <= 1
  {
    if verb != "POST" then Outcome(Fail(405, "Only POST"), [])
    else if !Complete(body) then Outcome(Fail(400, Required), [])
    else
      var files := Get(body, "files").items;
      RowsShape(body, files);
      match Rows(body, files)
      case None => Outcome(Response(500, NoBody), [])
      case Some(rows) =>
        if insertFails(rows) then Outcome(Fail(500, InsertFailed), [rows])
        else Outcome(Response(200, FinalizedBody(|rows|)), [rows])
  }

  /** A complete POST inserts one row per file, in order, each tagged with the
      body's customer, role and batch, in a single insert; the answer reports
      their number unless the database refuses. A `null` entry aborts the
      request before anything is written. */
  lemma CompletePost(body: Json, insertFails: seq<QueueRow> -> bool)
    requires Complete(body)
    ensures var files := Get(body, "files").items;
            var out := Handle("POST", body, insertFails);
            && ((exists i :: 0 <= i < |files| && files[i] == Null) <==> out == Outcome(Response(500, NoBody), []))
            && ((forall i :: 0 <= i < |files| ==> files[i] != Null) ==>
                  |out.inserts| == 1 && |out.inserts[0]| == |files|
                  && (forall i :: 0 <= i < |files| ==>
                        && out.inserts[0][i].kundeId == Get(body, "kundeId")
                        && out.inserts[0][i].rolleId == Get(body, "rolleId")
                        && out.inserts[0][i].batchId == Get(body, "batchId")
                        && out.inserts[0][i].storagePath == Get(files[i], "path")
                        && out.inserts[0][i].originalName == Get(files[i], "originalName")
                        && out.inserts[0][i].status == "pending")
                  && (out.response.status == 200 <==> !insertFails(out.inserts[0]))
                  && (insertFails(out.inserts[0]) ==> out.response == Fail(500, InsertFailed)))
  {
    var files := Get(body, "files").items;
    RowsShape(body, files);
    if forall i :: 0 <= i < |files| ==> files[i] != Null {
      var rows := Rows(body, files).value;
      forall i | 0 <= i < |files|
        ensures rows[i].kundeId == Get(body, "kundeId") && rows[i].rolleId == Get(body, "rolleId")
                && rows[i].originalName == Get(files[i], "originalName")
      {
        assert Some(rows[i]) == RowFor(body, files[i]);
      }
    }
  }

  /** A body that is not an object, such as a missing one, is refused as incomplete. */
  lemma NonObjectBody(body: Json)
    requires !body.Obj?
    ensures Handle("POST", body, (rows: seq<QueueRow>) => false) == Outcome(Fail(400, Required), [])
  {
  }
}
