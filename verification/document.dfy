/** The document state of a collection page (state/document_state.py): the upload of a batch of
    files with per-file status, progress and error maps, and the deletion of one document with
    its stored file. Storage, database, text extraction, chunking and embedding are oracles:
    each file's replies are given up front, and `lang.tr_str` is a translator parameter. */
module Document {
  import opened Wrappers
  import opened Strs
  import opened I18n
  import Auth

  const BucketName := "document-files"
  const BucketPrefix := "document-files/"

  /** The collection id a page URL names: the text after its last `/`. */
  function LastSegment(url: string): string {
    var parts := Split(url, '/');
    parts[|parts| - 1]
  }

  /** The error `_get_supabase_client` (state/base.py) raises when nobody is signed in. */
  const NotAuthenticated := "사용자가 인증되지 않았습니다."

  /** `_get_supabase_client`: fails unless the user is signed in; otherwise a new client takes the
      access token through `set_session`, whose failure propagates. */
  function ClientSetup(isAuthenticated: bool, setSession: Outcome): Outcome {
    if !isAuthenticated then Fail(NotAuthenticated) else setSession
  }

  lemma LastSegmentSpec(prefix: string, segment: string)
    requires '/' !in segment
    ensures LastSegment(prefix + "/" + segment) == segment
    ensures '/' !in LastSegment(prefix + "/" + segment)
  {
    var parts := Split(prefix, '/');
    JoinSplit(prefix, '/');
    var all := parts + [segment];
    forall k | 0 <= k < |all| ensures '/' !in all[k] {
      if k < |parts| { assert all[k] == parts[k]; }
    }
    JoinSnoc(parts, segment, "/");
    assert all[..|all| - 1] == parts;
    SplitJoin(all, '/');
  }

  /** A URL ending in `/` names no collection. */
  lemma LastSegmentOfTrailingSlash(prefix: string)
    ensures LastSegment(prefix + "/") == ""
  {
    LastSegmentSpec(prefix, "");
    assert prefix + "/" + "" == prefix + "/";
  }

  /** The object path inside the bucket: one leading `document-files/` is removed. */
  function StripBucketPrefix(storagePath: string): string {
    if StartsWith(storagePath, BucketPrefix) then storagePath[|BucketPrefix|..] else storagePath
  }

  lemma StripBucketPrefixSpec(path: string)
    ensures StripBucketPrefix(BucketPrefix + path) == path
    ensures !StartsWith(path, BucketPrefix) ==> StripBucketPrefix(path) == path
    ensures StripBucketPrefix(BucketPrefix + BucketPrefix + path) == BucketPrefix + path
  {
    assert (BucketPrefix + path)[..|BucketPrefix|] == BucketPrefix;
    assert (BucketPrefix + path)[|BucketPrefix|..] == path;
    var twice := BucketPrefix + BucketPrefix + path;
    assert twice == BucketPrefix + (BucketPrefix + path);
    assert twice[..|BucketPrefix|] == BucketPrefix;
    assert twice[|BucketPrefix|..] == BucketPrefix + path;
  }

  datatype UploadFile = UploadFile(name: string, content: seq<int>, contentType: string)

  /** A step after the document row is stored that can raise: text extraction, chunking,
      embedding, or saving the section records. */
  datatype LaterFailure = Extracting(error: string) | Chunking(error: string) | Embedding(error: string) | Saving(error: string)

  /** The replies one file meets: the same-name lookup (does a document exist?), the storage
      upload (its full path), the document insert (the new row's id, if a row comes back), and
      possibly a failure after that. */
  datatype Reply = Reply(
    existing: Result<bool>,
    stored: Result<string>,
    inserted: Result<Option<string>>,
    later: Option<LaterFailure>)

  type Service = UploadFile -> Reply

  /** What one file's processing leaves: the progress values written, in order; the final status
      text; the error text, if any; whether it counted as a successful upload; and the document id
      its sections were written under, when that step was reached. */
  datatype FileResult = FileResult(
    trace: seq<nat>,
    status: string,
    error: Option<string>,
    counted: bool,
    documentId: Option<string>)

  const SuccessTrace: seq<nat> := [10, 20, 30, 50, 60, 80, 100]
  /** The `UnboundLocalError` text (Python 3.11 and later) when `document_id` is read before any
      file of the batch assigned it. */
  const UnboundDocumentId := "cannot access local variable 'document_id' where it is not associated with a value"

  /** The document id in scope after a file: the new row's id when the insert returned one,
      otherwise the id left by an earlier file (the variable is never cleared). */
  function NextDocumentId(r: Reply, docId: Option<string>): Option<string> {
    if r.existing == Ok(false) && r.stored.Ok? && r.inserted.Ok? && r.inserted.value.Some? then r.inserted.value
    else docId
  }

  function Failed(trace: seq<nat>, error: string, counted: bool, tr: Translator): FileResult {
    FileResult(trace + [100], tr("status_failed", map[]), Some(tr("upload_error", map["error" := error])), counted, None)
  }

  /** The body of the per-file loop. */
  function FileRun(r: Reply, docId: Option<string>, tr: Translator): FileResult {
    match r.existing
    case Err(e) => Failed([], e, false, tr)
    case Ok(found) =>
      if found then
        FileResult([100], tr("status_failed", map[]), Some(tr("doc_exists_same_name", map[])), false, None)
      else if r.stored.Err? then Failed([10], r.stored.error, false, tr)
      else if r.inserted.Err? then Failed([10], r.inserted.error, false, tr)
      else
        var id := NextDocumentId(r, docId);
        match r.later
        case Some(Extracting(e)) => Failed([10, 20, 30], e, true, tr)
        case Some(Chunking(e)) => Failed([10, 20, 30, 50], e, true, tr)
        case Some(Embedding(e)) => Failed([10, 20, 30, 50, 60], e, true, tr)
        case _ =>
          if id.None? then Failed([10, 20, 30, 50, 60, 80], UnboundDocumentId, true, tr)
          else if r.later.Some? then Failed([10, 20, 30, 50, 60, 80], r.later.value.error, true, tr).(documentId := id)
          else FileResult(SuccessTrace, tr("status_done", map[]), None, true, id)
  }

  predicate NonDecreasing(t: seq<nat>) {
    forall i, j :: 0 <= i < j < |t| ==> t[i] <= t[j]
  }

  /** Every file ends at 100, through non-decreasing progress, as done or failed. A file is
      counted exactly when its document row was stored; the error is absent exactly on the
      success path. */
  lemma FileRunSpec(r: Reply, docId: Option<string>, tr: Translator)
    ensures var f := FileRun(r, docId, tr);
      && f.trace != [] && f.trace[|f.trace| - 1] == 100 && NonDecreasing(f.trace)
      && (f.status == tr("status_done", map[]) || f.status == tr("status_failed", map[]))
      && (f.counted <==> r.existing == Ok(false) && r.stored.Ok? && r.inserted.Ok?)
      && (f.error.None? ==> f.trace == SuccessTrace && f.counted)
      && (f.error.None? ==> f.status == tr("status_done", map[]))
      && (f.error.Some? ==> f.status == tr("status_failed", map[]))
  {
    FileRunTrace(r, docId, tr);
  }

  /** A failed file's trace is a prefix of the success trace, then 100. */
  lemma FailedTraceClimbs(k: nat)
    requires k <= 6
    ensures NonDecreasing(SuccessTrace[..k] + [100])
  {
    var t := SuccessTrace[..k] + [100];
    forall i, j | 0 <= i < j < |t| ensures t[i] <= t[j] {
      assert t[i] == SuccessTrace[i];
      if j < k {
        assert t[j] == SuccessTrace[j];
      }
    }
  }

  /** The traces of the per-file loop climb to 100. */
  lemma FileRunTrace(r: Reply, docId: Option<string>, tr: Translator)
    ensures var t := FileRun(r, docId, tr).trace; t != [] && t[|t| - 1] == 100 && NonDecreasing(t)
  {
    var t := FileRun(r, docId, tr).trace;
    var k: nat :=
      if r.existing.Err? || r.existing == Ok(true) then 0
      else if r.stored.Err? || r.inserted.Err? then 1
      else if r.later.Some? && r.later.value.Extracting? then 3
      else if r.later.Some? && r.later.value.Chunking? then 4
      else if r.later.Some? && r.later.value.Embedding? then 5
      else 6;
    if t == SuccessTrace {
      assert SuccessTrace == SuccessTrace[..6] + [100];
    } else {
      assert t == SuccessTrace[..k] + [100];
    }
    FailedTraceClimbs(if t == SuccessTrace then 6 else k);
  }

  /** The success path: a new name, stored, inserted, and every later step done. */
  lemma FileRunSuccess(r: Reply, docId: Option<string>, tr: Translator)
    requires r.existing == Ok(false) && r.stored.Ok? && r.inserted.Ok? && r.later.None?
    requires r.inserted.value.Some? || docId.Some?
    ensures FileRun(r, docId, tr) == FileResult(SuccessTrace, tr("status_done", map[]), None, true, NextDocumentId(r, docId))
  {
  }

  /** A name already in the collection fails at once, uncounted, with the same-name error. */
  lemma FileRunDuplicate(r: Reply, docId: Option<string>, tr: Translator)
    requires r.existing == Ok(true)
    ensures FileRun(r, docId, tr) ==
      FileResult([100], tr("status_failed", map[]), Some(tr("doc_exists_same_name", map[])), false, None)
  {
  }

  /** An insert that returns no row leaves the previous file's document id in place, and this
      file's sections are written under that id; with no earlier id the step raises. */
  lemma FileRunWithoutRow(r: Reply, previous: Option<string>, tr: Translator)
    requires r.existing == Ok(false) && r.stored.Ok? && r.inserted == Ok(None) && r.later.None?
    ensures previous.Some? ==> FileRun(r, previous, tr).documentId == previous && FileRun(r, previous, tr).error.None?
    ensures previous.None? ==>
      (FileRun(r, previous, tr).counted
       && FileRun(r, previous, tr).error == Some(tr("upload_error", map["error" := UnboundDocumentId])))
  {
  }

  /** The document id in scope after a prefix of the files. */
  function DocumentIdAfter(files: seq<UploadFile>, service: Service): Option<string> {
    if files == [] then None
    else NextDocumentId(service(files[|files| - 1]), DocumentIdAfter(files[..|files| - 1], service))
  }

  /** The per-file results of the loop, in file order. */
  function RunFiles(files: seq<UploadFile>, service: Service, tr: Translator): seq<FileResult> {
    if files == [] then []
    else
      var init := files[..|files| - 1];
      RunFiles(init, service, tr) + [FileRun(service(files[|files| - 1]), DocumentIdAfter(init, service), tr)]
  }

  lemma {:induction false} RunFilesLength(files: seq<UploadFile>, service: Service, tr: Translator)
    ensures |RunFiles(files, service, tr)| == |files|
  {
    if files != [] {
      RunFilesLength(files[..|files| - 1], service, tr);
    }
  }

  /** The k-th result is the k-th file's run, with the document id the earlier files left. */
  lemma {:induction false} RunFilesAt(files: seq<UploadFile>, service: Service, tr: Translator, k: nat)
    requires k < |files|
    ensures |RunFiles(files, service, tr)| == |files|
    ensures RunFiles(files, service, tr)[k] == FileRun(service(files[k]), DocumentIdAfter(files[..k], service), tr)
  {
    RunFilesLength(files, service, tr);
    var init := files[..|files| - 1];
    RunFilesLength(init, service, tr);
    if k < |files| - 1 {
      RunFilesAt(init, service, tr, k);
      assert init[k] == files[k] && init[..k] == files[..k];
    } else {
      assert files[..k] == init;
    }
  }

  /** The files whose document row was stored. */
  function StoredCount(files: seq<UploadFile>, service: Service): nat {
    if files == [] then 0
    else
      var r := service(files[|files| - 1]);
      StoredCount(files[..|files| - 1], service) + (if r.existing == Ok(false) && r.stored.Ok? && r.inserted.Ok? then 1 else 0)
  }

  /** `successful_uploads` */
  function CountSuccesses(results: seq<FileResult>): (n: nat)
    ensures n <= |results|
  {
    if results == [] then 0
    else CountSuccesses(results[..|results| - 1]) + (if results[|results| - 1].counted then 1 else 0)
  }

  /** The success count is the number of files whose row was stored, whatever failed after. */
  lemma {:induction false} CountIsStored(files: seq<UploadFile>, service: Service, tr: Translator)
    ensures CountSuccesses(RunFiles(files, service, tr)) == StoredCount(files, service)
  {
    if files != [] {
      var init := files[..|files| - 1];
      var results := RunFiles(files, service, tr);
      CountIsStored(init, service, tr);
      assert results[..|results| - 1] == RunFiles(init, service, tr);
      FileRunSpec(service(files[|files| - 1]), DocumentIdAfter(init, service), tr);
    }
  }

  /** The three maps shown next to the files. */
  datatype Board = Board(progress: map<string, nat>, status: map<string, string>, errors: map<string, string>)

  /** The loop before processing: each file waits at 0 without an old error. */
  function MarkWaiting(b: Board, files: seq<UploadFile>, tr: Translator): Board {
    if files == [] then b
    else
      var c := MarkWaiting(b, files[..|files| - 1], tr);
      var name := files[|files| - 1].name;
      Board(c.progress[name := 0], c.status[name := tr("upload_waiting", map[])], c.errors - {name})
  }

  /** Every file of the batch waits at 0 with no error. */
  lemma {:induction false} MarkWaitingSpec(b: Board, files: seq<UploadFile>, tr: Translator)
    ensures var c := MarkWaiting(b, files, tr);
      forall k :: 0 <= k < |files| ==>
        && files[k].name in c.progress && c.progress[files[k].name] == 0
        && files[k].name in c.status && c.status[files[k].name] == tr("upload_waiting", map[])
        && files[k].name !in c.errors
  {
    if files != [] {
      var init := files[..|files| - 1];
      MarkWaitingSpec(b, init, tr);
      forall k | 0 <= k < |files| - 1 ensures init[k] == files[k] { }
    }
  }

  /** Names outside the batch keep their entries. */
  lemma {:induction false} MarkWaitingOthers(b: Board, files: seq<UploadFile>, tr: Translator, n: string)
    requires forall k :: 0 <= k < |files| ==> files[k].name != n
    ensures var c := MarkWaiting(b, files, tr);
      && (n in c.progress <==> n in b.progress) && (n in b.progress ==> c.progress[n] == b.progress[n])
      && (n in c.status <==> n in b.status) && (n in b.status ==> c.status[n] == b.status[n])
      && (n in c.errors <==> n in b.errors) && (n in b.errors ==> c.errors[n] == b.errors[n])
  {
    if files != [] {
      var init := files[..|files| - 1];
      assert forall k :: 0 <= k < |init| ==> init[k] == files[k];
      MarkWaitingOthers(b, init, tr, n);
    }
  }

  /** One file's result written into the maps: progress 100, the final status, and its error. */
  function Record(b: Board, name: string, f: FileResult): Board {
    Board(b.progress[name := 100], b.status[name := f.status],
          if f.error.Some? then b.errors[name := f.error.value] else b.errors)
  }

  function RecordAll(b: Board, files: seq<UploadFile>, results: seq<FileResult>): Board
    requires |files| == |results|
  {
    if files == [] then b
    else
      Record(RecordAll(b, files[..|files| - 1], results[..|results| - 1]), files[|files| - 1].name, results[|results| - 1])
  }

  /** After the loop every file stands at 100; with distinct names each shows its own status and
      error. */
  lemma {:induction false} RecordAllSpec(b: Board, files: seq<UploadFile>, results: seq<FileResult>)
    requires |files| == |results|
    ensures var c := RecordAll(b, files, results);
      forall k :: 0 <= k < |files| ==> files[k].name in c.progress && c.progress[files[k].name] == 100
    ensures var c := RecordAll(b, files, results);
      (forall i, j :: 0 <= i < j < |files| ==> files[i].name != files[j].name) ==>
        forall k :: 0 <= k < |files| ==>
          && files[k].name in c.status && c.status[files[k].name] == results[k].status
          && (results[k].error.Some? ==> files[k].name in c.errors && c.errors[files[k].name] == results[k].error.value)
  {
    if files != [] {
      var fi := files[..|files| - 1];
      var ri := results[..|results| - 1];
      RecordAllSpec(b, fi, ri);
      forall k | 0 <= k < |files| - 1 ensures fi[k] == files[k] && ri[k] == results[k] { }
    }
  }

  datatype View = View(
    documents: seq<map<string, string>>,
    isLoading: bool,
    isUploading: bool,
    board: Board,
    showAlert: bool,
    alertMessage: string)

  /** The alert after a batch with at least one stored document. */
  function UploadAlert(ok: nat, total: nat, tr: Translator): string {
    tr("docs_upload_success_alert", map["ok" := NatToString(ok), "total" := NatToString(total)])
  }

  /** A stored document: its storage path and owner. */
  datatype DocumentRow = DocumentRow(storagePath: string, ownerId: string)

  /** The documents other than `docId`; a listed document without an `id` raises `KeyError`. */
  function Without(documents: seq<map<string, string>>, docId: string): Result<seq<map<string, string>>> {
    if documents == [] then Ok([])
    else
      var rest :- Without(documents[1..], docId);
      if "id" !in documents[0] then Err("'id'")
      else if documents[0]["id"] == docId then Ok(rest)
      else Ok([documents[0]] + rest)
  }

  lemma {:induction false} WithoutSpec(documents: seq<map<string, string>>, docId: string)
    ensures Without(documents, docId).Ok? <==> forall k :: 0 <= k < |documents| ==> "id" in documents[k]
    ensures Without(documents, docId).Ok? ==>
      var r := Without(documents, docId).value;
      && (forall k :: 0 <= k < |r| ==> r[k] in documents && r[k]["id"] != docId)
      && (forall k :: 0 <= k < |documents| && documents[k]["id"] != docId ==> documents[k] in r)
      && |r| <= |documents|
  {
    if documents != [] {
      WithoutSpec(documents[1..], docId);
      if Without(documents, docId).Ok? {
        var r := Without(documents, docId).value;
        var rest := Without(documents[1..], docId).value;
        forall k | 0 <= k < |documents| && documents[k]["id"] != docId ensures documents[k] in r {
          if k > 0 { assert documents[k] == documents[1..][k - 1]; }
        }
        forall k | 0 <= k < |r| ensures r[k] in documents && r[k]["id"] != docId {
          if r != rest && k > 0 { assert r[k] == rest[k - 1]; }
          assert forall x :: x in rest ==> x in documents[1..];
        }
      }
    }
  }

  /** The steps of `delete_document` inside its `try`: the list without the document, or the
      error text raised on the way (no user, no row, another owner, an empty storage reply, a
      raising call); and the storage path sent for removal, if any. The path is the row's path
      with one leading bucket prefix stripped. */
  function DeleteSteps(documents: seq<map<string, string>>, docId: string, user: Option<Auth.User>,
                       fetch: string -> Result<seq<DocumentRow>>, removeStored: string -> Result<bool>,
                       removeRow: string -> Outcome, tr: Translator): (Result<seq<map<string, string>>>, Option<string>)
  {
    if user.None? then (Err(tr("user_not_found", map[])), None)
    else
      match fetch(docId)
      case Err(e) => (Err(e), None)
      case Ok(rows) =>
        if rows == [] then (Err(tr("doc_not_found", map[])), None)
        else if rows[0].ownerId != user.value.id then (Err(tr("delete_no_permission", map[])), None)
        else
          var path := StripBucketPrefix(rows[0].storagePath);
          match removeStored(path)
          case Err(e) => (Err(e), Some(path))
          case Ok(removed) =>
            if !removed then (Err(tr("storage_delete_failed", map[])), Some(path))
            else
              match removeRow(docId)
              case Fail(e) => (Err(e), Some(path))
              case Pass => (Without(documents, docId), Some(path))
  }

  /** `delete_document`: on success the list loses the document and the success text is shown;
      otherwise the failure text with the error is shown and the list is kept. Loading ends
      either way. */
  function DeleteDocument(v: View, docId: string, user: Option<Auth.User>, fetch: string -> Result<seq<DocumentRow>>,
                          removeStored: string -> Result<bool>, removeRow: string -> Outcome, tr: Translator): (View, Option<string>)
  {
    var (r, sent) := DeleteSteps(v.documents, docId, user, fetch, removeStored, removeRow, tr);
    match r
    case Ok(kept) => (v.(documents := kept, alertMessage := tr("doc_delete_success", map[]), showAlert := true, isLoading := false), sent)
    case Err(e) => (v.(alertMessage := tr("doc_delete_failed", map["error" := e]), showAlert := true, isLoading := false), sent)
  }

  /** Only the owner's delete changes the list, and then only the deleted id leaves it; the
      storage path sent is the row's path without the bucket prefix. */
  lemma DeleteDocumentSpec(v: View, docId: string, user: Option<Auth.User>, fetch: string -> Result<seq<DocumentRow>>,
                           removeStored: string -> Result<bool>, removeRow: string -> Outcome, tr: Translator)
    ensures var (w, sent) := DeleteDocument(v, docId, user, fetch, removeStored, removeRow, tr);
      && !w.isLoading && w.showAlert
      && (sent.Some? ==> user.Some? && fetch(docId).Ok? && fetch(docId).value != []
                         && fetch(docId).value[0].ownerId == user.value.id
                         && sent.value == StripBucketPrefix(fetch(docId).value[0].storagePath))
      && (w.documents != v.documents ==> sent.Some? && Without(v.documents, docId) == Ok(w.documents))
      && w.board == v.board && w.isUploading == v.isUploading
  {
  }

  /** Another user's document is never removed. */
  lemma DeleteDocumentNotOwner(v: View, docId: string, user: Auth.User, fetch: string -> Result<seq<DocumentRow>>,
                               removeStored: string -> Result<bool>, removeRow: string -> Outcome, tr: Translator)
    requires fetch(docId).Ok? && fetch(docId).value != [] && fetch(docId).value[0].ownerId != user.id
    ensures var (w, sent) := DeleteDocument(v, docId, Some(user), fetch, removeStored, removeRow, tr);
      && sent.None? && w.documents == v.documents
      && w.alertMessage == tr("doc_delete_failed", map["error" := tr("delete_no_permission", map[])])
  {
  }

  class DocumentState {
    var documents: seq<map<string, string>>
    var isLoading: bool
    var isUploading: bool
    var uploadProgress: map<string, nat>
    var uploadStatus: map<string, string>
    var uploadErrors: map<string, string>
    var showAlert: bool
    var alertMessage: string

    constructor()
      ensures Snapshot() == View([], false, false, Board(map[], map[], map[]), false, "")
    {
      documents, isLoading, isUploading := [], false, false;
      uploadProgress, uploadStatus, uploadErrors := map[], map[], map[];
      showAlert, alertMessage := false, "";
    }

    function Snapshot(): View
      reads this
    {
      View(documents, isLoading, isUploading, Board(uploadProgress, uploadStatus, uploadErrors), showAlert, alertMessage)
    }

    /** The first loop of `handle_upload`. */
    method MarkFilesWaiting(files: seq<UploadFile>, tr: Translator)
      modifies this
      ensures Snapshot() == old(Snapshot()).(board := MarkWaiting(old(Snapshot()).board, files, tr))
    {
      ghost var v0 := Snapshot();
      var i := 0;
      while i < |files|
        invariant 0 <= i <= |files|
        invariant Snapshot() == v0.(board := MarkWaiting(v0.board, files[..i], tr))
      {
        assert files[..i + 1][..i] == files[..i];
        ghost var c := MarkWaiting(v0.board, files[..i], tr);
        var name := files[i].name;
        assert MarkWaiting(v0.board, files[..i + 1], tr)
            == Board(c.progress[name := 0], c.status[name := tr("upload_waiting", map[])], c.errors - {name});
        uploadStatus := uploadStatus[name := tr("upload_waiting", map[])];
        uploadProgress := uploadProgress[name := 0];
        uploadErrors := uploadErrors - {name};
        i := i + 1;
      }
      assert files[..i] == files;
    }

    /** One file's result written into the maps. */
    method RecordFile(name: string, f: FileResult)
      modifies this
      ensures Snapshot() == old(Snapshot()).(board := Record(old(Snapshot()).board, name, f))
    {
      uploadProgress := uploadProgress[name := 100];
      uploadStatus := uploadStatus[name := f.status];
      if f.error.Some? {
        uploadErrors := uploadErrors[name := f.error.value];
      }
    }

    /** The second loop of `handle_upload`: each file processed in turn, its result written into
        the maps; a failing file does not stop the others. */
    method ProcessFiles(files: seq<UploadFile>, service: Service, tr: Translator)
      returns (results: seq<FileResult>, successes: nat)
      modifies this
      ensures results == RunFiles(files, service, tr)
      ensures successes == CountSuccesses(results)
      ensures |results| == |files|
      ensures Snapshot() == old(Snapshot()).(board := RecordAll(old(Snapshot()).board, files, results))
    {
      results, successes := [], 0;
      ghost var v0 := Snapshot();
      var documentId: Option<string> := None;
      var i := 0;
      while i < |files|
        invariant 0 <= i <= |files|
        invariant results == RunFiles(files[..i], service, tr) && |results| == i
        invariant documentId == DocumentIdAfter(files[..i], service)
        invariant successes == CountSuccesses(results)
        invariant Snapshot() == v0.(board := RecordAll(v0.board, files[..i], results))
      {
        ghost var prefix := files[..i + 1];
        assert prefix[..i] == files[..i];
        assert prefix[i] == files[i];
        ghost var b := RecordAll(v0.board, files[..i], results);
        var f;
        f, documentId := ProcessFile(files[i], documentId, service, tr);
        if f.counted {
          successes := successes + 1;
        }
        var before := results;
        results := results + [f];
        assert results[..i] == before;
        assert RecordAll(v0.board, prefix, results) == Record(b, files[i].name, f);
        i := i + 1;
      }
      assert files[..i] == files;
    }

    /** One pass of the loop: the file sent to the service, its result written into the maps, the
        document id carried on. */
    method ProcessFile(file: UploadFile, documentId: Option<string>, service: Service, tr: Translator)
      returns (f: FileResult, next: Option<string>)
      modifies this
      ensures f == FileRun(service(file), documentId, tr)
      ensures next == NextDocumentId(service(file), documentId)
      ensures Snapshot() == old(Snapshot()).(board := Record(old(Snapshot()).board, file.name, f))
    {
      var reply := service(file);
      f := FileRun(reply, documentId, tr);
      next := NextDocumentId(reply, documentId);
      RecordFile(file.name, f);
    }

    /** `handle_upload`. A URL without a collection id shows the missing-id alert; an empty batch
        does nothing. The storage client is then set up outside any `try`, so when that raises the
        handler ends with the error and nothing changed. Without a signed-in user the not-found
        alert is shown and uploading is off. Otherwise every file is marked waiting, then
        processed; when at least one was stored the count alert is shown and the list is
        reloaded; finally uploading ends and the three maps are emptied. `shown` is the maps as
        they stood after the last file; `raised` is the error the handler ends with. The
        database client set up after the user check cannot fail there: it only re-checks the
        sign-in flag that the storage client's set-up already passed. */
    method HandleUpload(url: string, files: seq<UploadFile>, isAuthenticated: bool, setSession: Outcome,
                        user: Option<Auth.User>, service: Service, tr: Translator)
      returns (results: seq<FileResult>, shown: Board, reload: bool, raised: Option<string>)
      modifies this
      ensures LastSegment(url) == "" ==>
        Snapshot() == old(Snapshot()).(alertMessage := tr("doc_collection_id_missing", map[]), showAlert := true)
        && results == [] && !reload && raised.None?
      ensures LastSegment(url) != "" && files == [] ==>
        Snapshot() == old(Snapshot()) && results == [] && !reload && raised.None?
      ensures LastSegment(url) != "" && files != [] && ClientSetup(isAuthenticated, setSession).Fail? ==>
        Snapshot() == old(Snapshot()) && results == [] && !reload
        && raised == Some(ClientSetup(isAuthenticated, setSession).error)
      ensures LastSegment(url) != "" && files != [] && !isAuthenticated ==> raised == Some(NotAuthenticated)
      ensures raised.Some? ==> Snapshot() == old(Snapshot()) && files != [] && LastSegment(url) != ""
      ensures LastSegment(url) != "" && files != [] && ClientSetup(isAuthenticated, setSession).Pass? && user.None? ==>
        Snapshot() == old(Snapshot()).(alertMessage := tr("user_not_found", map[]), showAlert := true, isUploading := false)
        && results == [] && !reload && raised.None?
      ensures LastSegment(url) != "" && files != [] && ClientSetup(isAuthenticated, setSession).Pass? && user.Some? ==>
        && raised.None?
        && results == RunFiles(files, service, tr) && |results| == |files|
        && shown == RecordAll(MarkWaiting(old(Snapshot()).board, files, tr), files, results)
        && (reload <==> CountSuccesses(results) > 0)
        && Snapshot() == old(Snapshot()).(
             isUploading := false, board := Board(map[], map[], map[]),
             alertMessage := if reload then UploadAlert(CountSuccesses(results), |files|, tr) else old(alertMessage),
             showAlert := reload || old(showAlert))
    {
      results, shown, reload, raised := [], Board(uploadProgress, uploadStatus, uploadErrors), false, None;
      if LastSegment(url) == "" {
        alertMessage := tr("doc_collection_id_missing", map[]);
        showAlert := true;
        return;
      }
      if files == [] {
        return;
      }
      var setup := ClientSetup(isAuthenticated, setSession);
      if setup.Fail? {
        raised := Some(setup.error);
        return;
      }
      if user.None? {
        alertMessage := tr("user_not_found", map[]);
        showAlert := true;
        isUploading := false;
        return;
      }
      var successes;
      results, shown, successes := ProcessBatch(files, service, tr);
      reload := FinishUpload(successes, |files|, tr);
    }

    /** Uploading on, every file marked waiting, then processed. */
    method ProcessBatch(files: seq<UploadFile>, service: Service, tr: Translator)
      returns (results: seq<FileResult>, shown: Board, successes: nat)
      modifies this
      ensures results == RunFiles(files, service, tr) && |results| == |files|
      ensures successes == CountSuccesses(results)
      ensures shown == RecordAll(MarkWaiting(old(Snapshot()).board, files, tr), files, results)
      ensures Snapshot() == old(Snapshot()).(isUploading := true, board := shown)
    {
      isUploading := true;
      MarkFilesWaiting(files, tr);
      results, successes := ProcessFiles(files, service, tr);
      shown := Board(uploadProgress, uploadStatus, uploadErrors);
    }

    /** The end of `handle_upload`: the count alert and a reload when something was stored, then
        uploading off and the maps emptied. */
    method FinishUpload(successes: nat, total: nat, tr: Translator) returns (reload: bool)
      modifies this
      ensures reload <==> successes > 0
      ensures Snapshot() == old(Snapshot()).(
        isUploading := false, board := Board(map[], map[], map[]),
        alertMessage := if reload then UploadAlert(successes, total, tr) else old(alertMessage),
        showAlert := reload || old(showAlert))
    {
      reload := false;
      if successes > 0 {
        alertMessage := UploadAlert(successes, total, tr);
        showAlert := true;
        reload := true;
      }
      isUploading := false;
      uploadProgress, uploadStatus, uploadErrors := map[], map[], map[];
    }

    method DeleteDocumentHandler(docId: string, user: Option<Auth.User>, fetch: string -> Result<seq<DocumentRow>>,
                                 removeStored: string -> Result<bool>, removeRow: string -> Outcome, tr: Translator)
      returns (sent: Option<string>)
      modifies this
      ensures (Snapshot(), sent) == DeleteDocument(old(Snapshot()), docId, user, fetch, removeStored, removeRow, tr)
    {
      isLoading := true;
      var steps := DeleteSteps(documents, docId, user, fetch, removeStored, removeRow, tr);
      sent := steps.1;
      match steps.0 {
        case Ok(kept) =>
          documents := kept;
          alertMessage := tr("doc_delete_success", map[]);
        case Err(e) =>
          alertMessage := tr("doc_delete_failed", map["error" := e]);
      }
      showAlert := true;
      isLoading := false;
    }
  }
}
