/**
 * The in-memory session store of main.py: `session_data` maps a session id to
 * an insertion-ordered dict from file id to the record of an uploaded file.
 * The four handlers that touch it are methods of `Store`; what they do on disk
 * is stripped away, and a failure of that disk work is a parameter.
 */
module SessionStore {
  import opened Wrappers
  import opened PyText
  import opened OrderedDict

  const UploadRoot := "uploads"
  const UploadedMessage := "File uploaded successfully"
  const NoFileDetail := "No file uploaded. Please upload a file first."
  const ClearedMessage := "Upload history cleared successfully. All files deleted from your session."

  /** What upload_file stores per file. */
  datatype FileRecord = FileRecord(
    filename: string,
    filepath: string,
    contentType: string,
    size: nat,
    content: string)

  /** The JSON bodies the handlers return. */
  datatype Body =
    | Uploaded(message: string, fileId: string, filename: string, contentType: string, size: nat)
    | Answered(response: DemoAnswer, query: string, fileAnalyzed: string)
    | Message(message: string)
    | CleanedUp(message: string, deletedCount: nat)
    | Detail(detail: string)

  datatype Response = Response(status: nat, body: Body)

  /** The file id of an upload: "file_<whole seconds>_<filename>". */
  function FileId(second: nat, filename: string): string {
    "file_" + Decimal(second) + "_" + filename
  }

  /** In a file id, the seconds run from index 5 up to the first "_" after them. */
  lemma FileIdShape(second: nat, filename: string)
    ensures var d := Decimal(second); var x := FileId(second, filename);
      && |x| == 6 + |d| + |filename|
      && x[..5] == "file_"
      && (forall i :: 5 <= i < 5 + |d| ==> IsDigit(x[i]))
      && x[5 + |d|] == '_'
      && x[5..5 + |d|] == d
      && x[6 + |d|..] == filename
  {
    var d := Decimal(second);
    var x := FileId(second, filename);
    assert forall i :: 5 <= i < 5 + |d| ==> x[i] == d[i - 5];
  }

  /** Two uploads get the same file id exactly when they have the same filename in the same second. */
  lemma FileIdCollision(s1: nat, f1: string, s2: nat, f2: string)
    ensures FileId(s1, f1) == FileId(s2, f2) <==> s1 == s2 && f1 == f2
  {
    if FileId(s1, f1) == FileId(s2, f2) {
      FileIdShape(s1, f1);
      FileIdShape(s2, f2);
      var d1, d2 := Decimal(s1), Decimal(s2);
      assert |d1| == |d2| by {
        assert !IsDigit(FileId(s1, f1)[5 + |d1|]);
        assert !IsDigit(FileId(s2, f2)[5 + |d2|]);
      }
      DecimalInjective(s1, s2);
    }
  }

  /**
   * Where upload_file writes a file: for a session id that is not an absolute
   * path, "uploads/<session id>/<file id>", with no second "/" when the
   * session id already ends in one.
   */
  lemma UploadPathShape(sessionId: string, second: nat, filename: string)
    requires sessionId != [] && sessionId[0] != '/'
    ensures var sep := if sessionId[|sessionId| - 1] == '/' then "" else "/";
      JoinPath(JoinPath(UploadRoot, sessionId), FileId(second, filename))
        == UploadRoot + "/" + sessionId + sep + FileId(second, filename)
  {
    var dir := JoinPath(UploadRoot, sessionId);
    assert dir == UploadRoot + "/" + sessionId;
    assert dir[|dir| - 1] == sessionId[|sessionId| - 1];
    assert FileId(second, filename)[0] == 'f';
  }

  /**
   * The values the demo answer of process_query interpolates into its fixed
   * wording: the query, the file's name and size, its number of lines and its
   * first 500 code points.
   */
  datatype DemoAnswer = DemoAnswer(query: string, filename: string, size: nat, lineCount: nat, excerpt: string)

  function Demo(query: string, file: FileRecord): (a: DemoAnswer)
    ensures a.query == query && a.filename == file.filename && a.size == file.size
    ensures a.lineCount == LineCount(file.content)
    ensures a.excerpt <= file.content
    ensures |a.excerpt| == if |file.content| <= 500 then |file.content| else 500
  {
    DemoAnswer(query, file.filename, file.size, LineCount(file.content), Prefix(file.content, 500))
  }

  /** What one entry of the uploads directory came to in cleanup_all_sessions. */
  datatype ItemRemoval = RemovedDir | RemovedFile | RemoveFailed(error: string) | NeitherDirNorFile

  /** The uploads directory as cleanup_all_sessions finds it. */
  datatype UploadsListing = NoUploadsDir | Listed(items: seq<ItemRemoval>) | ListFailed(error: string)

  /** deleted_count: the entries that were actually removed. */
  function RemovedCount(items: seq<ItemRemoval>): (n: nat)
    ensures n <= |items|
  {
    if items == [] then 0
    else RemovedCount(items[..|items| - 1])
         + (if items[|items| - 1].RemovedDir? || items[|items| - 1].RemovedFile? then 1 else 0)
  }

  function CleanupMessage(deleted: nat): string {
    "All sessions cleaned up successfully. Removed " + Decimal(deleted) + " items."
  }

  /** The files of a session, or {} for a session that has none yet. */
  function FilesOf(sessions: map<string, seq<(string, FileRecord)>>, sessionId: string): seq<(string, FileRecord)> {
    if sessionId in sessions then sessions[sessionId] else []
  }

  class Store {
    var sessions: map<string, seq<(string, FileRecord)>>

    /** Every session's files form a dict: no file id twice. */
    ghost predicate Valid()
      reads this
    {
      forall s :: s in sessions ==> DistinctKeys(sessions[s])
    }

    /** The empty dict of a freshly started server. */
    constructor ()
      ensures Valid() && sessions == map[]
    {
      sessions := map[];
    }

    /**
     * upload_file: the record for "file_<second>_<filename>" is assigned into the
     * session's dict, which is created when absent; its size is the length of
     * the UTF-8 encoding of the content read back, and the reply repeats it.
     */
    method UploadFile(sessionId: string, filename: string, contentType: string, content: string, second: nat,
                      ioError: Option<string>)
      returns (resp: Response)
      requires Valid()
      modifies this
      ensures Valid()
      ensures ioError.Some? ==>
        sessions == old(sessions) && resp == Response(500, Detail("Error uploading file: " + ioError.value))
      ensures ioError.None? ==>
        var fileId := FileId(second, filename);
        var file := FileRecord(filename, JoinPath(JoinPath(UploadRoot, sessionId), fileId), contentType,
                               |Utf8Encode(content)|, content);
        && sessions == old(sessions)[sessionId := Put(FilesOf(old(sessions), sessionId), fileId, file)]
        && Get(sessions[sessionId], fileId) == Some(file)
        && resp == Response(200, Uploaded(UploadedMessage, fileId, filename, contentType, file.size))
    {
      if ioError.Some? {
        return Response(500, Detail("Error uploading file: " + ioError.value));
      }
      var sessionDir := JoinPath(UploadRoot, sessionId);
      var fileId := FileId(second, filename);
      var filePath := JoinPath(sessionDir, fileId);
      if sessionId !in sessions {
        sessions := sessions[sessionId := []];
      }
      var file := FileRecord(filename, filePath, contentType, |Utf8Encode(content)|, content);
      PutDistinct(sessions[sessionId], fileId, file);
      PutGet(sessions[sessionId], fileId, file);
      sessions := sessions[sessionId := Put(sessions[sessionId], fileId, file)];
      resp := Response(200, Uploaded(UploadedMessage, fileId, filename, contentType, Get(sessions[sessionId], fileId).value.size));
    }

    /**
     * process_query: 400 when the session has no file; otherwise the answer is
     * built from the record under the key inserted last. The store is only read.
     */
    method ProcessQuery(sessionId: string, query: string) returns (resp: Response)
      requires Valid()
      ensures FilesOf(sessions, sessionId) == [] <==> resp == Response(400, Detail(NoFileDetail))
      ensures FilesOf(sessions, sessionId) != [] ==>
        var files := sessions[sessionId];
        var latest := files[|files| - 1].1;
        resp == Response(200, Answered(Demo(query, latest), query, latest.filename))
    {
      if sessionId !in sessions || sessions[sessionId] == [] {
        return Response(400, Detail(NoFileDetail));
      }
      var files := sessions[sessionId];
      var latestFileId := Keys(files)[|files| - 1];
      GetAt(files, |files| - 1);
      var latest := Get(files, latestFileId).value;
      resp := Response(200, Answered(Demo(query, latest), query, latest.filename));
    }

    /** clear_history: the session is dropped if present, and the reply is the same either way. */
    method ClearHistory(sessionId: string, ioError: Option<string>) returns (resp: Response)
      requires Valid()
      modifies this
      ensures Valid()
      ensures ioError.Some? ==>
        sessions == old(sessions) && resp == Response(500, Detail("Error clearing history: " + ioError.value))
      ensures ioError.None? ==>
        sessions == old(sessions) - {sessionId} && resp == Response(200, Message(ClearedMessage))
    {
      if ioError.Some? {
        return Response(500, Detail("Error clearing history: " + ioError.value));
      }
      if sessionId in sessions {
        sessions := sessions - {sessionId};
      }
      resp := Response(200, Message(ClearedMessage));
    }

    /**
     * cleanup_all_sessions: every session goes and the reply counts the removed
     * directory entries; when listing the directory fails nothing is cleared.
     */
    method CleanupAllSessions(listing: UploadsListing) returns (resp: Response)
      requires Valid()
      modifies this
      ensures Valid()
      ensures listing.ListFailed? ==>
        sessions == old(sessions) && resp == Response(500, Detail("Error cleaning up all sessions: " + listing.error))
      ensures !listing.ListFailed? ==>
        var deleted := if listing.Listed? then RemovedCount(listing.items) else 0;
        sessions == map[] && resp == Response(200, CleanedUp(CleanupMessage(deleted), deleted))
    {
      if listing.ListFailed? {
        return Response(500, Detail("Error cleaning up all sessions: " + listing.error));
      }
      var deletedCount := 0;
      if listing.Listed? {
        var items := listing.items;
        var i := 0;
        while i < |items|
          invariant 0 <= i <= |items|
          invariant deletedCount == RemovedCount(items[..i])
        {
          assert items[..i + 1][..i] == items[..i];
          match items[i] {
            case RemovedDir => deletedCount := deletedCount + 1;
            case RemovedFile => deletedCount := deletedCount + 1;
            case RemoveFailed(_) =>
            case NeitherDirNorFile =>
          }
          i := i + 1;
        }
        assert items[..i] == items;
      }
      sessions := map[];
      resp := Response(200, CleanedUp(CleanupMessage(deletedCount), deletedCount));
    }
  }

  /** A query on a session with no upload is refused, before any upload and after a cleanup alike. */
  method QueryWithoutUpload(sessionId: string, query: string, filename: string, content: string, second: nat)
    returns (before: Response, after: Response)
    ensures before == Response(400, Detail(NoFileDetail)) && after == before
  {
    var store := new Store();
    before := store.ProcessQuery(sessionId, query);
    var _ := store.UploadFile(sessionId, filename, "text/plain", content, second, None);
    var _ := store.CleanupAllSessions(NoUploadsDir);
    after := store.ProcessQuery(sessionId, query);
  }

  /** A query right after an upload answers about that upload, with the size the upload reported. */
  method UploadThenQuery(sessionId: string, filename: string, contentType: string, content: string, second: nat, query: string)
    returns (uploaded: Response, answered: Response)
    ensures uploaded.status == 200 && uploaded.body.Uploaded? && uploaded.body.size == |Utf8Encode(content)|
    ensures answered.status == 200 && answered.body.Answered?
    ensures answered.body.fileAnalyzed == filename && answered.body.response.query == query
    ensures answered.body.response.size == uploaded.body.size
  {
    var store := new Store();
    uploaded := store.UploadFile(sessionId, filename, contentType, content, second, None);
    assert store.sessions[sessionId] == [(FileId(second, filename), Get(store.sessions[sessionId], FileId(second, filename)).value)];
    answered := store.ProcessQuery(sessionId, query);
  }

  /**
   * Uploading a, then b, then a again within one second: the third upload
   * overwrites a's record where it stands, so the latest file is still b.
   */
  method ReuploadInSameSecond(sessionId: string, a: string, b: string, second: nat, contentType: string,
                              first: string, other: string, again: string, query: string)
    returns (answered: Response)
    requires a != b
    ensures answered.status == 200 && answered.body.Answered? && answered.body.fileAnalyzed == b
  {
    var idA, idB := FileId(second, a), FileId(second, b);
    FileIdCollision(second, a, second, b);
    var store := new Store();
    var _ := store.UploadFile(sessionId, a, contentType, first, second, None);
    var _ := store.UploadFile(sessionId, b, contentType, other, second, None);
    ghost var files := store.sessions[sessionId];
    assert Keys(files) == [idA, idB];
    assert files[1].1.filename == b;
    var _ := store.UploadFile(sessionId, a, contentType, again, second, None);
    ghost var v := Get(store.sessions[sessionId], idA).value;
    LastKeyAfterPut(files, idA, v);
    GetAt(store.sessions[sessionId], 1);
    answered := store.ProcessQuery(sessionId, query);
  }
}
