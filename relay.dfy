/** The relay script itself: list the pending folder, then for each file download
    it, mail it as an attachment and move it to the sent folder. Each step is a
    method over the remote services, proved equal to a specification function on
    World values; module RelayProperties states what those functions promise. */
module Relay {
  import opened Types
  import opened Mime
  import opened Store

  // ---------------------------------------------------------------------------
  // Listing (main, the pagination loop)
  // ---------------------------------------------------------------------------

  /** A page's `files` entries; a page without the key contributes nothing. */
  function FilesOf(p: Page): seq<FileMeta> {
    match p.files
    case None => []
    case Some(fs) => fs
  }

  /** The in-order concatenation of the entries of `pages`. */
  function Concat(pages: seq<Page>): seq<FileMeta> {
    if pages == [] then [] else FilesOf(pages[0]) + Concat(pages[1..])
  }

  /** `w'` differs from `w` only by listing requests appended to the trace. */
  predicate OnlyListing(w: World, w': World) {
    w'.parents == w.parents && w'.content == w.content && w'.sent == w.sent &&
    |w.trace| <= |w'.trace| && w'.trace[..|w.trace|] == w.trace &&
    forall i :: |w.trace| <= i < |w'.trace| ==> w'.trace[i].ListCall?
  }

  function PrependFiles(files: seq<FileMeta>, out: (Result<seq<FileMeta>>, World)): (Result<seq<FileMeta>>, World) {
    match out.0
    case Ok(more) => (Ok(files + more), out.1)
    case Err(_) => out
  }

  /** The listing loop from the store state `w`, whose next request carries
      `token`: request a page, keep its entries, and request again exactly when the
      page carried a `nextPageToken`. It only ever makes listing requests. */
  function ListFrom(o: Oracle, w: World, query: string, token: Option<string>): (out: (Result<seq<FileMeta>>, World))
    ensures OnlyListing(w, out.1)
    ensures w.served <= out.1.served
    ensures out.0.Err? ==> out.0.error == ListFailed
    decreases |o.pages| - w.served
  {
    var (res, w1) := ListStep(o, w, query, token);
    match res
    case Err(e) => (Err(e), w1)
    case Ok(page) =>
      if page.nextPageToken.None? then (Ok(FilesOf(page)), w1)
      else PrependFiles(FilesOf(page), ListFrom(o, w1, query, page.nextPageToken))
  }

  /** The `while True` loop of `main`: extend `files` with each page's entries and
      follow `nextPageToken` until a page comes back without one. */
  method ListFiles(r: Remote, query: string) returns (res: Result<seq<FileMeta>>)
    modifies r
    ensures (res, r.State()) == ListFrom(r.oracle, old(r.State()), query, None)
  {
    ghost var w0 := r.State();
    var files: seq<FileMeta> := [];
    var pageToken: Option<string> := None;
    assert forall more: seq<FileMeta> :: files + more == more;
    while true
      invariant ListFrom(r.oracle, w0, query, None) == PrependFiles(files, ListFrom(r.oracle, r.State(), query, pageToken))
      decreases |r.oracle.pages| - r.served
    {
      ghost var before := r.State();
      ghost var tokenBefore := pageToken;
      var results := r.ListPage(query, pageToken);
      if results.Err? {
        res := Err(results.error);
        return;
      }
      var page := results.value;
      ghost var earlier := files;
      files := files + FilesOf(page);
      pageToken := page.nextPageToken;
      if pageToken.None? {
        break;
      }
      var rest := ListFrom(r.oracle, r.State(), query, pageToken);
      assert ListFrom(r.oracle, before, query, tokenBefore) == PrependFiles(FilesOf(page), rest);
      if rest.0.Ok? {
        assert files + rest.0.value == earlier + (FilesOf(page) + rest.0.value);
      }
    }
    res := Ok(files);
  }

  // ---------------------------------------------------------------------------
  // Download (download_file) and mail (email_file_as_attachment)
  // ---------------------------------------------------------------------------

  /** The chunk requests a download of `size` bytes makes from `offset` on: one at
      `offset`, then one every ChunkSize bytes while bytes remain. */
  function ChunkCalls(id: FileId, offset: nat, size: nat): seq<Call>
    decreases size - offset
  {
    [ChunkCall(id, offset)] + (if offset + ChunkSize >= size then [] else ChunkCalls(id, offset + ChunkSize, size))
  }

  /** The chunk requests still to come: none once the download is done. */
  function Remaining(id: FileId, offset: nat, size: nat, done: bool): seq<Call> {
    if done then [] else ChunkCalls(id, offset, size)
  }

  /** One chunk from `offset` extends the bytes received so far and moves the
      request it answers from the remaining requests to the requests made. */
  lemma ChunkAdvance(c: Bytes, id: FileId, offset: nat, calls: seq<Call>)
    requires offset <= |c|
    ensures var hi := Min(offset + ChunkSize, |c|);
      c[..offset] + c[offset..hi] == c[..hi] &&
      (calls + [ChunkCall(id, offset)]) + Remaining(id, hi, |c|, hi == |c|) == calls + Remaining(id, offset, |c|, false)
  {
  }

  /** A whole download: the file's full content, or the error of its first chunk. */
  function FetchSpec(o: Oracle, w: World, id: FileId): (Result<Bytes>, World) {
    if id !in w.content || id in o.failingDownloads
    then (Err(DownloadFailed(id)), w.(trace := w.trace + [ChunkCall(id, 0)]))
    else (Ok(w.content[id]), w.(trace := w.trace + ChunkCalls(id, 0, |w.content[id]|)))
  }

  /** `download_file`: download the file, then mail exactly the bytes downloaded. */
  function DownloadSpec(o: Oracle, cfg: Config, w: World, meta: FileMeta): (Result<()>, World) {
    var (fetched, w1) := FetchSpec(o, w, meta.id);
    match fetched
    case Err(e) => (Err(e), w1)
    case Ok(bytes) => SendStep(o, w1, ComposeMessage(cfg, meta, bytes))
  }

  /** `email_file_as_attachment`: compose the message and send it in one SMTP session. */
  method EmailFileAsAttachment(r: Remote, cfg: Config, meta: FileMeta, fileBytes: Bytes) returns (res: Result<()>)
    modifies r
    ensures (res, r.State()) == SendStep(r.oracle, old(r.State()), ComposeMessage(cfg, meta, fileBytes))
  {
    var message := ComposeMessage(cfg, meta, fileBytes);
    res := r.Send(message);
  }

  /** The first half of `download_file`: request chunks until the downloader
      reports `done`, appending each to the buffer. */
  method FetchContent(r: Remote, id: FileId) returns (res: Result<Bytes>)
    modifies r
    ensures (res, r.State()) == FetchSpec(r.oracle, old(r.State()), id)
  {
    ghost var w0 := r.State();
    ghost var good := id in w0.content && id !in r.oracle.failingDownloads;
    ghost var c: Bytes := if id in w0.content then w0.content[id] else [];
    ghost var calls: seq<Call> := [];
    var fileBytes: Bytes := [];
    var progress: nat := 0;
    var done := false;
    while !done
      invariant r.State() == w0.(trace := w0.trace + calls)
      invariant !good ==> !done && progress == 0 && calls == []
      invariant good ==> progress <= |c| && fileBytes == c[..progress]
      invariant good ==> calls + Remaining(id, progress, |c|, done) == ChunkCalls(id, 0, |c|)
      invariant done ==> progress == |c|
      decreases |c| - progress + (if done then 0 else 1)
    {
      if good {
        ChunkAdvance(c, id, progress, calls);
      }
      var status := r.NextChunk(id, progress);
      calls := calls + [ChunkCall(id, progress)];
      if status.Err? {
        res := Err(status.error);
        return;
      }
      fileBytes := fileBytes + status.value.data;
      progress := progress + |status.value.data|;
      done := status.value.done;
    }
    assert fileBytes == c && calls + [] == calls;
    res := Ok(fileBytes);
  }

  /** `download_file`: download the whole file, then hand the whole buffer to the
      mailer. */
  method DownloadFile(r: Remote, cfg: Config, meta: FileMeta) returns (res: Result<()>)
    modifies r
    ensures (res, r.State()) == DownloadSpec(r.oracle, cfg, old(r.State()), meta)
  {
    var fetched := FetchContent(r, meta.id);
    if fetched.Err? {
      res := Err(fetched.error);
      return;
    }
    // The temporary file receives the buffer and is read back from its start.
    var fileBytes := fetched.value;
    res := EmailFileAsAttachment(r, cfg, meta, fileBytes);
  }

  // ---------------------------------------------------------------------------
  // Relocation (move_file)
  // ---------------------------------------------------------------------------

  /** `move_file`: read the file's parents, then one update that adds `dest` and
      removes exactly the parents read. A response without parents makes the
      join fail before any update is sent. */
  function MoveSpec(w: World, id: FileId, dest: FolderId): (Result<()>, World) {
    var (got, w1) := GetParentsStep(w, id);
    match got
    case Err(e) => (Err(e), w1)
    case Ok(None) => (Err(NoParentsField(id)), w1)
    case Ok(Some(previous)) => UpdateStep(w1, id, dest, previous)
  }

  method MoveFile(r: Remote, meta: FileMeta, dest: FolderId) returns (res: Result<()>)
    modifies r
    ensures (res, r.State()) == MoveSpec(old(r.State()), meta.id, dest)
  {
    var file := r.GetParents(meta.id);
    if file.Err? {
      res := Err(file.error);
      return;
    }
    if file.value.None? {
      res := Err(NoParentsField(meta.id));
      return;
    }
    var previousParents := file.value.value;
    res := r.UpdateParents(meta.id, dest, previousParents);
  }

  // ---------------------------------------------------------------------------
  // The batch (process_files) and the run (main)
  // ---------------------------------------------------------------------------

  /** One iteration of `process_files`: download and mail, then move; the move is
      reached only when the download and the send returned. */
  function RelayFileSpec(o: Oracle, cfg: Config, w: World, meta: FileMeta): (Result<()>, World) {
    var (sent, w1) := DownloadSpec(o, cfg, w, meta);
    if sent.Err? then (sent, w1) else MoveSpec(w1, meta.id, cfg.sentFolderId)
  }

  /** `process_files`: the files in list order; the first error escapes the loop. */
  function ProcessSpec(o: Oracle, cfg: Config, w: World, files: seq<FileMeta>): (Result<()>, World)
    decreases |files|
  {
    if files == [] then (Ok(()), w)
    else
      var (first, w1) := RelayFileSpec(o, cfg, w, files[0]);
      if first.Err? then (first, w1) else ProcessSpec(o, cfg, w1, files[1..])
  }

  method ProcessFiles(r: Remote, cfg: Config, files: seq<FileMeta>) returns (res: Result<()>)
    modifies r
    ensures (res, r.State()) == ProcessSpec(r.oracle, cfg, old(r.State()), files)
  {
    ghost var w0 := r.State();
    for i := 0 to |files|
      invariant ProcessSpec(r.oracle, cfg, w0, files) == ProcessSpec(r.oracle, cfg, r.State(), files[i..])
    {
      assert files[i..][1..] == files[i + 1..];
      res := DownloadFile(r, cfg, files[i]);
      if res.Err? {
        return;
      }
      res := MoveFile(r, files[i], cfg.sentFolderId);
      if res.Err? {
        return;
      }
    }
    res := Ok(());
  }

  /** The search query `main` sends for the configured folder and type. */
  function ConfiguredQuery(cfg: Config): string {
    Query(cfg.unsentFolderId, cfg.mimeMainType, cfg.mimeSubType)
  }

  /** `main`: without a credentials file, exit 1 before any request; otherwise list,
      exit 0 when nothing matched, else process the files; an error from the
      listing or the batch escapes as an uncaught exception. */
  function RunSpec(o: Oracle, cfg: Config, credentialFileExists: bool, w: World): (Outcome, World) {
    if !credentialFileExists then (Exited(1), w)
    else
      var (listed, w1) := ListFrom(o, w, ConfiguredQuery(cfg), None);
      match listed
      case Err(e) => (Raised(e), w1)
      case Ok(files) =>
        if files == [] then (Exited(0), w1)
        else
          var (processed, w2) := ProcessSpec(o, cfg, w1, files);
          if processed.Err? then (Raised(processed.error), w2) else (Finished, w2)
  }

  method Run(r: Remote, cfg: Config, credentialFileExists: bool) returns (outcome: Outcome)
    modifies r
    ensures (outcome, r.State()) == RunSpec(r.oracle, cfg, credentialFileExists, old(r.State()))
  {
    if !credentialFileExists {
      outcome := Exited(1);
      return;
    }
    var query := ConfiguredQuery(cfg);
    var listed := ListFiles(r, query);
    if listed.Err? {
      outcome := Raised(listed.error);
      return;
    }
    var files := listed.value;
    if files == [] {
      outcome := Exited(0);
      return;
    }
    var processed := ProcessFiles(r, cfg, files);
    if processed.Err? {
      outcome := Raised(processed.error);
      return;
    }
    outcome := Finished;
  }
}
