/** What the relay promises, stated over the specification functions of module
    Relay (which the methods there are proved to implement). */
module RelayProperties {
  import opened Types
  import opened Mime
  import opened Store
  import opened Relay

  // ---------------------------------------------------------------------------
  // Listing
  // ---------------------------------------------------------------------------

  /** The request the listing loop makes `j` requests after starting from `token`:
      the first carries `token`, each later one the token of the page before it. */
  function RequestAt(o: Oracle, w: World, query: string, token: Option<string>, j: nat): Call {
    if j == 0 || w.served + j - 1 >= |o.pages| then ListCall(query, token)
    else ListCall(query, o.pages[w.served + j - 1].nextPageToken)
  }

  /** A listing that succeeds returns exactly the in-order concatenation of the
      pages it was served; a page without `files` adds nothing. */
  lemma {:induction false} ListingIsConcatenation(o: Oracle, w: World, query: string, token: Option<string>)
    requires ListFrom(o, w, query, token).0.Ok?
    ensures var out := ListFrom(o, w, query, token);
      w.served < out.1.served <= |o.pages| &&
      out.0.value == Concat(o.pages[w.served..out.1.served])
    decreases |o.pages| - w.served
  {
    var (res, w1) := ListStep(o, w, query, token);
    var page := res.value;
    if page.nextPageToken.Some? {
      ListingIsConcatenation(o, w1, query, page.nextPageToken);
      var out := ListFrom(o, w1, query, page.nextPageToken);
      var served := o.pages[w.served..out.1.served];
      assert served[1..] == o.pages[w1.served..out.1.served];
      assert Concat(served) == FilesOf(page) + Concat(served[1..]);
    } else {
      assert o.pages[w.served..w1.served] == [page];
      assert Concat([page]) == FilesOf(page) + Concat([]);
    }
  }

  /** A listing that succeeds made one request per page served, requested again
      after every page that carried a `nextPageToken`, and stopped at the first
      page without one. */
  lemma {:induction false} ListingStopsAtFirstMissingToken(o: Oracle, w: World, query: string, token: Option<string>)
    requires ListFrom(o, w, query, token).0.Ok?
    ensures var out := ListFrom(o, w, query, token);
      w.served < out.1.served <= |o.pages| &&
      o.pages[out.1.served - 1].nextPageToken.None? &&
      (forall j :: w.served <= j < out.1.served - 1 ==> o.pages[j].nextPageToken.Some?) &&
      |out.1.trace| == |w.trace| + (out.1.served - w.served)
    decreases |o.pages| - w.served
  {
    var (res, w1) := ListStep(o, w, query, token);
    var page := res.value;
    if page.nextPageToken.Some? {
      ListingStopsAtFirstMissingToken(o, w1, query, page.nextPageToken);
    }
  }

  /** Each request of a successful listing carries the token of the page before it;
      the first carries the starting token. */
  lemma {:induction false} ListingRequestTokens(o: Oracle, w: World, query: string, token: Option<string>)
    requires ListFrom(o, w, query, token).0.Ok?
    ensures var out := ListFrom(o, w, query, token);
      forall j :: 0 <= j < |out.1.trace| - |w.trace| ==> out.1.trace[|w.trace| + j] == RequestAt(o, w, query, token, j)
    decreases |o.pages| - w.served
  {
    ListingStopsAtFirstMissingToken(o, w, query, token);
    var (res, w1) := ListStep(o, w, query, token);
    var page := res.value;
    if page.nextPageToken.Some? {
      var token1 := page.nextPageToken;
      ListingRequestTokens(o, w1, query, token1);
      var out := ListFrom(o, w1, query, token1);
      assert ListFrom(o, w, query, token).1 == out.1;
      forall j | 0 <= j < |out.1.trace| - |w.trace|
        ensures out.1.trace[|w.trace| + j] == RequestAt(o, w, query, token, j)
      {
        if j > 0 {
          assert out.1.trace[|w1.trace| + (j - 1)] == RequestAt(o, w1, query, token1, j - 1);
        } else {
          assert out.1.trace[..|w1.trace|] == w1.trace;
        }
      }
    }
  }

  /** A listing whose pages from `i` on all carry a token except the last. */
  predicate WellFormedFrom(pages: seq<Page>, i: nat) {
    i < |pages| && pages[|pages| - 1].nextPageToken.None? &&
    forall j :: i <= j < |pages| - 1 ==> pages[j].nextPageToken.Some?
  }

  /** Over a well-formed listing, the loop succeeds, returns every page's entries
      in order and makes exactly one request per page. */
  lemma {:induction false} WellFormedListing(o: Oracle, w: World, query: string, token: Option<string>)
    requires WellFormedFrom(o.pages, w.served)
    ensures var out := ListFrom(o, w, query, token);
      out.0 == Ok(Concat(o.pages[w.served..])) &&
      out.1.served == |o.pages| &&
      |out.1.trace| == |w.trace| + (|o.pages| - w.served)
    decreases |o.pages| - w.served
  {
    var (res, w1) := ListStep(o, w, query, token);
    var page := o.pages[w.served];
    if w.served == |o.pages| - 1 {
      assert o.pages[w.served..] == [page];
      assert Concat([page]) == FilesOf(page) + Concat([]);
      assert FilesOf(page) + [] == FilesOf(page);
      assert ListFrom(o, w, query, token) == (Ok(FilesOf(page)), w1);
    } else {
      WellFormedListing(o, w1, query, page.nextPageToken);
      var rest := o.pages[w.served..];
      assert rest[1..] == o.pages[w1.served..];
      assert Concat(rest) == FilesOf(page) + Concat(rest[1..]);
    }
  }

  // ---------------------------------------------------------------------------
  // One file
  // ---------------------------------------------------------------------------

  /** A move succeeds exactly when the file exists and has parents; it then leaves
      the destination as the file's only parent and changes no other file. A failed
      move changes no parents. */
  lemma MoveReparents(w: World, id: FileId, dest: FolderId)
    ensures var (res, w') := MoveSpec(w, id, dest);
      w'.served == w.served && w'.content == w.content && w'.sent == w.sent &&
      (res.Ok? <==> id in w.parents && w.parents[id] != {}) &&
      (res.Ok? ==> w'.parents == w.parents[id := {dest}] &&
                   w'.trace == w.trace + [GetParentsCall(id), UpdateCall(id, dest, w.parents[id])]) &&
      (res.Err? ==> w'.parents == w.parents && w'.trace == w.trace + [GetParentsCall(id)])
  {
    if id in w.parents && w.parents[id] != {} {
      assert (w.parents[id] - w.parents[id]) + {dest} == {dest};
    }
  }

  /** Every way one iteration of `process_files` can end: the download fails on its
      first chunk; or every chunk arrives and the message carrying the whole content
      is refused; or it is accepted and the move follows it. Parents change only in
      the last case, and only to the destination alone. */
  lemma RelayFileSteps(o: Oracle, cfg: Config, w: World, meta: FileMeta)
    ensures var (res, w') := RelayFileSpec(o, cfg, w, meta);
      var id := meta.id;
      var dest := cfg.sentFolderId;
      w'.served == w.served && w'.content == w.content &&
      if id !in w.content || id in o.failingDownloads then
        res == Err(DownloadFailed(id)) && w' == w.(trace := w.trace + [ChunkCall(id, 0)])
      else
        var m := ComposeMessage(cfg, meta, w.content[id]);
        var mailed := w.trace + ChunkCalls(id, 0, |w.content[id]|) + [SendCall(m)];
        if m in o.refusedMessages then
          res == Err(SendFailed(meta.name)) && w' == w.(trace := mailed)
        else
          w'.sent == w.sent + [m] &&
          (res.Ok? <==> id in w.parents && w.parents[id] != {}) &&
          (res.Ok? ==> w'.parents == w.parents[id := {dest}] &&
                       w'.trace == mailed + [GetParentsCall(id), UpdateCall(id, dest, w.parents[id])]) &&
          (res.Err? ==> w'.parents == w.parents && w'.trace == mailed + [GetParentsCall(id)])
  {
    var (d, w1) := DownloadSpec(o, cfg, w, meta);
    MoveReparents(w1, meta.id, cfg.sentFolderId);
  }

  // ---------------------------------------------------------------------------
  // The batch
  // ---------------------------------------------------------------------------

  function IdsOf(files: seq<FileMeta>): set<FileId> {
    set f | f in files :: f.id
  }

  /** The messages a fully successful batch sends, in list order. */
  function Messages(cfg: Config, files: seq<FileMeta>, content: map<FileId, Bytes>): seq<Message> {
    if files == [] then []
    else
      (if files[0].id in content then [ComposeMessage(cfg, files[0], content[files[0].id])] else [])
      + Messages(cfg, files[1..], content)
  }

  /** A batch that completes mailed every file, in list order, with its whole
      content. */
  lemma {:induction false} ProcessMailsInOrder(o: Oracle, cfg: Config, w: World, files: seq<FileMeta>)
    requires ProcessSpec(o, cfg, w, files).0.Ok?
    ensures var w' := ProcessSpec(o, cfg, w, files).1;
      w'.content == w.content &&
      (forall f :: f in files ==> f.id in w.content) &&
      w'.sent == w.sent + Messages(cfg, files, w.content)
    decreases |files|
  {
    if files != [] {
      var (first, w1) := RelayFileSpec(o, cfg, w, files[0]);
      RelayFileSteps(o, cfg, w, files[0]);
      ProcessMailsInOrder(o, cfg, w1, files[1..]);
      assert forall f :: f in files ==> f == files[0] || f in files[1..];
    }
  }

  /** A batch that completes left every listed file with the destination as its
      only parent and changed no other file. */
  lemma {:induction false} ProcessMovesEveryFile(o: Oracle, cfg: Config, w: World, files: seq<FileMeta>)
    requires ProcessSpec(o, cfg, w, files).0.Ok?
    ensures var w' := ProcessSpec(o, cfg, w, files).1;
      w'.parents.Keys == w.parents.Keys &&
      (forall f :: f in files ==> f.id in w'.parents && w'.parents[f.id] == {cfg.sentFolderId}) &&
      (forall id :: id in w.parents && id !in IdsOf(files) ==> w'.parents[id] == w.parents[id])
    decreases |files|
  {
    if files != [] {
      var (first, w1) := RelayFileSpec(o, cfg, w, files[0]);
      RelayFileSteps(o, cfg, w, files[0]);
      ProcessMovesEveryFile(o, cfg, w1, files[1..]);
      var w' := ProcessSpec(o, cfg, w, files).1;
      assert w' == ProcessSpec(o, cfg, w1, files[1..]).1;
      forall f | f in files
        ensures f.id in w'.parents && w'.parents[f.id] == {cfg.sentFolderId}
      {
        if f != files[0] {
          assert f in files[1..];
        } else if f.id !in IdsOf(files[1..]) {
          assert w'.parents[f.id] == w1.parents[f.id];
        }
      }
      assert IdsOf(files[1..]) <= IdsOf(files) by {
        assert forall f :: f in files[1..] ==> f in files;
      }
      assert files[0].id in IdsOf(files);
    }
  }

  /** The batch stopped at file `k`: the files before it completed, file `k` failed,
      and the batch's result and final state are those of file `k`'s failed
      attempt, so no later file was downloaded, mailed or moved. */
  ghost predicate FailsAt(o: Oracle, cfg: Config, w: World, files: seq<FileMeta>, k: nat)
    requires k < |files|
  {
    var before := ProcessSpec(o, cfg, w, files[..k]);
    before.0.Ok? &&
    RelayFileSpec(o, cfg, before.1, files[k]).0.Err? &&
    ProcessSpec(o, cfg, w, files) == RelayFileSpec(o, cfg, before.1, files[k]) &&
    ProcessSpec(o, cfg, w, files).1.parents == before.1.parents
  }

  /** A batch that fails stopped at its first failing file; the failing file's
      parents, like every file's, are as the earlier files left them. */
  lemma {:induction false} ProcessAbortsAtFirstFailure(o: Oracle, cfg: Config, w: World, files: seq<FileMeta>)
    requires ProcessSpec(o, cfg, w, files).0.Err?
    ensures exists k :: 0 <= k < |files| && FailsAt(o, cfg, w, files, k)
    decreases |files|
  {
    var (first, w1) := RelayFileSpec(o, cfg, w, files[0]);
    RelayFileSteps(o, cfg, w, files[0]);
    if first.Err? {
      assert files[..0] == [];
      assert FailsAt(o, cfg, w, files, 0);
    } else {
      ProcessAbortsAtFirstFailure(o, cfg, w1, files[1..]);
      var k :| 0 <= k < |files[1..]| && FailsAt(o, cfg, w1, files[1..], k);
      assert files[..k + 1][1..] == files[1..][..k];
      assert files[..k + 1][0] == files[0];
      assert FailsAt(o, cfg, w, files, k + 1);
    }
  }

  /** After a batch stopped at file `k`, the earlier files sit in the destination
      alone, and file `k`, when no earlier entry named it, keeps the parents it had
      before the run. */
  lemma AbortedBatchState(o: Oracle, cfg: Config, w: World, files: seq<FileMeta>, k: nat)
    requires k < |files| && FailsAt(o, cfg, w, files, k)
    ensures var w' := ProcessSpec(o, cfg, w, files).1;
      (forall f :: f in files[..k] ==> f.id in w'.parents && w'.parents[f.id] == {cfg.sentFolderId}) &&
      (files[k].id in w.parents && files[k].id !in IdsOf(files[..k]) ==>
         files[k].id in w'.parents && w'.parents[files[k].id] == w.parents[files[k].id])
  {
    ProcessMovesEveryFile(o, cfg, w, files[..k]);
  }

  // ---------------------------------------------------------------------------
  // The run
  // ---------------------------------------------------------------------------

  /** Without a credentials file the run exits 1 having made no request; when a
      listing request fails the error escapes before any file is touched; when the
      listing comes back empty it exits 0 having made listing requests only; when it
      finishes, every listed file was mailed in order with its whole content and
      now sits in the destination folder alone. */
  lemma RunOutcomes(o: Oracle, cfg: Config, credentialFileExists: bool, w: World)
    ensures !credentialFileExists ==> RunSpec(o, cfg, credentialFileExists, w) == (Exited(1), w)
    ensures var (outcome, w') := RunSpec(o, cfg, credentialFileExists, w);
      var listed := ListFrom(o, w, ConfiguredQuery(cfg), None).0;
      (credentialFileExists && listed.Err? ==> outcome == Raised(ListFailed) && OnlyListing(w, w')) &&
      (credentialFileExists && listed == Ok([]) ==> outcome == Exited(0) && OnlyListing(w, w')) &&
      (outcome.Finished? ==>
         listed.Ok? && listed.value != [] &&
         w'.sent == w.sent + Messages(cfg, listed.value, w.content) &&
         (forall f :: f in listed.value ==> f.id in w'.parents && w'.parents[f.id] == {cfg.sentFolderId}))
  {
    if credentialFileExists {
      var (listed, w1) := ListFrom(o, w, ConfiguredQuery(cfg), None);
      if listed.Ok? && listed.value != [] && ProcessSpec(o, cfg, w1, listed.value).0.Ok? {
        ProcessMailsInOrder(o, cfg, w1, listed.value);
        ProcessMovesEveryFile(o, cfg, w1, listed.value);
      }
    }
  }
}
