/** The two remote services the script talks to, as abstract state: the Drive
    file store (parent folders and content of each file, plus the listing it
    serves) and the mail transport (the log of messages it accepted). Every request
    either service receives is appended to one trace, so that the order of
    requests across services can be stated. */
module Store {
  import opened Types

  /** Chunk size of the media downloader (the client library's default, 100 MiB). */
  const ChunkSize: nat := 100 * 1024 * 1024

  /** Everything a run can observe or change at the remote end. */
  datatype World = World(
    served: nat,                           // listing pages handed out so far
    parents: map<FileId, set<FolderId>>,   // parent folders of each stored file
    content: map<FileId, Bytes>,           // content of each stored file
    sent: seq<Message>,                    // messages the transport accepted, in order
    trace: seq<Call>)                      // every request made, in order

  /** What the remote end will answer, fixed before the run: the listing pages in
      the order they are served, the files whose download fails, and the messages
      the transport refuses (connection, TLS, login or delivery failure). */
  datatype Oracle = Oracle(pages: seq<Page>, failingDownloads: set<FileId>, refusedMessages: set<Message>)

  /** One answer of the media downloader: the bytes received and whether the
      download is now complete. */
  datatype Chunk = Chunk(data: Bytes, done: bool)

  function Min(a: int, b: int): int { if a <= b then a else b }

  /** `files().list(q, pageToken).execute()`: the next page of the listing, or an
      HTTP error when the store has no further page to serve. */
  function ListStep(o: Oracle, w: World, query: string, token: Option<string>): (Result<Page>, World) {
    var w1 := w.(trace := w.trace + [ListCall(query, token)]);
    if w.served < |o.pages| then (Ok(o.pages[w.served]), w1.(served := w.served + 1))
    else (Err(ListFailed), w1)
  }

  /** `next_chunk()` of a media download at `offset`: at most ChunkSize bytes from
      there; the download is done once the bytes received reach the file's size. */
  function ChunkStep(o: Oracle, w: World, id: FileId, offset: nat): (Result<Chunk>, World) {
    var w1 := w.(trace := w.trace + [ChunkCall(id, offset)]);
    if id !in w.content || id in o.failingDownloads then (Err(DownloadFailed(id)), w1)
    else
      var c := w.content[id];
      var lo := Min(offset, |c|);
      var hi := Min(offset + ChunkSize, |c|);
      (Ok(Chunk(c[lo..hi], hi == |c|)), w1)
  }

  /** One SMTP session that sends `m`: accepted and logged, or refused. */
  function SendStep(o: Oracle, w: World, m: Message): (Result<()>, World) {
    var w1 := w.(trace := w.trace + [SendCall(m)]);
    if m in o.refusedMessages then (Err(SendFailed(m.subject)), w1)
    else (Ok(()), w1.(sent := w.sent + [m]))
  }

  /** `files().get(fileId, fields='parents').execute()`: the file's parent set, or
      None when the response carries no `parents` field (the file has none). */
  function GetParentsStep(w: World, id: FileId): (Result<Option<set<FolderId>>>, World) {
    var w1 := w.(trace := w.trace + [GetParentsCall(id)]);
    if id !in w.parents then (Err(FileNotFound(id)), w1)
    else if w.parents[id] == {} then (Ok(None), w1)
    else (Ok(Some(w.parents[id])), w1)
  }

  /** `files().update(fileId, addParents, removeParents).execute()`: the listed
      parents are removed, then the added one is inserted; no other file changes. */
  function UpdateStep(w: World, id: FileId, add: FolderId, remove: set<FolderId>): (Result<()>, World) {
    var w1 := w.(trace := w.trace + [UpdateCall(id, add, remove)]);
    if id !in w.parents then (Err(FileNotFound(id)), w1)
    else (Ok(()), w1.(parents := w.parents[id := (w.parents[id] - remove) + {add}]))
  }

  /** The remote services as one object whose state every request updates. Each
      method performs one request and is proved equal to its step function above:
      the methods let the relay's loops be written imperatively, and the step
      functions let the properties of a whole run be stated on values. */
  class Remote {
    const oracle: Oracle
    var served: nat
    var parents: map<FileId, set<FolderId>>
    var content: map<FileId, Bytes>
    var sent: seq<Message>
    var trace: seq<Call>

    function State(): World
      reads this
    {
      World(served, parents, content, sent, trace)
    }

    constructor (o: Oracle, initialParents: map<FileId, set<FolderId>>, initialContent: map<FileId, Bytes>)
      ensures oracle == o
      ensures State() == World(0, initialParents, initialContent, [], [])
    {
      oracle := o;
      served := 0;
      parents := initialParents;
      content := initialContent;
      sent := [];
      trace := [];
    }

    method ListPage(query: string, token: Option<string>) returns (res: Result<Page>)
      modifies this
      ensures (res, State()) == ListStep(oracle, old(State()), query, token)
    {
      trace := trace + [ListCall(query, token)];
      if served < |oracle.pages| {
        res := Ok(oracle.pages[served]);
        served := served + 1;
      } else {
        res := Err(ListFailed);
      }
    }

    method NextChunk(id: FileId, offset: nat) returns (res: Result<Chunk>)
      modifies this
      ensures (res, State()) == ChunkStep(oracle, old(State()), id, offset)
    {
      trace := trace + [ChunkCall(id, offset)];
      if id !in content || id in oracle.failingDownloads {
        res := Err(DownloadFailed(id));
      } else {
        var c := content[id];
        var lo := Min(offset, |c|);
        var hi := Min(offset + ChunkSize, |c|);
        res := Ok(Chunk(c[lo..hi], hi == |c|));
      }
    }

    method Send(m: Message) returns (res: Result<()>)
      modifies this
      ensures (res, State()) == SendStep(oracle, old(State()), m)
    {
      trace := trace + [SendCall(m)];
      if m in oracle.refusedMessages {
        res := Err(SendFailed(m.subject));
      } else {
        res := Ok(());
        sent := sent + [m];
      }
    }

    method GetParents(id: FileId) returns (res: Result<Option<set<FolderId>>>)
      modifies this
      ensures (res, State()) == GetParentsStep(old(State()), id)
    {
      trace := trace + [GetParentsCall(id)];
      if id !in parents {
        res := Err(FileNotFound(id));
      } else if parents[id] == {} {
        res := Ok(None);
      } else {
        res := Ok(Some(parents[id]));
      }
    }

    method UpdateParents(id: FileId, add: FolderId, remove: set<FolderId>) returns (res: Result<()>)
      modifies this
      ensures (res, State()) == UpdateStep(old(State()), id, add, remove)
    {
      trace := trace + [UpdateCall(id, add, remove)];
      if id !in parents {
        res := Err(FileNotFound(id));
      } else {
        res := Ok(());
        parents := parents[id := (parents[id] - remove) + {add}];
      }
    }
  }
}
