# gdrive-to-email relay, modelled in Dafny

The script `gdrive-to-email.py` is a batch relay between Google Drive and an SMTP
server. One run lists every file of a MIME type in a "pending" folder, following
result pages until no `nextPageToken` comes back. It exits 0 if nothing matched.
Otherwise, for each listed file in order, it downloads the file chunk by chunk,
mails it as the single attachment of a message, and moves it to the "sent" folder
by reading its parents and issuing one update that adds the destination and
removes exactly the parents read. Nothing catches an exception, so the first
failing download, send or move ends the run.

This project models that orchestration against abstract remote state:

- `types.dfy` (module `Types`): configuration, listing pages, file metadata,
  the composed message, the remote calls, errors and run outcomes.
- `mime.dfy` (module `Mime`): the search query, the message fields and the
  Content-Disposition header, with readers for the query and the header.
- `store.dfy` (module `Store`): the Drive store and the mail transport as one
  `World` value (parent sets, contents, listing cursor, sent log, call trace).
  Each remote request is a step function. Class `Remote` holds that state in
  fields, and its methods are proved equal to the step functions. Failures come
  from an `Oracle`: the pages the listing serves, the files whose download fails,
  and the messages the transport refuses.
- `relay.dfy` (module `Relay`): the script's functions as imperative methods
  (`ListFiles`, `FetchContent`, `DownloadFile`, `EmailFileAsAttachment`, `MoveFile`,
  `ProcessFiles`, `Run`). Each is proved equal to a specification function on
  `World` values (`ListFrom`, `FetchSpec`, `DownloadSpec`, `MoveSpec`, `ProcessSpec`,
  `RunSpec`). `FetchContent` is the chunk loop at the start of `download_file`.
- `properties.dfy` (module `RelayProperties`): what those functions promise.
- `scenario.dfy` (module `Scenario`): three files A, B, C where B's message is
  refused.

### What the script does when a file fails

- The script records no per-file result and does not go on after a failure. It
  has no `try`/`except`, so the first failing download, send or move escapes
  `process_files`, and the run ends with an uncaught exception (exit status 1).
  Earlier files stay moved, and later files are never touched.
  `ProcessAbortsAtFirstFailure`, `AbortedBatchState` and
  `Scenario.SecondSendRefused` state this. With three files A, B, C where B's
  message is refused, C stays in the pending folder.
- A failed move after a successful send is not reported in a separate way. It
  escapes like any other error.
- A failed listing request escapes before any file is downloaded.

### Unescaped values

The script escapes neither the attachment file name nor the query values.
`FilenameRoundTrip` proves that a literal reader, one that takes the parameter
value up to the first `;`, CR or LF, reads the name back exactly when it holds
none of these. `QueryRoundTrip` proves that the folder id and MIME type are read
back exactly when they hold no single quote and no backslash, the character that
begins an escape in Drive's query language.

## Model

| member | source | states |
|---|---|---|
| `Mime.QueryRoundTrip` | gdrive-to-email.py:34 | the query names the configured folder and `main/sub` type and reads back to exactly them, if and only if neither holds a single quote or a backslash |
| `Mime.FilenameRoundTrip` | gdrive-to-email.py:180-183 | the filename parameter of the Content-Disposition value, read literally up to the first `;` or line break, is the file name exactly, if and only if the name holds no `;`, CR or LF |
| `Store.Remote.ListPage` | gdrive-to-email.py:39-43 | one listing request is traced and returns the next page served, or fails when no page is left |
| `Store.Remote.NextChunk` | gdrive-to-email.py:148 | one chunk request is traced and returns up to the downloader's chunk size from the offset, with `done` once the whole size is reached; an unknown or failing file raises |
| `Store.Remote.Send` | gdrive-to-email.py:186-189 | one SMTP session is traced and either appends the message to the sent log or raises |
| `Store.Remote.GetParents` | gdrive-to-email.py:206 | the parents request is traced and returns the file's parent set, nothing when it has none, or raises for an unknown file |
| `Store.Remote.UpdateParents` | gdrive-to-email.py:210-215 | the update is traced, removes the listed parents, then adds the destination, and changes no other file |
| `Relay.ListFrom` | gdrive-to-email.py:36-47 | the listing loop makes only listing requests: parents, contents and the sent log are unchanged, and its only error is a failed page |
| `Relay.ListFiles` | gdrive-to-email.py:36-47 | the `while True` loop returns, and leaves the store in, exactly what `ListFrom` gives from the first request (no token) |
| `Relay.EmailFileAsAttachment` | gdrive-to-email.py:157-189 | sends the message built from the configured addresses and type, the file name as subject and header filename, the fixed body and exactly the given bytes |
| `Relay.FetchContent` | gdrive-to-email.py:142-149 | requests chunks from offset 0 in chunk-size steps until `done` and returns exactly the whole content; a failing first chunk raises after that one request |
| `Relay.DownloadFile` | gdrive-to-email.py:131-154 | downloads the file, then mails exactly the downloaded bytes; a failed download raises with nothing mailed |
| `Relay.MoveFile` | gdrive-to-email.py:193-217 | reads the parents, then sends one update that adds the destination and removes exactly the parents read; a file without parents raises before any update |
| `Relay.ProcessFiles` | gdrive-to-email.py:115-128 | the `for` loop equals `ProcessSpec`: files in list order, download and mail then move, and the first error ends the loop |
| `Relay.Run` | gdrive-to-email.py:31-53 | the run equals `RunSpec`: exit 1 without a credentials file, list, exit 0 on an empty list, else process; an escaping error ends the run as an uncaught exception |
| `RelayProperties.ListingIsConcatenation` | gdrive-to-email.py:36-47 | a successful listing returns the in-order concatenation of the pages served; a page without `files` adds nothing |
| `RelayProperties.ListingStopsAtFirstMissingToken` | gdrive-to-email.py:37-47 | a successful listing made one request per page served, requested again after every page with a `nextPageToken`, and stopped at the first page without one |
| `RelayProperties.ListingRequestTokens` | gdrive-to-email.py:37-47 | the first listing request carries no token, and each later request carries the `nextPageToken` of the page before it |
| `RelayProperties.WellFormedListing` | gdrive-to-email.py:37-47 | when every page but the last carries a token, the loop succeeds, returns all pages' entries in order, and makes exactly as many requests as there are pages |
| `RelayProperties.MoveReparents` | gdrive-to-email.py:206-215 | a move succeeds if and only if the file exists and has parents; the file is then in the destination alone and no other file changes; a failed move changes no parents |
| `RelayProperties.RelayFileSteps` | gdrive-to-email.py:126-128 | for one file, a failed download makes one chunk request and nothing else; otherwise the whole content is mailed and, only after the send returns, the move follows; parents change only on that path and only to the destination alone |
| `RelayProperties.ProcessMailsInOrder` | gdrive-to-email.py:126-128 | a completed batch mailed every listed file, in list order, with its whole content as the attachment |
| `RelayProperties.ProcessMovesEveryFile` | gdrive-to-email.py:126-128 | a completed batch left every listed file in the destination alone and changed no unlisted file |
| `RelayProperties.ProcessAbortsAtFirstFailure` | gdrive-to-email.py:126-128 | a failed batch stopped at some file k: the files before it completed, file k failed, and the final result and state are those of file k's failed attempt, so no later file was touched |
| `RelayProperties.AbortedBatchState` | gdrive-to-email.py:126-128 | after a batch stopped at file k, the earlier files are in the destination alone; file k, when its id is in the store and no earlier entry names the same id, keeps the parents it had before the run |
| `RelayProperties.RunOutcomes` | gdrive-to-email.py:31-53 | without a credentials file the run exits 1 having made no request; a failed listing raises `ListFailed` having made listing requests only; on an empty listing it exits 0 having made listing requests only; on completion every listed file was mailed in order and is in the destination alone |
| `Scenario.SecondSendRefused` | gdrive-to-email.py:126-128 | with A, B, C listed and B's message refused, the run raises; A is mailed and moved, B and C keep their pending parent, and the trace ends at B's send, so C is never downloaded |

## Left out

- Reading `.env` into globals (lines 60-95): the model takes an immutable `Config` record. A variable missing from the environment (`os.getenv` returning `None`) is not modelled.
- Building the Drive client and loading service-account credentials (lines 98-112): only the existence test of the credentials file is kept, as the boolean `credentialFileExists` given to `Run`.
- The SMTP session (connect, `starttls`, `login`, `send_message`, lines 186-189): one abstract `Send`. A refusal at any of these stages is a message in the oracle's refused set.
- MIME serialisation and base64 transfer encoding (lines 171-184): the message keeps only its field and header values and the raw attachment bytes.
- Logging, including the download percentage (lines 22-28, 149), which is floating point.
- The temporary file (lines 151-153): modelled as handing the downloaded buffer over unchanged.
- The comma-joining of parent ids (line 207): `removeParents` is the parent set itself.
- HTTP failures other than those modelled: a listing fails only when the store has no further page, a chunk request only for an unknown or failing file, and a parents read or update only for an unknown file. The store serves pages in order and does not check the token a request carries. The oracle holds finitely many pages, so a store that returns a `nextPageToken` on every page, on which the script's `while True` loop would never end, is modelled as a run that ends in `ListFailed` once the pages run out; `ListFiles`'s termination rests on this.
- Changes made by other parties during a run, such as another actor reparenting a file between the read and the update, or a file's content changing between chunks: the store changes only through the script's own requests.
- Mime.QueryRoundTrip: the equivalence is relative to a reader that ends each quoted value at the first single quote or backslash and rejects the query there. Drive's own parser, which reads `\'` and `\\` as escapes, is not part of this model.
- Mime.FilenameRoundTrip: the equivalence is relative to a literal reader that ends the value at the first `;`, CR or LF. A full MIME parser also strips surrounding spaces, removes enclosing double quotes and does not split at a `;` inside quotes, so it can read a different name. Such a parser is not part of this model.
- `ChunkSize` is the client library's default download chunk size of 100 MiB. The library itself is not part of this model.
