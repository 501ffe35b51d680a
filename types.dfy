/** Values exchanged between the relay script, the Drive store and the mail transport. */
module Types {

  datatype Option<+T> = None | Some(value: T)

  datatype Result<+T> = Ok(value: T) | Err(error: Error)

  newtype byte = x: int | 0 <= x < 256

  type Bytes = seq<byte>
  type FileId = string
  type FolderId = string

  /** The immutable configuration the script reads from its environment. */
  datatype Config = Config(
    credentialFilename: string,
    mimeMainType: string,
    mimeSubType: string,
    unsentFolderId: FolderId,
    sentFolderId: FolderId,
    senderEmail: string,
    receiverEmail: string,
    smtpServerHostname: string,
    smtpServerTlsPort: string,
    smtpServerSenderPassword: string)

  /** One entry of a listing page: the fields `id, name, parents` the script asks for. */
  datatype FileMeta = FileMeta(id: FileId, name: string, parents: seq<FolderId>)

  /** One page of a listing; either key may be absent from the response. */
  datatype Page = Page(files: Option<seq<FileMeta>>, nextPageToken: Option<string>)

  /** The attachment part: its MIME type, its payload before transfer encoding,
      and its Content-Disposition header value. */
  datatype Attachment = Attachment(mainType: string, subType: string, payload: Bytes, disposition: string)

  /** A composed multipart message: a plain-text body part and one attachment part. */
  datatype Message = Message(from: string, to: string, subject: string, body: string, attachment: Attachment)

  /** Every request made to a remote service, in the order made, whether or not it succeeded. */
  datatype Call =
    | ListCall(query: string, pageToken: Option<string>)
    | ChunkCall(id: FileId, offset: nat)
    | SendCall(msg: Message)
    | GetParentsCall(id: FileId)
    | UpdateCall(id: FileId, addParents: FolderId, removeParents: set<FolderId>)

  /** The exceptions that can escape a step; the script catches none of them. */
  datatype Error =
    | ListFailed
    | DownloadFailed(id: FileId)
    | SendFailed(subject: string)
    | FileNotFound(id: FileId)
    | NoParentsField(id: FileId)

  /** How a run of the script ends: an explicit `exit(code)`, a normal return
      (status 0), or an uncaught exception (status 1, with a traceback). */
  datatype Outcome = Exited(code: int) | Finished | Raised(error: Error) {
    function Status(): int {
      match this
      case Exited(c) => c
      case Finished => 0
      case Raised(_) => 1
    }
  }
}
