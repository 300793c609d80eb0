/**
 * The file-manager child, seen from outside. Its machine is not part of this
 * model: the orchestrator and the upload panel only ask whether its snapshot
 * matches `ready` or `error`, and only ever send it `UPLOAD_FILE`.
 */
module FileManager {
  import opened Documents

  /** Which state the child's snapshot matches. */
  datatype Status = Idle | Ready | Error | Other(name: string)

  /** The one event the orchestrator forwards to it. */
  datatype Event = UploadFile(file: File)

  /** How the child reacts to an event: supplied by whoever composes the system. */
  type Reaction = (Status, Event) -> Status
}
