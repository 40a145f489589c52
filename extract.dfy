/**
 * The extraction records that webhook.go reads but does not define: the
 * status enumeration, the internal Extract item and the extraction
 * response attached to it. Only the fields webhook.go touches are kept.
 */
module Extract {
  import opened Wrappers
  import opened Bytes

  /** ExtractStatus is a uint8 enumeration; webhook.go compares it with == and <=. */
  newtype ExtractStatus = s: int | 0 <= s < 256

  /*
   * The enumeration's values, defined outside webhook.go. It counts up from
   * WAITING; EXTRACTED is the last status of the extraction stage and
   * IMPORTED comes right after it. No proof depends on these values.
   */
  const WAITING: ExtractStatus := 0
  const EXTRACTED: ExtractStatus := 4
  const IMPORTED: ExtractStatus := 5

  /** The synthetic application name of the folder watcher, defined outside webhook.go. */
  const FolderString: Bytes := FromString("Folder")

  /** The result of one extraction (the fields the webhook payload copies). */
  datatype Response = Response(
    Extras: seq<Bytes>,
    Archives: seq<Bytes>,
    NewFiles: seq<Bytes>,
    Started: int,          // a timestamp, opaque here
    Output: Bytes,
    Size: int,
    Elapsed: int,          // a duration, opaque here
    Error: Option<Bytes>)  // the text of the error, when there was one

  /** One item moving through the extraction pipeline. */
  datatype Extract = Extract(
    Path: Bytes,
    App: Bytes,
    IDs: map<Bytes, Bytes>,
    Updated: int,
    Status: ExtractStatus,
    Resp: Option<Response>)
}
