/** Optional values, used for the server's `Option<T>` fields and the client's `T | null`. */
module Wrappers {
  datatype Option<+T> = None | Some(value: T)
}

/**
 * The server's wire and storage types: a stored `Message`, its `Priority`,
 * the `CreateMessage` request body, the partial `UpdateMessage` body and the
 * pagination query.
 */
module Models {
  import opened Wrappers

  /** A UUID is a 128-bit value; parsing its text form is left to the caller. */
  type Uuid = x: nat | x < 0x1_0000_0000_0000_0000_0000_0000_0000_0000

  /** A UTC instant, in whole seconds since the Unix epoch. */
  type Timestamp = int

  /** An unsigned 32-bit query parameter. */
  newtype u32 = x: int | 0 <= x < 0x1_0000_0000

  datatype Priority = Low | Normal | High | Urgent

  /** The lowercase serde encoding of a priority. */
  function EncodePriority(p: Priority): (s: string)
    ensures DecodePriority(s) == Some(p)
  {
    match p
    case Low => "low"
    case Normal => "normal"
    case High => "high"
    case Urgent => "urgent"
  }

  /** Deserializing a priority accepts exactly the four lowercase names. */
  function DecodePriority(s: string): (r: Option<Priority>)
    ensures r.Some? <==> s in {"low", "normal", "high", "urgent"}
  {
    if s == "low" then Some(Low)
    else if s == "normal" then Some(Normal)
    else if s == "high" then Some(High)
    else if s == "urgent" then Some(Urgent)
    else None
  }

  /** Every accepted string is the encoding of the priority it decodes to. */
  lemma EncodeDecode(s: string)
    requires DecodePriority(s).Some?
    ensures EncodePriority(DecodePriority(s).value) == s
  {
  }

  /** A stored notice. `id`, `createdAt` and `updatedAt` are assigned by the store. */
  datatype Message = Message(
    id: Uuid,
    title: string,
    content: string,
    author: string,
    createdAt: Timestamp,
    updatedAt: Timestamp,
    priority: Priority,
    expiresAt: Option<Timestamp>,
    enabled: bool)

  /** The body of a creation request: no id and no timestamps. */
  datatype CreateMessage = CreateMessage(
    title: string,
    content: string,
    author: string,
    priority: Priority,
    expiresAt: Option<Timestamp>)

  /** The body of a partial update: every field may be absent. */
  datatype UpdateMessage = UpdateMessage(
    title: Option<string>,
    content: Option<string>,
    author: Option<string>,
    priority: Option<Priority>,
    expiresAt: Option<Timestamp>,
    enabled: Option<bool>)

  /** An update that names no field at all. */
  const EmptyUpdate := UpdateMessage(None, None, None, None, None, None)

  datatype PaginationParams = PaginationParams(page: Option<u32>, pageSize: Option<u32>)

  /** The error half of the store's `anyhow::Result`: the only failure is writing data.json. */
  datatype StoreError = WriteFailed

  datatype StoreResult<+T> = Ok(value: T) | Err(error: StoreError)
}
