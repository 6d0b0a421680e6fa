/**
 * The HTTP handlers: each turns the path id and the store's answer into a
 * status code and a JSON body. The store is passed in as the functions the
 * handler calls, and `Uuid::parse_str` as `parse`, so that a handler's answer
 * can be stated for every store.
 */
module Handlers {
  import opened Wrappers
  import opened Models
  import Storage

  const OK: nat := 200
  const CREATED: nat := 201
  const NO_CONTENT: nat := 204
  const BAD_REQUEST: nat := 400
  const NOT_FOUND: nat := 404
  const INTERNAL_SERVER_ERROR: nat := 500

  /** A handler's answer: a success status with its body, or an error status alone. */
  datatype Reply<+T> = Success(status: nat, body: T) | Failure(status: nat)

  /**
   * The listing handlers (all messages, active messages, clients, stats):
   * the store's value as JSON with 200, or 500. What the store computes for
   * the active listing is not part of this model; only this mapping is.
   */
  function JsonOr500<T>(outcome: StoreResult<T>): (r: Reply<T>)
    ensures outcome.Ok? <==> r.Success?
    ensures outcome.Ok? ==> r == Success(OK, outcome.value)
    ensures outcome.Err? ==> r == Failure(INTERNAL_SERVER_ERROR)
  {
    match outcome
    case Ok(v) => Success(OK, v)
    case Err(_) => Failure(INTERNAL_SERVER_ERROR)
  }

  /** POST /api/messages: the stored message with 201, or 500. */
  function CreateMessage(outcome: StoreResult<Message>): (r: Reply<Message>)
    ensures outcome.Ok? <==> r.Success?
    ensures outcome.Ok? ==> r == Success(CREATED, outcome.value)
    ensures outcome.Err? ==> r == Failure(INTERNAL_SERVER_ERROR)
  {
    match outcome
    case Ok(m) => Success(CREATED, m)
    case Err(_) => Failure(INTERNAL_SERVER_ERROR)
  }

  /** A missing page number, or 0, becomes page 1. */
  function NormalizePage(page: Option<u32>): (r: u32)
    ensures 1 <= r
    ensures page.Some? && page.value >= 1 ==> r == page.value
    ensures page.None? || page.value == 0 ==> r == 1
  {
    var p := if page.Some? then page.value else 1;
    if p < 1 then 1 else p
  }

  /** A missing page size becomes 10; any size is then clamped into 1..100. */
  function NormalizePageSize(pageSize: Option<u32>): (r: u32)
    ensures 1 <= r <= 100
    ensures pageSize.None? ==> r == 10
    ensures pageSize.Some? && 1 <= pageSize.value <= 100 ==> r == pageSize.value
    ensures pageSize.Some? && pageSize.value == 0 ==> r == 1
    ensures pageSize.Some? && pageSize.value > 100 ==> r == 100
  {
    var s := if pageSize.Some? then pageSize.value else 10;
    if s < 1 then 1 else if s > 100 then 100 else s
  }

  /**
   * GET /api/messages/paginated: the store is asked for the normalised page,
   * whatever the query held. What the store returns for a page is not part of
   * this model.
   */
  function GetMessagesPaginated<P>(params: PaginationParams, page: (u32, u32) -> StoreResult<P>): (r: Reply<P>)
    ensures r == JsonOr500(page(NormalizePage(params.page), NormalizePageSize(params.pageSize)))
  {
    var p := NormalizePage(params.page);
    var size := NormalizePageSize(params.pageSize);
    JsonOr500(page(p, size))
  }

  /** The answer of a handler that looks one message up: 200, 404 or 500. */
  function FoundOr404(outcome: StoreResult<Option<Message>>): (r: Reply<Message>)
    ensures r.Success? <==> outcome.Ok? && outcome.value.Some?
    ensures r.Success? ==> r == Success(OK, outcome.value.value)
    ensures outcome == Ok(None) ==> r == Failure(NOT_FOUND)
    ensures outcome.Err? ==> r == Failure(INTERNAL_SERVER_ERROR)
  {
    match outcome
    case Ok(Some(m)) => Success(OK, m)
    case Ok(None) => Failure(NOT_FOUND)
    case Err(_) => Failure(INTERNAL_SERVER_ERROR)
  }

  /** GET /api/messages/{id}. A malformed id is answered with 400 before the store is asked. */
  function GetMessage(id: string, parse: string -> Option<Uuid>, get: Uuid -> StoreResult<Option<Message>>)
    : (r: Reply<Message>)
    ensures parse(id).None? ==> r == Failure(BAD_REQUEST)
    ensures parse(id).Some? ==> r == FoundOr404(get(parse(id).value))
  {
    match parse(id)
    case None => Failure(BAD_REQUEST)
    case Some(uuid) => FoundOr404(get(uuid))
  }

  /** PUT /api/messages/{id}. `update` is the store's update with the request's body. */
  function UpdateMessage(id: string, parse: string -> Option<Uuid>, update: Uuid -> StoreResult<Option<Message>>)
    : (r: Reply<Message>)
    ensures parse(id).None? ==> r == Failure(BAD_REQUEST)
    ensures parse(id).Some? ==> r == FoundOr404(update(parse(id).value))
  {
    match parse(id)
    case None => Failure(BAD_REQUEST)
    case Some(uuid) => FoundOr404(update(uuid))
  }

  /** DELETE /api/messages/{id}: 204 when something was removed, 404 when nothing was, 500 on error. */
  function DeleteMessage(id: string, parse: string -> Option<Uuid>, delete: Uuid -> StoreResult<bool>)
    : (r: Reply<()>)
    ensures r.Success? <==> parse(id).Some? && delete(parse(id).value) == Ok(true)
    ensures r.Success? ==> r.status == NO_CONTENT
    ensures parse(id).None? ==> r == Failure(BAD_REQUEST)
    ensures parse(id).Some? && delete(parse(id).value) == Ok(false) ==> r == Failure(NOT_FOUND)
    ensures parse(id).Some? && delete(parse(id).value).Err? ==> r == Failure(INTERNAL_SERVER_ERROR)
  {
    match parse(id)
    case None => Failure(BAD_REQUEST)
    case Some(uuid) =>
      match delete(uuid)
      case Ok(true) => Success(NO_CONTENT, ())
      case Ok(false) => Failure(NOT_FOUND)
      case Err(_) => Failure(INTERNAL_SERVER_ERROR)
  }

  /** The update the toggle handler sends: only `enabled` is named, negated. */
  function ToggleUpdate(current: Message): (u: UpdateMessage)
    ensures u.enabled == Some(!current.enabled)
    ensures u.(enabled := None) == EmptyUpdate
  {
    Models.UpdateMessage(None, None, None, None, None, Some(!current.enabled))
  }

  /**
   * POST /api/messages/{id}/toggle: reads the message, then sends the store an
   * update naming only the negated `enabled`. The store is not asked to update
   * when the id is malformed, unknown, or the read fails.
   */
  function ToggleMessageEnabled(
    id: string,
    parse: string -> Option<Uuid>,
    get: Uuid -> StoreResult<Option<Message>>,
    update: (Uuid, UpdateMessage) -> StoreResult<Option<Message>>)
    : (r: Reply<Message>)
    ensures parse(id).None? ==> r == Failure(BAD_REQUEST)
    ensures parse(id).Some? && get(parse(id).value) == Ok(None) ==> r == Failure(NOT_FOUND)
    ensures parse(id).Some? && get(parse(id).value).Err? ==> r == Failure(INTERNAL_SERVER_ERROR)
    ensures parse(id).Some? && get(parse(id).value).Ok? && get(parse(id).value).value.Some? ==>
      var uuid := parse(id).value;
      r == FoundOr404(update(uuid, ToggleUpdate(get(uuid).value.value)))
  {
    match parse(id)
    case None => Failure(BAD_REQUEST)
    case Some(uuid) =>
      match get(uuid)
      case Ok(None) => Failure(NOT_FOUND)
      case Err(_) => Failure(INTERNAL_SERVER_ERROR)
      case Ok(Some(current)) => FoundOr404(update(uuid, ToggleUpdate(current)))
  }

  /**
   * A malformed id gets 400 from every id-taking handler, whatever the store
   * would have answered: the store is never consulted.
   */
  lemma MalformedIdNeverReachesStore(
    id: string,
    parse: string -> Option<Uuid>,
    get1: Uuid -> StoreResult<Option<Message>>, get2: Uuid -> StoreResult<Option<Message>>,
    del1: Uuid -> StoreResult<bool>, del2: Uuid -> StoreResult<bool>,
    upd1: (Uuid, UpdateMessage) -> StoreResult<Option<Message>>,
    upd2: (Uuid, UpdateMessage) -> StoreResult<Option<Message>>)
    requires parse(id).None?
    ensures GetMessage(id, parse, get1) == GetMessage(id, parse, get2) == Failure(BAD_REQUEST)
    ensures UpdateMessage(id, parse, get1) == UpdateMessage(id, parse, get2) == Failure(BAD_REQUEST)
    ensures DeleteMessage(id, parse, del1) == DeleteMessage(id, parse, del2) == Failure(BAD_REQUEST)
    ensures ToggleMessageEnabled(id, parse, get1, upd1) == ToggleMessageEnabled(id, parse, get2, upd2)
    ensures ToggleMessageEnabled(id, parse, get1, upd1) == Failure(BAD_REQUEST)
  {
  }

  /** A toggle of an unknown message answers 404 whatever the update would have done. */
  lemma ToggleOfMissingNeverUpdates(
    id: string,
    parse: string -> Option<Uuid>,
    get: Uuid -> StoreResult<Option<Message>>,
    upd1: (Uuid, UpdateMessage) -> StoreResult<Option<Message>>,
    upd2: (Uuid, UpdateMessage) -> StoreResult<Option<Message>>)
    requires parse(id).Some? && get(parse(id).value) == Ok(None)
    ensures ToggleMessageEnabled(id, parse, get, upd1) == ToggleMessageEnabled(id, parse, get, upd2)
    ensures ToggleMessageEnabled(id, parse, get, upd1) == Failure(NOT_FOUND)
  {
  }

  /**
   * Because the store ignores the `enabled` field of an update, the update the
   * toggle handler sends leaves the stored flag as it was.
   */
  lemma ToggleLeavesStoredFlag(current: Message, now: Timestamp)
    ensures Storage.ApplyUpdate(current, ToggleUpdate(current), now).enabled == current.enabled
    ensures Storage.ApplyUpdate(current, ToggleUpdate(current), now) == current.(updatedAt := now)
  {
    Storage.EmptyUpdateOnlyTouches(current, now);
    Storage.UpdateIgnoresEnabled(current, ToggleUpdate(current), now);
  }
}
